/** The page frame (src/components/layout/AppLayout.tsx): which course the route
    selects, what is reset when a course is entered or left, the lecture edit and
    delete handlers, the right side bar's resize bounds and the left side bar's
    automatic and manual collapse. */
module Layout {
  import opened Common
  import Courses

  // ---------------------------------------------------------------------------
  // The route

  datatype ViewMode = CourseList | CourseDetailView

  /** The eight entries of the left menu. */
  datatype MenuItem = Dashboard | Lectures | Assignments | ExamCreation | Reports
                    | StudentManagement | Settings | Help

  /** The `:courseId` route parameter: absent or empty gives no course, a number gives
      that id, anything else (NaN) gives no course. */
  function SelectedCourseId(param: Option<string>): (id: Option<int>)
    ensures param.None? || param == Some("") ==> id.None?
    ensures param.Some? && param.value != "" ==>
      (id.Some? <==> ParseNumber(param.value).Finite?)
    ensures id.Some? ==> param.Some? && ParseNumber(param.value) == Finite(id.value)
  {
    if param.None? || param.value == "" then None
    else
      match ParseNumber(param.value)
      case Finite(v) => Some(v)
      case NaN => None
  }

  /** The view is the course page exactly when the selected id is truthy, so id 0
      shows the course list. */
  function ViewModeOf(selected: Option<int>): (v: ViewMode)
  {
    if selected.Some? && selected.value != 0 then CourseDetailView else CourseList
  }

  /** The path `/courses/<id>` that course selection navigates to selects that course
      again. */
  lemma RouteRoundTrip(id: nat)
    ensures SelectedCourseId(Some(NatToString(id))) == Some(id)
    ensures ViewModeOf(SelectedCourseId(Some(NatToString(id)))) == if id == 0 then CourseList else CourseDetailView
  {
    ParseNatToString(id);
  }

  /** A parameter that is not a number leaves the course list in view. */
  lemma NotANumberIsList(param: string)
    requires param != "" && ParseNumber(param).NaN?
    ensures ViewModeOf(SelectedCourseId(Some(param))) == CourseList
  {
  }

  /** The menu kept when the course list comes back into view. */
  function MenuOnLeave(prev: MenuItem): (m: MenuItem)
    ensures m == Lectures || m == Dashboard
    ensures m == Lectures <==> prev == Lectures
  {
    if prev == Lectures then Lectures else Dashboard
  }

  // ---------------------------------------------------------------------------
  // Lectures of a course

  datatype Lecture = Lecture(lectureId: int, title: string, weekNumber: int, description: string)

  /** A course detail; `lectures` may be missing from the server's reply. */
  datatype CourseDetail = CourseDetail(courseId: int, lectures: Option<seq<Lecture>>)

  /** `lectures.find(l => l.weekNumber === week && l.lectureId !== except)` */
  function FindOtherWithWeek(lectures: seq<Lecture>, week: int, except: int): (r: Option<Lecture>)
    ensures r.Some? ==> r.value in lectures && r.value.weekNumber == week && r.value.lectureId != except
    ensures r.None? <==> forall l :: l in lectures ==> l.weekNumber != week || l.lectureId == except
  {
    if lectures == [] then None
    else if lectures[0].weekNumber == week && lectures[0].lectureId != except then Some(lectures[0])
    else
      var r := FindOtherWithWeek(lectures[1..], week, except);
      assert forall l :: l in lectures ==> l == lectures[0] || l in lectures[1..];
      r
  }

  const TitleEmptyAlert := "강의 제목은 비워둘 수 없습니다."
  const WeekInvalidAlert := "주차 번호는 0 이상의 숫자여야 합니다."
  const DescriptionEmptyAlert := "강의 설명은 비워둘 수 없습니다."
  const LectureEditedAlert := "강의 정보가 수정되었습니다."
  const LectureEditFailedText := "강의 정보 수정에 실패했습니다."
  const LectureDeletedAlert := "강의가 삭제되었습니다."
  const LectureDeleteFailedText := "강의 삭제에 실패했습니다."
  const DetailLoadFailedText := "강의실 정보를 불러오지 못했습니다."
  const DuplicateWeekSuffix := "주차는 이미 존재합니다."

  /** How the three prompts of an edit end: a prompt dismissed, a refusal with its
      alert, or the update to send. */
  datatype EditDecision = Dismissed | Refused(alert: string) | SendUpdate(title: string, week: int, description: string)

  /** The checks of handleLectureEdit in order. `titleIn`, `weekIn` and `descIn` are
      the answers to the three prompts (None when dismissed); a dismissed or refused
      prompt ends the edit before the next prompt is shown. */
  function LectureEditDecision(lecture: Lecture, lectures: Option<seq<Lecture>>,
                               titleIn: Option<string>, weekIn: Option<string>, descIn: Option<string>): (d: EditDecision)
  {
    if titleIn.None? then Dismissed
    else if IsBlank(titleIn.value) then Refused(TitleEmptyAlert)
    else if weekIn.None? then Dismissed
    else if ParseNumber(weekIn.value).NaN? || ParseNumber(weekIn.value).value < 0 then Refused(WeekInvalidAlert)
    else if descIn.None? then Dismissed
    else if IsBlank(descIn.value) then Refused(DescriptionEmptyAlert)
    else
      var week := ParseNumber(weekIn.value).value;
      if lectures.Some? && FindOtherWithWeek(lectures.value, week, lecture.lectureId).Some?
      then Refused(NatToString(week) + DuplicateWeekSuffix)
      else SendUpdate(Trim(titleIn.value), week, Trim(descIn.value))
  }

  /** An update is sent only with a non-empty title and description, a week of at least
      0 that no other lecture of the course holds, all taken from the prompts; and
      every answer that passes the checks is sent. */
  lemma LectureEditSendsOnlyValid(lecture: Lecture, lectures: Option<seq<Lecture>>,
                                  titleIn: Option<string>, weekIn: Option<string>, descIn: Option<string>)
    ensures var d := LectureEditDecision(lecture, lectures, titleIn, weekIn, descIn);
      d.SendUpdate? <==>
        && titleIn.Some? && !IsBlank(titleIn.value)
        && weekIn.Some? && ParseNumber(weekIn.value).Finite? && ParseNumber(weekIn.value).value >= 0
        && descIn.Some? && !IsBlank(descIn.value)
        && (lectures.Some? ==> forall l :: l in lectures.value ==>
              l.weekNumber != ParseNumber(weekIn.value).value || l.lectureId == lecture.lectureId)
    ensures var d := LectureEditDecision(lecture, lectures, titleIn, weekIn, descIn);
      d.SendUpdate? ==>
        d.title == Trim(titleIn.value) && d.description == Trim(descIn.value)
        && d.week == ParseNumber(weekIn.value).value && d.title != "" && d.description != ""
    ensures titleIn.None? ==> LectureEditDecision(lecture, lectures, titleIn, weekIn, descIn) == Dismissed
  {
  }

  /** Keeping a lecture's own week is never reported as a duplicate. */
  lemma OwnWeekIsNoDuplicate(lecture: Lecture, others: seq<Lecture>)
    requires forall l :: l in others ==> l.weekNumber != lecture.weekNumber
    ensures FindOtherWithWeek(others + [lecture], lecture.weekNumber, lecture.lectureId).None?
  {
  }

  const CourseTitleEmptyAlert := "강의실 제목은 비워둘 수 없습니다."
  const CourseEditedAlert := "강의실이 성공적으로 수정되었습니다."
  const CourseDeletedAlert := "강의실이 삭제되었습니다."

  /** How the two prompts of handleCourseEdit end: a prompt dismissed, a blank title
      refused, or the trimmed title and description to send. */
  datatype CourseEditDecision = EditDismissed | EditRefused(alert: string) | SendCourseUpdate(title: string, description: string)

  function DecideCourseEdit(titleIn: Option<string>, descIn: Option<string>): (d: CourseEditDecision)
  {
    if titleIn.None? then EditDismissed
    else if IsBlank(titleIn.value) then EditRefused(CourseTitleEmptyAlert)
    else if descIn.None? then EditDismissed
    else SendCourseUpdate(Trim(titleIn.value), Trim(descIn.value))
  }

  /** A course update is sent exactly when both prompts were answered and the title is
      not blank; the title sent is never empty, while a blank description is sent as
      the empty string. */
  lemma CourseEditSendsOnlyNamed(titleIn: Option<string>, descIn: Option<string>)
    ensures DecideCourseEdit(titleIn, descIn).SendCourseUpdate? <==>
      titleIn.Some? && !IsBlank(titleIn.value) && descIn.Some?
    ensures DecideCourseEdit(titleIn, descIn).EditRefused? <==> titleIn.Some? && IsBlank(titleIn.value)
    ensures var d := DecideCourseEdit(titleIn, descIn);
      d.SendCourseUpdate? ==>
        d.title == Trim(titleIn.value) && d.title != "" && d.description == Trim(descIn.value)
        && (IsBlank(descIn.value) ==> d.description == "")
  {
  }

  // ---------------------------------------------------------------------------
  // The side bars

  const DefaultLeftWidth := 220
  const CollapsedLeftWidth := 56
  const DefaultRightWidth := 420
  const MinRightWidth := 260
  const AutoCollapseBelow := 1024

  /** `newWidth <= innerWidth * 0.6`, in integers. */
  predicate WithinMax(width: int, innerWidth: int)
  {
    5 * width <= 3 * innerWidth
  }

  function EffectiveLeftWidth(collapsed: bool): (w: int)
    ensures w == CollapsedLeftWidth <==> collapsed
    ensures w == DefaultLeftWidth <==> !collapsed
  {
    if collapsed then CollapsedLeftWidth else DefaultLeftWidth
  }

  /** The layout's own state. */
  class AppLayout {
    var selectedMenu: MenuItem
    var courseDetail: Option<CourseDetail>
    var courseDetailError: Option<string>
    var isCourseDetailLoading: bool
    var currentCourseId: Option<int>
    var currentLectureId: Option<int>
    var lectureMarkdown: string
    var lectureFileUrl: string
    var lectureFileName: string
    var rightSidebarWidth: int
    var isResizingRight: bool
    var isLeftSidebarCollapsed: bool
    var isAutoCollapsed: bool

    /** The right side bar is never narrower than its minimum, and an automatic
        collapse is always a collapse. */
    ghost predicate Valid()
      reads this
    {
      rightSidebarWidth >= MinRightWidth && (isAutoCollapsed ==> isLeftSidebarCollapsed)
    }

    predicate OutputsCleared()
      reads this
    {
      lectureMarkdown == "" && lectureFileUrl == "" && lectureFileName == ""
    }

    constructor ()
      ensures Valid() && OutputsCleared()
      ensures selectedMenu == Dashboard && courseDetail == None && currentCourseId == None && currentLectureId == None
      ensures rightSidebarWidth == DefaultRightWidth && !isResizingRight
      ensures !isLeftSidebarCollapsed && !isAutoCollapsed
    {
      selectedMenu := Dashboard;
      courseDetail := None;
      courseDetailError := None;
      isCourseDetailLoading := false;
      currentCourseId := None;
      currentLectureId := None;
      lectureMarkdown := "";
      lectureFileUrl := "";
      lectureFileName := "";
      rightSidebarWidth := DefaultRightWidth;
      isResizingRight := false;
      isLeftSidebarCollapsed := false;
      isAutoCollapsed := false;
    }

    /** resetLectureOutputs */
    method ResetLectureOutputs()
      modifies this`lectureMarkdown, this`lectureFileUrl, this`lectureFileName
      ensures OutputsCleared()
    {
      lectureMarkdown := "";
      lectureFileUrl := "";
      lectureFileName := "";
    }

    /** loadCourseDetail, given what getCourseDetail resolved to (it turns every failure
        into null). */
    method LoadCourseDetail(reply: Option<CourseDetail>)
      modifies this`courseDetail, this`courseDetailError, this`isCourseDetailLoading
      ensures courseDetail == reply && !isCourseDetailLoading
      ensures courseDetailError == if reply.Some? then None else Some(DetailLoadFailedText)
    {
      isCourseDetailLoading := true;
      courseDetailError := None;
      if reply.Some? {
        courseDetail := reply;
      } else {
        courseDetail := None;
        courseDetailError := Some(DetailLoadFailedText);
      }
      isCourseDetailLoading := false;
    }

    /** The effect on the selected course id. Leaving (a falsy id) clears the course,
        its lecture and outputs and returns to the dashboard unless the lectures menu
        was chosen; entering selects the course, clears the lecture and outputs and
        loads the detail. */
    method CourseRouteChanged(selected: Option<int>, reply: Option<CourseDetail>)
      modifies this
      requires Valid()
      ensures Valid() && OutputsCleared() && currentLectureId == None
      ensures rightSidebarWidth == old(rightSidebarWidth)
      ensures isLeftSidebarCollapsed == old(isLeftSidebarCollapsed) && isAutoCollapsed == old(isAutoCollapsed)
      ensures ViewModeOf(selected) == CourseList ==>
        courseDetail == None && courseDetailError == None && currentCourseId == None
        && selectedMenu == MenuOnLeave(old(selectedMenu))
      ensures ViewModeOf(selected) == CourseDetailView ==>
        currentCourseId == selected && selectedMenu == old(selectedMenu) && courseDetail == reply
        && courseDetailError == (if reply.Some? then None else Some(DetailLoadFailedText))
    {
      if !(selected.Some? && selected.value != 0) {
        courseDetail := None;
        courseDetailError := None;
        currentCourseId := None;
        currentLectureId := None;
        ResetLectureOutputs();
        selectedMenu := MenuOnLeave(selectedMenu);
        return;
      }
      currentCourseId := selected;
      currentLectureId := None;
      ResetLectureOutputs();
      LoadCourseDetail(reply);
    }

    /** handleLectureSelect */
    method SelectLecture(lectureId: int)
      modifies this`currentLectureId, this`lectureMarkdown, this`lectureFileUrl, this`lectureFileName
      ensures currentLectureId == Some(lectureId) && OutputsCleared()
    {
      currentLectureId := Some(lectureId);
      ResetLectureOutputs();
    }

    /** handleBackToCourses: the lectures menu is chosen before going home, so the
        route effect keeps it. */
    method BackToCourses() returns (path: string)
      modifies this`selectedMenu
      ensures selectedMenu == Lectures && MenuOnLeave(selectedMenu) == Lectures && path == "/"
    {
      selectedMenu := Lectures;
      path := "/";
    }

    /** handleLectureDelete: without a course nothing happens; after the delete the
        selection and outputs are cleared only when the deleted lecture was the one
        selected, and the detail is reloaded. The result is the alert shown. */
    method LectureDelete(selected: Option<int>, lectureId: int, reply: Remote<()>, reloaded: Option<CourseDetail>)
      returns (alert: Option<string>)
      modifies this
      ensures ViewModeOf(selected) == CourseList ==> alert == None && unchanged(this)
      ensures ViewModeOf(selected) == CourseDetailView && reply.Threw? ==>
        alert == Some(MessageOr(reply.error, LectureDeleteFailedText)) && unchanged(this)
      ensures ViewModeOf(selected) == CourseDetailView && reply.Ok? ==>
        alert == Some(LectureDeletedAlert) && courseDetail == reloaded && !isCourseDetailLoading
        && courseDetailError == (if reloaded.Some? then None else Some(DetailLoadFailedText))
        && (old(currentLectureId) == Some(lectureId) ==> currentLectureId == None && OutputsCleared())
        && (old(currentLectureId) != Some(lectureId) ==>
              currentLectureId == old(currentLectureId) && lectureMarkdown == old(lectureMarkdown)
              && lectureFileUrl == old(lectureFileUrl) && lectureFileName == old(lectureFileName))
      ensures currentCourseId == old(currentCourseId) && selectedMenu == old(selectedMenu)
      ensures rightSidebarWidth == old(rightSidebarWidth) && isLeftSidebarCollapsed == old(isLeftSidebarCollapsed)
      ensures isAutoCollapsed == old(isAutoCollapsed)
    {
      if !(selected.Some? && selected.value != 0) {
        return None;
      }
      match reply {
        case Threw(e) =>
          alert := Some(MessageOr(e, LectureDeleteFailedText));
        case Ok(_) =>
          if currentLectureId == Some(lectureId) {
            currentLectureId := None;
            ResetLectureOutputs();
          }
          LoadCourseDetail(reloaded);
          alert := Some(LectureDeletedAlert);
      }
    }

    /** handleLectureEdit: the update is sent with what the checks let through; the
        result is whether it was sent and the alert shown. */
    method LectureEdit(selected: Option<int>, lecture: Lecture,
                       titleIn: Option<string>, weekIn: Option<string>, descIn: Option<string>,
                       reply: Remote<()>, reloaded: Option<CourseDetail>)
      returns (sent: Option<EditDecision>, alert: Option<string>)
      modifies this`courseDetail, this`courseDetailError, this`isCourseDetailLoading
      ensures ViewModeOf(selected) == CourseList ==> sent == None && alert == None && unchanged(this)
      ensures ViewModeOf(selected) == CourseDetailView ==>
        var d := LectureEditDecision(lecture, if old(courseDetail).Some? then old(courseDetail).value.lectures else None,
                                     titleIn, weekIn, descIn);
        && (sent.Some? <==> d.SendUpdate?)
        && (sent.Some? ==> sent.value == d)
        && (d.Dismissed? ==> alert == None && unchanged(this))
        && (d.Refused? ==> alert == Some(d.alert) && unchanged(this))
        && (d.SendUpdate? && reply.Ok? ==>
              alert == Some(LectureEditedAlert) && courseDetail == reloaded && !isCourseDetailLoading
              && courseDetailError == (if reloaded.Some? then None else Some(DetailLoadFailedText)))
        && (d.SendUpdate? && reply.Threw? ==>
              alert == Some(MessageOr(reply.error, LectureEditFailedText)) && unchanged(this))
    {
      if !(selected.Some? && selected.value != 0) {
        return None, None;
      }
      var lectures := if courseDetail.Some? then courseDetail.value.lectures else None;
      var d := LectureEditDecision(lecture, lectures, titleIn, weekIn, descIn);
      match d {
        case Dismissed =>
          sent, alert := None, None;
        case Refused(text) =>
          sent, alert := None, Some(text);
        case SendUpdate(_, _, _) =>
          sent := Some(d);
          match reply {
            case Ok(_) =>
              LoadCourseDetail(reloaded);
              alert := Some(LectureEditedAlert);
            case Threw(e) =>
              alert := Some(MessageOr(e, LectureEditFailedText));
          }
      }
    }

    /** handleCourseEdit: `result` is what updateCourse returned. The open course's
        detail is reloaded after a successful update of that course only. */
    method CourseEdit(courseId: int, titleIn: Option<string>, descIn: Option<string>,
                      result: Courses.OpResult, reloaded: Option<CourseDetail>)
      returns (sent: Option<CourseEditDecision>, alert: Option<string>)
      modifies this`courseDetail, this`courseDetailError, this`isCourseDetailLoading
      ensures var d := DecideCourseEdit(titleIn, descIn);
        && (sent.Some? <==> d.SendCourseUpdate?)
        && (sent.Some? ==> sent.value == d)
        && (d.EditDismissed? ==> alert == None)
        && (d.EditRefused? ==> alert == Some(d.alert))
        && (d.SendCourseUpdate? && result.FailedWith? ==> alert == Some(result.error))
        && (d.SendCourseUpdate? && result.Succeeded? ==> alert == Some(CourseEditedAlert))
      ensures var reload := DecideCourseEdit(titleIn, descIn).SendCourseUpdate? && result.Succeeded?
                            && currentCourseId == Some(courseId);
        && (reload ==> courseDetail == reloaded)
        && (!reload ==>
              courseDetail == old(courseDetail) && courseDetailError == old(courseDetailError)
              && isCourseDetailLoading == old(isCourseDetailLoading))
    {
      var d := DecideCourseEdit(titleIn, descIn);
      match d {
        case EditDismissed =>
          sent, alert := None, None;
        case EditRefused(text) =>
          sent, alert := None, Some(text);
        case SendCourseUpdate(_, _) =>
          sent := Some(d);
          match result {
            case FailedWith(error) =>
              alert := Some(error);
            case Succeeded =>
              if currentCourseId == Some(courseId) {
                LoadCourseDetail(reloaded);
              }
              alert := Some(CourseEditedAlert);
          }
      }
    }

    /** handleCourseDelete: `confirmed` is the answer to the confirmation and `result`
        what deleteCourse returned. Deleting the open course leaves it: detail,
        selection and outputs are cleared and the route goes to "/". */
    method CourseDelete(courseId: int, confirmed: bool, result: Courses.OpResult)
      returns (path: Option<string>, alert: Option<string>)
      modifies this
      ensures !confirmed ==> path == None && alert == None && unchanged(this)
      ensures confirmed && result.FailedWith? ==> path == None && alert == Some(result.error) && unchanged(this)
      ensures confirmed && result.Succeeded? && old(currentCourseId) == Some(courseId) ==>
        && path == Some("/") && alert == Some(CourseDeletedAlert)
        && courseDetail == None && courseDetailError == None && currentCourseId == None
        && currentLectureId == None && OutputsCleared()
      ensures confirmed && result.Succeeded? && old(currentCourseId) != Some(courseId) ==>
        path == None && alert == Some(CourseDeletedAlert) && unchanged(this)
      ensures selectedMenu == old(selectedMenu) && rightSidebarWidth == old(rightSidebarWidth)
      ensures isLeftSidebarCollapsed == old(isLeftSidebarCollapsed) && isAutoCollapsed == old(isAutoCollapsed)
    {
      if !confirmed {
        return None, None;
      }
      match result {
        case FailedWith(error) =>
          path, alert := None, Some(error);
        case Succeeded =>
          path := None;
          if currentCourseId == Some(courseId) {
            courseDetail := None;
            courseDetailError := None;
            currentCourseId := None;
            currentLectureId := None;
            ResetLectureOutputs();
            path := Some("/");
          }
          alert := Some(CourseDeletedAlert);
      }
    }

    /** handleRightMouseDown / handleRightMouseUp */
    method SetResizing(on: bool)
      modifies this`isResizingRight
      ensures isResizingRight == on
    {
      isResizingRight := on;
    }

    /** handleRightMouseMove: while resizing, the width follows the pointer only when it
        stays between 260 pixels and 60% of the window. */
    method RightMouseMove(clientX: int, innerWidth: int)
      modifies this`rightSidebarWidth
      requires Valid()
      ensures Valid()
      ensures var w := innerWidth - clientX;
        rightSidebarWidth ==
          if old(isResizingRight) && w >= MinRightWidth && WithinMax(w, innerWidth) then w else old(rightSidebarWidth)
    {
      if !isResizingRight {
        return;
      }
      var newWidth := innerWidth - clientX;
      if newWidth >= MinRightWidth && WithinMax(newWidth, innerWidth) {
        rightSidebarWidth := newWidth;
      }
    }

    /** handleRightDoubleClick */
    method RightDoubleClick()
      modifies this`rightSidebarWidth
      requires Valid()
      ensures Valid() && rightSidebarWidth == DefaultRightWidth
    {
      rightSidebarWidth := DefaultRightWidth;
    }

    /** The window resize handler: below 1024 pixels the left side bar collapses unless
        it already collapsed on its own; from 1024 up it expands again only if the
        collapse was automatic. */
    method WindowResized(innerWidth: int)
      modifies this`isLeftSidebarCollapsed, this`isAutoCollapsed
      requires Valid()
      ensures Valid()
      ensures innerWidth < AutoCollapseBelow ==> isLeftSidebarCollapsed && isAutoCollapsed
      ensures innerWidth >= AutoCollapseBelow && old(isAutoCollapsed) ==> !isLeftSidebarCollapsed && !isAutoCollapsed
      ensures innerWidth >= AutoCollapseBelow && !old(isAutoCollapsed) ==>
        isLeftSidebarCollapsed == old(isLeftSidebarCollapsed) && !isAutoCollapsed
    {
      var shouldAutoCollapse := innerWidth < AutoCollapseBelow;
      if shouldAutoCollapse && !isAutoCollapsed {
        isAutoCollapsed := true;
        isLeftSidebarCollapsed := true;
      } else if !shouldAutoCollapse && isAutoCollapsed {
        isAutoCollapsed := false;
        isLeftSidebarCollapsed := false;
      }
    }

    /** toggleLeftSidebar: a manual toggle flips the side bar and forgets that a
        collapse was automatic, so widening the window no longer expands it. */
    method ToggleLeftSidebar()
      modifies this`isLeftSidebarCollapsed, this`isAutoCollapsed
      requires Valid()
      ensures Valid()
      ensures isLeftSidebarCollapsed == !old(isLeftSidebarCollapsed) && !isAutoCollapsed
      ensures EffectiveLeftWidth(isLeftSidebarCollapsed) == if old(isLeftSidebarCollapsed) then DefaultLeftWidth else CollapsedLeftWidth
    {
      isAutoCollapsed := false;
      isLeftSidebarCollapsed := !isLeftSidebarCollapsed;
    }
  }
}
