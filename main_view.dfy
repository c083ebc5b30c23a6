/** The main panel (src/components/layout/MainContent.tsx): the per-course action menu,
    course selection, the create-course dialog that also creates an orientation
    lecture, what the lecture view shows, and the menu labels. */
module MainView {
  import opened Common
  import opened Layout

  /** getMenuName */
  function MenuName(m: MenuItem): string
  {
    match m
    case Dashboard => "대시보드"
    case Lectures => "강의"
    case Assignments => "과제"
    case ExamCreation => "시험생성"
    case Reports => "보고서"
    case StudentManagement => "학생관리"
    case Settings => "환경설정"
    case Help => "도움말"
  }

  /** Every menu entry has a label of its own, and none is empty, so the fallback
      "이 기능" is never used. */
  lemma MenuNamesDistinct(a: MenuItem, b: MenuItem)
    ensures MenuName(a) != ""
    ensures MenuName(a) == MenuName(b) ==> a == b
  {
  }

  /** The menu open after `toggleCourseMenu(id)`. */
  function ToggledMenu(prev: Option<int>, id: int): (r: Option<int>)
    ensures r.None? <==> prev == Some(id)
    ensures r.Some? ==> r.value == id
  {
    if prev == Some(id) then None else Some(id)
  }

  /** Toggling the same course twice ends with its menu open again only if it started
      closed, and toggling another course moves the menu there. */
  lemma ToggleTwice(prev: Option<int>, id: int, other: int)
    ensures ToggledMenu(ToggledMenu(prev, id), id) == if prev == Some(id) then Some(id) else None
    ensures other != id ==> ToggledMenu(ToggledMenu(prev, id), other) == Some(other)
  {
  }

  /** `Boolean(lectureMarkdown) || Boolean(fileUrl)` */
  predicate HasLectureContent(markdown: Option<string>, fileUrl: Option<string>)
  {
    (markdown.Some? && markdown.value != "") || (fileUrl.Some? && fileUrl.value != "")
  }

  /** What the lecture area shows: the prompt to pick a lecture, or the generated
      material and the file, the file as an embedded PDF or as a download link. */
  datatype FilePanel = NoFile | PdfFrame | DownloadLink
  datatype LectureArea = SelectPrompt | LectureContent(markdownShown: bool, file: FilePanel)

  /** `fileName?.toLowerCase().endsWith(".pdf")` */
  predicate IsPdfName(fileName: Option<string>)
  {
    fileName.Some? && var l := Lower(fileName.value); |l| >= 4 && l[|l| - 4..] == ".pdf"
  }

  /** The lecture area of the course page: the content view exactly when there is
      material or a file; inside it, each part exactly when it is there. */
  function LectureAreaOf(markdown: Option<string>, fileUrl: Option<string>, fileName: Option<string>): (a: LectureArea)
    ensures a.SelectPrompt? <==> !HasLectureContent(markdown, fileUrl)
    ensures a.LectureContent? ==> (a.markdownShown <==> markdown.Some? && markdown.value != "")
    ensures a.LectureContent? ==> (a.file.NoFile? <==> !(fileUrl.Some? && fileUrl.value != ""))
    ensures a.LectureContent? && !a.file.NoFile? ==> (a.file.PdfFrame? <==> IsPdfName(fileName))
  {
    if !HasLectureContent(markdown, fileUrl) then SelectPrompt
    else
      var file := if !(fileUrl.Some? && fileUrl.value != "") then NoFile
                  else if IsPdfName(fileName) then PdfFrame else DownloadLink;
      LectureContent(markdown.Some? && markdown.value != "", file)
  }

  /** The content view never comes up empty: it shows the material or the file. */
  lemma ContentAreaNeverEmpty(markdown: Option<string>, fileUrl: Option<string>, fileName: Option<string>)
    ensures var a := LectureAreaOf(markdown, fileUrl, fileName);
      a.LectureContent? ==> a.markdownShown || !a.file.NoFile?
  {
  }

  /** `lectures.find(l => l.lectureId === selected)` */
  function FindLecture(lectures: seq<Lecture>, selected: Option<int>): (r: Option<Lecture>)
    ensures r.Some? ==> selected.Some? && r.value in lectures && r.value.lectureId == selected.value
    ensures r.None? <==> selected.None? || forall l :: l in lectures ==> l.lectureId != selected.value
  {
    if selected.None? || lectures == [] then None
    else if lectures[0].lectureId == selected.value then Some(lectures[0])
    else
      var r := FindLecture(lectures[1..], selected);
      assert forall l :: l in lectures ==> l == lectures[0] || l in lectures[1..];
      r
  }

  /** The orientation panel shows when the selected lecture is in week 0. */
  predicate IsOTSelected(detail: CourseDetail, selected: Option<int>)
  {
    detail.lectures.Some? &&
    var l := FindLecture(detail.lectures.value, selected);
    l.Some? && l.value.weekNumber == 0
  }

  predicate UniqueIds(lectures: seq<Lecture>)
  {
    forall i, j :: 0 <= i < |lectures| && 0 <= j < |lectures| && lectures[i].lectureId == lectures[j].lectureId ==> i == j
  }

  /** With lecture ids unique, the orientation panel shows exactly when the selected
      lecture exists and is in week 0. */
  lemma {:induction false} OTSelectedIff(lectures: seq<Lecture>, selected: int)
    requires UniqueIds(lectures)
    ensures FindLecture(lectures, Some(selected)).Some? && FindLecture(lectures, Some(selected)).value.weekNumber == 0
      <==> exists l :: l in lectures && l.lectureId == selected && l.weekNumber == 0
  {
    if lectures != [] && lectures[0].lectureId != selected {
      var rest := lectures[1..];
      assert UniqueIds(rest) by {
        forall i, j | 0 <= i < |rest| && 0 <= j < |rest| && rest[i].lectureId == rest[j].lectureId ensures i == j {
          assert lectures[i + 1] == rest[i] && lectures[j + 1] == rest[j];
        }
      }
      OTSelectedIff(rest, selected);
      assert forall l :: l in lectures && l.lectureId == selected ==> l in rest by {
        forall l | l in lectures && l.lectureId == selected ensures l in rest {
          var k :| 0 <= k < |lectures| && lectures[k] == l;
          assert k != 0;
          assert rest[k - 1] == l;
        }
      }
    } else if lectures != [] {
      forall l | l in lectures && l.lectureId == selected ensures l == lectures[0] {
        var k :| 0 <= k < |lectures| && lectures[k] == l;
      }
    }
  }

  const TitleRequiredAlert := "과목 제목을 입력해주세요."
  const CourseCreatedAlert := "과목이 생성되었습니다!"
  const CourseCreateFailedText := "과목 생성에 실패했습니다."
  const OrientationTitle := "OT"
  const OrientationDescription := "오리엔테이션"

  /** The remote calls the dialog makes. */
  datatype CreateCall =
    | CreateCourseCall(title: string, description: string)
    | CreateLectureCall(courseId: int, title: string, weekNumber: int, description: string)

  /** The panel's own state. */
  class MainPanel {
    var openCourseMenuId: Option<int>
    var isCourseModalOpen: bool
    var courseModalTitle: string
    var courseModalDescription: string

    constructor ()
      ensures openCourseMenuId == None && !isCourseModalOpen && courseModalTitle == "" && courseModalDescription == ""
    {
      openCourseMenuId := None;
      isCourseModalOpen := false;
      courseModalTitle := "";
      courseModalDescription := "";
    }

    /** toggleCourseMenu */
    method ToggleCourseMenu(courseId: int)
      modifies this`openCourseMenuId
      ensures openCourseMenuId == ToggledMenu(old(openCourseMenuId), courseId)
    {
      if openCourseMenuId == Some(courseId) {
        openCourseMenuId := None;
      } else {
        openCourseMenuId := Some(courseId);
      }
    }

    /** A click outside the open menu, or Escape, closes it. */
    method CloseCourseMenu()
      modifies this`openCourseMenuId
      ensures openCourseMenuId == None
    {
      openCourseMenuId := None;
    }

    /** handleCourseSelect: the parent is told the course, and any open menu closes. */
    method CourseSelect(courseId: int) returns (selected: int)
      modifies this`openCourseMenuId
      ensures selected == courseId && openCourseMenuId == None
    {
      selected := courseId;
      openCourseMenuId := None;
    }

    method OpenCourseModal()
      modifies this`isCourseModalOpen
      ensures isCourseModalOpen
    {
      isCourseModalOpen := true;
    }

    /** handleCreateCourse: a blank title is refused without a call; otherwise the
        course is created with the trimmed fields, then a week-0 orientation lecture,
        whose failure still reports the course as created without lectures. Success
        clears and closes the dialog; a failed course creation leaves it as it was. */
    method CreateCourse(courseReply: Remote<CourseDetail>, lectureReply: Remote<Lecture>)
      returns (calls: seq<CreateCall>, created: Option<CourseDetail>, alert: string)
      modifies this`isCourseModalOpen, this`courseModalTitle, this`courseModalDescription
      ensures IsBlank(old(courseModalTitle)) ==>
        calls == [] && created == None && alert == TitleRequiredAlert
        && courseModalTitle == old(courseModalTitle) && courseModalDescription == old(courseModalDescription)
        && isCourseModalOpen == old(isCourseModalOpen)
      ensures !IsBlank(old(courseModalTitle)) ==>
        |calls| >= 1 && calls[0] == CreateCourseCall(Trim(old(courseModalTitle)), Trim(old(courseModalDescription)))
      ensures !IsBlank(old(courseModalTitle)) && courseReply.Threw? ==>
        calls == [CreateCourseCall(Trim(old(courseModalTitle)), Trim(old(courseModalDescription)))]
        && created == None && alert == MessageOr(courseReply.error, CourseCreateFailedText)
        && courseModalTitle == old(courseModalTitle) && courseModalDescription == old(courseModalDescription)
        && isCourseModalOpen == old(isCourseModalOpen)
      ensures !IsBlank(old(courseModalTitle)) && courseReply.Ok? ==>
        var course := courseReply.value;
        && calls == [CreateCourseCall(Trim(old(courseModalTitle)), Trim(old(courseModalDescription))),
                     CreateLectureCall(course.courseId, OrientationTitle, 0, OrientationDescription)]
        && created == Some(if lectureReply.Ok? then course.(lectures := Some([lectureReply.value])) else course)
        && alert == CourseCreatedAlert
        && courseModalTitle == "" && courseModalDescription == "" && !isCourseModalOpen
    {
      if IsBlank(courseModalTitle) {
        return [], None, TitleRequiredAlert;
      }
      calls := [CreateCourseCall(Trim(courseModalTitle), Trim(courseModalDescription))];
      match courseReply {
        case Threw(e) =>
          created := None;
          alert := MessageOr(e, CourseCreateFailedText);
        case Ok(course) =>
          calls := calls + [CreateLectureCall(course.courseId, OrientationTitle, 0, OrientationDescription)];
          match lectureReply {
            case Ok(ot) => created := Some(course.(lectures := Some([ot])));
            case Threw(_) => created := Some(course);
          }
          courseModalTitle := "";
          courseModalDescription := "";
          isCourseModalOpen := false;
          alert := CourseCreatedAlert;
      }
    }
  }
}
