/** Creating a lecture from the chat side bar (src/components/layout/RightSidebar.tsx):
    the lecture dialog's own checks (handleLectureModalSubmit), the checks of
    createLectureForCourse, and the progress, success and failure messages it posts.

    A refusal by createLectureForCourse is thrown before any message is posted, and the
    dialog's handler swallows it; `ModalSubmitAsWritten` models that, and
    `ModalSubmit` reports the refusal in the chat as the other failures are. */
module LectureCreation {
  import opened Common
  import Tutoring
  import Layout

  const SelectCourseFirstAlert := "강의실을 먼저 선택해주세요."
  const TitleRequiredText := "강의 제목을 입력해주세요."
  const ModalWeekRequiredAlert := "주차 번호를 입력해주세요."
  const WeekRequiredText := "주차 번호를 입력해주세요. (0 이상)"
  const DuplicateWeekText := "주차는 이미 존재합니다. 다른 주차를 선택해주세요."
  const CreatingText := "강의를 생성하는 중..."
  const CreateFailedPrefix := "강의 생성 실패: "
  const UnknownErrorText := "알 수 없는 오류"
  const CorsHintText := "💡 이 문제는 백엔드 설정 문제입니다. 백엔드 개발자에게 문의해주세요."

  /** A number as a template literal prints it. */
  function IntText(n: int): string
  {
    if n < 0 then "-" + NatToString(-n) else NatToString(n)
  }

  /** `lectures.find((l) => l.weekNumber === week)`; NaN equals nothing. */
  function FindWeek(lectures: seq<Layout.Lecture>, week: JsNumber): (r: Option<Layout.Lecture>)
    ensures r.Some? ==> week.Finite? && r.value in lectures && r.value.weekNumber == week.value
    ensures r.None? <==> week.NaN? || forall l :: l in lectures ==> l.weekNumber != week.value
  {
    if week.NaN? || lectures == [] then None
    else if lectures[0].weekNumber == week.value then Some(lectures[0])
    else
      var r := FindWeek(lectures[1..], week);
      assert forall l :: l in lectures ==> l == lectures[0] || l in lectures[1..];
      r
  }

  /** The message createLectureForCourse throws before creating anything, if any: a
      blank title, then a negative week, then a week the course already has. */
  function NewLectureRefusal(title: string, week: JsNumber, lectures: Option<seq<Layout.Lecture>>): (r: Option<string>)
    ensures IsBlank(title) ==> r == Some(TitleRequiredText)
    ensures !IsBlank(title) && week.Finite? && week.value < 0 ==> r == Some(WeekRequiredText)
    ensures r.None? <==>
      !IsBlank(title)
      && (week.Finite? ==> week.value >= 0 && (lectures.Some? ==> forall l :: l in lectures.value ==> l.weekNumber != week.value))
    ensures r.Some? && r != Some(TitleRequiredText) && r != Some(WeekRequiredText) ==>
      week.Finite? && week.value >= 0 && r == Some(NatToString(week.value) + DuplicateWeekText)
  {
    if IsBlank(title) then Some(TitleRequiredText)
    else if week.Finite? && week.value < 0 then Some(WeekRequiredText)
    else if lectures.Some? && FindWeek(lectures.value, week).Some? then
      Some(NatToString(week.value) + DuplicateWeekText)
    else None
  }

  /** `prev.map((m) => m.id === id ? replacement : m)` */
  function ReplaceId(msgs: seq<Tutoring.Message>, id: nat, replacement: Tutoring.Message): (r: seq<Tutoring.Message>)
    ensures |r| == |msgs|
    ensures forall i :: 0 <= i < |msgs| ==> r[i] == if msgs[i].id == id then replacement else msgs[i]
  {
    if msgs == [] then []
    else [if msgs[0].id == id then replacement else msgs[0]] + ReplaceId(msgs[1..], id, replacement)
  }

  /** Replacing the id of the message just posted replaces that message only. */
  lemma {:induction false} ReplaceLast(msgs: seq<Tutoring.Message>, posted: Tutoring.Message, replacement: Tutoring.Message)
    requires forall m :: m in msgs ==> m.id < posted.id
    ensures ReplaceId(msgs + [posted], posted.id, replacement) == msgs + [replacement]
  {
    var r := ReplaceId(msgs + [posted], posted.id, replacement);
    forall i | 0 <= i < |msgs| ensures r[i] == msgs[i] {
      assert (msgs + [posted])[i] == msgs[i] && msgs[i] in msgs;
    }
    assert r[|msgs|] == replacement;
  }

  /** The text of the message that replaces the progress message on success. */
  function CreatedText(lecture: Layout.Lecture): string
  {
    "강의 생성 완료!\n강의 ID: " + IntText(lecture.lectureId) + "\n제목: " + lecture.title
    + "\n주차: " + IntText(lecture.weekNumber) + "주차"
  }

  /** The lecture dialog's fields. */
  datatype Modal = Modal(open: bool, title: string, week: string, creating: bool)

  /** The body of the `createLecture` call. */
  datatype LectureRequest = LectureRequest(courseId: int, title: string, weekNumber: JsNumber)

  datatype SubmitOutcome = SubmitOutcome(
    modal: Modal,
    state: Tutoring.SidebarState,
    alert: Option<string>,
    request: Option<LectureRequest>)

  /** createLectureForCourse after its checks passed: a progress message is posted, the
      lecture is requested with the trimmed title, and the progress message becomes the
      success message, or a failure message (and a hint when the failure mentions
      CORS) is added after it. `reply` is what `createLecture` settles to. */
  function Create(s: Tutoring.SidebarState, courseId: int, title: string, week: JsNumber,
                  reply: Remote<Layout.Lecture>): (o: (Tutoring.SidebarState, LectureRequest))
  {
    var progress := Tutoring.Message(s.nextId, CreatingText, false, true, "");
    var posted := s.messages + [progress];
    var request := LectureRequest(courseId, Trim(title), week);
    match reply
    case Ok(lecture) =>
      var done := Tutoring.Message(s.nextId + 1, CreatedText(lecture), false, false, "");
      (s.(messages := ReplaceId(posted, progress.id, done), lectureId := lecture.lectureId, nextId := s.nextId + 3), request)
    case Threw(e) =>
      var text := MessageOr(e, UnknownErrorText);
      var failed := Tutoring.Message(s.nextId + 1, CreateFailedPrefix + text, false, false, "");
      var hint := if Contains(text, "CORS") then [Tutoring.Message(s.nextId + 2, CorsHintText, false, false, "")] else [];
      (s.(messages := posted + [failed] + hint, nextId := s.nextId + 3), request)
  }

  /** What happens in createLectureForCourse: the request is made with the trimmed
      title; on success the progress message alone is replaced by the success text and
      the new lecture becomes the current one; on failure the progress message stays
      and the failure follows it. */
  lemma CreateOutcome(s: Tutoring.SidebarState, courseId: int, title: string, week: JsNumber,
                      reply: Remote<Layout.Lecture>)
    requires Tutoring.IdsFresh(s)
    ensures var (t, req) := Create(s, courseId, title, week, reply);
      && req == LectureRequest(courseId, Trim(title), week)
      && Tutoring.IdsFresh(t)
      && (reply.Ok? ==>
            t.messages == s.messages + [Tutoring.Message(s.nextId + 1, CreatedText(reply.value), false, false, "")]
            && t.lectureId == reply.value.lectureId)
      && (reply.Threw? ==>
            t.messages[..|s.messages| + 2] ==
              s.messages + [Tutoring.Message(s.nextId, CreatingText, false, true, ""),
                            Tutoring.Message(s.nextId + 1, CreateFailedPrefix + MessageOr(reply.error, UnknownErrorText), false, false, "")]
            && t.lectureId == s.lectureId
            && (|t.messages| == |s.messages| + 3 <==> Contains(MessageOr(reply.error, UnknownErrorText), "CORS")))
  {
    var progress := Tutoring.Message(s.nextId, CreatingText, false, true, "");
    if reply.Ok? {
      var done := Tutoring.Message(s.nextId + 1, CreatedText(reply.value), false, false, "");
      ReplaceLast(s.messages, progress, done);
    }
  }

  /** The checks the dialog makes itself, as an alert: no course (0 is falsy), a blank
      title, an empty week field or a week below 1. `Number` of a non-numeric field is
      NaN, which is not below 1. */
  function ModalRefusal(targetCourse: int, m: Modal): (r: Option<string>)
    ensures r.None? <==>
      targetCourse != 0 && !IsBlank(m.title) && m.week != ""
      && (ParseNumber(m.week).Finite? ==> ParseNumber(m.week).value >= 1)
  {
    if targetCourse == 0 then Some(SelectCourseFirstAlert)
    else if IsBlank(m.title) then Some(TitleRequiredText)
    else if m.week == "" || (ParseNumber(m.week).Finite? && ParseNumber(m.week).value < 1) then Some(ModalWeekRequiredAlert)
    else None
  }

  /** handleLectureModalSubmit as written: a refusal by createLectureForCourse is thrown
      before any message and caught without a word. */
  function ModalSubmitAsWritten(targetCourse: int, m: Modal, s: Tutoring.SidebarState,
                                lectures: Option<seq<Layout.Lecture>>, reply: Remote<Layout.Lecture>): (o: SubmitOutcome)
    ensures o.request.None? && o.alert.None? <==>
      ModalRefusal(targetCourse, m).None? && NewLectureRefusal(m.title, ParseNumber(m.week), lectures).Some?
    ensures o.request.None? && o.alert.None? ==> o.state == s && o.modal == m
  {
    var refused := ModalRefusal(targetCourse, m);
    if refused.Some? then
      SubmitOutcome(if targetCourse == 0 then m.(open := false) else m, s, refused, None)
    else
      var week := ParseNumber(m.week);
      if NewLectureRefusal(m.title, week, lectures).Some? then SubmitOutcome(m, s, None, None)
      else
        var (t, req) := Create(s, targetCourse, m.title, week, reply);
        var modal := if reply.Ok? then Modal(false, "", "", false) else m.(creating := false);
        SubmitOutcome(modal, t, None, Some(req))
  }

  /** A week the course already has gets neither an alert nor a chat message. */
  lemma DuplicateWeekIsSilent(s: Tutoring.SidebarState, reply: Remote<Layout.Lecture>)
    ensures var lectures := Some([Layout.Lecture(7, "Intro", 1, "")]);
      var o := ModalSubmitAsWritten(3, Modal(true, "A", "1", false), s, lectures, reply);
      o.alert == None && o.request == None && o.state == s && o.modal.open
  {
    assert Trim("A") == "A";
    ParseNatToString(1);
    assert NatToString(1) == "1";
  }

  /** handleLectureModalSubmit with every refusal reported: a refusal by
      createLectureForCourse is posted in the chat as its other failures are. */
  function ModalSubmit(targetCourse: int, m: Modal, s: Tutoring.SidebarState,
                       lectures: Option<seq<Layout.Lecture>>, reply: Remote<Layout.Lecture>): (o: SubmitOutcome)
    ensures o.request.Some? ==>
      targetCourse != 0 && !IsBlank(m.title) && o.request.value.title == Trim(m.title)
      && (o.request.value.weekNumber.Finite? ==>
            o.request.value.weekNumber.value >= 1
            && (lectures.Some? ==> forall l :: l in lectures.value ==> l.weekNumber != o.request.value.weekNumber.value))
  {
    var refused := ModalRefusal(targetCourse, m);
    if refused.Some? then
      SubmitOutcome(if targetCourse == 0 then m.(open := false) else m, s, refused, None)
    else
      var week := ParseNumber(m.week);
      var thrown := NewLectureRefusal(m.title, week, lectures);
      if thrown.Some? then
        SubmitOutcome(m, Tutoring.Post(s, CreateFailedPrefix + thrown.value, false, false, ""), None, None)
      else
        var (t, req) := Create(s, targetCourse, m.title, week, reply);
        var modal := if reply.Ok? then Modal(false, "", "", false) else m.(creating := false);
        SubmitOutcome(modal, t, None, Some(req))
  }

  /** Every submit is answered: it is either sent, or refused with an alert, or refused
      with a chat message. */
  lemma EverySubmitIsAnswered(targetCourse: int, m: Modal, s: Tutoring.SidebarState,
                              lectures: Option<seq<Layout.Lecture>>, reply: Remote<Layout.Lecture>)
    ensures var o := ModalSubmit(targetCourse, m, s, lectures, reply);
      o.request.Some? || o.alert.Some? || |o.state.messages| == |s.messages| + 1
  {
  }
}
