/** The handlers of the tutoring side bar (src/components/layout/RightSidebar.tsx) as
    transitions on `SidebarState`: what Enter means, answering, advancing, starting,
    stopping, switching lectures and uploading material; and the whole-session theorem
    that no `next` or `answer` call reaches a lecture whose `initialize` has not
    succeeded. Each transition also reports the remote calls it made, in order. */
module TutoringSession {
  import opened Common
  import opened Tutoring

  /** A remote call of the side bar, with the lecture it is made for. */
  datatype Call =
    | Initialize(lecture: int, succeeded: bool)
    | Next(lecture: int)
    | Answer(lecture: int, questionId: string, answer: string)
    | Cancel(lecture: int)
    | UploadMaterial(lecture: int)

  /** The calls that need an initialized session on the server. */
  predicate NeedsSession(c: Call)
  {
    c.Next? || c.Answer?
  }

  datatype Outcome = Outcome(state: SidebarState, calls: seq<Call>)

  function NextCalls(lecture: int, n: nat): (r: seq<Call>)
    ensures |r| == n && forall c :: c in r ==> c == Next(lecture)
  {
    seq(n, _ => Next(lecture))
  }

  // ---------------------------------------------------------------------------
  // handleSendMessage

  /** What Enter does, in the order the handler tests it. */
  datatype SendAction = SubmitAnswer | SkipBlankAnswer | Advance | Start | Ignore

  /** The question gate of the answer branch: streaming, waiting, and both a question id
      and a lecture id present. */
  predicate AnswerGate(s: SidebarState)
  {
    s.isStreaming && s.waitingForAnswer && QuestionPending(s) && s.lectureId != 0
  }

  function ChooseAction(s: SidebarState): (a: SendAction)
    ensures a == SubmitAnswer <==> AnswerGate(s) && !IsBlank(s.inputText)
    ensures a == SkipBlankAnswer <==> AnswerGate(s) && IsBlank(s.inputText)
    ensures a == Advance <==> s.isStreaming && !s.waitingForAnswer
    ensures a == Start <==> !s.isStreaming && s.hasMaterial && s.lectureId != 0
  {
    if AnswerGate(s) then (if IsBlank(s.inputText) then SkipBlankAnswer else SubmitAnswer)
    else if s.isStreaming && !s.waitingForAnswer then Advance
    else if !s.isStreaming && s.hasMaterial && s.lectureId != 0 then Start
    else Ignore
  }

  /** While a session runs Enter never starts another one, and while it waits for an
      answer whose question id is missing (the error path raises the gate without one)
      Enter does nothing at all. */
  lemma EnterWhileStreaming(s: SidebarState)
    requires s.isStreaming
    ensures ChooseAction(s) != Start
    ensures s.waitingForAnswer && !QuestionPending(s) ==> ChooseAction(s) == Ignore
  {
  }

  /** `res.supplementary?.trim() || "보충 설명이 제공되지 않았습니다."` */
  function Supplementary(text: string): string
  {
    if IsBlank(text) then NoSupplementaryText else Trim(text)
  }

  /** The answer branch: the trimmed answer is posted and sent with the pending question
      id, a loading reply is posted, and the reply settles it: on success into the
      supplementary explanation, clearing the gate and fetching on only if the server
      can continue; on failure into an error, leaving the gate as it was. */
  function SubmitAnswerEffect(s: SidebarState, reply: Remote<AnswerReply>, polls: seq<PollStep>): Outcome
    requires QuestionPending(s)
  {
    var answer := Trim(s.inputText);
    var s1 := Post(s, answer, true, false, "").(inputText := "");
    var pending := s1.nextId;
    var s2 := Post(s1, "", false, true, "");
    var call := Answer(s.lectureId, s.questionId.value, answer);
    match reply
    case Ok(res) =>
      var s3 := s2.(messages := Settle(s2.messages, pending, SupplementaryHeader, Some(Supplementary(res.supplementary))),
                    waitingForAnswer := false, questionId := None);
      if res.canContinue then
        var f := Fetch(s3, None, polls);
        Outcome(f.state, [call] + NextCalls(s.lectureId, f.calls))
      else Outcome(s3, [call])
    case Threw(e) =>
      Outcome(s2.(messages := Settle(s2.messages, pending, ErrorPrefix + MessageOr(e, AnswerFailedText), None)), [call])
  }

  /** Enter while streaming and not waiting: the input is cleared and the next segment
      fetched. */
  function AdvanceEffect(s: SidebarState, polls: seq<PollStep>): Outcome
  {
    var f := Fetch(s.(inputText := ""), None, polls);
    Outcome(f.state, NextCalls(s.lectureId, f.calls))
  }

  /** Enter with material uploaded and no session: a loading message is posted and the
      session initialized; on success the session is streaming and the first fetch
      drops that loading message, on failure every message still loading becomes the
      error. */
  function StartEffect(s: SidebarState, init: Remote<()>, polls: seq<PollStep>): Outcome
  {
    var loading := s.nextId;
    var s1 := Post(s.(inputText := ""), "", false, true, "");
    match init
    case Ok(_) =>
      var f := Fetch(s1.(isStreaming := true), Some(loading), polls);
      Outcome(f.state, [Initialize(s.lectureId, true)] + NextCalls(s.lectureId, f.calls))
    case Threw(e) =>
      Outcome(s1.(messages := SettleLoading(s1.messages, ErrorPrefix + MessageOr(e, InitFailedText))),
              [Initialize(s.lectureId, false)])
  }

  /** handleSendMessage: one action by priority; a blank answer and an ignored Enter
      change nothing, not even the input box. */
  function Send(s: SidebarState, answer: Remote<AnswerReply>, init: Remote<()>, polls: seq<PollStep>): Outcome
  {
    match ChooseAction(s)
    case SubmitAnswer => SubmitAnswerEffect(s, answer, polls)
    case Advance => AdvanceEffect(s, polls)
    case Start => StartEffect(s, init, polls)
    case SkipBlankAnswer => Outcome(s, [])
    case Ignore => Outcome(s, [])
  }

  /** A blank answer and an ignored Enter change nothing and call nothing. */
  lemma EnterIgnored(s: SidebarState, answer: Remote<AnswerReply>, init: Remote<()>, polls: seq<PollStep>)
    requires ChooseAction(s) == SkipBlankAnswer || ChooseAction(s) == Ignore
    ensures Send(s, answer, init, polls) == Outcome(s, [])
  {
  }

  /** A successful answer sends the trimmed input with the pending question id, clears
      the gate, and fetches on exactly when the server says it can continue; without a
      fetch the reply settles into the explanation, defaulted when blank. */
  lemma AnswerAccepted(s: SidebarState, res: AnswerReply, init: Remote<()>, polls: seq<PollStep>)
    requires ChooseAction(s) == SubmitAnswer
    requires IdsFresh(s)
    ensures var o := Send(s, Ok(res), init, polls);
      && o.calls[0] == Answer(s.lectureId, s.questionId.value, Trim(s.inputText))
      && (|o.calls| > 1 ==> res.canContinue)
      && (res.canContinue && !s.isFetchingNext && polls != [] ==> |o.calls| > 1 && o.calls[1] == Next(s.lectureId))
      && (!res.canContinue ==>
            && !o.state.waitingForAnswer && o.state.questionId == None
            && o.state.messages == s.messages + [
                 Message(s.nextId, Trim(s.inputText), true, false, ""),
                 Message(s.nextId + 1, SupplementaryHeader, false, false, Supplementary(res.supplementary))])
  {
    var answer := Trim(s.inputText);
    var s1 := Post(s, answer, true, false, "").(inputText := "");
    var s2 := Post(s1, "", false, true, "");
    SettleFresh(s.messages, [Message(s.nextId, answer, true, false, ""), Message(s.nextId + 1, "", false, true, "")],
                s.nextId + 1, SupplementaryHeader, Some(Supplementary(res.supplementary)), s.nextId);
    assert s2.messages == s.messages + [Message(s.nextId, answer, true, false, ""), Message(s.nextId + 1, "", false, true, "")];
  }

  /** A failed answer settles the pending reply into the error and leaves the gate and
      the question id as they were, so the learner can answer again. */
  lemma AnswerRejected(s: SidebarState, e: Thrown, init: Remote<()>, polls: seq<PollStep>, retry: string)
    requires ChooseAction(s) == SubmitAnswer
    requires IdsFresh(s)
    ensures var o := Send(s, Threw(e), init, polls);
      && o.calls == [Answer(s.lectureId, s.questionId.value, Trim(s.inputText))]
      && o.state.waitingForAnswer && o.state.questionId == s.questionId
      && o.state.messages == s.messages + [
           Message(s.nextId, Trim(s.inputText), true, false, ""),
           Message(s.nextId + 1, ErrorPrefix + MessageOr(e, AnswerFailedText), false, false, "")]
      && (!IsBlank(retry) ==> ChooseAction(o.state.(inputText := retry)) == SubmitAnswer)
  {
    var answer := Trim(s.inputText);
    SettleFresh(s.messages, [Message(s.nextId, answer, true, false, ""), Message(s.nextId + 1, "", false, true, "")],
                s.nextId + 1, ErrorPrefix + MessageOr(e, AnswerFailedText), None, s.nextId);
  }

  /** Settling a message that was just appended leaves the older ones alone. */
  lemma SettleFresh(old_: seq<Message>, added: seq<Message>, id: nat, text: string, markdown: Option<string>, bound: nat)
    requires forall m :: m in old_ ==> m.id < bound
    requires bound <= id
    ensures Settle(old_ + added, id, text, markdown) == old_ + Settle(added, id, text, markdown)
  {
    var r := Settle(old_ + added, id, text, markdown);
    var q := old_ + Settle(added, id, text, markdown);
    forall i | 0 <= i < |r| ensures r[i] == q[i] {
      if i < |old_| {
        assert (old_ + added)[i] == old_[i];
        assert old_[i] in old_;
      } else {
        assert (old_ + added)[i] == added[i - |old_|];
      }
    }
  }

  /** Starting: `initialize` is the first call; only its success makes the session
      streaming, and its failure leaves no message loading, including ones older than
      this start. */
  lemma StartOutcome(s: SidebarState, answer: Remote<AnswerReply>, init: Remote<()>, polls: seq<PollStep>)
    requires ChooseAction(s) == Start
    ensures var o := Send(s, answer, init, polls);
      && o.calls[0] == Initialize(s.lectureId, init.Ok?)
      && o.state.isStreaming == init.Ok?
      && o.state.inputText == ""
      && (init.Threw? ==> o.calls == [Initialize(s.lectureId, false)]
                          && forall m :: m in o.state.messages ==> !m.isLoading)
  {
    var s1 := Post(s.(inputText := ""), "", false, true, "");
    if init.Ok? {
      FetchKeepsSession(s1.(isStreaming := true), Some(s.nextId), polls);
    } else {
      var msgs := SettleLoading(s1.messages, ErrorPrefix + MessageOr(init.error, InitFailedText));
      forall m | m in msgs ensures !m.isLoading {
        var i :| 0 <= i < |msgs| && msgs[i] == m;
      }
    }
  }

  /** Advancing clears the input box and makes only `next` calls, for the current
      lecture, one per poll the fetch consumed. */
  lemma AdvanceOutcome(s: SidebarState, answer: Remote<AnswerReply>, init: Remote<()>, polls: seq<PollStep>)
    requires ChooseAction(s) == Advance
    ensures var o := Send(s, answer, init, polls);
      && o.state.inputText == "" && o.state.isStreaming
      && |o.calls| <= |polls|
      && (s.lectureId != 0 && !s.isFetchingNext && polls != [] ==> o.calls != [])
      && forall c :: c in o.calls ==> c == Next(s.lectureId)
  {
    FetchKeepsSession(s.(inputText := ""), None, polls);
  }

  // ---------------------------------------------------------------------------
  // Stopping

  /** handleCancelStream: nothing without a lecture; otherwise the abort flag is raised
      before the remote cancel, and the session flags are cleared only when the cancel
      succeeds. */
  function Stop(s: SidebarState, reply: Remote<()>): Outcome
  {
    if s.lectureId == 0 then Outcome(s, [])
    else
      var s1 := s.(abort := true);
      match reply
      case Ok(_) =>
        var s2 := s1.(isStreaming := false, waitingForAnswer := false, questionId := None, isFetchingNext := false);
        Outcome(Post(s2, StoppedText, false, false, ""), [Cancel(s.lectureId)])
      case Threw(e) =>
        Outcome(Post(s1, StopErrorPrefix + MessageOr(e, StopFailedText), false, false, ""), [Cancel(s.lectureId)])
  }

  /** After a successful stop Enter can no longer answer or advance; after a failed
      one the session goes on exactly as before, apart from the abort flag and the
      error message. */
  lemma StopThenEnter(s: SidebarState, reply: Remote<()>)
    requires s.lectureId != 0
    ensures var o := Stop(s, reply);
      && o.calls == [Cancel(s.lectureId)] && o.state.abort
      && (reply.Ok? ==> !o.state.isStreaming && !o.state.isFetchingNext && !o.state.waitingForAnswer
                        && o.state.questionId == None
                        && ChooseAction(o.state) in {Start, Ignore})
      && (reply.Threw? ==> o.state.isStreaming == s.isStreaming && o.state.isFetchingNext == s.isFetchingNext
                           && o.state.waitingForAnswer == s.waitingForAnswer && o.state.questionId == s.questionId
                           && ChooseAction(o.state) == ChooseAction(s))
  {
  }

  /** cancelStreaming, run on unmount, on unload and when the lecture changes: while
      streaming with a lecture it raises the abort flag and calls cancel; the reply,
      failure included, is ignored. */
  function CancelStreaming(s: SidebarState): (o: Outcome)
    ensures s.isStreaming && s.lectureId != 0 ==> o == Outcome(s.(abort := true), [Cancel(s.lectureId)])
    ensures !(s.isStreaming && s.lectureId != 0) ==> o == Outcome(s, [])
  {
    if s.isStreaming && s.lectureId != 0 then Outcome(s.(abort := true), [Cancel(s.lectureId)])
    else Outcome(s, [])
  }

  // ---------------------------------------------------------------------------
  // Stored uploads and lecture switching

  /** What `localStorage` holds under `lecture_upload_<lectureId>`. */
  datatype StoredUpload = StoredUpload(fileName: string, fileUrl: string, timestamp: int)

  /** 24 hours in milliseconds. */
  const UploadLifetime: int := 24 * 60 * 60 * 1000

  /** loadUploadFromStorage: a record younger than 24 hours, if any. */
  function LoadUpload(stored: map<int, StoredUpload>, lectureId: int, now: int): (r: Option<StoredUpload>)
    ensures r.Some? <==> lectureId in stored && now - stored[lectureId].timestamp < UploadLifetime
    ensures r.Some? ==> r.value == stored[lectureId]
  {
    if lectureId in stored && now - stored[lectureId].timestamp < UploadLifetime then Some(stored[lectureId])
    else None
  }

  /** The lecture effect as written: the cancel cleanup of the previous lecture runs
      when the id changes, and the material flag is reloaded, but `isStreaming`, the
      gate and the question id are left as they were. */
  function SwitchLectureAsWritten(s: SidebarState, lectureId: int, restored: bool): (o: Outcome)
    ensures o.state.lectureId == lectureId && o.state.hasMaterial == restored
    ensures o.state.isStreaming == s.isStreaming && o.state.waitingForAnswer == s.waitingForAnswer
            && o.state.questionId == s.questionId
    ensures lectureId != s.lectureId && s.isStreaming && s.lectureId != 0 ==>
      o.state.abort && o.calls == [Cancel(s.lectureId)]
  {
    var c := if lectureId != s.lectureId then CancelStreaming(s) else Outcome(s, []);
    Outcome(c.state.(lectureId := lectureId, hasMaterial := restored), c.calls)
  }

  /** The lecture effect as intended: a change of lecture also ends the session of the
      previous one on this side. */
  function SwitchLecture(s: SidebarState, lectureId: int, restored: bool): (o: Outcome)
    ensures o.state.lectureId == lectureId && o.state.hasMaterial == restored
    ensures lectureId != s.lectureId ==> !o.state.isStreaming && !o.state.waitingForAnswer && o.state.questionId == None
    ensures lectureId == s.lectureId ==> o == Outcome(s.(hasMaterial := restored), [])
  {
    if lectureId != s.lectureId then
      var c := CancelStreaming(s);
      Outcome(c.state.(lectureId := lectureId, hasMaterial := restored,
                       isStreaming := false, waitingForAnswer := false, questionId := None), c.calls)
    else Outcome(s.(hasMaterial := restored), [])
  }

  /** As written, a session that streams on one lecture keeps streaming after a switch
      to a lecture whose `initialize` never succeeded, and the next Enter sends `next`
      for that lecture. */
  lemma SwitchAsWrittenSkipsInitialize(s: SidebarState, log: seq<Call>, lectureId: int, restored: bool,
                                        answer: Remote<AnswerReply>, init: Remote<()>, polls: seq<PollStep>)
    requires s.isStreaming && !s.waitingForAnswer && !s.isFetchingNext
    requires lectureId != 0 && lectureId != s.lectureId && polls != []
    requires Initialize(lectureId, true) !in log
    ensures var c := SwitchLectureAsWritten(s, lectureId, restored);
      var e := Send(c.state, answer, init, polls);
      !SessionCallsInitialized(log + c.calls + e.calls)
  {
    var c := SwitchLectureAsWritten(s, lectureId, restored);
    var e := Send(c.state, answer, init, polls);
    var all := log + c.calls + e.calls;
    var i := |log| + |c.calls|;
    assert e.calls[0] == Next(lectureId);
    assert all[i] == Next(lectureId);
    assert Initialize(lectureId, true) !in all[..i] by {
      assert all[..i] == log + c.calls;
      assert forall x :: x in c.calls ==> x.Cancel?;
    }
  }

  // ---------------------------------------------------------------------------
  // Material upload

  const AllowedTypes: seq<string> := [".pdf", ".ppt", ".pptx", ".doc", ".docx"]
  const UploadedText := "파일이 업로드되었습니다. Enter를 눌러 학습을 시작하세요."
  const UploadFailedPrefix := "파일 업로드 실패: "
  const UnknownErrorText := "알 수 없는 오류"
  const RetryHint := "\n\n잠시 후 다시 시도하거나, 페이지를 새로고침해주세요."

  /** `name.split('.').pop()`: what follows the last dot, or the whole name. */
  function AfterLastDot(name: string): (r: string)
    ensures '.' !in r
  {
    if name == [] then []
    else if name[|name| - 1] == '.' then []
    else AfterLastDot(name[..|name| - 1]) + [name[|name| - 1]]
  }

  lemma {:induction false} AfterLastDotOf(prefix: string, ext: string)
    requires '.' !in ext
    requires prefix == [] || prefix[|prefix| - 1] == '.'
    ensures AfterLastDot(prefix + ext) == ext
  {
    if ext == [] {
      assert prefix + ext == prefix;
    } else {
      var n := prefix + ext;
      var init := ext[..|ext| - 1];
      var last := ext[|ext| - 1];
      assert ext == init + [last];
      assert '.' !in init by {
        forall c | c in init ensures c in ext { }
      }
      assert n[|n| - 1] == last && last != '.';
      assert n[..|n| - 1] == prefix + init;
      AfterLastDotOf(prefix, init);
      assert AfterLastDot(n) == AfterLastDot(n[..|n| - 1]) + [last];
    }
  }

  /** The lower-cased extension the allow-list is checked against. */
  function Extension(name: string): string
  {
    "." + Lower(AfterLastDot(name))
  }

  predicate IsAllowedFile(name: string)
  {
    Extension(name) in AllowedTypes
  }

  /** The check looks only at what follows the last dot, ignoring case; a name with no
      dot at all is checked as a whole, so a file named just "pdf" passes. */
  lemma AllowedFileNames(base: string, ext: string)
    requires '.' !in ext
    ensures IsAllowedFile(base + "." + ext) <==> "." + Lower(ext) in AllowedTypes
    ensures IsAllowedFile(ext) <==> "." + Lower(ext) in AllowedTypes
  {
    AfterLastDotOf(base + ".", ext);
    assert base + "." + ext == (base + ".") + ext;
    AfterLastDotOf([], ext);
    assert [] + ext == ext;
  }

  /** The lower-case ASCII prefix `p` opens `v`, ignoring case. */
  predicate StartsIgnoringCase(v: string, p: string)
  {
    |p| <= |v| && Lower(v[..|p|]) == p
  }

  /** isValidHttpUrl, the test /^https?:\/\//i on a non-empty string. */
  predicate IsValidHttpUrl(v: string)
  {
    v != "" && (StartsIgnoringCase(v, "http://") || StartsIgnoringCase(v, "https://"))
  }

  /** Any case of the scheme is accepted, and nothing shorter than "http://" is. */
  lemma HttpUrls(rest: string, v: string)
    ensures IsValidHttpUrl("http://" + rest) && IsValidHttpUrl("HTTPS://" + rest)
    ensures |v| < 7 ==> !IsValidHttpUrl(v)
  {
    assert ("http://" + rest)[..7] == "http://";
    assert ("HTTPS://" + rest)[..8] == "HTTPS://";
  }

  /** Why an upload did not go ahead, in the order the handler checks. */
  datatype UploadGate = Proceed | UnsupportedType | NotSignedIn | NoCourse | NoLecture

  function UploadGateFor(fileName: string, signedIn: bool, hasCourse: bool, lectureId: int): (g: UploadGate)
    ensures g == Proceed <==> IsAllowedFile(fileName) && signedIn && hasCourse && lectureId != 0
    ensures !IsAllowedFile(fileName) ==> g == UnsupportedType
  {
    if !IsAllowedFile(fileName) then UnsupportedType
    else if !signedIn then NotSignedIn
    else if !hasCourse then NoCourse
    else if lectureId == 0 then NoLecture
    else Proceed
  }

  /** The side bar together with the uploads it has stored. */
  datatype Panel = Panel(s: SidebarState, stored: map<int, StoredUpload>)
  datatype PanelOutcome = PanelOutcome(panel: Panel, calls: seq<Call>)

  /** The text of a failed upload: the message, with a retry hint for backend
      authentication errors. */
  function UploadErrorText(msg: string): string
  {
    var hint := if Contains(msg, "백엔드 인증 오류") || Contains(msg, "인증 토큰이 유효하지 않거나 만료") then RetryHint else "";
    UploadFailedPrefix + msg + hint
  }

  /** handleFileUpload: after the gate, the material flag drops and the file is posted
      as a user message; success stores the record (the returned URL when it is an
      http(s) URL, the local preview otherwise) and raises the flag; failure posts the
      error and withdraws the file message. */
  function Upload(p: Panel, fileName: string, signedIn: bool, hasCourse: bool,
                  reply: Remote<string>, previewUrl: string, now: int): PanelOutcome
  {
    var s := p.s;
    if UploadGateFor(fileName, signedIn, hasCourse, s.lectureId) != Proceed then PanelOutcome(p, [])
    else
      var fileMsg := s.nextId;
      var s1 := Post(s.(hasMaterial := false), fileName, true, false, "");
      match reply
      case Ok(url) =>
        var shown := if IsValidHttpUrl(url) then url else previewUrl;
        var s2 := Post(s1.(hasMaterial := true), UploadedText, false, false, "");
        PanelOutcome(Panel(s2, p.stored[s.lectureId := StoredUpload(fileName, shown, now)]), [UploadMaterial(s.lectureId)])
      case Threw(e) =>
        var s2 := Post(s1, UploadErrorText(MessageOr(e, UnknownErrorText)), false, false, "");
        PanelOutcome(Panel(s2.(messages := Remove(s2.messages, fileMsg), hasMaterial := false), p.stored),
                     [UploadMaterial(s.lectureId)])
  }

  /** A failed upload leaves the material flag down and the chat list grown by the error
      alone: the file message it posted is withdrawn again. */
  lemma UploadFailure(p: Panel, fileName: string, signedIn: bool, hasCourse: bool, e: Thrown, previewUrl: string, now: int)
    requires UploadGateFor(fileName, signedIn, hasCourse, p.s.lectureId) == Proceed
    requires IdsFresh(p.s)
    ensures var o := Upload(p, fileName, signedIn, hasCourse, Threw(e), previewUrl, now);
      && !o.panel.s.hasMaterial && o.panel.stored == p.stored
      && o.panel.s.messages == p.s.messages + [Message(p.s.nextId + 1, UploadErrorText(MessageOr(e, UnknownErrorText)), false, false, "")]
  {
    var s := p.s;
    var s1 := Post(s.(hasMaterial := false), fileName, true, false, "");
    var s2 := Post(s1, UploadErrorText(MessageOr(e, UnknownErrorText)), false, false, "");
    WithdrawFileMessage(s.messages, s1.messages[|s.messages|], s2.messages[|s1.messages|]);
  }

  /** Withdrawing a message just posted, after which one more was posted. */
  lemma WithdrawFileMessage(msgs: seq<Message>, posted: Message, after: Message)
    requires forall m :: m in msgs ==> m.id < posted.id
    requires after.id != posted.id
    ensures Remove(msgs + [posted] + [after], posted.id) == msgs + [after]
  {
    assert msgs + [posted] + [after] == msgs + ([posted] + [after]);
    RemoveAppend(msgs, [posted] + [after], posted.id);
    RemoveAbsent(msgs, posted.id);
    assert ([posted] + [after])[1..] == [after];
    assert [after][1..] == [];
  }

  // ---------------------------------------------------------------------------
  // Dropped files

  /** What `handleFileUpload` reads from the render it belongs to: `isAuthenticated`,
      whether a course id is known, and `currentLectureId`. The stored token is read
      afresh on every call and is not part of it. */
  datatype UploadContext = UploadContext(isAuthenticated: bool, hasCourse: bool, lectureId: int)

  /** The lecture an upload run in `ctx` posts the file for, or none when the gate
      refuses it. */
  function UploadTarget(ctx: UploadContext, hasToken: bool, fileName: string): (r: Option<int>)
    ensures r.Some? <==> UploadGateFor(fileName, hasToken && ctx.isAuthenticated, ctx.hasCourse, ctx.lectureId) == Proceed
    ensures r.Some? ==> r.value == ctx.lectureId && r.value != 0
  {
    if UploadGateFor(fileName, hasToken && ctx.isAuthenticated, ctx.hasCourse, ctx.lectureId) == Proceed
    then Some(ctx.lectureId) else None
  }

  /** handleDrop as written: memoized with no dependencies, it keeps calling the
      `handleFileUpload` of the first render, so the gate and the target lecture are
      those of the first render whatever the side bar shows now. */
  function DropAsWritten(first: UploadContext, current: UploadContext, hasToken: bool, fileName: string): (r: Option<int>)
    ensures r.Some? ==> r.value == first.lectureId
    ensures r.Some? <==> IsAllowedFile(fileName) && hasToken && first.isAuthenticated && first.hasCourse && first.lectureId != 0
  {
    UploadTarget(first, hasToken, fileName)
  }

  /** As written, a file dropped after a switch of lecture is posted for the lecture the
      side bar was first shown with. */
  lemma DropGoesToFirstLecture(first: UploadContext, current: UploadContext, fileName: string)
    requires IsAllowedFile(fileName)
    requires first.isAuthenticated && first.hasCourse && first.lectureId != 0
    requires current.isAuthenticated && current.hasCourse && current.lectureId != 0
    requires current.lectureId != first.lectureId
    ensures DropAsWritten(first, current, true, fileName) == Some(first.lectureId)
    ensures DropAsWritten(first, current, true, fileName) != UploadTarget(current, true, fileName)
  {
  }

  /** As written, a side bar first shown before sign-in refuses every dropped file,
      while the upload button lets the same file through. */
  lemma DropRefusedAfterSignIn(first: UploadContext, current: UploadContext, fileName: string)
    requires IsAllowedFile(fileName) && !first.isAuthenticated
    requires current.isAuthenticated && current.hasCourse && current.lectureId != 0
    ensures DropAsWritten(first, current, true, fileName) == None
    ensures UploadTarget(current, true, fileName) == Some(current.lectureId)
  {
  }

  /** handleDrop as intended: the dropped file goes through the current render's upload. */
  function DropFile(current: UploadContext, hasToken: bool, fileName: string): (r: Option<int>)
    ensures r.Some? ==> r.value == current.lectureId
    ensures r.Some? <==> IsAllowedFile(fileName) && hasToken && current.isAuthenticated && current.hasCourse && current.lectureId != 0
  {
    UploadTarget(current, hasToken, fileName)
  }

  /** The intended drop agrees with the upload button: it is posted exactly when the
      button's upload would call the server, and for the same lecture. */
  lemma DropMatchesButton(p: Panel, isAuthenticated: bool, hasToken: bool, hasCourse: bool, fileName: string,
                          reply: Remote<string>, previewUrl: string, now: int)
    ensures var o := Upload(p, fileName, hasToken && isAuthenticated, hasCourse, reply, previewUrl, now);
      var d := DropFile(UploadContext(isAuthenticated, hasCourse, p.s.lectureId), hasToken, fileName);
      && (d.Some? <==> o.calls != [])
      && (d.Some? ==> o.calls == [UploadMaterial(d.value)])
  {
  }

  // ---------------------------------------------------------------------------
  // A whole session

  /** What the learner and the browser do to the side bar. */
  datatype Event =
    | TypeText(text: string)
    | PressEnter(answer: Remote<AnswerReply>, init: Remote<()>, polls: seq<PollStep>)
    | PressStop(stopReply: Remote<()>)
    | Leave
    | SelectLecture(lectureId: int, now: int)
    | UploadFile(fileName: string, signedIn: bool, hasCourse: bool, uploadReply: Remote<string>, previewUrl: string, now: int)

  function Apply(p: Panel, e: Event): PanelOutcome
  {
    match e
    case TypeText(text) => PanelOutcome(p.(s := p.s.(inputText := text)), [])
    case PressEnter(answer, init, polls) =>
      var o := Send(p.s, answer, init, polls);
      PanelOutcome(p.(s := o.state), o.calls)
    case PressStop(reply) =>
      var o := Stop(p.s, reply);
      PanelOutcome(p.(s := o.state), o.calls)
    case Leave =>
      var o := CancelStreaming(p.s);
      PanelOutcome(p.(s := o.state), o.calls)
    case SelectLecture(id, now) =>
      var o := SwitchLecture(p.s, id, id != 0 && LoadUpload(p.stored, id, now).Some?);
      PanelOutcome(p.(s := o.state), o.calls)
    case UploadFile(name, signedIn, hasCourse, reply, previewUrl, now) =>
      Upload(p, name, signedIn, hasCourse, reply, previewUrl, now)
  }

  function Replay(p: Panel, events: seq<Event>): PanelOutcome
    decreases |events|
  {
    if events == [] then PanelOutcome(p, [])
    else
      var o := Apply(p, events[0]);
      var rest := Replay(o.panel, events[1..]);
      PanelOutcome(rest.panel, o.calls + rest.calls)
  }

  /** Every `next` and `answer` call comes after a successful `initialize` of its
      lecture. */
  ghost predicate SessionCallsInitialized(log: seq<Call>)
  {
    forall i :: 0 <= i < |log| && NeedsSession(log[i]) ==> Initialize(log[i].lecture, true) in log[..i]
  }

  /** The invariant behind the theorem: a streaming side bar's lecture has been
      initialized. */
  ghost predicate Ready(s: SidebarState, log: seq<Call>)
  {
    SessionCallsInitialized(log) && (s.isStreaming ==> Initialize(s.lectureId, true) in log)
  }

  lemma AppendCalls(log: seq<Call>, calls: seq<Call>)
    requires SessionCallsInitialized(log)
    requires forall c :: c in calls && NeedsSession(c) ==> Initialize(c.lecture, true) in log
    ensures SessionCallsInitialized(log + calls)
  {
    var all := log + calls;
    forall i | 0 <= i < |all| && NeedsSession(all[i]) ensures Initialize(all[i].lecture, true) in all[..i] {
      if i < |log| {
        assert all[..i] == log[..i];
      } else {
        assert all[i] == calls[i - |log|];
        var k :| 0 <= k < |log| && log[k] == Initialize(all[i].lecture, true);
        assert all[..i][k] == log[k];
      }
    }
  }

  lemma InLonger(log: seq<Call>, more: seq<Call>, c: Call)
    requires c in log
    ensures c in log + more
  {
    var k :| 0 <= k < |log| && log[k] == c;
    assert (log + more)[k] == c;
  }

  lemma EnterKeepsReady(s: SidebarState, log: seq<Call>, answer: Remote<AnswerReply>, init: Remote<()>, polls: seq<PollStep>)
    requires Ready(s, log)
    ensures var o := Send(s, answer, init, polls); Ready(o.state, log + o.calls)
  {
    var o := Send(s, answer, init, polls);
    match ChooseAction(s)
    case SubmitAnswer =>
      var s1 := Post(s, Trim(s.inputText), true, false, "").(inputText := "");
      var s2 := Post(s1, "", false, true, "");
      if answer.Ok? && answer.value.canContinue {
        var s3 := s2.(messages := Settle(s2.messages, s1.nextId, SupplementaryHeader, Some(Supplementary(answer.value.supplementary))),
                      waitingForAnswer := false, questionId := None);
        FetchKeepsSession(s3, None, polls);
      }
      AppendCalls(log, o.calls);
      InLonger(log, o.calls, Initialize(s.lectureId, true));
    case Advance =>
      FetchKeepsSession(s.(inputText := ""), None, polls);
      AppendCalls(log, o.calls);
      InLonger(log, o.calls, Initialize(s.lectureId, true));
    case Start =>
      var first := [Initialize(s.lectureId, init.Ok?)];
      AppendCalls(log, first);
      var log1 := log + first;
      assert log1[|log|] == Initialize(s.lectureId, init.Ok?);
      if init.Ok? {
        var s1 := Post(s.(inputText := ""), "", false, true, "");
        FetchKeepsSession(s1.(isStreaming := true), Some(s.nextId), polls);
        var f := Fetch(s1.(isStreaming := true), Some(s.nextId), polls);
        AppendCalls(log1, NextCalls(s.lectureId, f.calls));
        InLonger(log1, NextCalls(s.lectureId, f.calls), Initialize(s.lectureId, true));
        assert log + o.calls == log1 + NextCalls(s.lectureId, f.calls);
      } else {
        assert o.calls == first;
      }
    case SkipBlankAnswer =>
      assert log + o.calls == log;
    case Ignore =>
      assert log + o.calls == log;
  }

  lemma ApplyKeepsReady(p: Panel, log: seq<Call>, e: Event)
    requires Ready(p.s, log)
    ensures var o := Apply(p, e); Ready(o.panel.s, log + o.calls)
  {
    var o := Apply(p, e);
    match e
    case PressEnter(answer, init, polls) =>
      EnterKeepsReady(p.s, log, answer, init, polls);
    case _ =>
      assert forall c :: c in o.calls ==> !NeedsSession(c);
      AppendCalls(log, o.calls);
      if o.panel.s.isStreaming {
        InLonger(log, o.calls, Initialize(p.s.lectureId, true));
      }
  }

  lemma {:induction false} ReplayKeepsReady(p: Panel, log: seq<Call>, events: seq<Event>)
    requires Ready(p.s, log)
    ensures var o := Replay(p, events); Ready(o.panel.s, log + o.calls)
    decreases |events|
  {
    if events == [] {
      assert log + [] == log;
    } else {
      var o := Apply(p, events[0]);
      var rest := Replay(o.panel, events[1..]);
      assert Replay(p, events) == PanelOutcome(rest.panel, o.calls + rest.calls);
      ApplyKeepsReady(p, log, events[0]);
      ReplayKeepsReady(o.panel, log + o.calls, events[1..]);
      Regroup(rest.panel.s, log, o.calls, rest.calls);
    }
  }

  lemma Regroup(s: SidebarState, log: seq<Call>, a: seq<Call>, b: seq<Call>)
    requires Ready(s, log + a + b)
    ensures Ready(s, log + (a + b))
  {
    assert log + a + b == log + (a + b);
  }

  /** Whatever the learner does and whatever the server answers, no `next` or `answer`
      call reaches a lecture before its `initialize` has succeeded. */
  lemma NoSessionCallBeforeInitialize(lectureId: int, stored: map<int, StoredUpload>, events: seq<Event>)
    ensures SessionCallsInitialized(Replay(Panel(Initial(lectureId), stored), events).calls)
  {
    ReplayKeepsReady(Panel(Initial(lectureId), stored), [], events);
    assert [] + Replay(Panel(Initial(lectureId), stored), events).calls
        == Replay(Panel(Initial(lectureId), stored), events).calls;
  }

  /** An upload survives a trip to another lecture: coming back within 24 hours finds
      the material again, so Enter can start the session. */
  lemma UploadThenReturn(p: Panel, fileName: string, signedIn: bool, hasCourse: bool, url: string,
                         previewUrl: string, uploadedAt: int, other: int, leftAt: int, backAt: int)
    requires UploadGateFor(fileName, signedIn, hasCourse, p.s.lectureId) == Proceed
    requires backAt - uploadedAt < UploadLifetime
    ensures var l := p.s.lectureId;
      var o := Replay(p, [UploadFile(fileName, signedIn, hasCourse, Ok(url), previewUrl, uploadedAt),
                          SelectLecture(other, leftAt), SelectLecture(l, backAt)]);
      && o.panel.s.lectureId == l && o.panel.s.hasMaterial
      && (other != l ==> !o.panel.s.isStreaming && ChooseAction(o.panel.s) == Start)
  {
    var l := p.s.lectureId;
    var e1 := UploadFile(fileName, signedIn, hasCourse, Ok(url), previewUrl, uploadedAt);
    var e2 := SelectLecture(other, leftAt);
    var e3 := SelectLecture(l, backAt);
    var o1 := Apply(p, e1);
    assert l in o1.panel.stored && o1.panel.stored[l].timestamp == uploadedAt;
    assert o1.panel.s.lectureId == l;
    var o2 := Apply(o1.panel, e2);
    assert o2.panel.stored == o1.panel.stored;
    assert LoadUpload(o2.panel.stored, l, backAt).Some?;
    var o3 := Apply(o2.panel, e3);
    assert [e1, e2, e3][1..] == [e2, e3];
    assert [e2, e3][1..] == [e3];
    assert [e3][1..] == [];
    assert Replay(o2.panel, [e3]).panel == o3.panel;
    assert Replay(o1.panel, [e2, e3]).panel == o3.panel;
  }
}
