/** The tutoring side bar as an object: one object whose fields are the component's
    state hooks and refs, and whose handlers update them step by step. Each handler
    is proved to end in the state the transition functions of `Tutoring` and
    `TutoringSession` describe, and to make the calls they list. The lecture switch is
    the corrected one, which also ends the previous lecture's session on this side;
    `TutoringSession.SwitchLectureAsWritten` is the component's own. */
module TutoringSidebar {
  import opened Common
  import opened Tutoring
  import opened TutoringSession

  /** What one `next` call of a polling chain led to. */
  datatype Polled = Again | FollowUpFrom(holder: nat) | Done(end: FetchEnd, followUps: nat)

  class Sidebar {
    var lectureId: int
    var hasMaterial: bool
    var inputText: string
    var isStreaming: bool
    var isFetchingNext: bool
    var waitingForAnswer: bool
    var questionId: Option<string>
    /** `shouldAbortPollingRef.current` */
    var abort: bool
    var messages: seq<Message>
    /** The next message id; the component draws ids from the clock. */
    var nextId: nat
    /** The `lecture_upload_<id>` records of `localStorage`. */
    var stored: map<int, StoredUpload>

    function Snapshot(): SidebarState
      reads this
    {
      SidebarState(lectureId, hasMaterial, inputText, isStreaming, isFetchingNext,
                   waitingForAnswer, questionId, abort, messages, nextId)
    }

    ghost function AsPanel(): Panel
      reads this
    {
      Panel(Snapshot(), stored)
    }

    constructor (id: int, storage: map<int, StoredUpload>)
      ensures Snapshot() == Initial(id) && stored == storage
    {
      lectureId := id;
      hasMaterial := false;
      inputText := "";
      isStreaming := false;
      isFetchingNext := false;
      waitingForAnswer := false;
      questionId := None;
      abort := false;
      messages := [];
      nextId := 0;
      stored := storage;
    }

    /** Appends a fresh message and returns its id. */
    method PostMessage(text: string, isUser: bool, isLoading: bool, markdown: string) returns (id: nat)
      modifies this
      ensures Snapshot() == Post(old(Snapshot()), text, isUser, isLoading, markdown)
      ensures id == old(nextId) && stored == old(stored)
    {
      id := nextId;
      messages := messages + [Message(id, text, isUser, isLoading, markdown)];
      nextId := nextId + 1;
    }

    /** Takes over a whole state. */
    method Load(t: SidebarState)
      modifies this
      ensures Snapshot() == t && stored == old(stored)
    {
      lectureId := t.lectureId;
      hasMaterial := t.hasMaterial;
      inputText := t.inputText;
      isStreaming := t.isStreaming;
      isFetchingNext := t.isFetchingNext;
      waitingForAnswer := t.waitingForAnswer;
      questionId := t.questionId;
      abort := t.abort;
      messages := t.messages;
      nextId := t.nextId;
    }

    /** Takes over what mapNextToMessages set: the chat list and the question gate. */
    method ApplyMapped(m: Mapped)
      modifies this
      requires SameSession(Snapshot(), m.state)
      requires m.state.isFetchingNext == isFetchingNext && m.state.abort == abort
      ensures Snapshot() == m.state && stored == old(stored)
    {
      messages := m.state.messages;
      nextId := m.state.nextId;
      waitingForAnswer := m.state.waitingForAnswer;
      questionId := m.state.questionId;
    }

    /** One `next` call of a chain, with the sleep after it and, when the call ends the
        fetch, the `catch` and `finally` of fetchNextSegment. */
    method Poll(phase: Phase, p: PollStep) returns (r: Polled)
      modifies this
      requires !abort
      ensures stored == old(stored)
      ensures var a := Arrive(old(Snapshot()), phase, p);
        && (r.Again? <==> a.Retry?)
        && (r.Again? ==> Snapshot() == old(Snapshot()))
        && (r.FollowUpFrom? <==> a.Follow?)
        && (r.FollowUpFrom? ==> Snapshot() == a.next && r.holder == a.holder)
        && (r.Done? <==> a.Settled?)
        && (r.Done? ==> Snapshot() == a.result.state && r.end == a.result.end && r.followUps == a.result.followUps)
    {
      match p.reply
      case Threw(e) =>
        CatchFailure(MessageOr(e, NextFailedText));
        r := Done(Failed, 0);
      case Ok(reply) =>
        if IsProcessing(reply.status) {
          if p.stopDuringRequest || p.stopDuringWait {
            abort := true;
            if phase.FollowUp? {
              messages := Remove(messages, phase.placeholder);
            }
            isFetchingNext := false;
            r := Done(Aborted, 0);
          } else {
            r := Again;
          }
        } else if phase.FirstChain? {
          r := MapFirst(phase.loadingId, reply, p.stopDuringRequest, p.stopDuringWait);
        } else {
          MapFollowUp(phase.placeholder, reply, p.stopDuringRequest);
          r := Done(Resolved, 0);
        }
    }

    /** The `catch` and `finally` of fetchNextSegment. */
    method CatchFailure(msg: string)
      modifies this
      ensures Snapshot() == Finish(Catch(old(Snapshot()), msg)) && stored == old(stored)
    {
      var _ := PostMessage(ErrorPrefix + msg, false, false, "");
      if MentionsWaitingForAnswer(msg) {
        waitingForAnswer := true;
        var _ := PostMessage(YourTurnText, false, false, "");
      }
      isFetchingNext := false;
    }

    /** Content for the first chain: mapped, then the auto-advance with its
        placeholder when the segment asks for it and no stop came. */
    method MapFirst(loadingId: Option<nat>, reply: NextReply, stopDuringRequest: bool, stopDuringWait: bool)
      returns (r: Polled)
      modifies this
      requires !abort
      ensures stored == old(stored)
      ensures var m := MapNext(old(Snapshot()).(abort := stopDuringRequest), reply, loadingId);
        var t := Post(m.state, "", false, true, "");
        if m.shouldContinue && !m.state.abort then
          if stopDuringWait
          then r == Done(Aborted, 1) && Snapshot() == Finish(Drop(t.(abort := true), FollowUp(m.state.nextId)))
          else r == FollowUpFrom(m.state.nextId) && Snapshot() == t
        else r == Done(Resolved, 0) && Snapshot() == Finish(m.state)
    {
      abort := stopDuringRequest;
      assert Snapshot() == old(Snapshot()).(abort := stopDuringRequest);
      var m := MapNext(Snapshot(), reply, loadingId);
      ApplyMapped(m);
      assert Snapshot() == m.state;
      if m.shouldContinue && !abort {
        r := AutoAdvance(stopDuringWait);
      } else {
        isFetchingNext := false;
        r := Done(Resolved, 0);
      }
    }

    /** The auto-advance: a loading placeholder for the question, then the follow-up
        chain, unless a stop comes during the short sleep, which withdraws it. */
    method AutoAdvance(stopDuringWait: bool) returns (r: Polled)
      modifies this
      ensures stored == old(stored)
      ensures var t := Post(old(Snapshot()), "", false, true, "");
        if stopDuringWait
        then r == Done(Aborted, 1) && Snapshot() == Finish(Drop(t.(abort := true), FollowUp(old(nextId))))
        else r == FollowUpFrom(old(nextId)) && Snapshot() == t
    {
      var holder := PostMessage("", false, true, "");
      if stopDuringWait {
        abort := true;
        messages := Remove(messages, holder);
        isFetchingNext := false;
        r := Done(Aborted, 1);
      } else {
        r := FollowUpFrom(holder);
      }
    }

    /** Content for the follow-up chain: the placeholder goes, the segment is mapped. */
    method MapFollowUp(holder: nat, reply: NextReply, stopDuringRequest: bool)
      modifies this
      ensures stored == old(stored)
      ensures Snapshot() == Finish(MapNext(old(Snapshot()).(abort := stopDuringRequest, messages := Remove(old(messages), holder)), reply, None).state)
    {
      var m := MapNext(Snapshot().(abort := stopDuringRequest, messages := Remove(messages, holder)), reply, None);
      Load(Finish(m.state));
    }

    /** fetchNextSegment: refused without a lecture or while a fetch runs; otherwise it
        lowers the abort flag, polls until content arrives (following one auto-advance),
        the flag stops it, a call throws, or the transcript runs out. */
    method FetchNextSegment(loadingId: Option<nat>, polls: seq<PollStep>) returns (calls: nat, end: FetchEnd)
      modifies this
      ensures var f := Fetch(old(Snapshot()), loadingId, polls);
        Snapshot() == f.state && end == f.end && calls == f.calls
      ensures stored == old(stored)
    {
      if lectureId == 0 || isFetchingNext {
        return 0, Skipped;
      }
      abort := false;
      isFetchingNext := true;
      ghost var goal := Run(Snapshot(), FirstChain(loadingId), polls);
      var phase := FirstChain(loadingId);
      var i := 0;
      calls := 0;
      while true
        invariant 0 <= i <= |polls| && calls == i
        invariant stored == old(stored)
        invariant var f := Run(Snapshot(), phase, polls[i..]);
          goal.state == f.state && goal.end == f.end && goal.calls == calls + f.calls
        decreases |polls| - i
      {
        if abort {
          if phase.FollowUp? {
            messages := Remove(messages, phase.placeholder);
          }
          isFetchingNext := false;
          return calls, Aborted;
        }
        if i == |polls| {
          return calls, InFlight;
        }
        assert polls[i..][0] == polls[i] && polls[i..][1..] == polls[i + 1..];
        var r := Poll(phase, polls[i]);
        i := i + 1;
        calls := calls + 1;
        match r
        case Done(e, _) =>
          return calls, e;
        case FollowUpFrom(holder) =>
          phase := FollowUp(holder);
        case Again =>
      }
    }

    /** handleSendMessage: one action by priority. */
    method SendMessage(answer: Remote<AnswerReply>, init: Remote<()>, polls: seq<PollStep>) returns (calls: seq<Call>)
      modifies this
      ensures var o := Send(old(Snapshot()), answer, init, polls);
        Snapshot() == o.state && calls == o.calls
      ensures stored == old(stored)
    {
      if isStreaming && waitingForAnswer && questionId.Some? && questionId.value != "" && lectureId != 0 {
        if Trim(inputText) == "" {
          return [];
        }
        calls := SubmitAnswer(answer, polls);
      } else if isStreaming && !waitingForAnswer {
        calls := Advance(polls);
      } else if !isStreaming && hasMaterial && lectureId != 0 {
        calls := StartSession(init, polls);
      } else {
        calls := [];
      }
    }

    /** The answer branch of handleSendMessage. */
    method SubmitAnswer(answer: Remote<AnswerReply>, polls: seq<PollStep>) returns (calls: seq<Call>)
      modifies this
      requires QuestionPending(Snapshot())
      ensures var o := SubmitAnswerEffect(old(Snapshot()), answer, polls);
        Snapshot() == o.state && calls == o.calls
      ensures stored == old(stored)
    {
      var lecture := lectureId;
      var trimmed := Trim(inputText);
      calls := [Answer(lecture, questionId.value, trimmed)];
      var pending := PostAnswer();
      match answer {
        case Ok(res) =>
          messages := Settle(messages, pending, SupplementaryHeader, Some(Supplementary(res.supplementary)));
          waitingForAnswer := false;
          questionId := None;
          if res.canContinue {
            var n, _ := FetchNextSegment(None, polls);
            calls := calls + NextCalls(lecture, n);
          }
        case Threw(e) =>
          messages := Settle(messages, pending, ErrorPrefix + MessageOr(e, AnswerFailedText), None);
      }
    }

    /** Posts the trimmed answer, clears the input box and posts the loading reply,
        whose id it returns. */
    method PostAnswer() returns (pending: nat)
      modifies this
      ensures var s := old(Snapshot());
        Snapshot() == Post(Post(s, Trim(s.inputText), true, false, "").(inputText := ""), "", false, true, "")
      ensures pending == old(nextId) + 1 && stored == old(stored)
    {
      var _ := PostMessage(Trim(inputText), true, false, "");
      inputText := "";
      pending := PostMessage("", false, true, "");
    }

    /** Enter while streaming and not waiting for an answer. */
    method Advance(polls: seq<PollStep>) returns (calls: seq<Call>)
      modifies this
      ensures var o := AdvanceEffect(old(Snapshot()), polls);
        Snapshot() == o.state && calls == o.calls
      ensures stored == old(stored)
    {
      var lecture := lectureId;
      inputText := "";
      var n, _ := FetchNextSegment(None, polls);
      calls := NextCalls(lecture, n);
    }

    /** Enter with material and no session: initialize, then the first fetch. */
    method StartSession(init: Remote<()>, polls: seq<PollStep>) returns (calls: seq<Call>)
      modifies this
      ensures var o := StartEffect(old(Snapshot()), init, polls);
        Snapshot() == o.state && calls == o.calls
      ensures stored == old(stored)
    {
      var lecture := lectureId;
      inputText := "";
      var loading := PostMessage("", false, true, "");
      match init {
        case Ok(_) =>
          isStreaming := true;
          var n, _ := FetchNextSegment(Some(loading), polls);
          calls := [Initialize(lecture, true)] + NextCalls(lecture, n);
        case Threw(e) =>
          messages := SettleLoading(messages, ErrorPrefix + MessageOr(e, InitFailedText));
          calls := [Initialize(lecture, false)];
      }
    }

    /** handleCancelStream */
    method HandleCancelStream(reply: Remote<()>) returns (calls: seq<Call>)
      modifies this
      ensures var o := Stop(old(Snapshot()), reply);
        Snapshot() == o.state && calls == o.calls
      ensures stored == old(stored)
    {
      if lectureId == 0 {
        return [];
      }
      abort := true;
      calls := [Cancel(lectureId)];
      match reply
      case Ok(_) =>
        isStreaming := false;
        waitingForAnswer := false;
        questionId := None;
        isFetchingNext := false;
        var _ := PostMessage(StoppedText, false, false, "");
      case Threw(e) =>
        var _ := PostMessage(StopErrorPrefix + MessageOr(e, StopFailedText), false, false, "");
    }

    /** cancelStreaming */
    method CancelStreaming() returns (calls: seq<Call>)
      modifies this
      ensures var o := TutoringSession.CancelStreaming(old(Snapshot()));
        Snapshot() == o.state && calls == o.calls
      ensures stored == old(stored)
    {
      calls := [];
      if isStreaming && lectureId != 0 {
        abort := true;
        calls := [Cancel(lectureId)];
      }
    }

    /** The lecture effect as corrected, with the session of the previous lecture ended
        on a change of lecture, and the stored upload of the new one restored when still
        fresh. */
    method SelectLecture(id: int, now: int) returns (calls: seq<Call>)
      modifies this
      ensures var o := Apply(old(AsPanel()), Event.SelectLecture(id, now)).panel;
        AsPanel() == o
      ensures calls == Apply(old(AsPanel()), Event.SelectLecture(id, now)).calls
    {
      var restored := id != 0 && LoadUpload(stored, id, now).Some?;
      calls := [];
      if id != lectureId {
        calls := CancelStreaming();
        isStreaming := false;
        waitingForAnswer := false;
        questionId := None;
      }
      lectureId := id;
      hasMaterial := restored;
    }

    /** handleFileUpload */
    method UploadFile(fileName: string, signedIn: bool, hasCourse: bool, reply: Remote<string>, previewUrl: string, now: int)
      returns (calls: seq<Call>)
      modifies this
      ensures var o := Upload(old(AsPanel()), fileName, signedIn, hasCourse, reply, previewUrl, now);
        AsPanel() == o.panel && calls == o.calls
    {
      if UploadGateFor(fileName, signedIn, hasCourse, lectureId) != Proceed {
        return [];
      }
      hasMaterial := false;
      var fileMsg := PostMessage(fileName, true, false, "");
      calls := [UploadMaterial(lectureId)];
      match reply
      case Ok(url) =>
        var shown := if IsValidHttpUrl(url) then url else previewUrl;
        stored := stored[lectureId := StoredUpload(fileName, shown, now)];
        hasMaterial := true;
        var _ := PostMessage(UploadedText, false, false, "");
      case Threw(e) =>
        var _ := PostMessage(UploadErrorText(MessageOr(e, UnknownErrorText)), false, false, "");
        messages := Remove(messages, fileMsg);
        hasMaterial := false;
    }

    /** The text area's change handler. */
    method EditInput(text: string)
      modifies this
      ensures Snapshot() == old(Snapshot()).(inputText := text) && stored == old(stored)
    {
      inputText := text;
    }
  }

  /** The drag-and-drop highlight: a counter of nested enter and leave events, and
      whether a file drag is over the side bar. */
  class DragTracker {
    var counter: int
    var isDragging: bool

    constructor ()
      ensures counter == 0 && !isDragging
    {
      counter := 0;
      isDragging := false;
    }

    /** handleDragEnter: the highlight comes on only for a drag that carries files. */
    method Enter(hasFiles: bool)
      modifies this
      ensures counter == old(counter) + 1
      ensures isDragging == (old(isDragging) || hasFiles)
    {
      counter := counter + 1;
      if hasFiles {
        isDragging := true;
      }
    }

    /** handleDragLeave: the highlight goes off when the last nested element is left. */
    method Leave()
      modifies this
      ensures counter == old(counter) - 1
      ensures isDragging == (old(isDragging) && counter != 0)
    {
      counter := counter - 1;
      if counter == 0 {
        isDragging := false;
      }
    }

    /** handleDrop: the counter and the highlight are reset. */
    method Drop()
      modifies this
      ensures counter == 0 && !isDragging
    {
      counter := 0;
      isDragging := false;
    }
  }
}
