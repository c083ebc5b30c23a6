/** The lecture tutoring session of the chat side bar (src/components/layout/RightSidebar.tsx).

    The component keeps its session in independent React state cells (`isStreaming`,
    `isFetchingNext`, `waitingForAnswer`, `currentAiQuestionId`), a mutable abort flag
    (`shouldAbortPollingRef`) and the chat list (`messages`). This module states every
    handler as a pure transition on `SidebarState`; the class `Sidebar` in module
    `TutoringSidebar` holds the same state in fields and is proved to perform exactly
    these transitions.

    The remote gateway (`streamingApi.initialize/next/answer/cancel`) is an input: each
    awaited call is given as its settled `Remote` outcome, and the `next` calls of one
    fetch are given as a finite transcript of `PollStep`s. A transcript that runs out
    while the server still answers PROCESSING leaves the fetch `InFlight`. */
module Tutoring {
  import opened Common

  /** One chat entry. `id` stands for the `Date.now()` stamp and is drawn from `nextId`. */
  datatype Message = Message(id: nat, text: string, isUser: bool, isLoading: bool, markdown: string)

  /** The reply of `next`. Optional fields that are absent are "": the component only
      tests them for truthiness. */
  datatype NextReply = NextReply(
    status: string,
    contentType: string,
    contentData: string,
    chapterTitle: string,
    hasMore: bool,
    waitingForAnswer: bool,
    aiQuestionId: string)

  /** The reply of `answer`; an absent `supplementary` is "". */
  datatype AnswerReply = AnswerReply(canContinue: bool, supplementary: string)

  /** One `next` call of a poll chain as the environment answers it: the settled reply,
      whether a stop raised the abort flag while that call was awaited, and whether one
      raised it during the `sleep` that follows the reply. */
  datatype PollStep = PollStep(reply: Remote<NextReply>, stopDuringRequest: bool, stopDuringWait: bool)

  /** The side bar's session state. `lectureId` is `currentLectureId`, with 0 standing for
      null (the component tests it for truthiness, and both are falsy). */
  datatype SidebarState = SidebarState(
    lectureId: int,
    hasMaterial: bool,
    inputText: string,
    isStreaming: bool,
    isFetchingNext: bool,
    waitingForAnswer: bool,
    questionId: Option<string>,
    abort: bool,
    messages: seq<Message>,
    nextId: nat)

  const AnswerPromptText := "질문에 대한 답을 입력해 주세요."
  const YourTurnText := "질문에 대한 답변을 입력할 차례입니다."
  const ErrorPrefix := "오류: "
  const NextFailedText := "다음 세그먼트 수신 실패"
  const AnswerFailedText := "답변 전송 실패"
  const InitFailedText := "세션 초기화 실패"
  const SupplementaryHeader := "보충 설명"
  const NoSupplementaryText := "보충 설명이 제공되지 않았습니다."
  const StoppedText := "학습이 중지되었습니다."
  const StopErrorPrefix := "중지 오류: "
  const StopFailedText := "중지에 실패했습니다."

  /** The state the component mounts with for a lecture id. */
  function Initial(lectureId: int): SidebarState
  {
    SidebarState(lectureId, false, "", false, false, false, None, false, [], 0)
  }

  /** Every message id is below `nextId`, so each id drawn from `nextId` is fresh. */
  ghost predicate IdsFresh(s: SidebarState)
  {
    forall m :: m in s.messages ==> m.id < s.nextId
  }

  /** `currentAiQuestionId` is truthy. */
  predicate QuestionPending(s: SidebarState)
  {
    s.questionId.Some? && s.questionId.value != ""
  }

  // ---------------------------------------------------------------------------
  // The chat list

  /** Appends a fresh message. */
  function Post(s: SidebarState, text: string, isUser: bool, isLoading: bool, markdown: string): SidebarState
  {
    s.(messages := s.messages + [Message(s.nextId, text, isUser, isLoading, markdown)], nextId := s.nextId + 1)
  }

  /** `prev.filter((m) => m.id !== id)` */
  function Remove(msgs: seq<Message>, id: nat): (r: seq<Message>)
    ensures |r| <= |msgs|
    ensures forall m :: m in r <==> m in msgs && m.id != id
  {
    if msgs == [] then []
    else if msgs[0].id == id then Remove(msgs[1..], id)
    else [msgs[0]] + Remove(msgs[1..], id)
  }

  /** Removing an id that no message carries changes nothing. */
  lemma {:induction false} RemoveAbsent(msgs: seq<Message>, id: nat)
    requires forall m :: m in msgs ==> m.id != id
    ensures Remove(msgs, id) == msgs
  {
    if msgs != [] {
      RemoveAbsent(msgs[1..], id);
      assert msgs == [msgs[0]] + msgs[1..];
    }
  }

  /** Removal distributes over a list that grows at the end. */
  lemma {:induction false} RemoveAppend(a: seq<Message>, b: seq<Message>, id: nat)
    ensures Remove(a + b, id) == Remove(a, id) + Remove(b, id)
  {
    if a == [] {
      assert a + b == b;
    } else {
      assert (a + b)[1..] == a[1..] + b;
      RemoveAppend(a[1..], b, id);
    }
  }

  /** The list without the message `id`, when one is given. */
  function Without(msgs: seq<Message>, id: Option<nat>): seq<Message>
  {
    if id.Some? then Remove(msgs, id.value) else msgs
  }

  /** `prev.map((m) => m.id === id ? { ...m, text, markdown?, isLoading: false } : m)`:
      settles the message `id` with a new text, and a new markdown when one is given. */
  function Settle(msgs: seq<Message>, id: nat, text: string, markdown: Option<string>): (r: seq<Message>)
    ensures |r| == |msgs|
    ensures forall i :: 0 <= i < |msgs| ==>
      r[i] == if msgs[i].id == id
              then msgs[i].(text := text, isLoading := false,
                            markdown := if markdown.Some? then markdown.value else msgs[i].markdown)
              else msgs[i]
  {
    if msgs == [] then []
    else
      var m := msgs[0];
      var head := if m.id == id
                  then m.(text := text, isLoading := false,
                          markdown := if markdown.Some? then markdown.value else m.markdown)
                  else m;
      [head] + Settle(msgs[1..], id, text, markdown)
  }

  /** `prev.map((m) => m.isLoading ? { ...m, text, isLoading: false } : m)`: every
      message still loading is turned into `text`. */
  function SettleLoading(msgs: seq<Message>, text: string): (r: seq<Message>)
    ensures |r| == |msgs|
    ensures forall i :: 0 <= i < |msgs| ==>
      r[i] == if msgs[i].isLoading then msgs[i].(text := text, isLoading := false) else msgs[i]
  {
    if msgs == [] then []
    else
      var m := msgs[0];
      [if m.isLoading then m.(text := text, isLoading := false) else m] + SettleLoading(msgs[1..], text)
  }

  // ---------------------------------------------------------------------------
  // mapNextToMessages

  predicate IsQuestionType(contentType: string)
  {
    Upper(contentType) == "QUESTION"
  }

  /** The header of a content message, chosen by the case-insensitive content type. */
  function SegmentHeader(contentType: string): (h: string)
    ensures h == "질문" || h == "보충 설명" || h == "개념 설명"
    ensures h == "질문" <==> IsQuestionType(contentType)
    ensures h == "보충 설명" <==> Upper(contentType) == "SUPPLEMENTARY"
  {
    var t := Upper(contentType);
    if t == "QUESTION" then "질문" else if t == "SUPPLEMENTARY" then "보충 설명" else "개념 설명"
  }

  /** The text of a content message: `[chapter] ` when a chapter title is present, then
      the header. */
  function SegmentTitle(r: NextReply): (t: string)
    ensures r.chapterTitle == "" ==> t == SegmentHeader(r.contentType)
    ensures r.chapterTitle != "" ==>
      t == "[" + r.chapterTitle + "] " + SegmentHeader(r.contentType)
  {
    (if r.chapterTitle != "" then "[" + r.chapterTitle + "] " else "") + SegmentHeader(r.contentType)
  }

  datatype Mapped = Mapped(state: SidebarState, shouldContinue: bool)

  /** mapNextToMessages: drops the loading message when one is named, appends exactly one
      content message, then either gates on the question (waiting, its id stored, a prompt
      appended, no auto-advance) or clears the gate and answers whether to auto-advance. */
  function MapNext(s: SidebarState, r: NextReply, loadingId: Option<nat>): (m: Mapped)
    ensures m.state.waitingForAnswer <==> r.waitingForAnswer && r.aiQuestionId != ""
    ensures m.state.questionId == if m.state.waitingForAnswer then Some(r.aiQuestionId) else None
    ensures m.shouldContinue <==>
      !m.state.waitingForAnswer && r.hasMore && !IsQuestionType(r.contentType)
    ensures var kept := Without(s.messages, loadingId);
      && |m.state.messages| == |kept| + (if m.state.waitingForAnswer then 2 else 1)
      && m.state.messages[..|kept|] == kept
      && m.state.messages[|kept|] == Message(s.nextId, SegmentTitle(r), false, false, r.contentData)
      && (m.state.waitingForAnswer ==>
            m.state.messages[|kept| + 1] == Message(s.nextId + 1, AnswerPromptText, false, false, ""))
    ensures m.state.nextId == s.nextId + |m.state.messages| - |Without(s.messages, loadingId)|
    ensures forall i :: |Without(s.messages, loadingId)| <= i < |m.state.messages| ==>
      s.nextId <= m.state.messages[i].id < m.state.nextId && !m.state.messages[i].isLoading
    ensures SameSession(s, m.state) && m.state.isFetchingNext == s.isFetchingNext && m.state.abort == s.abort
  {
    var s1 := s.(messages := Without(s.messages, loadingId));
    var s2 := Post(s1, SegmentTitle(r), false, false, r.contentData);
    if r.waitingForAnswer && r.aiQuestionId != "" then
      var s3 := Post(s2, AnswerPromptText, false, false, "");
      Mapped(s3.(waitingForAnswer := true, questionId := Some(r.aiQuestionId)), false)
    else
      Mapped(s2.(waitingForAnswer := false, questionId := None),
             r.hasMore && !IsQuestionType(r.contentType))
  }

  /** A QUESTION-typed segment never auto-advances, whether or not it carries a question id. */
  lemma QuestionNeverAdvances(s: SidebarState, r: NextReply, loadingId: Option<nat>)
    requires IsQuestionType(r.contentType)
    ensures !MapNext(s, r, loadingId).shouldContinue
    ensures r.aiQuestionId == "" ==> !MapNext(s, r, loadingId).state.waitingForAnswer
  {
  }

  // ---------------------------------------------------------------------------
  // The error message test /waiting\s*for\s*answer/i

  function SkipSpaces(s: string, i: nat): (j: nat)
    requires i <= |s|
    ensures i <= j <= |s|
    decreases |s| - i
  {
    if i < |s| && IsSpace(s[i]) then SkipSpaces(s, i + 1) else i
  }

  /** The lower-case ASCII word `w` occurs at `i`, ignoring case. */
  predicate WordAt(s: string, i: nat, w: string)
  {
    i + |w| <= |s| && Lower(s[i..i + |w|]) == w
  }

  /** The pattern matches at `i`. Because neither "for" nor "answer" starts with white
      space, the greedy skip of `\s*` is the only way to match. */
  predicate PhraseAt(s: string, i: nat)
  {
    WordAt(s, i, "waiting")
    && var j := SkipSpaces(s, i + 7);
       WordAt(s, j, "for") && WordAt(s, SkipSpaces(s, j + 3), "answer")
  }

  function SearchPhrase(s: string, i: nat): bool
    requires i <= |s|
    decreases |s| - i
  {
    PhraseAt(s, i) || (i < |s| && SearchPhrase(s, i + 1))
  }

  /** `/waiting\s*for\s*answer/i.test(msg)` */
  predicate MentionsWaitingForAnswer(msg: string)
  {
    SearchPhrase(msg, 0)
  }

  lemma {:induction false} SearchPhraseFinds(s: string, i: nat)
    requires i <= |s|
    ensures SearchPhrase(s, i) <==> exists k :: i <= k <= |s| && PhraseAt(s, k)
    decreases |s| - i
  {
    if i < |s| {
      SearchPhraseFinds(s, i + 1);
      if exists k :: i <= k <= |s| && PhraseAt(s, k) {
        var k :| i <= k <= |s| && PhraseAt(s, k);
        assert k == i || (i + 1 <= k <= |s| && PhraseAt(s, k));
      }
    }
  }

  /** The test holds exactly when the phrase matches at some position of the message. */
  lemma MentionsIffPhraseSomewhere(msg: string)
    ensures MentionsWaitingForAnswer(msg) <==> exists k :: 0 <= k <= |msg| && PhraseAt(msg, k)
  {
    SearchPhraseFinds(msg, 0);
  }

  // ---------------------------------------------------------------------------
  // fetchNextSegment and its poll chains

  predicate IsProcessing(status: string)
  {
    Upper(status) == "PROCESSING"
  }

  /** Which chain is polling: the first, with the loading message to drop when content
      arrives, or the follow-up chain started by an auto-advance, with its placeholder. */
  datatype Phase = FirstChain(loadingId: Option<nat>) | FollowUp(placeholder: nat)

  /** How a fetch ended: refused by its guard, content mapped, stopped by the abort flag,
      a `next` call threw, or the transcript ran out while the server was still
      processing. */
  datatype FetchEnd = Skipped | Resolved | Aborted | Failed | InFlight

  /** The state after a fetch, how it ended, how many `next` calls it made, and how many
      follow-up placeholders (auto-advances) it posted. */
  datatype Fetched = Fetched(state: SidebarState, end: FetchEnd, calls: nat, followUps: nat)

  /** The parts of the state a fetch never touches: the lecture, the material, the
      input box and the streaming flag. */
  predicate SameSession(s: SidebarState, t: SidebarState)
  {
    t.lectureId == s.lectureId && t.hasMaterial == s.hasMaterial && t.inputText == s.inputText
    && t.isStreaming == s.isStreaming
  }

  /** The `finally` of fetchNextSegment. */
  function Finish(s: SidebarState): SidebarState
  {
    s.(isFetchingNext := false)
  }

  /** What a chain does when it stops on the abort flag: the follow-up chain removes its
      placeholder, the first chain leaves the list alone. */
  function Drop(s: SidebarState, phase: Phase): SidebarState
  {
    if phase.FollowUp? then s.(messages := Remove(s.messages, phase.placeholder)) else s
  }

  /** The `catch` of fetchNextSegment: an error message, and the answer gate raised when
      the message says the server waits for an answer. The gate gets no question id. */
  function Catch(s: SidebarState, msg: string): (t: SidebarState)
    ensures t.waitingForAnswer <==> s.waitingForAnswer || MentionsWaitingForAnswer(msg)
    ensures |t.messages| == |s.messages| + if MentionsWaitingForAnswer(msg) then 2 else 1
    ensures t.messages[..|s.messages|] == s.messages
    ensures t.messages[|s.messages|] == Message(s.nextId, ErrorPrefix + msg, false, false, "")
    ensures MentionsWaitingForAnswer(msg) ==>
      t.messages[|s.messages| + 1] == Message(s.nextId + 1, YourTurnText, false, false, "")
    ensures forall i :: |s.messages| <= i < |t.messages| ==>
      s.nextId <= t.messages[i].id < t.nextId && !t.messages[i].isLoading
    ensures SameSession(s, t) && t.isFetchingNext == s.isFetchingNext && t.abort == s.abort
    ensures t.questionId == s.questionId
  {
    var s1 := Post(s, ErrorPrefix + msg, false, false, "");
    if MentionsWaitingForAnswer(msg) then Post(s1.(waitingForAnswer := true), YourTurnText, false, false, "")
    else s1
  }

  /** What one `next` call leads to: poll again, start the follow-up chain from a state
      holding its placeholder, or end the fetch. */
  datatype Arrival = Retry | Follow(next: SidebarState, holder: nat) | Settled(result: Fetched)

  /** One `next` call of a chain whose abort flag is down, with the sleep after it. A
      call that throws ends the chain in the `catch` whether or not a stop arrived
      during it, so a stop seen then is not recorded in the abort flag: nothing after
      the `catch` reads it before the next fetch clears it. */
  function Arrive(s: SidebarState, phase: Phase, p: PollStep): (a: Arrival)
    requires !s.abort
    ensures a.Retry? || a.Follow? ==> !p.stopDuringRequest && !p.stopDuringWait && p.reply.Ok?
    ensures a.Retry? <==> p.reply.Ok? && IsProcessing(p.reply.value.status) && !p.stopDuringRequest && !p.stopDuringWait
    ensures a.Follow? ==> phase.FirstChain? && !a.next.abort && a.holder < a.next.nextId
    ensures a.Settled? ==>
      && a.result.calls == 1
      && a.result.followUps <= (if phase.FirstChain? then 1 else 0)
      && a.result.end in {Resolved, Aborted, Failed}
      && !a.result.state.isFetchingNext
    ensures phase.FirstChain? && p.reply.Ok? && !IsProcessing(p.reply.value.status) && !p.stopDuringRequest
            && MapNext(s, p.reply.value, phase.loadingId).shouldContinue ==>
      a.Follow? || (a.Settled? && a.result.end == Aborted && a.result.followUps == 1)
  {
    match p.reply
    case Threw(e) => Settled(Fetched(Finish(Catch(s, MessageOr(e, NextFailedText))), Failed, 1, 0))
    case Ok(r) =>
      if IsProcessing(r.status) then
        if p.stopDuringRequest || p.stopDuringWait
        then Settled(Fetched(Finish(Drop(s.(abort := true), phase)), Aborted, 1, 0))
        else Retry
      else
        match phase
        case FirstChain(loadingId) =>
          var m := MapNext(s.(abort := p.stopDuringRequest), r, loadingId);
          if m.shouldContinue && !m.state.abort then
            var holder := m.state.nextId;
            var t := Post(m.state, "", false, true, "");
            if p.stopDuringWait
            then Settled(Fetched(Finish(Drop(t.(abort := true), FollowUp(holder))), Aborted, 1, 1))
            else Follow(t, holder)
          else Settled(Fetched(Finish(m.state), Resolved, 1, 0))
        case FollowUp(holder) =>
          var m := MapNext(s.(abort := p.stopDuringRequest, messages := Remove(s.messages, holder)), r, None);
          Settled(Fetched(Finish(m.state), Resolved, 1, 0))
  }

  /** The poll chains, one `next` call per transcript step. Each PROCESSING reply sleeps
      and retries unless the abort flag is up; a first-chain segment that should continue
      posts one placeholder and starts exactly one follow-up chain, whose own mapping
      result is discarded. */
  function Run(s: SidebarState, phase: Phase, polls: seq<PollStep>): (f: Fetched)
    ensures f.end != Skipped
    ensures f.calls <= |polls|
    ensures s.abort ==> f.end == Aborted && f.calls == 0
    ensures !s.abort && polls != [] ==> f.calls >= 1
    ensures f.followUps <= if phase.FirstChain? then 1 else 0
    ensures f.end == InFlight ==> f.calls == |polls| && f.state.isFetchingNext == s.isFetchingNext
    ensures f.end != InFlight ==> !f.state.isFetchingNext
    decreases |polls|
  {
    if s.abort then Fetched(Finish(Drop(s, phase)), Aborted, 0, 0)
    else if polls == [] then Fetched(s, InFlight, 0, 0)
    else
      match Arrive(s, phase, polls[0])
      case Settled(f) => f
      case Retry =>
        var f := Run(s, phase, polls[1..]);
        f.(calls := f.calls + 1)
      case Follow(t, holder) =>
        var f := Run(t, FollowUp(holder), polls[1..]);
        f.(calls := f.calls + 1, followUps := f.followUps + 1)
  }

  /** fetchNextSegment: refused while there is no lecture or a fetch is in flight;
      otherwise the abort flag is cleared, `isFetchingNext` raised, and the first chain
      polls, dropping `loadingId` when its content arrives. */
  function Fetch(s: SidebarState, loadingId: Option<nat>, polls: seq<PollStep>): (f: Fetched)
    ensures f.end == Skipped <==> s.lectureId == 0 || s.isFetchingNext
    ensures f.end == Skipped ==> f == Fetched(s, Skipped, 0, 0)
    ensures f.end != Skipped && f.end != InFlight ==> !f.state.isFetchingNext
    ensures f.end == InFlight ==> f.state.isFetchingNext && f.calls == |polls|
    ensures f.followUps <= 1
    ensures f.end != Skipped && polls != [] ==> f.calls >= 1
  {
    if s.lectureId == 0 || s.isFetchingNext then Fetched(s, Skipped, 0, 0)
    else Run(s.(abort := false, isFetchingNext := true), FirstChain(loadingId), polls)
  }

  /** A first segment that should continue, with no stop during its call, makes the
      fetch post exactly one follow-up placeholder: never none, never more than one. */
  lemma ExactlyOneFollowUp(s: SidebarState, loadingId: Option<nat>, p: PollStep, rest: seq<PollStep>)
    requires s.lectureId != 0 && !s.isFetchingNext
    requires p.reply.Ok? && !IsProcessing(p.reply.value.status) && !p.stopDuringRequest
    requires MapNext(s.(abort := false, isFetchingNext := true), p.reply.value, loadingId).shouldContinue
    ensures Fetch(s, loadingId, [p] + rest).followUps == 1
  {
    assert ([p] + rest)[1..] == rest;
  }

  /** A stop left over from before does not prevent the next fetch from polling: the
      flag is cleared on entry, so it is not terminal. */
  lemma StaleStopDoesNotBlock(s: SidebarState, loadingId: Option<nat>, polls: seq<PollStep>)
    requires s.abort && s.lectureId != 0 && !s.isFetchingNext && polls != []
    ensures Fetch(s, loadingId, polls).calls >= 1
  {
  }

  /** A stop observed during a call or during the sleep after it ends the chain there:
      only the last call made may carry one. */
  lemma {:induction false} StopEndsChain(s: SidebarState, phase: Phase, polls: seq<PollStep>)
    ensures var f := Run(s, phase, polls);
      forall k :: 0 <= k < f.calls - 1 ==> !polls[k].stopDuringRequest && !polls[k].stopDuringWait
    decreases |polls|
  {
    if !s.abort && polls != [] {
      var a := Arrive(s, phase, polls[0]);
      if !a.Settled? {
        var phase' := if a.Follow? then FollowUp(a.holder) else phase;
        var s' := if a.Follow? then a.next else s;
        StopEndsChain(s', phase', polls[1..]);
        var f := Run(s', phase', polls[1..]);
        assert forall k :: 1 <= k < f.calls + 1 ==> polls[k] == polls[1..][k - 1];
      }
    }
  }

  /** One step of a chain never touches the lecture, the material, the input box or the
      streaming flag. */
  lemma ArriveKeepsSession(s: SidebarState, phase: Phase, p: PollStep)
    requires !s.abort
    ensures var a := Arrive(s, phase, p);
      (a.Follow? ==> SameSession(s, a.next)) && (a.Settled? ==> SameSession(s, a.result.state))
  {
    if p.reply.Ok? && !IsProcessing(p.reply.value.status) {
      ContentKeepsSession(s, phase, p);
    }
  }

  lemma ContentKeepsSession(s: SidebarState, phase: Phase, p: PollStep)
    requires !s.abort
    requires p.reply.Ok? && !IsProcessing(p.reply.value.status)
    ensures var a := Arrive(s, phase, p);
      (a.Follow? ==> SameSession(s, a.next)) && (a.Settled? ==> SameSession(s, a.result.state))
  {
    var r := p.reply.value;
    match phase
    case FirstChain(loadingId) =>
      var m := MapNext(s.(abort := p.stopDuringRequest), r, loadingId);
      assert SameSession(s, m.state);
    case FollowUp(holder) =>
      var m := MapNext(s.(abort := p.stopDuringRequest, messages := Remove(s.messages, holder)), r, None);
      assert SameSession(s, m.state);
  }

  /** A fetch never touches the lecture, the material, the input box or the streaming
      flag. */
  lemma {:induction false} RunKeepsSession(s: SidebarState, phase: Phase, polls: seq<PollStep>)
    ensures SameSession(s, Run(s, phase, polls).state)
    decreases |polls|
  {
    if !s.abort && polls != [] {
      ArriveKeepsSession(s, phase, polls[0]);
      match Arrive(s, phase, polls[0])
      case Settled(f) =>
      case Retry => RunKeepsSession(s, phase, polls[1..]);
      case Follow(t, holder) => RunKeepsSession(t, FollowUp(holder), polls[1..]);
    }
  }

  // ---------------------------------------------------------------------------
  // What a fetch does to the chat list

  /** `after` keeps `before` as its prefix and adds only messages whose ids are at least
      `from`, none of them still loading when `settled`. */
  ghost predicate Extends(before: seq<Message>, after: seq<Message>, from: nat, settled: bool)
  {
    |before| <= |after| && after[..|before|] == before
    && forall i :: |before| <= i < |after| ==> after[i].id >= from && (settled ==> !after[i].isLoading)
  }

  lemma ExtendsTrans(a: seq<Message>, b: seq<Message>, c: seq<Message>, from1: nat, from2: nat, settled: bool)
    requires Extends(a, b, from1, true) && Extends(b, c, from2, settled) && from1 <= from2
    ensures Extends(a, c, from1, settled)
  {
    assert c[..|a|] == c[..|b|][..|a|];
    forall i | |a| <= i < |b| ensures c[i] == b[i] {
      assert c[..|b|][i] == b[i];
    }
  }

  /** Appending messages with ids from `bound` on, below `next`, to a list whose ids are
      below `bound` keeps every id below `next`. */
  lemma FreshAfter(kept: seq<Message>, msgs: seq<Message>, bound: nat, next: nat)
    requires |kept| <= |msgs| && msgs[..|kept|] == kept
    requires forall m :: m in kept ==> m.id < bound
    requires bound <= next
    requires forall i :: |kept| <= i < |msgs| ==> msgs[i].id < next
    ensures forall m :: m in msgs ==> m.id < next
  {
    forall m | m in msgs ensures m.id < next {
      var i :| 0 <= i < |msgs| && msgs[i] == m;
      if i < |kept| {
        assert kept[i] == m;
      }
    }
  }

  /** Removing the placeholder that closes a list takes the list back to what preceded it. */
  lemma RemoveLast(before: seq<Message>, h: nat)
    requires forall m :: m in before ==> m.id != h
    ensures Remove(before + [Message(h, "", false, true, "")], h) == before
  {
    var p := Message(h, "", false, true, "");
    RemoveAppend(before, [p], h);
    RemoveAbsent(before, h);
    assert [p][1..] == [];
  }

  /** A list that grows by messages with ids from `from` on, none loading, extends its
      old self; `Catch` and `MapNext` grow lists this way. */
  lemma GrowsFresh(before: seq<Message>, after: seq<Message>, from: nat, next: nat)
    requires |before| <= |after| && after[..|before|] == before
    requires forall m :: m in before ==> m.id < from
    requires from <= next
    requires forall i :: |before| <= i < |after| ==> from <= after[i].id < next && !after[i].isLoading
    ensures Extends(before, after, from, true)
    ensures forall m :: m in after ==> m.id < next
  {
    FreshAfter(before, after, from, next);
  }

  /** One step of the follow-up chain, in the terms of FollowUpKeepsHistory. */
  lemma FollowUpStep(s: SidebarState, h: nat, before: seq<Message>, p: PollStep)
    requires !s.abort
    requires s.messages == before + [Message(h, "", false, true, "")]
    requires forall m :: m in before ==> m.id != h
    requires IdsFresh(s)
    ensures var a := Arrive(s, FollowUp(h), p);
      a.Settled? ==>
        IdsFresh(a.result.state) && Extends(before, a.result.state.messages, h, a.result.end != Failed)
  {
    assert s.messages[|before|] == Message(h, "", false, true, "");
    assert s.messages[..|before|] == before;
    assert h < s.nextId;
    RemoveLast(before, h);
    if p.reply.Threw? {
      FollowUpFailed(s, h, before, p);
    } else if IsProcessing(p.reply.value.status) {
      FollowUpAborted(s, h, before, p);
    } else {
      FollowUpContent(s, h, before, p.reply.value, p.stopDuringRequest);
    }
  }

  lemma FollowUpFailed(s: SidebarState, h: nat, before: seq<Message>, p: PollStep)
    requires !s.abort
    requires s.messages == before + [Message(h, "", false, true, "")]
    requires forall m :: m in before ==> m.id != h
    requires IdsFresh(s)
    requires p.reply.Threw?
    ensures var a := Arrive(s, FollowUp(h), p);
      a.Settled? ==>
        IdsFresh(a.result.state) && Extends(before, a.result.state.messages, h, a.result.end != Failed)
  {
    var t := Catch(s, MessageOr(p.reply.error, NextFailedText));
    assert s.messages[|before|] == Message(h, "", false, true, "");
    assert s.messages[..|before|] == before;
    GrowsFresh(s.messages, t.messages, s.nextId, t.nextId);
    assert t.messages[..|before|] == t.messages[..|s.messages|][..|before|];
  }

  lemma FollowUpAborted(s: SidebarState, h: nat, before: seq<Message>, p: PollStep)
    requires !s.abort
    requires s.messages == before + [Message(h, "", false, true, "")]
    requires forall m :: m in before ==> m.id != h
    requires IdsFresh(s)
    requires p.reply.Ok? && IsProcessing(p.reply.value.status)
    ensures var a := Arrive(s, FollowUp(h), p);
      a.Settled? ==>
        IdsFresh(a.result.state) && Extends(before, a.result.state.messages, h, a.result.end != Failed)
  {
    RemoveLast(before, h);
    assert before[..|before|] == before;
  }

  lemma FollowUpContent(s: SidebarState, h: nat, before: seq<Message>, r: NextReply, stop: bool)
    requires Remove(s.messages, h) == before
    requires forall m :: m in before ==> m.id < s.nextId
    requires h < s.nextId
    ensures var m := MapNext(s.(abort := stop, messages := Remove(s.messages, h)), r, None);
      IdsFresh(m.state) && Extends(before, m.state.messages, h, true)
  {
    var m := MapNext(s.(abort := stop, messages := before), r, None);
    GrowsFresh(before, m.state.messages, s.nextId, m.state.nextId);
  }

  /** The follow-up chain keeps the list before its placeholder, and removes the
      placeholder again when it ends on content or on the abort flag. */
  lemma {:induction false} FollowUpKeepsHistory(s: SidebarState, h: nat, before: seq<Message>, polls: seq<PollStep>)
    requires s.messages == before + [Message(h, "", false, true, "")]
    requires forall m :: m in before ==> m.id != h
    requires IdsFresh(s)
    ensures var f := Run(s, FollowUp(h), polls);
      IdsFresh(f.state) && Extends(before, f.state.messages, h, f.end == Resolved || f.end == Aborted)
    decreases |polls|
  {
    assert s.messages[|before|] == Message(h, "", false, true, "");
    assert s.messages[..|before|] == before;
    if s.abort {
      RemoveLast(before, h);
    } else if polls != [] {
      FollowUpStep(s, h, before, polls[0]);
      if Arrive(s, FollowUp(h), polls[0]).Retry? {
        FollowUpKeepsHistory(s, h, before, polls[1..]);
      }
    }
  }

  /** One step of the first chain, in the terms of FetchKeepsHistory. */
  lemma FirstStep(s: SidebarState, loadingId: Option<nat>, p: PollStep)
    requires !s.abort
    requires IdsFresh(s)
    ensures var a := Arrive(s, FirstChain(loadingId), p);
      && (a.Settled? ==>
            IdsFresh(a.result.state)
            && var settled := a.result.end == Resolved || a.result.end == Aborted;
               Extends(s.messages, a.result.state.messages, s.nextId, settled)
               || Extends(Without(s.messages, loadingId), a.result.state.messages, s.nextId, settled))
      && (a.Follow? ==>
            exists before ::
              && a.next.messages == before + [Message(a.holder, "", false, true, "")]
              && (forall m :: m in before ==> m.id != a.holder)
              && IdsFresh(a.next)
              && s.nextId <= a.holder
              && Extends(Without(s.messages, loadingId), before, s.nextId, true))
  {
    if p.reply.Threw? {
      FirstFailed(s, loadingId, p);
    } else if IsProcessing(p.reply.value.status) {
      assert s.messages[..|s.messages|] == s.messages;
    } else {
      FirstContent(s, loadingId, p);
    }
  }

  lemma FirstFailed(s: SidebarState, loadingId: Option<nat>, p: PollStep)
    requires !s.abort
    requires IdsFresh(s)
    requires p.reply.Threw?
    ensures var a := Arrive(s, FirstChain(loadingId), p);
      && (a.Settled? ==>
            IdsFresh(a.result.state)
            && var settled := a.result.end == Resolved || a.result.end == Aborted;
               Extends(s.messages, a.result.state.messages, s.nextId, settled)
               || Extends(Without(s.messages, loadingId), a.result.state.messages, s.nextId, settled))
      && (a.Follow? ==>
            exists before ::
              && a.next.messages == before + [Message(a.holder, "", false, true, "")]
              && (forall m :: m in before ==> m.id != a.holder)
              && IdsFresh(a.next)
              && s.nextId <= a.holder
              && Extends(Without(s.messages, loadingId), before, s.nextId, true))
  {
    var t := Catch(s, MessageOr(p.reply.error, NextFailedText));
    GrowsFresh(s.messages, t.messages, s.nextId, t.nextId);
  }

  lemma FirstContent(s: SidebarState, loadingId: Option<nat>, p: PollStep)
    requires !s.abort
    requires IdsFresh(s)
    requires p.reply.Ok? && !IsProcessing(p.reply.value.status)
    ensures var a := Arrive(s, FirstChain(loadingId), p);
      && (a.Settled? ==>
            IdsFresh(a.result.state)
            && var settled := a.result.end == Resolved || a.result.end == Aborted;
               Extends(s.messages, a.result.state.messages, s.nextId, settled)
               || Extends(Without(s.messages, loadingId), a.result.state.messages, s.nextId, settled))
      && (a.Follow? ==>
            exists before ::
              && a.next.messages == before + [Message(a.holder, "", false, true, "")]
              && (forall m :: m in before ==> m.id != a.holder)
              && IdsFresh(a.next)
              && s.nextId <= a.holder
              && Extends(Without(s.messages, loadingId), before, s.nextId, true))
  {
    var kept := Without(s.messages, loadingId);
    var m := MapNext(s.(abort := p.stopDuringRequest), p.reply.value, loadingId);
    assert forall x :: x in kept ==> x.id < s.nextId;
    GrowsFresh(kept, m.state.messages, s.nextId, m.state.nextId);
    if m.shouldContinue && !m.state.abort {
      FirstAdvance(kept, m.state, s.nextId, p.stopDuringWait);
    }
  }

  /** The auto-advance after first-chain content, in the terms of FirstStep. */
  lemma FirstAdvance(kept: seq<Message>, m: SidebarState, from: nat, stopDuringWait: bool)
    requires Extends(kept, m.messages, from, true) && IdsFresh(m) && from <= m.nextId
    ensures var holder := m.nextId;
      var t := Post(m, "", false, true, "");
      && t.messages == m.messages + [Message(holder, "", false, true, "")]
      && (forall x :: x in m.messages ==> x.id != holder)
      && IdsFresh(t)
      && (stopDuringWait ==> IdsFresh(Finish(Drop(t.(abort := true), FollowUp(holder))))
                             && Finish(Drop(t.(abort := true), FollowUp(holder))).messages == m.messages)
  {
    var holder := m.nextId;
    var t := Post(m, "", false, true, "");
    assert t.messages[..|m.messages|] == m.messages;
    FreshAfter(m.messages, t.messages, holder, t.nextId);
    RemoveLast(m.messages, holder);
  }

  /** A fetch keeps the list it found, minus the loading message it was asked to drop,
      and only adds messages with fresh ids; when it ends on content or on the abort flag
      none of the added messages is still loading, so the follow-up placeholder is gone. */
  lemma {:induction false} FetchKeepsHistory(s: SidebarState, loadingId: Option<nat>, polls: seq<PollStep>)
    requires IdsFresh(s)
    ensures var f := Run(s, FirstChain(loadingId), polls);
      && IdsFresh(f.state)
      && var settled := f.end == Resolved || f.end == Aborted;
         Extends(s.messages, f.state.messages, s.nextId, settled)
         || Extends(Without(s.messages, loadingId), f.state.messages, s.nextId, settled)
    decreases |polls|
  {
    if s.abort || polls == [] {
      assert s.messages[..|s.messages|] == s.messages;
    } else {
      FirstStep(s, loadingId, polls[0]);
      match Arrive(s, FirstChain(loadingId), polls[0])
      case Settled(f) =>
      case Retry =>
        FetchKeepsHistory(s, loadingId, polls[1..]);
      case Follow(t, holder) =>
        var before :| && t.messages == before + [Message(holder, "", false, true, "")]
                       && (forall m :: m in before ==> m.id != holder)
                       && IdsFresh(t) && s.nextId <= holder
                       && Extends(Without(s.messages, loadingId), before, s.nextId, true);
        FollowUpKeepsHistory(t, holder, before, polls[1..]);
        var f := Run(t, FollowUp(holder), polls[1..]);
        ExtendsTrans(Without(s.messages, loadingId), before, f.state.messages, s.nextId, holder,
                     f.end == Resolved || f.end == Aborted);
    }
  }

  /** fetchNextSegment never touches the lecture, the material, the input box or the
      streaming flag. */
  lemma FetchKeepsSession(s: SidebarState, loadingId: Option<nat>, polls: seq<PollStep>)
    ensures SameSession(s, Fetch(s, loadingId, polls).state)
  {
    if s.lectureId != 0 && !s.isFetchingNext {
      RunKeepsSession(s.(abort := false, isFetchingNext := true), FirstChain(loadingId), polls);
    }
  }
}
