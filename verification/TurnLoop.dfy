/** The turn loop against an arbitrary provider, approver, tools, observer and cancel signal (bt-agent, lib.rs). */
module TurnLoop {
  import opened Wrappers
  import opened Messages
  import opened MessageUnits
  import opened ToolCallStream
  import opened TurnProtocol
  import opened TurnStory
  import opened TurnState

  // ---- One LLM call ----

  method CancelLlm(w: World, p: Progress, initial: seq<Message>, asked: nat, ghost law: Law)
    returns (q: Progress, end: TurnEnd, ghost after: Law)
    requires InCallSound(w, initial, p, law) && w.cancelled(p.clock) && w.accepts(StoryOf(p.trace).startedAt)
    ensures Stopped(w, initial, q, after, end) && Because(w, q, end)
    ensures (end == CancelledTurn || end == Failed) && after.llmCalls == law.llmCalls
  {
    hide InCallSound, Stopped, Fault, Signal, StoryOf;
    InCallTicks(w, initial, p, law);
    q, after := p, law;
    FaultAt(w, p.clock, p.clock);
    FaultAt(w, p.clock, p.clock + 1);
    SignalAt(w, p.clock, p.clock + 1);
    match w.summary(p.clock) {
      case None => end := Failed;
      case Some(usage) =>
        CancelledReport(w, initial, q, law, usage, asked);
        InCallLaw(w, initial, p, law);
        q, after := Reported(q, true, usage, [], asked), Law(Closed, [], law.llmCalls);
        end := if w.accepts(p.clock) then CancelledTurn else Failed;
    }
  }

  // ---- Why a run ends ----

  /**
   * A run fails only over a faulty answer, is cancelled only on a signal, asks
   * the user only when not cancelled, and completes only when the latest response
   * asks for no call.
   */
  ghost predicate Because(w: World, p: Progress, end: TurnEnd) {
    match end
    case Failed => Faulted(w, p.clock)
    case CancelledTurn => Signalled(w, p.clock)
    case Completed => Due(w, StoryOf(p.trace), [])
    case PausedForInput => !w.cancelled(p.clock)
    case _ => true
  }

  lemma FaultAt(w: World, at: nat, clock: nat)
    requires at <= clock
    ensures !w.accepts(at) || !Responds(w, at) || w.summary(at).None? || w.disposition(at) == RequestError ==>
      Faulted(w, clock)
    ensures w.approval(at) == EvaluationFailed || !w.notes(at) ==> Faulted(w, clock)
    ensures forall tool: string :: !w.spec(at, tool).Known? ==> Faulted(w, clock)
  {
    if tool: string :| !w.spec(at, tool).Known? { assert Fault(w, at); }
    if !w.accepts(at) || !Responds(w, at) || w.summary(at).None? || w.disposition(at) == RequestError
       || w.approval(at) == EvaluationFailed || !w.notes(at) {
      assert Fault(w, at);
    }
  }

  lemma SignalAt(w: World, at: nat, clock: nat)
    requires at <= clock
    ensures w.cancelled(at) || w.disposition(at) == CancelledRequest ==> Signalled(w, clock)
  {
    if w.cancelled(at) || w.disposition(at) == CancelledRequest { assert Signal(w, at); }
  }

  lemma InCallLaw(w: World, initial: seq<Message>, p: Progress, law: Law)
    requires InCallSound(w, initial, p, law)
    ensures law == Law(InCall(p.ordinal + 1), [], p.ordinal + 1)
  {
  }

  lemma IdleCount(w: World, initial: seq<Message>, p: Progress, law: Law)
    requires Idle(w, initial, p, law)
    ensures p.ordinal == law.llmCalls && law.phase == Ready
  {
  }

  method CallLlm(w: World, initial: seq<Message>, p: Progress, ghost law: Law)
    returns (q: Progress, calls: seq<CompletedCall>, end: Option<TurnEnd>, ghost after: Law)
    requires Idle(w, initial, p, law) && law.queue == [] && !w.cancelled(p.clock)
    ensures end.Some? ==> Stopped(w, initial, q, after, end.value)
    ensures end == None ==> Idle(w, initial, q, after) && after.queue == Ids(calls) && calls != []
    ensures end == None ==> w.accepts(StoryOf(q.trace).reportedAt)
    ensures end == None ==> Due(w, StoryOf(q.trace), calls)
    ensures end.Some? ==> Because(w, q, end.value)
    ensures after.llmCalls == law.llmCalls + 1 && (end == Some(Completed) ==> calls == [])
    ensures end != Some(PausedForApproval) && end != Some(PausedForInput) && end != Some(Unfinished)
  {
    hide Idle, InCallSound, Stopped, Collect, Due, StoryOf, Faulted, Signalled;
    StartsCall(w, initial, p, law);
    IdleCount(w, initial, p, law);
    q, calls := Tick(Log(p, LlmStarted(p.ordinal + 1, p.messages, p.clock))), [];
    after := Law(InCall(p.ordinal + 1), [], p.ordinal + 1);
    InCallTicks(w, initial, q, after);
    FaultAt(w, p.clock, q.clock);
    if !w.accepts(p.clock) { return q, [], Some(Failed), after; }
    var asked := q.clock;
    var answer := w.provider(asked);
    q := Tick(q);
    InCallTicks(w, initial, q, after);
    if w.cancelled(q.clock) {
      var stop;
      q, stop, after := CancelLlm(w, q, initial, asked, after);
      return q, [], Some(stop), after;
    }
    FaultAt(w, asked, q.clock);
    if answer.ProviderFailed? { return q, [], Some(Failed), after; }
    var response := Collect(answer.deltas);
    if response.Err? { return q, [], Some(Failed), after; }
    q := Tick(q);
    if w.cancelled(q.clock) {
      var stop;
      q, stop, after := CancelLlm(w, q, initial, asked, after);
      return q, [], Some(stop), after;
    }
    q, calls, end, after := DeliverResponse(w, initial, q, asked, after);
  }

  /** The turn says these parts in one assistant message, or nothing when there are none. */
  predicate Says(p: Progress, q: Progress, parts: seq<Part>) {
    if parts == [] then q.emitted == p.emitted
    else |q.emitted| == |p.emitted| + 1 && p.emitted <= q.emitted
         && q.emitted[|p.emitted|].role == Assistant && q.emitted[|p.emitted|].parts == parts
  }

  /** The response is in and nothing was cancelled: report the call, then add its message. */
  method DeliverResponse(w: World, initial: seq<Message>, p: Progress, asked: nat, ghost law: Law)
    returns (q: Progress, calls: seq<CompletedCall>, end: Option<TurnEnd>, ghost after: Law)
    requires InCallSound(w, initial, p, law) && Responds(w, asked)
    requires w.accepts(StoryOf(p.trace).startedAt) && !w.cancelled(p.clock)
    ensures end != Some(Failed) ==> w.accepts(StoryOf(q.trace).reportedAt)
    ensures end.Some? ==> Stopped(w, initial, q, after, end.value)
    ensures end == None ==> Idle(w, initial, q, after) && after.queue == Ids(calls) && calls != []
    ensures after.llmCalls == law.llmCalls && (end == Some(Completed) ==> calls == [])
    ensures end == None || end == Some(Failed) || end == Some(Completed)
    ensures end == Some(Failed) ==> q.emitted == p.emitted
    ensures end != Some(Failed) ==> calls == Response(w, asked).calls && Says(p, q, Response(w, asked).parts)
    ensures end != Some(Failed) ==> Due(w, StoryOf(q.trace), calls)
    ensures end.Some? ==> Because(w, q, end.value)
  {
    hide Stopped, Idle, InCallSound, Collect, MergeUsage, Due, StoryOf, Responds, Faulted;
    InCallLaw(w, initial, p, law);
    InCallTicks(w, initial, p, law);
    q, calls := p, [];
    var usage := w.summary(p.clock);
    FaultAt(w, p.clock, p.clock);
    FaultAt(w, p.clock, p.clock + 1);
    if usage.None? { return q, [], Some(Failed), law; }
    calls := Response(w, asked).calls;
    after := Law(Ready, Ids(calls), p.ordinal + 1);
    FinishedReport(w, initial, q, law, usage.value, asked);
    q := Reported(q, false, usage.value, Ids(calls), asked);
    if !w.accepts(p.clock) { return q, [], Some(Failed), after; }
    q := q.(usage := MergeUsage(q.usage, Some(usage.value)));
    if Response(w, asked).parts != [] {
      q := AddAssistantMessage(w, initial, q, asked, after);
    }
    IdleStops(w, initial, q, after);
    end := if calls == [] then Some(Completed) else None;
  }

  method AddAssistantMessage(w: World, initial: seq<Message>, p: Progress, asked: nat, ghost law: Law)
    returns (q: Progress)
    requires Idle(w, initial, p, law) && Responds(w, asked) && Response(w, asked).parts != []
    requires StoryOf(p.trace).asked == Some(asked) && StoryOf(p.trace).requests == 0
    requires w.accepts(StoryOf(p.trace).reportedAt)
    ensures Idle(w, initial, q, law) && Says(p, q, Response(w, asked).parts)
    ensures StoryOf(q.trace) == StoryOf(p.trace)
  {
    hide Idle, Collect, NewMessage, StoryOf;
    var deltas := w.provider(asked).deltas;
    var message := NewMessage(w.newId(p.clock), Assistant, Response(w, asked).parts, p.clock);
    CollectedPartsAreTalk(deltas);
    CollectedPartsAreNormal(deltas, w.newId(p.clock), Assistant, p.clock);
    NewMessageHead(w.newId(p.clock), Assistant, Response(w, asked).parts, p.clock);
    EmitTalk(w, initial, p, law, message);
    q := Emit(p, message).(messages := p.messages + [message]);
  }

  lemma NewMessageHead(id: int, role: Role, parts: seq<Part>, now: int)
    ensures NewMessage(id, role, parts, now).id == id && NewMessage(id, role, parts, now).role == role
  {
  }

  // ---- One tool call ----

  function OwnResult(call: CompletedCall, output: string, cancelled: bool): Outcome {
    Outcome(call.callId, call.toolName, true, output, cancelled)
  }

  /** The outcome of running the tool at `at`: its answer, unless an immediate tool was broken off. */
  predicate AnswersAt(w: World, call: CompletedCall, immediate: bool, at: nat, over: nat, outcome: Outcome) {
    if BrokenOff(w, immediate, over) then outcome == OwnResult(call, CANCELLED_OUTPUT, true)
    else match w.tool(at, call.callId)
      case ToolReturned(id, name, isError, output) =>
        && outcome.resultId == id && outcome.toolName == name
        && outcome.isError == isError && outcome.output == output
        && outcome.cancelled == (!immediate && w.cancelled(over))
      case ToolFailed(error) =>
        && outcome.resultId == call.callId && outcome.toolName == call.toolName
        && outcome.isError && outcome.output == ErrorOutput(error) && !outcome.cancelled
  }

  /** Nothing has been decided about the call being handled. */
  predicate Untouched(story: Story) {
    story.executed == None && !story.denied
  }

  predicate SameCall(a: Story, b: Story) {
    && a.asked == b.asked && a.reportedAt == b.reportedAt
    && a.requests == b.requests && a.requestedAt == b.requestedAt
  }

  method ExecuteToolCall(
    w: World, initial: seq<Message>, p: Progress, call: CompletedCall, immediate: bool, ghost law: Law)
    returns (q: Progress, outcome: Outcome, ghost after: Law)
    requires Busy(w, initial, p, law, call) && law.phase == Cleared(call.callId)
    ensures Busy(w, initial, q, after, call)
    ensures if w.cancelled(p.clock + 1)
      then q == Tick(p) && after == law && outcome == OwnResult(call, CANCELLED_OUTPUT, true)
      else
        && q == Tick(Tick(Log(p, Executed(call.callId, p.clock + 1)))) && after == law.(phase := Ran(call.callId))
        && AnswersAt(w, call, immediate, p.clock + 1, q.clock, outcome)
    ensures Echoes(w) ==> outcome.resultId == call.callId
  {
    hide Busy, ErrorOutput;
    BusyTicks(w, initial, p, law, call);
    q, after := Tick(p), law;
    if w.cancelled(q.clock) {
      return q, OwnResult(call, CANCELLED_OUTPUT, true), law;
    }
    LoggedBusy(w, initial, q, law, Executed(call.callId, q.clock), call);
    after := law.(phase := Ran(call.callId));
    q := Log(q, Executed(call.callId, q.clock));
    var answer := w.tool(q.clock, call.callId);
    BusyTicks(w, initial, q, after, call);
    q := Tick(q);
    if immediate && w.cancelled(q.clock) && w.notices(q.clock) {
      outcome := OwnResult(call, CANCELLED_OUTPUT, true);
    } else {
      match answer {
        case ToolFailed(error) => outcome := OwnResult(call, ErrorOutput(error), false);
        case ToolReturned(id, name, isError, output) =>
          outcome := Outcome(id, name, isError, output, !immediate && w.cancelled(q.clock));
      }
    }
  }

  /** One result message for this call joins the transcript. */
  predicate Enters(p: Progress, q: Progress, outcome: Outcome) {
    && |q.emitted| == |p.emitted| + 1 && p.emitted <= q.emitted && q.messages == p.messages + [q.emitted[|p.emitted|]]
    && q.emitted[|p.emitted|]
       == ResultMessage(q.emitted[|p.emitted|].id, outcome, q.emitted[|p.emitted|].createdAt)
  }

  /** Reports the result; a result the observer refuses aborts the turn before entering the context. */
  method FinishCall(
    w: World, initial: seq<Message>, p: Progress, call: CompletedCall, outcome: Outcome, ghost law: Law)
    returns (q: Progress, end: Option<TurnEnd>, ghost after: Law)
    requires Busy(w, initial, p, law, call)
    requires Next(w.cancelled, law, Finished(call.callId, outcome.resultId, p.clock)).Some?
    requires law.phase == Ran(call.callId) || law.phase == Denied(call.callId) || outcome.cancelled
    requires Echoes(w) ==> outcome.resultId == call.callId
    requires ResultTold(w, StoryOf(p.trace).(finishedAt := p.clock), call, ResultPart(outcome))
    requires outcome.cancelled ==> w.cancelled(p.clock)
    ensures end == None ==> !outcome.cancelled && !w.cancelled(q.clock)
    ensures p.clock <= q.clock
    ensures end != Some(Failed) ==> SameCall(StoryOf(q.trace), StoryOf(p.trace))
    ensures end.Some? ==> Because(w, q, end.value)
    ensures after.queue == law.queue && after.llmCalls == law.llmCalls
    ensures end == None ==> Idle(w, initial, q, after)
    ensures end.Some? ==> Stopped(w, initial, q, after, end.value)
    ensures end == None || end == Some(Failed) || end == Some(CancelledTurn)
    ensures end == Some(Failed) ==> q.emitted == p.emitted && q.messages == p.messages
    ensures end != Some(Failed) ==> Enters(p, q, outcome)
  {
    hide Busy, Stopped, Idle, Next, Echoes, StoryOf, ResultTold, Faulted, Signalled;
    var event := Finished(call.callId, outcome.resultId, p.clock);
    LoggedBusy(w, initial, p, law, event, call);
    FinishedPhase(w, law, call.callId, outcome.resultId, p.clock);
    after := Next(w.cancelled, law, event).value;
    q := Log(p, event);
    FailsFrom(w, initial, q, after, call);
    FaultAt(w, q.clock, q.clock);
    SignalAt(w, q.clock, q.clock + 3);
    if !w.notes(q.clock) { return q, Some(Failed), after; }
    BusyTicks(w, initial, q, after, call);
    q := Tick(q);
    var message := ResultMessage(w.newId(q.clock), outcome, q.clock);
    ResultEntered(w, initial, q, after, call, outcome, message);
    q := Emit(q, message).(messages := q.messages + [message]);
    q := Tick(q);
    SignalAt(w, q.clock, q.clock);
    end := if outcome.cancelled || w.cancelled(q.clock) then Some(CancelledTurn) else None;
  }

  /** A failure between request and execution still reports a finish before the error is returned. */
  method ReportFailure(w: World, initial: seq<Message>, p: Progress, call: CompletedCall, ghost law: Law)
    returns (q: Progress, ghost after: Law)
    requires Busy(w, initial, p, law, call) && law.phase == Failing(call.callId)
    ensures Stopped(w, initial, q, after, Failed) && after.queue == law.queue && after.llmCalls == law.llmCalls
    ensures q.clock == p.clock
  {
    hide Busy, Stopped, StoryOf;
    var event := Finished(call.callId, call.callId, p.clock);
    LoggedBusy(w, initial, p, law, event, call);
    q, after := Log(p, event), law.(phase := Closed);
    FailsFrom(w, initial, q, after, call);
  }

  /** Asks for approval; a run that cannot go on to execution or denial stops here. */
  method Approve(w: World, initial: seq<Message>, p: Progress, call: CompletedCall, ghost law: Law)
    returns (q: Progress, end: Option<TurnEnd>, denied: bool, ghost after: Law)
    requires Busy(w, initial, p, law, call) && law.phase == Pending(call.callId)
    ensures after.queue == law.queue && after.llmCalls == law.llmCalls
    ensures end == None ==> Busy(w, initial, q, after, call)
    ensures end == None ==> StoryOf(q.trace) == StoryOf(p.trace).(denied := denied)
    ensures end.Some? ==> Because(w, q, end.value)
    ensures end == None ==> after.phase == if denied then Denied(call.callId) else Cleared(call.callId)
    ensures end.Some? ==> Stopped(w, initial, q, after, end.value)
    ensures end == None || end == Some(Failed) || end == Some(PausedForApproval)
  {
    hide Busy, Stopped, StoryOf, Faulted;
    q, after, end, denied := p, law, None, false;
    var answer := w.approval(q.clock);
    var noted := w.notes(q.clock);
    var event := match answer
      case EvaluationFailed => ApprovalFailed(call.callId, q.clock)
      case Undecided => ApprovalAsked(call.callId, noted, q.clock)
      case Approve => ApprovalResolved(call.callId, true, noted, q.clock)
      case Deny => ApprovalResolved(call.callId, false, noted, q.clock);
    FaultAt(w, p.clock, p.clock + 1);
    LoggedBusy(w, initial, q, law, event, call);
    after := Next(w.cancelled, law, event).value;
    BusyTicks(w, initial, Log(q, event), after, call);
    q := Tick(Log(q, event));
    if answer == EvaluationFailed || !noted {
      q, after := ReportFailure(w, initial, q, call, after);
      end := Some(Failed);
    } else if answer == Undecided {
      Pausing(w, initial, q, call, after, PausedForApproval);
      end := Some(PausedForApproval);
    } else {
      denied := answer == Deny;
    }
  }

  /** Approval, execution and result of a call whose request is recorded. */
  method ApproveAndExecute(
    w: World, initial: seq<Message>, p: Progress, call: CompletedCall, spec: ToolSpec, ghost law: Law)
    returns (q: Progress, end: Option<TurnEnd>, ghost after: Law)
    requires spec.Known? && !spec.asksUser && Busy(w, initial, p, law, call)
    requires law.phase == if spec.needsApproval then Pending(call.callId) else Cleared(call.callId)
    requires Untouched(StoryOf(p.trace)) && spec == w.spec(StoryOf(p.trace).requestedAt, call.toolName)
    ensures end == None ==> SameCall(StoryOf(q.trace), StoryOf(p.trace))
    ensures end.Some? ==> Because(w, q, end.value)
    ensures after.queue == law.queue && after.llmCalls == law.llmCalls
    ensures end == None ==> Idle(w, initial, q, after)
    ensures end.Some? ==> Stopped(w, initial, q, after, end.value)
    ensures end.Some? ==> end.value in {Failed, CancelledTurn, PausedForApproval}
  {
    hide Busy, Idle, Stopped, StoryOf, ResultTold, Because, DeniedOutput;
    BusyTicks(w, initial, p, law, call);
    q, after := Tick(p), law;
    var denied := false;
    if spec.needsApproval {
      q, end, denied, after := Approve(w, initial, q, call, after);
      if end.Some? { return; }
    }
    var outcome := OwnResult(call, DeniedOutput(call.toolName), false);
    ghost var story := StoryOf(q.trace);
    if denied {
      DenialIsTold(w, story.(finishedAt := q.clock), call);
    } else {
      ghost var before := q;
      q, outcome, after := ExecuteToolCall(w, initial, q, call, spec.immediate, after);
      StoryLog(before.trace, Executed(call.callId, before.clock + 1));
      OutcomeIsTold(w, story, call, spec, before.clock + 1, q.clock, outcome);
    }
    q, end, after := FinishCall(w, initial, q, call, outcome, after);
  }

  lemma DenialIsTold(w: World, story: Story, call: CompletedCall)
    requires story.executed == None && story.denied
    ensures ResultTold(w, story, call, ResultPart(OwnResult(call, DeniedOutput(call.toolName), false)))
  {
  }

  lemma OutcomeIsTold(
    w: World, story: Story, call: CompletedCall, spec: ToolSpec, at: nat, over: nat, outcome: Outcome)
    requires Untouched(story) && spec.Known? && spec == w.spec(story.requestedAt, call.toolName)
    ensures w.cancelled(over) && outcome == OwnResult(call, CANCELLED_OUTPUT, true) ==>
      ResultTold(w, story.(finishedAt := over), call, ResultPart(outcome))
    ensures AnswersAt(w, call, spec.immediate, at, over, outcome) ==>
      ResultTold(w, story.(executed := Some(at), finishedAt := over), call, ResultPart(outcome))
  {
    hide ErrorOutput;
  }

  method HandleCall(
    w: World, initial: seq<Message>, p: Progress, call: CompletedCall, ghost rest: seq<CompletedCall>, ghost law: Law)
    returns (q: Progress, end: Option<TurnEnd>, ghost after: Law)
    requires Idle(w, initial, p, law) && law.queue != [] && law.queue[0] == call.callId
    requires Due(w, StoryOf(p.trace), [call] + rest) && w.accepts(StoryOf(p.trace).reportedAt)
    ensures end == None ==> Due(w, StoryOf(q.trace), rest) && w.accepts(StoryOf(q.trace).reportedAt)
    ensures end.Some? ==> Because(w, q, end.value)
    ensures after.llmCalls == law.llmCalls
    ensures end == None ==> Idle(w, initial, q, after) && after.queue == law.queue[1..]
    ensures end.Some? ==> Stopped(w, initial, q, after, end.value)
    ensures end != Some(Completed) && end != Some(Unfinished)
  {
    hide Busy, Idle, Stopped, Sound, Due, Handles, StoryOf, Faulted, Signalled;
    IdleTicks(w, initial, p, law);
    q, after := Tick(p), law;
    var spec := w.spec(q.clock, call.toolName);
    IdleStops(w, initial, q, law);
    FaultAt(w, q.clock, q.clock);
    SignalAt(w, q.clock, q.clock);
    if !spec.Known? { return q, Some(Failed), law; }
    var disposition := w.disposition(q.clock);
    RequestLogged(w, initial, q, law, call, rest, spec, disposition);
    var event := Requested(call.callId, spec.needsApproval, spec.asksUser, disposition, q.clock);
    after := Next(w.cancelled, law, event).value;
    q := Log(q, event);
    ghost var recorded := q;
    if disposition == RequestError { ClosedStops(w, initial, q, after); return q, Some(Failed), after; }
    if disposition == CancelledRequest { ClosedStops(w, initial, q, after); return q, Some(CancelledTurn), after; }
    q, end, after := HandleRecorded(w, initial, q, call, spec, after);
    if end == None { DueStill(w, StoryOf(recorded.trace), StoryOf(q.trace), rest); }
  }

  lemma DueStill(w: World, before: Story, after: Story, rest: seq<CompletedCall>)
    requires Due(w, before, rest) && SameCall(before, after)
    ensures Due(w, after, rest)
  {
    hide Responds;
  }

  /** What logging the request gives, by how the observer answered it. */
  lemma RequestLogged(
    w: World, initial: seq<Message>, p: Progress, law: Law, call: CompletedCall, rest: seq<CompletedCall>,
    spec: ToolSpec, disposition: Answer)
    requires Idle(w, initial, p, law) && law.queue != [] && law.queue[0] == call.callId && spec.Known?
    requires Due(w, StoryOf(p.trace), [call] + rest) && w.accepts(StoryOf(p.trace).reportedAt)
    requires spec == w.spec(p.clock, call.toolName) && disposition == w.disposition(p.clock)
    ensures var event := Requested(call.callId, spec.needsApproval, spec.asksUser, disposition, p.clock);
      && NewlyRequested(w, StoryOf(Log(p, event).trace), call, rest, p.clock)
      && w.accepts(StoryOf(Log(p, event).trace).reportedAt)
      && Next(w.cancelled, law, event).Some?
      && var after := Next(w.cancelled, law, event).value;
         && Sound(w, initial, Log(p, event), after, 0) && p.messages == initial + p.emitted
         && after.llmCalls == law.llmCalls
         && (if disposition != Recorded then after.phase == Closed
             else after.queue == law.queue[1..] && after.phase == RecordedPhase(call, spec))
  {
    hide Sound, StoryOf, Due;
    var event := Requested(call.callId, spec.needsApproval, spec.asksUser, disposition, p.clock);
    Logged(w, initial, p, law, event, 0);
    StoryLog(p.trace, event);
    NextIsRequested(w, StoryOf(p.trace), event, call, rest);
  }

  predicate NewlyRequested(w: World, story: Story, call: CompletedCall, rest: seq<CompletedCall>, at: nat) {
    Handles(w, story, call) && Due(w, story, rest) && Untouched(story) && story.requestedAt == at
  }

  lemma NextIsRequested(w: World, story: Story, event: Event, call: CompletedCall, rest: seq<CompletedCall>)
    requires event.Requested? && Due(w, story, [call] + rest)
    ensures NewlyRequested(w, Noted(story, event), call, rest, event.at)
  {
    hide Responds;
    var calls := Response(w, story.asked.value).calls;
    assert calls[story.requests..][0] == call;
    assert calls[story.requests..][1..] == rest;
    assert calls[story.requests + 1..] == calls[story.requests..][1..];
  }

  function RecordedPhase(call: CompletedCall, spec: ToolSpec): Phase
    requires spec.Known?
  {
    if spec.asksUser then Asking(call.callId)
    else if spec.needsApproval then Pending(call.callId) else Cleared(call.callId)
  }

  /** The request is recorded: its message joins the transcript, then it is cancelled, asked, or approved and run. */
  method HandleRecorded(
    w: World, initial: seq<Message>, p: Progress, call: CompletedCall, spec: ToolSpec, ghost law: Law)
    returns (q: Progress, end: Option<TurnEnd>, ghost after: Law)
    requires Sound(w, initial, p, law, 0) && p.messages == initial + p.emitted
    requires spec.Known? && law.phase == RecordedPhase(call, spec)
    requires Handles(w, StoryOf(p.trace), call) && Untouched(StoryOf(p.trace))
    requires spec == w.spec(StoryOf(p.trace).requestedAt, call.toolName)
    ensures end == None ==> SameCall(StoryOf(q.trace), StoryOf(p.trace))
    ensures end.Some? ==> Because(w, q, end.value)
    ensures after.llmCalls == law.llmCalls
    ensures end == None ==> Idle(w, initial, q, after) && after.queue == law.queue
    ensures end.Some? ==> Stopped(w, initial, q, after, end.value)
    ensures end != Some(Completed) && end != Some(Unfinished)
  {
    hide Sound, Busy, Idle, Stopped, StoryOf, Handles, ResultTold, Faulted, Signalled, Responds;
    after := law;
    var message := CallMessage(w.newId(p.clock), call, ArgumentText(call), p.clock);
    EmitCall(w, initial, p, after, call, message);
    q := Emit(p, message).(messages := p.messages + [message]);
    q := Tick(q);
    if w.cancelled(q.clock) {
      CancelledFinish(w.cancelled, after, call.callId, call.callId, q.clock);
      OutcomeIsTold(w, StoryOf(q.trace), call, spec, 0, q.clock, OwnResult(call, CANCELLED_OUTPUT, true));
      ghost var moment := q.clock;
      q, end, after := FinishCall(w, initial, q, call, OwnResult(call, CANCELLED_OUTPUT, true), after);
      StopsNow(w, initial, q, after, end);
      SignalAt(w, moment, q.clock);
      end := if end == Some(Failed) then end else Some(CancelledTurn);
    } else if spec.asksUser {
      Pausing(w, initial, q, call, after, PausedForInput);
      end := Some(PausedForInput);
    } else {
      q, end, after := ApproveAndExecute(w, initial, q, call, spec, after);
    }
  }

  method HandleCalls(w: World, initial: seq<Message>, p: Progress, calls: seq<CompletedCall>, ghost law: Law)
    returns (q: Progress, end: Option<TurnEnd>, ghost after: Law)
    requires Idle(w, initial, p, law) && law.queue == Ids(calls) && Due(w, StoryOf(p.trace), calls)
    requires w.accepts(StoryOf(p.trace).reportedAt)
    ensures end.Some? ==> Because(w, q, end.value)
    ensures after.llmCalls == law.llmCalls
    ensures end == None ==> Idle(w, initial, q, after) && after.queue == []
    ensures end.Some? ==> Stopped(w, initial, q, after, end.value) && end.value != Completed && end.value != Unfinished
  {
    hide Idle, Stopped, Due, StoryOf, Because;
    q, end, after := p, None, law;
    assert calls[0..] == calls;
    for i := 0 to |calls|
      invariant Idle(w, initial, q, after) && after.queue == Ids(calls[i..]) && after.llmCalls == law.llmCalls
      invariant Due(w, StoryOf(q.trace), calls[i..]) && w.accepts(StoryOf(q.trace).reportedAt)
    {
      assert calls[i..][1..] == calls[i + 1..];
      assert calls[i..] == [calls[i]] + calls[i + 1..];
      q, end, after := HandleCall(w, initial, q, calls[i], calls[i + 1..], after);
      if end.Some? { return; }
    }
    end := None;
    assert calls[|calls|..] == [];
  }

  // ---- The run ----

  /** What a run that ended guarantees, by how it ended. */
  ghost predicate Delivered(w: World, initial: seq<Message>, p: Progress, law: Law, end: TurnEnd) {
    && After(w.cancelled, p.trace) == Some(law) && EndsIn(end, law)
    && StartsSeeAll(initial, p.trace) && InOrder(p.trace) && (Echoes(w) ==> FinishesEcho(p.trace))
    && AllTold(w, p.trace) && Because(w, p, end)
    && (end != Failed ==>
          && p.emitted == EmittedBy(p.trace) && p.usage == Total(Usages(p.trace))
          && (Echoes(w) && WellPaired({}, initial) ==> WellPaired({}, initial + p.emitted))
          && (Echoes(w) ==> Answered(p.emitted, |p.emitted| - (if Paused(end) then 1 else 0)))
          && (forall m :: m in p.emitted ==> m.role == Assistant || m.role == Role.Tool)
          && (forall m :: m in p.emitted ==> MintedBefore(w, p.clock, m.id))
          && (FreshIds(w, initial) ==> DistinctIds(initial + p.emitted)))
  }

  /**
   * A run of at most `fuel` LLM calls. Its trace obeys the protocol and ends
   * in a state its result allows; each LLM call starts on everything emitted so
   * far; the messages returned are those emitted, the usage is the total of the
   * calls not cancelled, and, when tools echo their call id, the transcript is
   * well paired and each call is immediately followed by its own result, except
   * the last one of a run that pauses.
   */
  method RunTurn(w: World, initial: seq<Message>, fuel: nat) returns (p: Progress, end: TurnEnd, ghost law: Law)
    ensures Delivered(w, initial, p, law, end)
    ensures end == Unfinished ==> law.llmCalls == fuel
  {
    hide Idle, Stopped, Due, StoryOf, Because;
    p, law := Progress(0, [], initial, [], None, 0), Law(Ready, [], 0);
    Begins(w, initial);
    for k := 0 to fuel
      invariant Idle(w, initial, p, law) && law.queue == [] && law.llmCalls == k
    {
      IdleTicks(w, initial, p, law);
      p := Tick(p);
      if w.cancelled(p.clock) {
        IdleStops(w, initial, p, law);
        CancelledNow(w, p);
        StoppedFacts(w, initial, p, law, CancelledTurn);
        return p, CancelledTurn, law;
      }
      var calls, stop;
      p, calls, stop, law := CallLlm(w, initial, p, law);
      if stop.Some? {
        StoppedFacts(w, initial, p, law, stop.value);
        return p, stop.value, law;
      }
      p, stop, law := HandleCalls(w, initial, p, calls, law);
      if stop.Some? {
        StoppedFacts(w, initial, p, law, stop.value);
        return p, stop.value, law;
      }
    }
    IdleStops(w, initial, p, law);
    assert Because(w, p, Unfinished) by { NoReason(w, p); }
    StoppedFacts(w, initial, p, law, Unfinished);
    end := Unfinished;
  }

  lemma CancelledNow(w: World, p: Progress)
    requires w.cancelled(p.clock)
    ensures Because(w, p, CancelledTurn)
  {
    SignalAt(w, p.clock, p.clock);
  }

  lemma NoReason(w: World, p: Progress)
    ensures Because(w, p, Unfinished)
  {
  }

  lemma StoppedFacts(w: World, initial: seq<Message>, p: Progress, law: Law, end: TurnEnd)
    requires Stopped(w, initial, p, law, end) && Because(w, p, end)
    ensures Delivered(w, initial, p, law, end)
  {
    hide EmittedBy, Usages, Total, Echoes, WellPaired, Answered, After, StartsSeeAll, FreshIds, DistinctIds, InOrder,
         FinishesEcho, MintedBefore, AllTold, Because;
  }

  // ---- What every run guarantees ----

  /** The cancel signal, once set, stays set. */
  ghost predicate Latches(cancelled: nat -> bool) {
    forall s, t :: s <= t && cancelled(s) ==> cancelled(t)
  }

  /**
   * No LLM call and no execution begins at a moment at which the cancel signal is
   * set, nor later in the trace than such a moment.
   */
  lemma {:induction false} NothingBeginsOnceCancelled(w: World, trace: seq<Event>, j: nat, k: nat)
    requires Latches(w.cancelled) && After(w.cancelled, trace).Some? && InOrder(trace) && AllTold(w, trace)
    requires j <= k < |trace| && Moment(trace[j]).Some? && w.cancelled(Moment(trace[j]).value)
    ensures !trace[k].Executed? && !trace[k].LlmStarted?
  {
    hide AllTold, After, StoryOf;
    if trace[k].Executed? { var _ := ExecutionIsCleared(w.cancelled, trace, k); }
    ToldAt(w, trace, k);
  }

  /**
   * On every run that did not stop at an observer, provider or tool failure,
   * ordinals count up from one and every started call is finished.
   */
  lemma EveryStartFinished(cancelled: nat -> bool, trace: seq<Event>, end: TurnEnd)
    requires After(cancelled, trace).Some? && EndsIn(end, After(cancelled, trace).value) && end != Failed
    ensures FinishedOrdinals(trace) == StartedOrdinals(trace) == OneTo(After(cancelled, trace).value.llmCalls)
  {
    OrdinalsCountUp(cancelled, trace);
  }

  /** Only a run that pauses ends with a recorded call unfinished, and then just its last one. */
  lemma {:induction false} OnlyPausesLeaveCallsOpen(cancelled: nat -> bool, trace: seq<Event>, end: TurnEnd, i: nat)
    requires After(cancelled, trace).Some? && EndsIn(end, After(cancelled, trace).value)
    requires i < |trace| && trace[i].Requested? && trace[i].answer == Recorded
    requires forall j :: i < j < |trace| ==> !Boundary(trace[j])
    ensures Finishes(trace[i + 1..]) == if Paused(end) then 0 else 1
  {
    OneFinishAfterLastRequest(cancelled, trace, i);
  }
}
