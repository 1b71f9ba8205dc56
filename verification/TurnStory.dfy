/** What the provider, the tools and the observers answer, and what a trace must say about it (bt-agent, lib.rs). */
module TurnStory {
  import opened Wrappers
  import opened Messages
  import opened ToolCallStream
  import opened TurnProtocol
  import CanonicalJson

  datatype ProviderAnswer = Streamed(deltas: seq<Delta>) | ProviderFailed

  datatype ToolSpec = UnknownTool | MalformedQuestion | Known(needsApproval: bool, asksUser: bool, immediate: bool)

  datatype ApprovalAnswer = Approve | Deny | Undecided | EvaluationFailed

  datatype ToolAnswer =
    | ToolReturned(resultId: string, toolName: string, isError: bool, output: string)
    | ToolFailed(error: string)

  /** Everything outside the loop, as answers by the moment of asking. */
  datatype World = World(
    cancelled: nat -> bool, accepts: nat -> bool, provider: nat -> ProviderAnswer, summary: nat -> Option<Usage>,
    spec: (nat, string) -> ToolSpec, disposition: nat -> Answer, approval: nat -> ApprovalAnswer, notes: nat -> bool,
    tool: (nat, string) -> ToolAnswer, notices: nat -> bool, newId: nat -> int)

  /** The printed `{"error": ...}` object around an error's text. */
  function ErrorOutput(error: string): string {
    "{\"error\":" + CanonicalJson.Quote(error) + "}"
  }

  function DeniedOutput(toolName: string): string {
    ErrorOutput("invalid state: tool `" + toolName + "` was denied")
  }

  /** The output of a call that was cancelled before it had a result. */
  const CANCELLED_OUTPUT :=
    "{\"cancelled\":true,\"error\":{\"code\":\"cancelled\",\"message\":\"tool execution cancelled before completion\"}}"

  /** An error output reads back as its error's text. */
  lemma ErrorOutputsDiffer(a: string, b: string)
    requires ErrorOutput(a) == ErrorOutput(b)
    ensures a == b
  {
    hide CanonicalJson.Quote;
    var prefix := "{\"error\":";
    assert ErrorOutput(a)[|prefix|..] == CanonicalJson.Quote(a) + "}";
    assert ErrorOutput(b)[|prefix|..] == CanonicalJson.Quote(b) + "}";
    CanonicalJson.QuotePrefixFree(a, b, "}", "}");
  }

  // ---- The story a trace tells ----

  /**
   * When the latest LLM call was started, when the provider was asked for the
   * latest response and when that was reported, the number of its calls requested
   * so far, and what happened to the last of those.
   */
  datatype Story = Story(
    startedAt: nat, asked: Option<nat>, reportedAt: nat, requests: nat, requestedAt: nat,
    executed: Option<nat>, denied: bool, finishedAt: nat)

  function Noted(story: Story, event: Event): Story {
    match event
    case LlmStarted(_, _, at) => story.(startedAt := at)
    case LlmFinished(_, _, _, _, asked, at) => Story(story.startedAt, Some(asked), at, 0, 0, None, false, 0)
    case Requested(_, _, _, _, at) =>
      story.(requests := story.requests + 1, requestedAt := at, executed := None, denied := false, finishedAt := 0)
    case ApprovalResolved(_, approved, _, _) => story.(denied := !approved)
    case Executed(_, at) => story.(executed := Some(at))
    case Finished(_, _, at) => story.(finishedAt := at)
    case _ => story
  }

  function StoryOf(trace: seq<Event>): Story {
    if trace == [] then Story(0, None, 0, 0, 0, None, false, 0)
    else Noted(StoryOf(trace[..|trace| - 1]), trace[|trace| - 1])
  }

  /** The provider's answer at this moment was a stream that could be collected. */
  predicate Responds(w: World, at: nat) {
    w.provider(at).Streamed? && Collect(w.provider(at).deltas).Ok?
  }

  function Response(w: World, at: nat): Collected
    requires Responds(w, at)
  {
    Collect(w.provider(at).deltas).value
  }

  /** The call being handled is the last one requested of the latest response. */
  predicate Handles(w: World, story: Story, call: CompletedCall) {
    && story.asked.Some? && Responds(w, story.asked.value)
    && 0 < story.requests <= |Response(w, story.asked.value).calls|
    && Response(w, story.asked.value).calls[story.requests - 1] == call
  }

  /** These calls of the latest response are still to be requested. */
  predicate Due(w: World, story: Story, rest: seq<CompletedCall>) {
    && story.asked.Some? && Responds(w, story.asked.value)
    && story.requests <= |Response(w, story.asked.value).calls|
    && rest == Response(w, story.asked.value).calls[story.requests..]
  }

  // ---- What must be told as it was answered ----

  predicate ArgumentsOf(call: CompletedCall, text: string) {
    match call.arguments
    case Streamed(streamed) => text == streamed
    case Initial(value) => text == value
    case EmptyObject => text == "{}"
  }

  /** An immediate tool is broken off at this moment. */
  predicate BrokenOff(w: World, immediate: bool, at: nat) {
    immediate && w.cancelled(at) && w.notices(at)
  }

  /**
   * The result of a call: denied, cancelled before it ran, cancelled while it
   * ran, or else exactly what the tool answered when it was executed.
   */
  predicate ResultTold(w: World, story: Story, call: CompletedCall, part: Part) {
    var spec := w.spec(story.requestedAt, call.toolName);
    match story.executed
    case None =>
      if story.denied then part == ToolResult(call.callId, call.toolName, true, DeniedOutput(call.toolName))
      else w.cancelled(story.finishedAt) && part == ToolResult(call.callId, call.toolName, true, CANCELLED_OUTPUT)
    case Some(at) =>
      !story.denied
      && if spec.Known? && BrokenOff(w, spec.immediate, story.finishedAt)
         then part == ToolResult(call.callId, call.toolName, true, CANCELLED_OUTPUT)
         else match w.tool(at, call.callId)
           case ToolReturned(id, name, isError, output) => part == ToolResult(id, name, isError, output)
           case ToolFailed(error) => part == ToolResult(call.callId, call.toolName, true, ErrorOutput(error))
  }

  /** A message of the turn: the response's parts, the call just requested, or its result. */
  ghost predicate MessageTold(w: World, story: Story, message: Message) {
    match message.role
    case Assistant =>
      if story.requests == 0
      then
        && w.accepts(story.reportedAt) && story.asked.Some? && Responds(w, story.asked.value)
        && message.parts == Response(w, story.asked.value).parts
      else exists call, text ::
             Handles(w, story, call) && ArgumentsOf(call, text)
             && message.parts == [ToolCall(call.callId, call.toolName, text)]
    case Tool =>
      && w.notes(story.finishedAt)
      && exists call, part :: Handles(w, story, call) && ResultTold(w, story, call, part) && message.parts == [part]
    case _ => false
  }

  /**
   * The event says what was answered at its moment, no LLM call starts or
   * delivers while cancelled, and nothing follows what an observer refused.
   */
  ghost predicate Told(w: World, story: Story, event: Event) {
    match event
    case LlmStarted(_, _, at) => !w.cancelled(at)
    case LlmFinished(_, stopped, usage, calls, asked, at) =>
      && w.accepts(story.startedAt) && w.summary(at) == Some(usage) && (stopped <==> w.cancelled(at))
      && (!stopped ==> Responds(w, asked) && calls == Ids(Response(w, asked).calls))
    case Requested(id, needs, asks, answer, at) =>
      w.accepts(story.reportedAt) && exists call, rest ::
        && Due(w, story, [call] + rest) && call.callId == id && w.disposition(at) == answer
        && w.spec(at, call.toolName).Known? && w.spec(at, call.toolName).needsApproval == needs
        && w.spec(at, call.toolName).asksUser == asks
    case ApprovalFailed(_, at) => w.approval(at) == EvaluationFailed
    case ApprovalAsked(_, noted, at) => w.approval(at) == Undecided && noted == w.notes(at)
    case ApprovalResolved(_, approved, noted, at) =>
      w.approval(at) == (if approved then Approve else Deny) && noted == w.notes(at)
    case Emitted(message) => MessageTold(w, story, message)
    case _ => true
  }

  ghost predicate AllTold(w: World, trace: seq<Event>) {
    trace == []
    || (AllTold(w, trace[..|trace| - 1]) && Told(w, StoryOf(trace[..|trace| - 1]), trace[|trace| - 1]))
  }

  function Ids(calls: seq<CompletedCall>): seq<string> {
    if calls == [] then [] else [calls[0].callId] + Ids(calls[1..])
  }

  lemma ToldLog(w: World, trace: seq<Event>, event: Event)
    requires AllTold(w, trace) && Told(w, StoryOf(trace), event)
    ensures AllTold(w, trace + [event])
  {
    assert (trace + [event])[..|trace|] == trace;
  }

  lemma StoryLog(trace: seq<Event>, event: Event)
    ensures StoryOf(trace + [event]) == Noted(StoryOf(trace), event)
  {
    assert (trace + [event])[..|trace|] == trace;
  }

  // ---- The story, read off the trace ----

  /** No call was requested and no response came in after event `e`. */
  predicate StillCurrent(trace: seq<Event>, e: int) {
    0 <= e < |trace| && forall j :: e < j < |trace| ==> !trace[j].Requested? && !trace[j].LlmFinished?
  }

  predicate ExecutedAt(trace: seq<Event>, e: int, at: nat) {
    StillCurrent(trace, e) && trace[e].Executed? && trace[e].at == at
  }

  predicate DeniedAt(trace: seq<Event>, e: int) {
    StillCurrent(trace, e) && trace[e].ApprovalResolved? && !trace[e].approved
  }

  lemma {:induction false} StoryIsRead(trace: seq<Event>)
    ensures var story := StoryOf(trace);
      && (story.executed.Some? ==> exists e :: ExecutedAt(trace, e, story.executed.value))
      && (story.denied ==> exists e :: DeniedAt(trace, e))
  {
    if trace != [] {
      var init, last := trace[..|trace| - 1], trace[|trace| - 1];
      StoryIsRead(init);
      var before, after := StoryOf(init), StoryOf(trace);
      if after.executed.Some? {
        if last.Executed? {
          assert ExecutedAt(trace, |init|, after.executed.value);
        } else {
          var e :| ExecutedAt(init, e, before.executed.value);
          assert ExecutedAt(trace, e, after.executed.value);
        }
      }
      if after.denied {
        if last.ApprovalResolved? {
          assert DeniedAt(trace, |init|);
        } else {
          var e :| DeniedAt(init, e);
          assert DeniedAt(trace, e);
        }
      }
    }
  }

  /** What a tool answered under this call id, as the result that is reported. */
  predicate AnswerShown(answer: ToolAnswer, id: string, result: Part) {
    result.ToolResult?
    && match answer
       case ToolReturned(resultId, name, isError, output) =>
         result.resultId == resultId && result.isError == isError && result.output == output
       case ToolFailed(error) => result.resultId == id && result.isError && result.output == ErrorOutput(error)
  }

  lemma {:induction false} ToldAt(w: World, trace: seq<Event>, k: nat)
    requires AllTold(w, trace) && k < |trace|
    ensures Told(w, StoryOf(trace[..k]), trace[k])
    decreases |trace|
  {
    hide Told;
    if k < |trace| - 1 {
      ToldAt(w, trace[..|trace| - 1], k);
      assert trace[..|trace| - 1][..k] == trace[..k];
    }
  }

  predicate OwnError(call: CompletedCall, result: Part, output: string) {
    result.ToolResult? && result.resultId == call.callId && result.isError && result.output == output
  }

  /**
   * Every result message of a run shows what the tool answered when its call
   * was executed, or is an error under the call's own id: the call was denied, or
   * it was cancelled.
   */
  lemma ResultsAreAnswers(w: World, trace: seq<Event>, k: nat) returns (call: CompletedCall, result: Part)
    requires AllTold(w, trace) && k < |trace| && trace[k].Emitted? && trace[k].message.role == Role.Tool
    ensures Handles(w, StoryOf(trace[..k]), call) && trace[k].message.parts == [result] && result.ToolResult?
    ensures
      || (exists e, at: nat ::
            ExecutedAt(trace[..k], e, at) && AnswerShown(w.tool(at, call.callId), call.callId, result))
      || (OwnError(call, result, DeniedOutput(call.toolName)) && exists e :: DeniedAt(trace[..k], e))
      || (OwnError(call, result, CANCELLED_OUTPUT) && exists at: nat :: w.cancelled(at))
  {
    hide Handles, ErrorOutput, DeniedOutput;
    ToldAt(w, trace, k);
    var story := StoryOf(trace[..k]);
    StoryIsRead(trace[..k]);
    call, result :| Handles(w, story, call) && ResultTold(w, story, call, result) && trace[k].message.parts == [result];
    if story.executed.Some? {
      var at := story.executed.value;
      var e :| ExecutedAt(trace[..k], e, at);
      if !AnswerShown(w.tool(at, call.callId), call.callId, result) { assert w.cancelled(story.finishedAt); }
    } else if story.denied {
      var e :| DeniedAt(trace[..k], e);
    } else {
      assert w.cancelled(story.finishedAt);
    }
  }

  // ---- What a run can end with ----

  /** An answer at this moment that makes the run fail. */
  ghost predicate Fault(w: World, at: nat) {
    || !w.accepts(at) || w.provider(at).ProviderFailed? || !Responds(w, at) || w.summary(at).None?
    || (exists tool :: !w.spec(at, tool).Known?) || w.disposition(at) == RequestError
    || w.approval(at) == EvaluationFailed || !w.notes(at)
  }

  predicate Signal(w: World, at: nat) {
    w.cancelled(at) || w.disposition(at) == CancelledRequest
  }

  ghost predicate Faulted(w: World, clock: nat) {
    exists at: nat :: at <= clock && Fault(w, at)
  }

  ghost predicate Signalled(w: World, clock: nat) {
    exists at: nat :: at <= clock && Signal(w, at)
  }
}
