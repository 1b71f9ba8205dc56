/** A run in progress, and what every step keeps of it (bt-agent, lib.rs). */
module TurnState {
  import opened Wrappers
  import opened Messages
  import opened MessageUnits
  import opened ToolCallStream
  import opened TurnProtocol
  import opened TurnStory

  /** The local variables of a run; the trace records the boundaries crossed. */
  datatype Progress = Progress(
    clock: nat, trace: seq<Event>, messages: seq<Message>, emitted: seq<Message>, usage: Option<Usage>, ordinal: nat)

  datatype TurnEnd = Completed | PausedForApproval | PausedForInput | CancelledTurn | Failed | Unfinished

  datatype Outcome = Outcome(resultId: string, toolName: string, isError: bool, output: string, cancelled: bool)

  function Tick(p: Progress): Progress {
    p.(clock := p.clock + 1)
  }

  function Log(p: Progress, event: Event): Progress {
    p.(trace := p.trace + [event])
  }

  function Emit(p: Progress, message: Message): Progress {
    p.(trace := p.trace + [Emitted(message)], emitted := p.emitted + [message], clock := p.clock + 1)
  }

  function CallMessage(id: int, call: CompletedCall, arguments: string, now: int): Message {
    Message(id, Assistant, [ToolCall(call.callId, call.toolName, arguments)], now)
  }

  function ResultPart(outcome: Outcome): Part {
    ToolResult(outcome.resultId, outcome.toolName, outcome.isError, outcome.output)
  }

  function ResultMessage(id: int, outcome: Outcome, now: int): Message {
    Message(id, Role.Tool, [ResultPart(outcome)], now)
  }

  function ArgumentText(call: CompletedCall): string {
    match call.arguments case Streamed(text) => text case Initial(value) => value case EmptyObject => "{}"
  }

  // ---- What holds of a run at every point ----

  function EmittedBy(trace: seq<Event>): seq<Message> {
    if trace == [] then []
    else
      var before := EmittedBy(trace[..|trace| - 1]);
      match trace[|trace| - 1] case Emitted(message) => before + [message] case _ => before
  }

  /** Every LLM call is started on the initial messages followed by everything emitted before it. */
  predicate StartsSeeAll(initial: seq<Message>, trace: seq<Event>) {
    trace == []
    || (StartsSeeAll(initial, trace[..|trace| - 1])
        && (trace[|trace| - 1].LlmStarted? ==> trace[|trace| - 1].request == initial + EmittedBy(trace[..|trace| - 1])))
  }

  /** Tools answer under the call id they were given. */
  ghost predicate Echoes(w: World) {
    forall t, id :: w.tool(t, id).ToolReturned? ==> w.tool(t, id).resultId == id
  }

  /** Each of the first `n` messages that makes a call is immediately followed by the results of just that call. */
  predicate Answered(emitted: seq<Message>, n: int) {
    forall i :: 0 <= i < n && i < |emitted| && CallIds(emitted[i]) != {} ==>
      i + 1 < |emitted| && ResultIds(emitted[i + 1]) == CallIds(emitted[i])
  }

  ghost predicate MintedBefore(w: World, clock: nat, id: int) {
    exists t: nat :: t < clock && w.newId(t) == id
  }

  /** Message ids are minted once, and the initial messages have others. */
  ghost predicate FreshIds(w: World, initial: seq<Message>) {
    && DistinctIds(initial)
    && (forall s: nat, t: nat :: s != t ==> w.newId(s) != w.newId(t))
    && forall t: nat, m :: m in initial ==> m.id != w.newId(t)
  }

  /** The moments in the trace are those of the clock so far, and results are reported under their own call's id. */
  ghost predicate Timed(w: World, trace: seq<Event>, clock: nat) {
    && InOrder(trace)
    && (forall i :: 0 <= i < |trace| && Moment(trace[i]).Some? ==> Moment(trace[i]).value <= clock)
    && (Echoes(w) ==> FinishesEcho(trace))
  }

  /** The ids emitted are those minted so far, each once. */
  ghost predicate Minted(w: World, initial: seq<Message>, emitted: seq<Message>, clock: nat) {
    && (forall m :: m in emitted ==> MintedBefore(w, clock, m.id))
    && (FreshIds(w, initial) ==> DistinctIds(initial + emitted))
  }

  predicate Lawful(w: World, initial: seq<Message>, trace: seq<Event>, law: Law) {
    After(w.cancelled, trace) == Some(law) && StartsSeeAll(initial, trace)
  }

  /** The local variables agree with the trace. */
  predicate Booked(trace: seq<Event>, emitted: seq<Message>, usage: Option<Usage>, ordinal: nat, llmCalls: nat) {
    emitted == EmittedBy(trace) && usage == Total(Usages(trace)) && ordinal == llmCalls
  }

  ghost predicate Paired(w: World, initial: seq<Message>, emitted: seq<Message>) {
    Echoes(w) && WellPaired({}, initial) ==> WellPaired({}, initial + emitted)
  }

  /** `slack` is one while the newest emitted message is a call still to be answered. */
  ghost predicate Formed(w: World, emitted: seq<Message>, slack: nat) {
    && (forall m :: m in emitted ==> m.role == Assistant || m.role == Role.Tool)
    && slack <= |emitted| && (Echoes(w) ==> Answered(emitted, |emitted| - slack))
  }

  ghost predicate Sound(w: World, initial: seq<Message>, p: Progress, law: Law, slack: nat) {
    && Lawful(w, initial, p.trace, law) && AllTold(w, p.trace)
    && Timed(w, p.trace, p.clock) && Minted(w, initial, p.emitted, p.clock)
    && Booked(p.trace, p.emitted, p.usage, p.ordinal, law.llmCalls)
    && Paired(w, initial, p.emitted) && Formed(w, p.emitted, slack)
  }

  ghost predicate Idle(w: World, initial: seq<Message>, p: Progress, law: Law) {
    Sound(w, initial, p, law, 0) && law.phase == Ready && p.messages == initial + p.emitted
  }

  /** Sound, with the call recorded, open and the newest thing emitted. */
  ghost predicate Busy(w: World, initial: seq<Message>, p: Progress, law: Law, call: CompletedCall) {
    && Sound(w, initial, p, law, 1) && Open(initial, p.emitted, call.callId) && p.messages == initial + p.emitted
    && Handles(w, StoryOf(p.trace), call)
  }

  /** Inside an LLM call, whose ordinal is counted only once it is over. */
  ghost predicate InCallSound(w: World, initial: seq<Message>, p: Progress, law: Law) {
    && Lawful(w, initial, p.trace, law) && law == Law(InCall(p.ordinal + 1), [], p.ordinal + 1)
    && AllTold(w, p.trace)
    && Timed(w, p.trace, p.clock) && Minted(w, initial, p.emitted, p.clock)
    && Booked(p.trace, p.emitted, p.usage, p.ordinal, p.ordinal)
    && Paired(w, initial, p.emitted) && Formed(w, p.emitted, 0)
    && p.messages == initial + p.emitted
  }

  /** The newest emitted message is the call, and it is open. */
  predicate Open(initial: seq<Message>, emitted: seq<Message>, id: string) {
    emitted != [] && CallIds(emitted[|emitted| - 1]) == {id} && id in OpenAfter({}, initial + emitted)
  }

  /** The protocol states in which a run may end, by how it ends. */
  predicate EndsIn(end: TurnEnd, law: Law) {
    match end
    case Completed => law.phase == Ready && law.queue == [] && law.llmCalls > 0
    case PausedForApproval => law.phase.Waiting?
    case PausedForInput => law.phase.Asking?
    case CancelledTurn => law.phase == Ready || law.phase == Closed
    case Failed => law.phase == Ready || law.phase == Closed || law.phase.InCall?
    case Unfinished => law.phase == Ready && law.queue == []
  }

  predicate Paused(end: TurnEnd) {
    end.PausedForApproval? || end.PausedForInput?
  }

  /** How a step may stop the run. */
  ghost predicate Stopped(w: World, initial: seq<Message>, p: Progress, law: Law, end: TurnEnd) {
    && Lawful(w, initial, p.trace, law) && AllTold(w, p.trace) && Timed(w, p.trace, p.clock) && EndsIn(end, law)
    && (end != Failed ==> Sound(w, initial, p, law, if Paused(end) then 1 else 0))
  }

  // ---- The clock ----

  lemma Later(w: World, initial: seq<Message>, p: Progress, clock: nat)
    requires p.clock <= clock
    ensures Timed(w, p.trace, p.clock) ==> Timed(w, p.trace, clock)
    ensures Minted(w, initial, p.emitted, p.clock) ==> Minted(w, initial, p.emitted, clock)
  {
    hide InOrder, FinishesEcho, Echoes, FreshIds, Moment;
    if Minted(w, initial, p.emitted, p.clock) {
      forall m | m in p.emitted ensures MintedBefore(w, clock, m.id) {
        assert MintedBefore(w, p.clock, m.id);
        var t: nat :| t < p.clock && w.newId(t) == m.id;
        assert t < clock;
      }
    }
  }

  lemma TimedLog(w: World, trace: seq<Event>, clock: nat, event: Event)
    requires Timed(w, trace, clock) && (Moment(event).Some? ==> Moment(event).value == clock)
    requires Echoes(w) && event.Finished? ==> event.resultId == event.id
    ensures Timed(w, trace + [event], clock)
  {
    hide Moment, Echoes;
  }

  /** Emitting a message under the id minted now keeps the ids distinct. */
  lemma MintedEmit(w: World, initial: seq<Message>, p: Progress, m: Message)
    requires Minted(w, initial, p.emitted, p.clock) && m.id == w.newId(p.clock)
    ensures Minted(w, initial, p.emitted + [m], p.clock + 1)
  {
    hide FreshIds;
    Later(w, initial, p, p.clock + 1);
    assert MintedBefore(w, p.clock + 1, m.id);
    if FreshIds(w, initial) {
      MintedOnce(w, initial, p, m);
      assert initial + (p.emitted + [m]) == (initial + p.emitted) + [m];
    }
  }

  lemma MintedOnce(w: World, initial: seq<Message>, p: Progress, m: Message)
    requires FreshIds(w, initial) && Minted(w, initial, p.emitted, p.clock) && m.id == w.newId(p.clock)
    ensures DistinctIds((initial + p.emitted) + [m])
  {
    forall other | other in initial + p.emitted ensures other.id != m.id {
      if other in p.emitted {
        assert MintedBefore(w, p.clock, other.id);
      }
    }
  }

  // ---- Logging ----

  lemma Appended(w: World, initial: seq<Message>, trace: seq<Event>, law: Law, event: Event)
    requires Lawful(w, initial, trace, law) && Next(w.cancelled, law, event).Some?
    requires event.LlmStarted? ==> event.request == initial + EmittedBy(trace)
    ensures Lawful(w, initial, trace + [event], Next(w.cancelled, law, event).value)
  {
    hide Next;
    assert (trace + [event])[..|trace|] == trace;
  }

  lemma BookedLog(
    trace: seq<Event>, emitted: seq<Message>, usage: Option<Usage>, ordinal: nat, llmCalls: nat, event: Event, n: nat)
    requires Booked(trace, emitted, usage, ordinal, llmCalls)
    ensures var spoken := if event.Emitted? then emitted + [event.message] else emitted;
      var spent := if event.LlmFinished? && !event.cancelled then MergeUsage(usage, Some(event.usage)) else usage;
      Booked(trace + [event], spoken, spent, n, n)
  {
    hide MergeUsage;
    assert (trace + [event])[..|trace|] == trace;
    assert EmittedBy(trace + [event]) == if event.Emitted? then emitted + [event.message] else emitted;
    if event.LlmFinished? && !event.cancelled {
      assert Usages(trace + [event]) == Usages(trace) + [event.usage];
      TotalSnoc(Usages(trace), event.usage);
    } else {
      assert Usages(trace + [event]) == Usages(trace);
    }
  }

  lemma TotalSnoc(usages: seq<Usage>, usage: Usage)
    ensures Total(usages + [usage]) == MergeUsage(Total(usages), Some(usage))
  {
    assert (usages + [usage])[..|usages|] == usages;
  }

  lemma KeepsCount(cancelled: nat -> bool, law: Law, event: Event)
    requires Next(cancelled, law, event).Some? && !event.LlmFinished? && !event.LlmStarted?
    ensures Next(cancelled, law, event).value.llmCalls == law.llmCalls
  {
  }

  lemma BookedCount(trace: seq<Event>, emitted: seq<Message>, usage: Option<Usage>, ordinal: nat, llmCalls: nat)
    requires Booked(trace, emitted, usage, ordinal, llmCalls)
    ensures ordinal == llmCalls && emitted == EmittedBy(trace)
  {
  }

  /** Logging a boundary that emits nothing and reports no usage keeps a run sound. */
  lemma Logged(w: World, initial: seq<Message>, p: Progress, law: Law, event: Event, slack: nat)
    requires Sound(w, initial, p, law, slack) && Next(w.cancelled, law, event).Some?
    requires !event.Emitted? && !event.LlmFinished? && !event.LlmStarted?
    requires Moment(event).Some? ==> Moment(event).value == p.clock
    requires Echoes(w) && event.Finished? ==> event.resultId == event.id
    requires Told(w, StoryOf(p.trace), event)
    ensures Sound(w, initial, Log(p, event), Next(w.cancelled, law, event).value, slack)
  {
    hide Lawful, Timed, Minted, Booked, Paired, Formed, Next, Moment, Echoes, AllTold, Told, StoryOf;
    ToldLog(w, p.trace, event);
    TimedLog(w, p.trace, p.clock, event);
    Appended(w, initial, p.trace, law, event);
    BookedLog(p.trace, p.emitted, p.usage, p.ordinal, law.llmCalls, event, law.llmCalls);
    BookedCount(p.trace, p.emitted, p.usage, p.ordinal, law.llmCalls);
    KeepsCount(w.cancelled, law, event);
  }

  lemma LoggedBusy(w: World, initial: seq<Message>, p: Progress, law: Law, event: Event, call: CompletedCall)
    requires Busy(w, initial, p, law, call) && Next(w.cancelled, law, event).Some?
    requires !event.Emitted? && !event.LlmFinished? && !event.LlmStarted?
    requires Moment(event).Some? ==> Moment(event).value == p.clock
    requires Echoes(w) && event.Finished? ==> event.resultId == event.id
    requires !event.Requested? && Told(w, StoryOf(p.trace), event)
    ensures Busy(w, initial, Log(p, event), Next(w.cancelled, law, event).value, call)
    ensures StoryOf(Log(p, event).trace) == Noted(StoryOf(p.trace), event)
  {
    hide Sound, Next, Open, Moment, Echoes, Told, StoryOf, Handles, Noted;
    Logged(w, initial, p, law, event, 1);
    StoryLog(p.trace, event);
    HandlesStill(w, StoryOf(p.trace), event, call);
  }

  lemma HandlesStill(w: World, story: Story, event: Event, call: CompletedCall)
    requires Handles(w, story, call) && !event.Requested? && !event.LlmFinished?
    ensures Handles(w, Noted(story, event), call)
  {
    hide Responds;
  }

  lemma SoundLater(w: World, initial: seq<Message>, p: Progress, q: Progress, law: Law, slack: nat)
    requires Sound(w, initial, p, law, slack) && q == p.(clock := q.clock, messages := q.messages) && p.clock <= q.clock
    ensures Sound(w, initial, q, law, slack)
  {
    hide Lawful, Timed, Minted, Booked, Paired, Formed, AllTold;
    Later(w, initial, p, q.clock);
  }

  lemma BusyTicks(w: World, initial: seq<Message>, p: Progress, law: Law, call: CompletedCall)
    requires Busy(w, initial, p, law, call)
    ensures Busy(w, initial, Tick(p), law, call)
  {
    hide Sound, Open;
    SoundLater(w, initial, p, Tick(p), law, 1);
  }

  lemma IdleTicks(w: World, initial: seq<Message>, p: Progress, law: Law)
    requires Idle(w, initial, p, law)
    ensures Idle(w, initial, Tick(p), law)
  {
    hide Sound;
    SoundLater(w, initial, p, Tick(p), law, 0);
  }

  // ---- Emitting ----

  lemma PairedSnoc(messages: seq<Message>, m: Message)
    ensures WellPaired({}, messages + [m]) <==> WellPaired({}, messages) && Answers(OpenAfter({}, messages), m)
    ensures OpenAfter({}, messages + [m]) == MessageUnits.Step(OpenAfter({}, messages), m)
  {
    WellPairedConcat({}, messages, [m]);
    OpenAfterConcat({}, messages, [m]);
    assert [m][1..] == [];
  }

  lemma PairedEmit(w: World, initial: seq<Message>, emitted: seq<Message>, m: Message)
    requires Paired(w, initial, emitted)
    requires Echoes(w) && WellPaired({}, initial) ==> Answers(OpenAfter({}, initial + emitted), m)
    ensures Paired(w, initial, emitted + [m])
  {
    hide WellPaired, Answers, OpenAfter, Echoes;
    PairedSnoc(initial + emitted, m);
    assert initial + (emitted + [m]) == (initial + emitted) + [m];
  }

  /** Emitting a message that answers only open calls keeps a run sound. */
  lemma EmitIsSound(w: World, initial: seq<Message>, p: Progress, law: Law, m: Message, before: nat, slack: nat)
    requires Sound(w, initial, p, law, before) && m.id == w.newId(p.clock)
    requires Echoes(w) && WellPaired({}, initial) ==> Answers(OpenAfter({}, initial + p.emitted), m)
    requires Formed(w, p.emitted + [m], slack) && MessageTold(w, StoryOf(p.trace), m)
    ensures Sound(w, initial, Emit(p, m), law, slack) && StoryOf(Emit(p, m).trace) == StoryOf(p.trace)
  {
    hide *;
    SoundParts(w, initial, p, law, before);
    EmitAllowed(w, law, StoryOf(p.trace), m);
    ToldLog(w, p.trace, Emitted(m));
    StoryLog(p.trace, Emitted(m));
    TimedLog(w, p.trace, p.clock, Emitted(m));
    Later(w, initial, Progress(p.clock, p.trace + [Emitted(m)], [], p.emitted, None, 0), p.clock + 1);
    MintedEmit(w, initial, p, m);
    Appended(w, initial, p.trace, law, Emitted(m));
    BookedLog(p.trace, p.emitted, p.usage, p.ordinal, law.llmCalls, Emitted(m), law.llmCalls);
    BookedCount(p.trace, p.emitted, p.usage, p.ordinal, law.llmCalls);
    PairedEmit(w, initial, p.emitted, m);
    EmitParts(p, m);
    SoundFromParts(w, initial, Emit(p, m), law, slack);
  }

  lemma EmitAllowed(w: World, law: Law, story: Story, m: Message)
    ensures Next(w.cancelled, law, Emitted(m)) == Some(law) && Moment(Emitted(m)) == None
    ensures Noted(story, Emitted(m)) == story && (MessageTold(w, story, m) ==> Told(w, story, Emitted(m)))
  {
    hide MessageTold;
  }

  lemma EmitParts(p: Progress, m: Message)
    ensures Emit(p, m)
         == Progress(p.clock + 1, p.trace + [Emitted(m)], p.messages, p.emitted + [m], p.usage, p.ordinal)
  {
  }

  lemma FormedCall(w: World, emitted: seq<Message>, m: Message)
    requires Formed(w, emitted, 0) && m.role == Assistant
    ensures Formed(w, emitted + [m], 1)
  {
    hide Echoes, CallIds, ResultIds;
  }

  lemma FormedTalk(w: World, emitted: seq<Message>, m: Message)
    requires Formed(w, emitted, 0) && m.role == Assistant && CallIds(m) == {}
    ensures Formed(w, emitted + [m], 0)
  {
    hide Echoes, CallIds, ResultIds;
  }

  lemma FormedResult(w: World, emitted: seq<Message>, m: Message)
    requires Formed(w, emitted, 1) && m.role == Role.Tool && CallIds(m) == {}
    requires Echoes(w) ==> ResultIds(m) == CallIds(emitted[|emitted| - 1])
    ensures Formed(w, emitted + [m], 0)
  {
    hide Echoes, CallIds, ResultIds;
  }

  lemma CallFacts(id: int, call: CompletedCall, arguments: string, now: int)
    ensures var m := CallMessage(id, call, arguments, now);
      CallIds(m) == {call.callId} && ResultIds(m) == {} && forall open :: Answers(open, m)
  {
    var m := CallMessage(id, call, arguments, now);
    assert m.parts[0] in m.parts;
    assert ResultIds(m) == {};
  }

  lemma ResultFacts(id: int, outcome: Outcome, now: int)
    ensures var m := ResultMessage(id, outcome, now);
      CallIds(m) == {} && ResultIds(m) == {outcome.resultId}
      && forall open: set<string> :: outcome.resultId in open ==> Answers(open, m)
  {
    var m := ResultMessage(id, outcome, now);
    assert m.parts[0] in m.parts;
    assert CallIds(m) == {};
    assert ResultIds(m) == {outcome.resultId};
  }

  /** Recording a call: its message opens it. */
  lemma EmitCall(w: World, initial: seq<Message>, p: Progress, law: Law, call: CompletedCall, m: Message)
    requires Sound(w, initial, p, law, 0) && p.messages == initial + p.emitted
    requires m.parts != [] && m.parts[0].ToolCall? && m == CallMessage(m.id, call, m.parts[0].arguments, m.createdAt)
    requires m.id == w.newId(p.clock) && Handles(w, StoryOf(p.trace), call) && ArgumentsOf(call, m.parts[0].arguments)
    ensures Busy(w, initial, Tick(Emit(p, m).(messages := p.messages + [m])), law, call)
    ensures StoryOf(Emit(p, m).trace) == StoryOf(p.trace)
  {
    CallFacts(m.id, call, m.parts[0].arguments, m.createdAt);
    CallTold(w, StoryOf(p.trace), call, m);
    FormedCall(w, p.emitted, m);
    PairedSnoc(initial + p.emitted, m);
    hide Lawful, Timed, Minted, Booked, Paired, Formed, Echoes, WellPaired, OpenAfter, AllTold, MessageTold, Handles,
         StoryOf;
    EmitIsSound(w, initial, p, law, m, 0, 1);
    assert initial + (p.emitted + [m]) == (initial + p.emitted) + [m];
    SoundLater(w, initial, Emit(p, m), Tick(Emit(p, m).(messages := p.messages + [m])), law, 1);
  }

  lemma CallTold(w: World, story: Story, call: CompletedCall, m: Message)
    requires m.parts != [] && m.parts[0].ToolCall? && m == CallMessage(m.id, call, m.parts[0].arguments, m.createdAt)
    requires Handles(w, story, call) && ArgumentsOf(call, m.parts[0].arguments)
    ensures MessageTold(w, story, m)
  {
    hide ArgumentsOf, Responds;
  }

  lemma ResultMessageTold(w: World, story: Story, call: CompletedCall, outcome: Outcome, m: Message)
    requires m == ResultMessage(m.id, outcome, m.createdAt)
    requires Handles(w, story, call) && ResultTold(w, story, call, ResultPart(outcome)) && w.notes(story.finishedAt)
    ensures MessageTold(w, story, m)
  {
    hide Handles, ResultTold, ResultPart;
  }

  /** A result enters the transcript; the turn may go on when the call did not end it. */
  lemma ResultEntered(
    w: World, initial: seq<Message>, p: Progress, law: Law, call: CompletedCall, outcome: Outcome, m: Message)
    requires Busy(w, initial, p, law, call)
    requires m == ResultMessage(m.id, outcome, m.createdAt) && m.id == w.newId(p.clock)
    requires ResultTold(w, StoryOf(p.trace), call, ResultPart(outcome)) && w.notes(StoryOf(p.trace).finishedAt)
    requires Echoes(w) ==> outcome.resultId == call.callId
    requires law.phase == Ready || law.phase == Closed
    ensures var q := Tick(Emit(p, m).(messages := p.messages + [m]));
      && Stopped(w, initial, q, law, CancelledTurn) && (law.phase == Ready ==> Idle(w, initial, q, law))
      && StoryOf(q.trace) == StoryOf(p.trace)
  {
    ResultFacts(m.id, outcome, m.createdAt);
    hide Lawful, Timed, Minted, Booked, Paired, Formed, Echoes, WellPaired, OpenAfter, CallIds, ResultIds, Answers,
         AllTold, MessageTold, Handles, ResultTold, StoryOf, ResultPart;
    ResultMessageTold(w, StoryOf(p.trace), call, outcome, m);
    FormedResult(w, p.emitted, m);
    EmitIsSound(w, initial, p, law, m, 1, 0);
    var q := Tick(Emit(p, m).(messages := p.messages + [m]));
    SoundLater(w, initial, Emit(p, m), q, law, 0);
    assert initial + (p.emitted + [m]) == (initial + p.emitted) + [m];
  }

  /** Assistant parts carry no tool parts, so emitting them changes no pairing. */
  lemma EmitTalk(w: World, initial: seq<Message>, p: Progress, law: Law, m: Message)
    requires Idle(w, initial, p, law) && m.role == Assistant && m.id == w.newId(p.clock)
    requires forall part :: part in m.parts ==> !part.ToolCall? && !part.ToolResult?
    requires MessageTold(w, StoryOf(p.trace), m)
    ensures Idle(w, initial, Emit(p, m).(messages := p.messages + [m]), law)
    ensures StoryOf(Emit(p, m).trace) == StoryOf(p.trace)
  {
    assert CallIds(m) == {} && ResultIds(m) == {};
    hide Lawful, Timed, Minted, Booked, Paired, Formed, Echoes, WellPaired, OpenAfter, CallIds, ResultIds, AllTold,
         MessageTold, StoryOf;
    FormedTalk(w, p.emitted, m);
    EmitIsSound(w, initial, p, law, m, 0, 0);
    SoundLater(w, initial, Emit(p, m), Emit(p, m).(messages := p.messages + [m]), law, 0);
    assert initial + (p.emitted + [m]) == (initial + p.emitted) + [m];
  }

  // ---- LLM calls ----

  lemma StartAllowed(cancelled: nat -> bool, law: Law, request: seq<Message>, at: nat)
    requires law.phase == Ready && law.queue == []
    ensures Next(cancelled, law, LlmStarted(law.llmCalls + 1, request, at))
         == Some(Law(InCall(law.llmCalls + 1), [], law.llmCalls + 1))
  {
  }

  lemma StartLogged(w: World, initial: seq<Message>, p: Progress, law: Law)
    requires Lawful(w, initial, p.trace, law) && law.phase == Ready && law.queue == []
    requires Timed(w, p.trace, p.clock) && Minted(w, initial, p.emitted, p.clock)
    requires Booked(p.trace, p.emitted, p.usage, p.ordinal, law.llmCalls) && AllTold(w, p.trace)
    requires !w.cancelled(p.clock)
    ensures var trace := p.trace + [LlmStarted(p.ordinal + 1, initial + p.emitted, p.clock)];
      && AllTold(w, trace) && Lawful(w, initial, trace, Law(InCall(p.ordinal + 1), [], p.ordinal + 1))
      && Timed(w, trace, p.clock + 1) && Minted(w, initial, p.emitted, p.clock + 1)
      && Booked(trace, p.emitted, p.usage, p.ordinal, p.ordinal)
  {
    hide *;
    var event := LlmStarted(p.ordinal + 1, initial + p.emitted, p.clock);
    BookedCount(p.trace, p.emitted, p.usage, p.ordinal, law.llmCalls);
    StartAllowed(w.cancelled, law, initial + p.emitted, p.clock);
    assert Moment(event) == Some(p.clock) && Told(w, StoryOf(p.trace), event) by {
      StartTold(w, StoryOf(p.trace), event);
    }
    ToldLog(w, p.trace, event);
    TimedLog(w, p.trace, p.clock, event);
    Later(w, initial, Progress(p.clock, p.trace + [event], [], p.emitted, None, 0), p.clock + 1);
    Appended(w, initial, p.trace, law, event);
    BookedLog(p.trace, p.emitted, p.usage, p.ordinal, law.llmCalls, event, p.ordinal);
  }

  lemma StartTold(w: World, story: Story, event: Event)
    requires event.LlmStarted? && !w.cancelled(event.at)
    ensures Moment(event) == Some(event.at) && Told(w, story, event)
  {
  }

  lemma StartsCall(w: World, initial: seq<Message>, p: Progress, law: Law)
    requires Idle(w, initial, p, law) && law.queue == [] && !w.cancelled(p.clock)
    ensures var q := Tick(Log(p, LlmStarted(p.ordinal + 1, p.messages, p.clock)));
      && InCallSound(w, initial, q, Law(InCall(p.ordinal + 1), [], p.ordinal + 1))
      && StoryOf(q.trace).startedAt == p.clock
  {
    hide *;
    IdleParts(w, initial, p, law);
    SoundParts(w, initial, p, law, 0);
    StartLogged(w, initial, p, law);
    StartStory(p);
    StartedParts(p);
    var started := Law(InCall(p.ordinal + 1), [], p.ordinal + 1);
    InCallFromParts(w, initial, Tick(Log(p, LlmStarted(p.ordinal + 1, p.messages, p.clock))), started);
  }

  lemma IdleParts(w: World, initial: seq<Message>, p: Progress, law: Law)
    requires Idle(w, initial, p, law)
    ensures Sound(w, initial, p, law, 0) && law.phase == Ready && p.messages == initial + p.emitted
  {
    hide Sound;
  }

  lemma StartStory(p: Progress)
    ensures StoryOf(p.trace + [LlmStarted(p.ordinal + 1, p.messages, p.clock)]).startedAt == p.clock
  {
    hide StoryOf;
    StoryLog(p.trace, LlmStarted(p.ordinal + 1, p.messages, p.clock));
  }

  lemma StartedParts(p: Progress)
    ensures Tick(Log(p, LlmStarted(p.ordinal + 1, p.messages, p.clock)))
         == Progress(p.clock + 1, p.trace + [LlmStarted(p.ordinal + 1, p.messages, p.clock)],
                     p.messages, p.emitted, p.usage, p.ordinal)
  {
  }

  lemma InCallFromParts(w: World, initial: seq<Message>, p: Progress, law: Law)
    requires Lawful(w, initial, p.trace, law) && law == Law(InCall(p.ordinal + 1), [], p.ordinal + 1)
    requires AllTold(w, p.trace) && Timed(w, p.trace, p.clock) && Minted(w, initial, p.emitted, p.clock)
    requires Booked(p.trace, p.emitted, p.usage, p.ordinal, p.ordinal)
    requires Paired(w, initial, p.emitted) && Formed(w, p.emitted, 0) && p.messages == initial + p.emitted
    ensures InCallSound(w, initial, p, law)
  {
    hide Lawful, AllTold, Timed, Minted, Booked, Paired, Formed;
  }

  lemma InCallTicks(w: World, initial: seq<Message>, p: Progress, law: Law)
    requires InCallSound(w, initial, p, law)
    ensures InCallSound(w, initial, Tick(p), law) && Stopped(w, initial, p, law, Failed)
  {
    hide AllTold, Lawful, Timed, Minted, Booked, Paired, Formed;
    Later(w, initial, p, p.clock + 1);
  }

  /** The run once an LLM call is reported as over. */
  function Reported(p: Progress, cancelled: bool, usage: Usage, calls: seq<string>, asked: nat): Progress {
    Tick(Log(p, LlmFinished(p.ordinal + 1, cancelled, usage, calls, asked, p.clock))).(ordinal := p.ordinal + 1)
  }

  lemma CallReported(
    w: World, initial: seq<Message>, p: Progress, law: Law, cancelled: bool, usage: Usage, calls: seq<string>,
    asked: nat)
    requires InCallSound(w, initial, p, law)
    requires Told(w, StoryOf(p.trace), LlmFinished(p.ordinal + 1, cancelled, usage, calls, asked, p.clock))
    ensures var after := if cancelled then Law(Closed, [], p.ordinal + 1) else Law(Ready, calls, p.ordinal + 1);
      var spent := if cancelled then p.usage else MergeUsage(p.usage, Some(usage));
      Sound(w, initial, Reported(p, cancelled, usage, calls, asked).(usage := spent), after, 0)
  {
    hide *;
    var event := LlmFinished(p.ordinal + 1, cancelled, usage, calls, asked, p.clock);
    var after := if cancelled then Law(Closed, [], p.ordinal + 1) else Law(Ready, calls, p.ordinal + 1);
    var spent := if cancelled then p.usage else MergeUsage(p.usage, Some(usage));
    InCallParts(w, initial, p, law);
    ReportAllowed(w, law, event);
    ToldLog(w, p.trace, event);
    TimedLog(w, p.trace, p.clock, event);
    Later(w, initial, Progress(p.clock, p.trace + [event], [], p.emitted, None, 0), p.clock + 1);
    Appended(w, initial, p.trace, law, event);
    BookedLog(p.trace, p.emitted, p.usage, p.ordinal, p.ordinal, event, p.ordinal + 1);
    ReportedParts(p, cancelled, usage, calls, asked, spent);
    SoundFromParts(w, initial, Reported(p, cancelled, usage, calls, asked).(usage := spent), after, 0);
  }

  lemma InCallParts(w: World, initial: seq<Message>, p: Progress, law: Law)
    requires InCallSound(w, initial, p, law)
    ensures Lawful(w, initial, p.trace, law) && law == Law(InCall(p.ordinal + 1), [], p.ordinal + 1)
    ensures AllTold(w, p.trace) && Timed(w, p.trace, p.clock) && Minted(w, initial, p.emitted, p.clock)
    ensures Booked(p.trace, p.emitted, p.usage, p.ordinal, p.ordinal)
    ensures Paired(w, initial, p.emitted) && Formed(w, p.emitted, 0)
  {
    hide Lawful, AllTold, Timed, Minted, Booked, Paired, Formed;
  }

  lemma ReportAllowed(w: World, law: Law, event: Event)
    requires event.LlmFinished? && law.phase == InCall(event.ordinal)
    ensures Moment(event) == Some(event.at)
    ensures Next(w.cancelled, law, event) == Some(
      if event.cancelled then Law(Closed, [], event.ordinal) else Law(Ready, event.calls, event.ordinal))
  {
  }

  lemma ReportedParts(
    p: Progress, cancelled: bool, usage: Usage, calls: seq<string>, asked: nat, spent: Option<Usage>)
    ensures Reported(p, cancelled, usage, calls, asked).(usage := spent)
         == Progress(p.clock + 1, p.trace + [LlmFinished(p.ordinal + 1, cancelled, usage, calls, asked, p.clock)],
                     p.messages, p.emitted, spent, p.ordinal + 1)
  {
  }

  lemma SoundFromParts(w: World, initial: seq<Message>, p: Progress, law: Law, slack: nat)
    requires Lawful(w, initial, p.trace, law) && AllTold(w, p.trace)
    requires Timed(w, p.trace, p.clock) && Minted(w, initial, p.emitted, p.clock)
    requires Booked(p.trace, p.emitted, p.usage, p.ordinal, law.llmCalls)
    requires Paired(w, initial, p.emitted) && Formed(w, p.emitted, slack)
    ensures Sound(w, initial, p, law, slack)
  {
    hide Lawful, AllTold, Timed, Minted, Booked, Paired, Formed;
  }

  lemma SoundParts(w: World, initial: seq<Message>, p: Progress, law: Law, slack: nat)
    requires Sound(w, initial, p, law, slack)
    ensures Lawful(w, initial, p.trace, law) && AllTold(w, p.trace)
    ensures Timed(w, p.trace, p.clock) && Minted(w, initial, p.emitted, p.clock)
    ensures Booked(p.trace, p.emitted, p.usage, p.ordinal, law.llmCalls)
    ensures Paired(w, initial, p.emitted) && Formed(w, p.emitted, slack)
  {
    hide Lawful, AllTold, Timed, Minted, Booked, Paired, Formed;
  }

  lemma CancelledReport(w: World, initial: seq<Message>, p: Progress, law: Law, usage: Usage, asked: nat)
    requires InCallSound(w, initial, p, law) && w.cancelled(p.clock) && w.summary(p.clock) == Some(usage)
    requires w.accepts(StoryOf(p.trace).startedAt)
    ensures var q, after := Reported(p, true, usage, [], asked), Law(Closed, [], p.ordinal + 1);
      Stopped(w, initial, q, after, Failed) && Stopped(w, initial, q, after, CancelledTurn)
  {
    hide Sound, InCallSound, StoryOf;
    CallReported(w, initial, p, law, true, usage, [], asked);
    ClosedStops(w, initial, Reported(p, true, usage, [], asked), Law(Closed, [], p.ordinal + 1));
  }

  lemma FinishedReport(w: World, initial: seq<Message>, p: Progress, law: Law, usage: Usage, asked: nat)
    requires InCallSound(w, initial, p, law) && Responds(w, asked) && w.summary(p.clock) == Some(usage)
    requires w.accepts(StoryOf(p.trace).startedAt) && !w.cancelled(p.clock)
    ensures var response := Response(w, asked);
      var q, after := Reported(p, false, usage, Ids(response.calls), asked),
                      Law(Ready, Ids(response.calls), p.ordinal + 1);
      && Stopped(w, initial, q, after, Failed)
      && Idle(w, initial, q.(usage := MergeUsage(p.usage, Some(usage))), after)
      && StoryOf(q.trace) == Story(StoryOf(p.trace).startedAt, Some(asked), p.clock, 0, 0, None, false, 0)
      && Due(w, StoryOf(q.trace), response.calls)
  {
    var response := Response(w, asked);
    var event := LlmFinished(p.ordinal + 1, false, usage, Ids(response.calls), asked, p.clock);
    hide StoryOf, Collect, InCallSound, Sound, MergeUsage;
    StoryLog(p.trace, event);
    assert response.calls[0..] == response.calls;
    CallReported(w, initial, p, law, false, usage, Ids(response.calls), asked);
    FinishedStops(w, initial, p, usage, response.calls, asked);
  }

  lemma FinishedStops(
    w: World, initial: seq<Message>, p: Progress, usage: Usage, calls: seq<CompletedCall>, asked: nat)
    requires var q := Reported(p, false, usage, Ids(calls), asked);
      && Sound(w, initial, q.(usage := MergeUsage(p.usage, Some(usage))), Law(Ready, Ids(calls), p.ordinal + 1), 0)
      && p.messages == initial + p.emitted
    ensures var q, after := Reported(p, false, usage, Ids(calls), asked), Law(Ready, Ids(calls), p.ordinal + 1);
      && Stopped(w, initial, q, after, Failed)
      && Idle(w, initial, q.(usage := MergeUsage(p.usage, Some(usage))), after)
  {
    hide Lawful, Timed, Minted, Booked, Paired, Formed, MergeUsage, AllTold, Ids;
  }

  // ---- Stopping ----

  lemma IdleStops(w: World, initial: seq<Message>, p: Progress, law: Law)
    requires Idle(w, initial, p, law)
    ensures Stopped(w, initial, p, law, Failed) && Stopped(w, initial, p, law, CancelledTurn)
    ensures law.queue == [] ==> Stopped(w, initial, p, law, Unfinished)
    ensures law.queue == [] && law.llmCalls > 0 ==> Stopped(w, initial, p, law, Completed)
  {
    hide Lawful, Timed, Minted, Booked, Paired, Formed, AllTold;
  }

  lemma ClosedStops(w: World, initial: seq<Message>, p: Progress, law: Law)
    requires Sound(w, initial, p, law, 0) && law.phase == Closed
    ensures Stopped(w, initial, p, law, Failed) && Stopped(w, initial, p, law, CancelledTurn)
  {
    hide Lawful, Timed, Minted, Booked, Paired, Formed, AllTold;
  }

  lemma Pausing(w: World, initial: seq<Message>, p: Progress, call: CompletedCall, law: Law, end: TurnEnd)
    requires Busy(w, initial, p, law, call) && Paused(end) && EndsIn(end, law)
    ensures Stopped(w, initial, p, law, end)
  {
    hide Lawful, Timed, Minted, Booked, Paired, Formed, AllTold;
  }

  lemma FailsFrom(w: World, initial: seq<Message>, p: Progress, law: Law, call: CompletedCall)
    requires Busy(w, initial, p, law, call) && (law.phase == Ready || law.phase == Closed)
    ensures Stopped(w, initial, p, law, Failed)
  {
    hide Lawful, Timed, Minted, Booked, Paired, Formed, AllTold;
  }

  lemma StopsNow(w: World, initial: seq<Message>, q: Progress, law: Law, end: Option<TurnEnd>)
    requires end == None ==> Idle(w, initial, q, law)
    requires end.Some? ==> (end.value == Failed || end.value == CancelledTurn) && Stopped(w, initial, q, law, end.value)
    ensures end != Some(Failed) ==> Stopped(w, initial, q, law, CancelledTurn)
  {
    hide Lawful, Timed, Minted, Booked, Paired, Formed, AllTold;
  }

  lemma FinishedPhase(w: World, law: Law, id: string, resultId: string, at: nat)
    requires Next(w.cancelled, law, Finished(id, resultId, at)).Some?
    ensures var next := Next(w.cancelled, law, Finished(id, resultId, at)).value;
      && next.queue == law.queue && next.llmCalls == law.llmCalls && (next.phase == Ready || next.phase == Closed)
      && (law.phase == Ran(id) || law.phase == Denied(id) ==> next.phase == Ready)
  {
  }

  lemma CancelledFinish(cancelled: nat -> bool, law: Law, id: string, resultId: string, at: nat)
    requires law.phase == Asking(id) || law.phase == Pending(id) || law.phase == Cleared(id)
    requires cancelled(at)
    ensures Next(cancelled, law, Finished(id, resultId, at)).Some?
  {
  }

  lemma Begins(w: World, initial: seq<Message>)
    ensures Idle(w, initial, Progress(0, [], initial, [], None, 0), Law(Ready, [], 0))
  {
    assert initial + [] == initial;
  }
}
