/** Deriving turn, LLM and tool spans from a session's event list (bt-otel, `derive_otlp_turns`). */
module OtlpSpans {
  import opened Wrappers
  import opened Messages

  type TurnId = nat
  type Time = int

  datatype ToolBoundary = CallRequested | ApprovalRequested | ApprovalResolved | ExecutionFinished

  datatype Payload =
    | MessageAppended(message: Message)
    | TurnStarted
    | TurnFinished
    | CompletionRequested(ordinal: nat, messageCount: nat)
    | CompletionChunk(chunkOrdinal: Option<nat>)
    | CompletionFinished(finishedOrdinal: nat, reason: string)
    | SessionError(code: string)
    | ToolEvent(boundary: ToolBoundary, callId: string, toolName: string)
    | Other

  datatype Event = Event(turn: Option<TurnId>, at: Time, payload: Payload)

  datatype LlmSpan = LlmSpan(
    ordinal: nat, start: Time, end: Time, finish: Option<string>, chunks: nat,
    input: seq<Message>, output: seq<Message>, events: seq<Event>)

  datatype ToolSpan = ToolSpan(callId: string, toolName: string, start: Time, end: Time, events: seq<Event>)

  /** A turn being built, with its maps from active ordinals and call ids into the span vectors. */
  datatype Turn = Turn(
    start: Option<Time>, end: Option<Time>, input: seq<Message>, output: seq<Message>, events: seq<Event>,
    llm: seq<LlmSpan>, tools: seq<ToolSpan>, activeLlm: map<nat, nat>, activeTool: map<string, nat>)

  const NEW_TURN := Turn(None, None, [], [], [], [], [], map[], map[])

  datatype State = State(turns: map<TurnId, Turn>, toolNames: map<string, string>, history: seq<Message>)

  function TrailingMessages(history: seq<Message>, count: nat): seq<Message> {
    if count < |history| then history[|history| - count..] else history
  }

  lemma {:induction false} HasMax(keys: set<nat>)
    requires keys != {}
    ensures exists k :: k in keys && forall j :: j in keys ==> j <= k
  {
    var k :| k in keys;
    var rest := keys - {k};
    assert forall j :: j in keys && j != k ==> j in rest;
    if rest == {} {
      assert forall j :: j in keys ==> j <= k;
    } else {
      HasMax(rest);
      var m :| m in rest && forall j :: j in rest ==> j <= m;
      var top := if m < k then k else m;
      assert top in keys && forall j :: j in keys ==> j <= top;
    }
  }

  function MaxKey(keys: set<nat>): (max: nat)
    requires keys != {}
    ensures max in keys
  {
    HasMax(keys);
    var k :| k in keys && forall j :: j in keys ==> j <= k;
    k
  }

  /** The index of the active span with the greatest ordinal. */
  function LatestActive(active: map<nat, nat>): Option<nat> {
    if active.Keys == {} then None else Some(active[MaxKey(active.Keys)])
  }

  function ResolveActive(active: map<nat, nat>, ordinal: Option<nat>): Option<nat> {
    if ordinal.Some? && ordinal.value in active then Some(active[ordinal.value]) else LatestActive(active)
  }

  function Route(turn: Turn, message: Message): Turn {
    match LatestActive(turn.activeLlm)
    case Some(i) =>
      if i < |turn.llm|
      then turn.(llm := turn.llm[i := turn.llm[i].(output := turn.llm[i].output + [message])])
      else turn
    case None =>
      match message.role
      case User => turn.(input := turn.input + [message])
      case Assistant => turn.(output := turn.output + [message])
      case _ => turn
  }

  function Noted(turn: Turn, e: Event): Turn {
    turn.(start := if turn.start.None? then Some(e.at) else turn.start, end := Some(e.at), events := turn.events + [e])
  }

  function OpenLlm(turn: Turn, e: Event, ordinal: nat, input: seq<Message>): Turn {
    turn.(input := if turn.input == [] then input else turn.input,
          llm := turn.llm + [LlmSpan(ordinal, e.at, e.at, None, 0, input, [], [e])],
          activeLlm := turn.activeLlm[ordinal := |turn.llm|])
  }

  function ChunkLlm(turn: Turn, e: Event, ordinal: Option<nat>): Turn {
    match ResolveActive(turn.activeLlm, ordinal)
    case Some(i) =>
      if i < |turn.llm|
      then turn.(llm := turn.llm[i := turn.llm[i].(end := e.at,
                                                 chunks := turn.llm[i].chunks + 1,
                                                 events := turn.llm[i].events + [e])])
      else turn
    case None => turn
  }

  /** Takes an ordinal out of the active map and closes the span it points at. */
  function CloseLlm(turn: Turn, e: Event, ordinal: nat, reason: string): Turn {
    if ordinal !in turn.activeLlm then turn
    else
      var i := turn.activeLlm[ordinal];
      var closed := turn.(activeLlm := turn.activeLlm - {ordinal});
      if i < |turn.llm|
      then closed.(llm := turn.llm[i := turn.llm[i].(end := e.at,
                                                  finish := Some(reason),
                                                  events := turn.llm[i].events + [e])])
      else closed
  }

  /** The span of a call, created at its first event. */
  function EnsureTool(turn: Turn, e: Event, callId: string, name: string): Turn {
    if callId in turn.activeTool then turn
    else turn.(tools := turn.tools + [ToolSpan(callId, name, e.at, e.at, [])],
               activeTool := turn.activeTool[callId := |turn.tools|])
  }

  function ToolStep(turn: Turn, e: Event, callId: string, name: string): Turn {
    var ensured := EnsureTool(turn, e, callId, name);
    var i := ensured.activeTool[callId];
    if i < |ensured.tools|
    then ensured.(tools := ensured.tools[i := ensured.tools[i].(end := e.at, events := ensured.tools[i].events + [e])])
    else ensured
  }

  /** What one event does to its turn. */
  function TurnStep(turn: Turn, e: Event, toolNames: map<string, string>, history: seq<Message>): Turn {
    var noted := Noted(if e.payload.MessageAppended? then Route(turn, e.payload.message) else turn, e);
    match e.payload
    case TurnStarted => noted.(start := Some(e.at))
    case TurnFinished => noted.(end := Some(e.at))
    case CompletionRequested(ordinal, count) => OpenLlm(noted, e, ordinal, TrailingMessages(history, count))
    case CompletionChunk(ordinal) => ChunkLlm(noted, e, ordinal)
    case CompletionFinished(ordinal, reason) => CloseLlm(noted, e, ordinal, reason)
    case SessionError(code) =>
      if noted.activeLlm.Keys == {} then noted else CloseLlm(noted, e, MaxKey(noted.activeLlm.Keys), code)
    case ToolEvent(_, callId, name) =>
      ToolStep(noted, e, callId, if callId in toolNames then toolNames[callId] else name)
    case _ => noted
  }

  function NamesAfter(names: map<string, string>, e: Event): map<string, string> {
    if e.turn.Some? && e.payload.ToolEvent? && e.payload.boundary.CallRequested?
    then names[e.payload.callId := e.payload.toolName] else names
  }

  function HistoryAfter(history: seq<Message>, e: Event): seq<Message> {
    if e.payload.MessageAppended? then history + [e.payload.message] else history
  }

  function TurnOf(turns: map<TurnId, Turn>, t: TurnId): Turn {
    if t in turns then turns[t] else NEW_TURN
  }

  function Step(s: State, e: Event): State {
    var history, names := HistoryAfter(s.history, e), NamesAfter(s.toolNames, e);
    State(if e.turn.Some?
          then s.turns[e.turn.value := TurnStep(TurnOf(s.turns, e.turn.value), e, names, history)]
          else s.turns,
          names, history)
  }

  function Derive(events: seq<Event>): State {
    if events == [] then State(map[], map[], []) else Step(Derive(events[..|events| - 1]), events[|events| - 1])
  }

  method DeriveOtlpTurns(events: seq<Event>) returns (turns: map<TurnId, Turn>)
    ensures turns == Derive(events).turns
    ensures forall t :: t in turns <==> EventsOf(events, t) != []
    ensures forall t :: t in turns ==> turns[t].events == EventsOf(events, t)
  {
    hide TurnStep;
    turns := map[];
    var toolNames: map<string, string>, history: seq<Message> := map[], [];
    for k := 0 to |events|
      invariant State(turns, toolNames, history) == Derive(events[..k])
    {
      var e := events[k];
      assert events[..k + 1][..k] == events[..k];
      if e.payload.MessageAppended? {
        history := history + [e.payload.message];
      }
      if e.turn.None? { continue; }
      if e.payload.ToolEvent? && e.payload.boundary.CallRequested? {
        toolNames := toolNames[e.payload.callId := e.payload.toolName];
      }
      var turn := if e.turn.value in turns then turns[e.turn.value] else NEW_TURN;
      turns := turns[e.turn.value := TurnStep(turn, e, toolNames, history)];
    }
    assert events[..|events|] == events;
    hide Derive;
    forall t
      ensures (t in turns <==> EventsOf(events, t) != []) && (t in turns ==> turns[t].events == EventsOf(events, t))
    {
      TurnsAgree(events, t);
      TurnInvariant(events, t);
    }
  }

  // ---- Each turn is a fold over its own events, given the tool names and history so far ----

  function EventsOf(events: seq<Event>, t: TurnId): seq<Event> {
    if events == [] then []
    else
      var before := EventsOf(events[..|events| - 1], t);
      if events[|events| - 1].turn == Some(t) then before + [events[|events| - 1]] else before
  }

  /** One turn, folded over the events of that turn. */
  function TurnAfter(events: seq<Event>, t: TurnId): Turn {
    if events == [] then NEW_TURN
    else
      var before := TurnAfter(events[..|events| - 1], t);
      if events[|events| - 1].turn == Some(t)
      then TurnStep(before, events[|events| - 1], Derive(events).toolNames, Derive(events).history) else before
  }

  lemma {:induction false} TurnsAgree(events: seq<Event>, t: TurnId)
    ensures var turns := Derive(events).turns;
      (t in turns <==> EventsOf(events, t) != []) && (t in turns ==> turns[t] == TurnAfter(events, t))
      && (t !in turns ==> TurnAfter(events, t) == NEW_TURN)
  {
    hide TurnStep;
    if events != [] { TurnsAgree(events[..|events| - 1], t); }
  }

  // ---- What holds of every turn ----

  /** Active ordinals point at unfinished spans with that ordinal. */
  predicate ActiveOk(turn: Turn) {
    forall o :: o in turn.activeLlm ==>
      turn.activeLlm[o] < |turn.llm|
      && turn.llm[turn.activeLlm[o]].ordinal == o
      && turn.llm[turn.activeLlm[o]].finish == None
  }

  function ToolEvents(events: seq<Event>, callId: string): seq<Event> {
    if events == [] then []
    else
      var before := ToolEvents(events[..|events| - 1], callId);
      var last := events[|events| - 1];
      if last.payload.ToolEvent? && last.payload.callId == callId then before + [last] else before
  }

  /** Each call has one tool span, holding exactly that call's events in order. */
  ghost predicate ToolsOk(turn: Turn) {
    && SpansFit(turn.tools, turn.activeTool, turn.events)
    && (forall id :: ToolEvents(turn.events, id) != [] <==> id in turn.activeTool)
  }

  /** The index map and the spans point at each other, and each span holds its call's events. */
  ghost predicate SpansFit(tools: seq<ToolSpan>, active: map<string, nat>, events: seq<Event>) {
    && (forall i :: 0 <= i < |tools| ==>
          && tools[i].callId in active && active[tools[i].callId] == i
          && tools[i].events == ToolEvents(events, tools[i].callId))
    && (forall id :: id in active ==> active[id] < |tools| && tools[active[id]].callId == id)
  }

  function RequestedOrdinals(events: seq<Event>): seq<nat> {
    if events == [] then []
    else
      var before := RequestedOrdinals(events[..|events| - 1]);
      match events[|events| - 1].payload case CompletionRequested(o, _) => before + [o] case _ => before
  }

  function Ordinals(llm: seq<LlmSpan>): seq<nat> {
    seq(|llm|, i requires 0 <= i < |llm| => llm[i].ordinal)
  }

  /** `later` keeps every span of `earlier`, with its ordinal, and every closed one unchanged. */
  predicate Keeps(earlier: seq<LlmSpan>, later: seq<LlmSpan>) {
    && |earlier| <= |later|
    && (forall i :: 0 <= i < |earlier| ==> later[i].ordinal == earlier[i].ordinal)
    && (forall i :: 0 <= i < |earlier| && earlier[i].finish.Some? ==> later[i] == earlier[i])
  }

  predicate SameTools(a: Turn, b: Turn) {
    a.tools == b.tools && a.activeTool == b.activeTool && a.events == b.events
  }

  lemma RouteFacts(turn: Turn, m: Message)
    requires ActiveOk(turn)
    ensures ActiveOk(Route(turn, m)) && Keeps(turn.llm, Route(turn, m).llm) && |Route(turn, m).llm| == |turn.llm|
    ensures SameTools(turn, Route(turn, m))
  {
    hide MaxKey;
  }

  lemma OpenFacts(turn: Turn, e: Event, ordinal: nat, input: seq<Message>)
    requires ActiveOk(turn)
    ensures ActiveOk(OpenLlm(turn, e, ordinal, input)) && Keeps(turn.llm, OpenLlm(turn, e, ordinal, input).llm)
    ensures SameTools(turn, OpenLlm(turn, e, ordinal, input))
  {
  }

  lemma ChunkFacts(turn: Turn, e: Event, ordinal: Option<nat>)
    requires ActiveOk(turn)
    ensures ActiveOk(ChunkLlm(turn, e, ordinal)) && Keeps(turn.llm, ChunkLlm(turn, e, ordinal).llm)
    ensures SameTools(turn, ChunkLlm(turn, e, ordinal)) && |ChunkLlm(turn, e, ordinal).llm| == |turn.llm|
  {
    hide MaxKey;
  }

  lemma CloseFacts(turn: Turn, e: Event, ordinal: nat, reason: string)
    requires ActiveOk(turn)
    ensures ActiveOk(CloseLlm(turn, e, ordinal, reason)) && Keeps(turn.llm, CloseLlm(turn, e, ordinal, reason).llm)
    ensures SameTools(turn, CloseLlm(turn, e, ordinal, reason))
      && |CloseLlm(turn, e, ordinal, reason).llm| == |turn.llm|
  {
  }

  ghost predicate ToolsBefore(turn: Turn, e: Event) {
    turn.events != [] && turn.events[|turn.events| - 1] == e
    && ToolsOk(turn.(events := turn.events[..|turn.events| - 1]))
  }

  lemma NotedTools(turn: Turn, e: Event)
    requires ToolsOk(turn)
    ensures ToolsBefore(Noted(turn, e), e)
    ensures !e.payload.ToolEvent? ==> ToolsOk(Noted(turn, e))
  {
    hide ToolEvents;
    assert (turn.events + [e])[..|turn.events|] == turn.events;
    assert turn.(events := turn.events) == turn;
    forall id ensures ToolEvents(turn.events + [e], id) == ToolEvents(turn.events, id)
        + (if e.payload.ToolEvent? && e.payload.callId == id then [e] else []) {
      ToolEventsSnoc(turn.events, e, id);
    }
  }

  lemma ToolEventsSnoc(events: seq<Event>, e: Event, id: string)
    ensures ToolEvents(events + [e], id)
         == ToolEvents(events, id) + (if e.payload.ToolEvent? && e.payload.callId == id then [e] else [])
  {
    assert (events + [e])[..|events|] == events;
  }

  lemma ToolFacts(turn: Turn, e: Event, callId: string, name: string)
    requires ToolsBefore(turn, e) && e.payload.ToolEvent? && e.payload.callId == callId
    ensures ToolsOk(ToolStep(turn, e, callId, name))
    ensures var next := ToolStep(turn, e, callId, name);
      next.llm == turn.llm && next.activeLlm == turn.activeLlm && next.events == turn.events
  {
    hide ToolEvents, SpansFit;
    var own := turn.events[..|turn.events| - 1];
    assert turn.events == own + [e];
    forall id ensures ToolEvents(turn.events, id) == ToolEvents(own, id) + (if callId == id then [e] else []) {
      ToolEventsSnoc(own, e, id);
    }
    var ensured := EnsureTool(turn, e, callId, name);
    EnsuredFit(turn, e, callId, name, own);
    ExtendedFit(ensured.tools, ensured.activeTool, own, e);
  }

  /** A call's first event opens its span, still without events. */
  lemma EnsuredFit(turn: Turn, e: Event, callId: string, name: string, own: seq<Event>)
    requires SpansFit(turn.tools, turn.activeTool, own)
    requires callId !in turn.activeTool ==> ToolEvents(own, callId) == []
    ensures var ensured := EnsureTool(turn, e, callId, name);
      SpansFit(ensured.tools, ensured.activeTool, own)
  {
    hide ToolEvents;
  }

  lemma ExtendedFit(tools: seq<ToolSpan>, active: map<string, nat>, own: seq<Event>, e: Event)
    requires SpansFit(tools, active, own) && e.payload.ToolEvent? && e.payload.callId in active
    ensures var i := active[e.payload.callId];
      && i < |tools|
      && SpansFit(tools[i := tools[i].(end := e.at, events := tools[i].events + [e])], active, own + [e])
  {
    hide ToolEvents;
    forall k | 0 <= k < |tools| ensures ToolEvents(own + [e], tools[k].callId)
        == ToolEvents(own, tools[k].callId) + (if e.payload.callId == tools[k].callId then [e] else []) {
      ToolEventsSnoc(own, e, tools[k].callId);
    }
  }

  /** One event keeps the maps, the tool spans and the closed LLM spans of its turn. */
  lemma TurnStepFacts(turn: Turn, e: Event, names: map<string, string>, history: seq<Message>)
    requires ActiveOk(turn) && ToolsOk(turn)
    ensures var next := TurnStep(turn, e, names, history);
      && ActiveOk(next) && ToolsOk(next) && Keeps(turn.llm, next.llm) && next.events == turn.events + [e]
      && |next.llm| == |turn.llm| + (if e.payload.CompletionRequested? then 1 else 0)
      && (e.payload.CompletionRequested? ==> next.llm[|turn.llm|].ordinal == e.payload.ordinal)
  {
    hide ActiveOk, ToolsOk, ToolsBefore, Keeps, ToolStep, ChunkLlm, CloseLlm, Route, MaxKey;
    var routed := if e.payload.MessageAppended? then Route(turn, e.payload.message) else turn;
    if e.payload.MessageAppended? {
      RouteFacts(turn, e.payload.message);
      SameToolsOk(turn, routed);
    } else {
      KeepsItself(turn.llm);
    }
    NotedTools(routed, e);
    var noted := Noted(routed, e);
    SameActive(routed, noted);
    match e.payload {
      case CompletionRequested(ordinal, count) =>
        OpenFacts(noted, e, ordinal, TrailingMessages(history, count));
        SameToolsOk(noted, OpenLlm(noted, e, ordinal, TrailingMessages(history, count)));
      case CompletionChunk(ordinal) =>
        ChunkFacts(noted, e, ordinal);
        SameToolsOk(noted, ChunkLlm(noted, e, ordinal));
      case CompletionFinished(ordinal, reason) =>
        CloseFacts(noted, e, ordinal, reason);
        SameToolsOk(noted, CloseLlm(noted, e, ordinal, reason));
      case SessionError(code) =>
        if noted.activeLlm.Keys != {} {
          CloseFacts(noted, e, MaxKey(noted.activeLlm.Keys), code);
          SameToolsOk(noted, CloseLlm(noted, e, MaxKey(noted.activeLlm.Keys), code));
        }
      case ToolEvent(_, callId, name) =>
        var known := if callId in names then names[callId] else name;
        ToolFacts(noted, e, callId, known);
        SameActive(noted, ToolStep(noted, e, callId, known));
      case TurnStarted =>
        SameActive(noted, noted.(start := Some(e.at)));
        SameToolsOk(noted, noted.(start := Some(e.at)));
      case _ =>
    }
  }

  lemma KeepsItself(llm: seq<LlmSpan>)
    ensures Keeps(llm, llm)
  {
  }

  lemma SameToolsOk(a: Turn, b: Turn)
    requires SameTools(a, b)
    ensures ToolsOk(a) ==> ToolsOk(b)
    ensures forall e :: ToolsBefore(a, e) ==> ToolsBefore(b, e)
  {
    hide ToolEvents;
  }

  lemma SameActive(a: Turn, b: Turn)
    requires a.llm == b.llm && a.activeLlm == b.activeLlm
    ensures ActiveOk(a) ==> ActiveOk(b)
  {
  }

  /**
   * At every point each turn holds its own events in order; each of its calls
   * has exactly one tool span, holding exactly that call's events; there is one
   * LLM span per request; active ordinals point at unfinished spans.
   */
  lemma {:induction false} TurnInvariant(events: seq<Event>, t: TurnId)
    ensures var turn := TurnAfter(events, t);
      && turn.events == EventsOf(events, t)
      && ActiveOk(turn) && ToolsOk(turn)
      && Ordinals(turn.llm) == RequestedOrdinals(turn.events)
  {
    hide ActiveOk, ToolsOk, TurnStep, Derive, RequestedOrdinals, Ordinals, Keeps;
    if events == [] {
      NewTurnOk();
    } else {
      var init, last := events[..|events| - 1], events[|events| - 1];
      TurnInvariant(init, t);
      if last.turn == Some(t) {
        var turn := TurnAfter(init, t);
        TurnStepFacts(turn, last, Derive(events).toolNames, Derive(events).history);
        OrdinalsStep(turn, last, TurnStep(turn, last, Derive(events).toolNames, Derive(events).history));
      }
    }
  }

  lemma NewTurnOk()
    ensures ActiveOk(NEW_TURN) && ToolsOk(NEW_TURN) && Ordinals([]) == RequestedOrdinals([])
  {
  }

  lemma OrdinalsStep(turn: Turn, e: Event, next: Turn)
    requires Keeps(turn.llm, next.llm) && next.events == turn.events + [e]
    requires |next.llm| == |turn.llm| + (if e.payload.CompletionRequested? then 1 else 0)
    requires e.payload.CompletionRequested? ==> next.llm[|turn.llm|].ordinal == e.payload.ordinal
    requires Ordinals(turn.llm) == RequestedOrdinals(turn.events)
    ensures Ordinals(next.llm) == RequestedOrdinals(next.events)
  {
    assert (turn.events + [e])[..|turn.events|] == turn.events;
    assert Ordinals(next.llm) == Ordinals(turn.llm)
        + (if e.payload.CompletionRequested? then [e.payload.ordinal] else []);
  }

  /** A closed LLM span never changes again, whatever events follow. */
  lemma {:induction false} ClosedSpanIsFinal(events: seq<Event>, more: seq<Event>, t: TurnId, i: nat)
    requires i < |TurnAfter(events, t).llm| && TurnAfter(events, t).llm[i].finish.Some?
    ensures i < |TurnAfter(events + more, t).llm| && TurnAfter(events + more, t).llm[i] == TurnAfter(events, t).llm[i]
  {
    hide TurnStep, Derive, ActiveOk, ToolsOk;
    if more == [] {
      assert events + more == events;
    } else {
      var init := more[..|more| - 1];
      var all := events + more;
      assert all[..|all| - 1] == events + init && all[|all| - 1] == more[|more| - 1];
      ClosedSpanIsFinal(events, init, t, i);
      TurnInvariant(events + init, t);
      TurnStepFacts(TurnAfter(events + init, t), more[|more| - 1], Derive(all).toolNames, Derive(all).history);
    }
  }

  // ---- What an LLM span tells ----

  predicate Closing(e: Event, ordinal: nat) {
    (e.payload.CompletionFinished? && e.payload.finishedOrdinal == ordinal) || e.payload.SessionError?
  }

  function Reason(e: Event): Option<string> {
    match e.payload
    case CompletionFinished(_, reason) => Some(reason)
    case SessionError(code) => Some(code)
    case _ => None
  }

  /** One request, then its chunks, then at most one event that closes the span and gives its reason. */
  predicate Told(span: LlmSpan) {
    && |span.events| == 1 + span.chunks + (if span.finish.Some? then 1 else 0)
    && span.events[0].payload.CompletionRequested? && span.events[0].payload.ordinal == span.ordinal
    && (forall i :: 1 <= i <= span.chunks ==> span.events[i].payload.CompletionChunk?)
    && (span.finish.Some? ==> Closing(span.events[|span.events| - 1], span.ordinal)
                              && span.finish == Reason(span.events[|span.events| - 1]))
    && span.start == span.events[0].at && span.end == span.events[|span.events| - 1].at
  }

  predicate AllTold(llm: seq<LlmSpan>) {
    forall i :: 0 <= i < |llm| ==> Told(llm[i])
  }

  /** A tool span runs from its first event to its last. */
  predicate Spans(span: ToolSpan) {
    span.events != [] && span.start == span.events[0].at && span.end == span.events[|span.events| - 1].at
  }

  predicate AllSpan(tools: seq<ToolSpan>) {
    forall i :: 0 <= i < |tools| ==> Spans(tools[i])
  }

  lemma ToolSpansOn(turn: Turn, e: Event, callId: string, name: string)
    requires AllSpan(turn.tools)
    ensures AllSpan(ToolStep(turn, e, callId, name).tools) && ToolStep(turn, e, callId, name).llm == turn.llm
  {
  }

  lemma RouteTells(turn: Turn, m: Message)
    requires AllTold(turn.llm)
    ensures AllTold(Route(turn, m).llm)
  {
    hide MaxKey;
  }

  lemma OpenTells(turn: Turn, e: Event, ordinal: nat, input: seq<Message>)
    requires AllTold(turn.llm) && e.payload.CompletionRequested? && e.payload.ordinal == ordinal
    ensures AllTold(OpenLlm(turn, e, ordinal, input).llm) && OpenLlm(turn, e, ordinal, input).tools == turn.tools
  {
  }

  lemma Chunked(span: LlmSpan, e: Event)
    requires Told(span) && span.finish == None && e.payload.CompletionChunk?
    ensures Told(span.(end := e.at, chunks := span.chunks + 1, events := span.events + [e]))
  {
  }

  lemma ChunkTells(turn: Turn, e: Event, ordinal: Option<nat>)
    requires AllTold(turn.llm) && ActiveOk(turn) && e.payload.CompletionChunk?
    ensures AllTold(ChunkLlm(turn, e, ordinal).llm) && ChunkLlm(turn, e, ordinal).tools == turn.tools
  {
    hide MaxKey, Told;
    if ResolveActive(turn.activeLlm, ordinal).Some? {
      var i := ResolveActive(turn.activeLlm, ordinal).value;
      ResolvesOpen(turn, ordinal);
      Chunked(turn.llm[i], e);
    }
  }

  lemma ResolvesOpen(turn: Turn, ordinal: Option<nat>)
    requires ActiveOk(turn) && ResolveActive(turn.activeLlm, ordinal).Some?
    ensures var i := ResolveActive(turn.activeLlm, ordinal).value; i < |turn.llm| && turn.llm[i].finish == None
  {
  }

  lemma CloseTells(turn: Turn, e: Event, ordinal: nat, reason: string)
    requires AllTold(turn.llm) && ActiveOk(turn) && Closing(e, ordinal) && Reason(e) == Some(reason)
    ensures AllTold(CloseLlm(turn, e, ordinal, reason).llm) && CloseLlm(turn, e, ordinal, reason).tools == turn.tools
  {
  }

  lemma StepTells(turn: Turn, e: Event, names: map<string, string>, history: seq<Message>)
    requires AllTold(turn.llm) && AllSpan(turn.tools) && ActiveOk(turn)
    ensures AllTold(TurnStep(turn, e, names, history).llm) && AllSpan(TurnStep(turn, e, names, history).tools)
  {
    hide AllTold, AllSpan, ActiveOk, ToolStep, Route, OpenLlm, CloseLlm, ChunkLlm, MaxKey, TrailingMessages;
    if e.payload.MessageAppended? {
      RouteTells(turn, e.payload.message);
      RouteFacts(turn, e.payload.message);
    }
    var noted := Noted(if e.payload.MessageAppended? then Route(turn, e.payload.message) else turn, e);
    if !e.payload.MessageAppended? { SameActive(turn, noted); }
    match e.payload {
      case CompletionRequested(ordinal, count) => OpenTells(noted, e, ordinal, TrailingMessages(history, count));
      case CompletionChunk(ordinal) => ChunkTells(noted, e, ordinal);
      case CompletionFinished(ordinal, reason) => CloseTells(noted, e, ordinal, reason);
      case SessionError(code) =>
        if noted.activeLlm.Keys != {} { CloseTells(noted, e, MaxKey(noted.activeLlm.Keys), code); }
      case ToolEvent(_, callId, name) => ToolSpansOn(noted, e, callId, if callId in names then names[callId] else name);
      case _ =>
    }
  }

  /**
   * Every LLM span is the story of one request, closed exactly when that story has an
   * end; every span runs from its first event to its last.
   */
  lemma {:induction false} SpansTellTheirCalls(events: seq<Event>, t: TurnId)
    ensures AllTold(TurnAfter(events, t).llm) && AllSpan(TurnAfter(events, t).tools)
  {
    hide TurnStep, Derive, ActiveOk, ToolsOk, Told, Spans;
    if events != [] {
      var init, last := events[..|events| - 1], events[|events| - 1];
      SpansTellTheirCalls(init, t);
      TurnInvariant(init, t);
      StepTells(TurnAfter(init, t), last, Derive(events).toolNames, Derive(events).history);
    }
  }

  // ---- An LLM span holds the events that name its ordinal ----

  predicate NamesCall(e: Event, ordinal: nat) {
    match e.payload
    case CompletionRequested(o, _) => o == ordinal
    case CompletionChunk(o) => o == Some(ordinal)
    case CompletionFinished(o, _) => o == ordinal
    case _ => false
  }

  function CallEvents(events: seq<Event>, ordinal: nat): seq<Event> {
    if events == [] then []
    else
      var before := CallEvents(events[..|events| - 1], ordinal);
      if NamesCall(events[|events| - 1], ordinal) then before + [events[|events| - 1]] else before
  }

  predicate NamesActive(turn: Turn, e: Event) {
    match e.payload
    case CompletionRequested(o, _) => CallEvents(turn.events, o) == []
    case CompletionChunk(o) => o.Some? && o.value in turn.activeLlm
    case CompletionFinished(o, _) => o in turn.activeLlm
    case _ => true
  }

  /** The ordinals under way after an event: requested, and neither finished nor ended by a session error. */
  function UnderWayAfter(ordinals: set<nat>, e: Event): set<nat> {
    match e.payload
    case CompletionRequested(o, _) => ordinals + {o}
    case CompletionFinished(o, _) => ordinals - {o}
    case SessionError(_) => if ordinals == {} then {} else ordinals - {MaxKey(ordinals)}
    case _ => ordinals
  }

  function UnderWay(events: seq<Event>): set<nat> {
    if events == [] then {} else UnderWayAfter(UnderWay(events[..|events| - 1]), events[|events| - 1])
  }

  /** Requests use new ordinals; chunks and finishes name a call that is under way. */
  predicate Orderly(events: seq<Event>) {
    events == []
    || (Orderly(events[..|events| - 1])
        && match events[|events| - 1].payload
           case CompletionRequested(o, _) => CallEvents(events[..|events| - 1], o) == []
           case CompletionChunk(o) => o.Some? && o.value in UnderWay(events[..|events| - 1])
           case CompletionFinished(o, _) => o in UnderWay(events[..|events| - 1])
           case _ => true)
  }

  lemma RouteKeepsActive(turn: Turn, m: Message)
    ensures Route(turn, m).activeLlm == turn.activeLlm
  {
    hide LatestActive;
  }

  lemma ChunkKeepsActive(turn: Turn, e: Event, ordinal: Option<nat>)
    ensures ChunkLlm(turn, e, ordinal).activeLlm == turn.activeLlm
  {
    hide ResolveActive;
  }

  lemma CloseEndsOne(turn: Turn, e: Event, ordinal: nat, reason: string)
    ensures CloseLlm(turn, e, ordinal, reason).activeLlm.Keys == turn.activeLlm.Keys - {ordinal}
  {
  }

  lemma StepUnderWay(turn: Turn, e: Event, names: map<string, string>, history: seq<Message>)
    ensures TurnStep(turn, e, names, history).activeLlm.Keys == UnderWayAfter(turn.activeLlm.Keys, e)
  {
    hide Route, CloseLlm, ChunkLlm, ToolStep, MaxKey, TrailingMessages;
    if e.payload.MessageAppended? { RouteKeepsActive(turn, e.payload.message); }
    var noted := Noted(if e.payload.MessageAppended? then Route(turn, e.payload.message) else turn, e);
    match e.payload {
      case CompletionChunk(o) => ChunkKeepsActive(noted, e, o);
      case CompletionFinished(o, reason) => CloseEndsOne(noted, e, o, reason);
      case SessionError(code) =>
        if noted.activeLlm.Keys != {} { CloseEndsOne(noted, e, MaxKey(noted.activeLlm.Keys), code); }
      case ToolEvent(_, callId, name) =>
        ToolKeepsLlm(noted, e, callId, if callId in names then names[callId] else name);
      case _ =>
    }
  }

  /** The active map of a turn holds the ordinals that its own events leave under way. */
  lemma {:induction false} ActiveIsUnderWay(events: seq<Event>, t: TurnId)
    ensures TurnAfter(events, t).activeLlm.Keys == UnderWay(EventsOf(events, t))
  {
    hide TurnStep, Derive, UnderWayAfter;
    if events != [] {
      var init, last := events[..|events| - 1], events[|events| - 1];
      ActiveIsUnderWay(init, t);
      if last.turn == Some(t) {
        StepUnderWay(TurnAfter(init, t), last, Derive(events).toolNames, Derive(events).history);
        assert (EventsOf(init, t) + [last])[..|EventsOf(init, t)|] == EventsOf(init, t);
      }
    }
  }

  /** The events of a span, without the session error that broke it off. */
  function NamedEvents(span: LlmSpan): seq<Event> {
    if span.events != [] && span.events[|span.events| - 1].payload.SessionError?
    then span.events[..|span.events| - 1] else span.events
  }

  predicate Filtered(llm: seq<LlmSpan>, events: seq<Event>) {
    && (forall i :: 0 <= i < |llm| ==> NamedEvents(llm[i]) == CallEvents(events, llm[i].ordinal))
    && (forall i, j :: 0 <= i < j < |llm| ==> llm[i].ordinal != llm[j].ordinal)
  }

  lemma CallEventsSnoc(events: seq<Event>, e: Event, ordinal: nat)
    ensures CallEvents(events + [e], ordinal) == CallEvents(events, ordinal) + if NamesCall(e, ordinal) then [e] else []
  {
    assert (events + [e])[..|events|] == events;
  }

  lemma RouteFilters(turn: Turn, m: Message, events: seq<Event>)
    requires Filtered(turn.llm, events)
    ensures Filtered(Route(turn, m).llm, events)
  {
    hide MaxKey, CallEvents;
  }

  lemma QuietFilters(llm: seq<LlmSpan>, events: seq<Event>, e: Event)
    requires Filtered(llm, events) && forall o :: !NamesCall(e, o)
    ensures Filtered(llm, events + [e])
  {
    hide CallEvents, NamesCall;
    forall i | 0 <= i < |llm| ensures NamedEvents(llm[i]) == CallEvents(events + [e], llm[i].ordinal) {
      CallEventsSnoc(events, e, llm[i].ordinal);
    }
  }

  lemma ToldIsNamed(span: LlmSpan)
    requires Told(span)
    ensures NamedEvents(span) != [] && (span.finish == None ==> NamedEvents(span) == span.events)
  {
  }

  lemma OpenFilters(turn: Turn, e: Event, ordinal: nat, input: seq<Message>, before: seq<Event>)
    requires Filtered(turn.llm, before) && AllTold(turn.llm)
    requires e.payload.CompletionRequested? && e.payload.ordinal == ordinal && CallEvents(before, ordinal) == []
    ensures Filtered(OpenLlm(turn, e, ordinal, input).llm, before + [e])
  {
    hide CallEvents, Told, NamedEvents;
    var next := OpenLlm(turn, e, ordinal, input).llm;
    forall i | 0 <= i < |turn.llm| ensures turn.llm[i].ordinal != ordinal { ToldIsNamed(turn.llm[i]); }
    forall i | 0 <= i < |next| ensures NamedEvents(next[i]) == CallEvents(before + [e], next[i].ordinal) {
      CallEventsSnoc(before, e, next[i].ordinal);
      if i == |turn.llm| { OpenedEvents(next[i], e); }
    }
  }

  lemma OpenedEvents(span: LlmSpan, e: Event)
    requires span.events == [e] && e.payload.CompletionRequested?
    ensures NamedEvents(span) == [] + [e]
  {
  }

  /** Appending to an open span an event that names it, or the error that breaks it off. */
  lemma AppendFilters(llm: seq<LlmSpan>, i: nat, next: LlmSpan, e: Event, before: seq<Event>)
    requires Filtered(llm, before) && i < |llm| && Told(llm[i]) && llm[i].finish == None
    requires next.ordinal == llm[i].ordinal && next.events == llm[i].events + [e]
    requires forall o :: NamesCall(e, o) <==> o == llm[i].ordinal && !e.payload.SessionError?
    ensures Filtered(llm[i := next], before + [e])
  {
    ToldIsNamed(llm[i]);
    AppendedEvents(llm[i], next, e);
    hide CallEvents, Told, NamedEvents, NamesCall;
    var spans := llm[i := next];
    forall j | 0 <= j < |spans| ensures NamedEvents(spans[j]) == CallEvents(before + [e], spans[j].ordinal) {
      CallEventsSnoc(before, e, llm[j].ordinal);
    }
  }

  lemma AppendedEvents(span: LlmSpan, next: LlmSpan, e: Event)
    requires next.events == span.events + [e]
    ensures NamedEvents(next) == span.events + if e.payload.SessionError? then [] else [e]
  {
  }

  lemma ChunkFilters(turn: Turn, e: Event, ordinal: nat, before: seq<Event>)
    requires Filtered(turn.llm, before) && AllTold(turn.llm) && ActiveOk(turn)
    requires e.payload == CompletionChunk(Some(ordinal)) && ordinal in turn.activeLlm
    ensures Filtered(ChunkLlm(turn, e, Some(ordinal)).llm, before + [e])
  {
    hide MaxKey, Told, Filtered;
    var i := turn.activeLlm[ordinal];
    var span := turn.llm[i];
    AppendFilters(turn.llm, i, span.(end := e.at, chunks := span.chunks + 1, events := span.events + [e]), e, before);
  }

  lemma CloseFilters(turn: Turn, e: Event, ordinal: nat, reason: string, before: seq<Event>)
    requires Filtered(turn.llm, before) && AllTold(turn.llm) && ActiveOk(turn)
    requires Closing(e, ordinal) && ordinal in turn.activeLlm
    ensures Filtered(CloseLlm(turn, e, ordinal, reason).llm, before + [e])
  {
    hide MaxKey, Told, Filtered;
    var i := turn.activeLlm[ordinal];
    var span := turn.llm[i];
    AppendFilters(turn.llm, i, span.(end := e.at, finish := Some(reason), events := span.events + [e]), e, before);
  }

  lemma StepFilters(turn: Turn, e: Event, names: map<string, string>, history: seq<Message>)
    requires Filtered(turn.llm, turn.events) && AllTold(turn.llm) && ActiveOk(turn) && NamesActive(turn, e)
    ensures Filtered(TurnStep(turn, e, names, history).llm, turn.events + [e])
  {
    hide Filtered, AllTold, ActiveOk, ToolStep, Route, OpenLlm, CloseLlm, ChunkLlm, MaxKey,
         TrailingMessages, CallEvents;
    if e.payload.MessageAppended? {
      RouteFilters(turn, e.payload.message, turn.events);
      QuietFilters(Route(turn, e.payload.message).llm, turn.events, e);
    } else {
      var noted := Noted(turn, e);
      SameActive(turn, noted);
      match e.payload {
        case CompletionRequested(o, count) => OpenFilters(noted, e, o, TrailingMessages(history, count), turn.events);
        case CompletionChunk(o) => ChunkFilters(noted, e, o.value, turn.events);
        case CompletionFinished(o, reason) => CloseFilters(noted, e, o, reason, turn.events);
        case SessionError(code) =>
          if noted.activeLlm.Keys == {} {
            QuietFilters(turn.llm, turn.events, e);
          } else {
            CloseFilters(noted, e, MaxKey(noted.activeLlm.Keys), code, turn.events);
          }
        case ToolEvent(_, callId, name) =>
          ToolKeepsLlm(noted, e, callId, if callId in names then names[callId] else name);
          QuietFilters(turn.llm, turn.events, e);
        case _ => QuietFilters(turn.llm, turn.events, e);
      }
    }
  }

  lemma ToolKeepsLlm(turn: Turn, e: Event, callId: string, name: string)
    ensures ToolStep(turn, e, callId, name).llm == turn.llm
      && ToolStep(turn, e, callId, name).activeLlm == turn.activeLlm
  {
  }

  /**
   * When requests use new ordinals and chunks and finishes name a call under
   * way, an LLM span holds exactly the turn's events that name its ordinal, in
   * order, and besides them at most the session error that broke it off.
   */
  lemma {:induction false} LlmSpansFilterByOrdinal(events: seq<Event>, t: TurnId)
    requires Orderly(EventsOf(events, t))
    ensures Filtered(TurnAfter(events, t).llm, EventsOf(events, t))
  {
    hide TurnStep, Derive, ActiveOk, ToolsOk, AllTold, Filtered, UnderWay;
    if events == [] {
      assert Filtered([], []) by { NothingFiltered(); }
    } else {
      var init, last := events[..|events| - 1], events[|events| - 1];
      if last.turn == Some(t) {
        var own := EventsOf(init, t);
        assert (own + [last])[..|own|] == own;
        LlmSpansFilterByOrdinal(init, t);
        TurnInvariant(init, t);
        SpansTellTheirCalls(init, t);
        ActiveIsUnderWay(init, t);
        StepFilters(TurnAfter(init, t), last, Derive(events).toolNames, Derive(events).history);
      } else {
        LlmSpansFilterByOrdinal(init, t);
      }
    }
  }

  lemma NothingFiltered()
    ensures Filtered([], [])
  {
  }

  /** The spans of a turn are one per call with events, each with all and only that call's events. */
  lemma {:induction false} OneSpanPerCall(events: seq<Event>, t: TurnId)
    ensures var turn := TurnAfter(events, t); var own := EventsOf(events, t);
      && (forall id :: ToolEvents(own, id) != [] <==> exists i :: 0 <= i < |turn.tools| && turn.tools[i].callId == id)
      && (forall i, j :: 0 <= i < j < |turn.tools| ==> turn.tools[i].callId != turn.tools[j].callId)
      && (forall i :: 0 <= i < |turn.tools| ==> turn.tools[i].events == ToolEvents(own, turn.tools[i].callId))
  {
    hide ToolEvents, TurnAfter, EventsOf;
    TurnInvariant(events, t);
    var turn := TurnAfter(events, t);
    forall id | id in turn.activeTool ensures exists i :: 0 <= i < |turn.tools| && turn.tools[i].callId == id {
      assert turn.tools[turn.activeTool[id]].callId == id;
    }
  }

  // ---- Spans nest in time ----

  predicate Within(turn: Turn, start: Time, end: Time) {
    && (forall i :: 0 <= i < |turn.llm| ==> start <= turn.llm[i].start <= turn.llm[i].end <= end)
    && (forall i :: 0 <= i < |turn.tools| ==> start <= turn.tools[i].start <= turn.tools[i].end <= end)
  }

  predicate Nested(turn: Turn) {
    if turn.events == [] then turn == NEW_TURN
    else turn.start.Some? && turn.end.Some? && turn.start.value <= turn.end.value
         && turn.end.value == turn.events[|turn.events| - 1].at && Within(turn, turn.start.value, turn.end.value)
  }

  lemma NotedNests(turn: Turn, e: Event)
    requires Nested(turn) && (turn.events != [] ==> turn.end.value <= e.at)
    ensures Nested(Noted(turn, e)) && Noted(turn, e).end == Some(e.at)
    ensures turn.events == [] ==>
      Noted(turn, e).start == Some(e.at) && Noted(turn, e).llm == [] && Noted(turn, e).tools == []
  {
  }

  lemma RouteNests(turn: Turn, m: Message, e: Event)
    requires Nested(turn) && (turn.events != [] ==> turn.end.value <= e.at)
    ensures Nested(Noted(Route(turn, m), e)) && Noted(Route(turn, m), e).end == Some(e.at)
  {
    hide MaxKey;
  }

  lemma PieceNests(turn: Turn, e: Event, ordinal: nat, input: seq<Message>, reason: string)
    requires Nested(turn) && turn.end == Some(e.at) && turn.events != []
    ensures Nested(OpenLlm(turn, e, ordinal, input)) && Nested(CloseLlm(turn, e, ordinal, reason))
  {
  }

  lemma ChunkNests(turn: Turn, e: Event, ordinal: Option<nat>)
    requires Nested(turn) && turn.end == Some(e.at) && turn.events != []
    ensures Nested(ChunkLlm(turn, e, ordinal))
  {
    hide MaxKey;
  }

  lemma ToolNests(turn: Turn, e: Event, callId: string, name: string)
    requires Nested(turn) && turn.end == Some(e.at) && turn.events != []
    ensures Nested(ToolStep(turn, e, callId, name))
  {
  }

  lemma StepNests(turn: Turn, e: Event, names: map<string, string>, history: seq<Message>)
    requires Nested(turn) && (turn.events != [] ==> turn.end.value <= e.at && !e.payload.TurnStarted?)
    ensures Nested(TurnStep(turn, e, names, history))
  {
    hide Nested, Route, OpenLlm, CloseLlm, ChunkLlm, ToolStep, MaxKey, TrailingMessages;
    var noted := Noted(if e.payload.MessageAppended? then Route(turn, e.payload.message) else turn, e);
    assert Nested(noted) && noted.end == Some(e.at) by {
      if e.payload.MessageAppended? { RouteNests(turn, e.payload.message, e); } else { NotedNests(turn, e); }
    }
    match e.payload {
      case TurnStarted => NotedNests(turn, e);
      case CompletionRequested(ordinal, count) => PieceNests(noted, e, ordinal, TrailingMessages(history, count), "");
      case CompletionChunk(ordinal) => ChunkNests(noted, e, ordinal);
      case CompletionFinished(ordinal, reason) => PieceNests(noted, e, ordinal, [], reason);
      case SessionError(code) =>
        if noted.activeLlm.Keys != {} { PieceNests(noted, e, MaxKey(noted.activeLlm.Keys), [], code); }
      case ToolEvent(_, callId, name) => ToolNests(noted, e, callId, if callId in names then names[callId] else name);
      case _ =>
    }
  }

  predicate Ordered(events: seq<Event>) {
    forall i, j :: 0 <= i < j < |events| ==> events[i].at <= events[j].at
  }

  /** With nondecreasing times and `TurnStarted` first in its turn, every span lies within its turn's span. */
  lemma {:induction false} SpansLieWithinTurn(events: seq<Event>, t: TurnId)
    requires Ordered(EventsOf(events, t))
    requires forall i :: 0 < i < |EventsOf(events, t)| ==> !EventsOf(events, t)[i].payload.TurnStarted?
    ensures Nested(TurnAfter(events, t))
  {
    hide TurnStep, Derive, ActiveOk, ToolsOk, Nested;
    if events == [] {
      assert Nested(NEW_TURN) by { NewTurnNested(); }
    } else {
      var init, last := events[..|events| - 1], events[|events| - 1];
      if last.turn == Some(t) {
        var own := EventsOf(init, t);
        assert EventsOf(events, t) == own + [last];
        PrefixOrdered(own, last);
        SpansLieWithinTurn(init, t);
        TurnInvariant(init, t);
        var turn := TurnAfter(init, t);
        NestedEnd(turn);
        StepNests(turn, last, Derive(events).toolNames, Derive(events).history);
        TurnStepFacts(turn, last, Derive(events).toolNames, Derive(events).history);
      } else {
        SpansLieWithinTurn(init, t);
      }
    }
  }

  lemma NewTurnNested()
    ensures Nested(NEW_TURN)
  {
  }

  lemma NestedEnd(turn: Turn)
    requires Nested(turn)
    ensures turn.events != [] ==> turn.end == Some(turn.events[|turn.events| - 1].at)
  {
  }

  lemma PrefixOrdered(own: seq<Event>, last: Event)
    requires Ordered(own + [last])
    requires forall i :: 0 < i < |own + [last]| ==> !(own + [last])[i].payload.TurnStarted?
    ensures Ordered(own) && (own != [] ==> own[|own| - 1].at <= last.at && !last.payload.TurnStarted?)
    ensures forall i :: 0 < i < |own| ==> !own[i].payload.TurnStarted?
  {
    var all := own + [last];
    assert forall i :: 0 <= i < |own| ==> all[i] == own[i];
    assert all[|own|] == last;
  }
}
