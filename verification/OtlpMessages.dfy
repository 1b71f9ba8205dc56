/** Which messages and names the spans of a turn carry, read off the session's events (bt-otel, `derive_otlp_turns`). */
module OtlpMessages {
  import opened Wrappers
  import opened Messages
  import opened OtlpSpans

  // ---- Inputs: the newest messages of the session at the request ----

  function Appended(events: seq<Event>): seq<Message> {
    if events == [] then []
    else
      var before := Appended(events[..|events| - 1]);
      match events[|events| - 1].payload case MessageAppended(m) => before + [m] case _ => before
  }

  lemma {:induction false} HistoryIsAppended(events: seq<Event>)
    ensures Derive(events).history == Appended(events)
  {
    hide TurnStep;
    if events != [] { HistoryIsAppended(events[..|events| - 1]); }
  }

  /** The newest `count` of the messages, or all of them when there are fewer. */
  predicate AreNewest(part: seq<Message>, messages: seq<Message>, count: nat) {
    && |part| == (if |messages| < count then |messages| else count)
    && part == messages[|messages| - |part|..]
  }

  /** The positions in the session of this turn's LLM requests. */
  function Requests(events: seq<Event>, t: TurnId): (at: seq<nat>)
    ensures forall i :: 0 <= i < |at| ==> at[i] < |events| && events[at[i]].payload.CompletionRequested?
  {
    if events == [] then []
    else
      var last := |events| - 1;
      var before := Requests(events[..last], t);
      if events[last].turn == Some(t) && events[last].payload.CompletionRequested? then before + [last] else before
  }

  /** Each span's ordinal and input are those of its request. */
  predicate InputsMatch(llm: seq<LlmSpan>, events: seq<Event>, t: TurnId) {
    var at := Requests(events, t);
    && |llm| == |at|
    && forall i :: 0 <= i < |llm| ==>
         && llm[i].ordinal == events[at[i]].payload.ordinal
         && AreNewest(llm[i].input, Appended(events[..at[i] + 1]), events[at[i]].payload.messageCount)
  }

  /** Later spans are the earlier ones, with their ordinals and inputs. */
  predicate SameInputs(earlier: seq<LlmSpan>, later: seq<LlmSpan>) {
    |earlier| == |later|
    && forall i :: 0 <= i < |earlier| ==> later[i].ordinal == earlier[i].ordinal && later[i].input == earlier[i].input
  }

  predicate SameOutputs(earlier: seq<LlmSpan>, later: seq<LlmSpan>) {
    |earlier| == |later| && forall i :: 0 <= i < |earlier| ==> later[i].output == earlier[i].output
  }

  lemma RouteKeepsInputs(turn: Turn, m: Message)
    ensures SameInputs(turn.llm, Route(turn, m).llm)
  {
    hide LatestActive;
  }

  lemma ChunkKeeps(turn: Turn, e: Event, ordinal: Option<nat>)
    ensures var next := ChunkLlm(turn, e, ordinal);
      && SameInputs(turn.llm, next.llm) && SameOutputs(turn.llm, next.llm)
      && next.input == turn.input && next.output == turn.output
  {
    hide ResolveActive;
  }

  lemma CloseKeeps(turn: Turn, e: Event, ordinal: nat, reason: string)
    ensures var next := CloseLlm(turn, e, ordinal, reason);
      && SameInputs(turn.llm, next.llm) && SameOutputs(turn.llm, next.llm)
      && next.input == turn.input && next.output == turn.output
  {
  }

  lemma ToolKeeps(turn: Turn, e: Event, callId: string, name: string)
    ensures var next := ToolStep(turn, e, callId, name);
      next.llm == turn.llm && next.input == turn.input && next.output == turn.output
  {
  }

  lemma SameSpans(llm: seq<LlmSpan>)
    ensures SameInputs(llm, llm) && SameOutputs(llm, llm)
  {
  }

  /** An event that is neither a message nor a request leaves all messages of the turn alone. */
  lemma OthersKeep(turn: Turn, e: Event, names: map<string, string>, history: seq<Message>)
    requires !e.payload.MessageAppended? && !e.payload.CompletionRequested?
    ensures var next := TurnStep(turn, e, names, history);
      && SameInputs(turn.llm, next.llm) && SameOutputs(turn.llm, next.llm)
      && next.input == turn.input && next.output == turn.output
  {
    hide ToolStep, CloseLlm, ChunkLlm, MaxKey, SameInputs, SameOutputs;
    var noted := Noted(turn, e);
    SameSpans(turn.llm);
    match e.payload {
      case CompletionChunk(o) => ChunkKeeps(noted, e, o);
      case CompletionFinished(o, reason) => CloseKeeps(noted, e, o, reason);
      case SessionError(code) =>
        if noted.activeLlm.Keys != {} { CloseKeeps(noted, e, MaxKey(noted.activeLlm.Keys), code); }
      case ToolEvent(_, callId, name) =>
        ToolKeeps(noted, e, callId, if callId in names then names[callId] else name);
      case _ =>
    }
  }

  lemma MessageKeepsInputs(turn: Turn, e: Event, names: map<string, string>, history: seq<Message>)
    requires e.payload.MessageAppended?
    ensures SameInputs(turn.llm, TurnStep(turn, e, names, history).llm)
  {
    hide Route;
    RouteKeepsInputs(turn, e.payload.message);
  }

  lemma RequestAdds(turn: Turn, e: Event, names: map<string, string>, history: seq<Message>)
    requires e.payload.CompletionRequested?
    ensures var llm := TurnStep(turn, e, names, history).llm;
      && |llm| == |turn.llm| + 1 && llm[..|turn.llm|] == turn.llm
      && llm[|turn.llm|].ordinal == e.payload.ordinal && llm[|turn.llm|].output == []
      && AreNewest(llm[|turn.llm|].input, history, e.payload.messageCount)
  {
  }

  lemma InputsStay(earlier: seq<LlmSpan>, later: seq<LlmSpan>, events: seq<Event>, e: Event, t: TurnId)
    requires InputsMatch(earlier, events, t) && SameInputs(earlier, later)
    requires e.turn != Some(t) || !e.payload.CompletionRequested?
    ensures InputsMatch(later, events + [e], t)
  {
    hide AreNewest, Appended;
    assert (events + [e])[..|events|] == events;
    var at := Requests(events, t);
    assert Requests(events + [e], t) == at;
    forall i | 0 <= i < |at| ensures (events + [e])[..at[i] + 1] == events[..at[i] + 1] {
    }
  }

  lemma InputsGrow(earlier: seq<LlmSpan>, later: seq<LlmSpan>, events: seq<Event>, e: Event, t: TurnId)
    requires InputsMatch(earlier, events, t) && e.turn == Some(t) && e.payload.CompletionRequested?
    requires |later| == |earlier| + 1 && later[..|earlier|] == earlier
    requires later[|earlier|].ordinal == e.payload.ordinal
    requires AreNewest(later[|earlier|].input, Appended(events + [e]), e.payload.messageCount)
    ensures InputsMatch(later, events + [e], t)
  {
    hide AreNewest, Appended;
    var all := events + [e];
    assert all[..|events|] == events && all[..|events| + 1] == all;
    var at := Requests(events, t);
    assert Requests(all, t) == at + [|events|];
    forall i | 0 <= i < |later|
      ensures var k := (at + [|events|])[i];
        && later[i].ordinal == all[k].payload.ordinal
        && AreNewest(later[i].input, Appended(all[..k + 1]), all[k].payload.messageCount) {
      if i < |earlier| {
        assert later[i] == later[..|earlier|][i];
        assert all[..at[i] + 1] == events[..at[i] + 1];
      }
    }
  }

  /** Every LLM span was asked with the newest messages of the session at its request, as many as the request says. */
  lemma {:induction false} InputsAreNewest(events: seq<Event>, t: TurnId)
    ensures InputsMatch(TurnAfter(events, t).llm, events, t)
  {
    hide TurnStep, Derive, InputsMatch, Requests, Appended, SameInputs, AreNewest;
    if events == [] {
      NoInputs(t);
    } else {
      var init, last := events[..|events| - 1], events[|events| - 1];
      assert events == init + [last];
      InputsAreNewest(init, t);
      var turn, next := TurnAfter(init, t), TurnAfter(events, t);
      var names, history := Derive(events).toolNames, Derive(events).history;
      if last.turn != Some(t) {
        SameSpans(turn.llm);
        InputsStay(turn.llm, next.llm, init, last, t);
      } else if last.payload.CompletionRequested? {
        RequestAdds(turn, last, names, history);
        HistoryIsAppended(events);
        InputsGrow(turn.llm, next.llm, init, last, t);
      } else {
        if last.payload.MessageAppended? {
          MessageKeepsInputs(turn, last, names, history);
        } else {
          OthersKeep(turn, last, names, history);
        }
        InputsStay(turn.llm, next.llm, init, last, t);
      }
    }
  }

  lemma NoInputs(t: TurnId)
    ensures InputsMatch([], [], t)
  {
  }

  // ---- Outputs: messages go to the latest call under way ----

  predicate IsLatest(ordinals: set<nat>, o: nat) {
    o in ordinals && forall p :: p in ordinals ==> p <= o
  }

  /** The messages appended in the turn while this call was the latest under way. */
  function During(own: seq<Event>, ordinal: nat): seq<Message> {
    if own == [] then []
    else
      var init, last := own[..|own| - 1], own[|own| - 1];
      if last.payload.MessageAppended? && IsLatest(UnderWay(init), ordinal)
      then During(init, ordinal) + [last.payload.message] else During(init, ordinal)
  }

  /** The messages of a role appended in the turn while no call was under way. */
  function Between(own: seq<Event>, role: Role): seq<Message> {
    if own == [] then []
    else
      var init, last := own[..|own| - 1], own[|own| - 1];
      if last.payload.MessageAppended? && last.payload.message.role == role && UnderWay(init) == {}
      then Between(init, role) + [last.payload.message] else Between(init, role)
  }

  /** The turn's input starts with some call's input, or nothing, and goes on with what users said between calls. */
  ghost predicate InputIs(turn: Turn, said: seq<Message>) {
    exists seed ::
      turn.input == seed + said && (seed == [] || exists i :: 0 <= i < |turn.llm| && turn.llm[i].input == seed)
  }

  /** Each span's output is what was appended while its call was the latest under way. */
  predicate OutputsPlaced(llm: seq<LlmSpan>, own: seq<Event>) {
    forall i :: 0 <= i < |llm| ==> llm[i].output == During(own, llm[i].ordinal)
  }

  ghost predicate MessagesPlaced(turn: Turn, own: seq<Event>) {
    && OutputsPlaced(turn.llm, own)
    && turn.output == Between(own, Assistant) && InputIs(turn, Between(own, User))
  }

  predicate DistinctOrdinals(llm: seq<LlmSpan>) {
    forall i, j :: 0 <= i < j < |llm| ==> llm[i].ordinal != llm[j].ordinal
  }

  lemma MaxIsLatest(keys: set<nat>)
    requires keys != {}
    ensures IsLatest(keys, MaxKey(keys)) && forall o :: IsLatest(keys, o) ==> o == MaxKey(keys)
  {
    HasMax(keys);
  }

  lemma Snoc(own: seq<Event>, e: Event, ordinal: nat, role: Role)
    ensures During(own + [e], ordinal) == During(own, ordinal)
      + if e.payload.MessageAppended? && IsLatest(UnderWay(own), ordinal) then [e.payload.message] else []
    ensures Between(own + [e], role) == Between(own, role)
      + if e.payload.MessageAppended? && e.payload.message.role == role && UnderWay(own) == {}
        then [e.payload.message] else []
  {
    hide IsLatest, UnderWay;
    assert (own + [e])[..|own|] == own;
  }

  lemma InputKept(turn: Turn, next: Turn, said: seq<Message>)
    requires InputIs(turn, said) && next.input == turn.input && SameInputs(turn.llm, next.llm)
    ensures InputIs(next, said)
  {
    var seed :|
      turn.input == seed + said && (seed == [] || exists i :: 0 <= i < |turn.llm| && turn.llm[i].input == seed);
    if seed != [] {
      var i :| 0 <= i < |turn.llm| && turn.llm[i].input == seed;
      assert next.llm[i].input == seed;
    }
  }

  lemma InputSaid(turn: Turn, next: Turn, said: seq<Message>, m: Message)
    requires InputIs(turn, said) && next.input == turn.input + [m] && next.llm == turn.llm
    ensures InputIs(next, said + [m])
  {
    var seed :|
      turn.input == seed + said && (seed == [] || exists i :: 0 <= i < |turn.llm| && turn.llm[i].input == seed);
    assert next.input == seed + (said + [m]);
  }

  lemma OutputsStay(earlier: seq<LlmSpan>, later: seq<LlmSpan>, own: seq<Event>, e: Event)
    requires OutputsPlaced(earlier, own) && SameInputs(earlier, later) && SameOutputs(earlier, later)
    requires !e.payload.MessageAppended? || UnderWay(own) == {}
    ensures OutputsPlaced(later, own + [e])
  {
    hide During, UnderWay;
    forall i | 0 <= i < |later| ensures later[i].output == During(own + [e], later[i].ordinal) {
      Snoc(own, e, later[i].ordinal, User);
    }
  }

  lemma OthersPlace(turn: Turn, e: Event, names: map<string, string>, history: seq<Message>, own: seq<Event>)
    requires MessagesPlaced(turn, own) && !e.payload.MessageAppended? && !e.payload.CompletionRequested?
    ensures MessagesPlaced(TurnStep(turn, e, names, history), own + [e])
  {
    OthersKeep(turn, e, names, history);
    hide During, Between, TurnStep, InputIs, SameInputs, SameOutputs, UnderWay;
    assert OutputsPlaced(turn.llm, own);
    var next := TurnStep(turn, e, names, history);
    OutputsStay(turn.llm, next.llm, own, e);
    Snoc(own, e, 0, Assistant);
    Snoc(own, e, 0, User);
    InputKept(turn, next, Between(own, User));
  }

  lemma IdleStep(turn: Turn, e: Event, names: map<string, string>, history: seq<Message>)
    requires e.payload.MessageAppended? && turn.activeLlm.Keys == {}
    ensures var m, next := e.payload.message, TurnStep(turn, e, names, history);
      && next.llm == turn.llm && next.output == turn.output + (if m.role == Assistant then [m] else [])
      && next.input == turn.input + if m.role == User then [m] else []
  {
    hide MaxKey;
  }

  lemma IdlePlaces(turn: Turn, e: Event, names: map<string, string>, history: seq<Message>, own: seq<Event>)
    requires MessagesPlaced(turn, own) && e.payload.MessageAppended?
    requires turn.activeLlm.Keys == UnderWay(own) == {}
    ensures MessagesPlaced(TurnStep(turn, e, names, history), own + [e])
  {
    IdleStep(turn, e, names, history);
    hide During, Between, TurnStep, InputIs, UnderWay, SameInputs, SameOutputs;
    var m, next := e.payload.message, TurnStep(turn, e, names, history);
    SameSpans(turn.llm);
    assert OutputsPlaced(turn.llm, own);
    OutputsStay(turn.llm, next.llm, own, e);
    Snoc(own, e, 0, Assistant);
    Snoc(own, e, 0, User);
    if m.role == User {
      InputSaid(turn, next, Between(own, User), m);
    } else {
      InputKept(turn, next, Between(own, User));
    }
  }

  lemma BusyStep(turn: Turn, e: Event, names: map<string, string>, history: seq<Message>) returns (i: nat)
    requires e.payload.MessageAppended? && turn.activeLlm.Keys != {} && ActiveOk(turn)
    ensures i < |turn.llm| && turn.llm[i].ordinal == MaxKey(turn.activeLlm.Keys)
    ensures var m, next := e.payload.message, TurnStep(turn, e, names, history);
      && next.llm == turn.llm[i := turn.llm[i].(output := turn.llm[i].output + [m])]
      && next.input == turn.input && next.output == turn.output
  {
    hide MaxKey;
    i := turn.activeLlm[MaxKey(turn.activeLlm.Keys)];
  }

  lemma BusyPlaces(turn: Turn, e: Event, names: map<string, string>, history: seq<Message>, own: seq<Event>)
    requires MessagesPlaced(turn, own) && e.payload.MessageAppended? && ActiveOk(turn) && DistinctOrdinals(turn.llm)
    requires turn.activeLlm.Keys == UnderWay(own) != {}
    ensures MessagesPlaced(TurnStep(turn, e, names, history), own + [e])
  {
    var k := BusyStep(turn, e, names, history);
    MessageKeepsInputs(turn, e, names, history);
    MaxIsLatest(UnderWay(own));
    hide During, Between, TurnStep, InputIs, UnderWay, SameInputs, MaxKey, IsLatest, ActiveOk;
    var next := TurnStep(turn, e, names, history);
    forall i | 0 <= i < |next.llm| ensures next.llm[i].output == During(own + [e], next.llm[i].ordinal) {
      Snoc(own, e, turn.llm[i].ordinal, User);
      assert i != k ==> turn.llm[i].ordinal != turn.llm[k].ordinal;
    }
    Snoc(own, e, 0, Assistant);
    Snoc(own, e, 0, User);
    InputKept(turn, next, Between(own, User));
  }

  /** A call that was never named has no messages. */
  lemma {:induction false} DuringIsNamed(own: seq<Event>, ordinal: nat)
    requires CallEvents(own, ordinal) == []
    ensures During(own, ordinal) == [] && ordinal !in UnderWay(own)
  {
    if own != [] {
      hide MaxKey;
      DuringIsNamed(own[..|own| - 1], ordinal);
    }
  }

  lemma RequestPlaces(turn: Turn, e: Event, names: map<string, string>, history: seq<Message>, own: seq<Event>)
    requires MessagesPlaced(turn, own) && e.payload.CompletionRequested? && CallEvents(own, e.payload.ordinal) == []
    ensures MessagesPlaced(TurnStep(turn, e, names, history), own + [e])
  {
    hide During, Between, TurnStep, AreNewest, InputIs, UnderWay, CallEvents, IsLatest;
    DuringIsNamed(own, e.payload.ordinal);
    RequestAdds(turn, e, names, history);
    RequestSeeds(turn, e, names, history);
    var next := TurnStep(turn, e, names, history);
    assert OutputsPlaced(turn.llm, own);
    RequestOutputs(turn.llm, next.llm, own, e);
    Snoc(own, e, 0, Assistant);
    Snoc(own, e, 0, User);
    InputSeeded(turn, next, Between(own, User));
    assert Between(own + [e], User) == Between(own, User);
  }

  lemma RequestOutputs(earlier: seq<LlmSpan>, later: seq<LlmSpan>, own: seq<Event>, e: Event)
    requires OutputsPlaced(earlier, own) && !e.payload.MessageAppended?
    requires |later| == |earlier| + 1 && later[..|earlier|] == earlier
    requires later[|earlier|].output == [] == During(own, later[|earlier|].ordinal)
    ensures OutputsPlaced(later, own + [e])
  {
    hide During, UnderWay, IsLatest;
    forall i | 0 <= i < |later| ensures later[i].output == During(own + [e], later[i].ordinal) {
      Snoc(own, e, later[i].ordinal, User);
      if i < |earlier| { assert later[i] == later[..|earlier|][i]; }
    }
  }

  lemma RequestSeeds(turn: Turn, e: Event, names: map<string, string>, history: seq<Message>)
    requires e.payload.CompletionRequested?
    ensures var next := TurnStep(turn, e, names, history);
      && |next.llm| == |turn.llm| + 1 && next.output == turn.output
      && next.input == if turn.input == [] then next.llm[|turn.llm|].input else turn.input
  {
    hide TrailingMessages;
  }

  lemma InputSeeded(turn: Turn, next: Turn, said: seq<Message>)
    requires InputIs(turn, said) && |next.llm| == |turn.llm| + 1 && next.llm[..|turn.llm|] == turn.llm
    requires next.input == if turn.input == [] then next.llm[|turn.llm|].input else turn.input
    ensures InputIs(next, said)
  {
    var n := |turn.llm|;
    var seed :| turn.input == seed + said && (seed == [] || exists i :: 0 <= i < n && turn.llm[i].input == seed);
    if turn.input == [] {
      assert next.input == next.llm[n].input + said;
    } else if seed != [] {
      var i :| 0 <= i < n && turn.llm[i].input == seed;
      assert next.llm[i] == next.llm[..n][i];
    }
  }

  lemma NothingPlaced()
    ensures MessagesPlaced(NEW_TURN, [])
  {
    assert NEW_TURN.input == [] + Between([], User);
  }

  /**
   * In a turn whose requests use new ordinals, and whose chunks and finishes name
   * a call under way, each message goes to the latest call under way; with none
   * under way, assistant messages are the turn's output and user messages its input.
   */
  lemma {:induction false} MessagesFindTheirSpan(events: seq<Event>, t: TurnId)
    requires Orderly(EventsOf(events, t))
    ensures MessagesPlaced(TurnAfter(events, t), EventsOf(events, t))
  {
    hide TurnStep, Derive, ActiveOk, ToolsOk, AllTold, UnderWay, MessagesPlaced, CallEvents, During, Between;
    if events == [] {
      NothingPlaced();
    } else {
      var init, last := events[..|events| - 1], events[|events| - 1];
      if last.turn == Some(t) {
        var own := EventsOf(init, t);
        assert (own + [last])[..|own|] == own;
        MessagesFindTheirSpan(init, t);
        TurnInvariant(init, t);
        LlmSpansFilterByOrdinal(init, t);
        ActiveIsUnderWay(init, t);
        var names, history := Derive(events).toolNames, Derive(events).history;
        if last.payload.CompletionRequested? {
          RequestPlaces(TurnAfter(init, t), last, names, history, own);
        } else if !last.payload.MessageAppended? {
          OthersPlace(TurnAfter(init, t), last, names, history, own);
        } else if UnderWay(own) == {} {
          IdlePlaces(TurnAfter(init, t), last, names, history, own);
        } else {
          BusyPlaces(TurnAfter(init, t), last, names, history, own);
        }
      } else {
        MessagesFindTheirSpan(init, t);
      }
    }
  }

  // ---- Names of tool spans ----

  /** The name a call was last requested under in any turn, or the given one when it never was. */
  function RequestedName(events: seq<Event>, id: string, otherwise: string): string {
    if events == [] then otherwise
    else
      var last := events[|events| - 1];
      if last.turn.Some? && last.payload.ToolEvent? && last.payload.boundary.CallRequested? && last.payload.callId == id
      then last.payload.toolName else RequestedName(events[..|events| - 1], id, otherwise)
  }

  lemma {:induction false} NamesAreRequested(events: seq<Event>, id: string, otherwise: string)
    ensures var names := Derive(events).toolNames;
      (if id in names then names[id] else otherwise) == RequestedName(events, id, otherwise)
  {
    hide TurnStep;
    if events != [] { NamesAreRequested(events[..|events| - 1], id, otherwise); }
  }

  /** What the session says of a call at its first event in this turn. */
  function FirstName(events: seq<Event>, t: TurnId, id: string): Option<string> {
    if events == [] then None
    else
      var before, last := FirstName(events[..|events| - 1], t, id), events[|events| - 1];
      if before.Some? || last.turn != Some(t) || !last.payload.ToolEvent? || last.payload.callId != id then before
      else Some(RequestedName(events, id, last.payload.toolName))
  }

  ghost predicate NamesMatch(turn: Turn, events: seq<Event>, t: TurnId) {
    && (forall i :: 0 <= i < |turn.tools| ==>
          FirstName(events, t, turn.tools[i].callId) == Some(turn.tools[i].toolName))
    && (forall id :: FirstName(events, t, id).Some? <==> id in turn.activeTool)
  }

  lemma OthersKeepTools(turn: Turn, e: Event, names: map<string, string>, history: seq<Message>)
    requires !e.payload.ToolEvent?
    ensures var next := TurnStep(turn, e, names, history);
      next.tools == turn.tools && next.activeTool == turn.activeTool
  {
    hide LatestActive, ResolveActive, MaxKey;
  }

  lemma ToolNameStep(turn: Turn, e: Event, id: string, name: string)
    requires forall i :: 0 <= i < |turn.tools| ==> turn.tools[i].callId in turn.activeTool
    ensures var next := ToolStep(turn, e, id, name);
      && next.activeTool.Keys == turn.activeTool.Keys + {id}
      && |turn.tools| <= |next.tools|
      && (forall i :: 0 <= i < |turn.tools| ==>
            next.tools[i].callId == turn.tools[i].callId && next.tools[i].toolName == turn.tools[i].toolName)
      && (forall i :: |turn.tools| <= i < |next.tools| ==>
            id !in turn.activeTool && next.tools[i].callId == id && next.tools[i].toolName == name)
  {
  }

  /** A tool span bears the name its call was last requested under by its first event, else that event's own. */
  lemma {:induction false} ToolNamesAreRequested(events: seq<Event>, t: TurnId)
    ensures NamesMatch(TurnAfter(events, t), events, t)
  {
    hide TurnStep, Derive, ToolStep, RequestedName;
    if events != [] {
      var init, last := events[..|events| - 1], events[|events| - 1];
      ToolNamesAreRequested(init, t);
      if last.turn == Some(t) {
        var turn := TurnAfter(init, t);
        var names, history := Derive(events).toolNames, Derive(events).history;
        if last.payload.ToolEvent? {
          var id := last.payload.callId;
          NamesAreRequested(events, id, last.payload.toolName);
          ToolStepIs(turn, last, names, history);
          forall i | 0 <= i < |turn.tools| ensures turn.tools[i].callId in turn.activeTool {
            assert FirstName(init, t, turn.tools[i].callId).Some?;
          }
          ToolNameStep(Noted(turn, last), last, id, if id in names then names[id] else last.payload.toolName);
        } else {
          OthersKeepTools(turn, last, names, history);
        }
      }
    }
  }

  lemma ToolStepIs(turn: Turn, e: Event, names: map<string, string>, history: seq<Message>)
    requires e.payload.ToolEvent?
    ensures var id := e.payload.callId;
      TurnStep(turn, e, names, history)
      == ToolStep(Noted(turn, e), e, id, if id in names then names[id] else e.payload.toolName)
  {
    hide ToolStep;
  }

  // ---- Where a turn starts and ends ----

  /** The time of the turn's last start event, or of its first event when it has none. */
  function StartOf(own: seq<Event>): Option<Time> {
    if own == [] then None
    else
      var before, last := StartOf(own[..|own| - 1]), own[|own| - 1];
      if last.payload.TurnStarted? || before.None? then Some(last.at) else before
  }

  lemma StepTimes(turn: Turn, e: Event, names: map<string, string>, history: seq<Message>)
    ensures var next := TurnStep(turn, e, names, history);
      && next.start == (if e.payload.TurnStarted? || turn.start.None? then Some(e.at) else turn.start)
      && next.end == Some(e.at)
  {
    hide LatestActive, ResolveActive, MaxKey, TrailingMessages;
  }

  /** A turn starts where it says it starts, and ends with its last event. */
  lemma {:induction false} TurnTimes(events: seq<Event>, t: TurnId)
    ensures var turn, own := TurnAfter(events, t), EventsOf(events, t);
      && turn.start == StartOf(own)
      && turn.end == (if own == [] then None else Some(own[|own| - 1].at))
  {
    hide TurnStep, Derive;
    if events != [] {
      var init, last := events[..|events| - 1], events[|events| - 1];
      TurnTimes(init, t);
      if last.turn == Some(t) {
        var own := EventsOf(init, t);
        assert (own + [last])[..|own|] == own;
        StepTimes(TurnAfter(init, t), last, Derive(events).toolNames, Derive(events).history);
      }
    }
  }
}
