/** Accumulating streamed deltas into message parts and tool calls (bt-agent, `collect_response`). */
module ToolCallStream {
  import opened Wrappers
  import opened Text
  import opened Messages

  datatype Delta =
    | AppendText(text: string)
    | AppendReasoning(thought: Option<string>, redacted: bool, replay: Option<string>)
    | AppendRefusal(refusal: Option<string>, reason: Option<string>, metadata: Option<string>)
    | SetStructuredOutput(schema: Option<string>, value: string)
    | OpenToolCall(openId: string, toolName: string, initial: Option<string>)
    | AppendToolCallArguments(appendId: string, partial: string)
    | CloseToolCall(closeId: string)

  datatype Accumulator = Accumulator(callId: string, toolName: string, initial: Option<string>, partial: string)

  /** Raw argument text: what streamed in, else the initial value, else the empty object. Parsing it is left out. */
  datatype Arguments = Streamed(text: string) | Initial(value: string) | EmptyObject

  datatype CompletedCall = CompletedCall(callId: string, toolName: string, arguments: Arguments)

  datatype Error = AppendBeforeOpen(id: string) | CloseBeforeOpen(id: string) | MissingId | MissingName

  datatype Stream = Stream(parts: seq<Part>, open: seq<Accumulator>, done: seq<CompletedCall>)

  datatype Collected = Collected(parts: seq<Part>, calls: seq<CompletedCall>)

  function Position(open: seq<Accumulator>, id: string): (i: nat)
    ensures i <= |open| && (i < |open| ==> open[i].callId == id)
    ensures forall k :: 0 <= k < i ==> open[k].callId != id
  {
    if open == [] || open[0].callId == id then 0 else 1 + Position(open[1..], id)
  }

  function Finalize(a: Accumulator): Result<CompletedCall, Error> {
    if Trim(a.callId) == "" then Err(MissingId)
    else if Trim(a.toolName) == "" then Err(MissingName)
    else Ok(CompletedCall(a.callId, a.toolName,
              if Trim(a.partial) != "" then Streamed(a.partial)
              else match a.initial case Some(v) => Initial(v) case None => EmptyObject))
  }

  function OpenCall(open: seq<Accumulator>, id: string, name: string, initial: Option<string>): seq<Accumulator> {
    var i := Position(open, id);
    if i < |open|
    then open[i := open[i].(toolName := name, initial := if initial.Some? then initial else open[i].initial)]
    else open + [Accumulator(id, name, initial, "")]
  }

  function AppendArguments(open: seq<Accumulator>, id: string, partial: string): Result<seq<Accumulator>, Error> {
    var i := Position(open, id);
    if i < |open| then Ok(open[i := open[i].(partial := open[i].partial + partial)]) else Err(AppendBeforeOpen(id))
  }

  function CloseCall(open: seq<Accumulator>, id: string): Result<(seq<Accumulator>, CompletedCall), Error> {
    var i := Position(open, id);
    if i == |open| then Err(CloseBeforeOpen(id))
    else match Finalize(open[i])
      case Ok(call) => Ok((open[..i] + open[i + 1..], call))
      case Err(e) => Err(e)
  }

  function Step(s: Stream, delta: Delta): Result<Stream, Error> {
    match delta
    case AppendText(text) => Ok(s.(parts := Push(s.parts, Part.Text(text))))
    case AppendReasoning(t, r, p) => Ok(s.(parts := Push(s.parts, Reasoning(t, r, p))))
    case AppendRefusal(t, r, m) => Ok(s.(parts := Push(s.parts, Refusal(t, r, m))))
    case SetStructuredOutput(schema, value) => Ok(s.(parts := s.parts + [Structured(schema, value)]))
    case OpenToolCall(id, name, initial) => Ok(s.(open := OpenCall(s.open, id, name, initial)))
    case AppendToolCallArguments(id, partial) =>
      (match AppendArguments(s.open, id, partial) case Ok(open) => Ok(s.(open := open)) case Err(e) => Err(e))
    case CloseToolCall(id) =>
      match CloseCall(s.open, id) case Ok(r) => Ok(s.(open := r.0, done := s.done + [r.1])) case Err(e) => Err(e)
  }

  function Run(s: Stream, deltas: seq<Delta>): Result<Stream, Error>
    decreases |deltas|
  {
    if deltas == [] then Ok(s)
    else match Step(s, deltas[0]) case Ok(next) => Run(next, deltas[1..]) case Err(e) => Err(e)
  }

  /** Calls never closed are completed at the end, in the order they were opened. */
  function FinishOpen(open: seq<Accumulator>): Result<seq<CompletedCall>, Error> {
    if open == [] then Ok([])
    else match Finalize(open[0])
      case Err(e) => Err(e)
      case Ok(call) => match FinishOpen(open[1..]) case Ok(rest) => Ok([call] + rest) case Err(e) => Err(e)
  }

  const START := Stream([], [], [])

  function Collect(deltas: seq<Delta>): Result<Collected, Error> {
    Finish(Run(START, deltas))
  }

  function Finish(streamed: Result<Stream, Error>): Result<Collected, Error> {
    match streamed
    case Err(e) => Err(e)
    case Ok(s) => match FinishOpen(s.open) case Ok(rest) => Ok(Collected(s.parts, s.done + rest)) case Err(e) => Err(e)
  }

  function Deltas(chunks: seq<seq<Delta>>): seq<Delta> {
    if chunks == [] then [] else chunks[0] + Deltas(chunks[1..])
  }

  /** The loop over chunks and deltas; only the concatenation of the chunks matters. */
  method CollectResponse(chunks: seq<seq<Delta>>) returns (result: Result<Collected, Error>)
    ensures result == Collect(Deltas(chunks))
  {
    hide Step, FinishOpen, Finalize;
    var s := START;
    assert chunks[0..] == chunks;
    for c := 0 to |chunks|
      invariant Run(START, Deltas(chunks)) == Run(s, Deltas(chunks[c..]))
    {
      assert chunks[c..][1..] == chunks[c + 1..];
      RunConcat(s, chunks[c], Deltas(chunks[c + 1..]));
      ghost var entry := s;
      assert chunks[c][0..] == chunks[c];
      for d := 0 to |chunks[c]|
        invariant Run(entry, chunks[c]) == Run(s, chunks[c][d..])
      {
        assert chunks[c][d..][1..] == chunks[c][d + 1..];
        match Step(s, chunks[c][d]) {
          case Ok(next) => s := next;
          case Err(e) => return Err(e);
        }
      }
      assert chunks[c][|chunks[c]|..] == [];
    }
    assert chunks[|chunks|..] == [];
    match FinishOpen(s.open) {
      case Ok(rest) => return Ok(Collected(s.parts, s.done + rest));
      case Err(e) => return Err(e);
    }
  }

  lemma {:induction false} RunConcat(s: Stream, a: seq<Delta>, b: seq<Delta>)
    ensures Run(s, a + b) == if Run(s, a).Ok? then Run(Run(s, a).value, b) else Run(s, a)
    decreases |a|
  {
    hide Step;
    if a == [] {
      assert a + b == b;
    } else {
      assert (a + b)[1..] == a[1..] + b;
      match Step(s, a[0]) {
        case Ok(next) => RunConcat(next, a[1..], b);
        case Err(_) =>
      }
    }
  }

  // ---- One call's deltas decide that call ----

  predicate Concerns(delta: Delta, id: string) {
    match delta
    case OpenToolCall(i, _, _) => i == id
    case AppendToolCallArguments(i, _) => i == id
    case CloseToolCall(i) => i == id
    case _ => false
  }

  function DeltasFor(deltas: seq<Delta>, id: string): seq<Delta> {
    if deltas == [] then []
    else if Concerns(deltas[0], id) then [deltas[0]] + DeltasFor(deltas[1..], id)
    else DeltasFor(deltas[1..], id)
  }

  function OpenFor(open: seq<Accumulator>, id: string): seq<Accumulator> {
    if open == [] then []
    else if open[0].callId == id then [open[0]] + OpenFor(open[1..], id)
    else OpenFor(open[1..], id)
  }

  function CallsFor(calls: seq<CompletedCall>, id: string): seq<CompletedCall> {
    if calls == [] then []
    else if calls[0].callId == id then [calls[0]] + CallsFor(calls[1..], id)
    else CallsFor(calls[1..], id)
  }

  /** The stream as one call id sees it. */
  function View(s: Stream, id: string): Stream {
    Stream([], OpenFor(s.open, id), CallsFor(s.done, id))
  }

  lemma {:induction false} OpenForConcat(a: seq<Accumulator>, b: seq<Accumulator>, id: string)
    ensures OpenFor(a + b, id) == OpenFor(a, id) + OpenFor(b, id)
  {
    if a == [] {
      assert a + b == b;
    } else {
      assert (a + b)[1..] == a[1..] + b;
      OpenForConcat(a[1..], b, id);
    }
  }

  lemma {:induction false} CallsForConcat(a: seq<CompletedCall>, b: seq<CompletedCall>, id: string)
    ensures CallsFor(a + b, id) == CallsFor(a, id) + CallsFor(b, id)
  {
    if a == [] {
      assert a + b == b;
    } else {
      assert (a + b)[1..] == a[1..] + b;
      CallsForConcat(a[1..], b, id);
    }
  }

  lemma {:induction false} OpenForNone(open: seq<Accumulator>, id: string)
    requires forall a :: a in open ==> a.callId != id
    ensures OpenFor(open, id) == []
  {
    if open != [] { OpenForNone(open[1..], id); }
  }

  /** Replacing or removing the first accumulator of `at`, as `id` sees it. */
  lemma SeenAt(open: seq<Accumulator>, at: string, a: Accumulator, id: string)
    requires Position(open, at) < |open| && a.callId == at
    ensures var i := Position(open, at); var rest := OpenFor(open[i + 1..], at);
      && OpenFor(open, at) == [open[i]] + rest
      && OpenFor(open[i := a], at) == [a] + rest
      && OpenFor(open[..i] + open[i + 1..], at) == rest
      && (id != at ==> OpenFor(open[i := a], id) == OpenFor(open, id) == OpenFor(open[..i] + open[i + 1..], id))
  {
    hide Position;
    var i := Position(open, at);
    var front, back := open[..i], open[i + 1..];
    OpenForNone(front, at);
    SeenParts(front, open[i], back, at);
    SeenParts(front, a, back, at);
    SeenParts(front, open[i], back, id);
    SeenParts(front, a, back, id);
    assert open == front + [open[i]] + back && open[i := a] == front + [a] + back;
  }

  lemma SeenParts(front: seq<Accumulator>, a: Accumulator, back: seq<Accumulator>, id: string)
    ensures OpenFor(front + [a] + back, id)
         == OpenFor(front, id) + (if a.callId == id then [a] else []) + OpenFor(back, id)
    ensures OpenFor(front + back, id) == OpenFor(front, id) + OpenFor(back, id)
  {
    OpenForConcat(front + [a], back, id);
    OpenForConcat(front, [a], id);
    OpenForConcat(front, back, id);
    assert [a][1..] == [];
  }

  lemma {:induction false} NotOpen(open: seq<Accumulator>, id: string)
    requires Position(open, id) == |open|
    ensures OpenFor(open, id) == []
  {
    OpenForNone(open, id);
  }

  /** Every open call is open once. */
  predicate DistinctOpen(open: seq<Accumulator>) {
    forall i, j :: 0 <= i < j < |open| ==> open[i].callId != open[j].callId
  }

  lemma StepKeepsDistinct(s: Stream, delta: Delta)
    requires DistinctOpen(s.open) && Step(s, delta).Ok?
    ensures DistinctOpen(Step(s, delta).value.open)
  {
    hide Position, Finalize, Push;
  }

  lemma ViewOfOpen(open: seq<Accumulator>, at: string, name: string, initial: Option<string>, id: string)
    ensures OpenFor(OpenCall(open, at, name, initial), id)
         == if at == id then OpenCall(OpenFor(open, id), id, name, initial) else OpenFor(open, id)
  {
    hide Position, OpenFor;
    var i := Position(open, at);
    if i < |open| {
      var a := open[i].(toolName := name, initial := if initial.Some? then initial else open[i].initial);
      SeenAt(open, at, a, id);
      FirstIsFirst(OpenFor(open, at), at);
    } else {
      var added := Accumulator(at, name, initial, "");
      NotOpen(open, at);
      SeenParts(open, added, [], id);
      assert open + [added] + [] == open + [added];
      NothingOpen(id);
    }
  }

  lemma NothingOpen(id: string)
    ensures OpenFor([], id) == [] && Position([], id) == 0
  {
  }

  lemma FirstIsFirst(open: seq<Accumulator>, id: string)
    ensures open != [] && open[0].callId == id ==> Position(open, id) == 0
  {
  }

  lemma ViewOfAppend(open: seq<Accumulator>, at: string, partial: string, id: string)
    ensures var after := AppendArguments(open, at, partial);
      && (at != id && after.Ok? ==> OpenFor(after.value, id) == OpenFor(open, id))
      && (at == id ==> (AppendArguments(OpenFor(open, id), id, partial)
                        == if after.Ok? then Ok(OpenFor(after.value, id)) else Err(after.error)))
  {
    hide Position, OpenFor;
    var i := Position(open, at);
    if i < |open| {
      var longer := open[i].(partial := open[i].partial + partial);
      SeenAt(open, at, longer, id);
      FirstIsFirst(OpenFor(open, at), at);
      assert OpenFor(open, at)[0 := longer] == OpenFor(open[i := longer], at);
    } else {
      NotOpen(open, at);
    }
  }

  lemma {:induction false} ViewOfClose(open: seq<Accumulator>, at: string, id: string)
    ensures var after := CloseCall(open, at);
      && (after.Ok? ==> after.value.1.callId == at)
      && (at != id && after.Ok? ==> OpenFor(after.value.0, id) == OpenFor(open, id))
      && (at == id ==> (CloseCall(OpenFor(open, id), id)
                        == if after.Ok? then Ok((OpenFor(after.value.0, id), after.value.1)) else Err(after.error)))
  {
    hide Position, OpenFor, Trim;
    var i := Position(open, at);
    if i < |open| {
      SeenAt(open, at, open[i], id);
      FirstIsFirst(OpenFor(open, at), at);
      var seen := OpenFor(open, at);
      assert seen[..0] + seen[1..] == seen[1..];
    } else {
      NotOpen(open, at);
    }
  }

  /** A step seen by one id: its own deltas act on its view, other deltas leave it alone. */
  lemma StepInView(s: Stream, delta: Delta, id: string)
    ensures Concerns(delta, id) ==>
      Step(View(s, id), delta)
      == if Step(s, delta).Ok? then Ok(View(Step(s, delta).value, id)) else Err(Step(s, delta).error)
    ensures !Concerns(delta, id) && Step(s, delta).Ok? ==> View(Step(s, delta).value, id) == View(s, id)
  {
    hide OpenCall, AppendArguments, CloseCall, OpenFor, Push;
    match delta {
      case OpenToolCall(at, name, initial) => ViewOfOpen(s.open, at, name, initial, id);
      case AppendToolCallArguments(at, partial) => ViewOfAppend(s.open, at, partial, id);
      case CloseToolCall(at) =>
        ViewOfClose(s.open, at, id);
        if CloseCall(s.open, at).Ok? {
          var call := CloseCall(s.open, at).value.1;
          CallsForConcat(s.done, [call], id);
          OneCallFor(call, id);
        }
      case _ =>
    }
  }

  lemma OneCallFor(call: CompletedCall, id: string)
    ensures CallsFor([call], id) == if call.callId == id then [call] else []
  {
    assert [call][1..] == [];
  }

  function Owner(delta: Delta): string {
    match delta
    case OpenToolCall(i, _, _) => i
    case AppendToolCallArguments(i, _) => i
    case CloseToolCall(i) => i
    case _ => ""
  }

  lemma {:induction false} RunInView(s: Stream, deltas: seq<Delta>, id: string)
    requires Run(s, deltas).Ok?
    ensures Run(View(s, id), DeltasFor(deltas, id)) == Ok(View(Run(s, deltas).value, id))
    decreases |deltas|
  {
    hide Step, View, Concerns;
    if deltas != [] {
      var next := Step(s, deltas[0]).value;
      StepInView(s, deltas[0], id);
      RunInView(next, deltas[1..], id);
      if Concerns(deltas[0], id) {
        assert DeltasFor(deltas, id)[1..] == DeltasFor(deltas[1..], id);
      }
    }
  }

  lemma FailedStep(s: Stream, delta: Delta)
    requires Step(s, delta).Err?
    ensures Concerns(delta, Owner(delta))
  {
  }

  lemma {:induction false} RunFailsInView(s: Stream, deltas: seq<Delta>) returns (id: string)
    requires Run(s, deltas).Err?
    ensures Run(View(s, id), DeltasFor(deltas, id)).Err?
    decreases |deltas|
  {
    hide Step, View, Concerns;
    if Step(s, deltas[0]).Err? {
      id := Owner(deltas[0]);
      FailedStep(s, deltas[0]);
      StepInView(s, deltas[0], id);
    } else {
      id := RunFailsInView(Step(s, deltas[0]).value, deltas[1..]);
      StepInView(s, deltas[0], id);
      if Concerns(deltas[0], id) {
        assert DeltasFor(deltas, id)[1..] == DeltasFor(deltas[1..], id);
      }
    }
  }

  lemma {:induction false} FinishInView(open: seq<Accumulator>, id: string)
    requires FinishOpen(open).Ok?
    ensures FinishOpen(OpenFor(open, id)) == Ok(CallsFor(FinishOpen(open).value, id))
  {
    hide Trim;
    if open != [] {
      FinishInView(open[1..], id);
      var call, rest := Finalize(open[0]).value, FinishOpen(open[1..]).value;
      assert ([call] + rest)[1..] == rest;
      if open[0].callId == id {
        assert OpenFor(open, id)[1..] == OpenFor(open[1..], id);
      }
    }
  }

  lemma {:induction false} FinishFailsInView(open: seq<Accumulator>) returns (id: string)
    requires FinishOpen(open).Err?
    ensures FinishOpen(OpenFor(open, id)).Err?
  {
    hide Finalize;
    if Finalize(open[0]).Err? {
      id := open[0].callId;
    } else {
      id := FinishFailsInView(open[1..]);
      if open[0].callId == id {
        assert OpenFor(open, id)[1..] == OpenFor(open[1..], id);
      }
    }
  }

  /**
   * Interleaving does not matter: the calls completed for an id are those its
   * own deltas complete on their own, and the response fails iff the deltas of
   * some single id fail.
   */
  lemma CallsAreIndependent(deltas: seq<Delta>)
    ensures Collect(deltas).Ok? <==> forall id :: Collect(DeltasFor(deltas, id)).Ok?
    ensures Collect(deltas).Ok? ==> forall id ::
      CallsFor(Collect(deltas).value.calls, id) == Collect(DeltasFor(deltas, id)).value.calls
  {
    hide Run, FinishOpen, DeltasFor;
    forall id ensures View(START, id) == START { StartView(id); }
    if Run(START, deltas).Err? {
      var id := RunFailsInView(START, deltas);
      assert Collect(DeltasFor(deltas, id)).Err?;
    } else {
      var s := Run(START, deltas).value;
      forall id ensures Run(START, DeltasFor(deltas, id)) == Ok(View(s, id)) { RunInView(START, deltas, id); }
      if FinishOpen(s.open).Err? {
        var id := FinishFailsInView(s.open);
        assert Collect(DeltasFor(deltas, id)).Err?;
      } else {
        forall id
          ensures Collect(DeltasFor(deltas, id)) == Ok(Collected([], CallsFor(Collect(deltas).value.calls, id))) {
          FinishInView(s.open, id);
          CallsForConcat(s.done, FinishOpen(s.open).value, id);
        }
      }
    }
  }

  lemma StartView(id: string)
    ensures View(START, id) == START
  {
  }

  // ---- Order and number of completed calls ----

  function ClosedIds(deltas: seq<Delta>): seq<string> {
    if deltas == [] then []
    else (if deltas[0].CloseToolCall? then [deltas[0].closeId] else []) + ClosedIds(deltas[1..])
  }

  function OpenIds(open: seq<Accumulator>): seq<string> {
    seq(|open|, i requires 0 <= i < |open| => open[i].callId)
  }

  function CallIdsOf(calls: seq<CompletedCall>): seq<string> {
    seq(|calls|, i requires 0 <= i < |calls| => calls[i].callId)
  }

  lemma StepOrder(s: Stream, delta: Delta)
    requires Step(s, delta).Ok?
    ensures CallIdsOf(Step(s, delta).value.done)
         == CallIdsOf(s.done) + (if delta.CloseToolCall? then [delta.closeId] else [])
  {
    hide Trim, Push, Position;
  }

  lemma {:induction false} RunOrder(s: Stream, deltas: seq<Delta>)
    requires Run(s, deltas).Ok? && DistinctOpen(s.open)
    ensures CallIdsOf(Run(s, deltas).value.done) == CallIdsOf(s.done) + ClosedIds(deltas)
    ensures DistinctOpen(Run(s, deltas).value.open)
    decreases |deltas|
  {
    hide Step, CallIdsOf, DistinctOpen;
    if deltas != [] {
      StepOrder(s, deltas[0]);
      StepKeepsDistinct(s, deltas[0]);
      RunOrder(Step(s, deltas[0]).value, deltas[1..]);
    }
  }

  lemma {:induction false} FinishOrder(open: seq<Accumulator>)
    requires FinishOpen(open).Ok?
    ensures CallIdsOf(FinishOpen(open).value) == OpenIds(open)
  {
    hide Finalize;
    if open != [] {
      FinishOrder(open[1..]);
      FinalizeKeepsId(open[0]);
      var rest := FinishOpen(open[1..]).value;
      assert |rest| == |CallIdsOf(rest)| == |open| - 1;
      assert forall i :: 0 <= i < |rest| ==> rest[i].callId == CallIdsOf(rest)[i] == OpenIds(open[1..])[i];
    }
  }

  lemma FinalizeKeepsId(a: Accumulator)
    requires Finalize(a).Ok?
    ensures Finalize(a).value.callId == a.callId
  {
  }

  function Without(ids: seq<string>, id: string): seq<string> {
    if ids == [] then [] else if ids[0] == id then ids[1..] else [ids[0]] + Without(ids[1..], id)
  }

  /** The ids opened and not closed yet, in the order they were opened. */
  function Live(ids: seq<string>, deltas: seq<Delta>): seq<string>
    decreases |deltas|
  {
    if deltas == [] then ids
    else
      var next := match deltas[0]
        case OpenToolCall(id, _, _) => if id in ids then ids else ids + [id]
        case CloseToolCall(id) => Without(ids, id)
        case _ => ids;
      Live(next, deltas[1..])
  }

  lemma OpenKeepsLive(open: seq<Accumulator>, id: string, name: string, initial: Option<string>)
    ensures OpenIds(OpenCall(open, id, name, initial))
         == if id in OpenIds(open) then OpenIds(open) else OpenIds(open) + [id]
  {
    var i := Position(open, id);
    if i < |open| {
      assert OpenIds(open)[i] == id;
    } else {
      assert forall k :: 0 <= k < |open| ==> OpenIds(open)[k] == open[k].callId;
    }
  }

  lemma RemoveLater(open: seq<Accumulator>, i: nat)
    requires 0 < i < |open|
    ensures OpenIds(open[..i] + open[i + 1..]) == [open[0].callId] + OpenIds(open[1..][..i - 1] + open[1..][i..])
  {
  }

  lemma {:induction false} RemovesLive(open: seq<Accumulator>, id: string)
    requires Position(open, id) < |open|
    ensures var i := Position(open, id); OpenIds(open[..i] + open[i + 1..]) == Without(OpenIds(open), id)
  {
    var i := Position(open, id);
    assert OpenIds(open)[1..] == OpenIds(open[1..]);
    if i == 0 {
      assert open[..0] + open[1..] == open[1..];
    } else {
      RemoveLater(open, i);
      hide OpenIds;
      RemovesLive(open[1..], id);
    }
  }

  lemma AppendKeepsLive(open: seq<Accumulator>, id: string, partial: string)
    requires AppendArguments(open, id, partial).Ok?
    ensures OpenIds(AppendArguments(open, id, partial).value) == OpenIds(open)
  {
  }

  lemma {:induction false} RunLive(s: Stream, deltas: seq<Delta>)
    requires Run(s, deltas).Ok?
    ensures OpenIds(Run(s, deltas).value.open) == Live(OpenIds(s.open), deltas)
    decreases |deltas|
  {
    hide OpenCall, AppendArguments, Finalize, OpenIds, Push, Position;
    if deltas != [] {
      match deltas[0] {
        case OpenToolCall(id, name, initial) => OpenKeepsLive(s.open, id, name, initial);
        case AppendToolCallArguments(id, partial) => AppendKeepsLive(s.open, id, partial);
        case CloseToolCall(id) => ClosedAt(s.open, id);
        case _ =>
      }
      RunLive(Step(s, deltas[0]).value, deltas[1..]);
    }
  }

  lemma ClosedAt(open: seq<Accumulator>, id: string)
    requires CloseCall(open, id).Ok?
    ensures OpenIds(CloseCall(open, id).value.0) == Without(OpenIds(open), id)
  {
    hide Finalize;
    RemovesLive(open, id);
  }

  /**
   * Completed calls come in close order, then the ids still live, in the order they were
   * opened; those are distinct.
   */
  lemma CompletedInCloseThenOpenOrder(deltas: seq<Delta>)
    requires Collect(deltas).Ok?
    ensures CallIdsOf(Collect(deltas).value.calls) == ClosedIds(deltas) + Live([], deltas)
    ensures forall i, j :: 0 <= i < j < |Live([], deltas)| ==> Live([], deltas)[i] != Live([], deltas)[j]
  {
    hide Run, FinishOpen;
    RunOrder(START, deltas);
    RunLive(START, deltas);
    assert OpenIds(START.open) == [];
    var s := Run(START, deltas).value;
    FinishOrder(s.open);
    var rest := FinishOpen(s.open).value;
    assert CallIdsOf(s.done + rest) == CallIdsOf(s.done) + CallIdsOf(rest);
    assert CallIdsOf(START.done) == [];
  }

  /** The opens of an id that start a call rather than rename a live one. */
  function FreshOpens(deltas: seq<Delta>, id: string, live: bool): nat
    decreases |deltas|
  {
    if deltas == [] then 0
    else match deltas[0]
      case OpenToolCall(i, _, _) =>
        if i == id then (if live then 0 else 1) + FreshOpens(deltas[1..], id, true)
        else FreshOpens(deltas[1..], id, live)
      case CloseToolCall(i) => FreshOpens(deltas[1..], id, live && i != id)
      case _ => FreshOpens(deltas[1..], id, live)
  }

  lemma StepCount(s: Stream, delta: Delta, id: string)
    requires Step(s, delta).Ok? && |OpenFor(s.open, id)| <= 1
    ensures var next := View(Step(s, delta).value, id);
      && |next.open| <= 1
      && |next.open| + |next.done| == |OpenFor(s.open, id)| + |CallsFor(s.done, id)|
           + (if delta.OpenToolCall? && delta.openId == id && |OpenFor(s.open, id)| == 0 then 1 else 0)
      && (|next.open| == 1 <==> ((|OpenFor(s.open, id)| == 1 && !(delta.CloseToolCall? && delta.closeId == id))
                                 || (delta.OpenToolCall? && delta.openId == id)))
  {
    hide OpenFor, CallsFor, Finalize, Push;
    StepInView(s, delta, id);
    OpenForOwner(s.open, id);
  }

  lemma {:induction false} OpenForOwner(open: seq<Accumulator>, id: string)
    ensures forall a :: a in OpenFor(open, id) ==> a.callId == id
  {
    if open != [] { OpenForOwner(open[1..], id); }
  }

  lemma {:induction false} RunCount(s: Stream, deltas: seq<Delta>, id: string)
    requires Run(s, deltas).Ok? && |OpenFor(s.open, id)| <= 1
    ensures var end := View(Run(s, deltas).value, id);
      |end.open| + |end.done|
        == |OpenFor(s.open, id)| + |CallsFor(s.done, id)| + FreshOpens(deltas, id, |OpenFor(s.open, id)| == 1)
    decreases |deltas|
  {
    hide Step, OpenFor, CallsFor;
    if deltas != [] {
      StepCount(s, deltas[0], id);
      RunCount(Step(s, deltas[0]).value, deltas[1..], id);
    }
  }

  /** Every opened call becomes exactly one completed call. */
  lemma EveryOpenedCallCompletes(deltas: seq<Delta>, id: string)
    requires Collect(deltas).Ok?
    ensures |CallsFor(Collect(deltas).value.calls, id)| == FreshOpens(deltas, id, false)
  {
    hide Run, FinishOpen, FreshOpens;
    StartView(id);
    var s := Run(START, deltas).value;
    RunCount(START, deltas, id);
    FinishInView(s.open, id);
    FinishLength(OpenFor(s.open, id));
    CallsForConcat(s.done, FinishOpen(s.open).value, id);
  }

  lemma {:induction false} FinishLength(open: seq<Accumulator>)
    requires FinishOpen(open).Ok?
    ensures |FinishOpen(open).value| == |open|
  {
    hide Finalize;
    if open != [] { FinishLength(open[1..]); }
  }

  // ---- Splitting deltas ----

  lemma SplitText(s: Stream, a: string, b: string, rest: seq<Delta>)
    ensures Run(s, [AppendText(a), AppendText(b)] + rest) == Run(s, [AppendText(a + b)] + rest)
  {
    hide Push;
    PushTwice(s.parts, Part.Text(a), Part.Text(b));
    TwoSteps(s, AppendText(a), AppendText(b), rest);
    assert ([AppendText(a + b)] + rest)[1..] == rest;
  }

  lemma TwoSteps(s: Stream, a: Delta, b: Delta, rest: seq<Delta>)
    requires Step(s, a).Ok?
    ensures var after := Step(Step(s, a).value, b);
      Run(s, [a, b] + rest) == if after.Ok? then Run(after.value, rest) else Err(after.error)
  {
    hide Step;
    var all := [a, b] + rest;
    assert all[1..] == [b] + rest;
    assert ([b] + rest)[1..] == rest;
    assert Run(s, all) == Run(Step(s, a).value, [b] + rest);
  }

  lemma SplitArguments(s: Stream, id: string, a: string, b: string, rest: seq<Delta>)
    ensures Run(s, [AppendToolCallArguments(id, a), AppendToolCallArguments(id, b)] + rest)
         == Run(s, [AppendToolCallArguments(id, a + b)] + rest)
  {
    hide Position;
    var first, second := AppendToolCallArguments(id, a), AppendToolCallArguments(id, b);
    assert ([AppendToolCallArguments(id, a + b)] + rest)[1..] == rest;
    assert ([first, second] + rest)[0] == first;
    var i := Position(s.open, id);
    if i < |s.open| {
      var longer := s.open[i := s.open[i].(partial := s.open[i].partial + a)];
      SamePosition(s.open, longer, id);
      assert (s.open[i].partial + a) + b == s.open[i].partial + (a + b);
      assert longer[i := longer[i].(partial := longer[i].partial + b)]
          == s.open[i := s.open[i].(partial := s.open[i].partial + (a + b))];
      TwoSteps(s, first, second, rest);
    }
  }

  lemma SamePosition(open: seq<Accumulator>, other: seq<Accumulator>, id: string)
    requires |open| == |other| && forall k :: 0 <= k < |open| ==> open[k].callId == other[k].callId
    ensures Position(open, id) == Position(other, id)
  {
    hide Position;
  }

  lemma SplitReasoning(s: Stream, a: string, b: string, redacted: bool, rest: seq<Delta>)
    ensures Run(s, [AppendReasoning(Some(a), redacted, None), AppendReasoning(Some(b), redacted, None)] + rest)
         == Run(s, [AppendReasoning(Some(a + b), redacted, None)] + rest)
  {
    hide Push;
    PushTwice(s.parts, Reasoning(Some(a), redacted, None), Reasoning(Some(b), redacted, None));
    TwoSteps(s, AppendReasoning(Some(a), redacted, None), AppendReasoning(Some(b), redacted, None), rest);
    assert ([AppendReasoning(Some(a + b), redacted, None)] + rest)[1..] == rest;
  }

  /** Splitting a reasoning delta changes neither parts nor calls. */
  lemma SplittingReasoningIsInvisible(before: seq<Delta>, a: string, b: string, redacted: bool, after: seq<Delta>)
    ensures
      Collect(before + ([AppendReasoning(Some(a), redacted, None), AppendReasoning(Some(b), redacted, None)] + after))
      == Collect(before + ([AppendReasoning(Some(a + b), redacted, None)] + after))
  {
    hide Run, FinishOpen;
    RunConcat(START, before,
              [AppendReasoning(Some(a), redacted, None), AppendReasoning(Some(b), redacted, None)] + after);
    RunConcat(START, before, [AppendReasoning(Some(a + b), redacted, None)] + after);
    if Run(START, before).Ok? { SplitReasoning(Run(START, before).value, a, b, redacted, after); }
  }

  /** Re-chunking, splitting a text delta and splitting an argument delta change neither parts nor calls. */
  lemma SplittingIsInvisible(before: seq<Delta>, a: string, b: string, id: string, after: seq<Delta>)
    ensures Collect(before + ([AppendText(a), AppendText(b)] + after))
         == Collect(before + ([AppendText(a + b)] + after))
    ensures Collect(before + ([AppendToolCallArguments(id, a), AppendToolCallArguments(id, b)] + after))
         == Collect(before + ([AppendToolCallArguments(id, a + b)] + after))
  {
    hide Run, FinishOpen;
    RunConcat(START, before, [AppendText(a), AppendText(b)] + after);
    RunConcat(START, before, [AppendText(a + b)] + after);
    RunConcat(START, before, [AppendToolCallArguments(id, a), AppendToolCallArguments(id, b)] + after);
    RunConcat(START, before, [AppendToolCallArguments(id, a + b)] + after);
    if Run(START, before).Ok? {
      SplitText(Run(START, before).value, a, b, after);
      SplitArguments(Run(START, before).value, id, a, b, after);
    }
  }

  // ---- Parts ----

  /** What a delta says, as one part. */
  function PartOf(delta: Delta): seq<Part> {
    match delta
    case AppendText(text) => [Part.Text(text)]
    case AppendReasoning(t, r, p) => [Reasoning(t, r, p)]
    case AppendRefusal(t, r, m) => [Refusal(t, r, m)]
    case SetStructuredOutput(schema, value) => [Structured(schema, value)]
    case _ => []
  }

  function PartsOf(deltas: seq<Delta>): seq<Part> {
    if deltas == [] then [] else PartOf(deltas[0]) + PartsOf(deltas[1..])
  }

  lemma StepParts(s: Stream, delta: Delta)
    requires Step(s, delta).Ok?
    ensures Step(s, delta).value.parts == Extend(s.parts, PartOf(delta))
  {
    hide OpenCall, AppendArguments, CloseCall;
    if PartOf(delta) != [] {
      assert PartOf(delta)[..0] == [];
      assert Extend(s.parts, PartOf(delta)) == Push(s.parts, PartOf(delta)[0]);
    }
  }

  lemma {:induction false} ExtendTwice(parts: seq<Part>, a: seq<Part>, b: seq<Part>)
    ensures Extend(Extend(parts, a), b) == Extend(parts, a + b)
  {
    if b == [] {
      assert a + b == a;
    } else {
      assert (a + b)[..|a + b| - 1] == a + b[..|b| - 1];
      ExtendTwice(parts, a, b[..|b| - 1]);
    }
  }

  lemma {:induction false} RunParts(s: Stream, deltas: seq<Delta>)
    requires Run(s, deltas).Ok?
    ensures Run(s, deltas).value.parts == Extend(s.parts, PartsOf(deltas))
    decreases |deltas|
  {
    hide Step, Extend, PartOf;
    if deltas == [] {
      NoParts(s.parts);
    } else {
      StepParts(s, deltas[0]);
      RunParts(Step(s, deltas[0]).value, deltas[1..]);
      ExtendTwice(s.parts, PartOf(deltas[0]), PartsOf(deltas[1..]));
    }
  }

  lemma NoParts(parts: seq<Part>)
    ensures Extend(parts, []) == parts
  {
  }

  /**
   * The collected parts are the streamed ones in coalesced normal form, so the
   * message built from them stores exactly them, and says exactly what was streamed.
   */
  lemma CollectedPartsAreNormal(deltas: seq<Delta>, id: int, role: Role, now: int)
    requires Collect(deltas).Ok?
    ensures var parts := Collect(deltas).value.parts;
      && Normal(parts) && NewMessage(id, role, parts, now).parts == parts
      && Content(parts) == Content(PartsOf(deltas))
  {
    hide Run, FinishOpen, PartsOf;
    RunParts(START, deltas);
    var parts := Collect(deltas).value.parts;
    ExtendIsNormal([], PartsOf(deltas));
    ExtendKeepsContent([], PartsOf(deltas));
    assert [] + parts == parts;
    ExtendNormalIsIdentity([], parts);
  }

  // ---- One call from open to close ----

  function Appends(id: string, texts: seq<string>): seq<Delta> {
    if texts == [] then [] else [AppendToolCallArguments(id, texts[0])] + Appends(id, texts[1..])
  }

  function Concatenated(texts: seq<string>): string {
    if texts == [] then "" else texts[0] + Concatenated(texts[1..])
  }

  lemma {:induction false} RunAppends(s: Stream, a: Accumulator, texts: seq<string>, rest: seq<Delta>)
    requires s.open == [a]
    ensures Run(s, Appends(a.callId, texts) + rest)
         == Run(s.(open := [a.(partial := a.partial + Concatenated(texts))]), rest)
    decreases |texts|
  {
    if texts == [] {
      assert Appends(a.callId, texts) + rest == rest && a.partial + "" == a.partial;
    } else {
      var first, later := AppendToolCallArguments(a.callId, texts[0]), Appends(a.callId, texts[1..]);
      var next := a.(partial := a.partial + texts[0]);
      assert (([first] + later) + rest)[1..] == later + rest;
      assert [a][0 := next] == [next];
      assert next.partial + Concatenated(texts[1..]) == a.partial + (texts[0] + Concatenated(texts[1..]));
      hide Position;
      FirstIsFirst([a], a.callId);
      RunAppends(s.(open := [next]), next, texts[1..], rest);
    }
  }

  lemma CloseOne(a: Accumulator)
    requires Finalize(a).Ok?
    ensures Finish(Run(Stream([], [a], []), [CloseToolCall(a.callId)])) == Ok(Collected([], [Finalize(a).value]))
  {
    hide Finalize, Position;
    FirstIsFirst([a], a.callId);
    assert [a][..0] + [a][1..] == [];
    assert [CloseToolCall(a.callId)][1..] == [];
    var none: seq<CompletedCall> := [];
    assert none + [Finalize(a).value] == [Finalize(a).value];
    assert [Finalize(a).value] + none == [Finalize(a).value];
    assert CloseCall([a], a.callId) == Ok(([], Finalize(a).value));
    assert Step(Stream([], [a], []), CloseToolCall(a.callId)) == Ok(Stream([], [], [Finalize(a).value]));
  }

  lemma OpenOne(id: string, name: string, initial: Option<string>, rest: seq<Delta>)
    ensures Run(START, [OpenToolCall(id, name, initial)] + rest)
         == Run(Stream([], [Accumulator(id, name, initial, "")], []), rest)
  {
    assert ([OpenToolCall(id, name, initial)] + rest)[1..] == rest;
    var none: seq<Accumulator> := [];
    assert none + [Accumulator(id, name, initial, "")] == [Accumulator(id, name, initial, "")];
    assert OpenCall(none, id, name, initial) == [Accumulator(id, name, initial, "")];
  }

  lemma CloseFails(a: Accumulator)
    requires Finalize(a).Err?
    ensures Finish(Run(Stream([], [a], []), [CloseToolCall(a.callId)])) == Err(Finalize(a).error)
  {
    hide Finalize, Position;
    FirstIsFirst([a], a.callId);
    assert CloseCall([a], a.callId) == Err(Finalize(a).error);
  }

  /**
   * A call opened, fed and closed completes with its name and the concatenation
   * of what it was fed, or, when that is blank, with the arguments it was opened
   * with, if any, else with none; a blank id or name makes the response fail.
   */
  lemma OneCallCompletes(id: string, name: string, initial: Option<string>, texts: seq<string>)
    ensures var result := Collect([OpenToolCall(id, name, initial)] + (Appends(id, texts) + [CloseToolCall(id)]));
      && (Trim(id) == "" ==> result == Err(MissingId))
      && (Trim(id) != "" && Trim(name) == "" ==> result == Err(MissingName))
      && (Trim(id) != "" && Trim(name) != "" ==>
            && result.Ok? && result.value.parts == [] && |result.value.calls| == 1
            && result.value.calls[0].callId == id && result.value.calls[0].toolName == name
            && result.value.calls[0].arguments
               == if Trim(Concatenated(texts)) != "" then Streamed(Concatenated(texts))
                  else if initial.Some? then Initial(initial.value) else EmptyObject)
  {
    var a := Accumulator(id, name, initial, "");
    var fed := Accumulator(id, name, initial, Concatenated(texts));
    assert a.(partial := "" + Concatenated(texts)) == fed by { assert "" + Concatenated(texts) == Concatenated(texts); }
    var final := Finalize(fed);
    assert Trim(id) == "" ==> final == Err(MissingId);
    assert Trim(id) != "" && Trim(name) == "" ==> final == Err(MissingName);
    hide Run, FinishOpen, Trim, Appends, Concatenated;
    OpenOne(id, name, initial, Appends(id, texts) + [CloseToolCall(id)]);
    RunAppends(Stream([], [a], []), a, texts, [CloseToolCall(id)]);
    if final.Ok? { CloseOne(fed); } else { CloseFails(fed); }
  }

  /** Opening a call that is open replaces its name, and its arguments when new ones come with it. */
  lemma ReopeningReplaces(
    id: string, first: string, initial: Option<string>, second: string, later: Option<string>, rest: seq<Delta>)
    ensures Collect([OpenToolCall(id, first, initial)] + ([OpenToolCall(id, second, later)] + rest))
         == Collect([OpenToolCall(id, second, if later.Some? then later else initial)] + rest)
  {
    var a := Accumulator(id, first, initial, "");
    var kept := if later.Some? then later else initial;
    OpenOne(id, first, initial, [OpenToolCall(id, second, later)] + rest);
    OpenOne(id, second, kept, rest);
    hide Position;
    FirstIsFirst([a], id);
    assert [a][0 := Accumulator(id, second, kept, "")] == [Accumulator(id, second, kept, "")];
    assert ([OpenToolCall(id, second, later)] + rest)[1..] == rest;
  }

  /** Arguments for, or the close of, a call that is not open make the response fail. */
  lemma StrayDeltasFail(id: string, partial: string, rest: seq<Delta>)
    ensures Collect([AppendToolCallArguments(id, partial)] + rest) == Err(AppendBeforeOpen(id))
    ensures Collect([CloseToolCall(id)] + rest) == Err(CloseBeforeOpen(id))
  {
    assert ([AppendToolCallArguments(id, partial)] + rest)[0] == AppendToolCallArguments(id, partial);
    assert ([CloseToolCall(id)] + rest)[0] == CloseToolCall(id);
  }

  // ---- Collected parts are talk, not tools ----

  lemma {:induction false} PartsAreTalk(deltas: seq<Delta>)
    ensures forall p :: p in PartsOf(deltas) ==> !p.ToolCall? && !p.ToolResult?
  {
    if deltas != [] { PartsAreTalk(deltas[1..]); }
  }

  lemma {:induction false} ExtendIsTalk(parts: seq<Part>, added: seq<Part>)
    requires forall p :: p in parts + added ==> !p.ToolCall? && !p.ToolResult?
    ensures forall p :: p in Extend(parts, added) ==> !p.ToolCall? && !p.ToolResult?
  {
    if added != [] {
      var shorter := added[..|added| - 1];
      assert forall p :: p in parts + shorter ==> p in parts + added;
      assert added[|added| - 1] in parts + added;
      ExtendIsTalk(parts, shorter);
    }
  }

  lemma CollectedPartsAreTalk(deltas: seq<Delta>)
    requires Collect(deltas).Ok?
    ensures forall p :: p in Collect(deltas).value.parts ==> !p.ToolCall? && !p.ToolResult?
  {
    hide Run, FinishOpen, PartsOf, Extend;
    RunParts(START, deltas);
    PartsAreTalk(deltas);
    ExtendIsTalk([], PartsOf(deltas));
  }
}
