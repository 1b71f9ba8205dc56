/** Grouping history into indivisible retention units (bt-context, `build_message_units`). */
module MessageUnits {
  import opened Messages

  function CallIds(message: Message): set<string> {
    set part | part in message.parts && part.ToolCall? :: part.callId
  }

  function ResultIds(message: Message): set<string> {
    set part | part in message.parts && part.ToolResult? :: part.resultId
  }

  /** The calls still awaiting a result after one more message. */
  function Step(open: set<string>, message: Message): set<string> {
    (open - ResultIds(message)) + CallIds(message)
  }

  function OpenAfter(open: set<string>, messages: seq<Message>): set<string>
    decreases |messages|
  {
    if messages == [] then open else OpenAfter(Step(open, messages[0]), messages[1..])
  }

  /** How many further messages a unit absorbs while calls are pending. */
  function Absorbed(pending: set<string>, messages: seq<Message>): (n: nat)
    ensures n <= |messages|
    decreases |messages|
  {
    if pending == {} || messages == [] then 0 else 1 + Absorbed(Step(pending, messages[0]), messages[1..])
  }

  function FirstUnit(messages: seq<Message>): (n: nat)
    requires messages != []
    ensures 0 < n <= |messages|
  {
    1 + Absorbed(CallIds(messages[0]), messages[1..])
  }

  function Units(messages: seq<Message>): seq<seq<Message>>
    decreases |messages|
  {
    if messages == [] then []
    else [messages[..FirstUnit(messages)]] + Units(messages[FirstUnit(messages)..])
  }

  function Flatten(units: seq<seq<Message>>): seq<Message> {
    if units == [] then [] else units[0] + Flatten(units[1..])
  }

  method BuildMessageUnits(messages: seq<Message>) returns (units: seq<seq<Message>>)
    ensures units == Units(messages)
    ensures Flatten(units) == messages
  {
    units := [];
    var index := 0;
    assert messages[0..] == messages;
    while index < |messages|
      invariant 0 <= index <= |messages|
      invariant units + Units(messages[index..]) == Units(messages)
    {
      var unit, end := TakeUnit(messages, index);
      UnitsUnfold(messages, index, end);
      Reassociate(units, unit, Units(messages[end..]));
      units, index := units + [unit], end;
    }
    UnitsFlatten(messages);
  }

  /** The inner loop: open a unit at `start` and absorb while calls are pending. */
  method TakeUnit(messages: seq<Message>, start: nat) returns (unit: seq<Message>, index: nat)
    requires start < |messages|
    ensures index == start + FirstUnit(messages[start..])
    ensures index <= |messages| && unit == messages[start..index]
  {
    var pending := CallIds(messages[start]);
    unit := [messages[start]];
    index := start + 1;
    assert messages[start..][1..] == messages[index..];
    while pending != {} && index < |messages|
      invariant start < index <= |messages|
      invariant unit == messages[start..index]
      invariant FirstUnit(messages[start..]) == index - start + Absorbed(pending, messages[index..])
      decreases |messages| - index
    {
      pending := pending - ResultIds(messages[index]);
      pending := pending + CallIds(messages[index]);
      unit := unit + [messages[index]];
      index := index + 1;
    }
  }

  lemma Reassociate<T>(a: seq<T>, x: T, b: seq<T>)
    ensures a + ([x] + b) == (a + [x]) + b
  {
  }

  lemma UnitsUnfold(messages: seq<Message>, start: nat, end: nat)
    requires start < |messages| && end == start + FirstUnit(messages[start..])
    ensures Units(messages[start..]) == [messages[start..end]] + Units(messages[end..])
  {
    assert messages[start..][..end - start] == messages[start..end];
    assert messages[start..][end - start..] == messages[end..];
  }

  lemma {:induction false} FlattenConcat(a: seq<seq<Message>>, b: seq<seq<Message>>)
    ensures Flatten(a + b) == Flatten(a) + Flatten(b)
  {
    if a == [] {
      assert a + b == b;
    } else {
      assert (a + b)[1..] == a[1..] + b;
      FlattenConcat(a[1..], b);
    }
  }

  /** Units concatenate back to the history, and none is empty. */
  lemma {:induction false} UnitsFlatten(messages: seq<Message>)
    ensures Flatten(Units(messages)) == messages
    ensures forall k :: 0 <= k < |Units(messages)| ==> Units(messages)[k] != []
    ensures Units(messages) == [] <==> messages == []
    decreases |messages|
  {
    if messages != [] {
      var n := FirstUnit(messages);
      var rest := Units(messages[n..]);
      UnitsFlatten(messages[n..]);
      assert Units(messages) == [messages[..n]] + rest;
      assert ([messages[..n]] + rest)[1..] == rest;
      assert messages[..n] + messages[n..] == messages;
    }
  }

  lemma {:induction false} CutFlatten(units: seq<seq<Message>>, cut: nat)
    requires cut <= |units|
    ensures Flatten(units[..cut]) + Flatten(units[cut..]) == Flatten(units)
  {
    hide *;
    assert units[..cut] + units[cut..] == units;
    FlattenConcat(units[..cut], units[cut..]);
  }

  lemma FlattenUpTo(units: seq<seq<Message>>, cut: nat)
    requires cut < |units|
    ensures Flatten(units[..cut + 1]) == Flatten(units[..cut]) + units[cut]
  {
    assert units[..cut + 1] == units[..cut] + [units[cut]];
    FlattenConcat(units[..cut], [units[cut]]);
    assert [units[cut]][1..] == [];
  }

  lemma FlattenFrom(units: seq<seq<Message>>, cut: nat)
    requires cut < |units|
    ensures Flatten(units[cut..]) == units[cut] + Flatten(units[cut + 1..])
    ensures cut + 1 == |units| ==> Flatten(units[cut..]) == units[cut]
  {
    assert units[cut..][1..] == units[cut + 1..];
  }

  // ---- Cuts fall only where no call is open ----

  lemma {:induction false} OpenAfterConcat(open: set<string>, a: seq<Message>, b: seq<Message>)
    ensures OpenAfter(open, a + b) == OpenAfter(OpenAfter(open, a), b)
    decreases |a|
  {
    if a == [] {
      assert a + b == b;
    } else {
      assert (a + b)[1..] == a[1..] + b;
      OpenAfterConcat(Step(open, a[0]), a[1..], b);
    }
  }

  lemma {:induction false} AbsorbedCloses(pending: set<string>, messages: seq<Message>)
    requires Absorbed(pending, messages) < |messages|
    ensures OpenAfter(pending, messages[..Absorbed(pending, messages)]) == {}
    decreases |messages|
  {
    if pending != {} {
      AbsorbedCloses(Step(pending, messages[0]), messages[1..]);
      var n := Absorbed(pending, messages);
      assert messages[..n][1..] == messages[1..][..n - 1];
    }
  }

  lemma UnitCloses(messages: seq<Message>)
    requires messages != [] && FirstUnit(messages) < |messages|
    ensures OpenAfter({}, messages[..FirstUnit(messages)]) == {}
  {
    var n := FirstUnit(messages);
    AbsorbedCloses(CallIds(messages[0]), messages[1..]);
    assert messages[..n][1..] == messages[1..][..n - 1];
    assert Step({}, messages[0]) == CallIds(messages[0]);
  }

  lemma UnitsPrefix(messages: seq<Message>, cut: nat)
    requires 0 < cut < |Units(messages)|
    ensures messages != [] && FirstUnit(messages) < |messages|
    ensures var n := FirstUnit(messages);
      && cut - 1 < |Units(messages[n..])|
      && Flatten(Units(messages)[..cut]) == messages[..n] + Flatten(Units(messages[n..])[..cut - 1])
  {
    var n := FirstUnit(messages);
    assert Units(messages)[..cut] == [messages[..n]] + Units(messages[n..])[..cut - 1];
  }

  /** At every unit boundary before the last unit, no call awaits a result. */
  lemma {:induction false} NothingOpenAtCut(messages: seq<Message>, cut: nat)
    requires cut < |Units(messages)|
    ensures OpenAfter({}, Flatten(Units(messages)[..cut])) == {}
    decreases |messages|
  {
    if cut > 0 {
      UnitsPrefix(messages, cut);
      var n := FirstUnit(messages);
      UnitCloses(messages);
      NothingOpenAtCut(messages[n..], cut - 1);
      OpenAfterConcat({}, messages[..n], Flatten(Units(messages[n..])[..cut - 1]));
    }
  }

  lemma {:induction false} StaysOpen(open: set<string>, id: string, messages: seq<Message>)
    requires id in open
    requires forall m :: m in messages ==> id !in ResultIds(m)
    ensures id in OpenAfter(open, messages)
    decreases |messages|
  {
    if messages != [] {
      StaysOpen(Step(open, messages[0]), id, messages[1..]);
    }
  }

  /** A cut never falls between a call and the first message that answers it, nor after a call nothing answers. */
  lemma CallNotCut(
    before: seq<Message>, call: Message, between: seq<Message>, after: seq<Message>, id: string, cut: nat)
    requires id in CallIds(call)
    requires forall m :: m in between ==> id !in ResultIds(m)
    requires cut < |Units(before + [call] + between + after)|
    ensures var offset := |Flatten(Units(before + [call] + between + after)[..cut])|;
      offset <= |before| || offset > |before| + 1 + |between|
  {
    var messages := before + [call] + between + after;
    var offset := |Flatten(Units(messages)[..cut])|;
    if |before| < offset <= |before| + 1 + |between| {
      UnitsFlatten(messages);
      CutFlatten(Units(messages), cut);
      var inside := between[..offset - |before| - 1];
      assert messages[..offset] == Flatten(Units(messages)[..cut]);
      assert messages[..offset] == (before + [call]) + inside;
      OpenAfterConcat({}, before + [call], inside);
      OpenAfterConcat({}, before, [call]);
      assert OpenAfter({}, before + [call]) == Step(OpenAfter({}, before), call) by {
        assert [call][1..] == [];
      }
      StaysOpen(OpenAfter({}, before + [call]), id, inside);
      NothingOpenAtCut(messages, cut);
      assert false;
    }
  }

  // ---- The premise on transcripts ----

  /** Only Assistant and Tool messages carry tool parts, and results answer calls that are still open. */
  predicate Answers(open: set<string>, message: Message) {
    && (message.role.System? || message.role.User? ==> CallIds(message) == {} && ResultIds(message) == {})
    && (message.role.Tool? ==> ResultIds(message) != {})
    && ResultIds(message) <= open
  }

  predicate WellPaired(open: set<string>, messages: seq<Message>)
    decreases |messages|
  {
    messages == [] || (Answers(open, messages[0]) && WellPaired(Step(open, messages[0]), messages[1..]))
  }

  lemma {:induction false} WellPairedConcat(open: set<string>, a: seq<Message>, b: seq<Message>)
    ensures WellPaired(open, a + b) <==> WellPaired(open, a) && WellPaired(OpenAfter(open, a), b)
    decreases |a|
  {
    if a == [] {
      assert a + b == b;
    } else {
      assert (a + b)[1..] == a[1..] + b;
      WellPairedConcat(Step(open, a[0]), a[1..], b);
    }
  }

  predicate NoToolParts(messages: seq<Message>) {
    forall m :: m in messages ==> !m.role.Tool? && CallIds(m) == {} && ResultIds(m) == {}
  }

  lemma {:induction false} NoToolPartsNeutral(open: set<string>, messages: seq<Message>)
    requires NoToolParts(messages)
    ensures WellPaired(open, messages) && OpenAfter(open, messages) == open
    decreases |messages|
  {
    if messages != [] {
      assert messages[0] in messages;
      assert Step(open, messages[0]) == open;
      NoToolPartsNeutral(open, messages[1..]);
    }
  }

  /**
   * A suffix of whole units of a well-paired history is well paired on its own, and does
   * not open on a Tool message.
   */
  lemma UnitSuffixWellPaired(messages: seq<Message>, cut: nat)
    requires WellPaired({}, messages) && cut < |Units(messages)|
    ensures WellPaired({}, Flatten(Units(messages)[cut..]))
    ensures Flatten(Units(messages)[cut..]) != []
    ensures !Flatten(Units(messages)[cut..])[0].role.Tool?
  {
    UnitsFlatten(messages);
    CutFlatten(Units(messages), cut);
    NothingOpenAtCut(messages, cut);
    WellPairedConcat({}, Flatten(Units(messages)[..cut]), Flatten(Units(messages)[cut..]));
  }
}
