/** Exactly when a compaction's tail can open on a tool result (bt-context, lib.rs). */
module TailOpening {
  import opened Wrappers
  import opened Messages
  import opened Tokens
  import opened MessageUnits
  import opened Summaries
  import opened Retention
  import opened RetentionProperties

  predicate OpensOnTool(messages: seq<Message>) {
    messages != [] && messages[0].role.Tool?
  }

  predicate AllEligible(messages: seq<Message>) {
    forall m :: m in messages ==> Eligible(m)
  }

  /**
   * Forced ageing can take unit `c` off the tail: everything before it can be
   * retained as user messages while the tail starts there.
   */
  predicate AgesFrom(units: seq<seq<Message>>, c: nat)
    requires c < |units|
  {
    && c + 1 < |units| && !OpensOnTool(units[c]) && AllEligible(Flatten(units[..c]))
    && (c > 0 ==> Estimate(Flatten(units[..c - 1])) < Estimate(Flatten(units[c..])))
  }

  /** No unit a run can stop at opens on a Tool message: not the newest, and none that forced ageing uncovers. */
  predicate NoStopOnTool(units: seq<seq<Message>>) {
    && (units != [] ==> !OpensOnTool(units[|units| - 1]))
    && forall c :: 0 <= c < |units| - 1 && AgesFrom(units, c) ==> !OpensOnTool(units[c + 1])
  }

  predicate NoEmptyUnit(units: seq<seq<Message>>) {
    forall k :: 0 <= k < |units| ==> units[k] != []
  }

  function UnitsOf(messages: seq<Message>): seq<seq<Message>> {
    var rest := Remaining(messages);
    Units(rest[SystemPrefix(rest)..])
  }

  ghost predicate NeverOpensOnTool(messages: seq<Message>) {
    forall budget, userConfig, force, previous ::
      !OpensOnTool(Retain(messages, budget, userConfig, force, previous).tail)
  }

  // ---- Where a run can stop ----

  lemma {:induction false} TrimStops(units: seq<seq<Message>>, cut: nat)
    requires NoEmptyUnit(units)
    ensures var start := TrimOrphans(units, cut);
      && (start + 1 < |units| ==> !OpensOnTool(units[start]))
      && (start > cut ==> cut < |units| && OpensOnTool(units[cut]))
    decreases |units| - cut
  {
    if cut + 1 < |units| && units[cut][0].role.Tool? { TrimStops(units, cut + 1); }
  }

  lemma FirstCutIs(frame: Frame) returns (start: nat, dropped: seq<Message>, ids: set<int>)
    requires frame.units != []
    ensures start == TailStart(frame.units, |frame.units|, 0, frame.tailBudget) < |frame.units|
    ensures FirstSplit(frame).cut == TrimOrphans(frame.units, start) < |frame.units| && start <= FirstSplit(frame).cut
    ensures dropped == Flatten(frame.units[..FirstSplit(frame).cut])
    ensures ids == UserIds(dropped, |dropped|, 0, {}, frame.userBudget)
    ensures FirstSplit(frame).users == Kept(dropped, ids) && FirstSplit(frame).dropped == Others(dropped, ids)
  {
    hide Flatten, UserIds, Kept, Others;
    start := TailStart(frame.units, |frame.units|, 0, frame.tailBudget);
    dropped := Flatten(frame.units[..FirstSplit(frame).cut]);
    ids := UserIds(dropped, |dropped|, 0, {}, frame.userBudget);
  }

  lemma HeadInFlatten(units: seq<seq<Message>>, k: nat, cut: nat)
    requires k < cut <= |units| && units[k] != []
    ensures units[k][0] in Flatten(units[..cut])
  {
    assert units[..cut] == units[..k] + units[k..cut];
    FlattenConcat(units[..k], units[k..cut]);
    assert units[k..cut][0] == units[k];
  }

  lemma SplitBefore(units: seq<seq<Message>>, c: nat)
    requires 0 < c <= |units|
    ensures Estimate(Flatten(units[..c])) == Estimate(Flatten(units[..c - 1])) + Estimate(units[c - 1])
    ensures Estimate(Flatten(units[c - 1..])) == Estimate(units[c - 1]) + Estimate(Flatten(units[c..]))
  {
    hide *;
    FlattenUpTo(units, c - 1);
    EstimateConcat(Flatten(units[..c - 1]), units[c - 1]);
    FlattenFrom(units, c - 1);
    EstimateConcat(units[c - 1], Flatten(units[c..]));
  }

  /** Nothing dropped by the first split means everything before its tail was retained. */
  lemma AllRetained(messages: seq<Message>, budget: nat)
    requires DistinctIds(messages)
    requires Others(messages, UserIds(messages, |messages|, 0, {}, budget)) == []
    ensures AllEligible(messages) && Estimate(messages) <= budget
  {
    hide Eligible, Estimate, EstimateMessage, UserIds, Kept, Others;
    var ids := UserIds(messages, |messages|, 0, {}, budget);
    UsersAreGreedy(messages, budget);
    OthersFacts(messages, ids);
    forall m | m in messages ensures Eligible(m) {
      assert m.id in ids;
    }
    AllKept(messages, ids);
  }

  lemma {:induction false} AllKept(messages: seq<Message>, ids: set<int>)
    requires forall m :: m in messages ==> m.id in ids
    ensures Kept(messages, ids) == messages && Others(messages, ids) == []
  {
    if messages != [] { AllKept(messages[1..], ids); }
  }

  /** If the first split drops nothing, its cut is one that forced ageing can start from. */
  lemma NothingDroppedAgesFrom(frame: Frame)
    requires NoEmptyUnit(frame.units) && DistinctIds(Flatten(frame.units)) && frame.userBudget <= frame.tailBudget
    requires frame.units != [] && FirstSplit(frame).dropped == [] && FirstSplit(frame).cut + 1 < |frame.units|
    ensures AgesFrom(frame.units, FirstSplit(frame).cut)
  {
    hide Flatten, Estimate, UserIds, Kept, Others, TrimOrphans, TailStart, FirstSplit, Eligible, DistinctIds;
    var units := frame.units;
    var start, dropped, ids := FirstCutIs(frame);
    var c := FirstSplit(frame).cut;
    TrimStops(units, start);
    CutFlatten(units, c);
    assert Flatten(units) == [] + dropped + Flatten(units[c..]);
    DistinctSlice([], dropped, Flatten(units[c..]));
    AllRetained(dropped, frame.userBudget);
    if start < c {
      HeadInFlatten(units, start, c);
      ToolIsNotEligible(units[start][0]);
      assert false;
    }
    if c > 0 {
      TailIsLongest(units, frame.tailBudget);
      SplitBefore(units, c);
    }
  }

  lemma ToolIsNotEligible(m: Message)
    ensures m.role.Tool? ==> !Eligible(m)
  {
  }

  lemma AgeOnce(split: Split, units: seq<seq<Message>>, force: bool)
    requires NoEmptyUnit(units) && split.cut < |units|
    ensures AgeForced(split, units, force)
         == if force && split.dropped == [] && split.cut + 1 < |units| then AgeUnit(split, units) else split
  {
    if force && split.dropped == [] && split.cut + 1 < |units| {
      assert AgeUnit(split, units).dropped == units[split.cut] != [];
    }
  }

  /**
   * A run stops at the newest unit, at its first cut, or one unit further when
   * ageing is forced and nothing was dropped. The shrink loop by itself stops
   * nowhere else.
   */
  lemma StopsAt(messages: seq<Message>, budget: nat, userConfig: nat, force: bool, previous: Option<string>)
    requires DistinctIds(messages) && UnitsOf(messages) != []
    ensures var frame := FrameOf(messages, budget, userConfig, previous);
      var c, final := FirstSplit(frame).cut, FinalSplit(frame, budget, force).cut;
      && final < |frame.units|
      && (final == |frame.units| - 1 || final == c
          || (final == c + 1 && force && FirstSplit(frame).dropped == []))
  {
    var frame := FrameOf(messages, budget, userConfig, previous);
    FrameHasUnits(messages, budget, userConfig, previous);
    hide FrameOf, Flatten, Estimate, FirstSplit, AgeForced, Shrink, DistinctIds;
    var units := frame.units;
    var last := |units| - 1;
    if budget < Estimate(frame.prefix) + 64 {
      FinalIsSound(frame, budget, force);
      TotalIsMore(FinalSplit(frame, budget, force), frame);
    } else if Estimate(units[last]) > frame.tailBudget {
      var start, _, _ := FirstCutIs(frame);
      TailIsLongest(units, frame.tailBudget);
      FlattenFrom(units, last);
      LongerSuffixCostsMore(units, start, last);
      FinalAfterFirst(frame, budget, force);
    } else {
      NothingToShrink(messages, budget, userConfig, force, previous);
      AgeOnce(FirstSplit(frame), units, force);
    }
  }

  lemma FrameHasUnits(messages: seq<Message>, budget: nat, userConfig: nat, previous: Option<string>)
    ensures var frame := FrameOf(messages, budget, userConfig, previous);
      && frame.units == UnitsOf(messages) && NoEmptyUnit(frame.units)
      && frame.summaryBudget >= 64 && frame.userBudget <= frame.tailBudget
  {
    hide Flatten, Units, Estimate, Remaining, SystemPrefix, Folded;
    UnitsFlatten(Remaining(messages)[SystemPrefix(Remaining(messages))..]);
  }

  lemma TotalIsMore(split: Split, frame: Frame)
    requires split.cut <= |frame.units|
    ensures Total(split, frame) >= Estimate(frame.prefix) + frame.summaryBudget
  {
  }

  lemma FinalAfterFirst(frame: Frame, budget: nat, force: bool)
    requires frame.units != []
    ensures FirstSplit(frame).cut <= FinalSplit(frame, budget, force).cut < |frame.units|
  {
    hide FirstSplit;
  }

  // ---- Both directions ----

  lemma TailHead(messages: seq<Message>, budget: nat, userConfig: nat, force: bool, previous: Option<string>)
    requires UnitsOf(messages) != []
    ensures var final := FinalSplit(FrameOf(messages, budget, userConfig, previous), budget, force).cut;
      final < |UnitsOf(messages)|
      && (OpensOnTool(Retain(messages, budget, userConfig, force, previous).tail) <==>
          OpensOnTool(UnitsOf(messages)[final]))
  {
    FrameHasUnits(messages, budget, userConfig, previous);
    var frame := FrameOf(messages, budget, userConfig, previous);
    hide FrameOf, FinalSplit, Flatten, UnitsOf;
    var final := FinalSplit(frame, budget, force).cut;
    FlattenFrom(frame.units, final);
  }

  lemma SafeUnitsNeverOpen(
    messages: seq<Message>, budget: nat, userConfig: nat, force: bool, previous: Option<string>)
    requires DistinctIds(messages) && NoStopOnTool(UnitsOf(messages))
    ensures !OpensOnTool(Retain(messages, budget, userConfig, force, previous).tail)
  {
    hide FirstSplit, FinalSplit, Flatten, AgesFrom, OpensOnTool, UnitsOf, DistinctIds, FrameOf;
    var frame := FrameOf(messages, budget, userConfig, previous);
    FrameHasUnits(messages, budget, userConfig, previous);
    if frame.units == [] {
      NoUnitsNoTail(messages, budget, userConfig, force, previous);
    } else {
      StopsAt(messages, budget, userConfig, force, previous);
      TailHead(messages, budget, userConfig, force, previous);
      var start, _, _ := FirstCutIs(frame);
      TrimStops(frame.units, start);
      if FirstSplit(frame).dropped == [] && FirstSplit(frame).cut + 1 < |frame.units| {
        BodyIsDistinct(messages, budget, userConfig, previous);
        NothingDroppedAgesFrom(frame);
      }
    }
  }

  lemma BodyIsDistinct(messages: seq<Message>, budget: nat, userConfig: nat, previous: Option<string>)
    requires DistinctIds(messages)
    ensures DistinctIds(Flatten(FrameOf(messages, budget, userConfig, previous).units))
  {
    hide FrameOf, Flatten;
    FrameCoversHistory(messages, budget, userConfig, previous);
    var frame := FrameOf(messages, budget, userConfig, previous);
    assert frame.prefix + Flatten(frame.units) == frame.prefix + Flatten(frame.units) + [];
    DistinctSlice(frame.prefix, Flatten(frame.units), []);
  }

  lemma NoUnitsNoTail(messages: seq<Message>, budget: nat, userConfig: nat, force: bool, previous: Option<string>)
    requires FrameOf(messages, budget, userConfig, previous).units == []
    ensures !OpensOnTool(Retain(messages, budget, userConfig, force, previous).tail)
  {
    hide FrameOf;
  }

  /** With no budget at all every run stops at the newest unit. */
  lemma NoBudgetStopsAtNewest(messages: seq<Message>, userConfig: nat, force: bool, previous: Option<string>)
    requires UnitsOf(messages) != []
    ensures Retain(messages, 0, userConfig, force, previous).tail == UnitsOf(messages)[|UnitsOf(messages)| - 1]
  {
    hide Retain, FrameOf, UnitsOf, Estimate;
    FrameHasUnits(messages, 0, userConfig, previous);
    ShrinkFitsOrIsMinimal(messages, 0, userConfig, force, previous);
    ReservesSomething(messages, 0, userConfig, force, previous);
  }

  lemma ReservesSomething(messages: seq<Message>, budget: nat, userConfig: nat, force: bool, previous: Option<string>)
    ensures Retain(messages, budget, userConfig, force, previous).summaryBudget >= 64
  {
    hide FinalSplit, Units, Flatten, Remaining, Folded;
  }

  // ---- Reaching a unit by forced ageing ----

  /** What must be available beside the prefix for the content to have exactly this budget. */
  function AvailableFor(content: nat): nat {
    if content < 448 then content + 64 else if content / 7 <= 4096 then content + content / 7 else content + 4096
  }

  lemma AvailableIsRight(content: nat)
    ensures var available := AvailableFor(content);
      available >= 64 && SatSub(available, Clamp(available / 8, 64, 4096)) == content
  {
    if 448 <= content && content / 7 <= 4096 {
      var q, r := content / 7, content % 7;
      assert content == 7 * q + r && AvailableFor(content) == 8 * q + r;
    }
  }

  lemma BudgetsFor(messages: seq<Message>, users: nat, tail: nat) returns (budget: nat)
    requires users <= tail
    ensures var frame := FrameOf(messages, budget, users, None);
      && frame.userBudget == users && frame.tailBudget == tail && budget >= Estimate(frame.prefix) + 64
  {
    hide Units, Estimate, Remaining, SystemPrefix, Folded;
    var rest := Remaining(messages);
    var prefix := rest[..SystemPrefix(rest)];
    budget := Estimate(prefix) + AvailableFor(users + tail);
    AvailableIsRight(users + tail);
  }

  lemma {:induction false} KeptNotBigger(messages: seq<Message>, ids: set<int>)
    ensures Estimate(Kept(messages, ids)) <= Estimate(messages)
  {
    if messages != [] { KeptNotBigger(messages[1..], ids); }
  }

  lemma EstimateSuffix(messages: seq<Message>, i: nat)
    requires i < |messages|
    ensures EstimateMessage(messages[i]) + Estimate(messages[i + 1..]) <= Estimate(messages)
  {
    assert messages == messages[..i] + messages[i..] && messages[i..][1..] == messages[i + 1..];
    EstimateConcat(messages[..i], messages[i..]);
  }

  lemma AffordableAreRetained(messages: seq<Message>, budget: nat)
    requires DistinctIds(messages) && AllEligible(messages) && Estimate(messages) <= budget
    ensures Others(messages, UserIds(messages, |messages|, 0, {}, budget)) == []
  {
    hide Eligible, Estimate, EstimateMessage, UserIds, Kept, Others;
    var ids := UserIds(messages, |messages|, 0, {}, budget);
    UsersAreGreedy(messages, budget);
    forall m | m in messages ensures m.id in ids {
      var i :| 0 <= i < |messages| && messages[i] == m;
      KeptNotBigger(messages[i + 1..], ids);
      EstimateSuffix(messages, i);
    }
    AllKept(messages, ids);
  }

  lemma EligibleCosts(m: Message)
    requires Eligible(m)
    ensures EstimateMessage(m) > 0
  {
    PartsCost(m.parts);
  }

  lemma {:induction false} PartsCost(parts: seq<Part>)
    requires TextParts(parts) != []
    ensures EstimateParts(parts) > 0
  {
    if VisibleText(parts[0]) == None { PartsCost(parts[1..]); }
  }

  /** The walk stops at `c` when the suffix there fits and the next longer one does not. */
  lemma WalkStopsAt(units: seq<seq<Message>>, c: nat, budget: nat)
    requires c + 1 < |units|
    requires Estimate(Flatten(units[c..])) <= budget
    requires c > 0 ==> Estimate(Flatten(units[c - 1..])) > budget
    ensures TailStart(units, |units|, 0, budget) == c
  {
    hide TailStart, Flatten, Estimate;
    TailIsLongest(units, budget);
    var start := TailStart(units, |units|, 0, budget);
    if start < c { LongerSuffixCostsMore(units, start, c - 1); }
  }

  /** A tail budget under which the walk stops at `c` while everything before it is affordable. */
  lemma TailBudgetFor(units: seq<seq<Message>>, c: nat) returns (tailBudget: nat)
    requires NoEmptyUnit(units) && c < |units| && AgesFrom(units, c)
    ensures Estimate(Flatten(units[..c])) <= tailBudget && Estimate(units[|units| - 1]) <= tailBudget
    ensures TailStart(units, |units|, 0, tailBudget) == c
  {
    hide Flatten, Estimate, Eligible, OpensOnTool, TailStart;
    var users, tail := Estimate(Flatten(units[..c])), Estimate(Flatten(units[c..]));
    tailBudget := if users < tail then tail else users;
    if c > 0 {
      SplitBefore(units, c);
      LastUserCosts(units, c);
    }
    WalkStopsAt(units, c, tailBudget);
    LastFits(units, c);
  }

  lemma AgesFromParts(units: seq<seq<Message>>, c: nat)
    requires c < |units| && AgesFrom(units, c)
    ensures c + 1 < |units| && !OpensOnTool(units[c]) && AllEligible(Flatten(units[..c]))
  {
  }

  /** Options under which the first split starts the tail at `c` and drops nothing, with room to spare. */
  lemma OptionsFor(messages: seq<Message>, c: nat) returns (budget: nat, userConfig: nat)
    requires DistinctIds(messages) && c < |UnitsOf(messages)| && AgesFrom(UnitsOf(messages), c)
    ensures var frame := FrameOf(messages, budget, userConfig, None);
      && frame.units == UnitsOf(messages) && NoEmptyUnit(frame.units) && c + 1 < |frame.units|
      && FirstSplit(frame).cut == c && FirstSplit(frame).dropped == []
      && budget >= Estimate(frame.prefix) + 64 && Estimate(frame.units[|frame.units| - 1]) <= frame.tailBudget
  {
    hide *;
    FrameHasUnits(messages, 0, 0, None);
    var units := UnitsOf(messages);
    AgesFromParts(units, c);
    var tailBudget := TailBudgetFor(units, c);
    userConfig := Estimate(Flatten(units[..c]));
    budget := BudgetsFor(messages, userConfig, tailBudget);
    FrameHasUnits(messages, budget, userConfig, None);
    BodyIsDistinct(messages, budget, userConfig, None);
    FirstDropsNothing(FrameOf(messages, budget, userConfig, None), c);
  }

  lemma ReachedByAgeing(messages: seq<Message>, c: nat) returns (budget: nat, userConfig: nat)
    requires DistinctIds(messages) && c < |UnitsOf(messages)| && AgesFrom(UnitsOf(messages), c)
    ensures FinalSplit(FrameOf(messages, budget, userConfig, None), budget, true).cut == c + 1
  {
    hide UnitsOf, Flatten, Estimate, FrameOf, DistinctIds, AgesFrom, FirstSplit, AgeForced, FinalSplit;
    budget, userConfig := OptionsFor(messages, c);
    NothingToShrink(messages, budget, userConfig, true, None);
    var frame := FrameOf(messages, budget, userConfig, None);
    AgeOnce(FirstSplit(frame), frame.units, true);
  }

  lemma LastUserCosts(units: seq<seq<Message>>, c: nat)
    requires 0 < c <= |units| && units[c - 1] != [] && AllEligible(Flatten(units[..c]))
    ensures Estimate(units[c - 1]) > 0
  {
    hide Flatten, EstimateMessage, Eligible;
    HeadInFlatten(units, c - 1, c);
    EligibleCosts(units[c - 1][0]);
  }

  lemma LastFits(units: seq<seq<Message>>, c: nat)
    requires c < |units|
    ensures Estimate(units[|units| - 1]) <= Estimate(Flatten(units[c..]))
  {
    hide Flatten, Estimate;
    FlattenFrom(units, |units| - 1);
    LongerSuffixCostsMore(units, c, |units| - 1);
  }

  lemma FirstDropsNothing(frame: Frame, c: nat)
    requires NoEmptyUnit(frame.units) && c + 1 < |frame.units| && !OpensOnTool(frame.units[c])
    requires DistinctIds(Flatten(frame.units)) && TailStart(frame.units, |frame.units|, 0, frame.tailBudget) == c
    requires AllEligible(Flatten(frame.units[..c])) && Estimate(Flatten(frame.units[..c])) <= frame.userBudget
    ensures FirstSplit(frame).cut == c && FirstSplit(frame).dropped == []
  {
    hide Flatten, Estimate, UserIds, Kept, Others, TailStart, FirstSplit, Eligible, DistinctIds;
    var _, dropped, _ := FirstCutIs(frame);
    CutFlatten(frame.units, c);
    assert Flatten(frame.units) == [] + dropped + Flatten(frame.units[c..]);
    DistinctSlice([], dropped, Flatten(frame.units[c..]));
    AffordableAreRetained(dropped, frame.userBudget);
  }

  /**
   * A history's tail opens on a Tool message under no budget, trigger or
   * previous summary, if and only if neither its newest unit nor one that
   * forced ageing uncovers opens on one.
   */
  lemma NeverOpensOnToolIff(messages: seq<Message>)
    requires DistinctIds(messages)
    ensures NeverOpensOnTool(messages) <==> NoStopOnTool(UnitsOf(messages))
  {
    hide Retain, UnitsOf, AgesFrom, OpensOnTool, DistinctIds;
    var units := UnitsOf(messages);
    if NoStopOnTool(units) {
      forall budget, userConfig, force, previous
        ensures !OpensOnTool(Retain(messages, budget, userConfig, force, previous).tail)
      {
        SafeUnitsNeverOpen(messages, budget, userConfig, force, previous);
      }
    } else if OpensOnTool(units[|units| - 1]) {
      NoBudgetStopsAtNewest(messages, 0, false, None);
    } else {
      var c :| 0 <= c < |units| - 1 && AgesFrom(units, c) && OpensOnTool(units[c + 1]);
      var budget, userConfig := ReachedByAgeing(messages, c);
      TailHead(messages, budget, userConfig, true, None);
      assert OpensOnTool(Retain(messages, budget, userConfig, true, None).tail);
    }
  }

  // ---- Two concrete histories ----

  function Orphan(id: int): Message {
    Message(id, Role.Tool, [ToolResult("c", "t", false, "")], 0)
  }

  /** A lone orphan is the tail whatever the budget and the trigger: the trim loop keeps one unit. */
  lemma LoneOrphanIsTheTail(budget: nat, userConfig: nat, force: bool, previous: Option<string>)
    ensures Retain([Orphan(1)], budget, userConfig, force, previous).tail == [Orphan(1)]
  {
    SoloSelection(Orphan(1), budget, userConfig, force, previous);
  }

  function Spoken(id: int, role: Role): Message {
    Message(id, role, [Part.Text("hi")], 0)
  }

  lemma SpokenUnits()
    ensures var messages := [Spoken(1, User), Orphan(2), Spoken(3, Assistant)];
      && UnitsOf(messages) == [[messages[0]], [messages[1]], [messages[2]]] && DistinctIds(messages)
  {
    hide Units, Remaining, SystemPrefix, CallIds;
    var user, orphan, answer := Spoken(1, User), Orphan(2), Spoken(3, Assistant);
    NoSystemRemains([user, orphan, answer]);
    NoCalls(user);
    NoCalls(orphan);
    ThreeUnits(user, orphan, answer);
  }

  lemma NoCalls(m: Message)
    requires forall part :: part in m.parts ==> !part.ToolCall?
    ensures CallIds(m) == {}
  {
  }

  lemma ThreeUnits(a: Message, b: Message, c: Message)
    requires CallIds(a) == {} && CallIds(b) == {}
    ensures Units([a, b, c]) == [[a], [b], [c]]
  {
    hide *;
    assert [a, b, c] == [a] + [b, c] && [b, c] == [b] + [c];
    SingleUnits(a, [b, c]);
    SingleUnits(b, [c]);
    SoloUnits(c);
  }

  lemma NoSystemRemains(messages: seq<Message>)
    requires forall m :: m in messages ==> m.role != System
    ensures Remaining(messages)[SystemPrefix(Remaining(messages))..] == messages
  {
    hide SummaryMessageBody, Remaining;
    forall m | m in messages ensures !Recognized(m) {
      if Recognized(m) { RecognizedIsSystem(m); }
    }
    RemainingFacts(messages);
  }

  lemma SingleUnits(m: Message, rest: seq<Message>)
    requires CallIds(m) == {}
    ensures Units([m] + rest) == [[m]] + Units(rest)
  {
    assert ([m] + rest)[1..] == rest && ([m] + rest)[..1] == [m];
    assert FirstUnit([m] + rest) == 1;
  }

  /** A forced compaction that fits everything ages one unit away and leaves an orphan in front. */
  lemma ForcedAgeingUncoversOrphan() returns (budget: nat, userConfig: nat)
    ensures var messages := [Spoken(1, User), Orphan(2), Spoken(3, Assistant)];
      OpensOnTool(Retain(messages, budget, userConfig, true, None).tail)
  {
    var messages := [Spoken(1, User), Orphan(2), Spoken(3, Assistant)];
    SpokenUnits();
    hide UnitsOf, Retain, DistinctIds;
    assert UnitsOf(messages)[..0] == [];
    assert AgesFrom(UnitsOf(messages), 0);
    budget, userConfig := ReachedByAgeing(messages, 0);
    TailHead(messages, budget, userConfig, true, None);
  }
}
