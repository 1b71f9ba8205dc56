/** What every retention decision guarantees. */
module RetentionProperties {
  import opened Wrappers
  import opened Messages
  import opened Tokens
  import opened MessageUnits
  import opened Summaries
  import opened Retention

  predicate TimeOrdered(messages: seq<Message>) {
    forall i, j :: 0 <= i < j < |messages| ==> messages[i].createdAt <= messages[j].createdAt
  }

  // ---- Conservation and order, step by step ----

  /** Users and dropped messages are exactly what precedes the tail; nothing is reordered in time. */
  predicate Sound(split: Split, units: seq<seq<Message>>, users: seq<Message>) {
    && split.cut <= |units|
    && multiset(split.users) + multiset(split.dropped) == multiset(Flatten(units[..split.cut]))
    && |split.users| <= |users| && split.users == users[|users| - |split.users|..]
    && (TimeOrdered(Flatten(units)) ==> TimeOrdered(split.dropped))
  }

  lemma {:induction false} KeptAndOthers(messages: seq<Message>, ids: set<int>)
    ensures multiset(Kept(messages, ids)) + multiset(Others(messages, ids)) == multiset(messages)
    ensures forall m :: m in Kept(messages, ids) <==> m in messages && m.id in ids
  {
    if messages != [] {
      KeptAndOthers(messages[1..], ids);
      assert messages == [messages[0]] + messages[1..];
    }
  }

  lemma {:induction false} OthersFacts(messages: seq<Message>, ids: set<int>)
    ensures forall m :: m in Others(messages, ids) <==> m in messages && m.id !in ids
    ensures TimeOrdered(messages) ==> TimeOrdered(Others(messages, ids))
  {
    if messages != [] {
      OthersFacts(messages[1..], ids);
      PrependOrdered(messages[0], messages[1..], Others(messages[1..], ids));
      assert messages == [messages[0]] + messages[1..];
    }
  }

  lemma PrependOrdered(head: Message, rest: seq<Message>, some: seq<Message>)
    requires forall m :: m in some ==> m in rest
    ensures TimeOrdered([head] + rest) && TimeOrdered(some) ==> TimeOrdered([head] + some)
    ensures TimeOrdered([head] + rest) ==> TimeOrdered(rest)
  {
    var all := [head] + rest;
    assert all[0] == head && forall i :: 0 <= i < |rest| ==> all[i + 1] == rest[i];
    if TimeOrdered(all) {
      assert forall m :: m in rest ==> head.createdAt <= m.createdAt;
      assert forall i :: 0 <= i < |some| ==> some[i] in some;
    }
  }

  lemma PrependDistinct(head: Message, rest: seq<Message>, some: seq<Message>)
    requires forall m :: m in some ==> m in rest
    ensures DistinctIds([head] + rest) && DistinctIds(some) ==> DistinctIds([head] + some)
    ensures DistinctIds([head] + rest) ==> DistinctIds(rest)
  {
    var all := [head] + rest;
    assert all[0] == head && forall i :: 0 <= i < |rest| ==> all[i + 1] == rest[i];
    if DistinctIds(all) {
      assert forall m :: m in rest ==> head.id != m.id;
      assert forall i :: 0 <= i < |some| ==> some[i] in some;
    }
  }

  lemma InsertLast(init: seq<Message>, last: Message, m: Message, inserted: seq<Message>)
    requires multiset(inserted) == multiset(init) + multiset{m}
    requires TimeOrdered(init + [last]) && TimeOrdered(inserted) && m.createdAt < last.createdAt
    ensures TimeOrdered(inserted + [last])
  {
    forall i | 0 <= i < |inserted| ensures inserted[i].createdAt <= last.createdAt {
      assert inserted[i] in multiset(inserted);
      assert inserted[i] in multiset(init) + multiset{m};
      if inserted[i] != m {
        assert inserted[i] in multiset(init);
        var k :| 0 <= k < |init| && init[k] == inserted[i];
        assert (init + [last])[k] == init[k] && (init + [last])[|init|] == last;
      }
    }
  }

  lemma {:induction false} InsertKeeps(sorted: seq<Message>, m: Message)
    requires TimeOrdered(sorted)
    ensures multiset(InsertByTime(sorted, m)) == multiset(sorted) + multiset{m}
    ensures TimeOrdered(InsertByTime(sorted, m))
  {
    if sorted != [] && sorted[|sorted| - 1].createdAt > m.createdAt {
      var init, last := sorted[..|sorted| - 1], sorted[|sorted| - 1];
      assert sorted == init + [last];
      InsertKeeps(init, m);
      InsertLast(init, last, m, InsertByTime(init, m));
    }
  }

  lemma {:induction false} SortKeeps(messages: seq<Message>)
    ensures multiset(SortByTime(messages)) == multiset(messages)
    ensures TimeOrdered(SortByTime(messages))
  {
    if messages != [] {
      hide InsertByTime, TimeOrdered;
      var init, last := messages[..|messages| - 1], messages[|messages| - 1];
      SortKeeps(init);
      InsertKeeps(SortByTime(init), last);
      assert messages == init + [last];
    }
  }

  function CreatedAt(messages: seq<Message>, time: int): seq<Message> {
    if messages == [] then []
    else
      var init, last := messages[..|messages| - 1], messages[|messages| - 1];
      CreatedAt(init, time) + if last.createdAt == time then [last] else []
  }

  lemma CreatedAtSnoc(messages: seq<Message>, m: Message, time: int)
    ensures CreatedAt(messages + [m], time) == CreatedAt(messages, time) + if m.createdAt == time then [m] else []
  {
    assert (messages + [m])[..|messages|] == messages;
  }

  lemma {:induction false} InsertIsStable(sorted: seq<Message>, m: Message, time: int)
    ensures CreatedAt(InsertByTime(sorted, m), time)
         == CreatedAt(sorted, time) + if m.createdAt == time then [m] else []
    decreases |sorted|
  {
    if sorted == [] || sorted[|sorted| - 1].createdAt <= m.createdAt {
      CreatedAtSnoc(sorted, m, time);
    } else {
      var init, last := sorted[..|sorted| - 1], sorted[|sorted| - 1];
      InsertIsStable(init, m, time);
      CreatedAtSnoc(InsertByTime(init, m), last, time);
    }
  }

  /** The re-sort of dropped messages is stable: messages of one time keep their order. */
  lemma {:induction false} SortIsStable(messages: seq<Message>, time: int)
    ensures CreatedAt(SortByTime(messages), time) == CreatedAt(messages, time)
  {
    if messages != [] {
      hide InsertByTime;
      var init, last := messages[..|messages| - 1], messages[|messages| - 1];
      SortIsStable(init, time);
      InsertIsStable(SortByTime(init), last, time);
    }
  }

  lemma FirstIsSound(frame: Frame)
    ensures Sound(FirstSplit(frame), frame.units, FirstSplit(frame).users)
  {
    var dropped := Flatten(frame.units[..FirstSplit(frame).cut]);
    KeptAndOthers(dropped, UserIds(dropped, |dropped|, 0, {}, frame.userBudget));
    OthersFacts(dropped, UserIds(dropped, |dropped|, 0, {}, frame.userBudget));
    CutFlatten(frame.units, FirstSplit(frame).cut);
    assert dropped == Flatten(frame.units)[..|dropped|];
  }

  lemma LaterUnit(before: seq<Message>, unit: seq<Message>, after: seq<Message>, dropped: seq<Message>)
    requires TimeOrdered(before + unit + after) && TimeOrdered(dropped)
    requires forall m :: m in dropped ==> m in before
    ensures TimeOrdered(dropped + unit)
  {
    var all := before + unit + after;
    forall i, j | 0 <= i < |dropped| && 0 <= j < |unit| ensures dropped[i].createdAt <= unit[j].createdAt {
      assert dropped[i] in dropped;
      var k :| 0 <= k < |before| && before[k] == dropped[i];
      assert all[k] == before[k] && all[|before| + j] == unit[j];
    }
    forall i, j | 0 <= i < j < |unit| ensures unit[i].createdAt <= unit[j].createdAt {
      assert all[|before| + i] == unit[i] && all[|before| + j] == unit[j];
    }
  }

  lemma AgeUnitIsSound(split: Split, units: seq<seq<Message>>, users: seq<Message>)
    requires Sound(split, units, users) && split.cut < |units|
    ensures Sound(AgeUnit(split, units), units, users)
  {
    var before, unit, after := Flatten(units[..split.cut]), units[split.cut], Flatten(units[split.cut + 1..]);
    FlattenUpTo(units, split.cut);
    CutFlatten(units, split.cut);
    FlattenFrom(units, split.cut);
    assert Flatten(units) == before + unit + after;
    assert forall m :: m in split.dropped ==> m in multiset(split.dropped) && m in multiset(before);
    if TimeOrdered(Flatten(units)) { LaterUnit(before, unit, after, split.dropped); }
  }

  lemma GiveUpUserIsSound(split: Split, units: seq<seq<Message>>, users: seq<Message>)
    requires Sound(split, units, users) && split.users != []
    ensures Sound(GiveUpUser(split), units, users)
  {
    hide Flatten, SortByTime, TimeOrdered;
    SortKeeps(split.dropped + [split.users[0]]);
    assert split.users == [split.users[0]] + split.users[1..];
  }

  lemma {:induction false} AgeIsSound(split: Split, units: seq<seq<Message>>, force: bool, users: seq<Message>)
    requires Sound(split, units, users)
    ensures Sound(AgeForced(split, units, force), units, users)
    ensures AgeForced(split, units, force).users == split.users
    decreases |units| - split.cut
  {
    if force && split.dropped == [] && split.cut + 1 < |units| {
      AgeUnitIsSound(split, units, users);
      AgeIsSound(AgeUnit(split, units), units, force, users);
    }
  }

  lemma {:induction false} ShrinkIsSound(split: Split, frame: Frame, budget: nat, users: seq<Message>)
    requires Sound(split, frame.units, users)
    ensures Sound(Shrink(split, frame, budget), frame.units, users)
    ensures var final := Shrink(split, frame, budget);
      Total(final, frame) <= budget || (final.users == [] && final.cut + 1 >= |frame.units|)
    decreases |split.users| + |frame.units| - split.cut
  {
    if Total(split, frame) <= budget {
    } else if split.users != [] {
      GiveUpUserIsSound(split, frame.units, users);
      ShrinkIsSound(GiveUpUser(split), frame, budget, users);
    } else if split.cut + 1 < |frame.units| {
      AgeUnitIsSound(split, frame.units, users);
      ShrinkIsSound(AgeUnit(split, frame.units), frame, budget, users);
    }
  }

  lemma FinalIsSound(frame: Frame, budget: nat, force: bool)
    ensures var final := FinalSplit(frame, budget, force);
      && Sound(final, frame.units, FirstSplit(frame).users)
      && (Total(final, frame) <= budget || (final.users == [] && final.cut + 1 >= |frame.units|))
  {
    var first := FirstSplit(frame);
    FirstIsSound(frame);
    AgeIsSound(first, frame.units, force, first.users);
    ShrinkIsSound(AgeForced(first, frame.units, force), frame, budget, first.users);
  }

  // ---- The frame of one compaction ----

  lemma RetainParts(messages: seq<Message>, budget: nat, userConfig: nat, force: bool, previous: Option<string>)
    returns (frame: Frame, split: Split, selection: Selection)
    ensures frame == FrameOf(messages, budget, userConfig, previous) && split == FinalSplit(frame, budget, force)
    ensures selection == Retain(messages, budget, userConfig, force, previous)
    ensures split.cut <= |frame.units| && (frame.units != [] ==> split.cut < |frame.units|)
    ensures selection.prefix == frame.prefix && selection.users == split.users && selection.dropped == split.dropped
    ensures selection.tail == Flatten(frame.units[split.cut..]) && selection.summaryBudget == frame.summaryBudget
    ensures selection.folded == frame.folded == Folded(messages, previous)
  {
    hide Units, Flatten, Remaining, FoldedBodies, SystemPrefix, Shrink, AgeForced, FirstSplit, Folded;
    frame := FrameOf(messages, budget, userConfig, previous);
    split := FinalSplit(frame, budget, force);
    selection := Retain(messages, budget, userConfig, force, previous);
  }

  lemma TotalOf(split: Split, frame: Frame)
    requires split.cut <= |frame.units|
    ensures Total(split, frame)
         == Estimate(frame.prefix) + Estimate(split.users) + frame.summaryBudget
            + Estimate(Flatten(frame.units[split.cut..]))
  {
  }

  lemma {:induction false} PrefixIsSystem(messages: seq<Message>)
    ensures forall m :: m in messages[..SystemPrefix(messages)] ==> m.role == System
    ensures SystemPrefix(messages) < |messages| ==> messages[SystemPrefix(messages)].role != System
  {
    if messages != [] && messages[0].role == System {
      PrefixIsSystem(messages[1..]);
      var n := SystemPrefix(messages);
      assert messages[..n] == [messages[0]] + messages[1..][..n - 1];
    }
  }

  lemma {:induction false} RemainingKeepsOrder(messages: seq<Message>)
    ensures TimeOrdered(messages) ==> TimeOrdered(Remaining(messages))
    ensures DistinctIds(messages) ==> DistinctIds(Remaining(messages))
  {
    if messages != [] {
      hide TimeOrdered, DistinctIds, Recognized;
      RemainingKeepsOrder(messages[1..]);
      RemainingFacts(messages[1..]);
      PrependOrdered(messages[0], messages[1..], Remaining(messages[1..]));
      PrependDistinct(messages[0], messages[1..], Remaining(messages[1..]));
      assert messages == [messages[0]] + messages[1..];
    }
  }

  /** The pinned prefix and the units are the non-summary history, cut where the leading System messages end. */
  lemma FrameCoversHistory(messages: seq<Message>, budget: nat, userConfig: nat, previous: Option<string>)
    ensures var frame := FrameOf(messages, budget, userConfig, previous);
      && frame.prefix + Flatten(frame.units) == Remaining(messages)
      && frame.units == Units(Flatten(frame.units))
      && (forall m :: m in frame.prefix ==> m.role == System)
      && (frame.units != [] ==> Flatten(frame.units) != [] && Flatten(frame.units)[0].role != System)
      && (TimeOrdered(messages) ==> TimeOrdered(Flatten(frame.units)))
      && (DistinctIds(messages) ==> DistinctIds(frame.prefix + Flatten(frame.units)))
  {
    var rest := Remaining(messages);
    PrefixIsSystem(rest);
    UnitsFlatten(rest[SystemPrefix(rest)..]);
    RemainingKeepsOrder(messages);
    assert rest == rest[..SystemPrefix(rest)] + rest[SystemPrefix(rest)..];
  }

  /**
   * The selection is a partition of the non-summary history. The tail is a
   * suffix of whole units and is never empty while there is a unit.
   */
  lemma RetentionIsPartition(
    messages: seq<Message>, budget: nat, userConfig: nat, force: bool, previous: Option<string>)
    ensures var selection := Retain(messages, budget, userConfig, force, previous);
      var units := FrameOf(messages, budget, userConfig, previous).units;
      && selection.prefix + Flatten(units) == Remaining(messages)
      && multiset(selection.prefix + selection.users + selection.dropped + selection.tail)
         == multiset(Remaining(messages))
      && (exists cut ::
            && 0 <= cut <= |units| && (units != [] ==> cut < |units|)
            && selection.tail == Flatten(units[cut..]))
  {
    var frame := FrameOf(messages, budget, userConfig, previous);
    var final := FinalSplit(frame, budget, force);
    FrameCoversHistory(messages, budget, userConfig, previous);
    FinalIsSound(frame, budget, force);
    CutFlatten(frame.units, final.cut);
    PartitionOfParts(frame.prefix, final.users, final.dropped,
                     Flatten(frame.units[..final.cut]), Flatten(frame.units[final.cut..]));
  }

  lemma PartitionOfParts(
    prefix: seq<Message>, users: seq<Message>, dropped: seq<Message>, before: seq<Message>, tail: seq<Message>)
    requires multiset(users) + multiset(dropped) == multiset(before)
    ensures multiset(prefix + users + dropped + tail) == multiset(prefix + (before + tail))
  {
  }

  /** For a time-ordered history the dropped messages stay in time order, through every re-sort. */
  lemma DroppedInTimeOrder(messages: seq<Message>, budget: nat, userConfig: nat, force: bool, previous: Option<string>)
    requires TimeOrdered(messages)
    ensures TimeOrdered(Retain(messages, budget, userConfig, force, previous).dropped)
  {
    FrameCoversHistory(messages, budget, userConfig, previous);
    FinalIsSound(FrameOf(messages, budget, userConfig, previous), budget, force);
  }

  predicate Subsequence(a: seq<Message>, b: seq<Message>) {
    if a == [] then true
    else if b == [] then false
    else if a[0] == b[0] then Subsequence(a[1..], b[1..])
    else Subsequence(a, b[1..])
  }

  lemma {:induction false} KeptIsSubsequence(messages: seq<Message>, ids: set<int>, n: nat)
    requires n <= |Kept(messages, ids)|
    ensures Subsequence(Kept(messages, ids)[n..], messages)
    decreases |messages|
  {
    var kept := Kept(messages, ids);
    if messages != [] && n < |kept| {
      var rest := Kept(messages[1..], ids);
      if messages[0].id in ids {
        assert kept[1..] == rest;
        KeptIsSubsequence(messages[1..], ids, if n == 0 then 0 else n - 1);
        if n == 0 {
          assert kept[0..] == kept && rest[0..] == rest;
        } else {
          assert kept[n..] == rest[n - 1..];
          if kept[n..][0] == messages[0] {
            KeptIsSubsequence(messages[1..], ids, n);
            assert kept[n..][1..] == rest[n..];
          }
        }
      } else {
        KeptIsSubsequence(messages[1..], ids, n);
        assert kept == rest;
        if kept[n..][0] == messages[0] {
          KeptIsSubsequence(messages[1..], ids, n + 1);
          assert kept[n..][1..] == rest[n + 1..];
        }
      }
    }
  }

  /** Retained users are user messages with visible text, in their original order. */
  lemma RetainedUsersInOrder(
    messages: seq<Message>, budget: nat, userConfig: nat, force: bool, previous: Option<string>)
    requires DistinctIds(messages)
    ensures var users := Retain(messages, budget, userConfig, force, previous).users;
      Subsequence(users, Remaining(messages)) && forall m :: m in users ==> Eligible(m)
  {
    var frame := FrameOf(messages, budget, userConfig, previous);
    FrameCoversHistory(messages, budget, userConfig, previous);
    FinalIsSound(frame, budget, force);
    FinalUsersInOrder(frame, FinalSplit(frame, budget, force).users);
  }

  lemma FirstUsersAre(frame: Frame) returns (dropped: seq<Message>, ids: set<int>)
    ensures FirstSplit(frame).cut <= |frame.units| && dropped == Flatten(frame.units[..FirstSplit(frame).cut])
    ensures FirstSplit(frame).users == Kept(dropped, ids)
  {
    hide Flatten, UserIds, Kept, Others, TrimOrphans, TailStart;
    dropped := Flatten(frame.units[..FirstSplit(frame).cut]);
    ids := UserIds(dropped, |dropped|, 0, {}, frame.userBudget);
  }

  lemma FinalUsersInOrder(frame: Frame, users: seq<Message>)
    requires DistinctIds(frame.prefix + Flatten(frame.units))
    requires exists n :: 0 <= n <= |FirstSplit(frame).users| && users == FirstSplit(frame).users[n..]
    ensures Subsequence(users, frame.prefix + Flatten(frame.units)) && forall m :: m in users ==> Eligible(m)
  {
    hide *;
    var n :| 0 <= n <= |FirstSplit(frame).users| && users == FirstSplit(frame).users[n..];
    var dropped, ids := FirstUsersAre(frame);
    var after := Flatten(frame.units[FirstSplit(frame).cut..]);
    CutFlatten(frame.units, FirstSplit(frame).cut);
    assert frame.prefix + Flatten(frame.units) == frame.prefix + dropped + after;
    DistinctSlice(frame.prefix, dropped, after);
    FirstUsersEligible(frame);
    KeptSuffixInOrder(frame.prefix, dropped, after, ids, n);
  }

  lemma KeptSuffixInOrder(before: seq<Message>, messages: seq<Message>, after: seq<Message>, ids: set<int>, n: nat)
    requires DistinctIds(before + messages + after) && n <= |Kept(messages, ids)|
    ensures Subsequence(Kept(messages, ids)[n..], before + messages + after)
  {
    hide *;
    DistinctSlice(before, messages, after);
    KeptAndOthers(messages, ids);
    KeptIsSubsequence(messages, ids, n);
    SubsequenceWidens(before, Kept(messages, ids)[n..], messages, after);
  }

  lemma DistinctSlice(a: seq<Message>, b: seq<Message>, c: seq<Message>)
    requires DistinctIds(a + b + c)
    ensures DistinctIds(b)
    ensures forall x, y :: x in a + b && y in c ==> x.id != y.id
    ensures forall x, y :: x in a && y in b + c ==> x.id != y.id
  {
    var all := a + b + c;
    assert forall i :: 0 <= i < |b| ==> all[|a| + i] == b[i];
    forall x, y | x in a + b && y in c ensures x.id != y.id {
      var i :| 0 <= i < |a + b| && (a + b)[i] == x;
      var j :| 0 <= j < |c| && c[j] == y;
      assert all[i] == x && all[|a + b| + j] == y;
    }
    forall x, y | x in a && y in b + c ensures x.id != y.id {
      var i :| 0 <= i < |a| && a[i] == x;
      var j :| 0 <= j < |b + c| && (b + c)[j] == y;
      assert all[i] == x && all[|a| + j] == y;
    }
  }

  lemma FirstUsersEligible(frame: Frame)
    requires DistinctIds(Flatten(frame.units[..FirstSplit(frame).cut]))
    ensures forall m :: m in FirstSplit(frame).users ==> Eligible(m)
    ensures Estimate(FirstSplit(frame).users) <= frame.userBudget
  {
    var dropped := Flatten(frame.units[..FirstSplit(frame).cut]);
    UsersAreGreedy(dropped, frame.userBudget);
    KeptAndOthers(dropped, UserIds(dropped, |dropped|, 0, {}, frame.userBudget));
  }

  lemma {:induction false} SubsequenceWidens(
    before: seq<Message>, a: seq<Message>, b: seq<Message>, after: seq<Message>)
    requires Subsequence(a, b)
    requires forall x, y :: x in before && y in b ==> x.id != y.id
    requires forall m :: m in a ==> m in b
    ensures Subsequence(a, before + b + after)
    decreases |before|, |b|
  {
    if a == [] {
    } else if before != [] {
      assert (before + b + after)[1..] == before[1..] + b + after;
      assert a[0] in b;
      SubsequenceWidens(before[1..], a, b, after);
    } else {
      SubsequenceExtends(a, b, after);
      assert before + b + after == b + after;
    }
  }

  lemma {:induction false} SubsequenceExtends(a: seq<Message>, b: seq<Message>, after: seq<Message>)
    requires Subsequence(a, b)
    ensures Subsequence(a, b + after)
    decreases |b|
  {
    if a != [] {
      assert (b + after)[1..] == b[1..] + after;
      SubsequenceExtends(if a[0] == b[0] then a[1..] else a, b[1..], after);
    }
  }

  // ---- The tail is the longest affordable suffix ----

  lemma WalkStep(units: seq<seq<Message>>, cut: nat, budget: nat)
    requires 0 < cut <= |units|
    ensures Estimate(Flatten(units[cut - 1..])) == Estimate(Flatten(units[cut..])) + Estimate(units[cut - 1])
    ensures TailStart(units, cut, Estimate(Flatten(units[cut..])), budget)
         == if cut == |units| || Estimate(Flatten(units[cut - 1..])) <= budget
            then TailStart(units, cut - 1, Estimate(Flatten(units[cut - 1..])), budget) else cut
  {
    hide Flatten, Estimate;
    FlattenFrom(units, cut - 1);
    EstimateConcat(units[cut - 1], Flatten(units[cut..]));
  }

  lemma {:induction false} WalkFromState(units: seq<seq<Message>>, cut: nat, budget: nat) returns (start: nat)
    requires cut <= |units| && (cut + 1 < |units| ==> Estimate(Flatten(units[cut..])) <= budget)
    ensures start == TailStart(units, cut, Estimate(Flatten(units[cut..])), budget)
    ensures start <= |units|
    ensures start + 1 < |units| ==> Estimate(Flatten(units[start..])) <= budget
    ensures 0 < start < |units| ==> Estimate(Flatten(units[start - 1..])) > budget
    decreases cut
  {
    if cut == 0 {
      start := 0;
    } else {
      hide *;
      WalkStep(units, cut, budget);
      if cut == |units| || Estimate(Flatten(units[cut - 1..])) <= budget {
        start := WalkFromState(units, cut - 1, budget);
      } else {
        start := cut;
      }
    }
  }

  lemma {:induction false} LongerSuffixCostsMore(units: seq<seq<Message>>, a: nat, b: nat)
    requires a <= b <= |units|
    ensures Estimate(Flatten(units[b..])) <= Estimate(Flatten(units[a..]))
    decreases b - a
  {
    if a < b {
      FlattenFrom(units, a);
      EstimateConcat(units[a], Flatten(units[a + 1..]));
      LongerSuffixCostsMore(units, a + 1, b);
    }
  }

  /**
   * Before orphans are trimmed the tail starts at the smallest unit index whose
   * suffix fits the tail budget, or at the newest unit when not even that fits.
   */
  lemma TailIsLongest(units: seq<seq<Message>>, budget: nat)
    requires units != []
    ensures var start := TailStart(units, |units|, 0, budget);
      && start < |units|
      && (start == |units| - 1 || Estimate(Flatten(units[start..])) <= budget)
      && (forall k :: 0 <= k < start ==> Estimate(Flatten(units[k..])) > budget)
  {
    assert units[|units|..] == [];
    var start := WalkFromState(units, |units|, budget);
    forall k | 0 <= k < start ensures Estimate(Flatten(units[k..])) > budget {
      LongerSuffixCostsMore(units, k, start - 1);
    }
  }

  // ---- User retention is greedy, newest first, and within its budget ----

  lemma {:induction false} KeptIgnores(messages: seq<Message>, ids: set<int>, other: set<int>)
    requires forall m :: m in messages ==> (m.id in ids <==> m.id in other)
    ensures Kept(messages, ids) == Kept(messages, other)
  {
    if messages != [] { KeptIgnores(messages[1..], ids, other); }
  }

  lemma KeptHead(messages: seq<Message>, k: nat, ids: set<int>)
    requires k < |messages|
    ensures Kept(messages[k..], ids)
         == (if messages[k].id in ids then [messages[k]] else []) + Kept(messages[k + 1..], ids)
    ensures Estimate(Kept(messages[k..], ids))
         == (if messages[k].id in ids then EstimateMessage(messages[k]) else 0) + Estimate(Kept(messages[k + 1..], ids))
  {
    assert messages[k..][1..] == messages[k + 1..];
    EstimateConcat(if messages[k].id in ids then [messages[k]] else [], Kept(messages[k + 1..], ids));
  }

  lemma UserIdsStep(messages: seq<Message>, k: nat, ids: set<int>, budget: nat) returns (next: set<int>)
    requires 0 < k <= |messages| && messages[k - 1].id !in ids
    requires forall m :: m in messages[k..] ==> m.id != messages[k - 1].id
    requires Estimate(Kept(messages[k..], ids)) <= budget
    ensures next == (if Eligible(messages[k - 1])
                        && Estimate(Kept(messages[k..], ids)) + EstimateMessage(messages[k - 1]) <= budget
                     then ids + {messages[k - 1].id} else ids)
    ensures Kept(messages[k..], next) == Kept(messages[k..], ids)
    ensures Estimate(Kept(messages[k - 1..], next)) <= budget
    ensures UserIds(messages, k, Estimate(Kept(messages[k..], ids)), ids, budget)
         == UserIds(messages, k - 1, Estimate(Kept(messages[k - 1..], next)), next, budget)
  {
    hide Kept, Eligible, EstimateMessage, Estimate;
    var m, tokens := messages[k - 1], Estimate(Kept(messages[k..], ids));
    next := if Eligible(m) && tokens + EstimateMessage(m) <= budget then ids + {m.id} else ids;
    KeptIgnores(messages[k..], ids, next);
    KeptHead(messages, k - 1, next);
  }

  lemma {:induction false} GreedyFromState(messages: seq<Message>, k: nat, ids: set<int>, budget: nat)
    returns (all: set<int>)
    requires DistinctIds(messages) && k <= |messages|
    requires forall i :: 0 <= i < k ==> messages[i].id !in ids
    requires Estimate(Kept(messages[k..], ids)) <= budget
    ensures all == UserIds(messages, k, Estimate(Kept(messages[k..], ids)), ids, budget)
    ensures Estimate(Kept(messages, all)) <= budget
    ensures forall i :: k <= i < |messages| ==> (messages[i].id in all <==> messages[i].id in ids)
    ensures forall i :: 0 <= i < k ==> (messages[i].id in all <==>
              Eligible(messages[i]) && Estimate(Kept(messages[i + 1..], all)) + EstimateMessage(messages[i]) <= budget)
    decreases k
  {
    hide Kept, Eligible, EstimateMessage, Estimate;
    if k == 0 {
      assert messages[0..] == messages;
      all := ids;
    } else {
      var next := UserIdsStep(messages, k, ids, budget);
      hide UserIds;
      all := GreedyFromState(messages, k - 1, next, budget);
      KeptIgnores(messages[k..], ids, all);
    }
  }

  /** A dropped user message is retained iff it fits after everything newer that was retained. */
  lemma UsersAreGreedy(messages: seq<Message>, budget: nat)
    requires DistinctIds(messages)
    ensures var ids := UserIds(messages, |messages|, 0, {}, budget);
      && Estimate(Kept(messages, ids)) <= budget
      && (forall i :: 0 <= i < |messages| ==> (messages[i].id in ids <==>
            Eligible(messages[i]) && Estimate(Kept(messages[i + 1..], ids)) + EstimateMessage(messages[i]) <= budget))
  {
    assert messages[|messages|..] == [];
    var _ := GreedyFromState(messages, |messages|, {}, budget);
  }

  // ---- A history of one message ----

  lemma SoloFrame(m: Message, budget: nat, userConfig: nat, previous: Option<string>)
    requires m.role != System
    ensures var frame := FrameOf([m], budget, userConfig, previous); frame.prefix == [] && frame.units == [[m]]
  {
    hide SummaryMessageBody, Estimate, Folded;
    assert !Recognized(m) by { if Recognized(m) { RecognizedIsSystem(m); } }
    assert [m][1..] == [];
    assert Remaining([m]) == [m] + Remaining([]);
    SoloUnits(m);
    assert [m][0..] == [m];
  }

  lemma SoloUnits(m: Message)
    ensures Units([m]) == [[m]]
  {
    assert FirstUnit([m]) == 1;
    assert [m][..1] == [m] && [m][1..] == [];
  }

  /** A single message is the tail, whatever the budget. */
  lemma SoloSelection(m: Message, budget: nat, userConfig: nat, force: bool, previous: Option<string>)
    requires m.role != System
    ensures var selection := Retain([m], budget, userConfig, force, previous);
      selection.prefix == [] && selection.users == [] && selection.tail == [m]
  {
    SoloFrame(m, budget, userConfig, previous);
    RetentionIsPartition([m], budget, userConfig, force, previous);
    hide Retain, FrameOf, Recognized;
    var selection := Retain([m], budget, userConfig, force, previous);
    var units := [[m]];
    FlattenFrom(units, 0);
    assert units[0..] == units;
    assert selection.tail == [m];
    assert selection.prefix + [m] == Remaining([m]);
    RemainingFacts([m]);
    NothingElse(selection.prefix, selection.users, selection.dropped, m);
  }

  lemma NothingElse(prefix: seq<Message>, users: seq<Message>, dropped: seq<Message>, m: Message)
    requires multiset(prefix + users + dropped + [m]) == multiset(prefix + [m])
    ensures users == []
  {
    assert |multiset(prefix + users + dropped + [m])| == |prefix| + |users| + |dropped| + 1;
  }

  // ---- Fit ----

  /**
   * The shrink loop ends within budget, or with no retained user and the
   * newest unit as the whole tail: the two things it can still give up.
   */
  lemma ShrinkFitsOrIsMinimal(
    messages: seq<Message>, budget: nat, userConfig: nat, force: bool, previous: Option<string>)
    ensures var selection := Retain(messages, budget, userConfig, force, previous);
      var units := FrameOf(messages, budget, userConfig, previous).units;
      || Estimate(selection.prefix) + Estimate(selection.users) + selection.summaryBudget + Estimate(selection.tail)
         <= budget
      || (selection.users == [] && selection.tail == if units == [] then [] else units[|units| - 1])
  {
    hide *;
    var frame, split, _ := RetainParts(messages, budget, userConfig, force, previous);
    FinalIsSound(frame, budget, force);
    TotalOf(split, frame);
    if frame.units == [] {
      assert frame.units[split.cut..] == [];
      NoUnits();
    } else {
      FlattenFrom(frame.units, |frame.units| - 1);
    }
  }

  lemma NoUnits()
    ensures Flatten([]) == []
  {
  }

  /** The three budgets add up to what is available beside the prefix. */
  lemma BudgetsAddUp(messages: seq<Message>, budget: nat, userConfig: nat, previous: Option<string>)
    requires budget >= Estimate(FrameOf(messages, budget, userConfig, previous).prefix) + 64
    ensures var frame := FrameOf(messages, budget, userConfig, previous);
      Estimate(frame.prefix) + frame.summaryBudget + frame.userBudget + frame.tailBudget == budget
  {
  }

  lemma FrameFits(frame: Frame, force: bool)
    requires DistinctIds(Flatten(frame.units))
    requires frame.units != [] ==> Estimate(frame.units[|frame.units| - 1]) <= frame.tailBudget
    ensures var aged := AgeForced(FirstSplit(frame), frame.units, force);
      && Estimate(aged.users) <= frame.userBudget
      && Estimate(Flatten(frame.units[aged.cut..])) <= frame.tailBudget
  {
    hide *;
    var units, first := frame.units, FirstSplit(frame);
    var aged := AgeForced(first, units, force);
    CutFlatten(units, first.cut);
    var before, after := Flatten(units[..first.cut]), Flatten(units[first.cut..]);
    assert Flatten(units) == [] + before + after;
    DistinctSlice([], before, after);
    FirstUsersEligible(frame);
    AgeKeepsUsers(first, units, force);
    if units == [] {
      assert units[aged.cut..] == [];
      NoUnits();
      NoTokens();
    } else {
      TailIsLongest(units, frame.tailBudget);
      FlattenFrom(units, |units| - 1);
      FirstCutFollows(frame);
      LongerSuffixCostsMore(units, TailStart(units, |units|, 0, frame.tailBudget), aged.cut);
    }
  }

  lemma {:induction false} AgeKeepsUsers(split: Split, units: seq<seq<Message>>, force: bool)
    ensures AgeForced(split, units, force).users == split.users
    decreases |units| - split.cut
  {
    if force && split.dropped == [] && split.cut + 1 < |units| {
      AgeKeepsUsers(AgeUnit(split, units), units, force);
    }
  }

  lemma FirstCutFollows(frame: Frame)
    ensures FirstSplit(frame).cut >= TailStart(frame.units, |frame.units|, 0, frame.tailBudget)
  {
    hide Flatten, Kept, Others, UserIds, TailStart, TrimOrphans;
  }

  lemma NoTokens()
    ensures Estimate([]) == 0
  {
  }

  /**
   * With 64 tokens to spare beside the pinned prefix and a newest unit that
   * fits the tail budget, the shrink loop removes nothing.
   */
  lemma {:induction false} NothingToShrink(
    messages: seq<Message>, budget: nat, userConfig: nat, force: bool, previous: Option<string>)
    requires DistinctIds(messages)
    requires var frame := FrameOf(messages, budget, userConfig, previous);
      && budget >= Estimate(frame.prefix) + 64
      && (frame.units != [] ==> Estimate(frame.units[|frame.units| - 1]) <= frame.tailBudget)
    ensures var frame := FrameOf(messages, budget, userConfig, previous);
      && FinalSplit(frame, budget, force) == AgeForced(FirstSplit(frame), frame.units, force)
      && Total(FinalSplit(frame, budget, force), frame) <= budget
  {
    var frame := FrameOf(messages, budget, userConfig, previous);
    FrameCoversHistory(messages, budget, userConfig, previous);
    assert frame.prefix + Flatten(frame.units) == frame.prefix + Flatten(frame.units) + [];
    DistinctSlice(frame.prefix, Flatten(frame.units), []);
    FrameFits(frame, force);
    BudgetsAddUp(messages, budget, userConfig, previous);
  }
}
