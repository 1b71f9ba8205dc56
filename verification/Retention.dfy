/** What one compaction keeps, drops and folds (bt-context, `resolve_retention_selection`). */
module Retention {
  import opened Wrappers
  import opened Messages
  import opened Tokens
  import opened MessageUnits
  import opened Summaries

  const SUMMARY_BUDGET_MIN_TOKENS := 64
  const SUMMARY_BUDGET_MAX_TOKENS := 4096

  function SatSub(a: nat, b: nat): nat {
    if a < b then 0 else a - b
  }

  function Clamp(x: nat, low: nat, high: nat): nat {
    if x < low then low else if x > high then high else x
  }

  datatype Selection = Selection(
    prefix: seq<Message>, users: seq<Message>, tail: seq<Message>, dropped: seq<Message>,
    folded: seq<string>, summaryBudget: nat, messagesBefore: nat)

  /** The parts of the decision fixed before any message is selected. */
  datatype Frame = Frame(
    prefix: seq<Message>, units: seq<seq<Message>>, folded: seq<string>,
    summaryBudget: nat, userBudget: nat, tailBudget: nat)

  /** The moving part: retained users, dropped messages, and the first unit of the tail. */
  datatype Split = Split(users: seq<Message>, dropped: seq<Message>, cut: nat)

  function SystemPrefix(messages: seq<Message>): (n: nat)
    ensures n <= |messages|
  {
    if messages == [] || messages[0].role != System then 0 else 1 + SystemPrefix(messages[1..])
  }

  function Folded(messages: seq<Message>, previous: Option<string>): seq<string> {
    var folded := FoldedBodies(messages);
    match previous
    case None => folded
    case Some(text) =>
      var body := NormalizeSummaryBody(text);
      if body != "" && body !in folded then [body] + folded else folded
  }

  function FrameOf(messages: seq<Message>, budget: nat, userConfig: nat, previous: Option<string>): Frame {
    var rest := Remaining(messages);
    var prefix := rest[..SystemPrefix(rest)];
    var available := SatSub(budget, Estimate(prefix));
    var summaryBudget := Clamp(available / 8, SUMMARY_BUDGET_MIN_TOKENS, SUMMARY_BUDGET_MAX_TOKENS);
    var contentBudget := SatSub(available, summaryBudget);
    var userBudget := if userConfig < contentBudget / 2 then userConfig else contentBudget / 2;
    Frame(prefix, Units(rest[SystemPrefix(rest)..]), Folded(messages, previous),
          summaryBudget, userBudget, SatSub(contentBudget, userBudget))
  }

  /** The backward tail walk, from the state in which units `cut..` are already taken. */
  function TailStart(units: seq<seq<Message>>, cut: nat, tokens: nat, budget: nat): (start: nat)
    requires cut <= |units|
    ensures start <= cut && (cut == |units| > 0 ==> start < cut)
    decreases cut
  {
    if cut > 0 && (cut == |units| || tokens + Estimate(units[cut - 1]) <= budget)
    then TailStart(units, cut - 1, tokens + Estimate(units[cut - 1]), budget)
    else cut
  }

  function TrimOrphans(units: seq<seq<Message>>, cut: nat): (start: nat)
    ensures start == cut || cut < start < |units|
    decreases |units| - cut
  {
    if cut + 1 < |units| && units[cut] != [] && units[cut][0].role.Tool? then TrimOrphans(units, cut + 1) else cut
  }

  /** A real user message: it has visible text. */
  predicate Eligible(message: Message) {
    message.role == User && TextParts(message.parts) != []
  }

  /** The newest-first selection, from the state in which messages `k..` were already considered. */
  function UserIds(messages: seq<Message>, k: nat, tokens: nat, ids: set<int>, budget: nat): set<int>
    requires k <= |messages|
  {
    if k == 0 then ids
    else
      var m := messages[k - 1];
      if Eligible(m) && tokens + EstimateMessage(m) <= budget
      then UserIds(messages, k - 1, tokens + EstimateMessage(m), ids + {m.id}, budget)
      else UserIds(messages, k - 1, tokens, ids, budget)
  }

  function Kept(messages: seq<Message>, ids: set<int>): seq<Message> {
    if messages == [] then []
    else if messages[0].id in ids then [messages[0]] + Kept(messages[1..], ids)
    else Kept(messages[1..], ids)
  }

  function Others(messages: seq<Message>, ids: set<int>): seq<Message> {
    if messages == [] then []
    else if messages[0].id in ids then Others(messages[1..], ids)
    else [messages[0]] + Others(messages[1..], ids)
  }

  /** Stable insertion by creation time; `SortByTime` is the stable `sort_by_key`. */
  function InsertByTime(sorted: seq<Message>, m: Message): seq<Message> {
    if sorted == [] || sorted[|sorted| - 1].createdAt <= m.createdAt then sorted + [m]
    else InsertByTime(sorted[..|sorted| - 1], m) + [sorted[|sorted| - 1]]
  }

  function SortByTime(messages: seq<Message>): seq<Message> {
    if messages == [] then []
    else InsertByTime(SortByTime(messages[..|messages| - 1]), messages[|messages| - 1])
  }

  function FirstSplit(frame: Frame): (split: Split)
    ensures split.cut <= |frame.units| && (frame.units != [] ==> split.cut < |frame.units|)
  {
    var cut := TrimOrphans(frame.units, TailStart(frame.units, |frame.units|, 0, frame.tailBudget));
    var dropped := Flatten(frame.units[..cut]);
    var ids := UserIds(dropped, |dropped|, 0, {}, frame.userBudget);
    Split(Kept(dropped, ids), Others(dropped, ids), cut)
  }

  /** Ages the oldest tail unit into the dropped messages. */
  function AgeUnit(split: Split, units: seq<seq<Message>>): Split
    requires split.cut < |units|
  {
    Split(split.users, split.dropped + units[split.cut], split.cut + 1)
  }

  /** Gives up the oldest retained user message. */
  function GiveUpUser(split: Split): Split
    requires split.users != []
  {
    Split(split.users[1..], SortByTime(split.dropped + [split.users[0]]), split.cut)
  }

  function AgeForced(split: Split, units: seq<seq<Message>>, force: bool): (aged: Split)
    ensures aged.cut == split.cut || split.cut < aged.cut < |units|
    decreases |units| - split.cut
  {
    if force && split.dropped == [] && split.cut + 1 < |units|
    then AgeForced(AgeUnit(split, units), units, force)
    else split
  }

  function Total(split: Split, frame: Frame): nat
    requires split.cut <= |frame.units|
  {
    Estimate(frame.prefix) + Estimate(split.users) + frame.summaryBudget + Estimate(Flatten(frame.units[split.cut..]))
  }

  function Shrink(split: Split, frame: Frame, budget: nat): (final: Split)
    requires split.cut <= |frame.units|
    ensures final.cut == split.cut || split.cut < final.cut < |frame.units|
    decreases |split.users| + |frame.units| - split.cut
  {
    if Total(split, frame) <= budget then split
    else if split.users != [] then Shrink(GiveUpUser(split), frame, budget)
    else if split.cut + 1 < |frame.units| then Shrink(AgeUnit(split, frame.units), frame, budget)
    else split
  }

  function FinalSplit(frame: Frame, budget: nat, force: bool): (split: Split)
    ensures split.cut <= |frame.units| && (frame.units != [] ==> split.cut < |frame.units|)
  {
    Shrink(AgeForced(FirstSplit(frame), frame.units, force), frame, budget)
  }

  function Retain(
    messages: seq<Message>, budget: nat, userConfig: nat, force: bool, previous: Option<string>): Selection
  {
    var frame := FrameOf(messages, budget, userConfig, previous);
    var split := FinalSplit(frame, budget, force);
    Selection(frame.prefix, split.users, Flatten(frame.units[split.cut..]), split.dropped,
              frame.folded, frame.summaryBudget, |messages|)
  }

  // ---- The loops ----

  /** Whole units from the newest back, while they fit; the newest one always. */
  method TakeTail(units: seq<seq<Message>>, budget: nat) returns (cut: nat, tailUnits: seq<seq<Message>>)
    ensures cut == TailStart(units, |units|, 0, budget) && tailUnits == units[cut..]
  {
    hide Estimate;
    tailUnits, cut := [], |units|;
    var tailTokens: nat := 0;
    while cut > 0
      invariant cut <= |units| && tailUnits == units[cut..]
      invariant TailStart(units, cut, tailTokens, budget) == TailStart(units, |units|, 0, budget)
    {
      var unitTokens := Estimate(units[cut - 1]);
      if tailUnits == [] || tailTokens + unitTokens <= budget {
        tailUnits := [units[cut - 1]] + tailUnits;
        tailTokens := tailTokens + unitTokens;
        cut := cut - 1;
      } else {
        break;
      }
    }
  }

  /** The tail walk, and the loop that hands leading tool results over to the dropped units. */
  method WalkTail(units: seq<seq<Message>>, budget: nat)
    returns (droppedUnits: seq<seq<Message>>, tailUnits: seq<seq<Message>>)
    ensures var cut := TrimOrphans(units, TailStart(units, |units|, 0, budget));
      cut <= |units| && droppedUnits == units[..cut] && tailUnits == units[cut..]
  {
    hide TailStart;
    var cut: nat;
    cut, tailUnits := TakeTail(units, budget);
    droppedUnits := units[..cut];
    ghost var start := cut;
    while |tailUnits| > 1 && tailUnits[0] != [] && tailUnits[0][0].role.Tool?
      invariant cut <= |units| && droppedUnits == units[..cut] && tailUnits == units[cut..]
      invariant TrimOrphans(units, cut) == TrimOrphans(units, start)
    {
      droppedUnits := droppedUnits + [tailUnits[0]];
      tailUnits := tailUnits[1..];
      cut := cut + 1;
    }
  }

  method SelectUsers(messages: seq<Message>, budget: nat) returns (users: seq<Message>, dropped: seq<Message>)
    ensures var ids := UserIds(messages, |messages|, 0, {}, budget);
      users == Kept(messages, ids) && dropped == Others(messages, ids)
  {
    var ids, tokens: nat, k := {}, 0, |messages|;
    while k > 0
      invariant 0 <= k <= |messages|
      invariant UserIds(messages, k, tokens, ids, budget) == UserIds(messages, |messages|, 0, {}, budget)
    {
      k := k - 1;
      if messages[k].role != User { continue; }
      if TextParts(messages[k].parts) == [] { continue; }
      var messageTokens := EstimateMessage(messages[k]);
      if tokens + messageTokens > budget { continue; }
      tokens := tokens + messageTokens;
      ids := ids + {messages[k].id};
    }
    users, dropped := Kept(messages, ids), Others(messages, ids);
  }

  /** A forced compaction that dropped nothing ages one unit, unless it is the last. */
  method AgeWhenForced(first: Split, units: seq<seq<Message>>, force: bool) returns (aged: Split)
    requires first.cut <= |units|
    ensures aged == AgeForced(first, units, force)
  {
    var dropped, tailUnits := first.dropped, units[first.cut..];
    ghost var cut: nat := first.cut;
    while force && dropped == [] && |tailUnits| > 1
      invariant cut <= |units| && tailUnits == units[cut..]
      invariant AgeForced(Split(first.users, dropped, cut), units, force) == AgeForced(first, units, force)
      decreases |tailUnits|
    {
      dropped := dropped + tailUnits[0];
      tailUnits := tailUnits[1..];
      cut := cut + 1;
    }
    aged := Split(first.users, dropped, |units| - |tailUnits|);
  }

  /** The ageing loop, then the shrink loop: users oldest first, then tail units, while over budget. */
  method AgeAndShrink(first: Split, frame: Frame, budget: nat, force: bool)
    returns (users: seq<Message>, dropped: seq<Message>, tailUnits: seq<seq<Message>>)
    requires first.cut <= |frame.units|
    ensures var final := Shrink(AgeForced(first, frame.units, force), frame, budget);
      users == final.users && dropped == final.dropped && tailUnits == frame.units[final.cut..]
  {
    hide SortByTime, Flatten, Estimate, AgeForced;
    var aged := AgeWhenForced(first, frame.units, force);
    users, dropped, tailUnits := aged.users, aged.dropped, frame.units[aged.cut..];
    ghost var cut: nat := aged.cut;
    while true
      invariant cut <= |frame.units| && tailUnits == frame.units[cut..]
      invariant Shrink(Split(users, dropped, cut), frame, budget) == Shrink(aged, frame, budget)
      decreases |users| + |tailUnits|
    {
      var total := Estimate(frame.prefix) + Estimate(users) + frame.summaryBudget + Estimate(Flatten(tailUnits));
      if total <= budget { break; }
      if users != [] {
        dropped := SortByTime(dropped + [users[0]]);
        users := users[1..];
        continue;
      }
      if |tailUnits| > 1 {
        dropped := dropped + tailUnits[0];
        tailUnits := tailUnits[1..];
        cut := cut + 1;
        continue;
      }
      break;
    }
  }

  method ResolveRetentionSelection(
    messages: seq<Message>, budget: nat, userConfig: nat, force: bool, previous: Option<string>)
    returns (selection: Selection)
    ensures selection == Retain(messages, budget, userConfig, force, previous)
  {
    var folded, rest := ExtractSummaryMessages(messages);
    if previous.Some? {
      var body := NormalizeSummaryBody(previous.value);
      if body != "" && body !in folded { folded := [body] + folded; }
    }
    var split := SystemPrefix(rest);
    var prefix := rest[..split];
    var units := BuildMessageUnits(rest[split..]);
    var available := SatSub(budget, Estimate(prefix));
    var summaryBudget := Clamp(available / 8, SUMMARY_BUDGET_MIN_TOKENS, SUMMARY_BUDGET_MAX_TOKENS);
    var contentBudget := SatSub(available, summaryBudget);
    var userBudget := if userConfig < contentBudget / 2 then userConfig else contentBudget / 2;
    var tailBudget := SatSub(contentBudget, userBudget);
    var frame := Frame(prefix, units, folded, summaryBudget, userBudget, tailBudget);
    assert frame == FrameOf(messages, budget, userConfig, previous);

    var droppedUnits, tailUnits := WalkTail(units, tailBudget);
    var cut := |droppedUnits|;
    var users, dropped := SelectUsers(Flatten(droppedUnits), userBudget);
    assert Split(users, dropped, cut) == FirstSplit(frame);
    users, dropped, tailUnits := AgeAndShrink(Split(users, dropped, cut), frame, budget, force);
    selection := Selection(prefix, users, Flatten(tailUnits), dropped, folded, summaryBudget, |messages|);
  }
}
