/** How the budget is shared, and that no large tool output stays behind the newest unit (bt-context). */
module RetentionBudgets {
  import opened Wrappers
  import opened Messages
  import opened Tokens
  import opened MessageUnits
  import opened Summaries
  import opened Retention
  import opened RetentionProperties

  /** `part` of the whole, rounded down. */
  predicate IsShare(share: nat, parts: nat, whole: nat) {
    share * parts <= whole < (share + 1) * parts
  }

  /**
   * The summary gets an eighth of what the prefix leaves, but at least 64 and at
   * most 4096 tokens; the users get half of the rest, but no more than configured;
   * the tail gets what remains.
   */
  lemma BudgetShares(messages: seq<Message>, budget: nat, userConfig: nat, previous: Option<string>)
    ensures var frame := FrameOf(messages, budget, userConfig, previous);
      var available := if budget < Estimate(frame.prefix) then 0 else budget - Estimate(frame.prefix);
      var content := if available < frame.summaryBudget then 0 else available - frame.summaryBudget;
      && 64 <= frame.summaryBudget <= 4096
      && (64 < frame.summaryBudget < 4096 ==> IsShare(frame.summaryBudget, 8, available))
      && (frame.summaryBudget == 64 ==> available < 65 * 8) && (frame.summaryBudget == 4096 ==> 4096 * 8 <= available)
      && (frame.userBudget == userConfig <= content / 2
          || (frame.userBudget < userConfig && IsShare(frame.userBudget, 2, content)))
      && frame.tailBudget == content - frame.userBudget
  {
    hide Units, Folded, Remaining, Estimate, SystemPrefix;
  }

  /** A tail of more than the newest unit started within the tail budget, and only loses units after that. */
  lemma TailWithinBudget(frame: Frame, budget: nat, force: bool)
    requires frame.units != []
    ensures var cut := FinalSplit(frame, budget, force).cut;
      cut == |frame.units| - 1 || Estimate(Flatten(frame.units[cut..])) <= frame.tailBudget
  {
    hide *;
    var units := frame.units;
    var start := TailStart(units, |units|, 0, frame.tailBudget);
    TailIsLongest(units, frame.tailBudget);
    FirstCutFollows(frame);
    CutOnlyGrows(frame, budget, force);
    var cut := FinalSplit(frame, budget, force).cut;
    if cut < |units| - 1 { LongerSuffixCostsMore(units, start, cut); }
  }

  lemma CutOnlyGrows(frame: Frame, budget: nat, force: bool)
    ensures FirstSplit(frame).cut <= FinalSplit(frame, budget, force).cut
  {
    hide FirstSplit, AgeForced, Shrink;
  }

  lemma {:induction false} UnitWithinSuffix(units: seq<seq<Message>>, cut: nat, j: nat)
    requires cut <= j < |units|
    ensures forall m :: m in units[j] ==> m in Flatten(units[cut..])
    decreases j - cut
  {
    FlattenFrom(units, cut);
    if cut < j { UnitWithinSuffix(units, cut + 1, j); }
  }

  /**
   * Whatever the history, only the newest unit of a tail can hold a tool output
   * of four times the tail budget or more: any older one is dropped.
   */
  lemma LongOutputsAreDropped(
    messages: seq<Message>, budget: nat, userConfig: nat, force: bool, previous: Option<string>) returns (cut: nat)
    ensures var frame := FrameOf(messages, budget, userConfig, previous);
      && cut <= |frame.units|
      && Retain(messages, budget, userConfig, force, previous).tail == Flatten(frame.units[cut..])
      && forall j, m, part ::
           cut <= j < |frame.units| - 1 && m in frame.units[j] && part in m.parts && part.ToolResult? ==>
           |part.output| < 4 * frame.tailBudget
  {
    hide *;
    var frame, split, selection := RetainParts(messages, budget, userConfig, force, previous);
    cut := split.cut;
    var tail := Flatten(frame.units[cut..]);
    if frame.units != [] { TailWithinBudget(frame, budget, force); }
    forall j, m, part | cut <= j < |frame.units| - 1 && m in frame.units[j] && part in m.parts && part.ToolResult?
      ensures |part.output| < 4 * frame.tailBudget {
      UnitWithinSuffix(frame.units, cut, j);
      OutputWithinCost(tail, m, part);
    }
  }

  lemma OutputWithinCost(messages: seq<Message>, m: Message, part: Part)
    requires m in messages && part in m.parts && part.ToolResult?
    ensures |part.output| < 4 * Estimate(messages)
  {
    hide EstimateParts, EstimateMessage, Estimate;
    var k :| 0 <= k < |m.parts| && m.parts[k] == part;
    assert m.parts == m.parts[..k] + [part] + m.parts[k + 1..];
    CostsAddUp(messages, m, m.parts[..k], part, m.parts[k + 1..]);
    PartCosts(part);
  }
}
