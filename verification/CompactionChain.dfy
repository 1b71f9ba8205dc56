/** Chain, not stack: one summary at a time, over any number of rounds; and the size of the compacted context. */
module CompactionChain {
  import opened Wrappers
  import opened Text
  import opened Messages
  import opened Tokens
  import opened MessageUnits
  import opened Summaries
  import opened Retention
  import opened RetentionProperties
  import opened Compaction
  import opened CompactionProperties

  // ---- One round ----

  predicate Quiet(messages: seq<Message>) {
    forall m :: m in messages ==> !Recognized(m)
  }

  /** The only recognised summary in the context carries this body. */
  predicate OneSummary(context: seq<Message>, body: string) {
    exists k :: 0 <= k < |context| && SummaryMessageBody(context[k]) == Some(body)
                && Quiet(context[..k]) && Quiet(context[k + 1..])
  }

  /** A compaction leaves exactly one recognised summary, and the recorded event text normalises to its body. */
  lemma CompactionLeavesOneSummary(messages: seq<Message>, options: Options)
    requires Compact(messages, options).report.Some?
    ensures var outcome := Compact(messages, options);
      && OneSummary(outcome.messages, NormalizeSummaryBody(outcome.report.value.summary))
      && NormalizeSummaryBody(outcome.report.value.summary) != ""
  {
    hide SelectionFor, SummaryBody, SummaryMessage, SummaryMessageBody, NormalizeSummaryBody, SummaryText, Blank, Trim;
    var selection := SelectionFor(messages, options);
    var body := SummaryBody(selection, options).value;
    BodyExists(selection, options);
    BodyRecovered(options.summaryId, body, options.now);
    SelectionSources(messages, options);
    var summary := SummaryMessage(options.summaryId, body, options.now);
    SummaryInPlace(selection.prefix + selection.users, summary, selection.tail, Trim(body));
    assert Compact(messages, options).messages == selection.prefix + selection.users + [summary] + selection.tail;
  }

  lemma SummaryInPlace(before: seq<Message>, summary: Message, after: seq<Message>, body: string)
    requires SummaryMessageBody(summary) == Some(body) && Quiet(before + after)
    ensures OneSummary(before + [summary] + after, body)
  {
    hide SummaryMessageBody, Recognized;
    var context := before + [summary] + after;
    assert context[|before|] == summary;
    assert context[..|before|] == before && context[|before| + 1..] == after;
    assert forall m :: m in before ==> m in before + after;
    assert forall m :: m in after ==> m in before + after;
  }

  /** The next round folds that body exactly once, whether or not the recorded event text is passed as well. */
  lemma NextRoundFoldsOnce(context: seq<Message>, body: string, appended: seq<Message>, recorded: string)
    requires OneSummary(context, body) && Quiet(appended) && NormalizeSummaryBody(recorded) == body
    ensures Folded(context + appended, None) == [body]
    ensures Folded(context + appended, Some(recorded)) == [body]
  {
    hide SummaryMessageBody, NormalizeSummaryBody, FoldedBodies;
    var k :| 0 <= k < |context| && SummaryMessageBody(context[k]) == Some(body)
             && Quiet(context[..k]) && Quiet(context[k + 1..]);
    var after := context[k + 1..] + appended;
    assert context + appended == context[..k] + [context[k]] + after;
    OneSummaryFolds(context[..k], context[k], after);
  }

  // ---- Any number of rounds ----

  /** One round: messages arrive, then a compaction is attempted. */
  datatype Round = Round(appended: seq<Message>, options: Options)

  /** The live context and the summary text of the latest recorded compaction event. */
  datatype Chain = Chain(context: seq<Message>, recorded: Option<string>)

  function Attempt(chain: Chain, round: Round): Outcome {
    Compact(chain.context + round.appended, round.options.(previous := chain.recorded))
  }

  function Advance(chain: Chain, round: Round): Chain {
    var outcome := Attempt(chain, round);
    Chain(outcome.messages, if outcome.report.Some? then Some(outcome.report.value.summary) else chain.recorded)
  }

  function RunRounds(chain: Chain, rounds: seq<Round>): Chain {
    if rounds == [] then chain else Advance(RunRounds(chain, rounds[..|rounds| - 1]), rounds[|rounds| - 1])
  }

  /** No compaction so far and no summary, or one summary, the recorded one. */
  predicate Linked(chain: Chain) {
    match chain.recorded
    case None => Quiet(chain.context)
    case Some(text) => NormalizeSummaryBody(text) != "" && OneSummary(chain.context, NormalizeSummaryBody(text))
  }

  lemma AppendKeepsOne(context: seq<Message>, body: string, appended: seq<Message>)
    requires OneSummary(context, body) && Quiet(appended)
    ensures OneSummary(context + appended, body)
  {
    hide SummaryMessageBody, Recognized;
    var k :| 0 <= k < |context| && SummaryMessageBody(context[k]) == Some(body)
             && Quiet(context[..k]) && Quiet(context[k + 1..]);
    var longer := context + appended;
    assert longer[..k] == context[..k] && longer[k + 1..] == context[k + 1..] + appended && longer[k] == context[k];
  }

  /** The round folds the previous summary, once, and nothing else. */
  predicate FoldsPrevious(chain: Chain, round: Round) {
    SelectionFor(chain.context + round.appended, round.options.(previous := chain.recorded)).folded
      == match chain.recorded case None => [] case Some(text) => [NormalizeSummaryBody(text)]
  }

  lemma AdvanceKeepsLink(chain: Chain, round: Round)
    requires Linked(chain) && Quiet(round.appended)
    ensures Linked(Advance(chain, round)) && FoldsPrevious(chain, round)
  {
    hide Compact, SummaryMessageBody, NormalizeSummaryBody, OneSummary, Quiet, Folded, SelectionFor;
    var messages := chain.context + round.appended;
    var options := round.options.(previous := chain.recorded);
    FoldedOfSelection(messages, options);
    match chain.recorded {
      case None => QuietFoldsNothing(chain.context, round.appended);
      case Some(text) =>
        NextRoundFoldsOnce(chain.context, NormalizeSummaryBody(text), round.appended, text);
        AppendKeepsOne(chain.context, NormalizeSummaryBody(text), round.appended);
    }
    if Compact(messages, options).report.Some? {
      CompactionLeavesOneSummary(messages, options);
    } else {
      NoReportIsIdentity(messages, options);
    }
  }

  lemma FoldedOfSelection(messages: seq<Message>, options: Options)
    ensures SelectionFor(messages, options).folded == Folded(messages, options.previous)
  {
    hide Folded, FinalSplit, FrameOf;
    var _, _, _ := RetainParts(messages, options.budget, options.userConfig, options.trigger.Forced?, options.previous);
  }

  lemma QuietFoldsNothing(context: seq<Message>, appended: seq<Message>)
    requires Quiet(context) && Quiet(appended)
    ensures Quiet(context + appended) && Folded(context + appended, None) == []
  {
    hide Recognized, FoldedBodies;
    FoldedFacts(context + appended);
  }

  /**
   * After any number of append-then-compact rounds the context holds exactly
   * one recognised summary once a compaction has happened, none before; every
   * round folds exactly the previous summary.
   */
  lemma {:induction false} ChainNotStack(chain: Chain, rounds: seq<Round>)
    requires Linked(chain) && forall i :: 0 <= i < |rounds| ==> Quiet(rounds[i].appended)
    ensures Linked(RunRounds(chain, rounds))
    ensures forall i :: 0 <= i < |rounds| ==> FoldsPrevious(RunRounds(chain, rounds[..i]), rounds[i])
  {
    hide Linked, Advance, FoldsPrevious, Quiet;
    if rounds != [] {
      var last := |rounds| - 1;
      ChainNotStack(chain, rounds[..last]);
      AdvanceKeepsLink(RunRounds(chain, rounds[..last]), rounds[last]);
      forall i | 0 <= i < |rounds| ensures FoldsPrevious(RunRounds(chain, rounds[..i]), rounds[i]) {
        if i < last {
          assert rounds[..last][..i] == rounds[..i] && rounds[..last][i] == rounds[i];
        }
      }
    }
  }

  // ---- Size ----

  lemma SummaryLength(body: string)
    ensures |SummaryText(body)| == |body| + 21
  {
    assert |COMPACTION_SUMMARY_MARKER| == 20;
  }

  lemma SummarySize(id: int, body: string, now: int)
    ensures EstimateMessage(SummaryMessage(id, body, now)) == (|body| + 21) / 4 + 8
  {
    hide SummaryMessage, SummaryText;
    TextOfSummary(id, body, now);
    SummaryLength(body);
    var parts := SummaryMessage(id, body, now).parts;
    assert parts[1..] == [];
    assert EstimateParts(parts) == EstimatePart(parts[0]) + EstimateParts([]);
  }

  lemma TruncatedSize(text: string, budget: nat)
    requires budget >= 8
    ensures |TruncateToTokens(text, budget)| <= budget * 4 + 3
    ensures EstimateText(text) > budget && |text| >= budget * 4 ==> |TruncateToTokens(text, budget)| == budget * 4 + 3
  {
  }

  lemma ContextSize(prefix: seq<Message>, users: seq<Message>, summary: Message, tail: seq<Message>)
    ensures Estimate(prefix + users + [summary] + tail)
         == Estimate(prefix) + Estimate(users) + EstimateMessage(summary) + Estimate(tail)
  {
    hide EstimateMessage;
    EstimateConcat(prefix + users + [summary], tail);
    EstimateConcat(prefix + users, [summary]);
    EstimateConcat(prefix, users);
    assert [summary][1..] == [];
  }

  lemma ModelBody(selection: Selection, options: Options)
    requires options.model.Some? && Trim(options.model.value) != "" && selection.summaryBudget >= 64
    ensures SummaryBody(selection, options)
         == Some(TruncateToTokens(Trim(options.model.value), selection.summaryBudget))
  {
  }

  /**
   * A model-written summary costs at most 14 tokens more than was reserved for
   * it (the marker line, the ellipsis and the estimator's constant), and a long
   * one costs exactly that.
   */
  lemma SummarySlack(selection: Selection, options: Options)
    requires options.model.Some? && Trim(options.model.value) != "" && selection.summaryBudget >= 64
    ensures var body := SummaryBody(selection, options).value;
      var cost := EstimateMessage(SummaryMessage(options.summaryId, body, options.now));
      && cost <= selection.summaryBudget + 14
      && (|Trim(options.model.value)| >= selection.summaryBudget * 4 ==> cost == selection.summaryBudget + 14)
  {
    hide SummaryMessage, TruncateToTokens, Trim, EstimateMessage, SummaryBody;
    ModelBody(selection, options);
    SummarySize(options.summaryId, SummaryBody(selection, options).value, options.now);
    TruncatedSize(Trim(options.model.value), selection.summaryBudget);
  }

  lemma ReservedAtLeast64(messages: seq<Message>, options: Options)
    ensures SelectionFor(messages, options).summaryBudget >= 64
  {
    hide FinalSplit, Units, Flatten, Remaining, Folded;
  }

  /**
   * With a model-written summary, distinct message ids, 64 tokens beside the
   * prefix and a newest unit within the tail budget, the compacted context
   * estimates to at most 14 tokens over the budget.
   */
  lemma CompactedContextFits(messages: seq<Message>, options: Options)
    requires options.model.Some? && Trim(options.model.value) != "" && DistinctIds(messages)
    requires var frame := FrameOf(messages, options.budget, options.userConfig, options.previous);
      && options.budget >= Estimate(frame.prefix) + 64
      && (frame.units != [] ==> Estimate(frame.units[|frame.units| - 1]) <= frame.tailBudget)
    ensures Compact(messages, options).report.Some?
    ensures Estimate(Compact(messages, options).messages) <= options.budget + 14
  {
    ReservedAtLeast64(messages, options);
    SelectionTotal(messages, options);
    hide SelectionFor, SummaryBody, SummaryMessage, FrameOf, Estimate, EstimateMessage, Trim, DistinctIds;
    var selection := SelectionFor(messages, options);
    ModelBody(selection, options);
    var body := SummaryBody(selection, options).value;
    SummarySlack(selection, options);
    ContextSize(selection.prefix, selection.users, SummaryMessage(options.summaryId, body, options.now),
                selection.tail);
  }

  lemma SelectionTotal(messages: seq<Message>, options: Options)
    requires DistinctIds(messages)
    requires var frame := FrameOf(messages, options.budget, options.userConfig, options.previous);
      && options.budget >= Estimate(frame.prefix) + 64
      && (frame.units != [] ==> Estimate(frame.units[|frame.units| - 1]) <= frame.tailBudget)
    ensures var selection := SelectionFor(messages, options);
      Estimate(selection.prefix) + Estimate(selection.users) + selection.summaryBudget + Estimate(selection.tail)
      <= options.budget
  {
    var force := options.trigger.Forced?;
    assert SelectionFor(messages, options)
        == Retain(messages, options.budget, options.userConfig, force, options.previous);
    hide *;
    NothingToShrink(messages, options.budget, options.userConfig, force, options.previous);
    var frame, split, _ := RetainParts(messages, options.budget, options.userConfig, force, options.previous);
    TotalOf(split, frame);
  }
}
