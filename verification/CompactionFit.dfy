/** When a compacted context fits its budget, exactly (bt-context, lib.rs). */
module CompactionFit {
  import opened Wrappers
  import opened Text
  import opened Messages
  import opened Tokens
  import opened MessageUnits
  import opened Summaries
  import opened Retention
  import opened RetentionProperties
  import opened Compaction
  import opened CompactionProperties
  import opened CompactionChain

  /** Room for the shrink loop to remove nothing: 64 tokens beside the prefix, and an affordable newest unit. */
  ghost predicate Roomy(messages: seq<Message>, options: Options) {
    var frame := FrameOf(messages, options.budget, options.userConfig, options.previous);
    && DistinctIds(messages)
    && options.budget >= Estimate(frame.prefix) + 64
    && (frame.units != [] ==> Estimate(frame.units[|frame.units| - 1]) <= frame.tailBudget)
  }

  function KeptTokens(selection: Selection): nat {
    Estimate(selection.prefix) + Estimate(selection.users) + Estimate(selection.tail)
  }

  /** How much of a model-written summary of `n` characters is written under a reservation. */
  function WrittenLength(n: nat, reserved: nat): nat {
    if n / 4 + 8 <= reserved then n else (if n < reserved * 4 then n else reserved * 4) + 3
  }

  lemma CostIff(length: nat, gap: int)
    ensures (length + 21) / 4 + 8 <= gap <==> length <= gap * 4 - 50
  {
  }

  lemma WrittenFitsIff(n: nat, reserved: nat)
    requires reserved >= 64
    ensures WrittenLength(n, reserved) <= reserved * 4 - 50 <==> n <= reserved * 4 - 50
  {
  }

  lemma TruncatedLength(text: string, budget: nat)
    ensures |TruncateToTokens(text, budget)| == WrittenLength(|text|, budget)
  {
  }

  lemma ContextCost(messages: seq<Message>, options: Options)
    requires Compact(messages, options).report.Some?
    ensures var selection := SelectionFor(messages, options);
      SummaryBody(selection, options).Some?
      && Estimate(Compact(messages, options).messages)
         == KeptTokens(selection) + (|SummaryBody(selection, options).value| + 21) / 4 + 8
  {
    hide SelectionFor, SummaryBody, SummaryMessage, Estimate, EstimateMessage;
    var selection := SelectionFor(messages, options);
    var body := SummaryBody(selection, options).value;
    SummarySize(options.summaryId, body, options.now);
    ContextSize(selection.prefix, selection.users, SummaryMessage(options.summaryId, body, options.now),
                selection.tail);
  }

  lemma ModelReports(messages: seq<Message>, options: Options)
    requires options.model.Some? && Trim(options.model.value) != ""
    ensures Compact(messages, options).report.Some?
    ensures var selection := SelectionFor(messages, options);
      selection.summaryBudget >= 64 && SummaryBody(selection, options).Some?
      && |SummaryBody(selection, options).value| == WrittenLength(|Trim(options.model.value)|, selection.summaryBudget)
  {
    ReservedAtLeast64(messages, options);
    hide SelectionFor, SummaryBody, TruncateToTokens, Trim, WrittenLength;
    var selection := SelectionFor(messages, options);
    ModelBody(selection, options);
    TruncatedLength(Trim(options.model.value), selection.summaryBudget);
  }

  /**
   * With a model-written summary, a compacted context fits its budget if and
   * only if the characters written stay 50 below four times the tokens left
   * beside what is kept. No premise about the history is needed.
   */
  lemma ContextFitsIff(messages: seq<Message>, options: Options)
    requires options.model.Some? && Trim(options.model.value) != ""
    ensures var selection := SelectionFor(messages, options);
      Estimate(Compact(messages, options).messages) <= options.budget
      <==> WrittenLength(|Trim(options.model.value)|, selection.summaryBudget)
           <= (options.budget - KeptTokens(selection)) * 4 - 50
  {
    hide *;
    ModelReports(messages, options);
    ContextCost(messages, options);
    var selection := SelectionFor(messages, options);
    CostIff(|SummaryBody(selection, options).value|, options.budget - KeptTokens(selection));
  }

  /** A summary stays within its reservation if and only if it is 50 characters shorter than four times that. */
  lemma SummaryWithinReservationIff(selection: Selection, options: Options)
    requires options.model.Some? && Trim(options.model.value) != "" && selection.summaryBudget >= 64
    ensures var body := SummaryBody(selection, options).value;
      EstimateMessage(SummaryMessage(options.summaryId, body, options.now)) <= selection.summaryBudget
      <==> |Trim(options.model.value)| <= selection.summaryBudget * 4 - 50
  {
    hide SummaryMessage, TruncateToTokens, Trim, EstimateMessage, SummaryBody, WrittenLength;
    ModelBody(selection, options);
    var body := SummaryBody(selection, options).value;
    TruncatedLength(Trim(options.model.value), selection.summaryBudget);
    SummarySize(options.summaryId, body, options.now);
    CostIff(|body|, selection.summaryBudget);
    WrittenFitsIff(|Trim(options.model.value)|, selection.summaryBudget);
  }

  lemma ShortSummaryFits(messages: seq<Message>, options: Options)
    requires options.model.Some? && Trim(options.model.value) != "" && Roomy(messages, options)
    requires |Trim(options.model.value)| <= SelectionFor(messages, options).summaryBudget * 4 - 50
    ensures Estimate(Compact(messages, options).messages) <= options.budget
  {
    SelectionTotal(messages, options);
    hide SelectionFor, SummaryBody, Trim, WrittenLength, Roomy, Compact, Estimate;
    var selection := SelectionFor(messages, options);
    ModelReports(messages, options);
    WrittenFitsIff(|Trim(options.model.value)|, selection.summaryBudget);
    ContextFitsIff(messages, options);
  }

  // ---- A history that uses its whole budget ----

  function Fill(n: nat): (text: string)
    ensures |text| == n
  {
    if n == 0 then "" else Fill(n - 1) + "x"
  }

  /** One user message of `7 * reserved` tokens. */
  function FullHistory(reserved: nat): seq<Message>
    requires reserved >= 64
  {
    [Message(1, User, [Part.Text(Fill((7 * reserved - 8) * 4))], 0)]
  }

  function FullOptions(reserved: nat, model: string, rendering: Rendering): Options {
    Options(8 * reserved, TokenBudget, 0, None, Some(model), rendering, 2, 0)
  }

  lemma UserTokens(m: Message, text: string)
    requires m.parts == [Part.Text(text)]
    ensures EstimateMessage(m) == |text| / 4 + 8 && Estimate([m]) == |text| / 4 + 8
  {
    assert m.parts[1..] == [] && [m][1..] == [];
    assert EstimateParts(m.parts) == EstimatePart(m.parts[0]) + EstimateParts([]);
  }

  lemma FullFrame(reserved: nat)
    requires 64 <= reserved <= 4096
    ensures var frame := FrameOf(FullHistory(reserved), 8 * reserved, 0, None);
      && frame.prefix == [] && frame.units == [FullHistory(reserved)]
      && frame.summaryBudget == reserved && frame.tailBudget == 7 * reserved
    ensures Estimate(FullHistory(reserved)) == 7 * reserved && DistinctIds(FullHistory(reserved))
  {
    hide Fill, EstimateMessage, Units, SystemPrefix, Remaining;
    var m := FullHistory(reserved)[0];
    UserTokens(m, Fill((7 * reserved - 8) * 4));
    SoloFrame(m, 8 * reserved, 0, None);
  }

  lemma FullSelection(reserved: nat, options: Options)
    requires 64 <= reserved <= 4096 && options.budget == 8 * reserved
      && options.userConfig == 0 && options.previous == None
    ensures Roomy(FullHistory(reserved), options)
    ensures SelectionFor(FullHistory(reserved), options).summaryBudget == reserved
    ensures KeptTokens(SelectionFor(FullHistory(reserved), options)) == 7 * reserved
  {
    FullFrame(reserved);
    var m := FullHistory(reserved)[0];
    SoloSelection(m, options.budget, options.userConfig, options.trigger.Forced?, options.previous);
    hide FrameOf, FinalSplit, Fill;
    var _, _, _ := RetainParts([m], options.budget, options.userConfig, options.trigger.Forced?, options.previous);
    NoTokens();
  }

  lemma NoTokens()
    ensures Estimate([]) == 0
  {
  }

  /** The overrun of a compacted context, on a history that uses its whole budget. */
  lemma FullContext(reserved: nat, model: string, rendering: Rendering)
    requires 64 <= reserved <= 4096 && Trim(model) != ""
    ensures var messages, options := FullHistory(reserved), FullOptions(reserved, model, rendering);
      && Roomy(messages, options) && SelectionFor(messages, options).summaryBudget == reserved
      && Estimate(Compact(messages, options).messages)
         == options.budget - reserved + (WrittenLength(|Trim(model)|, reserved) + 21) / 4 + 8
  {
    hide Roomy, SelectionFor, Compact, Estimate, Trim, WrittenLength, FullHistory, KeptTokens, SummaryBody;
    var messages, options := FullHistory(reserved), FullOptions(reserved, model, rendering);
    FullSelection(reserved, options);
    ModelReports(messages, options);
    ContextCost(messages, options);
  }

  /** Fourteen tokens over the budget are attained, for every possible reservation. */
  lemma OverrunIsAttained(reserved: nat, model: string, rendering: Rendering)
    requires 64 <= reserved <= 4096 && |Trim(model)| >= reserved * 4
    ensures var messages, options := FullHistory(reserved), FullOptions(reserved, model, rendering);
      Roomy(messages, options) && Estimate(Compact(messages, options).messages) == options.budget + 14
  {
    hide Roomy, SelectionFor, Compact, Estimate, Trim, FullHistory;
    FullContext(reserved, model, rendering);
  }

  lemma LongSummary(reserved: nat)
    ensures Trim(Fill(reserved * 4)) == Fill(reserved * 4)
  {
    if reserved > 0 {
      FillEnds(reserved * 4);
      assert TrimStart(Fill(reserved * 4)) == Fill(reserved * 4);
    }
  }

  lemma {:induction false} FillEnds(n: nat)
    requires n > 0
    ensures Fill(n)[0] == 'x' && Fill(n)[n - 1] == 'x'
  {
    if n > 1 { FillEnds(n - 1); }
  }

  /** One concrete input: a budget of 512, a message of 448 tokens, and a summary text of 256 characters. */
  lemma OverrunExample(rendering: Rendering)
    ensures Estimate(Compact(FullHistory(64), FullOptions(64, Fill(256), rendering)).messages) == 526
  {
    hide Compact, Estimate, Trim, FullHistory, Fill, Roomy;
    LongSummary(64);
    assert |Fill(64 * 4)| == 256;
    OverrunIsAttained(64, Fill(256), rendering);
  }

  // ---- The exact condition on a model-written summary ----

  /** A summary text never overruns the budget of a roomy history that reserves this much for it. */
  ghost predicate AlwaysFits(model: string, reserved: nat) {
    forall messages, options ::
      (Roomy(messages, options) && options.model == Some(model)
       && SelectionFor(messages, options).summaryBudget == reserved) ==>
        Estimate(Compact(messages, options).messages) <= options.budget
  }

  const PLAIN := Rendering((m: seq<Message>) => [], (m: Message) => "", (m: Message) => "")

  /**
   * A model-written summary is safe if and only if it is 50 characters shorter than four
   * times what the plan reserves.
   */
  lemma AlwaysFitsIff(model: string, reserved: nat)
    requires 64 <= reserved <= 4096 && Trim(model) != ""
    ensures AlwaysFits(model, reserved) <==> |Trim(model)| <= reserved * 4 - 50
  {
    hide Roomy, SelectionFor, Compact, Estimate, Trim, FullHistory, WrittenLength;
    if |Trim(model)| <= reserved * 4 - 50 {
      forall messages, options | Roomy(messages, options) && options.model == Some(model)
        && SelectionFor(messages, options).summaryBudget == reserved
        ensures Estimate(Compact(messages, options).messages) <= options.budget
      {
        ShortSummaryFits(messages, options);
      }
    } else {
      FullContext(reserved, model, PLAIN);
      WrittenFitsIff(|Trim(model)|, reserved);
      CostIff(WrittenLength(|Trim(model)|, reserved), reserved);
      var messages, options := FullHistory(reserved), FullOptions(reserved, model, PLAIN);
      assert Estimate(Compact(messages, options).messages) > options.budget;
    }
  }

  // ---- Without room there is no bound ----

  /** A newest unit beyond the budget is kept all the same: the overrun grows with it. */
  lemma OverrunIsUnbounded(n: nat, options: Options)
    requires options.model.Some? && Trim(options.model.value) != ""
    ensures var messages := [Message(1, User, [Part.Text(Fill((options.budget + n) * 4))], 0)];
      Estimate(Compact(messages, options).messages) > options.budget + n
  {
    hide Compact, Estimate, Trim, Fill, SummaryBody, WrittenLength, Retain;
    var m := Message(1, User, [Part.Text(Fill((options.budget + n) * 4))], 0);
    UserTokens(m, Fill((options.budget + n) * 4));
    SoloSelection(m, options.budget, options.userConfig, options.trigger.Forced?, options.previous);
    ModelReports([m], options);
    ContextCost([m], options);
  }
}
