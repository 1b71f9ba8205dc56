/** When compaction fires, and how the plan and the request agree (bt-context, lib.rs). */
module Planning {
  import opened Wrappers
  import opened Text
  import opened Messages
  import opened Tokens
  import opened MessageUnits
  import opened Retention
  import opened Compaction
  import opened CompactionProperties

  const DEFAULT_TRIGGER_FRACTION := 0.9
  const SUMMARIZATION_PROMPT_OVERHEAD_TOKENS := 768

  /** Everything `plan_compaction` and `build_request_with_options` both read. */
  datatype Inputs = Inputs(
    window: nat, summarizerWindow: nat, reserve: nat, fraction: real, userConfig: nat,
    systemPrompt: Option<string>, messages: seq<Message>, force: bool, observed: Option<nat>, previous: Option<string>,
    rendering: Rendering, summaryId: int, now: int)

  datatype BuildReport = BuildReport(report: Report, tokensBefore: nat, tokensAfter: nat, messagesAfter: nat)

  datatype BuildOutput = BuildOutput(messages: seq<Message>, compaction: Option<BuildReport>)

  datatype CompactionPlan = CompactionPlan(trigger: Trigger, transcript: string, summaryBudget: nat)

  function TriggerTokens(window: nat, fraction: real): int {
    (window as real * (if 0.0 < fraction <= 1.0 then fraction else DEFAULT_TRIGGER_FRACTION)).Floor
  }

  function CompactionTrigger(
    force: bool, estimated: nat, maxPrompt: nat, observed: Option<nat>, threshold: int): Option<Trigger>
  {
    if force then Some(Forced)
    else if estimated > maxPrompt then Some(TokenBudget)
    else if observed.Some? && observed.value > threshold then Some(TokenBudget)
    else None
  }

  function EffectiveBudget(maxPrompt: nat, estimated: nat, observed: Option<nat>): nat {
    match observed
    case Some(seen) => if seen > estimated && seen > 0 then (maxPrompt * Max(estimated, 1)) / seen else maxPrompt
    case None => maxPrompt
  }

  function MaxPrompt(inputs: Inputs): nat {
    SatSub(inputs.window, inputs.reserve)
  }

  function SystemTokens(inputs: Inputs): nat {
    match inputs.systemPrompt case Some(text) => EstimateText(text) case None => 0
  }

  function TokensBefore(inputs: Inputs): nat {
    Estimate(inputs.messages) + SystemTokens(inputs)
  }

  function TriggerOf(inputs: Inputs): Option<Trigger> {
    CompactionTrigger(inputs.force, TokensBefore(inputs), MaxPrompt(inputs), inputs.observed,
                      TriggerTokens(inputs.window, inputs.fraction))
  }

  function OptionsFor(inputs: Inputs, trigger: Trigger, model: Option<string>): Options {
    Options(SatSub(EffectiveBudget(MaxPrompt(inputs), TokensBefore(inputs), inputs.observed), SystemTokens(inputs)),
            trigger, inputs.userConfig, inputs.previous, model, inputs.rendering, inputs.summaryId, inputs.now)
  }

  function Build(inputs: Inputs, model: Option<string>): BuildOutput {
    match TriggerOf(inputs)
    case None => BuildOutput(inputs.messages, None)
    case Some(trigger) =>
      var candidate := Compact(inputs.messages, OptionsFor(inputs, trigger, model));
      var tokens := Estimate(candidate.messages) + SystemTokens(inputs);
      if candidate.report.Some? && (trigger != Forced || tokens < TokensBefore(inputs))
      then BuildOutput(candidate.messages,
                       Some(BuildReport(candidate.report.value, TokensBefore(inputs), tokens, |candidate.messages|)))
      else BuildOutput(inputs.messages, None)
  }

  /** What the summarizer's window leaves for the transcript, and never less than 512 tokens. */
  function TranscriptBudget(inputs: Inputs, summaryBudget: nat): nat {
    Max(SatSub(SatSub(SatSub(inputs.summarizerWindow, inputs.reserve), summaryBudget),
               SUMMARIZATION_PROMPT_OVERHEAD_TOKENS), 512)
  }

  function Plan(inputs: Inputs): Option<CompactionPlan> {
    match TriggerOf(inputs)
    case None => None
    case Some(trigger) =>
      var options := OptionsFor(inputs, trigger, None);
      var selection := Retain(inputs.messages, options.budget, options.userConfig, trigger.Forced?, options.previous);
      if selection.dropped == [] && selection.folded == [] then None
      else
        var input := TranscriptBudget(inputs, selection.summaryBudget);
        Some(CompactionPlan(trigger,
                            Transcript(selection.folded, selection.dropped, inputs.rendering, input),
                            selection.summaryBudget))
  }

  /** Plan and build use one selection, and agree on whether to compact; only a forced build may still decline. */
  lemma PlanAgreesWithBuild(inputs: Inputs, model: Option<string>)
    requires model.None? || Trim(model.value) == ""
    ensures TriggerOf(inputs) == None ==>
      Plan(inputs) == None && Build(inputs, model) == BuildOutput(inputs.messages, None)
    ensures TriggerOf(inputs) == Some(TokenBudget) ==> (Build(inputs, model).compaction.Some? <==> Plan(inputs).Some?)
    ensures TriggerOf(inputs) == Some(Forced) ==>
      var candidate := Compact(inputs.messages, OptionsFor(inputs, Forced, model));
      (Build(inputs, model).compaction.Some?
       <==> Plan(inputs).Some? && Estimate(candidate.messages) < Estimate(inputs.messages))
    ensures Plan(inputs).Some? ==>
      var selection := SelectionFor(inputs.messages, OptionsFor(inputs, TriggerOf(inputs).value, model));
      && Plan(inputs).value.trigger == TriggerOf(inputs).value
      && Plan(inputs).value.summaryBudget == selection.summaryBudget
      && Plan(inputs).value.transcript
         == Transcript(selection.folded, selection.dropped, inputs.rendering,
                       TranscriptBudget(inputs, selection.summaryBudget))
  {
    hide Retain, Transcript, TranscriptBudget, SummaryBody, Trim, Estimate, EffectiveBudget, CompactionTrigger,
         Blank, Compose;
    if TriggerOf(inputs).Some? {
      var options := OptionsFor(inputs, TriggerOf(inputs).value, model);
      BodyExists(SelectionFor(inputs.messages, options), options);
      if model.Some? { TrimFacts(model.value); }
    }
  }

  // ---- When a build compacts ----

  function SystemPromptTokens(inputs: Inputs): nat {
    if inputs.systemPrompt.Some? then |inputs.systemPrompt.value| / 4 + 8 else 0
  }

  /** The estimate is over window minus reserve, or what was observed is over the configured fraction of the window. */
  predicate OverLimit(inputs: Inputs) {
    var limit := if inputs.window < inputs.reserve then 0 else inputs.window - inputs.reserve;
    var fraction := if 0.0 < inputs.fraction <= 1.0 then inputs.fraction else 0.9;
    || Estimate(inputs.messages) + SystemPromptTokens(inputs) > limit
    || (inputs.observed.Some? && inputs.observed.value > (inputs.window as real * fraction).Floor)
  }

  /** Window minus reserve, scaled down by estimated over observed when more was observed than estimated. */
  predicate IsScaled(inputs: Inputs, scaled: nat) {
    var limit := if inputs.window < inputs.reserve then 0 else inputs.window - inputs.reserve;
    var estimated := Estimate(inputs.messages) + SystemPromptTokens(inputs);
    if inputs.observed.Some? && inputs.observed.value > estimated
    then scaled * inputs.observed.value <= limit * (if estimated == 0 then 1 else estimated)
         && limit * (if estimated == 0 then 1 else estimated) < (scaled + 1) * inputs.observed.value
    else scaled == limit
  }

  /** The prompt budget is what the system prompt leaves of that. */
  ghost predicate IsPromptBudget(inputs: Inputs, budget: nat) {
    exists scaled: nat ::
      IsScaled(inputs, scaled)
      && budget == if scaled < SystemPromptTokens(inputs) then 0 else scaled - SystemPromptTokens(inputs)
  }

  /** The options of a compaction for these inputs. */
  ghost predicate AreOptions(inputs: Inputs, options: Options, model: Option<string>) {
    && IsPromptBudget(inputs, options.budget) && options.trigger == (if inputs.force then Forced else TokenBudget)
    && options.userConfig == inputs.userConfig && options.previous == inputs.previous && options.model == model
    && options.rendering == inputs.rendering && options.summaryId == inputs.summaryId && options.now == inputs.now
  }

  /** The request is the outcome of a compaction, reported with the sizes before and after. */
  predicate IsCompacted(inputs: Inputs, options: Options, output: BuildOutput) {
    var outcome := Compact(inputs.messages, options);
    && outcome.report.Some? && output.messages == outcome.messages
    && output.compaction == Some(BuildReport(
         outcome.report.value, Estimate(inputs.messages) + SystemPromptTokens(inputs),
         Estimate(outcome.messages) + SystemPromptTokens(inputs), |outcome.messages|))
  }

  /**
   * An unforced build within both limits returns the history unchanged; over
   * either limit it compacts exactly when something is dropped or folded or the
   * model wrote a summary. A forced build compacts exactly when there is a
   * compaction and it is smaller.
   */
  lemma BuildCompactsIff(inputs: Inputs, model: Option<string>) returns (options: Options)
    ensures AreOptions(inputs, options, model)
    ensures var output := Build(inputs, model);
      var outcome, selection := Compact(inputs.messages, options), SelectionFor(inputs.messages, options);
      && (output == BuildOutput(inputs.messages, None) || IsCompacted(inputs, options, output))
      && (!inputs.force && !OverLimit(inputs) ==> output.compaction.None?)
      && (!inputs.force && OverLimit(inputs) ==>
            (output.compaction.Some? <==>
               selection.dropped != [] || selection.folded != [] || (model.Some? && Trim(model.value) != "")))
      && (inputs.force ==>
            (output.compaction.Some? <==>
               outcome.report.Some? && Estimate(outcome.messages) < Estimate(inputs.messages)))
  {
    hide Compact, SelectionFor, Estimate, Trim, IsPromptBudget, EffectiveBudget;
    var trigger := if inputs.force then Forced else TokenBudget;
    options := OptionsFor(inputs, trigger, model);
    BudgetIsPromptBudget(inputs);
    ReportExists(inputs.messages, options);
  }

  /**
   * A plan is made over either limit, or by force, when there is something to
   * summarize; its transcript fits what the summarizer's window leaves, or 512 tokens.
   */
  lemma PlanMadeIff(inputs: Inputs) returns (options: Options)
    ensures AreOptions(inputs, options, None)
    ensures var selection := SelectionFor(inputs.messages, options);
      && (Plan(inputs).Some? <==>
            (inputs.force || OverLimit(inputs)) && (selection.dropped != [] || selection.folded != []))
      && (Plan(inputs).Some? ==>
            var room := inputs.summarizerWindow - inputs.reserve - selection.summaryBudget - 768;
            Plan(inputs).value == CompactionPlan(
              options.trigger,
              Transcript(selection.folded, selection.dropped, inputs.rendering, if room < 512 then 512 else room),
              selection.summaryBudget))
  {
    hide Retain, Estimate, IsPromptBudget, EffectiveBudget, Transcript;
    var trigger := if inputs.force then Forced else TokenBudget;
    options := OptionsFor(inputs, trigger, None);
    BudgetIsPromptBudget(inputs);
    TriggerIs(inputs);
    hide TriggerOf, OverLimit;
    assert SelectionFor(inputs.messages, options)
        == Retain(inputs.messages, options.budget, options.userConfig, trigger.Forced?, options.previous);
  }

  lemma TriggerIs(inputs: Inputs)
    ensures TriggerOf(inputs)
         == if inputs.force then Some(Forced) else if OverLimit(inputs) then Some(TokenBudget) else None
  {
    hide Estimate;
  }

  lemma ReportExists(messages: seq<Message>, options: Options)
    ensures var selection := SelectionFor(messages, options);
      Compact(messages, options).report.Some? <==>
      selection.dropped != [] || selection.folded != [] || (options.model.Some? && Trim(options.model.value) != "")
  {
    hide SelectionFor, SummaryBody, Trim, Compose;
    BodyExists(SelectionFor(messages, options), options);
    if options.model.Some? { TrimFacts(options.model.value); }
  }

  lemma BudgetIsPromptBudget(inputs: Inputs)
    ensures IsPromptBudget(inputs,
      SatSub(EffectiveBudget(MaxPrompt(inputs), TokensBefore(inputs), inputs.observed), SystemTokens(inputs)))
  {
    hide Estimate, EffectiveBudget;
    BudgetScales(MaxPrompt(inputs), TokensBefore(inputs), inputs.observed);
    var scaled := EffectiveBudget(MaxPrompt(inputs), TokensBefore(inputs), inputs.observed);
    assert IsScaled(inputs, scaled);
  }

  /** The request that is built keeps the transcript premise and the open calls, compacted or not. */
  lemma BuildKeepsPairing(inputs: Inputs, model: Option<string>)
    requires WellPaired({}, inputs.messages) && DistinctIds(inputs.messages)
    ensures WellPaired({}, Build(inputs, model).messages)
    ensures OpenAfter({}, Build(inputs, model).messages) == OpenAfter({}, inputs.messages)
  {
    hide Compact, Estimate, EffectiveBudget, CompactionTrigger, WellPaired, OpenAfter, DistinctIds;
    if TriggerOf(inputs).Some? {
      CompactionKeepsPairing(inputs.messages, OptionsFor(inputs, TriggerOf(inputs).value, model));
      CompactionKeepsOpenCalls(inputs.messages, OptionsFor(inputs, TriggerOf(inputs).value, model));
    }
  }

  /** Under an unused summary id the request keeps message ids distinct, compacted or not. */
  lemma BuildKeepsIds(inputs: Inputs, model: Option<string>)
    requires DistinctIds(inputs.messages) && forall m :: m in inputs.messages ==> m.id != inputs.summaryId
    ensures DistinctIds(Build(inputs, model).messages)
    ensures forall m :: m in Build(inputs, model).messages ==> m in inputs.messages || m.id == inputs.summaryId
  {
    hide Compact, Estimate, EffectiveBudget, CompactionTrigger, DistinctIds;
    if TriggerOf(inputs).Some? {
      CompactionKeepsIds(inputs.messages, OptionsFor(inputs, TriggerOf(inputs).value, model));
    }
  }

  /**
   * An undercounting estimator scales the budget down by the observed ratio,
   * rounded down; an observation below the estimate never grows it.
   */
  lemma BudgetScales(maxPrompt: nat, estimated: nat, observed: Option<nat>)
    ensures var budget := EffectiveBudget(maxPrompt, estimated, observed);
      && budget <= maxPrompt
      && (observed.Some? && observed.value > estimated ==>
            budget * observed.value <= maxPrompt * Max(estimated, 1) < (budget + 1) * observed.value)
      && (observed.None? || observed.value <= estimated ==> budget == maxPrompt)
  {
    if observed.Some? && observed.value > estimated {
      var seen, base := observed.value, Max(estimated, 1);
      Quotient(maxPrompt * base, seen);
      var budget := (maxPrompt * base) / seen;
      if budget > maxPrompt {
        Grows(maxPrompt + 1, budget, seen);
        Grows(base, seen, maxPrompt + 1);
        assert false;
      }
    }
  }

  lemma Quotient(a: nat, b: nat)
    requires b > 0
    ensures (a / b) * b <= a < (a / b + 1) * b
  {
  }

  lemma Grows(a: nat, b: nat, c: nat)
    requires a <= b
    ensures a * c <= b * c && c * a <= c * b
  {
  }

  // ---- The summarization transcript ----

  function Sum(tokens: seq<nat>): nat {
    if tokens == [] then 0 else tokens[0] + Sum(tokens[1..])
  }

  /** The backward walk over the dropped lines, from the state in which lines `start..` are already taken. */
  function TranscriptStart(tokens: seq<nat>, start: nat, used: nat, budget: nat): nat
    requires start <= |tokens|
  {
    if start > 0 && !(used + tokens[start - 1] > budget && start < |tokens|)
    then TranscriptStart(tokens, start - 1, used + tokens[start - 1], budget) else start
  }

  function TokenCounts(lines: seq<string>): (tokens: seq<nat>)
    ensures |tokens| == |lines|
  {
    if lines == [] then [] else [EstimateText(lines[0])] + TokenCounts(lines[1..])
  }

  function Header(folded: seq<string>): string {
    if folded == [] then ""
    else
      "Previous compaction summary (fold its still-relevant content into the new summary):\n"
      + Join(folded, "\n\n") + "\n\n"
  }

  function BodyBudget(folded: seq<string>, input: nat): nat {
    SatSub(input, EstimateText(Header(folded)) + 64)
  }

  function Body(lines: seq<string>, start: nat): string
    requires start <= |lines|
  {
    if lines == [] then "No additional messages are being dropped in this compaction.\n"
    else
      (if start > 0 then Omission(start) else "") + LINES_TITLE + Join(lines[start..], "\n")
  }

  const LINES_TITLE := "Messages being dropped from the model-visible context:\n"

  function Omission(count: nat): string {
    "[" + Digits(count) + " older dropped messages omitted from this excerpt; "
    + "they are covered by the previous summary and remain in session history]\n"
  }

  function Transcript(folded: seq<string>, dropped: seq<Message>, rendering: Rendering, input: nat): string {
    var lines := LinesOf(dropped, rendering.transcriptLine);
    WalkInRange(TokenCounts(lines), |lines|, 0, BodyBudget(folded, input));
    Header(folded) + Body(lines, TranscriptStart(TokenCounts(lines), |lines|, 0, BodyBudget(folded, input)))
  }

  lemma {:induction false} WalkInRange(tokens: seq<nat>, start: nat, used: nat, budget: nat)
    requires start <= |tokens|
    ensures TranscriptStart(tokens, start, used, budget) <= start
  {
    if start > 0 && !(used + tokens[start - 1] > budget && start < |tokens|) {
      WalkInRange(tokens, start - 1, used + tokens[start - 1], budget);
    }
  }

  method RenderSummarizationTranscript(folded: seq<string>, dropped: seq<Message>, rendering: Rendering, input: nat)
    returns (transcript: string)
    ensures transcript == Transcript(folded, dropped, rendering, input)
  {
    hide Join, Header, Digits;
    var lines := LinesOf(dropped, rendering.transcriptLine);
    var tokens := TokenCounts(lines);
    var budget := BodyBudget(folded, input);
    var start, used: nat := |lines|, 0;
    while start > 0
      invariant 0 <= start <= |lines|
      invariant TranscriptStart(tokens, start, used, budget) == TranscriptStart(tokens, |tokens|, 0, budget)
    {
      var next := used + tokens[start - 1];
      if next > budget && start < |lines| { break; }
      used := next;
      start := start - 1;
    }
    transcript := Header(folded) + Body(lines, start);
  }

  lemma {:induction false} SuffixSums(tokens: seq<nat>, a: nat, b: nat)
    requires a <= b <= |tokens|
    ensures Sum(tokens[b..]) <= Sum(tokens[a..])
    ensures a < b ==> Sum(tokens[a..]) == tokens[a] + Sum(tokens[a + 1..])
    decreases b - a
  {
    if a < b {
      assert tokens[a..][1..] == tokens[a + 1..];
      SuffixSums(tokens, a + 1, b);
    }
  }

  lemma WalkSteps(tokens: seq<nat>, start: nat, used: nat, budget: nat)
    requires start <= |tokens|
    ensures TranscriptStart(tokens, start, used, budget)
         == if start > 0 && !(used + tokens[start - 1] > budget && start < |tokens|)
            then TranscriptStart(tokens, start - 1, used + tokens[start - 1], budget) else start
  {
  }

  lemma {:induction false} WalkIsMaximal(tokens: seq<nat>, start: nat, budget: nat)
    requires start <= |tokens| && (start + 1 < |tokens| ==> Sum(tokens[start..]) <= budget)
    ensures var final := TranscriptStart(tokens, start, Sum(tokens[start..]), budget);
      && final <= start && (start == |tokens| > 0 ==> final < start)
      && (final + 1 < |tokens| ==> Sum(tokens[final..]) <= budget)
      && (0 < final < |tokens| ==> Sum(tokens[final - 1..]) > budget)
  {
    hide Sum, TranscriptStart;
    var used := Sum(tokens[start..]);
    WalkSteps(tokens, start, used, budget);
    if start > 0 {
      SuffixSums(tokens, start - 1, start);
      if !(used + tokens[start - 1] > budget && start < |tokens|) {
        WalkIsMaximal(tokens, start - 1, budget);
      }
    }
  }

  /** The transcript keeps the newest dropped line and the longest suffix that fits the input budget. */
  lemma TranscriptKeepsMaximalSuffix(tokens: seq<nat>, budget: nat)
    requires tokens != []
    ensures var start := TranscriptStart(tokens, |tokens|, 0, budget);
      && start < |tokens|
      && (start == |tokens| - 1 || Sum(tokens[start..]) <= budget)
      && (forall k :: 0 <= k < start ==> Sum(tokens[k..]) > budget)
  {
    assert tokens[|tokens|..] == [];
    WalkIsMaximal(tokens, |tokens|, budget);
    var start := TranscriptStart(tokens, |tokens|, 0, budget);
    forall k | 0 <= k < start ensures Sum(tokens[k..]) > budget {
      SuffixSums(tokens, k, start - 1);
    }
  }

  /** The cost of the lines from `k` on. */
  function LinesCost(dropped: seq<Message>, rendering: Rendering, k: nat): nat
    requires k <= |dropped|
    decreases |dropped| - k
  {
    if k == |dropped| then 0
    else |rendering.transcriptLine(dropped[k])| / 4 + 8 + LinesCost(dropped, rendering, k + 1)
  }

  lemma {:induction false} CostsAreSums(dropped: seq<Message>, rendering: Rendering, k: nat)
    requires k <= |dropped|
    ensures LinesCost(dropped, rendering, k) == Sum(TokenCounts(LinesOf(dropped, rendering.transcriptLine))[k..])
    decreases |dropped| - k
  {
    var lines := LinesOf(dropped, rendering.transcriptLine);
    var tokens := TokenCounts(lines);
    if k < |dropped| {
      CostsAreSums(dropped, rendering, k + 1);
      LineAt(dropped, rendering.transcriptLine, k);
      TokensAt(lines, k);
      hide LinesOf, TokenCounts;
      assert tokens[k..][1..] == tokens[k + 1..];
    }
  }

  lemma {:induction false} LineAt(messages: seq<Message>, line: Message -> string, k: nat)
    requires k < |messages|
    ensures LinesOf(messages, line)[k] == line(messages[k])
  {
    if k > 0 { LineAt(messages[1..], line, k - 1); }
  }

  lemma {:induction false} TokensAt(lines: seq<string>, k: nat)
    requires k < |lines|
    ensures TokenCounts(lines)[k] == |lines[k]| / 4 + 8
  {
    if k > 0 { TokensAt(lines[1..], k - 1); }
  }

  /** What the previous summaries before it, and 64 tokens, leave of the input for the lines. */
  predicate IsLineBudget(folded: seq<string>, input: nat, header: string, budget: nat) {
    && (folded == [] ==> header == "")
    && budget == if input < |header| / 4 + 8 + 64 then 0 else input - (|header| / 4 + 8 + 64)
  }

  /**
   * The transcript shows every previous summary, and the line of every dropped
   * message from `start` on: as many of the newest as fit, and always the newest.
   */
  lemma TranscriptShows(folded: seq<string>, dropped: seq<Message>, rendering: Rendering, input: nat)
    returns (start: nat, header: string, budget: nat)
    requires dropped != []
    ensures start < |dropped| && IsLineBudget(folded, input, header, budget)
    ensures header <= Transcript(folded, dropped, rendering, input)
    ensures forall k :: 0 <= k < |folded| ==> Occurs(folded[k], header)
    ensures start == |dropped| - 1 || LinesCost(dropped, rendering, start) <= budget
    ensures forall k :: 0 <= k < start ==> LinesCost(dropped, rendering, k) > budget
    ensures forall k :: start <= k < |dropped| ==>
      Occurs(rendering.transcriptLine(dropped[k]), Transcript(folded, dropped, rendering, input))
    ensures start > 0 ==> Occurs(Digits(start), Transcript(folded, dropped, rendering, input))
  {
    var lines := LinesOf(dropped, rendering.transcriptLine);
    var tokens := TokenCounts(lines);
    header, budget := Header(folded), BodyBudget(folded, input);
    start := TranscriptStart(tokens, |lines|, 0, budget);
    TranscriptKeepsMaximalSuffix(tokens, budget);
    HeaderShows(folded);
    var transcript := Transcript(folded, dropped, rendering, input);
    assert transcript == header + Body(lines, start);
    BodyShows(lines, start);
    hide Header, Body, LinesOf, TokenCounts, Transcript, LinesCost, Sum, TranscriptStart, Digits;
    forall k | 0 <= k <= |dropped| ensures LinesCost(dropped, rendering, k) == Sum(tokens[k..]) {
      CostsAreSums(dropped, rendering, k);
    }
    assert transcript == header + Body(lines, start) + "";
    forall k | start <= k < |dropped| ensures Occurs(rendering.transcriptLine(dropped[k]), transcript) {
      LineAt(dropped, rendering.transcriptLine, k);
      OccursWithin(lines[k], header, Body(lines, start), "");
    }
    if start > 0 { OccursWithin(Digits(start), header, Body(lines, start), ""); }
  }

  lemma HeaderShows(folded: seq<string>)
    ensures forall k :: 0 <= k < |folded| ==> Occurs(folded[k], Header(folded))
  {
    hide Join;
    var before := "Previous compaction summary (fold its still-relevant content into the new summary):\n";
    forall k | 0 <= k < |folded| ensures Occurs(folded[k], Header(folded)) {
      OccursInJoin(folded, "\n\n", k);
      assert Header(folded) == before + Join(folded, "\n\n") + "\n\n";
      OccursWithin(folded[k], before, Join(folded, "\n\n"), "\n\n");
    }
  }

  lemma BodyShows(lines: seq<string>, start: nat)
    requires start < |lines|
    ensures forall k :: start <= k < |lines| ==> Occurs(lines[k], Body(lines, start))
    ensures start > 0 ==> Occurs(Digits(start), Body(lines, start))
  {
    hide Join, Digits, Omission, Occurs;
    var note := if start > 0 then Omission(start) else "";
    var kept := lines[start..];
    var body := Body(lines, start);
    assert body == note + LINES_TITLE + Join(kept, "\n") + "";
    forall k | start <= k < |lines| ensures Occurs(lines[k], body) {
      OccursInJoin(kept, "\n", k - start);
      OccursWithin(lines[k], note + LINES_TITLE, Join(kept, "\n"), "");
    }
    if start > 0 {
      OmissionShows(start);
      assert body == "" + note + (LINES_TITLE + Join(kept, "\n"));
      OccursWithin(Digits(start), "", note, LINES_TITLE + Join(kept, "\n"));
    }
  }

  lemma OmissionShows(count: nat)
    ensures Occurs(Digits(count), Omission(count))
  {
    hide Digits;
    var after := Omission(count)[1 + |Digits(count)|..];
    assert Omission(count) == "[" + Digits(count) + after;
    OccursBetween("[", Digits(count), after);
  }
}
