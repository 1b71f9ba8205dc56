/** Composing the compacted context (bt-context, `compact_messages`). */
module Compaction {
  import opened Wrappers
  import opened Text
  import opened Messages
  import opened Tokens
  import opened Summaries
  import opened Retention

  datatype Trigger = Forced | TokenBudget

  /** The flat text renderings of messages, given from outside. */
  datatype Rendering = Rendering(
    fileLines: seq<Message> -> seq<string>, summaryLine: Message -> string, transcriptLine: Message -> string)

  /** One compaction request, apart from the messages. */
  datatype Options = Options(
    budget: nat, trigger: Trigger, userConfig: nat, previous: Option<string>, model: Option<string>,
    rendering: Rendering, summaryId: int, now: int)

  datatype Report = Report(
    summary: string, trigger: Trigger, summaryId: int, firstKept: Option<int>, messagesBefore: nat)

  datatype Outcome = Outcome(messages: seq<Message>, report: Option<Report>)

  function Max(a: nat, b: nat): nat {
    if a < b then b else a
  }

  function Take(text: string, n: nat): string {
    if n < |text| then text[..n] else text
  }

  function TruncateToTokens(text: string, budget: nat): string {
    if EstimateText(text) <= budget then text else Take(text, budget * 4) + "..."
  }

  /** Pops trailing lines until the digest fits, then cuts the protected lines. */
  function FitLines(lines: seq<string>, protectedCount: nat, maxTokens: nat): string
    requires 0 < protectedCount <= |lines|
  {
    var candidate := Join(lines, "\n");
    if EstimateText(candidate) <= maxTokens then candidate
    else if |lines| > protectedCount then FitLines(lines[..|lines| - 1], protectedCount, maxTokens)
    else if |Take(candidate, maxTokens * 4)| < |candidate| then Take(candidate, maxTokens * 4) + "..."
    else candidate
  }

  function LinesOf(messages: seq<Message>, line: Message -> string): (lines: seq<string>)
    ensures |lines| == |messages|
  {
    if messages == [] then [] else [line(messages[0])] + LinesOf(messages[1..], line)
  }

  function DigestLines(dropped: seq<Message>, rendering: Rendering): seq<string> {
    var newest := if |dropped| > 8 then dropped[|dropped| - 8..] else dropped;
    [LEGACY_SUMMARY_FIRST_LINE] + rendering.fileLines(dropped) + LinesOf(newest, rendering.summaryLine)
  }

  function BuildSummary(dropped: seq<Message>, rendering: Rendering, maxTokens: nat): Option<string> {
    if dropped == [] || maxTokens == 0 then None
    else Some(FitLines(DigestLines(dropped, rendering), 1 + |rendering.fileLines(dropped)|, maxTokens))
  }

  method ComposeDigest(dropped: seq<Message>, rendering: Rendering, maxTokens: nat) returns (digest: Option<string>)
    ensures digest == BuildSummary(dropped, rendering, maxTokens)
    ensures digest.Some? <==> dropped != [] && maxTokens != 0
  {
    if dropped == [] || maxTokens == 0 { return None; }
    var lines := DigestLines(dropped, rendering);
    var protectedCount := 1 + |rendering.fileLines(dropped)|;
    while true
      invariant protectedCount <= |lines|
      invariant BuildSummary(dropped, rendering, maxTokens) == Some(FitLines(lines, protectedCount, maxTokens))
      decreases |lines|
    {
      var candidate := Join(lines, "\n");
      if EstimateText(candidate) <= maxTokens { return Some(candidate); }
      if |lines| > protectedCount {
        lines := lines[..|lines| - 1];
        continue;
      }
      var truncated := Take(candidate, maxTokens * 4);
      if |truncated| < |candidate| { truncated := truncated + "..."; }
      return Some(truncated);
    }
  }

  /** The deterministic fallback: the digest first, then the folded summaries. */
  function FallbackBody(dropped: seq<Message>, folded: seq<string>, rendering: Rendering, budget: nat): Option<string> {
    var chain := TruncateToTokens("Previous summary:\n" + Join(folded, "\n\n"),
                                  Max(budget / 2, SUMMARY_BUDGET_MIN_TOKENS));
    var chainTokens := if folded == [] then 0 else EstimateText(chain);
    match BuildSummary(dropped, rendering, Max(SatSub(budget, chainTokens), 64))
    case Some(digest) => Some(if folded == [] then digest else digest + "\n" + chain)
    case None => if folded == [] then None else Some(chain)
  }

  function SummaryBody(selection: Selection, options: Options): Option<string> {
    var kept := Estimate(selection.prefix) + Estimate(selection.users) + Estimate(selection.tail);
    var room := Clamp(SatSub(options.budget, kept), 16, Max(selection.summaryBudget, 16));
    if options.model.Some? && Trim(options.model.value) != ""
    then Some(TruncateToTokens(Trim(options.model.value), Max(room, selection.summaryBudget)))
    else FallbackBody(selection.dropped, selection.folded, options.rendering, room)
  }

  function SelectionFor(messages: seq<Message>, options: Options): Selection {
    Retain(messages, options.budget, options.userConfig, options.trigger.Forced?, options.previous)
  }

  function Compose(selection: Selection, body: string, options: Options): seq<Message> {
    selection.prefix + selection.users + [SummaryMessage(options.summaryId, body, options.now)] + selection.tail
  }

  function Compact(messages: seq<Message>, options: Options): Outcome {
    var selection := SelectionFor(messages, options);
    match SummaryBody(selection, options)
    case None => Outcome(selection.prefix + selection.users + selection.dropped + selection.tail, None)
    case Some(body) =>
      var firstKept := if selection.tail != [] then Some(selection.tail[0].id)
                       else if selection.users != [] then Some(selection.users[0].id) else None;
      Outcome(Compose(selection, body, options),
              Some(Report(SummaryText(body), options.trigger, options.summaryId, firstKept, selection.messagesBefore)))
  }
}
