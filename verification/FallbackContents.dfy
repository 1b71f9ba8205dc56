/** What a compaction body holds when no model wrote it, and how summaries survive such bodies (bt-context). */
module FallbackContents {
  import opened Wrappers
  import opened Text
  import opened Messages
  import opened Tokens
  import opened Summaries
  import opened Retention
  import opened Compaction
  import opened CompactionProperties
  import opened CompactionChain

  // ---- The digest ----

  predicate AreLines(lines: seq<string>, messages: seq<Message>, line: Message -> string) {
    |lines| == |messages| && forall i :: 0 <= i < |messages| ==> lines[i] == line(messages[i])
  }

  lemma {:induction false} LinesAre(messages: seq<Message>, line: Message -> string)
    ensures AreLines(LinesOf(messages, line), messages, line)
  {
    if messages != [] { LinesAre(messages[1..], line); }
  }

  /**
   * The digest is made of the first line, the file lines, and one line for each
   * of the newest eight dropped messages, in their order.
   */
  lemma DigestLinesAre(dropped: seq<Message>, rendering: Rendering) returns (newest: seq<Message>, lines: seq<string>)
    ensures |newest| == (if |dropped| < 8 then |dropped| else 8) && newest == dropped[|dropped| - |newest|..]
    ensures AreLines(lines, newest, rendering.summaryLine)
    ensures DigestLines(dropped, rendering)
         == [LEGACY_SUMMARY_FIRST_LINE] + rendering.fileLines(dropped) + lines
  {
    newest := if |dropped| > 8 then dropped[|dropped| - 8..] else dropped;
    lines := LinesOf(newest, rendering.summaryLine);
    LinesAre(newest, rendering.summaryLine);
  }

  /** A digest within its tokens shows each of the newest eight dropped messages. */
  lemma DigestShowsNewest(dropped: seq<Message>, rendering: Rendering, maxTokens: nat, k: nat)
    requires |dropped| - 8 <= k < |dropped| && maxTokens > 0
    requires |Join(DigestLines(dropped, rendering), "\n")| / 4 + 8 <= maxTokens
    ensures BuildSummary(dropped, rendering, maxTokens).Some?
    ensures Occurs(rendering.summaryLine(dropped[k]), BuildSummary(dropped, rendering, maxTokens).value)
  {
    hide Join;
    var newest, lines := DigestLinesAre(dropped, rendering);
    var all := DigestLines(dropped, rendering);
    var j := |all| - |dropped| + k;
    assert all[j] == rendering.summaryLine(dropped[k]);
    OccursInJoin(all, "\n", j);
  }

  // ---- The carried summaries ----

  /** The tokens given to carried summaries: half of what the kept messages leave for a summary, and at least 64. */
  function CarryTokens(selection: Selection, options: Options): nat {
    var kept := Estimate(selection.prefix) + Estimate(selection.users) + Estimate(selection.tail);
    var left := if options.budget < kept then 0 else options.budget - kept;
    var most := if selection.summaryBudget < 16 then 16 else selection.summaryBudget;
    var room := if left < 16 then 16 else if left > most then most else left;
    if room / 2 < 64 then 64 else room / 2
  }

  /** The tokens given to the digest: what the carried summaries leave of that room, and at least 64. */
  function DigestTokens(selection: Selection, options: Options): (tokens: nat)
    ensures tokens >= 64
  {
    var kept := Estimate(selection.prefix) + Estimate(selection.users) + Estimate(selection.tail);
    var left := if options.budget < kept then 0 else options.budget - kept;
    var most := if selection.summaryBudget < 16 then 16 else selection.summaryBudget;
    var room := if left < 16 then 16 else if left > most then most else left;
    var carried, allowed := |Carried(selection.folded)|, CarryTokens(selection, options);
    var length := if carried / 4 + 8 <= allowed then carried
                  else (if carried < 4 * allowed then carried else 4 * allowed) + 3;
    var spent := if selection.folded == [] then 0 else length / 4 + 8;
    if room - spent < 64 then 64 else room - spent
  }

  predicate NoModel(options: Options) {
    options.model.None? || Trim(options.model.value) == ""
  }

  function Carried(folded: seq<string>): string {
    "Previous summary:\n" + Join(folded, "\n\n")
  }

  /**
   * Without a model-written summary the body is the digest of what is dropped, if
   * anything is, followed by the carried summaries, if there are any: all of their
   * text when it is at most four characters a token long, else just that much.
   */
  lemma FallbackHolds(selection: Selection, options: Options)
    requires NoModel(options) && SummaryBody(selection, options).Some?
    ensures var body := SummaryBody(selection, options).value;
      var carried, most := Carried(selection.folded), 4 * CarryTokens(selection, options);
      && (selection.dropped != [] ==>
            StartsWithDigest(body, selection.dropped, options.rendering, DigestTokens(selection, options)))
      && (selection.folded != [] && |carried| <= most ==> Occurs(carried, body))
      && (selection.folded != [] && |carried| > most ==> Occurs(carried[..most] + "...", body))
  {
    hide *;
    var dropped, folded, tokens := selection.dropped, selection.folded, DigestTokens(selection, options);
    var body := SummaryBody(selection, options).value;
    var digest, chain := FallbackIs(selection, options);
    DigestExists(dropped, options.rendering, tokens);
    if dropped != [] { DigestStarts(body, digest.value, chain, dropped, options.rendering, tokens); }
    if folded != [] {
      var before := if digest.Some? then digest.value + "\n" else "";
      assert body == before + chain;
      ChainShows(Carried(folded), CarryTokens(selection, options), before);
    }
  }

  /** The body, put together from its two sections. */
  lemma FallbackIs(selection: Selection, options: Options) returns (digest: Option<string>, chain: string)
    requires NoModel(options) && SummaryBody(selection, options).Some?
    ensures digest == BuildSummary(selection.dropped, options.rendering, DigestTokens(selection, options))
    ensures chain == TruncateToTokens(Carried(selection.folded), CarryTokens(selection, options))
    ensures selection.folded == [] ==> digest == SummaryBody(selection, options)
    ensures selection.folded != [] ==>
      SummaryBody(selection, options).value == (if digest.Some? then digest.value + "\n" else "") + chain
  {
    hide Trim, Join, BuildSummary, Estimate, TruncateToTokens, CarryTokens, DigestTokens, EstimateText, Clamp;
    var room := TokensAre(selection, options);
    var tokens := CarryTokens(selection, options);
    chain := TruncateToTokens(Carried(selection.folded), tokens);
    digest := BuildSummary(selection.dropped, options.rendering, DigestTokens(selection, options));
    assert digest.None? ==> "" + chain == chain;
  }

  lemma TokensAre(selection: Selection, options: Options) returns (room: nat)
    ensures var kept := Estimate(selection.prefix) + Estimate(selection.users) + Estimate(selection.tail);
      room == Clamp(SatSub(options.budget, kept), 16, Max(selection.summaryBudget, 16))
    ensures CarryTokens(selection, options) == Max(room / 2, SUMMARY_BUDGET_MIN_TOKENS)
    ensures var chain := TruncateToTokens(Carried(selection.folded), CarryTokens(selection, options));
      var chainTokens := if selection.folded == [] then 0 else EstimateText(chain);
      DigestTokens(selection, options) == Max(SatSub(room, chainTokens), 64)
  {
    hide Estimate, TruncateToTokens, Carried;
    var kept := Estimate(selection.prefix) + Estimate(selection.users) + Estimate(selection.tail);
    room := Clamp(SatSub(options.budget, kept), 16, Max(selection.summaryBudget, 16));
    ChainLength(Carried(selection.folded), CarryTokens(selection, options));
  }

  lemma DigestStarts(
    body: string, digest: string, chain: string, dropped: seq<Message>, rendering: Rendering, tokens: nat)
    requires tokens > 0 && BuildSummary(dropped, rendering, tokens) == Some(digest)
    requires body == digest || body == (digest + "\n") + chain
    ensures StartsWithDigest(body, dropped, rendering, tokens)
  {
    hide BuildSummary;
  }

  lemma ChainLength(carried: string, tokens: nat)
    ensures |TruncateToTokens(carried, tokens)|
         == if |carried| / 4 + 8 <= tokens then |carried|
            else (if |carried| < 4 * tokens then |carried| else 4 * tokens) + 3
  {
  }

  predicate StartsWithDigest(body: string, dropped: seq<Message>, rendering: Rendering, tokens: nat) {
    BuildSummary(dropped, rendering, tokens).Some? && BuildSummary(dropped, rendering, tokens).value <= body
  }

  lemma DigestExists(dropped: seq<Message>, rendering: Rendering, tokens: nat)
    requires tokens > 0
    ensures BuildSummary(dropped, rendering, tokens).Some? <==> dropped != []
  {
    hide FitLines, DigestLines;
  }

  lemma ChainShows(carried: string, tokens: nat, before: string)
    ensures var body := before + TruncateToTokens(carried, tokens);
      && (|carried| <= 4 * tokens ==> Occurs(carried, body))
      && (|carried| > 4 * tokens ==> Occurs(carried[..4 * tokens] + "...", body))
  {
    var chain := TruncateToTokens(carried, tokens);
    if |carried| <= 4 * tokens {
      var after := chain[|carried|..];
      assert before + chain == before + carried + after;
      OccursBetween(before, carried, after);
    } else {
      assert before + chain == before + chain + "";
      OccursBetween(before, chain, "");
    }
  }

  /** Carried summaries that fit all occur in the body, each one whole. */
  lemma FoldedSurvive(selection: Selection, options: Options, k: nat)
    requires NoModel(options) && SummaryBody(selection, options).Some? && k < |selection.folded|
    requires |Carried(selection.folded)| <= 4 * CarryTokens(selection, options)
    ensures Occurs(selection.folded[k], SummaryBody(selection, options).value)
  {
    hide SummaryBody, CarryTokens, Trim;
    FallbackHolds(selection, options);
    OccursInJoin(selection.folded, "\n\n", k);
    var joined := Join(selection.folded, "\n\n");
    assert Carried(selection.folded) == "Previous summary:\n" + joined + "";
    OccursWithin(selection.folded[k], "Previous summary:\n", joined, "");
    OccursTwice(selection.folded[k], Carried(selection.folded), SummaryBody(selection, options).value);
  }

  // ---- Over rounds ----

  /** This round carries a body of this length whole: no model wrote a summary, and it fits. */
  predicate CarriesBody(chain: Chain, round: Round, body: string) {
    var options := round.options.(previous := chain.recorded);
    NoModel(options)
    && |body| + 18 <= 4 * CarryTokens(SelectionFor(chain.context + round.appended, options), options)
  }

  lemma JoinOfOne(body: string)
    ensures Carried([body]) == "Previous summary:\n" + body && |Carried([body])| == |body| + 18
  {
  }

  lemma NormalizedIsSolid(text: string)
    requires NormalizeSummaryBody(text) != ""
    ensures Solid(NormalizeSummaryBody(text))
  {
    var trimmed := Trim(text);
    TrimIsSolid(if COMPACTION_SUMMARY_MARKER <= trimmed then trimmed[|COMPACTION_SUMMARY_MARKER|..] else trimmed);
  }

  /** A text that occurs in the recorded summary's body occurs in that of the next, if that body is carried whole. */
  lemma SurvivesRound(chain: Chain, round: Round, part: string)
    requires Linked(chain) && Quiet(round.appended) && chain.recorded.Some?
    requires Solid(part) && Occurs(part, NormalizeSummaryBody(chain.recorded.value))
    requires CarriesBody(chain, round, NormalizeSummaryBody(chain.recorded.value))
    ensures Advance(chain, round).recorded.Some?
    ensures Occurs(part, NormalizeSummaryBody(Advance(chain, round).recorded.value))
  {
    var body := NormalizeSummaryBody(chain.recorded.value);
    AdvanceKeepsLink(chain, round);
    hide Linked, Quiet, SummaryBody, CarryTokens, NormalizeSummaryBody, Carried, NoModel, Solid, SelectionFor, Trim;
    var messages, options := chain.context + round.appended, round.options.(previous := chain.recorded);
    var selection := SelectionFor(messages, options);
    assert selection.folded == [body];
    JoinOfOne(body);
    if Compact(messages, options).report.Some? {
      FoldedSurvive(selection, options, 0);
      var next := SummaryBody(selection, options).value;
      BodyExists(selection, options);
      BodyRecovered(options.summaryId, next, options.now);
      OccursTwice(part, body, next);
      OccursAfterTrim(part, next);
    }
  }

  lemma OccursAfterTrim(part: string, text: string)
    requires Solid(part) && Occurs(part, text)
    ensures Occurs(part, Trim(text))
  {
    OccursAfterTrimStart(part, text);
    OccursAfterTrimEnd(part, TrimStart(text));
  }

  /**
   * The text of an early summary is still there after any number of rounds
   * without a model, as long as each round's body fits the next.
   */
  lemma {:induction false} EarlySummarySurvives(chain: Chain, rounds: seq<Round>)
    requires Linked(chain) && chain.recorded.Some?
    requires forall i :: 0 <= i < |rounds| ==> Quiet(rounds[i].appended)
    requires forall i :: 0 <= i < |rounds| && RunRounds(chain, rounds[..i]).recorded.Some? ==>
      CarriesBody(RunRounds(chain, rounds[..i]), rounds[i],
                  NormalizeSummaryBody(RunRounds(chain, rounds[..i]).recorded.value))
    ensures RunRounds(chain, rounds).recorded.Some?
    ensures Occurs(NormalizeSummaryBody(chain.recorded.value),
                   NormalizeSummaryBody(RunRounds(chain, rounds).recorded.value))
  {
    hide *;
    var part := NormalizeSummaryBody(chain.recorded.value);
    RecordedIsSolid(chain);
    if rounds == [] {
      RunNone(chain);
      OccursBetween("", part, "");
      assert rounds == [] && "" + part + "" == part;
    } else {
      var last := |rounds| - 1;
      var init := rounds[..last];
      assert forall i :: 0 <= i < last ==> init[..i] == rounds[..i] && init[i] == rounds[i];
      EarlySummarySurvives(chain, init);
      ChainNotStack(chain, init);
      RunOneMore(chain, rounds);
      SurvivesRound(RunRounds(chain, init), rounds[last], part);
    }
  }

  lemma RecordedIsSolid(chain: Chain)
    requires Linked(chain) && chain.recorded.Some?
    ensures Solid(NormalizeSummaryBody(chain.recorded.value))
  {
    hide NormalizeSummaryBody, OneSummary;
    NormalizedIsSolid(chain.recorded.value);
  }

  lemma RunNone(chain: Chain)
    ensures RunRounds(chain, []) == chain
  {
  }

  lemma RunOneMore(chain: Chain, rounds: seq<Round>)
    requires rounds != []
    ensures RunRounds(chain, rounds)
         == Advance(RunRounds(chain, rounds[..|rounds| - 1]), rounds[|rounds| - 1])
  {
  }

  /** The comment's "never loses" is false: with nothing dropped, a long enough carried summary is cut. */
  lemma LongSummaryIsCut(selection: Selection, options: Options, body: string)
    requires NoModel(options) && selection.dropped == [] && selection.folded == [body]
    requires |body| > 4 * CarryTokens(selection, options) + 3
    ensures SummaryBody(selection, options).Some? && !Occurs(body, SummaryBody(selection, options).value)
  {
    hide Trim, Estimate;
    JoinOfOne(body);
  }
}
