/** Turns and context builds, one after the other (bt-agent, bt-context and the runtime's prepared turns together). */
module Conversation {
  import opened Wrappers
  import opened Messages
  import opened MessageUnits
  import opened Summaries
  import opened Compaction
  import opened RetentionProperties
  import opened CompactionChain
  import Planning
  import TurnLoop
  import TurnProtocol
  import TurnState
  import TurnStory

  /**
   * What the harness itself produced is never sent with a tool result whose call
   * was compacted away: if the turn started from a well-paired history, under
   * fresh message ids and with tools that echo their call id, the request built
   * from its outcome is well paired, whatever is compacted and however the turn
   * went short of an error.
   */
  method TurnThenBuild(
    w: TurnStory.World, initial: seq<Message>, fuel: nat, inputs: Planning.Inputs, model: Option<string>)
    returns (p: TurnState.Progress, end: TurnState.TurnEnd, request: Planning.BuildOutput)
    ensures request == Planning.Build(inputs.(messages := initial + p.emitted), model)
    ensures TurnState.Echoes(w) && TurnState.FreshIds(w, initial) && WellPaired({}, initial) ==>
      end == TurnState.Failed || WellPaired({}, request.messages)
  {
    hide Planning.Build, TurnState.FreshIds, TurnState.Echoes, WellPaired, DistinctIds;
    ghost var law;
    p, end, law := TurnLoop.RunTurn(w, initial, fuel);
    request := Planning.Build(inputs.(messages := initial + p.emitted), model);
    if end != TurnState.Failed && TurnState.Echoes(w) && TurnState.FreshIds(w, initial) && WellPaired({}, initial) {
      Planning.BuildKeepsPairing(inputs.(messages := initial + p.emitted), model);
    }
  }

  // ---- Any number of rounds ----

  /**
   * One round: messages arrive, a request is built from the stored history and
   * a turn runs on it. The store then keeps the whole history, as the runtime
   * does, or `adopts` the request in its place; what the turn emitted follows.
   */
  datatype Round = Round(
    said: seq<Message>, inputs: Planning.Inputs, model: Option<string>, world: TurnStory.World, fuel: nat, adopts: bool)

  /** The stored history and recorded summary a round starts from, and the request built in it. */
  datatype Exchange = Exchange(history: seq<Message>, recorded: Option<string>, request: seq<Message>)

  function Output(history: seq<Message>, recorded: Option<string>, round: Round): Planning.BuildOutput {
    Planning.Build(round.inputs.(messages := history + round.said, previous := recorded), round.model)
  }

  function Recorded(recorded: Option<string>, output: Planning.BuildOutput): Option<string> {
    if output.compaction.Some? then Some(output.compaction.value.report.summary) else recorded
  }

  ghost predicate Mints(round: Round, id: int) {
    || (exists m :: m in round.said && m.id == id) || id == round.inputs.summaryId
    || exists t: nat :: round.world.newId(t) == id
  }

  /** The ids of a round's own messages all differ. */
  ghost predicate OwnIds(round: Round) {
    && DistinctIds(round.said) && (forall m :: m in round.said ==> m.id != round.inputs.summaryId)
    && (forall s: nat, t: nat :: s != t ==> round.world.newId(s) != round.world.newId(t))
    && (forall t: nat :: round.world.newId(t) != round.inputs.summaryId)
    && (forall t: nat, m :: m in round.said ==> m.id != round.world.newId(t))
  }

  /** No message has an id that the round will use. */
  ghost predicate Unused(round: Round, messages: seq<Message>) {
    forall m :: m in messages ==> !Mints(round, m.id)
  }

  /** What arrives is no summary and answers only calls that are open. */
  predicate Fits(history: seq<Message>, said: seq<Message>) {
    WellPaired(OpenAfter({}, history), said) && Quiet(said)
  }

  predicate AtMostOneSummary(messages: seq<Message>) {
    forall i, j :: 0 <= i < j < |messages| ==> !(Recognized(messages[i]) && Recognized(messages[j]))
  }

  predicate Good(messages: seq<Message>) {
    WellPaired({}, messages) && DistinctIds(messages) && AtMostOneSummary(messages)
  }

  /** What a round needs: a good history, fitting arrivals, new ids, and tools that echo their call id. */
  ghost predicate Prepared(history: seq<Message>, round: Round) {
    Good(history) && Fits(history, round.said) && OwnIds(round) && Unused(round, history)
    && TurnState.Echoes(round.world)
  }

  // ---- Pieces of a transcript ----

  lemma QuietExtends(messages: seq<Message>, after: seq<Message>)
    requires AtMostOneSummary(messages) && Quiet(after)
    ensures AtMostOneSummary(messages + after)
  {
    hide Recognized;
    var all := messages + after;
    forall i, j | 0 <= i < j < |all| ensures !(Recognized(all[i]) && Recognized(all[j])) {
      if j >= |messages| { assert all[j] in after; }
    }
  }

  lemma OneIsAtMostOne(messages: seq<Message>, body: string)
    requires OneSummary(messages, body)
    ensures AtMostOneSummary(messages)
  {
    hide Recognized, SummaryMessageBody;
    var k :| 0 <= k < |messages| && SummaryMessageBody(messages[k]) == Some(body)
             && Quiet(messages[..k]) && Quiet(messages[k + 1..]);
    forall i, j | 0 <= i < j < |messages| ensures !(Recognized(messages[i]) && Recognized(messages[j])) {
      if i < k { assert messages[i] in messages[..k]; }
      if j > k { assert messages[j] in messages[k + 1..]; }
    }
  }

  lemma TurnsAreQuiet(emitted: seq<Message>)
    requires forall m :: m in emitted ==> m.role == Assistant || m.role == Role.Tool
    ensures Quiet(emitted)
  {
    hide Recognized;
    forall m | m in emitted ensures !Recognized(m) {
      if Recognized(m) { RecognizedIsSystem(m); }
    }
  }

  lemma DistinctJoin(a: seq<Message>, b: seq<Message>)
    requires DistinctIds(a) && DistinctIds(b) && forall x, y :: x in a && y in b ==> x.id != y.id
    ensures DistinctIds(a + b)
  {
    var all := a + b;
    forall i, j | 0 <= i < j < |all| ensures all[i].id != all[j].id {
      if i < |a| <= j {
        assert a[i] in a && b[j - |a|] in b;
      }
    }
  }

  // ---- One round ----

  lemma HistoryGrows(history: seq<Message>, round: Round)
    requires Prepared(history, round)
    ensures Good(history + round.said)
    ensures forall m :: m in history + round.said ==>
      m.id != round.inputs.summaryId && forall t: nat :: m.id != round.world.newId(t)
  {
    hide DistinctIds, AtMostOneSummary, WellPaired, OpenAfter, Quiet, TurnState.Echoes;
    WellPairedConcat({}, history, round.said);
    QuietExtends(history, round.said);
    forall x, y | x in history && y in round.said ensures x.id != y.id {
      assert Mints(round, y.id);
    }
    DistinctJoin(history, round.said);
    forall m | m in history + round.said
      ensures m.id != round.inputs.summaryId && forall t: nat :: m.id != round.world.newId(t) {
      if m in history { assert !Mints(round, m.id); }
    }
  }

  /** The request keeps the history's calls open and adds no id but the summary's. */
  lemma RequestIsGood(inputs: Planning.Inputs, model: Option<string>)
    requires Good(inputs.messages) && forall m :: m in inputs.messages ==> m.id != inputs.summaryId
    ensures var request := Planning.Build(inputs, model).messages;
      && Good(request) && OpenAfter({}, request) == OpenAfter({}, inputs.messages)
      && (forall m :: m in request ==> m in inputs.messages || m.id == inputs.summaryId)
  {
    hide Planning.Build, DistinctIds, AtMostOneSummary, WellPaired, OpenAfter;
    Planning.BuildKeepsPairing(inputs, model);
    Planning.BuildKeepsIds(inputs, model);
    RequestHasOneSummary(inputs, model);
  }

  lemma RequestHasOneSummary(inputs: Planning.Inputs, model: Option<string>)
    requires AtMostOneSummary(inputs.messages)
    ensures AtMostOneSummary(Planning.Build(inputs, model).messages)
  {
    hide AtMostOneSummary, OneSummary, Planning.EffectiveBudget, Planning.CompactionTrigger;
    match Planning.TriggerOf(inputs)
    case None =>
    case Some(trigger) =>
      var options := Planning.OptionsFor(inputs, trigger, model);
      hide Compact, NormalizeSummaryBody, Planning.OptionsFor;
      var outcome := Compact(inputs.messages, options);
      if outcome.report.Some? {
        CompactionLeavesOneSummary(inputs.messages, options);
        OneIsAtMostOne(outcome.messages, NormalizeSummaryBody(outcome.report.value.summary));
      }
  }

  /** After the turn the stored history is good again, and each new id is one of the round's. */
  lemma NextHistoryIsGood(history: seq<Message>, round: Round, request: seq<Message>, emitted: seq<Message>, clock: nat)
    requires Prepared(history, round)
    requires Good(request) && OpenAfter({}, request) == OpenAfter({}, history + round.said)
    requires forall m :: m in request ==> m in history + round.said || m.id == round.inputs.summaryId
    requires WellPaired({}, request + emitted) && DistinctIds(request + emitted) && Quiet(emitted)
    requires forall m :: m in emitted ==> TurnState.MintedBefore(round.world, clock, m.id)
    ensures var next := (if round.adopts then request else history + round.said) + emitted;
      Good(next) && forall m :: m in next ==> m in history || Mints(round, m.id)
  {
    HistoryGrows(history, round);
    NewIds(history, round, request, emitted, clock);
    var stored := history + round.said;
    hide DistinctIds, AtMostOneSummary, WellPaired, OpenAfter, Quiet, Prepared, Mints;
    if round.adopts {
      QuietExtends(request, emitted);
    } else {
      QuietExtends(stored, emitted);
      WellPairedConcat({}, request, emitted);
      WellPairedConcat({}, stored, emitted);
      assert request + emitted == request + emitted + [];
      DistinctSlice(request, emitted, []);
      forall x, y | x in stored && y in emitted ensures x.id != y.id {
        var t: nat :| t < clock && round.world.newId(t) == y.id;
      }
      DistinctJoin(stored, emitted);
    }
  }

  lemma NewIds(history: seq<Message>, round: Round, request: seq<Message>, emitted: seq<Message>, clock: nat)
    requires forall m :: m in request ==> m in history + round.said || m.id == round.inputs.summaryId
    requires forall m :: m in emitted ==> TurnState.MintedBefore(round.world, clock, m.id)
    ensures forall m :: m in request + emitted ==> m in history || Mints(round, m.id)
    ensures forall m :: m in history + round.said + emitted ==> m in history || Mints(round, m.id)
  {
    forall m | m in emitted ensures Mints(round, m.id) {
      var t: nat :| t < clock && round.world.newId(t) == m.id;
    }
    forall m | m in history + round.said ensures m in history || Mints(round, m.id) {
    }
  }

  method TakeRound(history: seq<Message>, recorded: Option<string>, round: Round)
    returns (request: seq<Message>, summary: Option<string>, next: Option<seq<Message>>)
    ensures request == Output(history, recorded, round).messages
    ensures summary == Recorded(recorded, Output(history, recorded, round))
    ensures next.Some? ==> (if round.adopts then request else history + round.said) <= next.value
    ensures Prepared(history, round) ==> Good(request)
    ensures Prepared(history, round) && next.Some? ==>
      Good(next.value) && forall m :: m in next.value ==> m in history || Mints(round, m.id)
  {
    hide Planning.Build, Prepared, Good, Mints, TurnLoop.Delivered;
    var output := Output(history, recorded, round);
    request, summary := output.messages, Recorded(recorded, output);
    var p, end, law := TurnLoop.RunTurn(round.world, request, round.fuel);
    next := None;
    if end != TurnState.Failed {
      next := Some((if round.adopts then request else history + round.said) + p.emitted);
    }
    if Prepared(history, round) {
      HistoryGrows(history, round);
      RequestIsGood(round.inputs.(messages := history + round.said, previous := recorded), round.model);
      if end != TurnState.Failed {
        RoundDelivers(history, round, request, p, law, end);
      }
    }
  }

  lemma RoundDelivers(
    history: seq<Message>, round: Round, request: seq<Message>, p: TurnState.Progress, law: TurnProtocol.Law,
    end: TurnState.TurnEnd)
    requires Prepared(history, round) && TurnLoop.Delivered(round.world, request, p, law, end)
      && end != TurnState.Failed
    requires Good(request) && OpenAfter({}, request) == OpenAfter({}, history + round.said)
    requires forall m :: m in request ==> m in history + round.said || m.id == round.inputs.summaryId
    ensures var next := (if round.adopts then request else history + round.said) + p.emitted;
      Good(next) && forall m :: m in next ==> m in history || Mints(round, m.id)
  {
    HistoryGrows(history, round);
    hide DistinctIds, AtMostOneSummary, WellPaired, OpenAfter, Quiet, Mints, TurnState.EndsIn, TurnState.Answered;
    assert TurnState.FreshIds(round.world, request);
    TurnsAreQuiet(p.emitted);
    NextHistoryIsGood(history, round, request, p.emitted, p.clock);
  }

  // ---- The conversation ----

  /** The ids of different rounds differ, and no round uses an id of the history it all starts from. */
  ghost predicate IdsApart(start: seq<Message>, rounds: seq<Round>) {
    && (forall i :: 0 <= i < |rounds| ==> OwnIds(rounds[i]) && Unused(rounds[i], start))
    && (forall i, j, id :: 0 <= i < j < |rounds| && Mints(rounds[i], id) ==> !Mints(rounds[j], id))
  }

  ghost predicate AllEcho(rounds: seq<Round>) {
    forall i :: 0 <= i < |rounds| ==> TurnState.Echoes(rounds[i].world)
  }

  /** Up to this exchange everything that arrived was no summary and answered only open calls. */
  predicate FitsUpTo(log: seq<Exchange>, rounds: seq<Round>, n: nat)
    requires |log| <= |rounds| && n <= |log|
  {
    forall k :: 0 <= k < n ==> Fits(log[k].history, rounds[k].said)
  }

  /** Every request so far is good, as far as what arrived fitted. */
  ghost predicate RequestsGood(log: seq<Exchange>, rounds: seq<Round>)
    requires |log| <= |rounds|
  {
    forall n :: 0 <= n < |log| && FitsUpTo(log, rounds, n + 1) ==> Good(log[n].request)
  }

  /** The history is good, and the rounds still to come use none of its ids. */
  ghost predicate Onward(history: seq<Message>, rounds: seq<Round>, k: nat) {
    Good(history) && forall j :: k <= j < |rounds| ==> Unused(rounds[j], history)
  }

  /** Each round builds on what the rounds before it stored and recorded. */
  predicate Chained(log: seq<Exchange>, rounds: seq<Round>)
    requires |log| <= |rounds|
  {
    && (forall k :: 0 <= k < |log| ==> log[k].request == Output(log[k].history, log[k].recorded, rounds[k]).messages)
    && (forall k :: 0 < k < |log| ==> Follows(log[k - 1], rounds[k - 1], log[k].history, log[k].recorded))
  }

  /** The next round's history extends what the store kept, and its recorded summary is the latest one. */
  predicate Follows(last: Exchange, round: Round, history: seq<Message>, recorded: Option<string>) {
    && recorded == Recorded(last.recorded, Output(last.history, last.recorded, round))
    && (if round.adopts then last.request else last.history + round.said) <= history
  }

  lemma ChainGrows(log: seq<Exchange>, rounds: seq<Round>, next: Exchange)
    requires |log| < |rounds| && Chained(log, rounds)
    requires next.request == Output(next.history, next.recorded, rounds[|log|]).messages
    requires log != [] ==> Follows(log[|log| - 1], rounds[|log| - 1], next.history, next.recorded)
    ensures Chained(log + [next], rounds)
  {
    hide Output, Follows;
  }

  lemma GoodGrows(log: seq<Exchange>, rounds: seq<Round>, next: Exchange)
    requires |log| < |rounds| && RequestsGood(log, rounds)
    requires FitsUpTo(log, rounds, |log|) && Fits(next.history, rounds[|log|].said) ==> Good(next.request)
    ensures RequestsGood(log + [next], rounds)
    ensures FitsUpTo(log + [next], rounds, |log| + 1) ==>
      FitsUpTo(log, rounds, |log|) && Fits(next.history, rounds[|log|].said)
  {
    hide Fits, Good;
    var more := log + [next];
    assert FitsUpTo(more, rounds, |log| + 1) ==> FitsUpTo(log, rounds, |log|) by {
      assert forall k :: 0 <= k < |log| ==> more[k] == log[k];
    }
    forall n | 0 <= n < |more| && FitsUpTo(more, rounds, n + 1) ensures Good(more[n].request) {
      assert forall k :: 0 <= k < |log| ==> more[k] == log[k];
      if n < |log| {
        assert FitsUpTo(log, rounds, n + 1);
      } else {
        assert more[n] == next;
        assert FitsUpTo(log, rounds, |log|);
      }
    }
  }

  lemma PreparedAt(start: seq<Message>, rounds: seq<Round>, k: nat, history: seq<Message>)
    requires IdsApart(start, rounds) && AllEcho(rounds) && k < |rounds|
    requires Onward(history, rounds, k) && Fits(history, rounds[k].said)
    ensures Prepared(history, rounds[k])
  {
    hide Good, Fits, OwnIds, Unused, Mints, TurnState.Echoes;
  }

  lemma StaysOnward(
    start: seq<Message>, rounds: seq<Round>, k: nat, history: seq<Message>, next: seq<Message>)
    requires IdsApart(start, rounds) && k < |rounds| && Onward(history, rounds, k) && Good(next)
    requires forall m :: m in next ==> m in history || Mints(rounds[k], m.id)
    ensures Onward(next, rounds, k + 1)
  {
    hide Good, OwnIds, Mints;
  }

  /**
   * Any number of rounds, until a turn fails: from a good history, with new
   * ids, echoing tools and fitting arrivals, every request that is sent is well
   * paired, has distinct message ids and holds at most one summary, whatever
   * each build compacts and whether or not the store adopts it.
   */
  method Converse(start: seq<Message>, recorded: Option<string>, rounds: seq<Round>) returns (log: seq<Exchange>)
    ensures |log| <= |rounds| && Chained(log, rounds)
    ensures log != [] ==> log[0].history == start && log[0].recorded == recorded
    ensures Good(start) && IdsApart(start, rounds) && AllEcho(rounds) ==> RequestsGood(log, rounds)
  {
    ghost var premises := Good(start) && IdsApart(start, rounds) && AllEcho(rounds);
    hide *;
    log := [];
    Begins(start, rounds);
    var history, latest := start, recorded;
    for k := 0 to |rounds|
      invariant |log| == k && Chained(log, rounds)
      invariant if k == 0 then history == start && latest == recorded
                else Follows(log[k - 1], rounds[k - 1], history, latest)
      invariant k > 0 ==> log[0].history == start && log[0].recorded == recorded
      invariant premises ==> RequestsGood(log, rounds)
      invariant premises && FitsUpTo(log, rounds, k) ==> Onward(history, rounds, k)
    {
      var request, summary, next := TakeRound(history, latest, rounds[k]);
      var exchange := Exchange(history, latest, request);
      ChainGrows(log, rounds, exchange);
      if premises {
        if FitsUpTo(log, rounds, k) && Fits(history, rounds[k].said) { PreparedAt(start, rounds, k, history); }
        GoodGrows(log, rounds, exchange);
        if next.Some? && Onward(history, rounds, k) && Fits(history, rounds[k].said) {
          PreparedAt(start, rounds, k, history);
          StaysOnward(start, rounds, k, history, next.value);
        }
      }
      if next.Some? { Stored(exchange, rounds[k], next.value, summary); }
      log := log + [exchange];
      if next.None? { break; }
      history, latest := next.value, summary;
    }
  }

  lemma Stored(exchange: Exchange, round: Round, next: seq<Message>, summary: Option<string>)
    requires summary == Recorded(exchange.recorded, Output(exchange.history, exchange.recorded, round))
    requires (if round.adopts then exchange.request else exchange.history + round.said) <= next
    ensures Follows(exchange, round, next, summary)
  {
  }

  lemma Begins(start: seq<Message>, rounds: seq<Round>)
    ensures Chained([], rounds) && RequestsGood([], rounds)
    ensures Good(start) && IdsApart(start, rounds) ==> Onward(start, rounds, 0)
  {
    hide Good, Mints, OwnIds;
  }
}
