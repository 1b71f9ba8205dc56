/**
 * The boundaries a turn crosses, the protocol they obey, and what the protocol
 * means for a whole run (bt-agent, the observer callbacks of `TurnLoop`).
 */
module TurnProtocol {
  import opened Wrappers
  import opened Messages

  datatype Usage = Usage(
    prompt: nat, completion: nat, total: nat, cacheRead: Option<nat>, cacheWrite: Option<nat>, reasoning: Option<nat>)

  datatype Answer = Recorded | CancelledRequest | RequestError

  /**
   * One boundary; `at` is the moment of the answer it carries, or at which the
   * cancel signal was last looked at, and `asked` the moment the provider was
   * asked. A finish names the call the loop was handling and the call its result names.
   */
  datatype Event =
    | LlmStarted(ordinal: nat, request: seq<Message>, at: nat)
    | LlmFinished(ordinal: nat, cancelled: bool, usage: Usage, calls: seq<string>, asked: nat, at: nat)
    | Requested(id: string, needsApproval: bool, asksUser: bool, answer: Answer, at: nat)
    | ApprovalFailed(id: string, at: nat)
    | ApprovalAsked(id: string, noted: bool, at: nat)
    | ApprovalResolved(id: string, approved: bool, noted: bool, at: nat)
    | Executed(id: string, at: nat)
    | Finished(id: string, resultId: string, at: nat)
    | Emitted(message: Message)

  datatype Phase =
    | Ready
    | InCall(ordinal: nat)
    | Asking(id: string)
    | Pending(id: string)
    | Cleared(id: string)
    | Denied(id: string)
    | Failing(id: string)
    | Waiting(id: string)
    | Ran(id: string)
    | Closed

  /** The phase, the calls of the latest response not requested yet, and the number of LLM calls so far. */
  datatype Law = Law(phase: Phase, queue: seq<string>, llmCalls: nat)

  /** The protocol, as one transition per boundary. */
  function Next(cancelled: nat -> bool, law: Law, event: Event): Option<Law> {
    match event
    case LlmStarted(n, _, _) =>
      if law.phase == Ready && law.queue == [] && n == law.llmCalls + 1 then Some(Law(InCall(n), [], n)) else None
    case LlmFinished(n, stopped, _, calls, _, _) =>
      if law.phase != InCall(n) then None
      else if stopped then Some(Law(Closed, [], n)) else Some(Law(Ready, calls, n))
    case Requested(id, needs, asks, answer, _) =>
      if law.phase != Ready || law.queue == [] || law.queue[0] != id then None
      else if answer != Recorded then Some(law.(phase := Closed))
      else Some(Law(if asks then Asking(id) else if needs then Pending(id) else Cleared(id),
                    law.queue[1..], law.llmCalls))
    case ApprovalFailed(id, _) =>
      if law.phase == Pending(id) then Some(law.(phase := Failing(id))) else None
    case ApprovalAsked(id, noted, _) =>
      if law.phase == Pending(id) then Some(law.(phase := if noted then Waiting(id) else Failing(id))) else None
    case ApprovalResolved(id, approved, noted, _) =>
      if law.phase == Pending(id)
      then Some(law.(phase := if !noted then Failing(id) else if approved then Cleared(id) else Denied(id))) else None
    case Executed(id, at) =>
      if law.phase == Cleared(id) && !cancelled(at) then Some(law.(phase := Ran(id))) else None
    case Finished(id, _, at) =>
      if law.phase == Ran(id) || law.phase == Denied(id) then Some(law.(phase := Ready))
      else if law.phase == Failing(id) then Some(law.(phase := Closed))
      else if (law.phase == Asking(id) || law.phase == Pending(id) || law.phase == Cleared(id)) && cancelled(at)
      then Some(law.(phase := Closed)) else None
    case Emitted(_) => Some(law)
  }

  /** The protocol state after a trace, if the trace obeys the protocol. */
  function After(cancelled: nat -> bool, trace: seq<Event>): Option<Law> {
    if trace == [] then Some(Law(Ready, [], 0))
    else match After(cancelled, trace[..|trace| - 1])
      case None => None
      case Some(law) => Next(cancelled, law, trace[|trace| - 1])
  }

  lemma {:induction false} PrefixObeys(cancelled: nat -> bool, trace: seq<Event>, k: nat)
    requires After(cancelled, trace).Some? && k <= |trace|
    ensures After(cancelled, trace[..k]).Some?
    decreases |trace|
  {
    hide Next;
    if k == |trace| {
      assert trace[..k] == trace;
    } else {
      PrefixObeys(cancelled, trace[..|trace| - 1], k);
      assert trace[..|trace| - 1][..k] == trace[..k];
    }
  }

  lemma {:induction false} StepObeys(cancelled: nat -> bool, trace: seq<Event>, k: nat)
    requires After(cancelled, trace).Some? && k < |trace|
    ensures After(cancelled, trace[..k]).Some?
    ensures After(cancelled, trace[..k + 1]) == Next(cancelled, After(cancelled, trace[..k]).value, trace[k])
    ensures After(cancelled, trace[..k + 1]).Some?
  {
    hide Next;
    PrefixObeys(cancelled, trace, k);
    PrefixObeys(cancelled, trace, k + 1);
    assert trace[..k + 1][..k] == trace[..k];
  }

  // ---- Exactly one finish per recorded request ----

  /** A point at which the previous call must be over: a later request or LLM start. */
  predicate Boundary(event: Event) {
    event.Requested? || event.LlmStarted?
  }

  function Finishes(trace: seq<Event>): nat {
    if trace == [] then 0
    else Finishes(trace[..|trace| - 1]) + if trace[|trace| - 1].Finished? then 1 else 0
  }

  function OpenCall(phase: Phase): Option<string> {
    match phase
    case Asking(id) => Some(id)
    case Pending(id) => Some(id)
    case Cleared(id) => Some(id)
    case Denied(id) => Some(id)
    case Failing(id) => Some(id)
    case Waiting(id) => Some(id)
    case Ran(id) => Some(id)
    case _ => None
  }

  /** Every result reported names the call it was reported for. */
  predicate FinishesEcho(trace: seq<Event>) {
    forall j :: 0 <= j < |trace| && trace[j].Finished? ==> trace[j].resultId == trace[j].id
  }

  lemma QuietStep(cancelled: nat -> bool, law: Law, event: Event, id: string, finished: bool)
    requires Next(cancelled, law, event).Some? && !Boundary(event)
    requires if finished then OpenCall(law.phase) == None && !law.phase.InCall? else OpenCall(law.phase) == Some(id)
    ensures var phase := Next(cancelled, law, event).value.phase;
      if event.Finished? then !finished && event.id == id && OpenCall(phase) == None && !phase.InCall?
      else if finished then OpenCall(phase) == None && !phase.InCall?
      else OpenCall(phase) == Some(id) && !phase.InCall?
  {
  }

  /** How far the call of request `i` has got after `k` boundaries. */
  predicate Progressed(cancelled: nat -> bool, trace: seq<Event>, i: nat, k: nat)
    requires i < k <= |trace| && trace[i].Requested?
  {
    && After(cancelled, trace[..k]).Some?
    && var phase := After(cancelled, trace[..k]).value.phase;
       var n := Finishes(trace[i + 1..k]);
       && n <= 1 && !phase.InCall?
       && (n == 0 <==> OpenCall(phase) == Some(trace[i].id)) && (n == 1 <==> OpenCall(phase) == None)
  }

  lemma JustRequested(cancelled: nat -> bool, law: Law, event: Event)
    requires Next(cancelled, law, event).Some? && event.Requested? && event.answer == Recorded
    ensures var phase := Next(cancelled, law, event).value.phase; OpenCall(phase) == Some(event.id) && !phase.InCall?
  {
  }

  lemma ProgressStarts(cancelled: nat -> bool, trace: seq<Event>, i: nat)
    requires After(cancelled, trace).Some? && i < |trace| && trace[i].Requested? && trace[i].answer == Recorded
    ensures Progressed(cancelled, trace, i, i + 1)
  {
    hide Next, OpenCall;
    StepObeys(cancelled, trace, i);
    JustRequested(cancelled, After(cancelled, trace[..i]).value, trace[i]);
    assert trace[i + 1..i + 1] == [];
  }

  lemma FinishesSnoc(trace: seq<Event>, i: nat, k: nat)
    requires i < k < |trace|
    ensures Finishes(trace[i + 1..k + 1]) == Finishes(trace[i + 1..k]) + if trace[k].Finished? then 1 else 0
  {
    assert trace[i + 1..k + 1][..k - i - 1] == trace[i + 1..k];
  }

  lemma ProgressGoesOn(cancelled: nat -> bool, trace: seq<Event>, i: nat, k: nat)
    requires After(cancelled, trace).Some? && i < k < |trace| && trace[i].Requested? && !Boundary(trace[k])
    requires Progressed(cancelled, trace, i, k)
    ensures Progressed(cancelled, trace, i, k + 1)
    ensures trace[k].Finished? ==> trace[k].id == trace[i].id
  {
    hide Next, OpenCall;
    StepObeys(cancelled, trace, k);
    FinishesSnoc(trace, i, k);
    QuietStep(cancelled, After(cancelled, trace[..k]).value, trace[k], trace[i].id, Finishes(trace[i + 1..k]) == 1);
  }

  lemma {:induction false} FinishesBetween(cancelled: nat -> bool, trace: seq<Event>, i: nat, k: nat)
    requires After(cancelled, trace).Some? && i < k <= |trace|
    requires trace[i].Requested? && trace[i].answer == Recorded
    requires forall j :: i < j < k ==> !Boundary(trace[j])
    ensures Progressed(cancelled, trace, i, k)
    ensures forall j :: i < j < k && trace[j].Finished? ==> trace[j].id == trace[i].id
    decreases k
  {
    hide *;
    if k == i + 1 {
      ProgressStarts(cancelled, trace, i);
    } else {
      FinishesBetween(cancelled, trace, i, k - 1);
      ProgressGoesOn(cancelled, trace, i, k - 1);
    }
  }

  /**
   * Between a recorded request and the next request or LLM start there is
   * exactly one `tool_execution_finished`, and it is for that request.
   */
  lemma {:induction false} OneFinishBeforeNextBoundary(cancelled: nat -> bool, trace: seq<Event>, i: nat, k: nat)
    requires After(cancelled, trace).Some? && i < k < |trace|
    requires trace[i].Requested? && trace[i].answer == Recorded
    requires Boundary(trace[k]) && forall j :: i < j < k ==> !Boundary(trace[j])
    ensures Finishes(trace[i + 1..k]) == 1
    ensures forall j :: i < j < k && trace[j].Finished? ==> trace[j].id == trace[i].id
    ensures FinishesEcho(trace) ==> forall j :: i < j < k && trace[j].Finished? ==> trace[j].resultId == trace[i].id
  {
    FinishesBetween(cancelled, trace, i, k);
    StepObeys(cancelled, trace, k);
  }

  /** After the last recorded request there is one finish, unless the run ends with that call still open. */
  lemma {:induction false} OneFinishAfterLastRequest(cancelled: nat -> bool, trace: seq<Event>, i: nat)
    requires After(cancelled, trace).Some? && i < |trace|
    requires trace[i].Requested? && trace[i].answer == Recorded
    requires forall j :: i < j < |trace| ==> !Boundary(trace[j])
    ensures var phase := After(cancelled, trace).value.phase;
      Finishes(trace[i + 1..]) == if OpenCall(phase).Some? then 0 else 1
    ensures forall j :: i < j < |trace| && trace[j].Finished? ==> trace[j].id == trace[i].id
    ensures FinishesEcho(trace) ==>
      forall j :: i < j < |trace| && trace[j].Finished? ==> trace[j].resultId == trace[i].id
  {
    FinishesBetween(cancelled, trace, i, |trace|);
    assert trace[..|trace|] == trace && trace[i + 1..|trace|] == trace[i + 1..];
  }

  // ---- Nothing runs before it is recorded and cleared ----

  predicate Approves(event: Event, id: string) {
    event.ApprovalResolved? && event.id == id && event.approved && event.noted
  }

  /** Request `i` is recorded and, since then, cleared: no approval needed, or an approval that was noted. */
  predicate ClearedBy(trace: seq<Event>, i: nat, id: string) {
    && i < |trace| && trace[i].Requested? && trace[i].id == id && trace[i].answer == Recorded && !trace[i].asksUser
    && (forall j :: i < j < |trace| ==> !Boundary(trace[j]) && !trace[j].Executed? && !trace[j].Finished?)
    && (trace[i].needsApproval ==> exists j :: i < j < |trace| && Approves(trace[j], id))
    && (forall j :: i < j < |trace| && trace[j].ApprovalResolved? ==> trace[j].approved)
  }

  predicate PendingBy(trace: seq<Event>, i: nat, id: string) {
    && i < |trace| && trace[i].Requested? && trace[i].id == id && trace[i].answer == Recorded && !trace[i].asksUser
    && forall j :: i < j < |trace| ==> trace[j].Emitted?
  }

  lemma {:induction false} PendingHistory(cancelled: nat -> bool, trace: seq<Event>, id: string) returns (i: nat)
    requires After(cancelled, trace).Some? && After(cancelled, trace).value.phase == Pending(id)
    ensures PendingBy(trace, i, id)
    decreases |trace|
  {
    var last := |trace| - 1;
    if trace[last].Requested? {
      i := last;
    } else {
      i := PendingHistory(cancelled, trace[..last], id);
    }
  }

  lemma {:induction false} ClearedHistory(cancelled: nat -> bool, trace: seq<Event>, id: string) returns (i: nat)
    requires After(cancelled, trace).Some? && After(cancelled, trace).value.phase == Cleared(id)
    ensures ClearedBy(trace, i, id)
    decreases |trace|
  {
    var last := |trace| - 1;
    if trace[last].Requested? {
      i := last;
    } else if trace[last].Emitted? {
      i := ClearedHistory(cancelled, trace[..last], id);
      if trace[i].needsApproval {
        var j :| i < j < last && Approves(trace[..last][j], id);
        assert Approves(trace[j], id);
      }
    } else {
      i := PendingHistory(cancelled, trace[..last], id);
      assert Approves(trace[last], id);
    }
  }

  /**
   * A tool executes only after its request was recorded and either needs no
   * approval or was approved since, with nothing denied or finished in
   * between, and only while the cancel signal is not set.
   */
  lemma ExecutionIsCleared(cancelled: nat -> bool, trace: seq<Event>, k: nat) returns (i: nat)
    requires After(cancelled, trace).Some? && k < |trace| && trace[k].Executed?
    ensures !cancelled(trace[k].at)
    ensures i < k && ClearedBy(trace[..k], i, trace[k].id)
  {
    StepObeys(cancelled, trace, k);
    i := ClearedHistory(cancelled, trace[..k], trace[k].id);
  }

  /** After a denial: until the next boundary nothing can be cleared. */
  predicate AfterDenial(phase: Phase, id: string) {
    phase == Ready || phase == Closed || phase == Denied(id) || phase == Failing(id)
  }

  lemma DenialHolds(cancelled: nat -> bool, law: Law, event: Event, id: string)
    requires Next(cancelled, law, event).Some?
    requires (event.ApprovalResolved? && !event.approved && event.id == id)
             || (AfterDenial(law.phase, id) && !Boundary(event))
    ensures AfterDenial(Next(cancelled, law, event).value.phase, id) && !event.Executed?
  {
  }

  /** Between a denial and the next boundary nothing executes. */
  lemma {:induction false} DeniedNeverExecutes(cancelled: nat -> bool, trace: seq<Event>, d: nat, k: nat)
    requires After(cancelled, trace).Some? && d < k <= |trace|
    requires trace[d].ApprovalResolved? && !trace[d].approved
    requires forall j :: d < j < k ==> !Boundary(trace[j])
    ensures forall j :: d < j < k ==> !trace[j].Executed?
    ensures After(cancelled, trace[..k]).Some? && AfterDenial(After(cancelled, trace[..k]).value.phase, trace[d].id)
    decreases k
  {
    hide *;
    StepObeys(cancelled, trace, k - 1);
    if k > d + 1 { DeniedNeverExecutes(cancelled, trace, d, k - 1); }
    DenialHolds(cancelled, After(cancelled, trace[..k - 1]).value, trace[k - 1], trace[d].id);
  }

  // ---- Moments ----

  function Moment(event: Event): Option<nat> {
    if event.Emitted? then None else Some(event.at)
  }

  /** The moments a trace names never go back. */
  predicate InOrder(trace: seq<Event>) {
    forall i, j :: 0 <= i < j < |trace| && Moment(trace[i]).Some? && Moment(trace[j]).Some? ==>
      Moment(trace[i]).value <= Moment(trace[j]).value
  }

  // ---- Ordinals and usage ----

  function StartedOrdinals(trace: seq<Event>): seq<nat> {
    if trace == [] then []
    else
      var before := StartedOrdinals(trace[..|trace| - 1]);
      match trace[|trace| - 1] case LlmStarted(n, _, _) => before + [n] case _ => before
  }

  function FinishedOrdinals(trace: seq<Event>): seq<nat> {
    if trace == [] then []
    else
      var before := FinishedOrdinals(trace[..|trace| - 1]);
      match trace[|trace| - 1] case LlmFinished(n, _, _, _, _, _) => before + [n] case _ => before
  }

  function OneTo(n: nat): (ordinals: seq<nat>)
    ensures |ordinals| == n && forall i :: 0 <= i < n ==> ordinals[i] == i + 1
  {
    if n == 0 then [] else OneTo(n - 1) + [n]
  }

  lemma OrdinalStep(cancelled: nat -> bool, law: Law, event: Event)
    requires Next(cancelled, law, event).Some?
    ensures var next := Next(cancelled, law, event).value;
      match event
      case LlmStarted(n, _, _) =>
        n == law.llmCalls + 1 == next.llmCalls && next.phase == InCall(n) && !law.phase.InCall?
      case LlmFinished(n, _, _, _, _, _) => law.phase == InCall(n) && n == next.llmCalls && !next.phase.InCall?
      case _ =>
        next.llmCalls == law.llmCalls
        && (if law.phase.InCall? then next.phase == law.phase else !next.phase.InCall?)
  {
  }

  /** Ordinals count up from one; each started call is finished once, except one the run broke off in. */
  lemma {:induction false} OrdinalsCountUp(cancelled: nat -> bool, trace: seq<Event>)
    requires After(cancelled, trace).Some?
    ensures var law := After(cancelled, trace).value;
      && StartedOrdinals(trace) == OneTo(law.llmCalls)
      && (law.phase.InCall? ==>
        law.phase.ordinal == law.llmCalls > 0 && FinishedOrdinals(trace) == OneTo(law.llmCalls - 1))
      && (!law.phase.InCall? ==> FinishedOrdinals(trace) == OneTo(law.llmCalls))
  {
    hide Next;
    if trace != [] {
      OrdinalsCountUp(cancelled, trace[..|trace| - 1]);
      OrdinalStep(cancelled, After(cancelled, trace[..|trace| - 1]).value, trace[|trace| - 1]);
    }
  }

  function CombineOptional(a: Option<nat>, b: Option<nat>): Option<nat> {
    match (a, b)
    case (Some(x), Some(y)) => Some(x + y)
    case (Some(_), None) => a
    case (None, _) => b
  }

  function MergeUsage(existing: Option<Usage>, next: Option<Usage>): Option<Usage> {
    match (existing, next)
    case (Some(e), Some(n)) =>
      Some(Usage(e.prompt + n.prompt, e.completion + n.completion, e.total + n.total,
                 CombineOptional(e.cacheRead, n.cacheRead), CombineOptional(e.cacheWrite, n.cacheWrite),
                 CombineOptional(e.reasoning, n.reasoning)))
    case (Some(_), None) => existing
    case (None, _) => next
  }

  /** The usages reported by the LLM calls that were not cancelled, in order. */
  function Usages(trace: seq<Event>): seq<Usage> {
    if trace == [] then []
    else
      var before := Usages(trace[..|trace| - 1]);
      match trace[|trace| - 1] case LlmFinished(_, false, usage, _, _, _) => before + [usage] case _ => before
  }

  function Total(usages: seq<Usage>): Option<Usage> {
    if usages == [] then None else MergeUsage(Total(usages[..|usages| - 1]), Some(usages[|usages| - 1]))
  }

  function SumOf(usages: seq<Usage>, field: Usage -> nat): nat {
    if usages == [] then 0 else SumOf(usages[..|usages| - 1], field) + field(usages[|usages| - 1])
  }

  function SumOfPresent(usages: seq<Usage>, field: Usage -> Option<nat>): nat {
    if usages == [] then 0 else
    SumOfPresent(usages[..|usages| - 1], field)
      + (match field(usages[|usages| - 1]) case Some(n) => n case None => 0)
  }

  /** A merged field is absent iff it is absent everywhere, and else the sum of the values present. */
  predicate SumsTo(merged: Option<nat>, usages: seq<Usage>, field: Usage -> Option<nat>) {
    && (merged.Some? <==> exists i :: 0 <= i < |usages| && field(usages[i]).Some?)
    && (merged.Some? ==> merged.value == SumOfPresent(usages, field))
    && (merged.None? ==> SumOfPresent(usages, field) == 0)
  }

  lemma SumsToStep(merged: Option<nat>, usages: seq<Usage>, last: Usage, field: Usage -> Option<nat>)
    requires SumsTo(merged, usages, field)
    ensures SumsTo(CombineOptional(merged, field(last)), usages + [last], field)
  {
    var longer := usages + [last];
    assert longer[..|usages|] == usages;
    assert longer[|usages|] == last;
    if i: nat :| i < |usages| && field(usages[i]).Some? {
      assert longer[i] == usages[i];
    }
  }

  /** The turn's usage is the componentwise sum over its non-cancelled LLM calls. */
  lemma {:induction false} TotalIsComponentwise(usages: seq<Usage>)
    requires usages != []
    ensures Total(usages).Some?
    ensures var total := Total(usages).value;
      && total.prompt == SumOf(usages, (u: Usage) => u.prompt)
      && total.completion == SumOf(usages, (u: Usage) => u.completion)
      && total.total == SumOf(usages, (u: Usage) => u.total)
      && SumsTo(total.cacheRead, usages, (u: Usage) => u.cacheRead)
      && SumsTo(total.cacheWrite, usages, (u: Usage) => u.cacheWrite)
      && SumsTo(total.reasoning, usages, (u: Usage) => u.reasoning)
  {
    var init, last := usages[..|usages| - 1], usages[|usages| - 1];
    assert usages == init + [last];
    if init == [] {
      SumsToStep(None, init, last, (u: Usage) => u.cacheRead);
      SumsToStep(None, init, last, (u: Usage) => u.cacheWrite);
      SumsToStep(None, init, last, (u: Usage) => u.reasoning);
    } else {
      hide SumsTo;
      TotalIsComponentwise(init);
      var total := Total(init).value;
      SumsToStep(total.cacheRead, init, last, (u: Usage) => u.cacheRead);
      SumsToStep(total.cacheWrite, init, last, (u: Usage) => u.cacheWrite);
      SumsToStep(total.reasoning, init, last, (u: Usage) => u.reasoning);
    }
  }
}
