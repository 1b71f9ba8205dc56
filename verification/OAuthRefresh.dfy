/**
 * Refreshing a rotating OAuth token under a per-connection lock, as interleaved
 * steps of any number of tasks over one stored credential (bt-auth, lib.rs and chatgpt.rs).
 */
module OAuthRefresh {
  import opened Wrappers

  type Token = nat

  datatype Kind = ApiKey | OAuthToken

  /** `expiry` is `None` when the access token carries no readable expiration. */
  datatype Credential = Credential(kind: Kind, access: nat, expiry: Option<nat>, refresh: Option<Token>)

  const REFRESH_WINDOW_SECONDS := 300

  function RefreshRequired(expiry: Option<nat>, now: nat): bool {
    match expiry case None => true case Some(epoch) => epoch <= now + REFRESH_WINDOW_SECONDS
  }

  predicate RefreshNeeded(chatgpt: bool, c: Credential, now: nat) {
    chatgpt && c.kind == OAuthToken && c.refresh.Some? && RefreshRequired(c.expiry, now)
  }

  predicate ReloadedIsUsable(chatgpt: bool, previous: Credential, reloaded: Credential, now: nat) {
    chatgpt && reloaded.kind == OAuthToken
    && !(reloaded.access == previous.access && reloaded.refresh == previous.refresh)
    && !RefreshNeeded(chatgpt, reloaded, now)
  }

  /** Where a task is in `resolve_from_auth_store_fresh`; `Refreshing` to `Storing` are inside the token exchange. */
  datatype Pc =
    | Start
    | Loaded(seen: Credential)
    | WantLock
    | Locked
    | Reloaded(seen: Credential)
    | Refreshing(seen: Credential)
    | Sending(seen: Credential, stored: Credential, token: Token)
    | Storing(seen: Credential, next: Credential, brought: Option<Token>)
    | Stored
    | RefreshFailed(seen: Credential)
    | Done(result: Option<Credential>)
    | Errored

  /** What the server answers to a token request, or the store to a write. */
  datatype Reply =
    | Refused
    | Replied(access: nat, expiry: Option<nat>, rotated: Option<Token>)
    | ReplyLost
    | WriteFailed

  /**
   * `lost` says that a reply which consumed a token was never stored, `unstored`
   * that any reply was not: its task was dropped, or the write failed.
   */
  datatype State = State(
    chatgpt: bool, store: Option<Credential>, holder: Option<nat>, tasks: map<nat, Pc>, now: nat,
    consumed: set<Token>, issued: set<Token>, sentConsumed: bool, refreshes: nat, lost: bool, unstored: bool)

  datatype Action = Tick(seconds: nat) | Spawn(task: nat) | Advance(task: nat, reply: Reply) | Abandon(task: nat)

  predicate Critical(pc: Pc) {
    pc.Locked? || pc.Reloaded? || pc.Refreshing? || pc.Sending? || pc.Storing? || pc.Stored? || pc.RefreshFailed?
  }

  /** An omitted refresh token is carried over (section 6 of RFC 6749). */
  function NewCredential(stored: Credential, access: nat, expiry: Option<nat>, rotated: Option<Token>): Credential {
    Credential(OAuthToken, access, expiry, if rotated.Some? then rotated else stored.refresh)
  }

  function Goto(s: State, t: nat, pc: Pc): State {
    s.(tasks := s.tasks[t := pc])
  }

  function Leave(s: State, t: nat, pc: Pc): State {
    Goto(s, t, pc).(holder := None)
  }

  /** The stored credential, and the refresh tokens consumed and ever issued. */
  datatype Vault = Vault(store: Option<Credential>, consumed: set<Token>, issued: set<Token>)

  function VaultOf(s: State): Vault {
    Vault(s.store, s.consumed, s.issued)
  }

  /** What one step inside the lock does. */
  datatype Moved = Moved(pc: Pc, vault: Vault, sentConsumed: bool, refreshed: bool, lost: bool, unstored: bool)

  function Quietly(pc: Pc, vault: Vault): Moved {
    Moved(pc, vault, false, false, false, false)
  }

  /**
   * The token request: a consumed token is refused; a reply that brings a new
   * token consumes the one sent, a reply that repeats it or brings none does
   * not. A server hands out no other token a second time.
   */
  function Exchange(v: Vault, pc: Pc, reply: Reply): Option<Moved>
    requires pc.Sending?
  {
    var failed := RefreshFailed(pc.seen);
    if pc.token in v.consumed then Some(Quietly(failed, v).(sentConsumed := true))
    else match reply
      case Refused => Some(Quietly(failed, v))
      case ReplyLost => Some(Quietly(failed, v.(consumed := v.consumed + {pc.token})).(lost := true))
      case Replied(access, expiry, rotated) =>
        var next := NewCredential(pc.stored, access, expiry, rotated);
        if rotated == None || rotated == Some(pc.token)
        then Some(Quietly(Storing(pc.seen, next, None), v).(refreshed := true))
        else if rotated.value in v.issued then None
        else
          var spent := v.(consumed := v.consumed + {pc.token}, issued := v.issued + {rotated.value});
          Some(Quietly(Storing(pc.seen, next, rotated), spent).(refreshed := true))
      case WriteFailed => None
  }

  /** A task holding the lock. */
  function Inside(chatgpt: bool, now: nat, v: Vault, pc: Pc, reply: Reply): Option<Moved>
    requires Critical(pc)
  {
    match pc
    case Locked => Some(Quietly(match v.store case None => Done(None) case Some(c) => Reloaded(c), v))
    case Reloaded(c) => Some(Quietly(if RefreshNeeded(chatgpt, c, now) then Refreshing(c) else Done(Some(c)), v))
    case Refreshing(c) =>
      Some(Quietly(if v.store.Some? && v.store.value.refresh.Some?
                   then Sending(c, v.store.value, v.store.value.refresh.value) else RefreshFailed(c), v))
    case Sending(_, _, _) => Exchange(v, pc, reply)
    case Storing(c, next, brought) =>
      Some(if reply == WriteFailed
           then Quietly(RefreshFailed(c), v).(lost := brought.Some?, unstored := true)
           else Quietly(Stored, v.(store := Some(next))))
    case Stored => Some(Quietly(if v.store.Some? then Done(v.store) else Errored, v))
    case RefreshFailed(c) =>
      Some(Quietly(if v.store.Some? && ReloadedIsUsable(chatgpt, c, v.store.value, now)
                   then Done(v.store) else Errored,
                   v))
  }

  function Land(s: State, t: nat, m: Moved): State {
    s.(tasks := s.tasks[t := m.pc], holder := if Critical(m.pc) then s.holder else None,
       store := m.vault.store, consumed := m.vault.consumed, issued := m.vault.issued,
       sentConsumed := s.sentConsumed || m.sentConsumed, refreshes := s.refreshes + if m.refreshed then 1 else 0,
       lost := s.lost || m.lost, unstored := s.unstored || m.unstored)
  }

  /** Where a task outside the lock goes next. */
  function Outward(chatgpt: bool, now: nat, store: Option<Credential>, isFree: bool, pc: Pc): Option<Pc> {
    match pc
    case Start => Some(match store case None => Done(None) case Some(c) => Loaded(c))
    case Loaded(c) => Some(if RefreshNeeded(chatgpt, c, now) then WantLock else Done(Some(c)))
    case WantLock => if isFree then Some(Locked) else None
    case _ => None
  }

  function Outside(s: State, t: nat): Option<State>
    requires t in s.tasks
  {
    match Outward(s.chatgpt, s.now, s.store, s.holder == None, s.tasks[t])
    case None => None
    case Some(pc) => Some(Goto(s, t, pc).(holder := if pc == Locked then Some(t) else s.holder))
  }

  /** One step of one task. */
  function Step(s: State, t: nat, reply: Reply): Option<State>
    requires t in s.tasks
  {
    if !Critical(s.tasks[t]) then Outside(s, t)
    else match Inside(s.chatgpt, s.now, VaultOf(s), s.tasks[t], reply)
      case None => None
      case Some(m) => Some(Land(s, t, m))
  }

  /** A dropped task releases its lock; a new token it had not stored yet is lost. */
  function Drop(s: State, t: nat): State
    requires t in s.tasks
  {
    s.(tasks := s.tasks - {t}, holder := if s.holder == Some(t) then None else s.holder,
       lost := s.lost || (s.tasks[t].Storing? && s.tasks[t].brought.Some?),
       unstored := s.unstored || s.tasks[t].Storing?)
  }

  function Apply(s: State, action: Action): Option<State> {
    match action
    case Tick(seconds) => Some(s.(now := s.now + seconds))
    case Spawn(t) => if t in s.tasks then None else Some(Goto(s, t, Start))
    case Advance(t, reply) => if t in s.tasks then Step(s, t, reply) else None
    case Abandon(t) => if t in s.tasks then Some(Drop(s, t)) else None
  }

  function Run(s: State, actions: seq<Action>): Option<State> {
    if actions == [] then Some(s)
    else match Run(s, actions[..|actions| - 1])
      case None => None
      case Some(before) => Apply(before, actions[|actions| - 1])
  }

  predicate Initial(s: State) {
    && s.holder == None && s.tasks == map[] && s.consumed == {} && !s.sentConsumed && s.refreshes == 0
    && !s.lost && !s.unstored
    && (s.store.Some? && s.store.value.refresh.Some? ==> s.store.value.refresh.value in s.issued)
  }

  // ---- Mutual exclusion ----

  /** Exactly the lock holder is inside the critical section. */
  predicate Exclusive(s: State) {
    && (forall t :: t in s.tasks ==> (Critical(s.tasks[t]) <==> s.holder == Some(t)))
    && (s.holder.Some? ==> s.holder.value in s.tasks)
  }

  /** A step moves one task; it takes the free lock, keeps it, or gives it back. */
  predicate MovesOne(s: State, next: State, t: nat) {
    && t in s.tasks && t in next.tasks && next.tasks == s.tasks[t := next.tasks[t]]
    && (if Critical(s.tasks[t]) == Critical(next.tasks[t]) then next.holder == s.holder
        else if Critical(next.tasks[t]) then s.holder == None && next.holder == Some(t)
        else next.holder == None)
  }

  lemma OutwardEnters(chatgpt: bool, now: nat, store: Option<Credential>, isFree: bool, pc: Pc)
    requires Outward(chatgpt, now, store, isFree, pc).Some?
    ensures var next := Outward(chatgpt, now, store, isFree, pc).value;
      !Critical(pc) && (Critical(next) <==> next == Locked) && (next == Locked ==> isFree)
  {
    hide RefreshNeeded;
  }

  lemma OutsideMovesOne(s: State, t: nat)
    requires t in s.tasks && Outside(s, t).Some?
    ensures MovesOne(s, Outside(s, t).value, t)
  {
    hide Outward, Critical;
    OutwardEnters(s.chatgpt, s.now, s.store, s.holder == None, s.tasks[t]);
  }

  lemma LandMovesOne(s: State, t: nat, m: Moved)
    requires t in s.tasks && Critical(s.tasks[t])
    ensures MovesOne(s, Land(s, t, m), t)
  {
    hide Critical;
  }

  lemma StepMovesOne(s: State, t: nat, reply: Reply)
    requires t in s.tasks && Step(s, t, reply).Some?
    ensures MovesOne(s, Step(s, t, reply).value, t)
  {
    hide Outside, Inside, Land, MovesOne;
    if !Critical(s.tasks[t]) {
      OutsideMovesOne(s, t);
    } else {
      LandMovesOne(s, t, Inside(s.chatgpt, s.now, VaultOf(s), s.tasks[t], reply).value);
    }
  }

  lemma MoveIsExclusive(s: State, next: State, t: nat)
    requires Exclusive(s) && MovesOne(s, next, t)
    ensures Exclusive(next)
  {
    hide Critical;
  }

  lemma StepIsExclusive(s: State, t: nat, reply: Reply)
    requires Exclusive(s) && t in s.tasks && Step(s, t, reply).Some?
    ensures Exclusive(Step(s, t, reply).value)
  {
    hide Step, Exclusive, MovesOne;
    StepMovesOne(s, t, reply);
    MoveIsExclusive(s, Step(s, t, reply).value, t);
  }

  // ---- No consumed token is ever sent ----

  /** What the lock holder knows at each point, and that its next credential is live. */
  predicate Knows(v: Vault, pc: Pc) {
    match pc
    case Reloaded(c) => v.store == Some(c)
    case Refreshing(c) => v.store == Some(c)
    case RefreshFailed(c) => v.store == Some(c)
    case Sending(c, stored, token) => v.store == Some(stored) && stored == c && stored.refresh == Some(token)
    case Storing(c, next, brought) =>
      && v.store == Some(c) && c.refresh.Some? && next.refresh == (if brought.Some? then brought else c.refresh)
      && next.refresh.value in v.issued && next.refresh.value !in v.consumed
    case _ => true
  }

  predicate Issued(v: Vault) {
    v.consumed <= v.issued && (v.store.Some? && v.store.value.refresh.Some? ==> v.store.value.refresh.value in v.issued)
  }

  /** The stored refresh token is unconsumed, unless a reply is waiting to be stored. */
  predicate Live(v: Vault, waiting: bool) {
    v.store.Some? && v.store.value.refresh.Some? && !waiting ==> v.store.value.refresh.value !in v.consumed
  }

  predicate Good(s: State) {
    && Exclusive(s) && Issued(VaultOf(s))
    && (s.holder.Some? ==> Knows(VaultOf(s), s.tasks[s.holder.value]))
    && (s.lost || (!s.sentConsumed && Live(VaultOf(s), s.holder.Some? && s.tasks[s.holder.value].Storing?)))
  }

  lemma OutsideStep(s: State, t: nat, reply: Reply)
    requires t in s.tasks && Step(s, t, reply).Some? && !Critical(s.tasks[t])
    ensures var next := Step(s, t, reply).value;
      && next == s.(tasks := next.tasks, holder := next.holder)
      && t in next.tasks && (Critical(next.tasks[t]) ==> next.tasks[t] == Locked)
  {
    hide Outward, Critical, Inside, Land;
    OutwardEnters(s.chatgpt, s.now, s.store, s.holder == None, s.tasks[t]);
  }

  /** What the holder knows, and the safety of the vault, survive one step inside the lock. */
  lemma InsideKeeps(chatgpt: bool, now: nat, v: Vault, pc: Pc, reply: Reply, lost: bool)
    requires Critical(pc) && Inside(chatgpt, now, v, pc, reply).Some?
    requires Issued(v) && Knows(v, pc) && (lost || Live(v, pc.Storing?))
    ensures var m := Inside(chatgpt, now, v, pc, reply).value;
      && Issued(m.vault) && Knows(m.vault, m.pc)
      && (lost || m.lost || (!m.sentConsumed && Live(m.vault, m.pc.Storing?)))
  {
    hide RefreshNeeded, ReloadedIsUsable;
    if pc.Sending? {
      hide Inside;
      SendKeeps(chatgpt, now, v, pc, reply, lost);
    } else {
      hide Exchange;
    }
  }

  lemma SendKeeps(chatgpt: bool, now: nat, v: Vault, pc: Pc, reply: Reply, lost: bool)
    requires pc.Sending? && Inside(chatgpt, now, v, pc, reply).Some?
    requires Issued(v) && Knows(v, pc) && (lost || Live(v, false))
    ensures var m := Inside(chatgpt, now, v, pc, reply).value;
      && Issued(m.vault) && Knows(m.vault, m.pc)
      && (lost || m.lost || (!m.sentConsumed && Live(m.vault, m.pc.Storing?)))
  {
  }

  lemma StepIsGood(s: State, t: nat, reply: Reply)
    requires Good(s) && t in s.tasks && Step(s, t, reply).Some?
    ensures Good(Step(s, t, reply).value)
  {
    StepIsExclusive(s, t, reply);
    if !Critical(s.tasks[t]) {
      hide Step, Knows, Issued, Live;
      StepMovesOne(s, t, reply);
      OutsideStep(s, t, reply);
      assert Knows(VaultOf(s), Locked) by { NothingKnown(VaultOf(s)); }
    } else {
      hide Inside, Knows, Issued, Live, Exclusive;
      HolderIs(s, t);
      InsideKeeps(s.chatgpt, s.now, VaultOf(s), s.tasks[t], reply, s.lost);
    }
  }

  lemma NothingKnown(v: Vault)
    ensures Knows(v, Locked)
  {
  }

  lemma HolderIs(s: State, t: nat)
    requires Exclusive(s) && t in s.tasks
    ensures Critical(s.tasks[t]) <==> s.holder == Some(t)
  {
  }

  lemma DropIsGood(s: State, t: nat)
    requires Good(s) && t in s.tasks
    ensures Good(Drop(s, t))
  {
  }

  lemma ApplyIsGood(s: State, action: Action)
    requires Good(s) && Apply(s, action).Some?
    ensures Good(Apply(s, action).value)
  {
    hide Step, Drop;
    match action {
      case Advance(t, reply) => StepIsGood(s, t, reply);
      case Abandon(t) => DropIsGood(s, t);
      case _ =>
    }
  }

  lemma {:induction false} RunIsGood(s: State, actions: seq<Action>)
    requires Good(s) && Run(s, actions).Some?
    ensures Good(Run(s, actions).value)
    ensures s.lost ==> Run(s, actions).value.lost
  {
    hide Good, Apply;
    if actions != [] {
      assert Run(s, actions) == Apply(Run(s, actions[..|actions| - 1]).value, actions[|actions| - 1]);
      var before := Run(s, actions[..|actions| - 1]).value;
      RunIsGood(s, actions[..|actions| - 1]);
      ApplyIsGood(before, actions[|actions| - 1]);
      if s.lost { LostStays(before, actions[|actions| - 1]); }
    }
  }

  lemma LostStays(s: State, action: Action)
    requires Apply(s, action).Some? && s.lost
    ensures Apply(s, action).value.lost
  {
  }

  /**
   * However tasks interleave, are spawned or dropped, no task sends a
   * refresh token that was already consumed, as long as no consuming reply
   * was lost before it was stored.
   */
  lemma {:induction false} NoConsumedTokenIsSent(s: State, actions: seq<Action>)
    requires Initial(s) && Run(s, actions).Some? && !Run(s, actions).value.lost
    ensures !Run(s, actions).value.sentConsumed
  {
    RunIsGood(s, actions);
  }

  lemma RunThen(s: State, actions: seq<Action>, action: Action)
    requires Run(s, actions).Some?
    ensures Run(s, actions + [action]) == Apply(Run(s, actions).value, action)
  {
    assert (actions + [action])[..|actions|] == actions;
  }

  /** The points a task passes on its way to sending the token, when it finds the lock free and the credential due. */
  function PointsTo(c: Credential): (pcs: seq<Pc>)
    requires c.refresh.Some?
    ensures |pcs| == 7
  {
    [Start, Loaded(c), WantLock, Locked, Reloaded(c), Refreshing(c), Sending(c, c, c.refresh.value)]
  }

  function At(s: State, t: nat, c: Credential, i: nat): State
    requires c.refresh.Some? && i < 7
  {
    s.(tasks := s.tasks[t := PointsTo(c)[i]], holder := if i < 3 then None else Some(t))
  }

  lemma PassesOn(s: State, t: nat, c: Credential, i: nat)
    requires s.store == Some(c) && s.holder == None && RefreshNeeded(s.chatgpt, c, s.now) && i < 6
    ensures Step(At(s, t, c, i), t, Refused) == Some(At(s, t, c, i + 1))
  {
    hide RefreshRequired, ReloadedIsUsable, Exchange;
    var pcs := PointsTo(c);
    assert s.tasks[t := pcs[i]][t := pcs[i + 1]] == s.tasks[t := pcs[i + 1]];
  }

  /** A fresh task that finds the lock free and the credential stale reaches the point of sending its token. */
  lemma ReachesSending(start: State, done: seq<Action>, s: State, t: nat, c: Credential) returns (actions: seq<Action>)
    requires Run(start, done) == Some(s) && t !in s.tasks && s.holder == None
    requires s.store == Some(c) && RefreshNeeded(s.chatgpt, c, s.now)
    ensures Run(start, actions) == Some(s.(tasks := s.tasks[t := Sending(c, c, c.refresh.value)], holder := Some(t)))
  {
    hide Run, RefreshRequired, Step;
    actions := done + [Spawn(t)];
    RunThen(start, done, Spawn(t));
    for i := 0 to 6
      invariant Run(start, actions) == Some(At(s, t, c, i))
    {
      RunThen(start, actions, Advance(t, Refused));
      PassesOn(s, t, c, i);
      actions := actions + [Advance(t, Refused)];
    }
  }

  /** The premise is needed: after one lost reply the next task sends the consumed token. */
  lemma LostReplyIsSentAgain(c: Credential, now: nat) returns (s: State, actions: seq<Action>)
    requires RefreshNeeded(true, c, now)
    ensures Initial(s) && s.store == Some(c) && Run(s, actions).Some? && Run(s, actions).value.sentConsumed
  {
    hide Run, RefreshRequired;
    var token := c.refresh.value;
    s := State(true, Some(c), None, map[], now, {}, {token}, false, 0, false, false);
    EmptyRun(s);
    actions := ReachesSending(s, [], s, 0, c);
    RunThen(s, actions, Advance(0, ReplyLost));
    actions := actions + [Advance(0, ReplyLost)];
    RunThen(s, actions, Abandon(0));
    actions := actions + [Abandon(0)];
    var poisoned := s.(consumed := {token}, lost := true);
    var none: map<nat, Pc> := map[];
    assert none[0 := Sending(c, c, token)][0 := RefreshFailed(c)] - {0} == none;
    assert {} + {token} == {token};
    assert Run(s, actions) == Some(poisoned);
    actions := ReachesSending(s, actions, poisoned, 1, c);
    RunThen(s, actions, Advance(1, Refused));
    actions := actions + [Advance(1, Refused)];
  }

  lemma EmptyRun(s: State)
    ensures Run(s, []) == Some(s)
  {
  }

  // ---- One stale credential, one refresh ----

  /** The reply, if any, is fresh for as long as the clock stays within the horizon. */
  predicate FreshReply(action: Action, horizon: nat) {
    action.Advance? && action.reply.Replied? ==>
      action.reply.expiry.Some? && action.reply.expiry.value > horizon + REFRESH_WINDOW_SECONDS
  }

  predicate FreshUntil(c: Credential, horizon: nat) {
    c.expiry.Some? && c.expiry.value > horizon + REFRESH_WINDOW_SECONDS
  }

  /** The store before the refresh, between reply and store, and after. */
  predicate StorePhase(
    refreshes: nat, store: Option<Credential>, waiting: Option<Credential>, stale: Credential, horizon: nat)
  {
    if refreshes == 0 then store == Some(stale) && waiting == None
    else refreshes == 1 && match waiting
      case Some(next) => store == Some(stale) && FreshUntil(next, horizon)
      case None => store.Some? && FreshUntil(store.value, horizon)
  }

  function WaitingIn(pc: Pc): Option<Credential> {
    match pc case Storing(_, next, _) => Some(next) case _ => None
  }

  function Waiting(s: State): Option<Credential>
    requires s.holder.Some? ==> s.holder.value in s.tasks
  {
    if s.holder.Some? then WaitingIn(s.tasks[s.holder.value]) else None
  }

  /** What a task may be holding, before and after the one refresh. */
  predicate Consistent(refreshes: nat, store: Option<Credential>, pc: Pc, stale: Credential) {
    match pc
    case Loaded(c) => c == stale || (refreshes == 1 && store == Some(c))
    case Reloaded(c) => store == Some(c)
    case Refreshing(c) => refreshes == 0 && store == Some(c)
    case Sending(c, stored, _) => refreshes == 0 && store == Some(c) && stored == c
    case RefreshFailed(c) => store == Some(c)
    case Stored => refreshes == 1
    case Done(result) => refreshes == 1 && store == result && result != Some(stale)
    case _ => true
  }

  predicate Once(s: State, stale: Credential, horizon: nat) {
    && Exclusive(s) && s.chatgpt && RefreshNeeded(true, stale, s.now)
    && (!s.lost && !s.unstored && s.now <= horizon ==>
          StorePhase(s.refreshes, s.store, Waiting(s), stale, horizon)
          && forall t :: t in s.tasks ==> Consistent(s.refreshes, s.store, s.tasks[t], stale))
  }

  /** While the clock is within the horizon, a refreshed credential needs no refresh and is not the stale one. */
  lemma FreshIsNotStale(c: Credential, stale: Credential, now: nat, horizon: nat)
    requires FreshUntil(c, horizon) && RefreshNeeded(true, stale, now) && now <= horizon
    ensures c != stale && !RefreshNeeded(true, c, now)
  {
  }

  lemma OutsideOnce(s: State, t: nat, stale: Credential, horizon: nat, waiting: Option<Credential>)
    requires t in s.tasks && Outside(s, t).Some? && !Critical(s.tasks[t])
    requires s.chatgpt && RefreshNeeded(true, stale, s.now) && s.now <= horizon
    requires StorePhase(s.refreshes, s.store, waiting, stale, horizon)
    requires Consistent(s.refreshes, s.store, s.tasks[t], stale)
    ensures var next := Outside(s, t).value;
      t in next.tasks && Consistent(s.refreshes, s.store, next.tasks[t], stale)
  {
    hide RefreshNeeded, FreshUntil;
    if s.tasks[t].Loaded? && s.tasks[t].seen != stale { FreshIsNotStale(s.tasks[t].seen, stale, s.now, horizon); }
  }

  lemma InsideOnce(
    now: nat, v: Vault, pc: Pc, t: nat, reply: Reply, refreshes: nat, stale: Credential, horizon: nat)
    requires Critical(pc) && Inside(true, now, v, pc, reply).Some?
    requires FreshReply(Advance(t, reply), horizon) && RefreshNeeded(true, stale, now) && now <= horizon
    requires StorePhase(refreshes, v.store, WaitingIn(pc), stale, horizon) && Consistent(refreshes, v.store, pc, stale)
    requires !Inside(true, now, v, pc, reply).value.lost && !Inside(true, now, v, pc, reply).value.unstored
    ensures var m := Inside(true, now, v, pc, reply).value;
      var after := refreshes + if m.refreshed then 1 else 0;
      && Consistent(after, m.vault.store, m.pc, stale)
      && StorePhase(after, m.vault.store, WaitingIn(m.pc), stale, horizon)
      && (m.vault.store != v.store ==> v.store == Some(stale))
      && (m.refreshed ==> refreshes == 0)
      && (!Critical(m.pc) ==> WaitingIn(m.pc) == None)
  {
    hide RefreshNeeded;
    if pc.Sending? {
      hide FreshUntil, Inside;
      SendOnce(now, v, pc, t, reply, refreshes, stale, horizon);
    } else {
      hide Exchange, FreshUntil;
      if v.store.Some? && FreshUntil(v.store.value, horizon) { FreshIsNotStale(v.store.value, stale, now, horizon); }
    }
  }

  lemma SendOnce(
    now: nat, v: Vault, pc: Pc, t: nat, reply: Reply, refreshes: nat, stale: Credential, horizon: nat)
    requires pc.Sending? && Inside(true, now, v, pc, reply).Some? && FreshReply(Advance(t, reply), horizon)
    requires StorePhase(refreshes, v.store, None, stale, horizon) && Consistent(refreshes, v.store, pc, stale)
    ensures var m := Inside(true, now, v, pc, reply).value;
      var after := refreshes + if m.refreshed then 1 else 0;
      && Consistent(after, m.vault.store, m.pc, stale)
      && StorePhase(after, m.vault.store, WaitingIn(m.pc), stale, horizon)
      && m.vault.store == v.store && refreshes == 0 && Critical(m.pc)
  {
  }

  /** Tasks that do not move stay consistent when the store changes or the refresh happens. */
  lemma OthersOnce(s: State, next: State, pc: Pc, stale: Credential)
    requires Consistent(s.refreshes, s.store, pc, stale) && !Critical(pc)
    requires next.refreshes == s.refreshes || s.refreshes == 0
    requires next.store == s.store || s.store == Some(stale)
    ensures Consistent(next.refreshes, next.store, pc, stale)
  {
  }

  lemma StepOnce(s: State, t: nat, reply: Reply, stale: Credential, horizon: nat)
    requires Once(s, stale, horizon) && t in s.tasks && Step(s, t, reply).Some?
    requires FreshReply(Advance(t, reply), horizon)
    ensures Once(Step(s, t, reply).value, stale, horizon)
  {
    hide Inside, Outside, Consistent, StorePhase, RefreshNeeded, FreshReply, FreshUntil, WaitingIn;
    StepIsExclusive(s, t, reply);
    var next := Step(s, t, reply).value;
    if !Critical(s.tasks[t]) {
      StepMovesOne(s, t, reply);
      OutsideStep(s, t, reply);
      NothingWaits(s.tasks[t]);
      NothingWaits(next.tasks[t]);
      if !next.lost && !next.unstored && next.now <= horizon { OutsideOnce(s, t, stale, horizon, Waiting(s)); }
    } else if !next.lost && !next.unstored && next.now <= horizon {
      HolderIs(s, t);
      InsideOnce(s.now, VaultOf(s), s.tasks[t], t, reply, s.refreshes, stale, horizon);
      forall u | u in next.tasks && u != t ensures Consistent(next.refreshes, next.store, next.tasks[u], stale) {
        HolderIs(s, u);
        OthersOnce(s, next, s.tasks[u], stale);
      }
    }
  }

  lemma NothingWaits(pc: Pc)
    requires !Critical(pc) || pc == Locked
    ensures WaitingIn(pc) == None
  {
  }

  lemma ApplyOnce(s: State, action: Action, stale: Credential, horizon: nat)
    requires Once(s, stale, horizon) && Apply(s, action).Some? && FreshReply(action, horizon)
    ensures Once(Apply(s, action).value, stale, horizon)
  {
    hide Step, FreshUntil;
    match action {
      case Advance(t, reply) => StepOnce(s, t, reply, stale, horizon);
      case _ =>
    }
  }

  lemma {:induction false} RunOnce(s: State, actions: seq<Action>, stale: Credential, horizon: nat)
    requires Once(s, stale, horizon) && Run(s, actions).Some?
    requires forall i :: 0 <= i < |actions| ==> FreshReply(actions[i], horizon)
    ensures Once(Run(s, actions).value, stale, horizon)
  {
    hide Once, Apply, FreshReply;
    if actions != [] {
      RunOnce(s, actions[..|actions| - 1], stale, horizon);
      ApplyOnce(Run(s, actions[..|actions| - 1]).value, actions[|actions| - 1], stale, horizon);
    }
  }

  /**
   * All tasks that meet one stale credential cause at most one refresh while
   * its result stays fresh, and as soon as one of them has a result, exactly
   * one: every result is the refreshed credential now in the store.
   */
  lemma {:induction false} StaleCredentialIsRefreshedOnce(
    s: State, actions: seq<Action>, stale: Credential, horizon: nat)
    requires Initial(s) && s.chatgpt && s.store == Some(stale) && RefreshNeeded(true, stale, s.now)
    requires Run(s, actions).Some? && forall i :: 0 <= i < |actions| ==> FreshReply(actions[i], horizon)
    requires !Run(s, actions).value.lost && !Run(s, actions).value.unstored && Run(s, actions).value.now <= horizon
    ensures var final := Run(s, actions).value;
      && final.refreshes <= 1
      && forall t :: t in final.tasks && final.tasks[t].Done? ==>
           final.refreshes == 1 && final.tasks[t].result == final.store
           && final.store.Some? && FreshUntil(final.store.value, horizon)
  {
    hide FreshReply, RefreshNeeded, FreshUntil;
    assert Once(s, stale, horizon);
    RunOnce(s, actions, stale, horizon);
  }

  // ---- The lock registry ----

  class Lock {
    constructor () {}
  }

  /** One lock per connection for the life of the process. */
  class LockRegistry {
    var locks: map<string, Lock>

    ghost predicate Valid()
      reads this
    {
      forall p, q :: p in locks && q in locks && p != q ==> locks[p] != locks[q]
    }

    constructor ()
      ensures Valid() && locks == map[]
    {
      locks := map[];
    }

    method LockFor(provider: string) returns (lock: Lock)
      requires Valid()
      modifies this
      ensures Valid()
      ensures provider in locks && locks[provider] == lock
      ensures provider in old(locks) ==> locks == old(locks)
      ensures provider !in old(locks) ==> fresh(lock) && locks == old(locks)[provider := lock]
    {
      if provider in locks {
        lock := locks[provider];
      } else {
        lock := new Lock();
        locks := locks[provider := lock];
      }
    }
  }
}
