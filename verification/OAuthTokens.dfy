/** What happens to the refresh token over every run, and exactly when a consumed one can be sent (bt-auth). */
module OAuthTokens {
  import opened Wrappers
  import opened OAuthRefresh

  // ---- The refresh token is carried over ----

  predicate HasToken(s: State) {
    s.store.Some? && s.store.value.refresh.Some?
  }

  /** The new refresh token this step stores, if any. */
  function StoresToken(s: State, action: Action): Option<Token> {
    if action.Advance? && action.task in s.tasks && s.tasks[action.task].Storing? && action.reply != WriteFailed
    then s.tasks[action.task].brought else None
  }

  /** The new refresh token a reply brings, when it does not just repeat the stored one. */
  function Brings(reply: Reply, stored: Option<Token>): Option<Token>
    requires reply.Replied?
  {
    if reply.rotated == stored then None else reply.rotated
  }

  /**
   * The stored refresh token changes only to one that a reply brought, and a
   * task holds such a token only from the step that received the reply.
   */
  predicate CarriesOver(s: State, action: Action, next: State) {
    && HasToken(s) && HasToken(next)
    && next.store.value.refresh
       == (if StoresToken(s, action).Some? then StoresToken(s, action) else s.store.value.refresh)
    && forall t :: t in next.tasks && next.tasks[t].Storing? ==>
         (t in s.tasks && s.tasks[t] == next.tasks[t])
         || (action.Advance? && action.task == t && action.reply.Replied?
             && next.tasks[t].brought == Brings(action.reply, s.store.value.refresh))
  }

  lemma InsideToken(chatgpt: bool, now: nat, v: Vault, pc: Pc, reply: Reply)
    requires Critical(pc) && !pc.Sending? && Inside(chatgpt, now, v, pc, reply).Some?
    requires v.store.Some? && v.store.value.refresh.Some? && Knows(v, pc)
    ensures var m := Inside(chatgpt, now, v, pc, reply).value;
      && m.vault.store.Some? && m.vault.store.value.refresh.Some? && !m.pc.Storing?
      && m.vault.store.value.refresh
         == (if pc.Storing? && reply != WriteFailed && pc.brought.Some? then pc.brought else v.store.value.refresh)
  {
    hide RefreshNeeded, ReloadedIsUsable, Exchange;
  }

  lemma SendToken(chatgpt: bool, now: nat, v: Vault, pc: Pc, reply: Reply)
    requires pc.Sending? && Inside(chatgpt, now, v, pc, reply).Some? && Knows(v, pc)
    ensures var m := Inside(chatgpt, now, v, pc, reply).value;
      && m.vault.store == v.store && v.store.Some?
      && (m.pc.Storing? ==> reply.Replied? && m.pc.brought == Brings(reply, v.store.value.refresh))
  {
    hide NewCredential;
  }

  lemma StepCarries(s: State, t: nat, reply: Reply)
    requires Good(s) && HasToken(s) && t in s.tasks && Step(s, t, reply).Some?
    ensures CarriesOver(s, Advance(t, reply), Step(s, t, reply).value)
  {
    if !Critical(s.tasks[t]) {
      hide Step, Issued, Live, Knows;
      StepMovesOne(s, t, reply);
      OutsideStep(s, t, reply);
    } else {
      hide Inside, Issued, Live, Knows, Exclusive, Brings;
      HolderIs(s, t);
      if s.tasks[t].Sending? {
        SendToken(s.chatgpt, s.now, VaultOf(s), s.tasks[t], reply);
      } else {
        InsideToken(s.chatgpt, s.now, VaultOf(s), s.tasks[t], reply);
      }
    }
  }

  lemma ApplyCarries(s: State, action: Action)
    requires Good(s) && HasToken(s) && Apply(s, action).Some?
    ensures CarriesOver(s, action, Apply(s, action).value)
  {
    hide Step, Issued, Live, Knows, CarriesOver;
    match action {
      case Advance(t, reply) => StepCarries(s, t, reply);
      case _ => OthersCarry(s, action);
    }
  }

  lemma OthersCarry(s: State, action: Action)
    requires HasToken(s) && Apply(s, action).Some? && !action.Advance?
    ensures CarriesOver(s, action, Apply(s, action).value)
  {
  }

  lemma {:induction false} RunHasToken(s: State, actions: seq<Action>)
    requires Good(s) && HasToken(s) && Run(s, actions).Some?
    ensures HasToken(Run(s, actions).value)
  {
    hide Apply, Good;
    if actions != [] {
      var init := actions[..|actions| - 1];
      RunHasToken(s, init);
      RunIsGood(s, init);
      ApplyCarries(Run(s, init).value, actions[|actions| - 1]);
    }
  }

  /** At every step of every run a refresh token, once stored, is kept or replaced by the one a reply brought. */
  lemma {:induction false} RefreshTokenIsCarriedOver(s: State, actions: seq<Action>, action: Action)
    requires Initial(s) && HasToken(s)
    requires Run(s, actions).Some? && Apply(Run(s, actions).value, action).Some?
    ensures CarriesOver(Run(s, actions).value, action, Apply(Run(s, actions).value, action).value)
  {
    hide Apply, CarriesOver;
    RunIsGood(s, actions);
    RunHasToken(s, actions);
    ApplyCarries(Run(s, actions).value, action);
  }

  /** In every reachable state, the reload after a failed refresh finds no usable credential. */
  lemma {:induction false} FailedRefreshIsAnError(s: State, actions: seq<Action>, t: nat, reply: Reply)
    requires Initial(s) && Run(s, actions).Some?
    requires t in Run(s, actions).value.tasks && Run(s, actions).value.tasks[t].RefreshFailed?
    ensures var now := Run(s, actions).value; Step(now, t, reply) == Some(Leave(now, t, Errored))
  {
    RunIsGood(s, actions);
    var now := Run(s, actions).value;
    hide Run, Exclusive, Issued, Live;
    HolderIs(now, t);
  }

  // ---- What a task returns, and what it stores ----

  /** A ChatGPT token that can be refreshed and is unreadable, expired, or expires within 300 seconds. */
  predicate MustBeRefreshed(s: State, c: Credential) {
    s.chatgpt && c.kind == OAuthToken && c.refresh.Some? && (c.expiry.None? || c.expiry.value <= s.now + 300)
  }

  /** Both loads see what is stored at that moment; a task that finds nothing returns nothing. */
  lemma LoadsSeeTheStore(s: State, t: nat, reply: Reply)
    requires t in s.tasks && (s.tasks[t].Start? || s.tasks[t].Locked?)
    ensures Step(s, t, reply).Some? && Step(s, t, reply).value.store == s.store
    ensures var next := Step(s, t, reply).value.tasks[t];
      && (s.store.None? ==> next == Done(None))
      && (s.store.Some? ==> next == if s.tasks[t].Start? then Loaded(s.store.value) else Reloaded(s.store.value))
  {
  }

  /** A task asks for the lock, and under the lock refreshes, exactly for such a credential; it returns any other. */
  lemma RefreshesExactlyWhenDue(s: State, t: nat, reply: Reply)
    requires t in s.tasks && (s.tasks[t].Loaded? || s.tasks[t].Reloaded?)
    ensures Step(s, t, reply).Some?
    ensures var c, next := s.tasks[t].seen, Step(s, t, reply).value.tasks[t];
      && (next == (if s.tasks[t].Loaded? then WantLock else Refreshing(c)) <==> MustBeRefreshed(s, c))
      && (next == Done(Some(c)) <==> !MustBeRefreshed(s, c))
  {
  }

  /**
   * Whatever the interleaving, a task returns a credential that must be refreshed
   * only when it has just stored it itself.
   */
  lemma {:induction false} ReturnsFreshOrItsOwn(s: State, actions: seq<Action>, t: nat, reply: Reply)
    requires Initial(s) && Run(s, actions).Some? && t in Run(s, actions).value.tasks
    requires var now := Run(s, actions).value;
      Step(now, t, reply).Some? && !now.tasks[t].Done? && Step(now, t, reply).value.tasks[t].Done?
    ensures var now := Run(s, actions).value;
      var result := Step(now, t, reply).value.tasks[t].result;
      result.Some? && MustBeRefreshed(now, result.value) ==> now.tasks[t].Stored? && result == now.store
  {
    hide Run;
    var now := Run(s, actions).value;
    if now.tasks[t].RefreshFailed? {
      FailedRefreshIsAnError(s, actions, t, reply);
    }
  }

  /** The action is not one of this task's. */
  predicate Elsewhere(action: Action, t: nat) {
    match action
    case Tick(_) => true
    case Spawn(task) => task != t
    case Advance(task, _) => task != t
    case Abandon(task) => task != t
  }

  lemma StaysElsewhere(s: State, action: Action, t: nat)
    requires t in s.tasks && Elsewhere(action, t) && Apply(s, action).Some?
    ensures t in Apply(s, action).value.tasks && Apply(s, action).value.tasks[t] == s.tasks[t]
  {
    hide Step, Critical;
    if action.Advance? { StepMovesOne(s, action.task, action.reply); }
  }

  lemma {:induction false} RunElsewhere(s: State, actions: seq<Action>, t: nat)
    requires t in s.tasks && Run(s, actions).Some?
    requires forall i :: 0 <= i < |actions| ==> Elsewhere(actions[i], t)
    ensures t in Run(s, actions).value.tasks && Run(s, actions).value.tasks[t] == s.tasks[t]
  {
    hide Apply, Elsewhere;
    if actions != [] {
      RunElsewhere(s, actions[..|actions| - 1], t);
      StaysElsewhere(Run(s, actions[..|actions| - 1]).value, actions[|actions| - 1], t);
    }
  }

  /**
   * What is stored is what the reply brought: its access token and expiry, and
   * its refresh token or, without one, the token that was sent, however many
   * steps of other tasks come between the reply and the write.
   */
  lemma {:induction false} ReplyIsStored(
    s: State, t: nat, access: nat, expiry: Option<nat>, rotated: Option<Token>, others: seq<Action>)
    requires Good(s) && t in s.tasks && s.tasks[t].Sending? && s.tasks[t].token !in s.consumed
    requires Step(s, t, Replied(access, expiry, rotated)).Some?
    requires forall i :: 0 <= i < |others| ==> Elsewhere(others[i], t)
    requires Run(Step(s, t, Replied(access, expiry, rotated)).value, others).Some?
    ensures var between := Run(Step(s, t, Replied(access, expiry, rotated)).value, others).value;
      && t in between.tasks && Step(between, t, Refused).Some?
      && Step(between, t, Refused).value.store
         == Some(Credential(OAuthToken, access, expiry, if rotated.Some? then rotated else Some(s.tasks[t].token)))
  {
    var token := s.tasks[t].token;
    var next := Step(s, t, Replied(access, expiry, rotated)).value;
    ReplyIsHeld(s, t, access, expiry, rotated);
    RunElsewhere(next, others, t);
    var between := Run(next, others).value;
    hide Run, Good;
    assert between.tasks[t].Storing?;
  }

  lemma ReplyIsHeld(s: State, t: nat, access: nat, expiry: Option<nat>, rotated: Option<Token>)
    requires Good(s) && t in s.tasks && s.tasks[t].Sending? && s.tasks[t].token !in s.consumed
    requires Step(s, t, Replied(access, expiry, rotated)).Some?
    ensures var next := Step(s, t, Replied(access, expiry, rotated)).value;
      && t in next.tasks && next.tasks[t].Storing?
      && next.tasks[t].next
         == Credential(OAuthToken, access, expiry, if rotated.Some? then rotated else Some(s.tasks[t].token))
  {
    hide Issued, Live;
    HolderIs(s, t);
  }

  /** What a task returns when no other task gets in its way and the server replies. */
  function ServedAlone(s: State, c: Credential, access: nat, expiry: Option<nat>, rotated: Option<Token>): Credential {
    if !MustBeRefreshed(s, c) then c
    else Credential(OAuthToken, access, expiry, if rotated.Some? then rotated else c.refresh)
  }

  /** A task alone returns the stored credential, refreshed first if it must be, and leaves it stored. */
  lemma AloneATaskSucceeds(s: State, t: nat, c: Credential, access: nat, expiry: Option<nat>, rotated: Option<Token>)
    returns (actions: seq<Action>)
    requires s.holder == None && t !in s.tasks && s.store == Some(c)
    requires MustBeRefreshed(s, c) ==>
      c.refresh.value !in s.consumed && (rotated.Some? && rotated != c.refresh ==> rotated.value !in s.issued)
    ensures Run(s, actions).Some?
    ensures var final := Run(s, actions).value;
      && t in final.tasks && final.tasks[t] == Done(Some(ServedAlone(s, c, access, expiry, rotated)))
      && final.store == Some(ServedAlone(s, c, access, expiry, rotated)) && final.holder == None
  {
    EmptyRun(s);
    if MustBeRefreshed(s, c) {
      actions := ReachesSending(s, [], s, t, c);
      hide *;
      var reply := Replied(access, expiry, rotated);
      var sending := Run(s, actions).value;
      ReplyArrives(sending, t, c, access, expiry, rotated);
      RunThen(s, actions, Advance(t, reply));
      actions := actions + [Advance(t, reply)];
      StoredThenReturned(Run(s, actions).value, t);
      RunThen(s, actions, Advance(t, Refused));
      actions := actions + [Advance(t, Refused)];
      RunThen(s, actions, Advance(t, Refused));
      actions := actions + [Advance(t, Refused)];
      ServedRefreshed(s, c, access, expiry, rotated);
    } else {
      actions := AloneReturnsFresh(s, t, c);
    }
  }

  lemma AloneReturnsFresh(s: State, t: nat, c: Credential) returns (actions: seq<Action>)
    requires t !in s.tasks && s.store == Some(c) && !MustBeRefreshed(s, c)
    ensures Run(s, actions) == Some(Goto(s, t, Done(Some(c))))
  {
    EmptyRun(s);
    hide Run, RefreshNeeded;
    var spawned := [] + [Spawn(t)];
    RunThen(s, [], Spawn(t));
    RunThen(s, spawned, Advance(t, Refused));
    assert s.tasks[t := Start][t := Loaded(c)] == s.tasks[t := Loaded(c)];
    RunThen(s, spawned + [Advance(t, Refused)], Advance(t, Refused));
    RefreshesExactlyWhenDue(Goto(s, t, Loaded(c)), t, Refused);
    assert s.tasks[t := Loaded(c)][t := Done(Some(c))] == s.tasks[t := Done(Some(c))];
    actions := spawned + [Advance(t, Refused)] + [Advance(t, Refused)];
  }

  lemma ServedRefreshed(s: State, c: Credential, access: nat, expiry: Option<nat>, rotated: Option<Token>)
    requires MustBeRefreshed(s, c)
    ensures ServedAlone(s, c, access, expiry, rotated)
         == Credential(OAuthToken, access, expiry, if rotated.Some? then rotated else c.refresh)
  {
  }

  lemma ReplyArrives(s: State, t: nat, c: Credential, access: nat, expiry: Option<nat>, rotated: Option<Token>)
    requires t in s.tasks && c.refresh.Some? && s.tasks[t] == Sending(c, c, c.refresh.value) && s.holder == Some(t)
    requires c.refresh.value !in s.consumed && (rotated.Some? && rotated != c.refresh ==> rotated.value !in s.issued)
    ensures Apply(s, Advance(t, Replied(access, expiry, rotated))).Some?
    ensures var next := Apply(s, Advance(t, Replied(access, expiry, rotated))).value;
      && t in next.tasks && next.tasks[t].Storing? && next.holder == Some(t)
      && next.tasks[t].next == Credential(OAuthToken, access, expiry, if rotated.Some? then rotated else c.refresh)
  {
  }

  lemma StoredThenReturned(s: State, t: nat)
    requires t in s.tasks && s.tasks[t].Storing? && s.holder == Some(t)
    ensures Apply(s, Advance(t, Refused)).Some?
    ensures var written := Apply(s, Advance(t, Refused)).value;
      && Apply(written, Advance(t, Refused)).Some?
      && var final := Apply(written, Advance(t, Refused)).value;
         && t in final.tasks && final.tasks[t] == Done(Some(s.tasks[t].next))
         && final.store == Some(s.tasks[t].next) && final.holder == None
  {
    hide Exchange, RefreshNeeded, ReloadedIsUsable;
  }

  // ---- Exactly when a consumed token can be sent ----

  /** Forgets what happened before. */
  function Watch(s: State): State {
    s.(sentConsumed := false, lost := false)
  }

  /** Some continuation, itself losing no reply, sends a consumed token. */
  ghost predicate CanSendConsumed(s: State) {
    exists actions :: Run(Watch(s), actions).Some?
      && Run(Watch(s), actions).value.sentConsumed && !Run(Watch(s), actions).value.lost
  }

  /** The stored refresh token is consumed, and no task is about to replace it. */
  predicate SpentTokenStored(s: State) {
    HasToken(s) && s.store.value.refresh.value in s.consumed && forall t :: t in s.tasks ==> !s.tasks[t].Storing?
  }

  /** Tokens are consumed only on behalf of a connection that refreshes, and its credential stays an OAuth token. */
  predicate Refreshes(chatgpt: bool, v: Vault, pc: Pc) {
    && (v.consumed != {} ==> chatgpt && v.store.Some? && v.store.value.kind == OAuthToken)
    && (pc.Refreshing? || pc.Sending? ==> chatgpt && pc.seen.kind == OAuthToken)
    && (pc.Storing? ==> chatgpt && pc.next.kind == OAuthToken)
  }

  function HolderPc(s: State): Pc {
    if s.holder.Some? && s.holder.value in s.tasks then s.tasks[s.holder.value] else Start
  }

  lemma InsideRefreshes(chatgpt: bool, now: nat, v: Vault, pc: Pc, reply: Reply)
    requires Critical(pc) && Inside(chatgpt, now, v, pc, reply).Some?
    requires Knows(v, pc) && Refreshes(chatgpt, v, pc)
    ensures var m := Inside(chatgpt, now, v, pc, reply).value;
      Refreshes(chatgpt, m.vault, if Critical(m.pc) then m.pc else Start)
  {
    hide ReloadedIsUsable, RefreshRequired;
  }

  lemma QuietPc(chatgpt: bool, v: Vault, pc: Pc)
    requires Refreshes(chatgpt, v, pc)
    ensures Refreshes(chatgpt, v, Locked) && Refreshes(chatgpt, v, Start)
  {
  }

  lemma StepRefreshes(s: State, t: nat, reply: Reply)
    requires Good(s) && t in s.tasks && Step(s, t, reply).Some? && Refreshes(s.chatgpt, VaultOf(s), HolderPc(s))
    ensures var next := Step(s, t, reply).value; Refreshes(next.chatgpt, VaultOf(next), HolderPc(next))
  {
    if !Critical(s.tasks[t]) {
      hide Step, Issued, Live, Knows, Refreshes;
      StepMovesOne(s, t, reply);
      OutsideStep(s, t, reply);
      QuietPc(s.chatgpt, VaultOf(s), HolderPc(s));
    } else {
      hide Inside, Issued, Live, Knows, Exclusive, Refreshes;
      HolderIs(s, t);
      InsideRefreshes(s.chatgpt, s.now, VaultOf(s), s.tasks[t], reply);
    }
  }

  lemma ApplyRefreshes(s: State, action: Action)
    requires Good(s) && Apply(s, action).Some? && Refreshes(s.chatgpt, VaultOf(s), HolderPc(s))
    ensures var next := Apply(s, action).value; Refreshes(next.chatgpt, VaultOf(next), HolderPc(next))
  {
    hide Step, Issued, Live, Knows, Refreshes;
    if action.Advance? {
      StepRefreshes(s, action.task, action.reply);
    } else {
      QuietPc(s.chatgpt, VaultOf(s), HolderPc(s));
    }
  }

  lemma {:induction false} RunRefreshes(s: State, actions: seq<Action>)
    requires Initial(s) && Run(s, actions).Some?
    ensures var now := Run(s, actions).value; Refreshes(now.chatgpt, VaultOf(now), HolderPc(now))
  {
    hide Apply, Good, Initial;
    if actions == [] {
      assert Refreshes(s.chatgpt, VaultOf(s), HolderPc(s)) by { StartRefreshes(s); }
    } else {
      var init := actions[..|actions| - 1];
      RunRefreshes(s, init);
      assert Good(s) by { StartIsGood(s); }
      RunIsGood(s, init);
      ApplyRefreshes(Run(s, init).value, actions[|actions| - 1]);
    }
  }

  lemma StartRefreshes(s: State)
    requires Initial(s)
    ensures Refreshes(s.chatgpt, VaultOf(s), HolderPc(s))
  {
  }

  lemma StartIsGood(s: State)
    requires Initial(s)
    ensures Good(s)
  {
  }

  /** Unless the spent token stays stored, forgetting the past leaves a state in which all is well. */
  lemma WatchIsGood(s: State)
    requires Good(s) && !SpentTokenStored(s)
    ensures Good(Watch(s))
  {
    hide Issued, Knows, Exclusive;
    assert Exclusive(Watch(s)) by { WatchIsExclusive(s); }
    if HasToken(s) && s.store.value.refresh.value in s.consumed {
      var t :| t in s.tasks && s.tasks[t].Storing?;
      HolderIs(s, t);
    }
  }

  lemma WatchIsExclusive(s: State)
    requires Exclusive(s)
    ensures Exclusive(Watch(s))
  {
  }

  lemma {:induction false} FreshTask(tasks: set<nat>) returns (t: nat)
    ensures t !in tasks && forall u :: u in tasks ==> u < t
  {
    if tasks == {} {
      t := 0;
    } else {
      var u :| u in tasks;
      t := FreshTask(tasks - {u});
      assert forall v :: v in tasks ==> v == u || v in tasks - {u};
      t := if u < t then t else u + 1;
    }
  }

  /** Drops the lock holder, waits until the credential is due, and lets a fresh task send the spent token. */
  lemma SpentTokenIsSent(s: State)
    requires Good(s) && Refreshes(s.chatgpt, VaultOf(s), HolderPc(s)) && SpentTokenStored(s)
    ensures CanSendConsumed(s)
  {
    var w, c := Watch(s), s.store.value;
    var free := FreeState(w);
    var actions := FreeActions(w);
    Frees(w);
    hide Run, Good, Refreshes;
    var wait := if c.expiry.Some? then c.expiry.value else 0;
    RunThen(w, actions, Tick(wait));
    var due := free.(now := free.now + wait);
    var t := FreshTask(due.tasks.Keys);
    actions := ReachesSending(w, actions + [Tick(wait)], due, t, c);
    RunThen(w, actions, Advance(t, Refused));
    actions := actions + [Advance(t, Refused)];
    assert Run(w, actions).Some? && Run(w, actions).value.sentConsumed && !Run(w, actions).value.lost;
  }

  function FreeState(w: State): State {
    if w.holder.Some? then w.(tasks := w.tasks - {w.holder.value}, holder := None) else w
  }

  function FreeActions(w: State): seq<Action> {
    if w.holder.Some? then [Abandon(w.holder.value)] else []
  }

  lemma Frees(w: State)
    requires w.holder.Some? ==> w.holder.value in w.tasks && !w.tasks[w.holder.value].Storing?
    ensures Run(w, FreeActions(w)) == Some(FreeState(w))
  {
    if w.holder.Some? {
      RunThen(w, [], Abandon(w.holder.value));
      assert [] + [Abandon(w.holder.value)] == FreeActions(w);
    }
  }

  /**
   * From a reachable state, a continuation that loses no further reply can send
   * a consumed token if and only if the stored token is consumed and no task is
   * about to replace it.
   */
  lemma {:induction false} CanSendConsumedIff(s: State, actions: seq<Action>)
    requires Initial(s) && Run(s, actions).Some?
    ensures CanSendConsumed(Run(s, actions).value) <==> SpentTokenStored(Run(s, actions).value)
  {
    RunIsGood(s, actions);
    RunRefreshes(s, actions);
    hide Good, Refreshes, Initial;
    var now := Run(s, actions).value;
    if SpentTokenStored(now) {
      SpentTokenIsSent(now);
    } else {
      WatchIsGood(now);
      forall more | Run(Watch(now), more).Some?
        ensures !(Run(Watch(now), more).value.sentConsumed && !Run(Watch(now), more).value.lost)
      {
        RunIsGood(Watch(now), more);
        GoodIsUnspent(Run(Watch(now), more).value);
      }
    }
  }

  lemma GoodIsUnspent(s: State)
    requires Good(s)
    ensures s.lost || !s.sentConsumed
  {
  }
}
