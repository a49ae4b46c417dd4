/**
 What one refresh request gets, exactly, in terms of the row it names, its
 clock and the policy in force; from its first statement to its answer.
 */
module RefreshOutcome {
  import opened Wrappers
  import opened RefreshSessions
  import opened RefreshInvariants
  import opened RefreshStore
  import opened RefreshTheorems

  datatype Outcome = NewTokens | SessionEnds | Nothing

  /** A request: what is presented, by whom and when, what is allowed, and what would be minted when. */
  datatype Request = Request(token: Token, client: ClientId, now: int, policy: Policy, permitted: bool, clock: int,
    child: Token)

  /**
   The rule: another client's token, an unknown or a revoked one gets nothing;
   a rotated one ends its session; an expired, outlived or subjectless one
   gets nothing; one whose person is no longer allowed ends the session.
   */
  function Deserved(w: World, q: Request): Outcome {
    if q.token !in w.store.tokens || w.store.tokens[q.token].lineage.client != q.client then Nothing
    else
      var r := w.store.tokens[q.token];
      if r.consumedAt.Some? then SessionEnds
      else if r.revokedAt.Some? then Nothing
      else if r.expiresAt < q.now || r.lineage.authTime + w.cfg.maxLife <= q.now then Nothing
      else if r.lineage.identity.subject == "" then Nothing
      else if q.policy.connectorConfigured && q.policy.domainAllowed && q.permitted then NewTokens
      else SessionEnds
  }

  // ---------------------------------------------------------------------
  // The request's own steps, one after the other
  // ---------------------------------------------------------------------

  /** The step the request takes next, if it is not done. */
  function Move(w: World, p: Pid, q: Request): World {
    if p !in w.grants then w
    else
      match w.grants[p]
      case Presenting(_, _, _) => AfterConsume(w, p, q.policy)
      case LookingUp(_, _, _) => AfterLookUp(w, p)
      case Holding(_, _, _, _) => AfterMint(w, p, q.permitted, q.clock, q.child)
      case Saving(_, _, _, _, _) => AfterSave(w, p)
      case Saved(_, _, _, _) => AfterRespond(w, p)
      case Revoking(_, _) => AfterRevokeOwn(w, p)
      case _ => w
  }

  /** The consume and up to three steps more. */
  function Rest(w: World, p: Pid, q: Request): World {
    Move(Move(Move(w, p, q), p, q), p, q)
  }

  function Served(w: World, p: Pid, q: Request): World {
    Rest(AfterConsume(Asked(w, p, q), p, q.policy), p, q)
  }

  function Asked(w: World, p: Pid, q: Request): World {
    Put(w, p, Presenting(q.token, q.client, q.now))
  }

  /** The session of family f is over and the request is told so; no other session is touched. */
  ghost predicate Ended(w: World, n: World, p: Pid, f: FamilyId) {
    && n.answers == w.answers + [SessionRevoked(p, f)] && f in n.ended && NoLiveToken(n, f)
    && (forall t | t in w.store.tokens :: t in n.store.tokens)
    && (forall t | t in w.store.tokens && w.store.tokens[t].family != f :: n.store.tokens[t] == w.store.tokens[t])
  }

  /** The request has new tokens; the one it presented is consumed and its child, alone, is live in its place. */
  ghost predicate Renewed(w: World, n: World, p: Pid, q: Request)
    requires q.token in w.store.tokens
  {
    var r := w.store.tokens[q.token];
    && n.answers == w.answers + [Granted(p, FromToken(q.token), q.now, r.family, q.child)]
    && n.store.families == w.store.families && n.ended == w.ended
    && q.child in n.store.tokens
    && n.store.tokens == w.store.tokens[q.token := r.(consumedAt := Some(q.now))][q.child := n.store.tokens[q.child]]
    && var c := n.store.tokens[q.child];
       c.family == r.family && c.lineage == r.lineage && c.consumedAt.None? && c.revokedAt.None?
  }

  lemma RevokingEnds(w: World, p: Pid)
    requires Inv(w) && p in w.grants && w.grants[p].Revoking? && w.grants[p].family in w.store.families
    ensures Ended(w, AfterRevokeOwn(w, p), p, w.grants[p].family) && p !in AfterRevokeOwn(w, p).grants
  {
    RevokeOwnKeeps(w, p);
    EndedHasNoLiveToken(AfterRevokeOwn(w, p), w.grants[p].family);
  }

  /** What a consume leaves of the request. */
  lemma Consumed(w: World, p: Pid, q: Request)
    requires Inv(w) && p in w.grants && w.grants[p] == Presenting(q.token, q.client, q.now)
    ensures
      var n := AfterConsume(w, p, q.policy);
      && n.answers == w.answers && n.ended == w.ended && n.store.families == w.store.families && n.cfg == w.cfg
      && (forall t | t in w.store.tokens :: t in n.store.tokens)
      && (forall t | t in n.store.tokens :: t in w.store.tokens)
      && if q.token in w.store.tokens && w.store.tokens[q.token].lineage.client == q.client
            && Live(w.store.tokens[q.token])
         then
           var r := w.store.tokens[q.token];
           && n.store.tokens == w.store.tokens[q.token := r.(consumedAt := Some(q.now))]
           && (Outlived(r, q.now, w.cfg) ==> p !in n.grants)
           && (!Outlived(r, q.now, w.cfg) ==>
                 && p in n.grants
                 && n.grants[p] == if q.policy.connectorConfigured && q.policy.domainAllowed
                                   then Holding(FromToken(q.token), q.now, r.family, r.lineage)
                                   else Revoking(r.family, q.now))
         else n.store == w.store && p in n.grants && n.grants[p] == LookingUp(q.token, q.client, q.now)
  {}

  /** A lookup finds a rotated token of that client, and nothing else. */
  lemma LookedUp(w: World, p: Pid)
    requires p in w.grants && w.grants[p].LookingUp?
    ensures
      var g, n := w.grants[p], AfterLookUp(w, p);
      && n == w.(grants := n.grants)
      && if g.token in w.store.tokens && w.store.tokens[g.token].lineage.client == g.client
            && w.store.tokens[g.token].consumedAt.Some?
         then p in n.grants && n.grants[p] == Revoking(w.store.tokens[g.token].family, g.now)
         else p !in n.grants
  {}

  ghost predicate Asks(w: World, p: Pid, q: Request) {
    Inv(w) && p !in w.grants && FromToken(q.child) !in w.uses
  }

  lemma RestDone(w: World, p: Pid, q: Request)
    requires p !in w.grants
    ensures Rest(w, p, q) == w
  {}

  lemma RestRevoking(w: World, p: Pid, q: Request)
    requires Inv(w) && p in w.grants && w.grants[p].Revoking? && w.grants[p].family in w.store.families
    ensures Ended(w, Rest(w, p, q), p, w.grants[p].family)
  {
    RevokingEnds(w, p);
  }

  /** A rotated token is recognised by the lookup. */
  lemma RestReplay(w: World, p: Pid, q: Request)
    requires Inv(w) && p in w.grants && w.grants[p] == LookingUp(q.token, q.client, q.now)
    requires q.token in w.store.tokens && w.store.tokens[q.token].lineage.client == q.client
    requires w.store.tokens[q.token].consumedAt.Some?
    ensures Ended(w, Rest(w, p, q), p, w.store.tokens[q.token].family)
  {
    assert TokenOk(w, q.token, w.store.tokens[q.token]);
    LookedUp(w, p);
    LookUpKeeps(w, p);
    RevokingEnds(AfterLookUp(w, p), p);
  }

  lemma RestUnknown(w: World, p: Pid, q: Request)
    requires p in w.grants && w.grants[p] == LookingUp(q.token, q.client, q.now)
    requires q.token in w.store.tokens && w.store.tokens[q.token].lineage.client == q.client ==>
      w.store.tokens[q.token].consumedAt.None?
    ensures Rest(w, p, q) == Drop(w, p)
  {
    LookedUp(w, p);
  }

  lemma RestUnpermitted(w: World, p: Pid, q: Request)
    requires Inv(w) && p in w.grants && w.grants[p].Holding? && w.grants[p].cred.FromToken? && !q.permitted
    requires w.grants[p].family in w.store.families
    ensures Ended(w, Rest(w, p, q), p, w.grants[p].family)
  {
    MintKeeps(w, p, false, q.clock, q.child);
    RevokingEnds(AfterMint(w, p, false, q.clock, q.child), p);
  }

  lemma RestPermitted(w: World, p: Pid, q: Request)
    requires p in w.grants && w.grants[p].Holding? && q.permitted
    requires w.grants[p].family in w.store.families && !Revoked(w.store, w.grants[p].family)
    ensures
      var g, n := w.grants[p], Rest(w, p, q);
      && n.answers == w.answers + [Granted(p, g.cred, g.now, g.family, q.child)]
      && n.store.families == w.store.families && n.ended == w.ended && q.child in n.store.tokens
      && n.store.tokens == w.store.tokens[q.child := n.store.tokens[q.child]]
      && var c := n.store.tokens[q.child];
         c.family == g.family && c.lineage == g.lineage && c.consumedAt.None? && c.revokedAt.None?
  {
    var m := AfterMint(w, p, true, q.clock, q.child);
    assert m.store == w.store && m.grants[p].Saving?;
    var s := AfterSave(m, p);
    assert s.grants[p].Saved? && s.store.families == w.store.families;
  }

  /** What is so after the consume, and so for the request as a whole. */
  lemma EndedFromStart(w: World, v: World, n: World, p: Pid, f: FamilyId)
    requires Ended(v, n, p, f) && v.answers == w.answers && forall t | t in w.store.tokens :: t in v.store.tokens
    requires forall t | t in w.store.tokens && w.store.tokens[t].family != f :: v.store.tokens[t] == w.store.tokens[t]
    ensures Ended(w, n, p, f)
  {}

  lemma AskedConsumed(w: World, p: Pid, q: Request)
    requires Asks(w, p, q)
    ensures Inv(AfterConsume(Asked(w, p, q), p, q.policy)) && Asked(w, p, q).store == w.store
    ensures Asked(w, p, q).answers == w.answers && Asked(w, p, q).cfg == w.cfg && Asked(w, p, q).ended == w.ended
  {
    IdleKeeps(w, p, Presenting(q.token, q.client, q.now));
    ConsumeKeeps(Asked(w, p, q), p, q.policy);
  }

  /** A rotated token: looked up, recognised, its family revoked. */
  lemma ReplayEnds(w: World, p: Pid, q: Request)
    requires Asks(w, p, q) && q.token in w.store.tokens && w.store.tokens[q.token].lineage.client == q.client
    requires w.store.tokens[q.token].consumedAt.Some?
    ensures Ended(w, Served(w, p, q), p, w.store.tokens[q.token].family)
  {
    var u := Asked(w, p, q);
    AskedConsumed(w, p, q);
    IdleKeeps(w, p, Presenting(q.token, q.client, q.now));
    Consumed(u, p, q);
    var v := AfterConsume(u, p, q.policy);
    RestReplay(v, p, q);
    EndedFromStart(w, v, Rest(v, p, q), p, w.store.tokens[q.token].family);
  }

  ghost predicate InTime(w: World, q: Request) {
    q.token in w.store.tokens && w.store.tokens[q.token].lineage.client == q.client
      && Live(w.store.tokens[q.token]) && !Outlived(w.store.tokens[q.token], q.now, w.cfg)
  }

  /** The consume touches no other family's rows. */
  lemma OnlyItsFamily(w: World, p: Pid, q: Request)
    requires Asks(w, p, q) && InTime(w, q)
    ensures
      var v, f := AfterConsume(Asked(w, p, q), p, q.policy), w.store.tokens[q.token].family;
      && (forall t | t in w.store.tokens :: t in v.store.tokens)
      && (forall t | t in w.store.tokens && w.store.tokens[t].family != f :: v.store.tokens[t] == w.store.tokens[t])
      && f in v.store.families && v.answers == w.answers
  {
    AskedConsumed(w, p, q);
    IdleKeeps(w, p, Presenting(q.token, q.client, q.now));
    assert TokenOk(w, q.token, w.store.tokens[q.token]);
    Consumed(Asked(w, p, q), p, q);
  }

  /** A live, timely token of somebody who is no longer allowed: consumed, and its family revoked. */
  lemma RefusalEnds(w: World, p: Pid, q: Request)
    requires Asks(w, p, q) && InTime(w, q)
    requires !(q.policy.connectorConfigured && q.policy.domainAllowed && q.permitted)
    ensures Ended(w, Served(w, p, q), p, w.store.tokens[q.token].family)
  {
    var u := Asked(w, p, q);
    AskedConsumed(w, p, q);
    OnlyItsFamily(w, p, q);
    IdleKeeps(w, p, Presenting(q.token, q.client, q.now));
    Consumed(u, p, q);
    var v := AfterConsume(u, p, q.policy);
    if v.grants[p].Holding? { RestUnpermitted(v, p, q); } else { RestRevoking(v, p, q); }
    EndedFromStart(w, v, Rest(v, p, q), p, w.store.tokens[q.token].family);
  }

  /** The rows with the one presented consumed, if its client could consume it. */
  function Spent(w: World, q: Request): map<Token, Row> {
    if q.token in w.store.tokens && w.store.tokens[q.token].lineage.client == q.client && Live(w.store.tokens[q.token])
    then w.store.tokens[q.token := w.store.tokens[q.token].(consumedAt := Some(q.now))]
    else w.store.tokens
  }

  lemma NothingFromStart(w: World, v: World, p: Pid, q: Request)
    requires v.answers == w.answers && v.ended == w.ended && v.store.families == w.store.families
    requires p in v.grants ==>
      && v.grants[p] == LookingUp(q.token, q.client, q.now)
      && (q.token in v.store.tokens && v.store.tokens[q.token].lineage.client == q.client ==>
            v.store.tokens[q.token].consumedAt.None?)
    ensures
      var n := Rest(v, p, q);
      && n.answers == w.answers && n.ended == w.ended && n.store.families == w.store.families
      && p !in n.grants && n.store.tokens == v.store.tokens
  {
    if p in v.grants { RestUnknown(v, p, q); } else { RestDone(v, p, q); }
  }

  lemma NothingServed(w: World, p: Pid, q: Request)
    requires Asks(w, p, q) && Deserved(w, q) == Nothing
    ensures var n := Served(w, p, q); n.answers == w.answers && n.ended == w.ended
    ensures var n := Served(w, p, q); n.store.families == w.store.families
    ensures var n := Served(w, p, q); p !in n.grants && n.store.tokens == Spent(w, q)
  {
    var u := Asked(w, p, q);
    AskedConsumed(w, p, q);
    IdleKeeps(w, p, Presenting(q.token, q.client, q.now));
    Consumed(u, p, q);
    NothingFromStart(w, AfterConsume(u, p, q.policy), p, q);
  }

  lemma TokensServed(w: World, p: Pid, q: Request)
    requires Asks(w, p, q) && Deserved(w, q) == NewTokens
    ensures Renewed(w, Served(w, p, q), p, q)
  {
    var u, r := Asked(w, p, q), w.store.tokens[q.token];
    AskedConsumed(w, p, q);
    IdleKeeps(w, p, Presenting(q.token, q.client, q.now));
    assert TokenOk(w, q.token, r);
    Consumed(u, p, q);
    RestPermitted(AfterConsume(u, p, q.policy), p, q);
  }

  /** Undisturbed, a refresh request gets exactly what the rule says it deserves. */
  lemma RefreshGetsWhatItDeserves(w: World, p: Pid, q: Request)
    requires Asks(w, p, q)
    ensures
      var n := Served(w, p, q);
      match Deserved(w, q)
      case Nothing =>
        && n.answers == w.answers && n.ended == w.ended && n.store.families == w.store.families
        && n.store.tokens == Spent(w, q)
      case SessionEnds => q.token in w.store.tokens && Ended(w, n, p, w.store.tokens[q.token].family)
      case NewTokens => q.token in w.store.tokens && Renewed(w, n, p, q)
  {
    match Deserved(w, q)
    case Nothing => NothingServed(w, p, q);
    case NewTokens => TokensServed(w, p, q);
    case SessionEnds =>
      if w.store.tokens[q.token].consumedAt.Some? { ReplayEnds(w, p, q); } else { RefusalEnds(w, p, q); }
  }

  // ---------------------------------------------------------------------
  // With others at work in between
  // ---------------------------------------------------------------------

  /** A consume that policy refuses turns the request to revoking the family. */
  lemma RefusalRevokes(w: World, p: Pid, policy: Policy)
    requires Inv(w) && p in w.grants && w.grants[p].Presenting? && w.grants[p].token in w.store.tokens
    requires
      var g, r := w.grants[p], w.store.tokens[w.grants[p].token];
      && r.lineage.client == g.client && Live(r) && g.now <= r.expiresAt && g.now < r.lineage.authTime + w.cfg.maxLife
      && r.lineage.identity.subject != ""
    requires !policy.connectorConfigured || !policy.domainAllowed
    ensures
      var n := AfterConsume(w, p, policy);
      p in n.grants && n.grants[p] == Revoking(w.store.tokens[w.grants[p].token].family, w.grants[p].now)
  {}

  /** Which it does, whatever has run in between, if the family's row is there. */
  lemma RevokingEndsWheneverItRuns(w: World, p: Pid)
    requires Inv(w) && p in w.grants && w.grants[p].Revoking?
    ensures
      var f, n := w.grants[p].family, AfterRevokeOwn(w, p);
      if f in w.store.families then Ended(w, n, p, f) else n == Drop(w, p)
  {
    if w.grants[p].family in w.store.families { RevokingEnds(w, p); }
  }
}
