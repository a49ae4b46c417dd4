/**
 What redeeming an authorization code, or an approved device code, gets: a new
 session, the end of the one an earlier redemption started, or nothing.
 */
module SignInOutcome {
  import opened Wrappers
  import opened RefreshSessions
  import opened RefreshInvariants
  import opened RefreshOutcome

  /** What is presented, by whom and when; the family drawn for it; redirect and PKCE checked; what would be minted. */
  datatype Redemption = Redemption(code: Code, client: ClientId, now: int, family: FamilyId, bound: bool, authTime: int,
    permitted: bool, clock: int, child: Token)

  /** The code is known, unspent and in time, for a person with a subject, and presented by its client as bound. */
  predicate Redeemable(w: World, q: Redemption) {
    q.code in w.store.codes &&
    var r := w.store.codes[q.code];
    && r.consumedAt.None? && q.now <= r.expiresAt && r.identity.subject != "" && q.client == r.client && q.bound
  }

  predicate Replayed(w: World, q: Redemption) {
    q.code in w.store.codes && w.store.codes[q.code].consumedAt.Some?
  }

  // ---------------------------------------------------------------------
  // The request's own steps, one after the other
  // ---------------------------------------------------------------------

  function Begun(w: World, p: Pid, q: Redemption): World {
    Put(w.(owner := w.owner[q.family := ByGrant(p)]), p, Redeeming(q.code, q.client, q.now, q.family))
  }

  function Move(w: World, p: Pid, q: Redemption): World {
    if p !in w.grants then w
    else
      match w.grants[p]
      case LookingUpCode(_, _) => AfterLookUpCode(w, p)
      case Holding(_, _, _, _) => AfterMint(w, p, q.permitted, q.clock, q.child)
      case Saving(_, _, _, _, _) => AfterSave(w, p)
      case Saved(_, _, _, _) => AfterRespond(w, p)
      case Revoking(_, _) => AfterRevokeOwn(w, p)
      case _ => w
  }

  function Rest(w: World, p: Pid, q: Redemption): World {
    Move(Move(Move(w, p, q), p, q), p, q)
  }

  function Redeemed(w: World, p: Pid, q: Redemption): World {
    Rest(AfterConsumeCode(Begun(w, p, q), p, q.bound, q.authTime), p, q)
  }

  /** A session of one live token, for that lineage, has begun and is answered for. */
  ghost predicate SignedIn(w: World, n: World, p: Pid, cred: Cred, now: int, f: FamilyId, l: Lineage, child: Token) {
    && n.answers == w.answers + [Granted(p, cred, now, f, child)]
    && n.store.families == w.store.families[f := None] && n.ended == w.ended
    && child in n.store.tokens && n.store.tokens == w.store.tokens[child := n.store.tokens[child]]
    && var c := n.store.tokens[child];
       c.family == f && c.lineage == l && c.consumedAt.None? && c.revokedAt.None?
  }

  /** No answer, no session begun or ended. */
  predicate Refused(w: World, n: World) {
    n.answers == w.answers && n.ended == w.ended && n.store.tokens == w.store.tokens
      && n.store.families == w.store.families
  }

  ghost predicate Asks(w: World, p: Pid, q: Redemption) {
    Inv(w) && p !in w.grants && q.family !in w.owner && FromToken(q.child) !in w.uses
  }

  lemma BegunKeeps(w: World, p: Pid, q: Redemption)
    requires Asks(w, p, q)
    ensures Inv(Begun(w, p, q)) && Begun(w, p, q).store == w.store && Begun(w, p, q).answers == w.answers
    ensures Begun(w, p, q).ended == w.ended && q.family !in w.store.families
  {
    StepKeeps(w, StartRedeem(p, q.code, q.client, q.now, q.family));
  }

  /** What the consume leaves of the request and the tables. */
  lemma Taken(u: World, p: Pid, q: Redemption)
    requires p in u.grants && u.grants[p] == Redeeming(q.code, q.client, q.now, q.family)
    ensures
      var n := AfterConsumeCode(u, p, q.bound, q.authTime);
      && n.answers == u.answers && n.ended == u.ended
      && n.store.tokens == u.store.tokens && n.store.families == u.store.families
      && (Redeemable(u, q) ==>
            var r := u.store.codes[q.code];
            p in n.grants && n.grants[p]
              == Holding(FromCode(q.code), q.now, q.family, Lineage(r.client, r.identity, q.authTime)))
      && (q.code in u.store.codes && !Replayed(u, q) && !Redeemable(u, q) ==> p !in n.grants)
      && (q.code !in u.store.codes || Replayed(u, q) ==>
            n.store == u.store && p in n.grants && n.grants[p] == LookingUpCode(q.code, q.now))
  {}

  lemma RestDone(w: World, p: Pid, q: Redemption)
    requires p !in w.grants
    ensures Rest(w, p, q) == w
  {}

  lemma RestUnpermitted(w: World, p: Pid, q: Redemption)
    requires p in w.grants && w.grants[p].Holding? && !w.grants[p].cred.FromToken? && !q.permitted
    ensures Rest(w, p, q) == Drop(w, p)
  {}

  lemma RestPermitted(w: World, p: Pid, q: Redemption)
    requires p in w.grants && w.grants[p].Holding? && q.permitted && w.grants[p].family !in w.store.families
    ensures var g := w.grants[p]; SignedIn(w, Rest(w, p, q), p, g.cred, g.now, g.family, g.lineage, q.child)
  {
    var m := AfterMint(w, p, true, q.clock, q.child);
    assert m.store == w.store && m.grants[p].Saving?;
    var s := AfterSave(m, p);
    assert s.grants[p].Saved?;
  }

  lemma RestUnknown(w: World, p: Pid, q: Redemption)
    requires p in w.grants && w.grants[p] == LookingUpCode(q.code, q.now) && q.code !in w.store.codes
    ensures Rest(w, p, q) == Drop(w, p)
  {}

  lemma RestRevokes(w: World, p: Pid, q: Redemption)
    requires p in w.grants && w.grants[p] == LookingUpCode(q.code, q.now) && Replayed(w, q)
    ensures Rest(w, p, q) == AfterRevokeOwn(Put(w, p, Revoking(w.store.codes[q.code].family, q.now)), p)
  {
    var v := Put(w, p, Revoking(w.store.codes[q.code].family, q.now));
    assert AfterLookUpCode(w, p) == v;
    assert p !in AfterRevokeOwn(v, p).grants;
  }

  lemma RestReplay(w: World, p: Pid, q: Redemption)
    requires Inv(w) && p in w.grants && w.grants[p] == LookingUpCode(q.code, q.now) && Replayed(w, q)
    ensures
      var f := w.store.codes[q.code].family;
      if f in w.store.families then Ended(w, Rest(w, p, q), p, f) else Refused(w, Rest(w, p, q))
  {
    var f := w.store.codes[q.code].family;
    var v := Put(w, p, Revoking(f, q.now));
    RestRevokes(w, p, q);
    IdleKeeps(w, p, Revoking(f, q.now));
    RevokingEndsWheneverItRuns(v, p);
    if f in w.store.families { EndedFromStart(w, v, AfterRevokeOwn(v, p), p, f); }
  }

  // ---------------------------------------------------------------------
  // What it comes to
  // ---------------------------------------------------------------------

  lemma ReplayEndsTheFirst(w: World, p: Pid, q: Redemption)
    requires Asks(w, p, q) && Replayed(w, q)
    ensures
      var f, n := w.store.codes[q.code].family, Redeemed(w, p, q);
      if f in w.store.families then Ended(w, n, p, f) else Refused(w, n)
  {
    var u := Begun(w, p, q);
    BegunKeeps(w, p, q);
    Taken(u, p, q);
    StepKeeps(u, ConsumeCode(p, q.bound, q.authTime));
    RestReplay(AfterConsumeCode(u, p, q.bound, q.authTime), p, q);
  }

  lemma RedeemableSignsIn(w: World, p: Pid, q: Redemption)
    requires Asks(w, p, q) && Redeemable(w, q) && q.permitted
    ensures
      var r := w.store.codes[q.code];
      SignedIn(w, Redeemed(w, p, q), p, FromCode(q.code), q.now, q.family, Lineage(r.client, r.identity, q.authTime),
        q.child)
  {
    var u := Begun(w, p, q);
    BegunKeeps(w, p, q);
    Taken(u, p, q);
    RestPermitted(AfterConsumeCode(u, p, q.bound, q.authTime), p, q);
  }

  lemma OthersAreRefused(w: World, p: Pid, q: Redemption)
    requires Asks(w, p, q) && !Replayed(w, q) && !(Redeemable(w, q) && q.permitted)
    ensures Refused(w, Redeemed(w, p, q))
  {
    var u := Begun(w, p, q);
    BegunKeeps(w, p, q);
    Taken(u, p, q);
    var v := AfterConsumeCode(u, p, q.bound, q.authTime);
    if p !in v.grants { RestDone(v, p, q); }
    else if v.grants[p].Holding? { RestUnpermitted(v, p, q); }
    else { RestUnknown(v, p, q); }
  }

  /**
   Undisturbed: a code already redeemed ends the session its first redemption
   started, if that was saved; one that is redeemable, for a person granted
   anything, starts a session of one token; and any other gets nothing.
   */
  lemma RedemptionGetsWhatItDeserves(w: World, p: Pid, q: Redemption)
    requires Asks(w, p, q)
    ensures
      var n := Redeemed(w, p, q);
      if Replayed(w, q) then
        var f := w.store.codes[q.code].family;
        if f in w.store.families then Ended(w, n, p, f) else Refused(w, n)
      else if Redeemable(w, q) && q.permitted then
        var r := w.store.codes[q.code];
        SignedIn(w, n, p, FromCode(q.code), q.now, q.family, Lineage(r.client, r.identity, q.authTime), q.child)
      else Refused(w, n)
  {
    if Replayed(w, q) { ReplayEndsTheFirst(w, p, q); }
    else if Redeemable(w, q) && q.permitted { RedeemableSignsIn(w, p, q); }
    else { OthersAreRefused(w, p, q); }
  }

  /** An approved device code starts a session of one token, if the person is granted anything. */
  lemma DeviceSignsIn(w: World, p: Pid, q: Redemption, l: Lineage)
    requires Asks(w, p, q)
    ensures
      var n := Rest(AfterStartDevice(w, p, q.family, l), p, q);
      if q.permitted then SignedIn(w, n, p, FromDevice(q.family), l.authTime, q.family, l, q.child) else Refused(w, n)
  {
    var v := AfterStartDevice(w, p, q.family, l);
    if q.permitted { RestPermitted(v, p, q); } else { RestUnpermitted(v, p, q); }
  }
}
