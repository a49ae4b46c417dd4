/**
 A dead family stays dead, so a sweep may find families first and delete them
 later, a chunk at a time, with anything running in between.
 */
module RefreshDeadness {
  import opened Wrappers
  import opened RefreshSessions
  import opened RefreshInvariants
  import opened RefreshSweep

  // ---------------------------------------------------------------------
  // By whatever clocks
  // ---------------------------------------------------------------------

  /** Every row of f is dead, and so would be any that a grant now holding f could still save. */
  ghost predicate Withered(w: World, f: FamilyId, now: int, life: int) {
    && f in w.signIns && DeadFamily(w.store, f, now, life)
    && forall p | p in w.grants && Holds(w.grants[p], f) :: life > 0 && w.signIns[f].authTime + life <= now
  }

  /** Rows only ever gain stamps, and keep the first of each. */
  predicate Aged(r: Row, s: Row) {
    && s.family == r.family && s.lineage == r.lineage && s.expiresAt == r.expiresAt
    && (r.consumedAt.Some? ==> s.consumedAt == r.consumedAt) && (r.revokedAt.Some? ==> s.revokedAt == r.revokedAt)
  }

  lemma DeadRowsAge(r: Row, s: Row, now: int, life: int)
    requires Aged(r, s) && DeadRow(r, now, life)
    ensures DeadRow(s, now, life)
  {}

  lemma ConsumeAges(w: World, p: Pid, policy: Policy, f: FamilyId, now: int, life: int)
    requires Inv(w) && p in w.grants && w.grants[p].Presenting? && Withered(w, f, now, life)
    ensures Withered(AfterConsume(w, p, policy), f, now, life)
  {
    var g := w.grants[p];
    if g.token in w.store.tokens {
      assert TokenOk(w, g.token, w.store.tokens[g.token]);
    }
  }

  lemma SaveAges(w: World, p: Pid, f: FamilyId, now: int, life: int)
    requires Inv(w) && p in w.grants && w.grants[p].Saving? && Withered(w, f, now, life)
    ensures Withered(AfterSave(w, p), f, now, life)
  {
    assert GrantOk(w, p, w.grants[p]);
  }

  lemma MintAges(w: World, p: Pid, permitted: bool, clock: int, child: Token, f: FamilyId, now: int, life: int)
    requires Inv(w) && p in w.grants && w.grants[p].Holding? && Withered(w, f, now, life)
    ensures Withered(AfterMint(w, p, permitted, clock, child), f, now, life)
  {}

  lemma RedeemAges(w: World, p: Pid, bound: bool, authTime: int, f: FamilyId, now: int, life: int)
    requires Inv(w) && p in w.grants && w.grants[p].Redeeming? && Withered(w, f, now, life)
    ensures Withered(AfterConsumeCode(w, p, bound, authTime), f, now, life)
  {
    assert GrantOk(w, p, w.grants[p]);
  }

  lemma RevokeAges(w: World, fs: set<FamilyId>, at: int, f: FamilyId, now: int, life: int)
    requires Withered(w, f, now, life)
    ensures Withered(AfterRevoke(w, fs, at), f, now, life)
  {}

  lemma RevokeOwnAges(w: World, p: Pid, f: FamilyId, now: int, life: int)
    requires p in w.grants && w.grants[p].Revoking? && Withered(w, f, now, life)
    ensures Withered(AfterRevokeOwn(w, p), f, now, life)
  {
    RevokeAges(w, {w.grants[p].family}, w.grants[p].now, f, now, life);
  }

  lemma LookUpAges(w: World, p: Pid, f: FamilyId, now: int, life: int)
    requires p in w.grants && Withered(w, f, now, life)
    ensures w.grants[p].LookingUp? ==> Withered(AfterLookUp(w, p), f, now, life)
    ensures w.grants[p].LookingUpCode? ==> Withered(AfterLookUpCode(w, p), f, now, life)
  {}

  lemma StepAges(w: World, a: Action, f: FamilyId, now: int, life: int)
    requires Inv(w) && Enabled(w, a) && Withered(w, f, now, life)
    ensures Withered(Next(w, a), f, now, life)
  {
    match a
    case Consume(p, policy) => ConsumeAges(w, p, policy, f, now, life);
    case LookUp(p) => LookUpAges(w, p, f, now, life);
    case LookUpCode(p) => LookUpAges(w, p, f, now, life);
    case ConsumeCode(p, bound, authTime) => RedeemAges(w, p, bound, authTime, f, now, life);
    case Mint(p, permitted, clock, child) => MintAges(w, p, permitted, clock, child, f, now, life);
    case Save(p) => SaveAges(w, p, f, now, life);
    case RevokeOwn(p) => RevokeOwnAges(w, p, f, now, life);
    case RevokeMany(fs, at) => RevokeAges(w, fs, at, f, now, life);
    case _ =>
  }

  /**
   A family found dead, when nobody holding it could save a row that is not,
   is dead in every state that follows, whatever the clocks of the requests.
   */
  lemma {:induction false} DeadStaysDead(w: World, acts: seq<Action>, f: FamilyId, now: int, life: int)
    requires Inv(w) && IsRun(w, acts) && Withered(w, f, now, life)
    ensures Withered(Run(w, acts), f, now, life)
    decreases |acts|
  {
    if acts != [] {
      StepKeeps(w, acts[0]);
      StepAges(w, acts[0], f, now, life);
      DeadStaysDead(Next(w, acts[0]), acts[1..], f, now, life);
    }
  }

  lemma ConsumeStamps(w: World, p: Pid, policy: Policy)
    requires p in w.grants && w.grants[p].Presenting?
    ensures
      var g, n := w.grants[p], AfterConsume(w, p, policy).store.tokens;
      n == if Consumable(w.store, g.token, g.client)
           then w.store.tokens[g.token := w.store.tokens[g.token].(consumedAt := Some(g.now))]
           else w.store.tokens
  {}

  lemma SaveAdds(w: World, p: Pid)
    requires Inv(w) && p in w.grants && w.grants[p].Saving?
    ensures forall t | t in w.store.tokens ::
      t in AfterSave(w, p).store.tokens && AfterSave(w, p).store.tokens[t] == w.store.tokens[t]
  {
    assert GrantOk(w, p, w.grants[p]);
    forall t | t in w.store.tokens ensures t != w.grants[p].child { assert TokenOk(w, t, w.store.tokens[t]); }
  }

  lemma RedeemLeavesTokens(w: World, p: Pid, bound: bool, authTime: int)
    requires p in w.grants && w.grants[p].Redeeming?
    ensures AfterConsumeCode(w, p, bound, authTime).store.tokens == w.store.tokens
  {}

  lemma LookUpsLeaveTokens(w: World, p: Pid)
    requires p in w.grants
    ensures w.grants[p].LookingUp? ==> AfterLookUp(w, p).store == w.store
    ensures w.grants[p].LookingUpCode? ==> AfterLookUpCode(w, p).store == w.store
  {}

  predicate Stamps(a: Action) {
    a.Consume? || a.Save? || a.RevokeOwn? || a.RevokeMany? || a.Reap?
  }

  lemma OthersLeaveTokens(w: World, a: Action)
    requires Enabled(w, a) && !Stamps(a)
    ensures Next(w, a).store.tokens == w.store.tokens
  {
    match a
    case LookUp(p) => LookUpsLeaveTokens(w, p);
    case LookUpCode(p) => LookUpsLeaveTokens(w, p);
    case ConsumeCode(p, bound, authTime) => RedeemLeavesTokens(w, p, bound, authTime);
    case _ =>
  }

  /** Each row of s is still in n, with no more than stamps added. */
  ghost predicate OnlyAged(s: map<Token, Row>, n: map<Token, Row>) {
    forall t | t in s :: t in n && Aged(s[t], n[t])
  }

  lemma ConsumeOnlyAges(w: World, p: Pid, policy: Policy)
    requires p in w.grants && w.grants[p].Presenting?
    ensures OnlyAged(w.store.tokens, AfterConsume(w, p, policy).store.tokens)
  {
    ConsumeStamps(w, p, policy);
  }

  lemma RevokeOnlyAges(s: Store, fs: set<FamilyId>, at: int)
    ensures OnlyAged(s.tokens, RevokeIn(s, fs, at).tokens)
  {}

  lemma RevokeOwnOnlyAges(w: World, p: Pid)
    requires p in w.grants && w.grants[p].Revoking?
    ensures OnlyAged(w.store.tokens, AfterRevokeOwn(w, p).store.tokens)
  {
    RevokeOnlyAges(w.store, {w.grants[p].family}, w.grants[p].now);
  }

  /** Between sweeps a row is only ever stamped. */
  lemma RowsOnlyAge(w: World, a: Action)
    requires Inv(w) && Enabled(w, a) && !a.Reap?
    ensures OnlyAged(w.store.tokens, Next(w, a).store.tokens)
  {
    if !Stamps(a) {
      OthersLeaveTokens(w, a);
    } else {
      match a
      case Consume(p, policy) => ConsumeOnlyAges(w, p, policy);
      case Save(p) => SaveAdds(w, p);
      case RevokeOwn(p) => RevokeOwnOnlyAges(w, p);
      case RevokeMany(fs, at) => RevokeOnlyAges(w.store, fs, at);
    }
  }

  // ---------------------------------------------------------------------
  // By clocks that do not run behind the sweep's
  // ---------------------------------------------------------------------

  /** f is dead, nobody holds it, and whoever is presenting a token of it reads a clock no earlier than the sweep's. */
  ghost predicate Settled(w: World, f: FamilyId, now: int, life: int) {
    && f in w.signIns && DeadFamily(w.store, f, now, life) && Quiet(w, {f})
    && (life <= 0 || w.cfg.maxLife <= life)
    && forall p | p in w.grants && w.grants[p].Presenting? && Owns(w.store, {f}, w.grants[p].token) ::
      now <= w.grants[p].now
  }

  /** Nobody can come to hold f: a live row of it is past its lifetime, and its presenter's clock says so. */
  lemma ConsumeSettles(w: World, p: Pid, policy: Policy, f: FamilyId, now: int, life: int)
    requires Inv(w) && p in w.grants && w.grants[p].Presenting? && Settled(w, f, now, life)
    ensures Settled(AfterConsume(w, p, policy), f, now, life)
  {
    var g := w.grants[p];
    if g.token in w.store.tokens {
      assert TokenOk(w, g.token, w.store.tokens[g.token]);
    }
    ConsumeAges(w, p, policy, f, now, life);
  }

  lemma SaveSettles(w: World, p: Pid, f: FamilyId, now: int, life: int)
    requires Inv(w) && p in w.grants && w.grants[p].Saving? && Settled(w, f, now, life)
    ensures Settled(AfterSave(w, p), f, now, life)
  {
    assert GrantOk(w, p, w.grants[p]);
  }

  lemma RedeemSettles(w: World, p: Pid, bound: bool, authTime: int, f: FamilyId, now: int, life: int)
    requires Inv(w) && p in w.grants && w.grants[p].Redeeming? && Settled(w, f, now, life)
    ensures Settled(AfterConsumeCode(w, p, bound, authTime), f, now, life)
  {
    assert GrantOk(w, p, w.grants[p]);
  }

  lemma RevokeSettles(w: World, fs: set<FamilyId>, at: int, f: FamilyId, now: int, life: int)
    requires Settled(w, f, now, life)
    ensures Settled(AfterRevoke(w, fs, at), f, now, life)
  {}

  /** A step that leaves the token rows alone and starts no request behind the sweep's clock. */
  lemma GrantSettles(w: World, n: World, f: FamilyId, now: int, life: int)
    requires Settled(w, f, now, life) && n.cfg == w.cfg && f in n.signIns
    requires forall t | t in n.store.tokens :: t in w.store.tokens && n.store.tokens[t] == w.store.tokens[t]
    requires forall p | p in n.grants :: (p in w.grants && n.grants[p] == w.grants[p]) || !Holds(n.grants[p], f)
    requires forall p | p in n.grants && n.grants[p].Presenting? ::
      (p in w.grants && n.grants[p] == w.grants[p]) || now <= n.grants[p].now
    ensures Settled(n, f, now, life)
  {}

  lemma MintSettles(w: World, p: Pid, permitted: bool, clock: int, child: Token, f: FamilyId, now: int, life: int)
    requires p in w.grants && w.grants[p].Holding? && Settled(w, f, now, life)
    ensures Settled(AfterMint(w, p, permitted, clock, child), f, now, life)
  {}

  lemma StartSettles(w: World, a: Action, f: FamilyId, now: int, life: int)
    requires Inv(w) && Enabled(w, a) && Starts(a) && Settled(w, f, now, life) && (a.StartRefresh? ==> now <= a.now)
    ensures Settled(Next(w, a), f, now, life)
  {
    GrantSettles(w, Next(w, a), f, now, life);
  }

  lemma LookUpSettles(w: World, p: Pid, f: FamilyId, now: int, life: int)
    requires p in w.grants && Settled(w, f, now, life)
    ensures w.grants[p].LookingUp? ==> Settled(AfterLookUp(w, p), f, now, life)
    ensures w.grants[p].LookingUpCode? ==> Settled(AfterLookUpCode(w, p), f, now, life)
  {}

  lemma MoveSettles(w: World, a: Action, f: FamilyId, now: int, life: int)
    requires Enabled(w, a) && Settled(w, f, now, life)
    requires a.IssueCode? || a.Respond? || a.Abandon? || a.ReapCodes? || a.Reap?
    ensures Settled(Next(w, a), f, now, life)
  {
    GrantSettles(w, Next(w, a), f, now, life);
  }

  lemma StepSettles(w: World, a: Action, f: FamilyId, now: int, life: int)
    requires Inv(w) && Enabled(w, a) && Settled(w, f, now, life) && (a.StartRefresh? ==> now <= a.now)
    ensures Settled(Next(w, a), f, now, life)
  {
    if Starts(a) { StartSettles(w, a, f, now, life); }
    else {
      match a
      case Consume(p, policy) => ConsumeSettles(w, p, policy, f, now, life);
      case LookUp(p) => LookUpSettles(w, p, f, now, life);
      case LookUpCode(p) => LookUpSettles(w, p, f, now, life);
      case ConsumeCode(p, bound, authTime) => RedeemSettles(w, p, bound, authTime, f, now, life);
      case Mint(p, permitted, clock, child) => MintSettles(w, p, permitted, clock, child, f, now, life);
      case Save(p) => SaveSettles(w, p, f, now, life);
      case RevokeOwn(p) => RevokeOwnSettles(w, p, f, now, life);
      case RevokeMany(fs, at) => RevokeSettles(w, fs, at, f, now, life);
      case _ => MoveSettles(w, a, f, now, life);
    }
  }

  lemma RevokeOwnSettles(w: World, p: Pid, f: FamilyId, now: int, life: int)
    requires p in w.grants && w.grants[p].Revoking? && Settled(w, f, now, life)
    ensures Settled(AfterRevokeOwn(w, p), f, now, life)
  {
    var g := w.grants[p];
    RevokeSettles(w, {g.family}, g.now, f, now, life);
    if g.family in w.store.families {
      GrantSettles(AfterRevoke(w, {g.family}, g.now), AfterRevokeOwn(w, p), f, now, life);
    } else {
      GrantSettles(w, Drop(w, p), f, now, life);
    }
  }
}
