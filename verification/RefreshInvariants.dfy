/** What every step of the session machine keeps, one lemma a step. */
module RefreshInvariants {
  import opened Wrappers
  import opened RefreshSessions

  ghost predicate InheritedRow(w: World, r: Row) {
    r.family in w.signIns && r.lineage == w.signIns[r.family] && r.expiresAt <= r.lineage.authTime + w.cfg.maxLife
  }

  /**
   A stored row hangs off its family's row, carries the sign-in and expires
   within the absolute lifetime; it is revoked with its family; and a live one
   is unused and alone entitled to extend the family.
   */
  ghost predicate TokenOk(w: World, t: Token, r: Row) {
    && r.family in w.store.families && InheritedRow(w, r)
    && FromToken(t) in w.uses && !w.uses[FromToken(t)].Minting? && t in w.familyOf && w.familyOf[t] == r.family
    && (Revoked(w.store, r.family) ==> r.revokedAt.Some?)
    && (Live(r) ==> r.family in w.owner && w.owner[r.family] == ByToken(t) && w.uses[FromToken(t)] == Unused)
  }

  predicate InFlight(g: Grant) {
    g.Holding? || g.Saving? || g.Saved?
  }

  /** A grant that may extend a family owns it; one in flight owns its credential. */
  ghost predicate GrantOk(w: World, p: Pid, g: Grant) {
    && (g.Redeeming? || g.Holding? || g.Saving? ==>
          && g.family in w.owner && w.owner[g.family] == ByGrant(p)
          && (g.family in w.ended ==> g.family in w.store.families))
    && (g.Redeeming? ==> g.family !in w.store.families && g.family !in w.signIns && g.family !in w.ended)
    && (g.Holding? ==> g.family in w.signIns && g.lineage == w.signIns[g.family])
    && (g.Saving? ==>
          && g.row.family == g.family && Live(g.row) && InheritedRow(w, g.row)
          && FromToken(g.child) in w.uses && w.uses[FromToken(g.child)] == Minting(p)
          && g.child in w.familyOf && w.familyOf[g.child] == g.family)
    && (InFlight(g) ==>
          && g.cred in w.uses && w.uses[g.cred] == InUse(p)
          && (g.cred.FromToken? ==> Timely(w, g.cred.token, g.family, g.now)))
  }

  /** A refresh stays in its token's family, and read its clock inside the session's absolute lifetime. */
  ghost predicate Timely(w: World, t: Token, f: FamilyId, now: int) {
    && t in w.familyOf && w.familyOf[t] == f
    && f in w.signIns && now < w.signIns[f].authTime + w.cfg.maxLife
  }

  ghost predicate AnswerOk(w: World, i: nat, a: Answer) {
    && (a.Granted? ==>
          && a.cred in w.uses && w.uses[a.cred] == Answered(i)
          && (a.cred.FromToken? ==> Timely(w, a.cred.token, a.family, a.now)))
    && (a.SessionRevoked? ==> a.family in w.ended)
  }

  ghost predicate TokensOk(w: World) {
    forall t | t in w.store.tokens :: TokenOk(w, t, w.store.tokens[t])
  }

  ghost predicate GrantsOk(w: World) {
    forall p | p in w.grants :: GrantOk(w, p, w.grants[p])
  }

  ghost predicate AnswersOk(w: World) {
    forall i | 0 <= i < |w.answers| :: AnswerOk(w, i, w.answers[i])
  }

  ghost predicate CodesOk(w: World) {
    forall c | c in w.store.codes ::
      FromCode(c) in w.uses && (w.store.codes[c].consumedAt.None? ==> w.uses[FromCode(c)] == Unused)
  }

  ghost predicate FamiliesOk(w: World) {
    && w.store.families.Keys <= w.owner.Keys && w.ended <= w.owner.Keys && w.signIns.Keys <= w.owner.Keys
    && (forall f | f in w.ended && f in w.store.families :: Revoked(w.store, f))
    && (forall c | c in w.uses && c.FromDevice? :: c.family in w.owner)
    && (forall t | t in w.familyOf :: FromToken(t) in w.uses)
  }

  ghost predicate Inv(w: World) {
    TokensOk(w) && GrantsOk(w) && AnswersOk(w) && CodesOk(w) && FamiliesOk(w)
  }

  lemma InitInv(w: World)
    requires Init(w)
    ensures Inv(w)
  {}

  // ---------------------------------------------------------------------
  // Steps that only move a grant
  // ---------------------------------------------------------------------

  predicate Idle(g: Grant) {
    g.Presenting? || g.LookingUp? || g.LookingUpCode? || g.Revoking?
  }

  lemma DropKeeps(w: World, p: Pid)
    requires Inv(w)
    ensures Inv(Drop(w, p))
  {}

  lemma IdleKeeps(w: World, p: Pid, g: Grant)
    requires Inv(w) && Idle(g)
    ensures Inv(Put(w, p, g))
  {}

  // ---------------------------------------------------------------------
  // Consuming
  // ---------------------------------------------------------------------

  lemma StampKeeps(w: World, p: Pid, token: Token, at: int)
    requires Inv(w) && token in w.store.tokens && Live(w.store.tokens[token])
    requires p in w.grants ==> Idle(w.grants[p])
    ensures Inv(StampConsumed(w, p, token, at))
  {}

  /** The consumed token was the family's one live token, so its consumer is now the family's one holder. */
  lemma HoldKeeps(w: World, p: Pid, g: Grant)
    requires Inv(w) && g.Holding? && GrantOk(w, p, g)
    ensures Inv(Put(w, p, g))
  {}

  lemma ConsumeKeeps(w: World, p: Pid, policy: Policy)
    requires Inv(w) && p in w.grants && w.grants[p].Presenting?
    ensures Inv(AfterConsume(w, p, policy))
  {
    var g := w.grants[p];
    if !Consumable(w.store, g.token, g.client) {
      IdleKeeps(w, p, LookingUp(g.token, g.client, g.now));
      return;
    }
    var row := w.store.tokens[g.token];
    var v := StampConsumed(w, p, g.token, g.now);
    StampKeeps(w, p, g.token, g.now);
    match Admit(row, g.now, w.cfg, policy)
    case Refused => DropKeeps(v, p);
    case RefusedAndRevoke => IdleKeeps(v, p, Revoking(row.family, g.now));
    case Admitted =>
      assert TokenOk(w, g.token, row);
      assert !Revoked(w.store, row.family);
      HoldKeeps(v, p, Holding(FromToken(g.token), g.now, row.family, row.lineage));
  }

  lemma StampRedeemedKeeps(w: World, p: Pid, code: Code, family: FamilyId, at: int)
    requires Inv(w) && code in w.store.codes && w.store.codes[code].consumedAt.None?
    requires p in w.grants ==> w.grants[p].Redeeming?
    ensures Inv(StampRedeemed(w, p, code, family, at))
  {}

  /** Recording a new family's sign-in disturbs nothing: no row or grant refers to it yet. */
  lemma SignInKeeps(w: World, p: Pid, f: FamilyId, lineage: Lineage)
    requires Inv(w) && p in w.grants && w.grants[p].Redeeming? && w.grants[p].family == f
    ensures Inv(Drop(w.(signIns := w.signIns[f := lineage]), p))
  {}

  lemma ConsumeCodeKeeps(w: World, p: Pid, bound: bool, authTime: int)
    requires Inv(w) && p in w.grants && w.grants[p].Redeeming?
    ensures Inv(AfterConsumeCode(w, p, bound, authTime))
  {
    var g := w.grants[p];
    if g.code !in w.store.codes || w.store.codes[g.code].consumedAt.Some? {
      IdleKeeps(w, p, LookingUpCode(g.code, g.now));
      return;
    }
    var row := w.store.codes[g.code];
    var v := StampRedeemed(w, p, g.code, g.family, g.now);
    StampRedeemedKeeps(w, p, g.code, g.family, g.now);
    if g.now > row.expiresAt || row.identity.subject == "" || g.client != row.client || !bound {
      DropKeeps(v, p);
    } else {
      var lineage := Lineage(row.client, row.identity, authTime);
      SignInKeeps(v, p, g.family, lineage);
      var u := Drop(v.(signIns := v.signIns[g.family := lineage]), p);
      var h := Holding(FromCode(g.code), g.now, g.family, lineage);
      HoldKeeps(u, p, h);
      assert u.grants[p := h] == v.grants[p := h];
    }
  }

  lemma LookUpKeeps(w: World, p: Pid)
    requires Inv(w) && p in w.grants && w.grants[p].LookingUp?
    ensures Inv(AfterLookUp(w, p))
  {
    var g := w.grants[p];
    var t := w.store.tokens;
    if g.token in t && t[g.token].lineage.client == g.client && t[g.token].consumedAt.Some? {
      IdleKeeps(w, p, Revoking(t[g.token].family, g.now));
    } else {
      DropKeeps(w, p);
    }
  }

  lemma LookUpCodeKeeps(w: World, p: Pid)
    requires Inv(w) && p in w.grants && w.grants[p].LookingUpCode?
    ensures Inv(AfterLookUpCode(w, p))
  {
    var g := w.grants[p];
    if g.code in w.store.codes && w.store.codes[g.code].consumedAt.Some? {
      IdleKeeps(w, p, Revoking(w.store.codes[g.code].family, g.now));
    } else {
      DropKeeps(w, p);
    }
  }

  // ---------------------------------------------------------------------
  // Issuing
  // ---------------------------------------------------------------------

  lemma DrawKeeps(w: World, p: Pid, f: FamilyId, lineage: Lineage)
    requires Inv(w) && f !in w.owner
    ensures Inv(Draw(w, p, f, lineage))
  {}

  lemma StartDeviceKeeps(w: World, p: Pid, f: FamilyId, lineage: Lineage)
    requires Inv(w) && p !in w.grants && f !in w.owner
    ensures Inv(AfterStartDevice(w, p, f, lineage))
  {
    DrawKeeps(w, p, f, lineage);
    HoldKeeps(Draw(w, p, f, lineage), p, Holding(FromDevice(f), lineage.authTime, f, lineage));
  }

  lemma StartRedeemKeeps(w: World, p: Pid, g: Grant)
    requires Inv(w) && p !in w.grants && g.Redeeming? && g.family !in w.owner
    ensures Inv(Put(w.(owner := w.owner[g.family := ByGrant(p)]), p, g))
  {}

  lemma MintKeeps(w: World, p: Pid, permitted: bool, clock: int, child: Token)
    requires Inv(w) && p in w.grants && w.grants[p].Holding?
    requires permitted ==> FromToken(child) !in w.uses
    ensures Inv(AfterMint(w, p, permitted, clock, child))
  {
    var g := w.grants[p];
    assert GrantOk(w, p, g);
    if !permitted {
      if g.cred.FromToken? { IdleKeeps(w, p, Revoking(g.family, g.now)); } else { DropKeeps(w, p); }
    } else {
      var n := AfterMint(w, p, permitted, clock, child);
      forall t | t in n.store.tokens
        ensures TokenOk(n, t, n.store.tokens[t]) { assert TokenOk(w, t, w.store.tokens[t]); }
      forall q | q in n.grants ensures GrantOk(n, q, n.grants[q]) { assert GrantOk(w, q, w.grants[q]); }
      forall i | 0 <= i < |n.answers| ensures AnswerOk(n, i, n.answers[i]) { assert AnswerOk(w, i, w.answers[i]); }
    }
  }

  /** The lock's promise in one step: a child is stored only into a family that is not revoked. */
  lemma SaveKeeps(w: World, p: Pid)
    requires Inv(w) && p in w.grants && w.grants[p].Saving?
    ensures Inv(AfterSave(w, p))
  {
    assert GrantOk(w, p, w.grants[p]);
    if Revoked(w.store, w.grants[p].family) {
      DropKeeps(w, p);
    } else {
      var n := AfterSave(w, p);
      forall t | t in n.store.tokens ensures TokenOk(n, t, n.store.tokens[t]) {
        if t != w.grants[p].child { assert TokenOk(w, t, w.store.tokens[t]); }
      }
      forall q | q in n.grants ensures GrantOk(n, q, n.grants[q]) { assert GrantOk(w, q, w.grants[q]); }
      forall i | 0 <= i < |n.answers| ensures AnswerOk(n, i, n.answers[i]) { assert AnswerOk(w, i, w.answers[i]); }
    }
  }

  lemma RespondKeeps(w: World, p: Pid)
    requires Inv(w) && p in w.grants && w.grants[p].Saved?
    ensures Inv(AfterRespond(w, p))
  {}

  // ---------------------------------------------------------------------
  // Revoking and reaping
  // ---------------------------------------------------------------------

  lemma RevokeKeeps(w: World, fs: set<FamilyId>, at: int)
    requires Inv(w) && fs <= w.store.families.Keys
    ensures Inv(AfterRevoke(w, fs, at))
  {}

  lemma RevokeOwnKeeps(w: World, p: Pid)
    requires Inv(w) && p in w.grants && w.grants[p].Revoking?
    ensures Inv(AfterRevokeOwn(w, p))
  {
    var g := w.grants[p];
    if g.family in w.store.families {
      RevokeKeeps(w, {g.family}, g.now);
      var v := AfterRevoke(w, {g.family}, g.now);
      AnnounceKeeps(v, SessionRevoked(p, g.family));
      DropKeeps(v.(answers := v.answers + [SessionRevoked(p, g.family)]), p);
    } else {
      DropKeeps(w, p);
    }
  }

  lemma AnnounceKeeps(w: World, a: Answer)
    requires Inv(w) && a.SessionRevoked? && a.family in w.ended
    ensures Inv(w.(answers := w.answers + [a]))
  {}

  /** Where the in-flight hypothesis is needed: a holder of a reaped family would find no revocation. */
  lemma ReapKeeps(w: World, fs: set<FamilyId>)
    requires Inv(w) && Quiet(w, fs)
    ensures Inv(w.(store := WithoutFamilies(w.store, fs)))
  {}

  lemma IssueCodeKeeps(w: World, code: Code, row: CodeRow)
    requires Inv(w) && FromCode(code) !in w.uses && row.consumedAt.None?
    ensures Inv(w.(store := w.store.(codes := w.store.codes[code := row]), uses := w.uses[FromCode(code) := Unused]))
  {}

  lemma ReapCodesKeeps(w: World, cs: set<Code>)
    requires Inv(w)
    ensures Inv(w.(store := w.store.(codes := w.store.codes - cs)))
  {}

  // ---------------------------------------------------------------------
  // Every step, every run
  // ---------------------------------------------------------------------

  lemma StepKeeps(w: World, a: Action)
    requires Inv(w) && Guarded(w, a)
    ensures Inv(Next(w, a))
  {
    match a
    case IssueCode(code, row) => IssueCodeKeeps(w, code, row);
    case StartRefresh(p, token, client, now) => IdleKeeps(w, p, Presenting(token, client, now));
    case Consume(p, policy) => ConsumeKeeps(w, p, policy);
    case LookUp(p) => LookUpKeeps(w, p);
    case StartRedeem(p, code, client, now, f) => StartRedeemKeeps(w, p, Redeeming(code, client, now, f));
    case ConsumeCode(p, bound, authTime) => ConsumeCodeKeeps(w, p, bound, authTime);
    case LookUpCode(p) => LookUpCodeKeeps(w, p);
    case StartDevice(p, f, lineage) => StartDeviceKeeps(w, p, f, lineage);
    case Mint(p, permitted, clock, child) => MintKeeps(w, p, permitted, clock, child);
    case Save(p) => SaveKeeps(w, p);
    case Respond(p) => RespondKeeps(w, p);
    case RevokeOwn(p) => RevokeOwnKeeps(w, p);
    case RevokeMany(fs, at) => RevokeKeeps(w, fs, at);
    case Abandon(p) => DropKeeps(w, p);
    case Reap(fs, _, _) => ReapKeeps(w, fs);
    case ReapCodes(cs, _) => ReapCodesKeeps(w, cs);
  }

  lemma {:induction false} RunKeeps(w: World, acts: seq<Action>)
    requires Inv(w) && IsRun(w, acts)
    ensures Inv(Run(w, acts))
    decreases |acts|
  {
    if acts != [] {
      StepKeeps(w, acts[0]);
      RunKeeps(Next(w, acts[0]), acts[1..]);
    }
  }
}
