/**
 Sweeping dead refresh-token families changes no answer.

 A schedule is any sequence of steps; a step that is not enabled when its turn
 comes does nothing, so the same schedule can be played with and without its
 sweeps.  Both plays hand out exactly the same token responses.
 */
module RefreshSweep {
  import opened Wrappers
  import opened RefreshSessions
  import opened RefreshInvariants

  ghost function Do(w: World, a: Action): World {
    if a.RevokeMany? then AfterRevoke(w, a.families * w.store.families.Keys, a.at)
    else if Enabled(w, a) then Next(w, a)
    else w
  }

  function Yield(answers: seq<Answer>): seq<Answer> {
    if answers == [] then []
    else Yield(answers[..|answers| - 1]) + (if answers[|answers| - 1].Granted? then [answers[|answers| - 1]] else [])
  }

  predicate Starts(a: Action) {
    a.StartRefresh? || a.StartRedeem? || a.StartDevice?
  }

  /** What is asked of the schedule: request ids are unique, clocks do not fall behind an earlier sweep's, and
      a sweep is uncontended: no request on a swept family is under way with an older clock or an unsaved child. */
  datatype Past = Past(swept: set<FamilyId>, latest: int, started: set<Pid>)

  ghost predicate Orderly(w: World, past: Past, a: Action) {
    && (Starts(a) ==> a.pid !in past.started)
    && (a.StartRefresh? ==> past.latest <= a.now)
    && (a.Reap? && Enabled(w, a) ==>
          && Quiet(w, a.families) && past.latest <= a.now && (a.life <= 0 || w.cfg.maxLife <= a.life)
          && forall p | p in w.grants && w.grants[p].Presenting? && Owns(w.store, a.families, w.grants[p].token) ::
            a.now <= w.grants[p].now)
  }

  function After(past: Past, a: Action, effective: bool): Past {
    if Starts(a) then past.(started := past.started + {a.pid})
    else if a.Reap? && effective then past.(swept := past.swept + a.families, latest := a.now)
    else past
  }

  predicate Owns(s: Store, fs: set<FamilyId>, t: Token) {
    t in s.tokens && s.tokens[t].family in fs
  }

  // ---------------------------------------------------------------------
  // The two plays side by side: w is swept, v is not
  // ---------------------------------------------------------------------

  /** No clock from `at` on gets a token response for this row. */
  predicate Barren(r: Row, cfg: Config, at: int) {
    !Live(r) || r.lineage.authTime + cfg.maxLife <= at
  }

  ghost predicate SameStore(w: World, v: World, gone: set<FamilyId>) {
    && w.cfg == v.cfg && w.store == WithoutFamilies(v.store, gone)
    && w.owner.Keys == v.owner.Keys && w.uses.Keys == v.uses.Keys && gone <= v.owner.Keys
  }

  /** A request that can no longer end in a token response, in either play. */
  predicate Doomed(x: World, s: Store, gone: set<FamilyId>, p: Pid) {
    p in x.grants ==>
      || (x.grants[p].LookingUp? && Owns(s, gone, x.grants[p].token))
      || (x.grants[p].Revoking? && x.grants[p].family in gone)
  }

  predicate SameGrant(w: World, v: World, p: Pid) {
    (p in w.grants <==> p in v.grants) && (p in w.grants ==> w.grants[p] == v.grants[p])
  }

  ghost predicate GrantSim(w: World, v: World, past: Past, p: Pid) {
    && (p !in past.started ==> p !in w.grants && p !in v.grants)
    && (|| SameGrant(w, v, p)
        || (Doomed(w, v.store, past.swept, p) && Doomed(v, v.store, past.swept, p)))
    && (p in w.grants && (w.grants[p].Redeeming? || w.grants[p].Holding? || w.grants[p].Saving?) ==>
      w.grants[p].family !in past.swept)
    && (p in w.grants && w.grants[p].Presenting? && Owns(v.store, past.swept, w.grants[p].token) ==>
          Barren(v.store.tokens[w.grants[p].token], v.cfg, w.grants[p].now))
  }

  ghost predicate Sim(w: World, v: World, past: Past) {
    && SameStore(w, v, past.swept)
    && (forall t | Owns(v.store, past.swept, t) :: Barren(v.store.tokens[t], v.cfg, past.latest))
    && (forall p :: GrantSim(w, v, past, p))
    && Yield(w.answers) == Yield(v.answers)
  }

  lemma InvDo(w: World, a: Action)
    requires Inv(w) && (a.Reap? && Enabled(w, a) ==> Quiet(w, a.families))
    ensures Inv(Do(w, a))
  {
    if a.RevokeMany? {
      RevokeKeeps(w, a.families * w.store.families.Keys, a.at);
    } else if Enabled(w, a) {
      StepKeeps(w, a);
    }
  }

  // ---------------------------------------------------------------------
  // Sweeping commutes with what the store does
  // ---------------------------------------------------------------------

  lemma SweepThenWrite(s: Store, gone: set<FamilyId>, t: Token, r: Row)
    requires t in s.tokens ==> s.tokens[t].family == r.family
    ensures WithoutFamilies(s.(tokens := s.tokens[t := r]), gone) ==
            if r.family in gone then WithoutFamilies(s, gone)
            else WithoutFamilies(s, gone).(tokens := WithoutFamilies(s, gone).tokens[t := r])
  {}

  lemma SweepThenRevoke(s: Store, gone: set<FamilyId>, fs: set<FamilyId>, hs: set<FamilyId>, at: int)
    requires fs - gone == hs - gone
    ensures WithoutFamilies(RevokeIn(s, fs, at), gone) == RevokeIn(WithoutFamilies(s, gone), hs, at)
  {
    var l, r := WithoutFamilies(RevokeIn(s, fs, at), gone), RevokeIn(WithoutFamilies(s, gone), hs, at);
    assert forall f | f !in gone :: f in fs - gone <==> f in hs - gone;
    assert l.tokens == r.tokens;
    assert l.families == r.families;
  }

  lemma SweepTwice(s: Store, gone: set<FamilyId>, fs: set<FamilyId>)
    ensures WithoutFamilies(WithoutFamilies(s, gone), fs) == WithoutFamilies(s, gone + fs)
  {}

  lemma YieldAppend(answers: seq<Answer>, a: Answer)
    ensures Yield(answers + [a]) == Yield(answers) + (if a.Granted? then [a] else [])
  {}

  // ---------------------------------------------------------------------
  // One step touches one request
  // ---------------------------------------------------------------------

  /** Rows of the swept families, kept only by v, may be stamped and nothing else. */
  ghost predicate GoneFrame(s: Store, t: Store, gone: set<FamilyId>) {
    && (forall k :: Owns(s, gone, k) <==> Owns(t, gone, k))
    && (forall k | Owns(s, gone, k) && Owns(t, gone, k) ::
          t.tokens[k].lineage == s.tokens[k].lineage && (Live(t.tokens[k]) ==> Live(s.tokens[k])))
  }

  /** A change to the tables: the swept families apart, both plays agree, and those only get stamps. */
  lemma StoreSim(w: World, v: World, past: Past, ws: Store, vs: Store)
    requires Sim(w, v, past) && ws == WithoutFamilies(vs, past.swept) && GoneFrame(v.store, vs, past.swept)
    ensures Sim(w.(store := ws), v.(store := vs), past)
  {
    var w', v' := w.(store := ws), v.(store := vs);
    forall q ensures GrantSim(w', v', past, q) { assert GrantSim(w, v, past, q); }
  }

  /** A change to the history no step reads. */
  lemma LedgerSim(w: World, v: World, w': World, v': World, past: Past)
    requires Sim(w, v, past) && w'.cfg == w.cfg && w'.store == w.store && w'.grants == w.grants
      && Yield(w'.answers) == Yield(w.answers)
    requires v'.cfg == v.cfg && v'.store == v.store && v'.grants == v.grants && Yield(v'.answers) == Yield(v.answers)
    requires w'.owner.Keys == v'.owner.Keys && w'.uses.Keys == v'.uses.Keys && v.owner.Keys <= v'.owner.Keys
    ensures Sim(w', v', past)
  {
    forall q ensures GrantSim(w', v', past, q) { assert GrantSim(w, v, past, q); }
  }

  lemma PutSim(w: World, v: World, past: Past, p: Pid, g: Grant)
    requires Sim(w, v, past) && p in past.started
    requires g.Redeeming? || g.Holding? || g.Saving? ==> g.family !in past.swept
    requires g.Presenting? && Owns(v.store, past.swept, g.token) ==> Barren(v.store.tokens[g.token], v.cfg, g.now)
    ensures Sim(Put(w, p, g), Put(v, p, g), past)
  {
    var w', v' := Put(w, p, g), Put(v, p, g);
    forall q ensures GrantSim(w', v', past, q) { assert GrantSim(w, v, past, q); }
  }

  lemma DropSim(w: World, v: World, past: Past, p: Pid)
    requires Sim(w, v, past)
    ensures Sim(Drop(w, p), Drop(v, p), past)
  {
    forall q ensures GrantSim(Drop(w, p), Drop(v, p), past, q) { assert GrantSim(w, v, past, q); }
  }

  /** The request moves on differently in the two plays, but is doomed in both. */
  lemma DoomSim(w: World, v: World, past: Past, p: Pid, wg: map<Pid, Grant>, vg: map<Pid, Grant>)
    requires Sim(w, v, past) && p in past.started
    requires wg - {p} == w.grants - {p} && Doomed(w.(grants := wg), v.store, past.swept, p)
    requires vg - {p} == v.grants - {p} && Doomed(v.(grants := vg), v.store, past.swept, p)
    ensures Sim(w.(grants := wg), v.(grants := vg), past)
  {
    var w', v' := w.(grants := wg), v.(grants := vg);
    forall q ensures GrantSim(w', v', past, q) {
      assert GrantSim(w, v, past, q);
      if q != p {
        assert q in wg <==> q in wg - {p};
        assert q in vg <==> q in vg - {p};
        assert q in w.grants <==> q in w.grants - {p};
        assert q in v.grants <==> q in v.grants - {p};
        assert SameEntry(wg, w.grants, p, q) && SameEntry(vg, v.grants, p, q);
      }
    }
  }

  predicate SameEntry(m: map<Pid, Grant>, n: map<Pid, Grant>, p: Pid, q: Pid)
    requires m - {p} == n - {p} && q != p
    ensures SameEntry(m, n, p, q) && (q in m ==> q in n && m[q] == n[q])
  {
    assert q in m ==> q in m - {p} && (m - {p})[q] == m[q];
    assert q in n ==> q in n - {p} && (n - {p})[q] == n[q];
    true
  }

  // ---------------------------------------------------------------------
  // Steps of a request both plays see alike
  // ---------------------------------------------------------------------

  /** The same request in the same state in both plays. */
  ghost predicate Paired(w: World, v: World, past: Past, p: Pid) {
    Sim(w, v, past) && p in w.grants && p in v.grants && w.grants[p] == v.grants[p]
  }

  lemma StampBoth(w: World, v: World, past: Past, p: Pid, t: Token, at: int)
    requires Sim(w, v, past) && t in v.store.tokens && t in w.store.tokens
    requires TokenOk(v, t, v.store.tokens[t]) && v.store.tokens[t].family in v.owner
    ensures Sim(StampConsumed(w, p, t, at), StampConsumed(v, p, t, at), past)
  {
    var row := v.store.tokens[t].(consumedAt := Some(at));
    SweepThenWrite(v.store, past.swept, t, row);
    var ws, vs := w.store.(tokens := w.store.tokens[t := row]), v.store.(tokens := v.store.tokens[t := row]);
    StoreSim(w, v, past, ws, vs);
    LedgerSim(w.(store := ws), v.(store := vs), StampConsumed(w, p, t, at), StampConsumed(v, p, t, at), past);
  }

  lemma ConsumeKept(w: World, v: World, past: Past, p: Pid, policy: Policy)
    requires Paired(w, v, past, p) && Inv(v) && w.grants[p].Presenting? && !Owns(v.store, past.swept, w.grants[p].token)
    ensures Sim(AfterConsume(w, p, policy), AfterConsume(v, p, policy), past)
  {
    var g := w.grants[p];
    assert GrantSim(w, v, past, p);
    assert g.token in v.store.tokens <==> g.token in w.store.tokens;
    if !Consumable(v.store, g.token, g.client) {
      PutSim(w, v, past, p, LookingUp(g.token, g.client, g.now));
      return;
    }
    var row := v.store.tokens[g.token];
    assert TokenOk(v, g.token, row);
    StampBoth(w, v, past, p, g.token, g.now);
    var w', v' := StampConsumed(w, p, g.token, g.now), StampConsumed(v, p, g.token, g.now);
    match Admit(row, g.now, v.cfg, policy)
    case Refused => DropSim(w', v', past, p);
    case RefusedAndRevoke => PutSim(w', v', past, p, Revoking(row.family, g.now));
    case Admitted => PutSim(w', v', past, p, Holding(FromToken(g.token), g.now, row.family, row.lineage));
  }

  /** A request presenting a swept token: the swept play finds no row, the other a row that earns nothing. */
  lemma ConsumeSwept(w: World, v: World, past: Past, p: Pid, policy: Policy)
    requires Paired(w, v, past, p) && Inv(v) && w.grants[p].Presenting? && Owns(v.store, past.swept, w.grants[p].token)
    ensures Sim(AfterConsume(w, p, policy), AfterConsume(v, p, policy), past)
  {
    var g := w.grants[p];
    var row := v.store.tokens[g.token];
    assert GrantSim(w, v, past, p) && TokenOk(v, g.token, row);
    assert g.token !in w.store.tokens;
    if !Consumable(v.store, g.token, g.client) {
      PutSim(w, v, past, p, LookingUp(g.token, g.client, g.now));
      return;
    }
    assert Admit(row, g.now, v.cfg, policy) == Refused;
    ConsumeInSwept(w, v, past, p, row);
    var v' := StampConsumed(v, p, g.token, g.now);
    DoomSim(w, v', past, p, w.grants[p := LookingUp(g.token, g.client, g.now)], v'.grants - {p});
  }

  /** Stamping a row of a swept family is seen by the unswept store alone. */
  lemma ConsumeInSwept(w: World, v: World, past: Past, p: Pid, row: Row)
    requires Paired(w, v, past, p) && w.grants[p].Presenting? && Owns(v.store, past.swept, w.grants[p].token)
    requires row == v.store.tokens[w.grants[p].token] && row.family in v.owner && FromToken(w.grants[p].token) in v.uses
    ensures Sim(w, StampConsumed(v, p, w.grants[p].token, w.grants[p].now), past)
  {
    var g := w.grants[p];
    var row' := row.(consumedAt := Some(g.now));
    SweepThenWrite(v.store, past.swept, g.token, row');
    var vs := v.store.(tokens := v.store.tokens[g.token := row']);
    StoreSim(w, v, past, w.store, vs);
    LedgerSim(w, v.(store := vs), w, StampConsumed(v, p, g.token, g.now), past);
  }

  lemma LookUpSim(w: World, v: World, past: Past, p: Pid)
    requires Paired(w, v, past, p) && w.grants[p].LookingUp?
    ensures Sim(AfterLookUp(w, p), AfterLookUp(v, p), past)
  {
    if Owns(v.store, past.swept, w.grants[p].token) { LookUpSwept(w, v, past, p); }
    else { LookUpKept(w, v, past, p); }
  }

  lemma LookUpSwept(w: World, v: World, past: Past, p: Pid)
    requires Paired(w, v, past, p) && w.grants[p].LookingUp? && Owns(v.store, past.swept, w.grants[p].token)
    ensures Sim(AfterLookUp(w, p), AfterLookUp(v, p), past)
  {
    assert GrantSim(w, v, past, p);
    DoomSim(w, v, past, p, AfterLookUp(w, p).grants, AfterLookUp(v, p).grants);
  }

  lemma LookUpKept(w: World, v: World, past: Past, p: Pid)
    requires Paired(w, v, past, p) && w.grants[p].LookingUp? && !Owns(v.store, past.swept, w.grants[p].token)
    ensures Sim(AfterLookUp(w, p), AfterLookUp(v, p), past)
  {
    var g := w.grants[p];
    assert GrantSim(w, v, past, p);
    var found := g.token in v.store.tokens && v.store.tokens[g.token].lineage.client == g.client
      && v.store.tokens[g.token].consumedAt.Some?;
    assert g.token in v.store.tokens <==> g.token in w.store.tokens;
    if found {
      PutSim(w, v, past, p, Revoking(v.store.tokens[g.token].family, g.now));
    } else {
      DropSim(w, v, past, p);
    }
  }

  lemma SaveBoth(w: World, v: World, past: Past, g: Grant)
    requires Sim(w, v, past) && g.Saving? && g.family !in past.swept && g.row.family == g.family
      && g.child !in v.store.tokens
    ensures var wf := if g.family in w.store.families then w.store.families else w.store.families[g.family := None];
            var vf := if g.family in v.store.families then v.store.families else v.store.families[g.family := None];
            Sim(w.(store := w.store.(tokens := w.store.tokens[g.child := g.row], families := wf)),
                v.(store := v.store.(tokens := v.store.tokens[g.child := g.row], families := vf)), past)
  {
    SweepThenWrite(v.store, past.swept, g.child, g.row);
    var wf := if g.family in w.store.families then w.store.families else w.store.families[g.family := None];
    var vf := if g.family in v.store.families then v.store.families else v.store.families[g.family := None];
    assert wf == vf - past.swept;
    StoreSim(w, v, past, w.store.(tokens := w.store.tokens[g.child := g.row], families := wf),
             v.store.(tokens := v.store.tokens[g.child := g.row], families := vf));
  }

  lemma SaveSim(w: World, v: World, past: Past, p: Pid)
    requires Paired(w, v, past, p) && Inv(v) && w.grants[p].Saving?
    ensures Sim(AfterSave(w, p), AfterSave(v, p), past)
  {
    var g := w.grants[p];
    assert GrantSim(w, v, past, p) && GrantOk(v, p, g);
    assert g.child in v.store.tokens ==> TokenOk(v, g.child, v.store.tokens[g.child]);
    if Revoked(v.store, g.family) {
      DropSim(w, v, past, p);
    } else {
      SaveBoth(w, v, past, g);
      var wf := if g.family in w.store.families then w.store.families else w.store.families[g.family := None];
      var vf := if g.family in v.store.families then v.store.families else v.store.families[g.family := None];
      var w1 := w.(store := w.store.(tokens := w.store.tokens[g.child := g.row], families := wf));
      var v1 := v.(store := v.store.(tokens := v.store.tokens[g.child := g.row], families := vf));
      var w2 := w1.(owner := w1.owner[g.family := ByToken(g.child)], uses := w1.uses[FromToken(g.child) := Unused]);
      var v2 := v1.(owner := v1.owner[g.family := ByToken(g.child)], uses := v1.uses[FromToken(g.child) := Unused]);
      LedgerSim(w1, v1, w2, v2, past);
      PutSim(w2, v2, past, p, Saved(g.cred, g.now, g.family, g.child));
    }
  }

  lemma RedeemBoth(w: World, v: World, past: Past, p: Pid, code: Code, f: FamilyId, at: int)
    requires Sim(w, v, past) && code in v.store.codes && code in w.store.codes
    ensures Sim(StampRedeemed(w, p, code, f, at), StampRedeemed(v, p, code, f, at), past)
  {
    var row := v.store.codes[code].(consumedAt := Some(at), family := f);
    var ws, vs := w.store.(codes := w.store.codes[code := row]), v.store.(codes := v.store.codes[code := row]);
    assert ws == WithoutFamilies(vs, past.swept);
    StoreSim(w, v, past, ws, vs);
    LedgerSim(w.(store := ws), v.(store := vs), StampRedeemed(w, p, code, f, at), StampRedeemed(v, p, code, f, at),
      past);
  }

  lemma ConsumeCodeSim(w: World, v: World, past: Past, p: Pid, bound: bool, authTime: int)
    requires Paired(w, v, past, p) && w.grants[p].Redeeming?
    ensures Sim(AfterConsumeCode(w, p, bound, authTime), AfterConsumeCode(v, p, bound, authTime), past)
  {
    var g := w.grants[p];
    assert GrantSim(w, v, past, p);
    if g.code !in v.store.codes || v.store.codes[g.code].consumedAt.Some? {
      PutSim(w, v, past, p, LookingUpCode(g.code, g.now));
      return;
    }
    var row := v.store.codes[g.code];
    RedeemBoth(w, v, past, p, g.code, g.family, g.now);
    var w', v' := StampRedeemed(w, p, g.code, g.family, g.now), StampRedeemed(v, p, g.code, g.family, g.now);
    if g.now > row.expiresAt || row.identity.subject == "" || g.client != row.client || !bound {
      DropSim(w', v', past, p);
    } else {
      var lineage := Lineage(row.client, row.identity, authTime);
      var w2, v2 := w'.(signIns := w'.signIns[g.family := lineage]), v'.(signIns := v'.signIns[g.family := lineage]);
      LedgerSim(w', v', w2, v2, past);
      PutSim(w2, v2, past, p, Holding(FromCode(g.code), g.now, g.family, lineage));
    }
  }

  lemma LookUpCodeSim(w: World, v: World, past: Past, p: Pid)
    requires Paired(w, v, past, p) && w.grants[p].LookingUpCode?
    ensures Sim(AfterLookUpCode(w, p), AfterLookUpCode(v, p), past)
  {
    var g := w.grants[p];
    assert GrantSim(w, v, past, p);
    if AfterLookUpCode(v, p) == Drop(v, p) { DropSim(w, v, past, p); }
    else { PutSim(w, v, past, p, Revoking(v.store.codes[g.code].family, g.now)); }
  }

  lemma MintSim(w: World, v: World, past: Past, p: Pid, permitted: bool, clock: int, child: Token)
    requires Paired(w, v, past, p) && w.grants[p].Holding?
    ensures Sim(AfterMint(w, p, permitted, clock, child), AfterMint(v, p, permitted, clock, child), past)
  {
    var g := w.grants[p];
    assert GrantSim(w, v, past, p);
    if permitted {
      var w' := w.(uses := w.uses[FromToken(child) := Minting(p)], familyOf := w.familyOf[child := g.family]);
      var v' := v.(uses := v.uses[FromToken(child) := Minting(p)], familyOf := v.familyOf[child := g.family]);
      LedgerSim(w, v, w', v', past);
      PutSim(w', v', past, p, AfterMint(v, p, permitted, clock, child).grants[p]);
    } else if g.cred.FromToken? {
      PutSim(w, v, past, p, Revoking(g.family, g.now));
    } else {
      DropSim(w, v, past, p);
    }
  }

  lemma RespondSim(w: World, v: World, past: Past, p: Pid)
    requires Paired(w, v, past, p) && w.grants[p].Saved?
    ensures Sim(AfterRespond(w, p), AfterRespond(v, p), past)
  {
    assert GrantSim(w, v, past, p);
    var g := w.grants[p];
    var a := Granted(p, g.cred, g.now, g.family, g.child);
    YieldAppend(w.answers, a);
    YieldAppend(v.answers, a);
    forall q ensures GrantSim(AfterRespond(w, p), AfterRespond(v, p), past, q) { assert GrantSim(w, v, past, q); }
  }

  // ---------------------------------------------------------------------
  // Revocations
  // ---------------------------------------------------------------------

  lemma RevokeSim(w: World, v: World, past: Past, hs: set<FamilyId>, fs: set<FamilyId>, at: int)
    requires Sim(w, v, past) && fs - past.swept == hs - past.swept
    ensures Sim(AfterRevoke(w, hs, at), AfterRevoke(v, fs, at), past)
  {
    SweepThenRevoke(v.store, past.swept, fs, hs, at);
    var ws, vs := RevokeIn(w.store, hs, at), RevokeIn(v.store, fs, at);
    assert GoneFrame(v.store, vs, past.swept);
    StoreSim(w, v, past, ws, vs);
    LedgerSim(w.(store := ws), v.(store := vs), AfterRevoke(w, hs, at), AfterRevoke(v, fs, at), past);
  }

  lemma RevokeNothing(w: World, at: int)
    ensures AfterRevoke(w, {}, at) == w
  {}

  lemma RevokeOwnSim(w: World, v: World, past: Past, p: Pid)
    requires Paired(w, v, past, p) && w.grants[p].Revoking?
    ensures Sim(AfterRevokeOwn(w, p), AfterRevokeOwn(v, p), past)
  {
    var g := w.grants[p];
    var said := SessionRevoked(p, g.family);
    YieldAppend(w.answers, said);
    YieldAppend(v.answers, said);
    if g.family !in v.store.families {
      DropSim(w, v, past, p);
    } else if g.family in past.swept {
      RevokeNothing(w, g.now);
      RevokeSim(w, v, past, {}, {g.family}, g.now);
      var v' := AfterRevoke(v, {g.family}, g.now);
      LedgerSim(w, v', w, v'.(answers := v.answers + [said]), past);
      DropSim(w, v'.(answers := v.answers + [said]), past, p);
    } else {
      RevokeSim(w, v, past, {g.family}, {g.family}, g.now);
      var w', v' := AfterRevoke(w, {g.family}, g.now), AfterRevoke(v, {g.family}, g.now);
      LedgerSim(w', v', w'.(answers := w.answers + [said]), v'.(answers := v.answers + [said]), past);
      DropSim(w'.(answers := w.answers + [said]), v'.(answers := v.answers + [said]), past, p);
    }
  }

  // ---------------------------------------------------------------------
  // Steps of a request the plays no longer see alike
  // ---------------------------------------------------------------------

  predicate Advances(a: Action) {
    a.Consume? || a.LookUp? || a.ConsumeCode? || a.LookUpCode? || a.Mint? || a.Save? || a.Respond? || a.RevokeOwn?
      || a.Abandon?
  }

  lemma DoomedSwept(w: World, v: World, past: Past, a: Action)
    requires SameStore(w, v, past.swept) && Advances(a) && Doomed(w, v.store, past.swept, a.pid)
    ensures Do(w, a) == w || Do(w, a) == Drop(w, a.pid)
  {}

  lemma DoomedUnswept(v: World, past: Past, a: Action)
    requires Advances(a) && Doomed(v, v.store, past.swept, a.pid)
    ensures || Do(v, a) == v || Do(v, a) == Drop(v, a.pid)
            || (a.pid in v.grants && v.grants[a.pid].LookingUp? && Do(v, a) == AfterLookUp(v, a.pid))
            || (a.pid in v.grants && v.grants[a.pid].Revoking? && Do(v, a) == AfterRevokeOwn(v, a.pid))
  {}

  /** Only the unswept play still has the family to revoke. */
  lemma DoomedRevokes(w: World, v: World, past: Past, p: Pid, wg: map<Pid, Grant>)
    requires Sim(w, v, past) && p in past.started && wg - {p} == w.grants - {p}
      && Doomed(w.(grants := wg), v.store, past.swept, p)
    requires p in v.grants && v.grants[p].Revoking? && v.grants[p].family in past.swept
      && v.grants[p].family in v.store.families
    ensures Sim(w.(grants := wg), AfterRevokeOwn(v, p), past)
  {
    var g := v.grants[p];
    var said := SessionRevoked(p, g.family);
    var gone := v.grants - {p};
    assert gone - {p} == v.grants - {p};
    DoomSim(w, v, past, p, wg, gone);
    var w0, v0 := w.(grants := wg), v.(grants := gone);
    RevokeNothing(w0, g.now);
    RevokeSim(w0, v0, past, {}, {g.family}, g.now);
    var v1 := AfterRevoke(v0, {g.family}, g.now);
    YieldAppend(v.answers, said);
    LedgerSim(w0, v1, w0, v1.(answers := v.answers + [said]), past);
  }

  lemma DoomedMoves(w: World, v: World, past: Past, p: Pid, w': World, v': World)
    requires Sim(w, v, past) && p in past.started && Doomed(w, v.store, past.swept, p)
      && Doomed(v, v.store, past.swept, p)
    requires w' == w || w' == Drop(w, p)
    requires || v' == v || v' == Drop(v, p)
             || (p in v.grants && v.grants[p].LookingUp? && v' == AfterLookUp(v, p))
             || (p in v.grants && v.grants[p].Revoking? && v' == AfterRevokeOwn(v, p))
    ensures Sim(w', v', past)
  {
    var wg, vg := w'.grants, v'.grants;
    assert wg - {p} == w.grants - {p};
    if p in v.grants && v.grants[p].Revoking? && v.grants[p].family in v.store.families && v' == AfterRevokeOwn(v, p) {
      DoomedRevokes(w, v, past, p, wg);
    } else {
      assert vg - {p} == v.grants - {p};
      DoomSim(w, v, past, p, wg, vg);
    }
  }

  lemma DoomedSim(w: World, v: World, past: Past, a: Action)
    requires Sim(w, v, past) && Advances(a) && !SameGrant(w, v, a.pid)
    ensures Sim(Do(w, a), Do(v, a), past)
  {
    assert GrantSim(w, v, past, a.pid);
    DoomedSwept(w, v, past, a);
    DoomedUnswept(v, past, a);
    DoomedMoves(w, v, past, a.pid, Do(w, a), Do(v, a));
  }

  // ---------------------------------------------------------------------
  // Every step
  // ---------------------------------------------------------------------

  lemma ConsumeSim(w: World, v: World, past: Past, p: Pid, policy: Policy)
    requires Paired(w, v, past, p) && Inv(v) && w.grants[p].Presenting?
    ensures Sim(AfterConsume(w, p, policy), AfterConsume(v, p, policy), past)
  {
    if Owns(v.store, past.swept, w.grants[p].token) { ConsumeSwept(w, v, past, p, policy); }
    else { ConsumeKept(w, v, past, p, policy); }
  }

  /** A request still presenting its credential or looking it up. */
  lemma PresentedSim(w: World, v: World, past: Past, a: Action)
    requires Advances(a) && Paired(w, v, past, a.pid) && Inv(v) && Enabled(w, a) && Enabled(v, a)
    requires a.Consume? || a.LookUp? || a.ConsumeCode? || a.LookUpCode?
    ensures Sim(Next(w, a), Next(v, a), past)
  {
    match a
    case Consume(p, policy) => ConsumeSim(w, v, past, p, policy);
    case LookUp(p) => LookUpSim(w, v, past, p);
    case ConsumeCode(p, bound, authTime) => ConsumeCodeSim(w, v, past, p, bound, authTime);
    case LookUpCode(p) => LookUpCodeSim(w, v, past, p);
  }

  lemma PairedSim(w: World, v: World, past: Past, a: Action)
    requires Advances(a) && Paired(w, v, past, a.pid) && Inv(v)
    ensures Sim(Do(w, a), Do(v, a), past)
  {
    var p := a.pid;
    assert Enabled(w, a) <==> Enabled(v, a);
    if Enabled(w, a) {
      match a
      case Consume(_, _) => PresentedSim(w, v, past, a);
      case LookUp(_) => PresentedSim(w, v, past, a);
      case ConsumeCode(_, _, _) => PresentedSim(w, v, past, a);
      case LookUpCode(_) => PresentedSim(w, v, past, a);
      case Mint(_, permitted, clock, child) => MintSim(w, v, past, p, permitted, clock, child);
      case Save(_) => SaveSim(w, v, past, p);
      case Respond(_) => RespondSim(w, v, past, p);
      case RevokeOwn(_) => RevokeOwnSim(w, v, past, p);
      case Abandon(_) => DropSim(w, v, past, p);
    }
  }

  lemma AdvanceSim(w: World, v: World, past: Past, a: Action)
    requires Sim(w, v, past) && Inv(v) && Advances(a)
    ensures Sim(Do(w, a), Do(v, a), past)
  {
    if !SameGrant(w, v, a.pid) {
      DoomedSim(w, v, past, a);
    } else if a.pid in w.grants {
      PairedSim(w, v, past, a);
    }
  }

  lemma StartSim(w: World, v: World, past: Past, a: Action)
    requires Sim(w, v, past) && Starts(a) && Orderly(w, past, a)
    ensures Sim(Do(w, a), Do(v, a), After(past, a, true))
  {
    var p := a.pid;
    var next := After(past, a, true);
    assert GrantSim(w, v, past, p);
    assert Sim(w, v, next) by {
      forall q ensures GrantSim(w, v, next, q) { assert GrantSim(w, v, past, q); }
    }
    match a
    case StartRefresh(_, token, client, now) => PutSim(w, v, next, p, Presenting(token, client, now));
    case StartRedeem(_, code, client, now, f) =>
      if f !in w.owner {
        var w', v' := w.(owner := w.owner[f := ByGrant(p)]), v.(owner := v.owner[f := ByGrant(p)]);
        LedgerSim(w, v, w', v', next);
        PutSim(w', v', next, p, Redeeming(code, client, now, f));
      }
    case StartDevice(_, f, lineage) =>
      if f !in w.owner {
        LedgerSim(w, v, Draw(w, p, f, lineage), Draw(v, p, f, lineage), next);
        PutSim(Draw(w, p, f, lineage), Draw(v, p, f, lineage), next, p,
          Holding(FromDevice(f), lineage.authTime, f, lineage));
      }
  }

  lemma CodesSim(w: World, v: World, past: Past, a: Action)
    requires Sim(w, v, past) && (a.IssueCode? || a.ReapCodes?)
    ensures Sim(Do(w, a), Do(v, a), past)
  {
    assert Enabled(w, a) <==> Enabled(v, a);
    if Enabled(w, a) {
      var codes := Do(v, a).store.codes;
      var ws, vs := w.store.(codes := codes), v.store.(codes := codes);
      assert ws == WithoutFamilies(vs, past.swept);
      StoreSim(w, v, past, ws, vs);
      LedgerSim(w.(store := ws), v.(store := vs), Do(w, a), Do(v, a), past);
    }
  }

  /** The sweep: the swept play drops families whose rows, kept in the other play, earn nothing any more. */
  lemma ReapSim(w: World, v: World, past: Past, fs: set<FamilyId>, now: int, life: int)
    requires Sim(w, v, past) && Inv(w) && Inv(v) && Orderly(w, past, Reap(fs, now, life))
      && Enabled(w, Reap(fs, now, life))
    ensures Sim(Next(w, Reap(fs, now, life)), v, After(past, Reap(fs, now, life), true))
  {
    var next := After(past, Reap(fs, now, life), true);
    var w' := Next(w, Reap(fs, now, life));
    SweepTwice(v.store, past.swept, fs);
    assert SameStore(w', v, next.swept);
    forall t | Owns(v.store, next.swept, t) ensures Barren(v.store.tokens[t], v.cfg, now) {
      if !Owns(v.store, past.swept, t) {
        assert t in w.store.tokens && w.store.tokens[t] == v.store.tokens[t];
        assert DeadRow(w.store.tokens[t], now, life);
      }
    }
    forall p ensures GrantSim(w', v, next, p) { ReapGrantSim(w, v, past, fs, now, life, p); }
  }

  lemma ReapGrantSim(w: World, v: World, past: Past, fs: set<FamilyId>, now: int, life: int, p: Pid)
    requires Sim(w, v, past) && Inv(w) && Orderly(w, past, Reap(fs, now, life)) && Enabled(w, Reap(fs, now, life))
    ensures GrantSim(Next(w, Reap(fs, now, life)), v, After(past, Reap(fs, now, life), true), p)
  {
    assert GrantSim(w, v, past, p);
    if p in w.grants {
      assert GrantOk(w, p, w.grants[p]);
      if w.grants[p].Presenting? {
        var t := w.grants[p].token;
        if Owns(v.store, fs, t) && !Owns(v.store, past.swept, t) {
          assert Owns(w.store, fs, t) && w.store.tokens[t] == v.store.tokens[t];
          assert DeadRow(w.store.tokens[t], now, life);
        }
      }
    }
  }

  // ---------------------------------------------------------------------
  // Every schedule
  // ---------------------------------------------------------------------

  ghost predicate OrderlyAll(w: World, past: Past, acts: seq<Action>)
    decreases |acts|
  {
    acts == [] || (Orderly(w, past, acts[0])
      && OrderlyAll(Do(w, acts[0]), After(past, acts[0], Enabled(w, acts[0])), acts[1..]))
  }

  ghost function Play(w: World, acts: seq<Action>): World
    decreases |acts|
  {
    if acts == [] then w else Play(Do(w, acts[0]), acts[1..])
  }

  function WithoutSweeps(acts: seq<Action>): seq<Action> {
    if acts == [] then []
    else (if acts[0].Reap? then [] else [acts[0]]) + WithoutSweeps(acts[1..])
  }

  lemma StepSim(w: World, v: World, past: Past, a: Action)
    requires Sim(w, v, past) && Inv(w) && Inv(v) && Orderly(w, past, a)
    ensures Sim(Do(w, a), if a.Reap? then v else Do(v, a), After(past, a, Enabled(w, a)))
  {
    if Advances(a) { AdvanceSim(w, v, past, a); }
    else if Starts(a) { StartSim(w, v, past, a); }
    else { StoreStepSim(w, v, past, a); }
  }

  lemma StoreStepSim(w: World, v: World, past: Past, a: Action)
    requires Sim(w, v, past) && Inv(w) && Inv(v) && Orderly(w, past, a) && !Advances(a) && !Starts(a)
    ensures Sim(Do(w, a), if a.Reap? then v else Do(v, a), After(past, a, Enabled(w, a)))
  {
    match a
    case RevokeMany(fs, at) => RevokeSim(w, v, past, fs * w.store.families.Keys, fs * v.store.families.Keys, at);
    case Reap(fs, now, life) => if Enabled(w, a) { ReapSim(w, v, past, fs, now, life); }
    case _ => CodesSim(w, v, past, a);
  }

  lemma {:induction false} PlaySim(w: World, v: World, past: Past, acts: seq<Action>)
    requires Sim(w, v, past) && Inv(w) && Inv(v) && OrderlyAll(w, past, acts)
    ensures Yield(Play(w, acts).answers) == Yield(Play(v, WithoutSweeps(acts)).answers)
    decreases |acts|
  {
    if acts != [] {
      var a := acts[0];
      StepSim(w, v, past, a);
      InvDo(w, a);
      if a.Reap? {
        PlaySim(Do(w, a), v, After(past, a, Enabled(w, a)), acts[1..]);
        assert WithoutSweeps(acts) == WithoutSweeps(acts[1..]);
      } else {
        InvDo(v, a);
        PlaySim(Do(w, a), Do(v, a), After(past, a, Enabled(w, a)), acts[1..]);
        assert WithoutSweeps(acts)[1..] == WithoutSweeps(acts[1..]);
      }
    }
  }

  /** From an empty store, any orderly schedule yields the same token responses with its sweeps as without them. */
  lemma SweepsAreUnobservable(w: World, start: int, acts: seq<Action>)
    requires Init(w) && OrderlyAll(w, Past({}, start, {}), acts)
    ensures Yield(Play(w, acts).answers) == Yield(Play(w, WithoutSweeps(acts)).answers)
  {
    InitInv(w);
    assert WithoutFamilies(w.store, {}) == w.store;
    PlaySim(w, w, Past({}, start, {}), acts);
  }
}
