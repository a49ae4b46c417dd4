/**
 A transaction that finds its locks free runs through: SaveRefresh and the
 revocations, statement by statement with nobody in between, do exactly what
 the atomic store method does.
 */
module RefreshCalls {
  import opened Wrappers
  import opened RefreshSessions
  import opened RefreshInvariants
  import opened RefreshTransactions

  lemma Joined(d: Db, s: Step, n: Db, rest: seq<Step>)
    requires DbInv(d) && CanStep(d, s) && StepTo(d, s) == n
    ensures DbInv(n)
    ensures IsDbRun(n, rest) ==> IsDbRun(d, [s] + rest) && DbRun(d, [s] + rest) == DbRun(n, rest)
  {
    StepKeepsDb(d, s);
    assert ([s] + rest)[1..] == rest;
  }

  function With(d: Db, x: TxId, tx: Tx): Db {
    d.(txs := d.txs[x := tx])
  }

  // ---------------------------------------------------------------------
  // SaveRefresh
  // ---------------------------------------------------------------------

  /** x, new, is about to save for p, whose family nobody is revoking or inserting. */
  ghost predicate MaySave(d: Db, x: TxId, p: Pid) {
    && x !in d.txs && p in d.world.grants && d.world.grants[p].Saving?
    && (forall y | y in d.txs :: !RunsFor(d.txs[y], p))
    && FreeToShare(d.txs, d.world.grants[p].family)
    && forall y :: !Inserted(d, y, d.world.grants[p].family)
  }

  lemma Commits(d: Db, x: TxId, p: Pid, created: bool)
    requires x !in d.txs && p in d.world.grants && d.world.grants[p].Saving?
    requires DbInv(With(d, x, Saver(p, created, true)))
    ensures IsDbRun(With(d, x, Saver(p, created, true)), [CommitSave(x)])
    ensures DbRun(With(d, x, Saver(p, created, true)), [CommitSave(x)]) == d.(world := AfterSave(d.world, p))
  {
    var m := With(d, x, Saver(p, created, true));
    CommitSaveIsSave(m, x);
    assert m.txs - {x} == d.txs;
    Joined(m, CommitSave(x), d.(world := AfterSave(d.world, p)), []);
    assert [CommitSave(x)] + [] == [CommitSave(x)];
  }

  lemma InsertsAndCommits(d: Db, x: TxId, p: Pid, created: bool) returns (steps: seq<Step>)
    requires x !in d.txs && p in d.world.grants && d.world.grants[p].Saving?
    requires DbInv(With(d, x, Saver(p, created, false)))
    ensures IsDbRun(With(d, x, Saver(p, created, false)), steps)
    ensures DbRun(With(d, x, Saver(p, created, false)), steps) == d.(world := AfterSave(d.world, p))
  {
    Joined(With(d, x, Saver(p, created, false)), InsertToken(x), With(d, x, Saver(p, created, true)), [CommitSave(x)]);
    Commits(d, x, p, created);
    steps := [InsertToken(x)] + [CommitSave(x)];
  }

  lemma FreeWhileWaiting(d: Db, x: TxId, p: Pid)
    requires MaySave(d, x, p)
    ensures var n, f := With(d, x, SaverWaiting(p)), d.world.grants[p].family;
            FreeToShare(n.txs, f) && forall y :: !Inserted(n, y, f)
  {
    var n, f := With(d, x, SaverWaiting(p)), d.world.grants[p].family;
    forall y ensures !UpdateLocked(n.txs, y, f) { assert !UpdateLocked(d.txs, y, f); }
    forall y ensures !Inserted(n, y, f) { assert !Inserted(d, y, f); }
  }

  lemma LocksAndSaves(d: Db, x: TxId, p: Pid) returns (steps: seq<Step>)
    requires MaySave(d, x, p) && DbInv(With(d, x, SaverWaiting(p)))
    ensures IsDbRun(With(d, x, SaverWaiting(p)), steps)
    ensures DbRun(With(d, x, SaverWaiting(p)), steps) == d.(world := AfterSave(d.world, p))
  {
    var n, f := With(d, x, SaverWaiting(p)), d.world.grants[p].family;
    FreeWhileWaiting(d, x, p);
    assert Alive(n, n.txs[x]);
    if Revoked(d.world.store, f) {
      assert n.txs - {x} == d.txs;
      Joined(n, LockFamily(x), d.(world := AfterSave(d.world, p)), []);
      steps := [LockFamily(x)] + [];
    } else if f in d.world.store.families {
      Joined(n, LockFamily(x), With(d, x, Saver(p, false, false)), []);
      var rest := InsertsAndCommits(d, x, p, false);
      Joined(n, LockFamily(x), With(d, x, Saver(p, false, false)), rest);
      steps := [LockFamily(x)] + rest;
    } else {
      Joined(n, InsertFamily(x), With(d, x, Saver(p, true, false)), []);
      var rest := InsertsAndCommits(d, x, p, true);
      Joined(n, InsertFamily(x), With(d, x, Saver(p, true, false)), rest);
      steps := [InsertFamily(x)] + rest;
    }
  }

  /** A save whose family nobody is revoking or inserting is carried out, or refused if the family is revoked. */
  lemma SaveAlone(d: Db, x: TxId, p: Pid) returns (steps: seq<Step>)
    requires DbInv(d) && MaySave(d, x, p)
    ensures IsDbRun(d, steps) && DbRun(d, steps) == d.(world := AfterSave(d.world, p))
  {
    Joined(d, BeginSave(x, p), With(d, x, SaverWaiting(p)), []);
    var rest := LocksAndSaves(d, x, p);
    Joined(d, BeginSave(x, p), With(d, x, SaverWaiting(p)), rest);
    steps := [BeginSave(x, p)] + rest;
  }

  // ---------------------------------------------------------------------
  // RevokeRefreshFamily and revokeFamiliesWhere
  // ---------------------------------------------------------------------

  /** The tables after a revocation of fs, and the grant that asked for it answered. */
  function RevokedFor(d: Db, b: Option<Pid>, at: int, fs: set<FamilyId>): Db
    requires b.Some? ==> b.value in d.world.grants && d.world.grants[b.value].Revoking?
  {
    var w := AfterRevoke(d.world, fs, at);
    d.(world := if b.None? then w
                else Drop(w.(answers := w.answers + [SessionRevoked(b.value, w.grants[b.value].family)]), b.value))
  }

  ghost predicate Asked(d: Db, b: Option<Pid>, at: int) {
    b.Some? ==> b.value in d.world.grants && d.world.grants[b.value].Revoking? && d.world.grants[b.value].now == at
  }

  /** Nobody but x holds a row of fs. */
  ghost predicate Clear(d: Db, x: TxId, fs: set<FamilyId>) {
    && x !in d.txs && (forall f | f in fs && f in d.world.store.families :: FreeToUpdate(d, f))
    && forall t | t in d.world.store.tokens && d.world.store.tokens[t].family in fs :: FreeToken(d, t)
  }

  lemma CommitsRevocation(d: Db, x: TxId, b: Option<Pid>, at: int, fs: set<FamilyId>, snapshot: set<Token>)
    requires x !in d.txs && Asked(d, b, at) && DbInv(With(d, x, LockingTokens(b, at, fs, snapshot, snapshot)))
    ensures
      var n := With(d, x, LockingTokens(b, at, fs, snapshot, snapshot));
      IsDbRun(n, [CommitRevoke(x)] + []) && DbRun(n, [CommitRevoke(x)] + []) == RevokedFor(d, b, at, fs)
  {
    var n := With(d, x, LockingTokens(b, at, fs, snapshot, snapshot));
    CommitRevokeIsRevoke(n, x);
    assert n.txs - {x} == d.txs;
    Joined(n, CommitRevoke(x), RevokedFor(d, b, at, fs), []);
  }

  lemma TokenIsFree(d: Db, x: TxId, b: Option<Pid>, at: int, fs: set<FamilyId>, snapshot: set<Token>,
    stamped: set<Token>, t: Token)
    requires Clear(d, x, fs) && t in snapshot - stamped && snapshot <= Visible(d.world.store, fs)
    ensures CanStampNow(With(d, x, LockingTokens(b, at, fs, snapshot, stamped)), x, t)
  {
    var n := With(d, x, LockingTokens(b, at, fs, snapshot, stamped));
    assert FreeToken(d, t);
    forall y ensures !TokenLocked(n, y, t) { assert !TokenLocked(d, y, t); }
  }

  ghost predicate CanStampNow(d: Db, x: TxId, t: Token) {
    x in d.txs && d.txs[x].LockingTokens? && t in d.txs[x].snapshot && t !in d.txs[x].stamped && FreeToken(d, t)
  }

  lemma Unstamped(snapshot: set<Token>, stamped: set<Token>) returns (t: Token)
    requires stamped < snapshot
    ensures t in snapshot && t !in stamped
  {
    t :| t in snapshot && t !in stamped;
  }

  lemma StampStep(d: Db, x: TxId, b: Option<Pid>, at: int, fs: set<FamilyId>, snapshot: set<Token>,
    stamped: set<Token>, t: Token)
    requires Clear(d, x, fs) && snapshot == Visible(d.world.store, fs) && t in snapshot && t !in stamped
    requires DbInv(With(d, x, LockingTokens(b, at, fs, snapshot, stamped)))
    ensures
      var n, m := With(d, x, LockingTokens(b, at, fs, snapshot, stamped)),
                  With(d, x, LockingTokens(b, at, fs, snapshot, stamped + {t}));
      CanStep(n, StampToken(x, t)) && StepTo(n, StampToken(x, t)) == m && DbInv(m)
  {
    var n := With(d, x, LockingTokens(b, at, fs, snapshot, stamped));
    TokenIsFree(d, x, b, at, fs, snapshot, stamped, t);
    StepKeepsDb(n, StampToken(x, t));
  }

  lemma {:induction false} StampsAndCommits(d: Db, x: TxId, b: Option<Pid>, at: int, fs: set<FamilyId>,
    snapshot: set<Token>, stamped: set<Token>) returns (steps: seq<Step>)
    requires Clear(d, x, fs) && Asked(d, b, at) && snapshot == Visible(d.world.store, fs) && stamped <= snapshot
    requires DbInv(With(d, x, LockingTokens(b, at, fs, snapshot, stamped)))
    ensures IsDbRun(With(d, x, LockingTokens(b, at, fs, snapshot, stamped)), steps)
    ensures DbRun(With(d, x, LockingTokens(b, at, fs, snapshot, stamped)), steps) == RevokedFor(d, b, at, fs)
    decreases snapshot - stamped
  {
    var n := With(d, x, LockingTokens(b, at, fs, snapshot, stamped));
    if stamped == snapshot {
      CommitsRevocation(d, x, b, at, fs, snapshot);
      steps := [CommitRevoke(x)] + [];
    } else {
      var t := Unstamped(snapshot, stamped);
      StampStep(d, x, b, at, fs, snapshot, stamped, t);
      var m := With(d, x, LockingTokens(b, at, fs, snapshot, stamped + {t}));
      var rest := StampsAndCommits(d, x, b, at, fs, snapshot, stamped + {t});
      Joined(n, StampToken(x, t), m, rest);
      steps := [StampToken(x, t)] + rest;
    }
  }

  lemma SnapshotsAndRevokes(d: Db, x: TxId, b: Option<Pid>, at: int, fs: set<FamilyId>) returns (steps: seq<Step>)
    requires Clear(d, x, fs) && Asked(d, b, at) && DbInv(With(d, x, LockingFamilies(b, at, fs, {})))
    ensures IsDbRun(With(d, x, LockingFamilies(b, at, fs, {})), steps)
    ensures DbRun(With(d, x, LockingFamilies(b, at, fs, {})), steps) == RevokedFor(d, b, at, fs)
  {
    var n := With(d, x, LockingFamilies(b, at, fs, {}));
    var snapshot := Visible(d.world.store, fs);
    var m := With(d, x, LockingTokens(b, at, fs, snapshot, {}));
    Joined(n, TakeSnapshot(x), m, []);
    var rest := StampsAndCommits(d, x, b, at, fs, snapshot, {});
    Joined(n, TakeSnapshot(x), m, rest);
    steps := [TakeSnapshot(x)] + rest;
  }

  lemma LeastExists(s: set<FamilyId>) returns (m: FamilyId)
    requires s != {}
    ensures Least(m, s)
  {
    m :| m in s;
    if s != {m} {
      var rest := s - {m};
      var n := LeastExists(rest);
      assert s == rest + {m};
      if n < m { m := n; }
    }
  }

  lemma FamilyIsFree(d: Db, x: TxId, b: Option<Pid>, at: int, locked: set<FamilyId>, todo: set<FamilyId>, f: FamilyId)
    requires Clear(d, x, locked + todo) && f in todo && f !in locked && f in d.world.store.families
    ensures FreeToUpdate(With(d, x, LockingFamilies(b, at, locked, todo)), f)
  {
    var n := With(d, x, LockingFamilies(b, at, locked, todo));
    assert FreeToUpdate(d, f);
    forall y ensures !UpdateLocked(n.txs, y, f) { assert !UpdateLocked(d.txs, y, f); }
    forall y ensures !ShareLocked(n, y, f) { assert !ShareLocked(d, y, f); }
  }

  lemma LockStep(d: Db, x: TxId, b: Option<Pid>, at: int, locked: set<FamilyId>, todo: set<FamilyId>, f: FamilyId)
    requires Clear(d, x, locked + todo) && Least(f, todo) && f in d.world.store.families
    requires DbInv(With(d, x, LockingFamilies(b, at, locked, todo)))
    ensures
      var n, m := With(d, x, LockingFamilies(b, at, locked, todo)),
                  With(d, x, LockingFamilies(b, at, locked + {f}, todo - {f}));
      CanStep(n, UpdateFamily(x, f)) && StepTo(n, UpdateFamily(x, f)) == m && DbInv(m)
  {
    var n := With(d, x, LockingFamilies(b, at, locked, todo));
    assert TxOk(n, n.txs[x]);
    FamilyIsFree(d, x, b, at, locked, todo, f);
    StepKeepsDb(n, UpdateFamily(x, f));
  }

  lemma SkipStep(d: Db, x: TxId, at: int, locked: set<FamilyId>, todo: set<FamilyId>, f: FamilyId)
    requires x !in d.txs && Least(f, todo) && f !in d.world.store.families
    requires DbInv(With(d, x, LockingFamilies(None, at, locked, todo)))
    ensures
      var n, m := With(d, x, LockingFamilies(None, at, locked, todo)),
                  With(d, x, LockingFamilies(None, at, locked, todo - {f}));
      CanStep(n, SkipFamily(x, f)) && StepTo(n, SkipFamily(x, f)) == m && DbInv(m)
  {
    StepKeepsDb(With(d, x, LockingFamilies(None, at, locked, todo)), SkipFamily(x, f));
  }

  lemma Regrouped(locked: set<FamilyId>, todo: set<FamilyId>, have: set<FamilyId>, f: FamilyId)
    requires f in todo
    ensures locked + {f} + (todo - {f}) == locked + todo
    ensures f in have ==> locked + {f} + (todo - {f}) * have == locked + todo * have
    ensures f !in have ==> (todo - {f}) * have == todo * have
  {}

  /** Locks the rows that exist in order, skips those that do not, and goes on. */
  lemma {:induction false} LocksAndRevokes(d: Db, x: TxId, b: Option<Pid>, at: int, locked: set<FamilyId>,
    todo: set<FamilyId>) returns (steps: seq<Step>)
    requires Clear(d, x, locked + todo) && Asked(d, b, at) && (b.Some? ==> todo <= d.world.store.families.Keys)
    requires DbInv(With(d, x, LockingFamilies(b, at, locked, todo)))
    ensures IsDbRun(With(d, x, LockingFamilies(b, at, locked, todo)), steps)
    ensures DbRun(With(d, x, LockingFamilies(b, at, locked, todo)), steps)
         == RevokedFor(d, b, at, locked + todo * d.world.store.families.Keys)
    decreases todo, 1
  {
    if todo == {} {
      assert locked + todo == locked && locked + todo * d.world.store.families.Keys == locked;
      steps := SnapshotsAndRevokes(d, x, b, at, locked);
    } else {
      var f := LeastExists(todo);
      if f in d.world.store.families { steps := LocksOne(d, x, b, at, locked, todo, f); }
      else { steps := SkipsOne(d, x, at, locked, todo, f); }
    }
  }

  lemma {:induction false} LocksOne(d: Db, x: TxId, b: Option<Pid>, at: int, locked: set<FamilyId>,
    todo: set<FamilyId>, f: FamilyId) returns (steps: seq<Step>)
    requires Clear(d, x, locked + todo) && Asked(d, b, at) && (b.Some? ==> todo <= d.world.store.families.Keys)
    requires DbInv(With(d, x, LockingFamilies(b, at, locked, todo))) && Least(f, todo) && f in d.world.store.families
    ensures IsDbRun(With(d, x, LockingFamilies(b, at, locked, todo)), steps)
    ensures DbRun(With(d, x, LockingFamilies(b, at, locked, todo)), steps)
         == RevokedFor(d, b, at, locked + todo * d.world.store.families.Keys)
    decreases todo, 0
  {
    var n := With(d, x, LockingFamilies(b, at, locked, todo));
    LockStep(d, x, b, at, locked, todo, f);
    Regrouped(locked, todo, d.world.store.families.Keys, f);
    var more := LocksAndRevokes(d, x, b, at, locked + {f}, todo - {f});
    Joined(n, UpdateFamily(x, f), With(d, x, LockingFamilies(b, at, locked + {f}, todo - {f})), more);
    steps := [UpdateFamily(x, f)] + more;
  }

  lemma {:induction false} SkipsOne(d: Db, x: TxId, at: int, locked: set<FamilyId>, todo: set<FamilyId>, f: FamilyId)
    returns (steps: seq<Step>)
    requires Clear(d, x, locked + todo)
    requires DbInv(With(d, x, LockingFamilies(None, at, locked, todo)))
    requires Least(f, todo) && f !in d.world.store.families
    ensures IsDbRun(With(d, x, LockingFamilies(None, at, locked, todo)), steps)
    ensures DbRun(With(d, x, LockingFamilies(None, at, locked, todo)), steps)
         == RevokedFor(d, None, at, locked + todo * d.world.store.families.Keys)
    decreases todo, 0
  {
    var n := With(d, x, LockingFamilies(None, at, locked, todo));
    SkipStep(d, x, at, locked, todo, f);
    Regrouped(locked, todo, d.world.store.families.Keys, f);
    assert locked + (todo - {f}) <= locked + todo;
    var more := LocksAndRevokes(d, x, None, at, locked, todo - {f});
    Joined(n, SkipFamily(x, f), With(d, x, LockingFamilies(None, at, locked, todo - {f})), more);
    steps := [SkipFamily(x, f)] + more;
  }

  /** A revocation of families nobody else holds a row of revokes those of them that exist. */
  lemma RevokeManyAlone(d: Db, x: TxId, at: int, fs: set<FamilyId>) returns (steps: seq<Step>)
    requires DbInv(d) && Clear(d, x, fs)
    ensures IsDbRun(d, steps)
    ensures DbRun(d, steps) == d.(world := AfterRevoke(d.world, fs * d.world.store.families.Keys, at))
  {
    var n := With(d, x, LockingFamilies(None, at, {}, fs));
    Joined(d, BeginRevoke(x, None, at, fs), n, []);
    assert {} + fs == fs && {} + fs * d.world.store.families.Keys == fs * d.world.store.families.Keys;
    var rest := LocksAndRevokes(d, x, None, at, {}, fs);
    Joined(d, BeginRevoke(x, None, at, fs), n, rest);
    steps := [BeginRevoke(x, None, at, fs)] + rest;
  }

  /** A grant's revocation of its family, likewise; on a family with no row it ends the grant and no more. */
  lemma RevokeOwnAlone(d: Db, x: TxId, p: Pid) returns (steps: seq<Step>)
    requires DbInv(d) && p in d.world.grants && d.world.grants[p].Revoking? && Clear(d, x, {d.world.grants[p].family})
    requires forall y | y in d.txs :: !RunsFor(d.txs[y], p)
    ensures IsDbRun(d, steps) && DbRun(d, steps) == d.(world := AfterRevokeOwn(d.world, p))
  {
    var f, at := d.world.grants[p].family, d.world.grants[p].now;
    var n := With(d, x, LockingFamilies(Some(p), at, {}, {f}));
    Joined(d, BeginRevoke(x, Some(p), at, {f}), n, []);
    var rest: seq<Step>;
    if f in d.world.store.families {
      assert {} + {f} == {f} && {} + {f} * d.world.store.families.Keys == {f};
      rest := LocksAndRevokes(d, x, Some(p), at, {}, {f});
    } else {
      assert n.txs - {x} == d.txs && Alive(n, n.txs[x]);
      Joined(n, UnknownFamily(x), d.(world := AfterRevokeOwn(d.world, p)), []);
      rest := [UnknownFamily(x)] + [];
    }
    Joined(d, BeginRevoke(x, Some(p), at, {f}), n, rest);
    steps := [BeginRevoke(x, Some(p), at, {f})] + rest;
  }
}
