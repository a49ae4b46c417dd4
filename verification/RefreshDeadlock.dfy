/**
 Rotations and revocations over overlapping families never deadlock: whatever
 they hold and wait for, some transaction can take its next lock, write or
 commit.
 */
module RefreshDeadlock {
  import opened Wrappers
  import opened RefreshSessions
  import opened RefreshTransactions

  /** A step of x's own that takes it further; giving up does not count. */
  predicate Furthers(s: Step, x: TxId) {
    match s
    case LockFamily(y) => x == y
    case InsertFamily(y) => x == y
    case InsertToken(y) => x == y
    case CommitSave(y) => x == y
    case UpdateFamily(y, _) => x == y
    case SkipFamily(y, _) => x == y
    case UnknownFamily(y) => x == y
    case TakeSnapshot(y) => x == y
    case StampToken(y, _) => x == y
    case CommitRevoke(y) => x == y
    case _ => false
  }

  ghost predicate CanMove(d: Db, x: TxId)
    requires AllAlive(d)
  {
    exists s :: Furthers(s, x) && CanStep(d, s)
  }

  lemma SaverMoves(d: Db, x: TxId)
    requires DbInv(d) && x in d.txs && d.txs[x].Saver?
    ensures CanMove(d, x)
  {
    assert Furthers(InsertToken(x), x) && Furthers(CommitSave(x), x);
    assert CanStep(d, InsertToken(x)) || CanStep(d, CommitSave(x));
  }

  /** Its token rows belong to families nobody else has locked, so it never waits for one. */
  lemma StamperMoves(d: Db, x: TxId)
    requires DbInv(d) && x in d.txs && d.txs[x].LockingTokens?
    ensures CanMove(d, x)
  {
    var tx := d.txs[x];
    if tx.snapshot <= tx.stamped {
      assert Furthers(CommitRevoke(x), x) && CanStep(d, CommitRevoke(x));
    } else {
      var t :| t in tx.snapshot && t !in tx.stamped;
      assert TxOk(d, tx);
      forall y ensures !TokenLocked(d, y, t) {
        if y != x && y in d.txs {
          assert TxOk(d, d.txs[y]) && Apart(d, tx, d.txs[y]);
        }
      }
      assert Furthers(StampToken(x, t), x) && CanStep(d, StampToken(x, t));
    }
  }

  lemma LockedAllMoves(d: Db, x: TxId)
    requires DbInv(d) && x in d.txs && d.txs[x].LockingFamilies? && d.txs[x].todo == {}
    ensures CanMove(d, x)
  {
    assert Furthers(TakeSnapshot(x), x) && CanStep(d, TakeSnapshot(x));
  }

  lemma {:induction false} LeastOf(fs: set<FamilyId>) returns (f: FamilyId)
    requires fs != {}
    ensures Least(f, fs)
    decreases |fs|
  {
    var g :| g in fs;
    var rest := fs - {g};
    if rest == {} {
      f := g;
      assert fs == {g};
    } else {
      var h := LeastOf(rest);
      f := if g < h then g else h;
      assert forall k | k in fs :: k == g || k in rest;
    }
  }

  /** What a revocation waits for is held by a saver, which can move, or by a revocation that is further on. */
  lemma RevokerMovesOrWaits(d: Db, x: TxId, f: FamilyId)
    requires DbInv(d) && x in d.txs && d.txs[x].LockingFamilies? && Least(f, d.txs[x].todo)
    ensures || CanMove(d, x)
            || (exists y :: ShareLocked(d, y, f))
            || (exists y :: UpdateLocked(d.txs, y, f))
  {
    var tx := d.txs[x];
    assert TxOk(d, tx);
    if f in d.world.store.families {
      if FreeToUpdate(d, f) {
        assert Furthers(UpdateFamily(x, f), x) && CanStep(d, UpdateFamily(x, f));
      }
    } else if tx.onBehalf.None? {
      assert Furthers(SkipFamily(x, f), x) && CanStep(d, SkipFamily(x, f));
    } else {
      assert f in tx.families + tx.todo;
      assert Furthers(UnknownFamily(x), x) && CanStep(d, UnknownFamily(x));
    }
  }

  /** By the order of the locks: each wait leads to a transaction whose next lock is greater. */
  lemma {:induction false} RevokerLeadsOn(d: Db, x: TxId, f: FamilyId, ahead: set<FamilyId>)
    requires DbInv(d) && x in d.txs && d.txs[x].LockingFamilies? && Least(f, d.txs[x].todo)
    requires forall y, g | y in d.txs && d.txs[y].LockingFamilies? && g in d.txs[y].todo && f < g :: g in ahead
    ensures exists y :: y in d.txs && CanMove(d, y)
    decreases |ahead|
  {
    RevokerMovesOrWaits(d, x, f);
    if !CanMove(d, x) {
      if y :| ShareLocked(d, y, f) {
        SaverMoves(d, y);
      } else {
        var y :| UpdateLocked(d.txs, y, f);
        assert TxOk(d, d.txs[y]);
        if d.txs[y].LockingTokens? {
          StamperMoves(d, y);
        } else if d.txs[y].todo == {} {
          LockedAllMoves(d, y);
        } else {
          var g := LeastOf(d.txs[y].todo);
          assert f < g;
          RevokerLeadsOn(d, y, g, ahead - {g});
        }
      }
    }
  }

  ghost function AllTodo(d: Db, xs: set<TxId>): set<FamilyId>
    requires xs <= d.txs.Keys
  {
    if xs == {} then {} else
      var x :| x in xs;
      (if d.txs[x].LockingFamilies? then d.txs[x].todo else {}) + AllTodo(d, xs - {x})
  }

  lemma {:induction false} AllTodoHas(d: Db, xs: set<TxId>, x: TxId)
    requires xs <= d.txs.Keys && x in xs && d.txs[x].LockingFamilies?
    ensures d.txs[x].todo <= AllTodo(d, xs)
    decreases |xs|
  {
    var y :| y in xs && AllTodo(d, xs) ==
      (if d.txs[y].LockingFamilies? then d.txs[y].todo else {}) + AllTodo(d, xs - {y});
    if y != x { AllTodoHas(d, xs - {y}, x); }
  }

  lemma WaitingSaverMoves(d: Db, x: TxId)
    requires DbInv(d) && x in d.txs && d.txs[x].SaverWaiting?
    requires forall y | y in d.txs :: d.txs[y].SaverWaiting?
    ensures CanMove(d, x)
  {
    var f := FamilyOf(d, d.txs[x]);
    if f in d.world.store.families {
      assert FreeToShare(d.txs, f);
      assert Furthers(LockFamily(x), x) && CanStep(d, LockFamily(x));
    } else {
      assert Furthers(InsertFamily(x), x) && CanStep(d, InsertFamily(x));
    }
  }

  /** In every interleaving, as long as a transaction is open, one of them can move. */
  lemma SomeTransactionCanMove(d: Db)
    requires DbInv(d) && d.txs != map[]
    ensures exists x :: x in d.txs && CanMove(d, x)
  {
    if x :| x in d.txs && d.txs[x].Saver? {
      SaverMoves(d, x);
    } else if x :| x in d.txs && d.txs[x].LockingTokens? {
      StamperMoves(d, x);
    } else if x :| x in d.txs && d.txs[x].LockingFamilies? {
      if d.txs[x].todo == {} {
        LockedAllMoves(d, x);
      } else {
        var f := LeastOf(d.txs[x].todo);
        forall y, g | y in d.txs && d.txs[y].LockingFamilies? && g in d.txs[y].todo
          ensures g in AllTodo(d, d.txs.Keys) {
          AllTodoHas(d, d.txs.Keys, y);
        }
        RevokerLeadsOn(d, x, f, AllTodo(d, d.txs.Keys));
      }
    } else {
      var x :| x in d.txs;
      WaitingSaverMoves(d, x);
    }
  }

  /** The same of every state an empty database can get to. */
  lemma NoDeadlock(w: World, steps: seq<Step>)
    requires Init(w) && IsInterleaving(w, steps) && Interleaved(w, steps).txs != map[]
    ensures AllAlive(Interleaved(w, steps))
    ensures exists x :: x in Interleaved(w, steps).txs && CanMove(Interleaved(w, steps), x)
  {
    EmptyDb(w);
    var acts := TransactionsAreAtomic(Db(w, map[]), steps);
    SomeTransactionCanMove(Interleaved(w, steps));
  }
}
