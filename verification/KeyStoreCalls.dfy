/** What one retirement and one boot do: the commit and the guarded update by what is active, and whole calls alone. */
module KeyStoreCalls {
  import opened KeyStore
  import opened Sets
  import opened Wrappers

  /** k is active and so is another. */
  predicate Spare(keys: map<Kid, Option<int>>, k: Kid) {
    ActiveIn(keys, k) && exists j :: j in keys && j != k && ActiveIn(keys, j)
  }

  /** The guarded update stamps exactly an active key with another active beside it, and touches no other. */
  lemma GuardedRetiresIff(w: World, k: Kid, at: int)
    ensures AfterGuarded(w, k, at).keys == if Spare(w.keys, k) then w.keys[k := Some(at)] else w.keys
    ensures AfterGuarded(w, k, at) == w.(keys := AfterGuarded(w, k, at).keys)
  {
    if Spare(w.keys, k) {
      var j :| j in w.keys && j != k && ActiveIn(w.keys, j);
      assert j in w.keys && j != k && w.keys[j].None?;
    }
  }

  /** So does a commit, by the rows it holds. */
  lemma CommitRetiresIff(w: World, x: TxId)
    requires x in w.txs
    ensures
      var tx, n := w.txs[x], AfterCommit(w, x);
      && n.txs == w.txs - {x}
      && (tx.kid in tx.held && (exists j :: j in tx.held && j != tx.kid) ==> n.keys == w.keys[tx.kid := Some(tx.at)])
      && (tx.kid !in tx.held || (forall j | j in tx.held :: j == tx.kid) ==> n.keys == w.keys)
  {
    var tx := w.txs[x];
    if j :| j in tx.held && j != tx.kid && tx.kid in tx.held {
      assert {tx.kid, j} <= tx.held;
      SubsetIsSmaller({tx.kid, j}, tx.held);
    } else if tx.kid in tx.held {
      assert tx.held == {tx.kid};
    }
  }

  // ---------------------------------------------------------------------
  // A retirement nobody interrupts
  // ---------------------------------------------------------------------

  lemma Joined(w: World, a: Step, rest: seq<Step>)
    requires Enabled(w, a) && IsRun(Next(w, a), rest)
    ensures IsRun(w, [a] + rest) && Run(w, [a] + rest) == Run(Next(w, a), rest)
  {
    assert ([a] + rest)[1..] == rest;
  }

  ghost predicate Reachable(w: World, x: TxId) {
    x in w.txs && forall k | k in w.txs[x].todo :: Free(w, k)
  }

  function Held(w: World, x: TxId, held: set<Kid>): World
    requires x in w.txs
  {
    w.(txs := w.txs[x := w.txs[x].(todo := {}, held := held)])
  }

  lemma VisitStaysReachable(w: World, x: TxId, k: Kid)
    requires Reachable(w, x) && k in w.txs[x].todo
    ensures Reachable(AfterVisit(w, x, k), x)
  {
    var n := AfterVisit(w, x, k);
    forall m | m in n.txs[x].todo ensures Free(n, m) {
      forall y ensures !Locked(n, y, m) { assert !Locked(w, y, m); }
    }
  }

  /** The rows x will hold once it has visited all it set out to. */
  function WillHold(w: World, x: TxId): set<Kid>
    requires x in w.txs
  {
    w.txs[x].held + w.txs[x].todo * Actives(w.keys)
  }

  lemma VisitHolds(w: World, x: TxId, k: Kid)
    requires x in w.txs && k in w.txs[x].todo
    ensures
      var n := AfterVisit(w, x, k);
      WillHold(n, x) == WillHold(w, x) && forall held :: Held(n, x, held) == Held(w, x, held)
  {
    var n := AfterVisit(w, x, k);
    forall held ensures Held(n, x, held) == Held(w, x, held) {
      assert n.txs[x := w.txs[x].(todo := {}, held := held)] == w.txs[x := w.txs[x].(todo := {}, held := held)];
    }
  }

  lemma NothingLeftToHold(w: World, x: TxId)
    requires x in w.txs && w.txs[x].todo == {}
    ensures Held(w, x, WillHold(w, x)) == w
  {
    assert WillHold(w, x) == w.txs[x].held;
  }

  /** Left alone, a retirement locks in kid order every active row it set out to, and commits. */
  lemma {:induction false} LocksThenCommits(w: World, x: TxId) returns (acts: seq<Step>)
    requires Reachable(w, x)
    ensures IsRun(w, acts)
    ensures Run(w, acts) == AfterCommit(Held(w, x, WillHold(w, x)), x)
    decreases w.txs[x].todo
  {
    var tx := w.txs[x];
    if tx.todo == {} {
      acts := [Commit(x)] + [];
      Joined(w, Commit(x), []);
      NothingLeftToHold(w, x);
    } else {
      var k := MinExists(tx.todo);
      VisitStaysReachable(w, x, k);
      var rest := LocksThenCommits(AfterVisit(w, x, k), x);
      VisitHolds(w, x, k);
      acts := [Visit(x, k)] + rest;
      Joined(w, Visit(x, k), rest);
    }
  }

  lemma SpareIs(keys: map<Kid, Option<int>>, k: Kid)
    ensures Spare(keys, k) <==> k in Actives(keys) && exists j :: j in Actives(keys) && j != k
  {
    if Spare(keys, k) {
      var j :| j in keys && j != k && ActiveIn(keys, j);
      assert j in Actives(keys);
    }
    if j :| j in Actives(keys) && j != k && k in Actives(keys) { assert ActiveIn(keys, j); }
  }

  /** With no other retirement holding a row, the Postgres transaction does what the SQLite update does. */
  lemma AloneIsTheGuardedUpdate(w: World, x: TxId, kid: Kid, at: int) returns (acts: seq<Step>)
    requires x !in w.txs && forall k | k in Actives(w.keys) :: Free(w, k)
    ensures IsRun(w, acts) && Run(w, acts) == AfterGuarded(w, kid, at)
  {
    var n := Next(w, BeginRetire(x, kid, at));
    var actives := Actives(w.keys);
    forall k | k in actives ensures Free(n, k) {
      forall y ensures !Locked(n, y, k) { assert !Locked(w, y, k); }
    }
    var rest := LocksThenCommits(n, x);
    assert WillHold(n, x) == actives;
    var held := Held(n, x, actives);
    assert Run(n, rest) == AfterCommit(held, x);
    CommitRetiresIff(held, x);
    GuardedRetiresIff(w, kid, at);
    assert held.txs - {x} == w.txs;
    SpareIs(w.keys, kid);
    acts := [BeginRetire(x, kid, at)] + rest;
    Joined(w, BeginRetire(x, kid, at), rest);
  }

  // ---------------------------------------------------------------------
  // A boot nobody interrupts
  // ---------------------------------------------------------------------

  function Booted(w: World, r: Replica, k: Kid): World {
    var keys := if Actives(w.keys) == {} then w.keys[k := None] else w.keys;
    w.(keys := keys, caches := w.caches[r := keys])
  }

  lemma BootsUnderLock(w: World, v: World, r: Replica, k: Kid) returns (acts: seq<Step>)
    requires r !in w.boots && k !in w.keys && v == w.(lock := Some(r), boots := w.boots[r := Booting]) && w.lock.None?
    ensures IsRun(v, acts) && Run(v, acts) == Booted(w, r, k)
  {
    var w3 := Next(v, BootLoad(r));
    var w4 := Next(w3, BootSave(r, k));
    assert w4.boots - {r} == w.boots;
    Joined(w4, BootSwap(r), []);
    Joined(w3, BootSave(r, k), [BootSwap(r)] + []);
    acts := [BootLoad(r)] + ([BootSave(r, k)] + ([BootSwap(r)] + []));
    Joined(v, BootLoad(r), [BootSave(r, k)] + ([BootSwap(r)] + []));
  }

  /** It caches the table, with a key it generated only if none was active, and leaves the lock free. */
  lemma BootAlone(w: World, r: Replica, k: Kid) returns (acts: seq<Step>)
    requires r !in w.boots && r !in w.caches && w.lock.None? && k !in w.keys
    ensures IsRun(w, acts) && Run(w, acts) == Booted(w, r, k)
  {
    var v := w.(lock := Some(r), boots := w.boots[r := Booting]);
    var rest := BootsUnderLock(w, v, r, k);
    var w1 := Next(w, BeginBoot(r));
    assert Next(w1, TakeLock(r)) == v;
    Joined(w1, TakeLock(r), rest);
    acts := [BeginBoot(r)] + ([TakeLock(r)] + rest);
    Joined(w, BeginBoot(r), [TakeLock(r)] + rest);
  }
}
