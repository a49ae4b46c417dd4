/**
 Retirements and boots over one key table.

 A Postgres retirement locks every active row, in kid order, before it decides;
 under READ COMMITTED a row it had to wait for is judged again as it then is.
 The SQLite retirement is one guarded update.  Saves take no lock.  Booting
 replicas run their load-or-generate under the bootstrap advisory lock.
 */
module KeyStore {
  import opened Sets
  import opened Wrappers

  type Kid = nat
  type TxId = nat
  type Replica = nat

  /** A retirement in progress: rows its snapshot showed active and it has not reached, and rows it holds. */
  datatype Tx = Tx(kid: Kid, at: int, todo: set<Kid>, held: set<Kid>)

  /** A boot waits for the lock, holds it, has loaded the table, and has a set with an active key to cache. */
  datatype Boot = Waiting | Booting | Loaded(found: map<Kid, Option<int>>) | Ready(found: map<Kid, Option<int>>)

  datatype World = World(
    keys: map<Kid, Option<int>>,
    txs: map<TxId, Tx>,
    lock: Option<Replica>,
    boots: map<Replica, Boot>,
    caches: map<Replica, map<Kid, Option<int>>>)

  predicate ActiveIn(keys: map<Kid, Option<int>>, k: Kid) {
    k in keys && keys[k].None?
  }

  function Actives(keys: map<Kid, Option<int>>): set<Kid> {
    set k | k in keys && keys[k].None?
  }

  predicate Locked(w: World, x: TxId, k: Kid) {
    x in w.txs && k in w.txs[x].held
  }

  ghost predicate Free(w: World, k: Kid) {
    forall y :: !Locked(w, y, k)
  }

  predicate Least(k: Kid, s: set<Kid>) {
    k in s && forall j | j in s :: k <= j
  }

  datatype Step =
    | Save(kid: Kid)
    | BeginRetire(x: TxId, kid: Kid, at: int)
    | Visit(x: TxId, k: Kid)
    | Commit(x: TxId)
    | Rollback(x: TxId)
    | RetireGuarded(kid: Kid, at: int)
    | BeginBoot(r: Replica)
    | TakeLock(r: Replica)
    | BootLoad(r: Replica)
    | BootSave(r: Replica, kid: Kid)
    | BootSwap(r: Replica)
    | Reload(r: Replica)
    | Crash(r: Replica)

  ghost predicate Enabled(w: World, a: Step) {
    match a
    case Save(k) => k !in w.keys
    case BeginRetire(x, _, _) => x !in w.txs
    case Visit(x, k) => x in w.txs && Least(k, w.txs[x].todo) && Free(w, k)
    case Commit(x) => x in w.txs && w.txs[x].todo == {}
    case Rollback(x) => x in w.txs
    case RetireGuarded(k, _) => Free(w, k)
    case BeginBoot(r) => r !in w.boots && r !in w.caches
    case TakeLock(r) => r in w.boots && w.boots[r].Waiting? && w.lock.None?
    case BootLoad(r) => r in w.boots && w.boots[r].Booting?
    case BootSave(r, k) => r in w.boots && w.boots[r].Loaded? && k !in w.keys
    case BootSwap(r) => r in w.boots && w.boots[r].Ready?
    case Reload(r) => r in w.caches
    case Crash(_) => true
  }

  /** A row reached after a wait is locked only if it is still active. */
  function AfterVisit(w: World, x: TxId, k: Kid): World
    requires x in w.txs
  {
    var tx := w.txs[x];
    w.(txs := w.txs[x := tx.(todo := tx.todo - {k}, held := if ActiveIn(w.keys, k) then tx.held + {k} else tx.held)])
  }

  /** Retired only when the locked active rows are at least two and kid is one of them. */
  function AfterCommit(w: World, x: TxId): World
    requires x in w.txs
  {
    var tx := w.txs[x];
    w.(keys := if |tx.held| > 1 && tx.kid in tx.held then w.keys[tx.kid := Some(tx.at)] else w.keys, txs := w.txs - {x})
  }

  function AfterGuarded(w: World, k: Kid, at: int): World {
    if ActiveIn(w.keys, k) && exists j ::
      j in w.keys && j != k && w.keys[j].None? then w.(keys := w.keys[k := Some(at)]) else w
  }

  /** A key is generated and saved if none was active when loaded. */
  function AfterBootSave(w: World, r: Replica, k: Kid): World
    requires r in w.boots && w.boots[r].Loaded?
  {
    var found := w.boots[r].found;
    if Actives(found) == {} then w.(keys := w.keys[k := None], boots := w.boots[r := Ready(found[k := None])])
    else w.(boots := w.boots[r := Ready(found)])
  }

  /** The replica caches what it loaded, with the key it saved, and leaves the lock. */
  function AfterBootSwap(w: World, r: Replica): World
    requires r in w.boots && w.boots[r].Ready?
  {
    w.(caches := w.caches[r := w.boots[r].found], boots := w.boots - {r}, lock := None)
  }

  /** A replica may die at any point of its boot or later; the database drops the lock of a dead session. */
  function AfterCrash(w: World, r: Replica): World {
    w.(caches := w.caches - {r}, boots := w.boots - {r}, lock := if w.lock == Some(r) then None else w.lock)
  }

  ghost function Next(w: World, a: Step): World
    requires Enabled(w, a)
  {
    match a
    case Save(k) => w.(keys := w.keys[k := None])
    case BeginRetire(x, kid, at) => w.(txs := w.txs[x := Tx(kid, at, Actives(w.keys), {})])
    case Visit(x, k) => AfterVisit(w, x, k)
    case Commit(x) => AfterCommit(w, x)
    case Rollback(x) => w.(txs := w.txs - {x})
    case RetireGuarded(k, at) => AfterGuarded(w, k, at)
    case BeginBoot(r) => w.(boots := w.boots[r := Waiting])
    case TakeLock(r) => w.(lock := Some(r), boots := w.boots[r := Booting])
    case BootLoad(r) => w.(boots := w.boots[r := Loaded(w.keys)])
    case BootSave(r, k) => AfterBootSave(w, r, k)
    case BootSwap(r) => AfterBootSwap(w, r)
    case Reload(r) => w.(caches := w.caches[r := w.keys])
    case Crash(r) => AfterCrash(w, r)
  }

  // ---------------------------------------------------------------------
  // Never none left
  // ---------------------------------------------------------------------

  /** A held row is active and held by one transaction only. */
  ghost predicate HeldOk(w: World) {
    && (forall x, k | Locked(w, x, k) :: ActiveIn(w.keys, k))
    && (forall x, y, k | Locked(w, x, k) && Locked(w, y, k) :: x == y)
  }

  ghost predicate CachesOk(w: World) {
    forall r | r in w.caches :: Actives(w.caches[r]) != {}
  }

  /** A boot past the lock holds it; what it loaded is still so unless it found a key. */
  ghost predicate BootsOk(w: World) {
    && (forall r | r in w.boots && !w.boots[r].Waiting? :: w.lock == Some(r))
    && (forall r | r in w.boots && w.boots[r].Loaded? && Actives(w.boots[r].found) != {} :: Actives(w.keys) != {})
    && (forall r | r in w.boots && w.boots[r].Ready? :: Actives(w.boots[r].found) != {} && Actives(w.keys) != {})
    && (w.caches != map[] ==> Actives(w.keys) != {})
  }

  ghost predicate Inv(w: World) {
    HeldOk(w) && CachesOk(w) && BootsOk(w)
  }

  lemma TwoHeldLeaveOne(w: World, x: TxId)
    requires HeldOk(w) && x in w.txs && |w.txs[x].held| > 1 && w.txs[x].kid in w.txs[x].held
    ensures Actives(AfterCommit(w, x).keys) != {}
  {
    var tx := w.txs[x];
    assert tx.held != {tx.kid} by { assert |{tx.kid}| == 1; }
    var j :| j in tx.held && j != tx.kid;
    assert Locked(w, x, j);
    assert j in Actives(AfterCommit(w, x).keys);
  }

  lemma CommitKeeps(w: World, x: TxId)
    requires Inv(w) && x in w.txs
    ensures Inv(AfterCommit(w, x)) && (Actives(w.keys) != {} ==> Actives(AfterCommit(w, x).keys) != {})
  {
    var n, tx := AfterCommit(w, x), w.txs[x];
    if |tx.held| > 1 && tx.kid in tx.held {
      TwoHeldLeaveOne(w, x);
      assert Locked(w, x, tx.kid);
    }
    forall y, k | Locked(n, y, k) ensures ActiveIn(n.keys, k) { assert Locked(w, y, k); }
    forall y, z, k | Locked(n, y, k) && Locked(n, z, k) ensures y == z { assert Locked(w, y, k) && Locked(w, z, k); }
  }

  lemma GuardedKeeps(w: World, k: Kid, at: int)
    requires Inv(w) && Free(w, k)
    ensures Inv(AfterGuarded(w, k, at)) && (Actives(w.keys) != {} ==> Actives(AfterGuarded(w, k, at).keys) != {})
  {
    var n := AfterGuarded(w, k, at);
    if n != w {
      var j :| j in w.keys && j != k && w.keys[j].None?;
      assert j in Actives(n.keys);
    }
    forall y, m | Locked(n, y, m) ensures ActiveIn(n.keys, m) { assert Locked(w, y, m); }
    forall y, z, m | Locked(n, y, m) && Locked(n, z, m) ensures y == z { assert Locked(w, y, m) && Locked(w, z, m); }
  }

  lemma VisitKeeps(w: World, x: TxId, k: Kid)
    requires Inv(w) && x in w.txs && Free(w, k)
    ensures Inv(AfterVisit(w, x, k))
  {
    var n := AfterVisit(w, x, k);
    forall y, m | Locked(n, y, m)
      ensures ActiveIn(n.keys, m) { assert Locked(w, y, m) || (m == k && ActiveIn(w.keys, k)); }
    forall y, z, m | Locked(n, y, m) && Locked(n, z, m) ensures y == z {
      assert m == k || (Locked(w, y, m) && Locked(w, z, m));
      assert !Locked(w, y, k) && !Locked(w, z, k);
    }
  }

  lemma TxFrame(w: World, n: World)
    requires HeldOk(w) && (forall k | ActiveIn(w.keys, k) :: ActiveIn(n.keys, k))
    requires forall y, m | Locked(n, y, m) :: Locked(w, y, m)
    ensures HeldOk(n)
  {}

  lemma SaveKeeps(w: World, n: World, k: Kid)
    requires Inv(w) && k !in w.keys && n.txs == w.txs && n.keys == w.keys[k := None]
    ensures HeldOk(n) && Actives(n.keys) == Actives(w.keys) + {k}
  {
    TxFrame(w, n);
  }

  lemma BootSaveKeeps(w: World, r: Replica, k: Kid)
    requires Inv(w) && r in w.boots && w.boots[r].Loaded? && k !in w.keys
    ensures Inv(AfterBootSave(w, r, k)) && Actives(AfterBootSave(w, r, k).keys) != {}
  {
    var n := AfterBootSave(w, r, k);
    if Actives(w.boots[r].found) == {} {
      SaveKeeps(w, n, k);
      assert k in Actives(n.boots[r].found);
    } else {
      TxFrame(w, n);
    }
  }

  lemma BootSwapKeeps(w: World, r: Replica)
    requires Inv(w) && r in w.boots && w.boots[r].Ready?
    ensures Inv(AfterBootSwap(w, r))
  {
    var n := AfterBootSwap(w, r);
    TxFrame(w, n);
    forall q | q in n.boots ensures n.boots[q].Waiting? {
      assert w.boots[q].Waiting? || w.lock == Some(q);
    }
  }

  lemma StepKeeps(w: World, a: Step)
    requires Inv(w) && Enabled(w, a)
    ensures Inv(Next(w, a)) && (Actives(w.keys) != {} ==> Actives(Next(w, a).keys) != {})
  {
    match a
    case Save(k) => SaveKeeps(w, Next(w, a), k);
    case Visit(x, k) => VisitKeeps(w, x, k);
    case Commit(x) => CommitKeeps(w, x);
    case RetireGuarded(k, at) => GuardedKeeps(w, k, at);
    case BootSave(r, k) => BootSaveKeeps(w, r, k);
    case BootSwap(r) => BootSwapKeeps(w, r);
    case _ => TxFrame(w, Next(w, a));
  }

  // ---------------------------------------------------------------------
  // Every interleaving
  // ---------------------------------------------------------------------

  ghost predicate IsRun(w: World, acts: seq<Step>)
    decreases |acts|
  {
    acts == [] || (Enabled(w, acts[0]) && IsRun(Next(w, acts[0]), acts[1..]))
  }

  ghost function Run(w: World, acts: seq<Step>): World
    requires IsRun(w, acts)
    decreases |acts|
  {
    if acts == [] then w else Run(Next(w, acts[0]), acts[1..])
  }

  /**
   Once a keypair is active, every interleaving of saves, retirements of
   either store and boots keeps one active; and every replica that has booted,
   however stale its cache, has an active key to sign with.
   */
  lemma {:induction false} AlwaysAKeyToSignWith(w: World, acts: seq<Step>)
    requires Inv(w) && IsRun(w, acts)
    ensures Inv(Run(w, acts))
    ensures Actives(w.keys) != {} ==> Actives(Run(w, acts).keys) != {}
    ensures forall r | r in Run(w, acts).caches :: Actives(Run(w, acts).caches[r]) != {}
    decreases |acts|
  {
    if acts != [] {
      StepKeeps(w, acts[0]);
      AlwaysAKeyToSignWith(Next(w, acts[0]), acts[1..]);
    }
  }

  // ---------------------------------------------------------------------
  // Locking in kid order never deadlocks
  // ---------------------------------------------------------------------

  /** What x holds, it passed before what it has still to visit. */
  ghost predicate InOrder(w: World) {
    forall x, h, t | x in w.txs && h in w.txs[x].held && t in w.txs[x].todo :: h < t
  }

  lemma {:induction false} RunKeepsOrder(w: World, acts: seq<Step>)
    requires InOrder(w) && IsRun(w, acts)
    ensures InOrder(Run(w, acts))
    decreases |acts|
  {
    if acts != [] {
      RunKeepsOrder(Next(w, acts[0]), acts[1..]);
    }
  }

  ghost predicate CanMove(w: World, x: TxId) {
    x in w.txs && (Enabled(w, Commit(x)) || exists k :: Enabled(w, Visit(x, k)))
  }

  lemma MinExists(s: set<Kid>) returns (m: Kid)
    requires s != {}
    ensures Least(m, s)
  {
    m :| m in s;
    if s != {m} {
      var rest := s - {m};
      var n := MinExists(rest);
      assert s == rest + {m};
      if n < m { m := n; }
    }
  }

  /** The transaction holding the greatest held row waits for nobody: it can take its next row or commit. */
  lemma SomeRetirementCanMove(w: World, x: TxId)
    requires InOrder(w) && x in w.txs
    ensures exists y :: CanMove(w, y)
    decreases Headroom(w, x)
  {
    var tx := w.txs[x];
    if tx.todo == {} {
      assert CanMove(w, x);
    } else {
      var k := MinExists(tx.todo);
      if Free(w, k) {
        assert Enabled(w, Visit(x, k));
        assert CanMove(w, x);
      } else {
        var y :| Locked(w, y, k);
        HeadroomShrinks(w, x, y, k);
        SomeRetirementCanMove(w, y);
      }
    }
  }

  /** Rows held by anyone that lie at or above the next row x wants. */
  ghost function Headroom(w: World, x: TxId): nat {
    if x !in w.txs || w.txs[x].todo == {} then 0 else |Wanted(w, x)| + 1
  }

  ghost function AllTodo(w: World, xs: set<TxId>): set<Kid>
    requires xs <= w.txs.Keys
  {
    if xs == {} then {} else
      var x :| x in xs;
      w.txs[x].todo + AllTodo(w, xs - {x})
  }

  lemma {:induction false} AllTodoContains(w: World, xs: set<TxId>, x: TxId)
    requires xs <= w.txs.Keys && x in xs
    ensures w.txs[x].todo <= AllTodo(w, xs)
  {
    var y :| y in xs && AllTodo(w, xs) == w.txs[y].todo + AllTodo(w, xs - {y});
    if y != x { AllTodoContains(w, xs - {y}, x); }
  }

  /** Everything anyone still has to visit, from the least row x has still to visit on. */
  ghost function Wanted(w: World, x: TxId): set<Kid>
    requires x in w.txs
  {
    set t | t in AllTodo(w, w.txs.Keys) && exists h: Kid :: Least(h, w.txs[x].todo) && h <= t
  }

  lemma HeadroomShrinks(w: World, x: TxId, y: TxId, k: Kid)
    requires InOrder(w) && x in w.txs && Least(k, w.txs[x].todo) && Locked(w, y, k)
    ensures Headroom(w, y) < Headroom(w, x)
  {
    if w.txs[y].todo != {} {
      AllTodoContains(w, w.txs.Keys, x);
      assert k in Wanted(w, x);
      forall t | t in Wanted(w, y) ensures t in Wanted(w, x) && t != k {
        var h: Kid :| Least(h, w.txs[y].todo) && h <= t;
        assert k in w.txs[y].held && k < h;
      }
      assert Wanted(w, y) <= Wanted(w, x) - {k};
      SubsetIsSmaller(Wanted(w, y), Wanted(w, x) - {k});
    }
  }

  // ---------------------------------------------------------------------
  // Booting together on an empty store
  // ---------------------------------------------------------------------

  predicate Boots(a: Step) {
    a.BeginBoot? || a.TakeLock? || a.BootLoad? || a.BootSave? || a.BootSwap? || a.Reload? || a.Crash?
  }

  /** One key at most, active; whoever is past loading knows exactly the table, and has a key once ready. */
  ghost predicate BootInv(w: World) {
    && |w.keys| <= 1 && (forall k | k in w.keys :: w.keys[k].None?)
    && (forall r | r in w.boots && !w.boots[r].Waiting? :: w.lock == Some(r))
    && (forall r | r in w.boots && (w.boots[r].Loaded? || w.boots[r].Ready?) :: w.boots[r].found == w.keys)
    && (forall r | r in w.boots && w.boots[r].Ready? :: |w.keys| == 1)
    && (w.caches != map[] ==> |w.keys| == 1)
    && (forall r | r in w.caches :: w.caches[r] == w.keys)
  }

  lemma SaveKeepsOneKey(w: World, r: Replica, k: Kid)
    requires BootInv(w) && r in w.boots && w.boots[r].Loaded? && k !in w.keys
    ensures BootInv(AfterBootSave(w, r, k))
  {
    var n := AfterBootSave(w, r, k);
    if w.keys != map[] {
      var j :| j in w.keys;
      assert j in Actives(w.keys);
    } else {
      assert n.keys.Keys == {k};
      assert |n.keys.Keys| == |n.keys|;
    }
    forall q | q in n.boots && !n.boots[q].Waiting? ensures q == r { assert w.lock == Some(q); }
  }

  lemma SwapKeepsOneKey(w: World, r: Replica)
    requires BootInv(w) && r in w.boots && w.boots[r].Ready?
    ensures BootInv(AfterBootSwap(w, r))
  {
    forall q | q in AfterBootSwap(w, r).boots ensures w.boots[q].Waiting? { assert w.lock == Some(r); }
  }

  lemma BootStepKeeps(w: World, a: Step)
    requires BootInv(w) && Enabled(w, a) && Boots(a)
    ensures BootInv(Next(w, a))
  {
    match a
    case BootSave(r, k) => SaveKeepsOneKey(w, r, k);
    case BootSwap(r) => SwapKeepsOneKey(w, r);
    case _ =>
  }

  /** Replicas that boot together on an empty store agree on one key: whoever has booted caches exactly it. */
  lemma {:induction false} BootTogetherOneKey(w: World, acts: seq<Step>)
    requires BootInv(w) && IsRun(w, acts) && forall i | 0 <= i < |acts| :: Boots(acts[i])
    ensures BootInv(Run(w, acts))
    ensures Run(w, acts).caches != map[] ==> |Run(w, acts).keys| == 1 && forall r | r in Run(w, acts).caches ::
      Run(w, acts).caches[r] == Run(w, acts).keys
    decreases |acts|
  {
    if acts != [] {
      BootStepKeeps(w, acts[0]);
      BootTogetherOneKey(Next(w, acts[0]), acts[1..]);
    }
  }

  lemma EmptyStoreBoots(w: World)
    requires w == World(map[], map[], None, map[], map[])
    ensures BootInv(w) && Inv(w) && InOrder(w)
  {}
}
