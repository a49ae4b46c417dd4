/**
 The Postgres store's rotations and revocations as the statements they are:
 READ COMMITTED transactions over row locks.

 `Db.world` holds what is committed.  A transaction keeps its own uncommitted
 writes and its locks, and a commit applies those writes and nothing else.
 The refinement below shows that each commit is then one atomic step of
 `RefreshSessions`, which is where `refresh_families` earns its keep: without
 the lock on it the revocation's snapshot could miss a child being saved.
 */
module RefreshTransactions {
  import opened Wrappers
  import opened RefreshSessions
  import opened RefreshInvariants
  import opened RefreshTheorems

  type TxId = nat

  /**
   `Saver` is SaveRefresh for the grant `pid`: before its lockFamily loop has
   returned, holding the family's committed row FOR SHARE, or holding the
   row it inserted itself; `inserted` is its refresh_tokens INSERT.

   `LockingFamilies` and `LockingTokens` are RevokeRefreshFamily or
   revokeFamiliesWhere: it locks the family rows it has matched one at a time,
   in family_id order, then takes the snapshot of the UPDATE over
   refresh_tokens, then locks and stamps those rows one at a time.
   */
  datatype Tx =
    | SaverWaiting(pid: Pid)
    | Saver(pid: Pid, created: bool, inserted: bool)
    | LockingFamilies(onBehalf: Option<Pid>, at: int, families: set<FamilyId>, todo: set<FamilyId>)
    | LockingTokens(onBehalf: Option<Pid>, at: int, families: set<FamilyId>, snapshot: set<Token>, stamped: set<Token>)

  datatype Db = Db(world: World, txs: map<TxId, Tx>)

  predicate Saves(tx: Tx) {
    tx.SaverWaiting? || tx.Saver?
  }

  predicate Revokes(tx: Tx) {
    tx.LockingFamilies? || tx.LockingTokens?
  }

  /** A request ends only after its own transaction has. */
  predicate RunsFor(tx: Tx, p: Pid) {
    if Saves(tx) then tx.pid == p else tx.onBehalf == Some(p)
  }

  /** The family a saving transaction is about. */
  function FamilyOf(d: Db, tx: Tx): FamilyId
    requires Saves(tx) && tx.pid in d.world.grants && d.world.grants[tx.pid].Saving?
  {
    d.world.grants[tx.pid].family
  }

  ghost predicate Alive(d: Db, tx: Tx) {
    if Saves(tx) then tx.pid in d.world.grants && d.world.grants[tx.pid].Saving?
    else tx.onBehalf.Some? ==>
      var p := tx.onBehalf.value;
      && p in d.world.grants && d.world.grants[p].Revoking? && tx.at == d.world.grants[p].now
      && tx.families <= {d.world.grants[p].family} && (tx.LockingFamilies? ==> tx.todo <= {d.world.grants[p].family})
      && (tx.LockingTokens? ==> tx.families == {d.world.grants[p].family})
  }

  // ---------------------------------------------------------------------
  // Locks
  // ---------------------------------------------------------------------

  ghost predicate ShareLocked(d: Db, x: TxId, f: FamilyId) {
    x in d.txs && d.txs[x].Saver? && !d.txs[x].created && Alive(d, d.txs[x]) && FamilyOf(d, d.txs[x]) == f
  }

  /** An uncommitted insert of f's row: invisible to readers, and a second insert waits for it. */
  ghost predicate Inserted(d: Db, x: TxId, f: FamilyId) {
    x in d.txs && d.txs[x].Saver? && d.txs[x].created && Alive(d, d.txs[x]) && FamilyOf(d, d.txs[x]) == f
  }

  predicate UpdateLocked(txs: map<TxId, Tx>, x: TxId, f: FamilyId) {
    x in txs && Revokes(txs[x]) && f in txs[x].families
  }

  ghost predicate TokenLocked(d: Db, x: TxId, t: Token) {
    x in d.txs && d.txs[x].LockingTokens? && t in d.txs[x].stamped
  }

  ghost predicate FreeToShare(txs: map<TxId, Tx>, f: FamilyId) {
    forall y :: !UpdateLocked(txs, y, f)
  }

  ghost predicate FreeToUpdate(d: Db, f: FamilyId) {
    FreeToShare(d.txs, f) && forall y :: !ShareLocked(d, y, f)
  }

  ghost predicate FreeToken(d: Db, t: Token) {
    forall y :: !TokenLocked(d, y, t)
  }

  // ---------------------------------------------------------------------
  // Steps
  // ---------------------------------------------------------------------

  datatype Step =
    | Other(a: Action)
    | BeginSave(x: TxId, pid: Pid)
    | LockFamily(x: TxId)
    | InsertFamily(x: TxId)
    | InsertToken(x: TxId)
    | CommitSave(x: TxId)
    | BeginRevoke(x: TxId, onBehalf: Option<Pid>, at: int, matched: set<FamilyId>)
    | UpdateFamily(x: TxId, f: FamilyId)
    | SkipFamily(x: TxId, f: FamilyId)
    | UnknownFamily(x: TxId)
    | TakeSnapshot(x: TxId)
    | StampToken(x: TxId, t: Token)
    | CommitRevoke(x: TxId)
    | Rollback(x: TxId)

  /** Single statements that wait on the row locks transactions hold. */
  ghost predicate Unblocked(d: Db, a: Action) {
    match a
    case Save(_) => false
    case RevokeOwn(_) => false
    case RevokeMany(_, _) => false
    case Consume(p, _) => p in d.world.grants && d.world.grants[p].Presenting? && FreeToken(d, d.world.grants[p].token)
    case Abandon(p) => forall x | x in d.txs :: !RunsFor(d.txs[x], p)
    case Reap(fs, _, _) => forall f | f in fs :: FreeToUpdate(d, f)
    case _ => true
  }

  /** The family a grant asked to have revoked. */
  ghost function Target(d: Db, tx: Tx): FamilyId
    requires Revokes(tx) && tx.onBehalf.Some? && Alive(d, tx)
  {
    d.world.grants[tx.onBehalf.value].family
  }

  ghost predicate CanStep(d: Db, s: Step)
    requires AllAlive(d)
  {
    match s
    case Other(a) => Unblocked(d, a) && Guarded(d.world, a)
    case BeginSave(x, p) =>
      x !in d.txs && p in d.world.grants && d.world.grants[p].Saving? && forall y | y in d.txs :: !RunsFor(d.txs[y], p)
    case LockFamily(x) =>
      x in d.txs && d.txs[x].SaverWaiting? && Alive(d, d.txs[x]) &&
      var f := FamilyOf(d, d.txs[x]); f in d.world.store.families && FreeToShare(d.txs, f)
    case InsertFamily(x) =>
      x in d.txs && d.txs[x].SaverWaiting? && Alive(d, d.txs[x]) &&
      var f := FamilyOf(d, d.txs[x]); f !in d.world.store.families && forall y :: !Inserted(d, y, f)
    case InsertToken(x) => x in d.txs && d.txs[x].Saver? && !d.txs[x].inserted
    case CommitSave(x) => x in d.txs && d.txs[x].Saver? && d.txs[x].inserted
    case BeginRevoke(x, b, at, matched) =>
      && x !in d.txs
      && (b.Some? ==>
            && b.value in d.world.grants && d.world.grants[b.value].Revoking?
            && d.world.grants[b.value].now == at && matched == {d.world.grants[b.value].family}
            && forall y | y in d.txs :: !RunsFor(d.txs[y], b.value))
    case UpdateFamily(x, f) =>
      && x in d.txs && d.txs[x].LockingFamilies? && Least(f, d.txs[x].todo)
      && f in d.world.store.families && FreeToUpdate(d, f)
    case SkipFamily(x, f) =>
      && x in d.txs && d.txs[x].LockingFamilies? && d.txs[x].onBehalf.None? && Least(f, d.txs[x].todo)
      && f !in d.world.store.families
    case UnknownFamily(x) =>
      x in d.txs && d.txs[x].LockingFamilies? && d.txs[x].onBehalf.Some?
        && Target(d, d.txs[x]) !in d.world.store.families
    case TakeSnapshot(x) => x in d.txs && d.txs[x].LockingFamilies? && d.txs[x].todo == {}
    case StampToken(x, t) =>
      x in d.txs && d.txs[x].LockingTokens? && t in d.txs[x].snapshot && t !in d.txs[x].stamped && FreeToken(d, t)
    case CommitRevoke(x) => x in d.txs && d.txs[x].LockingTokens? && d.txs[x].snapshot <= d.txs[x].stamped
    case Rollback(x) => x in d.txs
  }

  predicate Least(f: FamilyId, fs: set<FamilyId>) {
    f in fs && forall g | g in fs :: f <= g
  }

  function Finish(d: Db, x: TxId): Db {
    d.(txs := d.txs - {x})
  }

  /** lockFamily's answer: a revoked family rolls the save back, and the grant is refused. */
  function AfterLockFamily(d: Db, x: TxId): Db
    requires x in d.txs && d.txs[x].SaverWaiting? && d.txs[x].pid in d.world.grants
      && d.world.grants[d.txs[x].pid].Saving?
  {
    var p := d.txs[x].pid;
    if Revoked(d.world.store, d.world.grants[p].family) then
      Finish(d, x).(world := Drop(d.world, p))
    else
      d.(txs := d.txs[x := Saver(p, false, false)])
  }

  /** The transaction's own writes become visible: the token it inserted, and the family row if it inserted that. */
  function AfterCommitSave(d: Db, x: TxId): Db
    requires x in d.txs && d.txs[x].Saver? && d.txs[x].pid in d.world.grants && d.world.grants[d.txs[x].pid].Saving?
  {
    var tx := d.txs[x];
    var w := d.world;
    var g := w.grants[tx.pid];
    var store := w.store.(tokens := w.store.tokens[g.child := g.row],
                          families := if tx.created then w.store.families[g.family := None] else w.store.families);
    Finish(d, x).(world := Put(w.(store := store, owner := w.owner[g.family := ByToken(g.child)],
      uses := w.uses[FromToken(g.child) := Unused]),
                               tx.pid, Saved(g.cred, g.now, g.family, g.child)))
  }

  /** The rows it stamped, and only those, become revoked; so do the family rows it locked. */
  function CommittedRevocation(s: Store, tx: Tx): Store
    requires tx.LockingTokens?
  {
    s.(tokens := map t | t in s.tokens :: if t in tx.stamped then StampRevoked(s.tokens[t], tx.at) else s.tokens[t],
       families := map f | f in s.families ::
         if f in tx.families && s.families[f].None? then Some(tx.at) else s.families[f])
  }

  function AfterCommitRevoke(d: Db, x: TxId): Db
    requires x in d.txs && d.txs[x].LockingTokens?
    requires d.txs[x].onBehalf.Some? ==>
      d.txs[x].onBehalf.value in d.world.grants && d.world.grants[d.txs[x].onBehalf.value].Revoking?
  {
    var tx := d.txs[x];
    var w := d.world.(store := CommittedRevocation(d.world.store, tx), ended := d.world.ended + tx.families);
    if tx.onBehalf.Some? then
      var p := tx.onBehalf.value;
      Finish(d, x).(world := Drop(w.(answers := w.answers + [SessionRevoked(p, w.grants[p].family)]), p))
    else
      Finish(d, x).(world := w)
  }

  /** What the UPDATE over refresh_tokens sees when it starts: committed, unrevoked rows of the locked families. */
  function Visible(s: Store, fs: set<FamilyId>): set<Token> {
    set t | t in s.tokens && s.tokens[t].family in fs && s.tokens[t].revokedAt.None?
  }

  function WithFamily(tx: Tx, f: FamilyId): Tx
    requires tx.LockingFamilies?
  {
    LockingFamilies(tx.onBehalf, tx.at, tx.families + {f}, tx.todo - {f})
  }

  ghost function StepTo(d: Db, s: Step): Db
    requires AllAlive(d) && CanStep(d, s)
  {
    match s
    case Other(a) => d.(world := Next(d.world, a))
    case BeginSave(x, p) => d.(txs := d.txs[x := SaverWaiting(p)])
    case LockFamily(x) => AfterLockFamily(d, x)
    case InsertFamily(x) => d.(txs := d.txs[x := Saver(d.txs[x].pid, true, false)])
    case InsertToken(x) => d.(txs := d.txs[x := d.txs[x].(inserted := true)])
    case CommitSave(x) => AfterCommitSave(d, x)
    case BeginRevoke(x, b, at, matched) => d.(txs := d.txs[x := LockingFamilies(b, at, {}, matched)])
    case UpdateFamily(x, f) => d.(txs := d.txs[x := WithFamily(d.txs[x], f)])
    case SkipFamily(x, f) => d.(txs := d.txs[x := d.txs[x].(todo := d.txs[x].todo - {f})])
    case UnknownFamily(x) => Finish(d, x).(world := Drop(d.world, d.txs[x].onBehalf.value))
    case TakeSnapshot(x) =>
      var tx := d.txs[x];
      d.(txs := d.txs[x := LockingTokens(tx.onBehalf, tx.at, tx.families, Visible(d.world.store, tx.families), {})])
    case StampToken(x, t) => d.(txs := d.txs[x := d.txs[x].(stamped := d.txs[x].stamped + {t})])
    case CommitRevoke(x) => AfterCommitRevoke(d, x)
    case Rollback(x) => Finish(d, x)
  }

  ghost predicate AllAlive(d: Db) {
    forall x | x in d.txs :: Alive(d, d.txs[x])
  }

  // ---------------------------------------------------------------------
  // What the locks keep
  // ---------------------------------------------------------------------

  /** A share lock keeps its family present and unrevoked; an uncommitted insert is of a row not there. */
  ghost predicate SaverOk(d: Db, tx: Tx) {
    tx.Saver? && Alive(d, tx) ==>
      var f := FamilyOf(d, tx);
      if tx.created then f !in d.world.store.families
      else f in d.world.store.families && !Revoked(d.world.store, f)
  }

  /** An update lock keeps the family present and, once the snapshot is taken, complete; locks are taken in order. */
  ghost predicate RevokerOk(d: Db, tx: Tx) {
    Revokes(tx) ==>
      && tx.families <= d.world.store.families.Keys
      && (tx.LockingFamilies? ==> forall g, h | g in tx.families && h in tx.todo :: g < h)
      && (tx.LockingFamilies? && tx.onBehalf.Some? && Alive(d, tx) ==> tx.families + tx.todo == {Target(d, tx)})
      && (tx.LockingTokens? ==> tx.snapshot == Visible(d.world.store, tx.families) && tx.stamped <= tx.snapshot)
  }

  /** Locks that conflict are not both held, and a request has one transaction at a time. */
  ghost predicate Apart(d: Db, s: Tx, t: Tx) {
    && (Saves(s) && Saves(t) ==> s.pid != t.pid)
    && (Revokes(s) && Revokes(t) ==> s.families !! t.families && (s.onBehalf.Some? ==> s.onBehalf != t.onBehalf))
    && (s.Saver? && !s.created && Alive(d, s) && Revokes(t) ==> FamilyOf(d, s) !in t.families)
  }

  ghost predicate TxOk(d: Db, tx: Tx) {
    SaverOk(d, tx) && RevokerOk(d, tx)
  }

  ghost predicate LocksOk(d: Db) {
    && (forall x | x in d.txs :: TxOk(d, d.txs[x]))
    && (forall x, y | x in d.txs && y in d.txs && x != y :: Apart(d, d.txs[x], d.txs[y]))
  }

  ghost predicate DbInv(d: Db) {
    Inv(d.world) && AllAlive(d) && LocksOk(d)
  }

  // ---------------------------------------------------------------------
  // Each commit is one atomic step
  // ---------------------------------------------------------------------

  lemma CommitSaveIsSave(d: Db, x: TxId)
    requires DbInv(d) && CanStep(d, CommitSave(x))
    ensures AfterCommitSave(d, x).world == AfterSave(d.world, d.txs[x].pid)
  {}

  /** The snapshot was complete and every row in it was stamped, so no unrevoked token of the families is left. */
  lemma CommitRevokeIsRevoke(d: Db, x: TxId)
    requires DbInv(d) && CanStep(d, CommitRevoke(x))
    ensures CommittedRevocation(d.world.store, d.txs[x]) == RevokeIn(d.world.store, d.txs[x].families, d.txs[x].at)
  {}

  /** The atomic step a transaction step amounts to; None when nothing has been committed or answered. */
  ghost function Atomic(d: Db, s: Step): Option<Action>
    requires AllAlive(d) && CanStep(d, s)
  {
    match s
    case Other(a) => Some(a)
    case LockFamily(x) => if Revoked(d.world.store, FamilyOf(d, d.txs[x])) then Some(Save(d.txs[x].pid)) else None
    case CommitSave(x) => Some(Save(d.txs[x].pid))
    case CommitRevoke(x) =>
      Some(if d.txs[x].onBehalf.Some? then RevokeOwn(d.txs[x].onBehalf.value)
        else RevokeMany(d.txs[x].families, d.txs[x].at))
    case UnknownFamily(x) => Some(RevokeOwn(d.txs[x].onBehalf.value))
    case _ => None
  }

  lemma StepRefines(d: Db, s: Step)
    requires DbInv(d) && CanStep(d, s)
    ensures match Atomic(d, s)
            case None => StepTo(d, s).world == d.world
            case Some(a) => Guarded(d.world, a) && StepTo(d, s).world == Next(d.world, a)
  {
    match s
    case CommitSave(x) => CommitSaveIsSave(d, x);
    case CommitRevoke(x) =>
      assert TxOk(d, d.txs[x]);
      CommitRevokeIsRevoke(d, x);
    case _ =>
  }

  // ---------------------------------------------------------------------
  // The locks are kept
  // ---------------------------------------------------------------------

  /** The families and their unrevoked tokens, for the families in fs, are as they were. */
  ghost predicate SameRows(s: Store, t: Store, fs: set<FamilyId>) {
    && Visible(t, fs) == Visible(s, fs)
    && forall f | f in fs ::
         && (f in t.families <==> f in s.families)
         && (f in s.families ==> t.families[f] == s.families[f])
  }

  lemma ConsumeFrame(w: World, p: Pid, policy: Policy, fs: set<FamilyId>)
    requires p in w.grants && w.grants[p].Presenting?
    ensures SameRows(w.store, AfterConsume(w, p, policy).store, fs)
  {}

  lemma ReapFrame(w: World, gone: set<FamilyId>, fs: set<FamilyId>)
    requires gone !! fs
    ensures SameRows(w.store, WithoutFamilies(w.store, gone), fs)
  {}

  lemma CodeFrame(w: World, p: Pid, bound: bool, authTime: int, fs: set<FamilyId>)
    requires p in w.grants && w.grants[p].Redeeming?
    ensures SameRows(w.store, AfterConsumeCode(w, p, bound, authTime).store, fs)
  {}

  /** A single statement leaves alone the rows of every family it does not reap. */
  lemma OtherFrame(w: World, a: Action, fs: set<FamilyId>)
    requires Guarded(w, a) && !a.Save? && !a.RevokeOwn? && !a.RevokeMany? && (a.Reap? ==> a.families !! fs)
    ensures SameRows(w.store, Next(w, a).store, fs)
  {
    match a
    case Consume(p, policy) => ConsumeFrame(w, p, policy, fs);
    case ConsumeCode(p, bound, authTime) => CodeFrame(w, p, bound, authTime, fs);
    case Reap(gone, _, _) => ReapFrame(w, gone, fs);
    case _ =>
  }

  lemma OtherKeepsGrant(w: World, a: Action, p: Pid)
    requires Guarded(w, a) && !a.Save? && !a.RevokeOwn? && a != Abandon(p)
    requires p in w.grants && (w.grants[p].Saving? || w.grants[p].Revoking?)
    ensures p in Next(w, a).grants && Next(w, a).grants[p] == w.grants[p]
  {
    if Moves(a) { StepMovesOnly(w, a); }
  }

  lemma OtherKeepsAlive(d: Db, a: Action, x: TxId)
    requires DbInv(d) && CanStep(d, Other(a)) && x in d.txs
    ensures Alive(StepTo(d, Other(a)), d.txs[x])
    ensures Saves(d.txs[x]) ==> FamilyOf(StepTo(d, Other(a)), d.txs[x]) == FamilyOf(d, d.txs[x])
  {
    var tx := d.txs[x];
    if Saves(tx) { OtherKeepsGrant(d.world, a, tx.pid); }
    else if tx.onBehalf.Some? { OtherKeepsGrant(d.world, a, tx.onBehalf.value); }
  }

  lemma OtherKeepsLocks(d: Db, a: Action)
    requires DbInv(d) && CanStep(d, Other(a))
    ensures AllAlive(StepTo(d, Other(a))) && LocksOk(StepTo(d, Other(a)))
  {
    var e := StepTo(d, Other(a));
    assert e.txs == d.txs;
    forall x | x in e.txs ensures Alive(e, e.txs[x]) && TxOk(e, e.txs[x]) {
      OtherKeepsAlive(d, a, x);
      assert TxOk(d, d.txs[x]);
      OtherKeepsTx(d, a, x);
    }
    forall x, y | x in e.txs && y in e.txs && x != y ensures Apart(e, e.txs[x], e.txs[y]) {
      assert Apart(d, d.txs[x], d.txs[y]);
      OtherKeepsAlive(d, a, x);
    }
  }

  lemma NoFamilyAppears(w: World, a: Action, f: FamilyId)
    requires Guarded(w, a) && !a.Save? && f !in w.store.families
    ensures f !in Next(w, a).store.families
  {
    if !a.RevokeOwn? && !a.RevokeMany? && (a.Reap? ==> f !in a.families) { OtherFrame(w, a, {f}); }
  }

  lemma OtherKeepsTx(d: Db, a: Action, x: TxId)
    requires DbInv(d) && CanStep(d, Other(a)) && x in d.txs && TxOk(d, d.txs[x]) && Alive(StepTo(d, Other(a)), d.txs[x])
    ensures TxOk(StepTo(d, Other(a)), d.txs[x])
  {
    var e, tx := StepTo(d, Other(a)), d.txs[x];
    if Saves(tx) {
      OtherKeepsGrant(d.world, a, tx.pid);
      assert tx.Saver? && !tx.created ==> ShareLocked(d, x, FamilyOf(d, tx));
      if tx.Saver? && !tx.created { OtherFrame(d.world, a, {FamilyOf(d, tx)}); }
      if tx.Saver? && tx.created { NoFamilyAppears(d.world, a, FamilyOf(d, tx)); }
    } else {
      assert forall f | f in tx.families :: UpdateLocked(d.txs, x, f);
      OtherFrame(d.world, a, tx.families);
    }
  }

  lemma SetKeeps(d: Db, x: TxId, tx: Tx)
    requires AllAlive(d) && LocksOk(d) && Alive(d, tx) && TxOk(d, tx)
    requires forall y | y in d.txs && y != x :: Apart(d, tx, d.txs[y]) && Apart(d, d.txs[y], tx)
    ensures AllAlive(d.(txs := d.txs[x := tx])) && LocksOk(d.(txs := d.txs[x := tx]))
  {}

  lemma FinishKeeps(d: Db, x: TxId)
    requires AllAlive(d) && LocksOk(d)
    ensures AllAlive(Finish(d, x)) && LocksOk(Finish(d, x))
  {}

  /** A grant no transaction runs for may go. */
  lemma DropKeepsLocks(d: Db, p: Pid)
    requires AllAlive(d) && LocksOk(d) && forall x | x in d.txs :: !RunsFor(d.txs[x], p)
    ensures AllAlive(d.(world := Drop(d.world, p))) && LocksOk(d.(world := Drop(d.world, p)))
  {}

  predicate OfSaver(s: Step) {
    s.BeginSave? || s.LockFamily? || s.InsertFamily? || s.InsertToken?
  }

  predicate OfRevoker(s: Step) {
    s.BeginRevoke? || s.UpdateFamily? || s.SkipFamily? || s.UnknownFamily? || s.TakeSnapshot? || s.StampToken?
      || s.Rollback?
  }

  lemma LockFamilyKeepsLocks(d: Db, x: TxId)
    requires DbInv(d) && CanStep(d, LockFamily(x))
    ensures AllAlive(AfterLockFamily(d, x)) && LocksOk(AfterLockFamily(d, x))
  {
    var p := d.txs[x].pid;
    var f := FamilyOf(d, d.txs[x]);
    if Revoked(d.world.store, f) {
      FinishKeeps(d, x);
      DropKeepsLocks(Finish(d, x), p);
    } else {
      assert forall y | y in d.txs && Revokes(d.txs[y]) :: UpdateLocked(d.txs, y, f) || f !in d.txs[y].families;
      SetKeeps(d, x, Saver(p, false, false));
    }
  }

  lemma SaverStepKeepsLocks(d: Db, s: Step)
    requires DbInv(d) && CanStep(d, s) && OfSaver(s)
    ensures AllAlive(StepTo(d, s)) && LocksOk(StepTo(d, s))
  {
    match s
    case BeginSave(x, p) => SetKeeps(d, x, SaverWaiting(p));
    case LockFamily(x) => LockFamilyKeepsLocks(d, x);
    case InsertFamily(x) => SetKeeps(d, x, Saver(d.txs[x].pid, true, false));
    case InsertToken(x) =>
      assert TxOk(d, d.txs[x]);
      SetKeeps(d, x, d.txs[x].(inserted := true));
  }

  lemma RevokerStepKeepsLocks(d: Db, s: Step)
    requires DbInv(d) && CanStep(d, s) && OfRevoker(s)
    ensures AllAlive(StepTo(d, s)) && LocksOk(StepTo(d, s))
  {
    match s
    case BeginRevoke(x, b, at, matched) => SetKeeps(d, x, LockingFamilies(b, at, {}, matched));
    case UpdateFamily(x, f) => UpdateFamilyKeepsLocks(d, x, f);
    case SkipFamily(x, f) =>
      assert TxOk(d, d.txs[x]);
      SetKeeps(d, x, d.txs[x].(todo := d.txs[x].todo - {f}));
    case TakeSnapshot(x) =>
      var tx := d.txs[x];
      assert TxOk(d, tx);
      SetKeeps(d, x, LockingTokens(tx.onBehalf, tx.at, tx.families, Visible(d.world.store, tx.families), {}));
    case StampToken(x, t) =>
      assert TxOk(d, d.txs[x]);
      SetKeeps(d, x, d.txs[x].(stamped := d.txs[x].stamped + {t}));
    case UnknownFamily(x) => UnknownFamilyKeepsLocks(d, x);
    case Rollback(x) => FinishKeeps(d, x);
  }

  lemma UnknownFamilyKeepsLocks(d: Db, x: TxId)
    requires DbInv(d) && CanStep(d, UnknownFamily(x))
    ensures var e := Finish(d, x).(world := Drop(d.world, d.txs[x].onBehalf.value)); AllAlive(e) && LocksOk(e)
  {
    FinishKeeps(d, x);
    DropKeepsLocks(Finish(d, x), d.txs[x].onBehalf.value);
  }

  lemma UpdateFamilyKeepsLocks(d: Db, x: TxId, f: FamilyId)
    requires DbInv(d) && CanStep(d, UpdateFamily(x, f))
    ensures AllAlive(StepTo(d, UpdateFamily(x, f))) && LocksOk(StepTo(d, UpdateFamily(x, f)))
  {
    var tx := d.txs[x];
    var tx' := WithFamily(tx, f);
    assert TxOk(d, tx);
    forall y | y in d.txs && y != x ensures Apart(d, tx', d.txs[y]) && Apart(d, d.txs[y], tx') {
      assert Apart(d, tx, d.txs[y]) && Apart(d, d.txs[y], tx);
      assert !UpdateLocked(d.txs, y, f) && !ShareLocked(d, y, f);
    }
    SetKeeps(d, x, tx');
  }

  lemma CommitSaveKeepsTx(d: Db, x: TxId, y: TxId)
    requires DbInv(d) && CanStep(d, CommitSave(x)) && y in d.txs && y != x
    ensures Alive(AfterCommitSave(d, x), d.txs[y]) && TxOk(AfterCommitSave(d, x), d.txs[y])
    ensures Saves(d.txs[y]) ==> FamilyOf(AfterCommitSave(d, x), d.txs[y]) == FamilyOf(d, d.txs[y])
  {}

  lemma CommitSaveKeepsLocks(d: Db, x: TxId)
    requires DbInv(d) && CanStep(d, CommitSave(x))
    ensures AllAlive(AfterCommitSave(d, x)) && LocksOk(AfterCommitSave(d, x))
  {
    var e := AfterCommitSave(d, x);
    forall y | y in e.txs ensures Alive(e, e.txs[y]) && TxOk(e, e.txs[y]) {
      CommitSaveKeepsTx(d, x, y);
    }
    forall y, z | y in e.txs && z in e.txs && y != z ensures Apart(e, e.txs[y], e.txs[z]) {
      assert Apart(d, d.txs[y], d.txs[z]);
      CommitSaveKeepsTx(d, x, y);
    }
  }

  lemma CommitRevokeKeepsLocks(d: Db, x: TxId)
    requires DbInv(d) && CanStep(d, CommitRevoke(x))
    ensures AllAlive(AfterCommitRevoke(d, x)) && LocksOk(AfterCommitRevoke(d, x))
  {
    var e, tx := AfterCommitRevoke(d, x), d.txs[x];
    assert TxOk(d, tx);
    assert e.world.store == CommittedRevocation(d.world.store, tx);
    forall y | y in e.txs ensures Alive(e, e.txs[y]) && TxOk(e, e.txs[y]) {
      var u := d.txs[y];
      assert TxOk(d, u) && Apart(d, tx, u) && Apart(d, u, tx);
      if Revokes(u) { RevocationsCommute(d.world.store, tx, u.families); }
    }
    forall y, z | y in e.txs && z in e.txs && y != z ensures Apart(e, e.txs[y], e.txs[z]) {
      assert Apart(d, d.txs[y], d.txs[z]);
    }
  }

  lemma RevocationsCommute(s: Store, tx: Tx, fs: set<FamilyId>)
    requires tx.LockingTokens? && tx.stamped <= Visible(s, tx.families) && tx.families !! fs
    ensures Visible(CommittedRevocation(s, tx), fs) == Visible(s, fs)
  {}

  // ---------------------------------------------------------------------
  // Every interleaving
  // ---------------------------------------------------------------------

  lemma StepKeepsLocks(d: Db, s: Step)
    requires DbInv(d) && CanStep(d, s)
    ensures AllAlive(StepTo(d, s)) && LocksOk(StepTo(d, s))
  {
    if OfSaver(s) { SaverStepKeepsLocks(d, s); }
    else if OfRevoker(s) { RevokerStepKeepsLocks(d, s); }
    else { CommitsKeepLocks(d, s); }
  }

  lemma CommitsKeepLocks(d: Db, s: Step)
    requires DbInv(d) && CanStep(d, s) && (s.Other? || s.CommitSave? || s.CommitRevoke?)
    ensures AllAlive(StepTo(d, s)) && LocksOk(StepTo(d, s))
  {
    match s
    case Other(a) => OtherKeepsLocks(d, a);
    case CommitSave(x) => CommitSaveKeepsLocks(d, x);
    case CommitRevoke(x) => CommitRevokeKeepsLocks(d, x);
  }

  lemma StepKeepsDb(d: Db, s: Step)
    requires DbInv(d) && CanStep(d, s)
    ensures DbInv(StepTo(d, s))
  {
    StepKeepsLocks(d, s);
    StepRefines(d, s);
    if Atomic(d, s).Some? { StepKeeps(d.world, Atomic(d, s).value); }
  }

  ghost predicate IsDbRun(d: Db, steps: seq<Step>)
    requires DbInv(d)
    decreases |steps|
  {
    steps == [] || (CanStep(d, steps[0]) && (StepKeepsDb(d, steps[0]); IsDbRun(StepTo(d, steps[0]), steps[1..])))
  }

  ghost function DbRun(d: Db, steps: seq<Step>): Db
    requires DbInv(d) && IsDbRun(d, steps)
    decreases |steps|
  {
    if steps == [] then d else StepKeepsDb(d, steps[0]); DbRun(StepTo(d, steps[0]), steps[1..])
  }

  /** Every interleaving of locks, statements and commits is a run of atomic store methods. */
  lemma {:induction false} TransactionsAreAtomic(d: Db, steps: seq<Step>) returns (acts: seq<Action>)
    requires DbInv(d) && IsDbRun(d, steps)
    ensures DbInv(DbRun(d, steps))
    ensures IsRun(d.world, acts) && Run(d.world, acts) == DbRun(d, steps).world
    decreases |steps|
  {
    if steps == [] {
      acts := [];
    } else {
      StepRefines(d, steps[0]);
      StepKeepsDb(d, steps[0]);
      var rest := TransactionsAreAtomic(StepTo(d, steps[0]), steps[1..]);
      match Atomic(d, steps[0]) {
        case None => acts := rest;
        case Some(a) =>
          acts := [a] + rest;
          assert acts[1..] == rest;
      }
    }
  }

  /**
   For every interleaving: once a transaction that revoked f has committed,
   none of f's tokens is live, now or later, and every token answer for f
   still to come is for a child whose own transaction had already committed.
   */
  lemma CommittedRevocationIsFinal(d: Db, x: TxId, steps: seq<Step>, f: FamilyId)
    requires DbInv(d) && CanStep(d, CommitRevoke(x)) && f in d.txs[x].families
    requires DbInv(StepTo(d, CommitRevoke(x))) && IsDbRun(StepTo(d, CommitRevoke(x)), steps)
    ensures NoLiveToken(DbRun(StepTo(d, CommitRevoke(x)), steps).world, f)
    ensures OnlyAlreadySaved(StepTo(d, CommitRevoke(x)).world, DbRun(StepTo(d, CommitRevoke(x)), steps).world, f)
  {
    var e := StepTo(d, CommitRevoke(x));
    var acts := TransactionsAreAtomic(e, steps);
    RevocationIsFinal(e.world, acts, f);
  }

  lemma EmptyDb(w: World)
    requires Init(w)
    ensures DbInv(Db(w, map[]))
  {
    InitInv(w);
  }

  /** Interleavings that start from an empty database. */
  ghost predicate IsInterleaving(w: World, steps: seq<Step>)
    requires Init(w)
  {
    EmptyDb(w);
    IsDbRun(Db(w, map[]), steps)
  }

  ghost function Interleaved(w: World, steps: seq<Step>): Db
    requires Init(w) && IsInterleaving(w, steps)
  {
    EmptyDb(w);
    DbRun(Db(w, map[]), steps)
  }

  /** From an empty database, in every interleaving: one holder per family, one token response per credential. */
  lemma InterleavedSessionsAreExclusive(w: World, steps: seq<Step>)
    requires Init(w) && IsInterleaving(w, steps)
    ensures forall f :: |Holders(Interleaved(w, steps).world, f)| <= 1
    ensures var answers := Interleaved(w, steps).world.answers;
            forall i, j | 0 <= i < j < |answers| && answers[i].Granted? && answers[j].Granted? ::
              answers[i].cred != answers[j].cred
  {
    EmptyDb(w);
    var acts := TransactionsAreAtomic(Db(w, map[]), steps);
    SessionsAreExclusive(w, acts);
  }
}
