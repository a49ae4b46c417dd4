/**
 One device code, from issue to redemption (sections 3.4 and 3.5 of RFC 8628).

 Any number of polls, decisions and sweeps interleave on its row.  A poll's
 grant looks the row up, then records the poll in a second statement, and
 decides on what it looked up first.  The Postgres store records a poll under
 the row's lock; the SQLite store reads, then swaps or bumps.  Both are steps
 here, and both stores' ways of deciding a code.
 */
module DeviceCodes {
  import opened Wrappers

  type Pid = nat

  const SECOND := 1_000_000
  const SLOW_DOWN := 5

  datatype Identity = Identity(connector: string, subject: string, email: string)

  datatype Row = Row(
    client: nat,
    identity: Option<Identity>,
    approvedAt: Option<int>,
    deniedAt: Option<int>,
    lastPolled: Option<int>,
    interval: int,
    expiresAt: int)

  datatype Verdict = Approve(id: Identity) | Deny

  /** A SQLite poll is Reading once it has read the row; `seen` is history, the polls recorded by then. */
  datatype Grant =
    | Polling(dc: Row, now: int)
    | Reading(dc: Row, now: int, last: Option<int>, interval: int, seen: nat)
    | Bumping(dc: Row, now: int)
    | Paced(dc: Row, now: int)
    | Closing
    | Claiming(dc: Row, now: int)

  datatype Poll = Poll(now: int, slow: bool, interval: int)
  datatype Decision = Decision(verdict: Verdict, at: int)
  datatype Mint = Mint(now: int, id: Identity)

  /** `row`, `grants` and `deciders` are the system; the rest is history. */
  datatype World = World(
    issued: Row,
    row: Option<Row>,
    grants: map<Pid, Grant>,
    deciders: map<Pid, Decision>,
    polls: seq<Poll>,
    decisions: seq<Decision>,
    mints: seq<Mint>)

  predicate TooFast(last: Option<int>, interval: int, now: int) {
    last.Some? && now - last.value < interval * SECOND
  }

  predicate Pending(r: Row) {
    r.approvedAt.None? && r.deniedAt.None?
  }

  function Decided(r: Row, d: Decision): Row {
    match d.verdict
    case Approve(id) => r.(approvedAt := Some(d.at), identity := Some(id))
    case Deny => r.(deniedAt := Some(d.at))
  }

  // ---------------------------------------------------------------------
  // Steps
  // ---------------------------------------------------------------------

  datatype Step =
    | LookUp(pid: Pid, client: nat, now: int)
    | PollLocked(pid: Pid)
    | PollRead(pid: Pid)
    | PollSwap(pid: Pid)
    | PollBump(pid: Pid)
    | Answer(pid: Pid)
    | Close(pid: Pid)
    | Claim(pid: Pid, permitted: bool)
    | Decide(verdict: Verdict, now: int)
    | DecideCheck(pid: Pid, verdict: Verdict, now: int)
    | DecideApply(pid: Pid)
    | Reap(now: int)
    | Abandon(pid: Pid)

  predicate Enabled(w: World, a: Step) {
    match a
    case LookUp(p, client, _) => p !in w.grants && w.row.Some? && client == w.row.value.client
    case PollLocked(p) => p in w.grants && w.grants[p].Polling?
    case PollRead(p) => p in w.grants && w.grants[p].Polling?
    case PollSwap(p) => p in w.grants && w.grants[p].Reading?
    case PollBump(p) => p in w.grants && w.grants[p].Bumping?
    case Answer(p) => p in w.grants && w.grants[p].Paced?
    case Close(p) => p in w.grants && w.grants[p].Closing?
    case Claim(p, _) => p in w.grants && w.grants[p].Claiming?
    case Decide(_, _) => true
    case DecideCheck(q, _, now) => q !in w.deciders && w.row.Some? && now < w.row.value.expiresAt
    case DecideApply(q) => q in w.deciders
    case Reap(now) => w.row.Some? && w.row.value.expiresAt < now
    case Abandon(p) => p in w.grants
  }

  function Put(w: World, p: Pid, g: Grant): World {
    w.(grants := w.grants[p := g])
  }

  function Drop(w: World, p: Pid): World {
    w.(grants := w.grants - {p})
  }

  /** The row as a poll leaves it, which every store agrees on. */
  function Polled(r: Row, now: int, slow: bool): Row {
    r.(lastPolled := Some(now), interval := if slow then r.interval + SLOW_DOWN else r.interval)
  }

  function Record(w: World, r: Row, now: int, slow: bool): World {
    w.(row := Some(Polled(r, now, slow)), polls := w.polls + [Poll(now, slow, r.interval)])
  }

  function AfterPollLocked(w: World, p: Pid): World
    requires p in w.grants && w.grants[p].Polling?
  {
    var g := w.grants[p];
    if w.row.None? then Drop(w, p)
    else
      var r := w.row.value;
      var slow := TooFast(r.lastPolled, r.interval, g.now);
      if slow then Drop(Record(w, r, g.now, true), p) else Put(Record(w, r, g.now, false), p, Paced(g.dc, g.now))
  }

  function AfterPollRead(w: World, p: Pid): World
    requires p in w.grants && w.grants[p].Polling?
  {
    var g := w.grants[p];
    if w.row.None? then Drop(w, p)
    else if TooFast(w.row.value.lastPolled, w.row.value.interval, g.now) then Put(w, p, Bumping(g.dc, g.now))
    else Put(w, p, Reading(g.dc, g.now, w.row.value.lastPolled, w.row.value.interval, |w.polls|))
  }

  function AfterPollSwap(w: World, p: Pid): World
    requires p in w.grants && w.grants[p].Reading?
  {
    var g := w.grants[p];
    if w.row.Some? && w.row.value.lastPolled == g.last
      then Put(Record(w, w.row.value, g.now, false), p, Paced(g.dc, g.now))
    else Put(w, p, Bumping(g.dc, g.now))
  }

  /** An UPDATE that finds no row changes nothing, and the poll is still answered slow_down. */
  function AfterPollBump(w: World, p: Pid): World
    requires p in w.grants && w.grants[p].Bumping?
  {
    var g := w.grants[p];
    if w.row.Some? then Drop(Record(w, w.row.value, g.now, true), p) else Drop(w, p)
  }

  function AfterAnswer(w: World, p: Pid): World
    requires p in w.grants && w.grants[p].Paced?
  {
    var g := w.grants[p];
    if g.now > g.dc.expiresAt || g.dc.deniedAt.Some? then Put(w, p, Closing)
    else if g.dc.approvedAt.None? then Drop(w, p)
    else Put(w, p, Claiming(g.dc, g.now))
  }

  function AfterClaim(w: World, p: Pid, permitted: bool): World
    requires p in w.grants && w.grants[p].Claiming?
  {
    if w.row.None? then Drop(w, p)
    else
      var final := w.row.value;
      var id := if final.identity.Some? then final.identity.value else Identity("", "", "");
      var v := Drop(w.(row := None), p);
      if id.subject == "" || !permitted then v else v.(mints := w.mints + [Mint(w.grants[p].now, id)])
  }

  function Stamp(w: World, d: Decision): World {
    if w.row.Some? && Pending(w.row.value) then
      w.(row := Some(Decided(w.row.value, d)), decisions := w.decisions + [d])
    else w
  }

  function Next(w: World, a: Step): World
    requires Enabled(w, a)
  {
    match a
    case LookUp(p, _, now) => Put(w, p, Polling(w.row.value, now))
    case PollLocked(p) => AfterPollLocked(w, p)
    case PollRead(p) => AfterPollRead(w, p)
    case PollSwap(p) => AfterPollSwap(w, p)
    case PollBump(p) => AfterPollBump(w, p)
    case Answer(p) => AfterAnswer(w, p)
    case Close(p) => Drop(w.(row := None), p)
    case Claim(p, permitted) => AfterClaim(w, p, permitted)
    case Decide(verdict, now) => if w.row.Some? && now < w.row.value.expiresAt then Stamp(w, Decision(verdict, now))
      else w
    case DecideCheck(q, verdict, now) => w.(deciders := w.deciders[q := Decision(verdict, now)])
    case DecideApply(q) => Stamp(w.(deciders := w.deciders - {q}), w.deciders[q])
    case Reap(_) => w.(row := None)
    case Abandon(p) => Drop(w, p)
  }

  predicate Init(w: World) {
    && w.row == Some(w.issued) && Pending(w.issued) && w.issued.identity.None? && w.issued.lastPolled.None?
    && w.grants == map[] && w.deciders == map[] && w.polls == [] && w.decisions == [] && w.mints == []
  }

  predicate IsRun(w: World, acts: seq<Step>)
    decreases |acts|
  {
    acts == [] || (Enabled(w, acts[0]) && IsRun(Next(w, acts[0]), acts[1..]))
  }

  function Run(w: World, acts: seq<Step>): World
    requires IsRun(w, acts)
    decreases |acts|
  {
    if acts == [] then w else Run(Next(w, acts[0]), acts[1..])
  }

  // ---------------------------------------------------------------------
  // Decided once, redeemed once
  // ---------------------------------------------------------------------

  /** A row, stored or looked up earlier, says of its decision what was decided, or nothing yet. */
  predicate Truthful(w: World, r: Row) {
    && r.expiresAt == w.issued.expiresAt
    && (r.approvedAt.Some? ==>
          r.identity.Some? && w.decisions == [Decision(Approve(r.identity.value), r.approvedAt.value)])
    && (r.deniedAt.Some? ==> w.decisions == [Decision(Deny, r.deniedAt.value)])
    && (r.approvedAt.None? ==> r.identity.None?)
  }

  predicate GrantOk(w: World, g: Grant) {
    && (!g.Closing? ==> Truthful(w, g.dc))
    && (g.Claiming? ==> g.now <= g.dc.expiresAt && g.dc.approvedAt.Some?)
  }

  /** The code was approved, once and before it expired, for the identity minted, and polled before it expired. */
  predicate MintOk(w: World, m: Mint) {
    && m.now <= w.issued.expiresAt
    && |w.decisions| == 1 && w.decisions[0].verdict == Approve(m.id) && w.decisions[0].at < w.issued.expiresAt
  }

  predicate DecisionsOk(w: World) {
    && |w.decisions| <= 1
    && (forall i | 0 <= i < |w.decisions| :: w.decisions[i].at < w.issued.expiresAt)
    && (forall q | q in w.deciders :: w.deciders[q].at < w.issued.expiresAt)
    && (w.row.Some? ==> Truthful(w, w.row.value) && (Pending(w.row.value) ==> w.decisions == []))
  }

  predicate MintsOk(w: World) {
    && |w.mints| <= 1
    && (w.row.Some? ==> w.mints == [])
    && (forall i | 0 <= i < |w.mints| :: MintOk(w, w.mints[i]))
  }

  predicate Inv(w: World) {
    DecisionsOk(w) && MintsOk(w) && forall p | p in w.grants :: GrantOk(w, w.grants[p])
  }

  lemma PutKeeps(w: World, p: Pid, g: Grant)
    requires Inv(w) && GrantOk(w, g)
    ensures Inv(Put(w, p, g))
  {}

  lemma DropKeeps(w: World, p: Pid)
    requires Inv(w)
    ensures Inv(Drop(w, p))
  {}

  lemma RecordKeeps(w: World, now: int, slow: bool)
    requires Inv(w) && w.row.Some?
    ensures Inv(Record(w, w.row.value, now, slow))
  {}

  lemma DeleteKeeps(w: World)
    requires Inv(w)
    ensures Inv(w.(row := None))
  {}

  /** Only the first decision on a pending row is recorded; rows looked up before it stay truthful. */
  lemma StampKeeps(w: World, d: Decision)
    requires Inv(w) && d.at < w.issued.expiresAt
    ensures Inv(Stamp(w, d))
  {}

  lemma PollKeeps(w: World, p: Pid)
    requires Inv(w) && p in w.grants
    ensures w.grants[p].Polling? ==> Inv(AfterPollLocked(w, p)) && Inv(AfterPollRead(w, p))
    ensures w.grants[p].Reading? ==> Inv(AfterPollSwap(w, p))
    ensures w.grants[p].Bumping? ==> Inv(AfterPollBump(w, p))
  {
    var g := w.grants[p];
    assert GrantOk(w, g);
    DropKeeps(w, p);
    if w.row.Some? && !g.Closing? {
      RecordKeeps(w, g.now, true);
      RecordKeeps(w, g.now, false);
      var bumped, paced := Record(w, w.row.value, g.now, true), Record(w, w.row.value, g.now, false);
      assert GrantOk(bumped, g) && GrantOk(paced, g);
      DropKeeps(bumped, p);
      PutKeeps(paced, p, Paced(g.dc, g.now));
      PutKeeps(w, p, Reading(g.dc, g.now, w.row.value.lastPolled, w.row.value.interval, |w.polls|));
    }
    if !g.Closing? { PutKeeps(w, p, Bumping(g.dc, g.now)); }
  }

  lemma AnswerKeeps(w: World, p: Pid)
    requires Inv(w) && p in w.grants && w.grants[p].Paced?
    ensures Inv(AfterAnswer(w, p))
  {}

  /** What was approved when the row was looked up is still what the deleted row says. */
  lemma ClaimKeeps(w: World, p: Pid, permitted: bool)
    requires Inv(w) && p in w.grants && w.grants[p].Claiming?
    ensures Inv(AfterClaim(w, p, permitted))
  {}

  lemma StepKeeps(w: World, a: Step)
    requires Inv(w) && Enabled(w, a)
    ensures Inv(Next(w, a))
  {
    match a
    case LookUp(p, _, now) => PutKeeps(w, p, Polling(w.row.value, now));
    case PollLocked(p) => PollKeeps(w, p);
    case PollRead(p) => PollKeeps(w, p);
    case PollSwap(p) => PollKeeps(w, p);
    case PollBump(p) => PollKeeps(w, p);
    case Answer(p) => AnswerKeeps(w, p);
    case Close(p) =>
      DeleteKeeps(w);
      DropKeeps(w.(row := None), p);
    case Claim(p, permitted) => ClaimKeeps(w, p, permitted);
    case Decide(verdict, now) => if w.row.Some?
      && now < w.row.value.expiresAt { StampKeeps(w, Decision(verdict, now)); }
    case DecideCheck(q, verdict, now) => DecidersKeep(w, w.deciders[q := Decision(verdict, now)]);
    case DecideApply(q) =>
      DecidersKeep(w, w.deciders - {q});
      StampKeeps(w.(deciders := w.deciders - {q}), w.deciders[q]);
    case Reap(_) => DeleteKeeps(w);
    case Abandon(p) => DropKeeps(w, p);
  }

  lemma DecidersKeep(w: World, ds: map<Pid, Decision>)
    requires Inv(w) && forall q | q in ds :: ds[q].at < w.issued.expiresAt
    ensures Inv(w.(deciders := ds))
  {}

  lemma {:induction false} RunKeeps(w: World, acts: seq<Step>)
    requires Inv(w) && IsRun(w, acts)
    ensures Inv(Run(w, acts)) && Run(w, acts).issued == w.issued
    decreases |acts|
  {
    if acts != [] {
      StepKeeps(w, acts[0]);
      RunKeeps(Next(w, acts[0]), acts[1..]);
    }
  }

  /**
   Over any run a code is decided at most once and before it expires, so it is
   never both approved and denied; and it mints at most once, at a poll time
   not after expiry, with exactly the approved identity, never if denied.
   */
  lemma MintsOnceAsApproved(w: World, acts: seq<Step>)
    requires Init(w) && IsRun(w, acts)
    ensures |Run(w, acts).decisions| <= 1 && |Run(w, acts).mints| <= 1
    ensures Run(w, acts).issued == w.issued && forall i | 0 <= i < |Run(w, acts).mints| ::
      MintOk(Run(w, acts), Run(w, acts).mints[i])
    ensures Run(w, acts).row.Some? ==> Run(w, acts).row.value.approvedAt.None? || Run(w, acts).row.value.deniedAt.None?
  {
    RunKeeps(w, acts);
    var n := Run(w, acts);
    assert forall i | 0 <= i < |n.mints| :: MintOk(n, n.mints[i]);
  }
}
