/** The minimum polling interval, as both stores enforce it on one device code. */
module DevicePacing {
  import opened Wrappers
  import opened DeviceCodes

  function Slows(polls: seq<Poll>): nat {
    if polls == [] then 0 else Slows(polls[..|polls| - 1]) + (if polls[|polls| - 1].slow then 1 else 0)
  }

  function LastPoll(polls: seq<Poll>): Option<int> {
    if polls == [] then None else Some(polls[|polls| - 1].now)
  }

  /** The interval after these polls: the issued one plus five per slow_down. */
  function StoredInterval(issued: Row, polls: seq<Poll>): int {
    issued.interval + SLOW_DOWN * Slows(polls)
  }

  // ---------------------------------------------------------------------
  // The books, whatever the clocks say
  // ---------------------------------------------------------------------

  predicate RowOk(w: World) {
    w.row.Some? ==>
      w.row.value.lastPolled == LastPoll(w.polls) && w.row.value.interval == StoredInterval(w.issued, w.polls)
  }

  /** A poll that has read the row holds what was stored then, and was well paced by it. */
  predicate ReadingOk(w: World, g: Grant) {
    g.Reading? ==>
      && g.seen <= |w.polls| && g.last == LastPoll(w.polls[..g.seen])
      && g.interval == StoredInterval(w.issued, w.polls[..g.seen])
      && !TooFast(g.last, g.interval, g.now)
  }

  predicate Books(w: World) {
    && RowOk(w)
    && (forall j | 0 <= j < |w.polls| :: w.polls[j].interval == StoredInterval(w.issued, w.polls[..j]))
    && forall p | p in w.grants :: ReadingOk(w, w.grants[p])
  }

  /** v's history extends w's. */
  predicate Extends(w: World, v: World) {
    v.issued == w.issued && |w.polls| <= |v.polls| && w.polls == v.polls[..|w.polls|]
  }

  lemma RecordKeeps(w: World, now: int, slow: bool)
    requires Books(w) && w.row.Some?
    ensures Books(Record(w, w.row.value, now, slow)) && Extends(w, Record(w, w.row.value, now, slow))
  {
    var n := Record(w, w.row.value, now, slow);
    var k := |w.polls|;
    assert n.polls[..k] == w.polls;
    forall j | 0 <= j < |n.polls| ensures n.polls[j].interval == StoredInterval(n.issued, n.polls[..j]) {
      assert j < k ==> n.polls[j] == w.polls[j] && n.polls[..j] == w.polls[..j];
    }
    forall p | p in n.grants ensures ReadingOk(n, n.grants[p]) {
      var g := n.grants[p];
      assert ReadingOk(w, g);
      assert g.Reading? ==> n.polls[..g.seen] == w.polls[..g.seen];
    }
  }

  lemma FrameKeeps(w: World, n: World)
    requires Books(w) && n.issued == w.issued && n.polls == w.polls
    requires n.row.Some? ==>
      w.row.Some? && n.row.value.lastPolled == w.row.value.lastPolled && n.row.value.interval == w.row.value.interval
    requires forall p | p in n.grants && n.grants[p].Reading? :: p in w.grants && n.grants[p] == w.grants[p]
    ensures Books(n)
  {}

  /** A poll is recorded and its request moves on; no other request has read meanwhile. */
  lemma RecordAndMove(w: World, now: int, slow: bool, n: World)
    requires Books(w) && w.row.Some? && n == Record(w, w.row.value, now, slow).(grants := n.grants)
    requires forall q | q in n.grants && n.grants[q].Reading? :: q in w.grants && n.grants[q] == w.grants[q]
    ensures Books(n) && Extends(w, n)
  {
    RecordKeeps(w, now, slow);
    FrameKeeps(Record(w, w.row.value, now, slow), n);
  }

  lemma LockedKeepsBooks(w: World, p: Pid)
    requires Books(w) && p in w.grants && w.grants[p].Polling?
    ensures Books(AfterPollLocked(w, p)) && Extends(w, AfterPollLocked(w, p))
  {
    var now := w.grants[p].now;
    if w.row.Some? {
      RecordAndMove(w, now, TooFast(w.row.value.lastPolled, w.row.value.interval, now), AfterPollLocked(w, p));
    } else {
      FrameKeeps(w, Drop(w, p));
    }
  }

  lemma SwapKeepsBooks(w: World, p: Pid)
    requires Books(w) && p in w.grants && w.grants[p].Reading?
    ensures Books(AfterPollSwap(w, p)) && Extends(w, AfterPollSwap(w, p))
  {
    var g := w.grants[p];
    if w.row.Some? && w.row.value.lastPolled == g.last {
      RecordAndMove(w, g.now, false, AfterPollSwap(w, p));
    } else {
      FrameKeeps(w, AfterPollSwap(w, p));
    }
  }

  lemma BumpKeepsBooks(w: World, p: Pid)
    requires Books(w) && p in w.grants && w.grants[p].Bumping?
    ensures Books(AfterPollBump(w, p)) && Extends(w, AfterPollBump(w, p))
  {
    if w.row.Some? {
      RecordAndMove(w, w.grants[p].now, true, AfterPollBump(w, p));
    } else {
      FrameKeeps(w, Drop(w, p));
    }
  }

  lemma ReadKeepsBooks(w: World, p: Pid)
    requires Books(w) && p in w.grants && w.grants[p].Polling?
    ensures Books(AfterPollRead(w, p))
  {
    assert w.polls[..|w.polls|] == w.polls;
  }

  lemma StepKeepsBooks(w: World, a: Step)
    requires Books(w) && Enabled(w, a)
    ensures Books(Next(w, a)) && Extends(w, Next(w, a))
  {
    assert w.polls[..|w.polls|] == w.polls;
    match a
    case PollLocked(p) => LockedKeepsBooks(w, p);
    case PollRead(p) => ReadKeepsBooks(w, p);
    case PollSwap(p) => SwapKeepsBooks(w, p);
    case PollBump(p) => BumpKeepsBooks(w, p);
    case _ => FrameKeeps(w, Next(w, a));
  }

  lemma {:induction false} RunKeepsBooks(w: World, acts: seq<Step>)
    requires Books(w) && IsRun(w, acts)
    ensures Books(Run(w, acts)) && Extends(w, Run(w, acts))
    decreases |acts|
  {
    assert w.polls[..|w.polls|] == w.polls;
    if acts != [] {
      var v := Next(w, acts[0]);
      StepKeepsBooks(w, acts[0]);
      RunKeepsBooks(v, acts[1..]);
      assert Run(w, acts).polls[..|v.polls|][..|w.polls|] == Run(w, acts).polls[..|w.polls|];
    }
  }

  // ---------------------------------------------------------------------
  // When a swap judges by a stale interval
  // ---------------------------------------------------------------------

  lemma {:induction false} SlowsSince(polls: seq<Poll>, seen: nat)
    requires seen <= |polls|
    ensures Slows(polls[..seen]) <= Slows(polls)
    ensures Slows(polls[..seen]) == Slows(polls) <==> forall i | seen <= i < |polls| :: !polls[i].slow
    decreases |polls|
  {
    if seen == |polls| {
      assert polls[..seen] == polls;
    } else {
      var init := polls[..|polls| - 1];
      SlowsSince(init, seen);
      assert init[..seen] == polls[..seen];
      assert forall i | 0 <= i < |init| :: init[i] == polls[i];
    }
  }

  /**
   In every reachable state, for a poll whose swap would go through: the
   interval it judged by is not the stored one exactly when a slow_down was
   recorded after its read; and then some later poll has put the stamp it read
   back, for that is the last one recorded.
   */
  lemma SwapIsStaleIff(w: World, acts: seq<Step>, p: Pid)
    requires Init(w) && IsRun(w, acts) && p in Run(w, acts).grants && Run(w, acts).grants[p].Reading?
    requires Run(w, acts).row.Some? && Run(w, acts).row.value.lastPolled == Run(w, acts).grants[p].last
    ensures
      var v, g := Run(w, acts), Run(w, acts).grants[p];
      && g.seen <= |v.polls| && LastPoll(v.polls) == g.last == LastPoll(v.polls[..g.seen])
      && (g.interval != v.row.value.interval <==> exists i :: g.seen <= i < |v.polls| && v.polls[i].slow)
  {
    RunKeepsBooks(w, acts);
    var v := Run(w, acts);
    assert ReadingOk(v, v.grants[p]);
    SlowsSince(v.polls, v.grants[p].seen);
  }

  // ---------------------------------------------------------------------
  // Spacing
  // ---------------------------------------------------------------------

  /** Poll j, if well paced, came at least the interval then stored after the poll recorded before it. */
  predicate Spaced(polls: seq<Poll>, j: nat)
    requires j < |polls|
  {
    0 < j && !polls[j].slow ==> polls[j].now - polls[j - 1].now >= polls[j].interval * SECOND
  }

  predicate AllSpaced(polls: seq<Poll>) {
    forall j: nat | j < |polls| :: Spaced(polls, j)
  }

  function Stamps(polls: seq<Poll>): seq<int> {
    seq(|polls|, i requires 0 <= i < |polls| => polls[i].now)
  }

  /** The last stamp is not one recorded before. */
  predicate LastIsNew(ts: seq<int>) {
    forall i | 0 <= i < |ts| - 1 :: ts[i] != ts[|ts| - 1]
  }

  predicate NoRepeats(ts: seq<int>) {
    forall i, j | 0 <= i < j < |ts| :: ts[i] != ts[j]
  }

  /** After a new stamp a swap that goes through has read the row it swaps, so it is spaced, as any locked poll is. */
  lemma SpacedAfterNew(w: World, a: Step)
    requires Books(w) && Enabled(w, a) && LastIsNew(Stamps(w.polls))
    ensures |w.polls| < |Next(w, a).polls| ==> Spaced(Next(w, a).polls, |w.polls|)
  {
    if a.PollSwap? {
      var g := w.grants[a.pid];
      assert ReadingOk(w, g);
      if w.row.Some? && w.row.value.lastPolled == g.last && 0 < |w.polls| {
        assert 0 < g.seen;
        assert Stamps(w.polls)[g.seen - 1] == Stamps(w.polls)[|w.polls| - 1];
        assert w.polls[..g.seen] == w.polls;
      }
    }
  }

  lemma OneMoreSpaced(before: seq<Poll>, after: seq<Poll>)
    requires AllSpaced(before) && before <= after && |after| <= |before| + 1
    requires |before| < |after| ==> Spaced(after, |before|)
    ensures AllSpaced(after)
  {
    forall j: nat | j < |after| ensures Spaced(after, j) {
      if j < |before| { assert Spaced(before, j); }
    }
  }

  lemma StepSpaces(w: World, a: Step)
    requires Books(w) && AllSpaced(w.polls) && Enabled(w, a) && NoRepeats(Stamps(w.polls))
    ensures AllSpaced(Next(w, a).polls)
  {
    SpacedAfterNew(w, a);
    OneMoreSpaced(w.polls, Next(w, a).polls);
  }

  lemma {:induction false} RunSpaces(w: World, acts: seq<Step>)
    requires Books(w) && AllSpaced(w.polls) && IsRun(w, acts) && NoRepeats(Stamps(Run(w, acts).polls))
    ensures AllSpaced(Run(w, acts).polls)
    decreases |acts|
  {
    if acts != [] {
      RunKeepsBooks(w, acts);
      var ts := Stamps(Run(w, acts).polls);
      assert Stamps(w.polls) == ts[..|w.polls|];
      StepKeepsBooks(w, acts[0]);
      StepSpaces(w, acts[0]);
      RunSpaces(Next(w, acts[0]), acts[1..]);
    }
  }

  /** Whatever else the clocks do: if no recorded stamp repeats, every well-paced poll kept the stored interval. */
  lemma DistinctStampsSpace(w: World, acts: seq<Step>)
    requires Init(w) && IsRun(w, acts) && NoRepeats(Stamps(Run(w, acts).polls))
    ensures AllSpaced(Run(w, acts).polls)
  {
    RunSpaces(w, acts);
  }

  lemma {:induction false} InOrder(polls: seq<Poll>, i: nat, j: nat)
    requires i <= j < |polls| && forall k | 0 < k < |polls| :: polls[k - 1].now < polls[k].now
    ensures polls[i].now <= polls[j].now && (i < j ==> polls[i].now < polls[j].now)
    decreases j - i
  {
    if i < j {
      InOrder(polls, i, j - 1);
    }
  }

  predicate AscendingPolls(polls: seq<Poll>) {
    forall k | 0 < k < |polls| :: polls[k - 1].now < polls[k].now
  }

  lemma AscendingAreDistinct(polls: seq<Poll>)
    requires AscendingPolls(polls)
    ensures NoRepeats(Stamps(polls))
  {
    forall i, j | 0 <= i < j < |polls| ensures Stamps(polls)[i] != Stamps(polls)[j] { InOrder(polls, i, j); }
  }

  /** Each well-paced poll its interval after the one before it is that long after every earlier one. */
  lemma SpacedAreApart(polls: seq<Poll>)
    requires AscendingPolls(polls) && AllSpaced(polls)
    ensures forall i, j | 0 <= i < j < |polls| && !polls[j].slow ::
      polls[j].now - polls[i].now >= polls[j].interval * SECOND
  {
    forall i, j | 0 <= i < j < |polls| && !polls[j].slow
      ensures polls[j].now - polls[i].now >= polls[j].interval * SECOND
    {
      InOrder(polls, i, j - 1);
      assert Spaced(polls, j);
    }
  }

  /**
   For every interleaving of row-locked and compare-and-swap polls whose
   recorded times increase: two well-paced verdicts are at least the interval
   stored at the later one apart, and while the row exists its interval is the
   issued one plus five per slow_down.
   */
  lemma WellPacedPollsAreApart(w: World, acts: seq<Step>)
    requires Init(w) && IsRun(w, acts)
    requires forall k | 0 < k < |Run(w, acts).polls| :: Run(w, acts).polls[k - 1].now < Run(w, acts).polls[k].now
    ensures forall i, j | 0 <= i < j < |Run(w, acts).polls| && !Run(w, acts).polls[j].slow ::
              Run(w, acts).polls[j].now - Run(w, acts).polls[i].now >= Run(w, acts).polls[j].interval * SECOND
    ensures forall j | 0 <= j < |Run(w, acts).polls| ::
              Run(w, acts).polls[j].interval == StoredInterval(w.issued, Run(w, acts).polls[..j])
    ensures Run(w, acts).row.Some? ==> Run(w, acts).row.value.interval == StoredInterval(w.issued, Run(w, acts).polls)
  {
    RunKeepsBooks(w, acts);
    var polls := Run(w, acts).polls;
    AscendingAreDistinct(polls);
    DistinctStampsSpace(w, acts);
    SpacedAreApart(polls);
  }

  // ---------------------------------------------------------------------
  // The weakest demand on the clock
  // ---------------------------------------------------------------------

  ghost predicate Reaches(iv: int, v: World) {
    exists w, acts :: Init(w) && w.issued.interval == iv && IsRun(w, acts) && Run(w, acts) == v
  }

  /** Whoever polls next after these stamps, by whatever clock: if found well paced, it kept the stored interval. */
  ghost predicate NextIsSpaced(iv: int, ts: seq<int>) {
    forall v, a | Reaches(iv, v) && Stamps(v.polls) == ts && Enabled(v, a) ::
      |v.polls| < |Next(v, a).polls| ==> Spaced(Next(v, a).polls, |v.polls|)
  }

  lemma Snoc(w: World, acts: seq<Step>, a: Step)
    requires IsRun(w, acts) && Enabled(Run(w, acts), a)
    ensures IsRun(w, acts + [a]) && Run(w, acts + [a]) == Next(Run(w, acts), a)
    decreases |acts|
  {
    if acts == [] {
      assert [a][1..] == [] && acts + [a] == [a];
    } else {
      Snoc(Next(w, acts[0]), acts[1..], a);
      assert (acts + [a])[1..] == acts[1..] + [a];
    }
  }

  lemma Reach(iv: int, v: World, a: Step) returns (n: World)
    requires Reaches(iv, v) && Enabled(v, a)
    ensures n == Next(v, a) && Reaches(iv, n)
  {
    var w, acts :| Init(w) && w.issued.interval == iv && IsRun(w, acts) && Run(w, acts) == v;
    Snoc(w, acts, a);
    n := Next(v, a);
  }

  /** One row-locked poll at t, start to finish. */
  lemma PollAt(iv: int, v: World, t: int) returns (n: World)
    requires Reaches(iv, v) && v.row.Some? && 0 !in v.grants
    ensures Reaches(iv, n) && n.grants == v.grants && n.row.Some?
    ensures
      var r := v.row.value;
      var slow := TooFast(r.lastPolled, r.interval, t);
      n.polls == v.polls + [Poll(t, slow, r.interval)] && n.row.value == Polled(r, t, slow)
  {
    n := Reach(iv, v, LookUp(0, v.row.value.client, t));
    n := Reach(iv, n, PollLocked(0));
    if 0 in n.grants { n := Reach(iv, n, Abandon(0)); }
    assert n.grants == v.grants;
  }

  /** Row-locked polls at each of ts in turn; without a slow_down among them the stamps only grow. */
  lemma {:induction false} PollAll(iv: int, v: World, ts: seq<int>) returns (n: World)
    requires Reaches(iv, v) && v.row.Some? && 0 !in v.grants
    ensures Reaches(iv, n) && n.grants == v.grants && n.row.Some? && n.row.value.client == v.row.value.client
    ensures Stamps(n.polls) == Stamps(v.polls) + ts && v.polls <= n.polls
    ensures v.row.value.lastPolled.None? && ts != [] ==> !n.polls[|v.polls|].slow
    ensures n.row.value.lastPolled == if ts == [] then v.row.value.lastPolled else Some(ts[|ts| - 1])
    ensures v.row.value.interval <= n.row.value.interval
    ensures ts != [] && v.row.value.lastPolled.Some? && 0 < v.row.value.interval == n.row.value.interval ==>
      v.row.value.lastPolled.value < ts[|ts| - 1]
    decreases |ts|
  {
    if ts == [] {
      n := v;
      assert Stamps(v.polls) + ts == Stamps(v.polls);
    } else {
      var k := |ts| - 1;
      var u := PollAll(iv, v, ts[..k]);
      n := PollAt(iv, u, ts[k]);
      assert Stamps(n.polls) == Stamps(u.polls) + [ts[k]] == Stamps(v.polls) + ts;
    }
  }

  /** Poll 1 has read the row after the stamps ts, late enough to be well paced. */
  lemma ReadAfter(iv: int, ts: seq<int>) returns (v: World)
    requires 0 < iv && ts != []
    ensures Reaches(iv, v) && Stamps(v.polls) == ts && !v.polls[0].slow && v.row.Some? && v.grants.Keys == {1}
    ensures
      var r, last := v.row.value, ts[|ts| - 1];
      && r.lastPolled == Some(last) && 0 < r.interval
      && v.grants[1].Reading? && v.grants[1].last == r.lastPolled && v.grants[1].now == last + r.interval * SECOND
  {
    var row := Row(0, None, None, None, None, iv, 0);
    v := World(row, Some(row), map[], map[], [], [], []);
    assert Run(v, []) == v;
    v := PollAll(iv, v, ts);
    var r := v.row.value;
    v := Reach(iv, v, LookUp(1, r.client, ts[|ts| - 1] + r.interval * SECOND));
    v := Reach(iv, v, PollRead(1));
  }

  /** The stamp read comes back after a slow_down: the swap that read it goes through too soon. */
  lemma RepeatFails(iv: int, ts: seq<int>, i: nat) returns (v: World)
    requires 0 < iv && i < |ts| - 1 && ts[i] == ts[|ts| - 1]
    ensures Reaches(iv, v) && Stamps(v.polls) == ts && !v.polls[0].slow && Enabled(v, PollSwap(1))
    ensures
      var n := Next(v, PollSwap(1)).polls;
      |n| == |ts| + 1 && !n[|ts|].slow && n[|ts|].now - n[|ts| - 1].now < n[|ts|].interval * SECOND
  {
    var u := ReadAfter(iv, ts[..i + 1]);
    v := PollAll(iv, u, ts[i + 1..]);
    assert Stamps(v.polls) == ts[..i + 1] + ts[i + 1..] == ts;
    assert v.polls[|ts| - 1].now == Stamps(v.polls)[|ts| - 1];
    assert v.polls[0] == u.polls[0];
  }

  /**
   The exact demand on the clock: given the stamps recorded so far, the next
   poll found well paced is sure to have kept the stored interval if and only
   if the last of those stamps had not been recorded before.
   */
  lemma NextIsSpacedIff(iv: int, ts: seq<int>)
    requires 0 < iv
    ensures NextIsSpaced(iv, ts) <==> LastIsNew(ts)
  {
    if LastIsNew(ts) {
      forall v, a | Reaches(iv, v) && Stamps(v.polls) == ts && Enabled(v, a)
        ensures |v.polls| < |Next(v, a).polls| ==> Spaced(Next(v, a).polls, |v.polls|)
      {
        var w, acts :| Init(w) && w.issued.interval == iv && IsRun(w, acts) && Run(w, acts) == v;
        RunKeepsBooks(w, acts);
        SpacedAfterNew(v, a);
      }
    } else {
      var i :| 0 <= i < |ts| - 1 && ts[i] == ts[|ts| - 1];
      var v := RepeatFails(iv, ts, i);
      assert !Spaced(Next(v, PollSwap(1)).polls, |v.polls|);
    }
  }

  /** The least case: two polls stamped alike, and a third found well paced five seconds on with ten stored. */
  lemma EqualStampsDefeatTheSwap()
    ensures exists v ::
              && Reaches(5, v) && Stamps(v.polls) == [0, 0] && Enabled(v, PollSwap(1))
              && var polls := Next(v, PollSwap(1)).polls;
                 |polls| == 3 && !polls[0].slow && !polls[2].slow
                   && polls[2].now - polls[0].now < polls[2].interval * SECOND
  {
    var v := RepeatFails(5, [0, 0], 0);
    var polls := Next(v, PollSwap(1)).polls;
    assert Stamps(v.polls)[0] == 0 == Stamps(v.polls)[1];
    assert polls[0] == v.polls[0] && polls[1] == v.polls[1];
  }

  // ---------------------------------------------------------------------
  // Compare-and-swap against the row lock
  // ---------------------------------------------------------------------

  /** A SQLite poll nobody interrupts leaves exactly what the Postgres poll does. */
  lemma UninterruptedSwapIsLockedPoll(w: World, p: Pid)
    requires p in w.grants && w.grants[p].Polling?
    ensures var r := AfterPollRead(w, p);
            && (p !in r.grants ==> r == AfterPollLocked(w, p))
            && (p in r.grants && r.grants[p].Bumping? ==> AfterPollBump(r, p) == AfterPollLocked(w, p))
            && (p in r.grants && r.grants[p].Reading? ==> AfterPollSwap(r, p) == AfterPollLocked(w, p))
  {}
}
