/**
 How stale the denylist cache can be.  A miss reads the backing store outside
 the mutex, reads the clock, and only then takes the mutex to memoize, so
 lookups, hydrations and revocations interleave freely.  `latency` bounds the
 time from a store read to the memoizing of its answer.
 */
module DenylistStaleness {
  import opened DenylistCache

  type CallId = nat

  datatype Config = Config(ttl: int, latency: int)

  /** A call between two of its steps: missed, holding the store's answer, or also holding the clock reading. */
  datatype Call =
    | Missed(jti: Jti)
    | Fetched(jti: Jti, revoked: bool, readAt: int)
    | Stamped(jti: Jti, revoked: bool, readAt: int, stamp: int)

  datatype Answer = Answer(jti: Jti, revoked: bool, at: int, cached: bool)

  /** denied: the denylist, with the moment of each revocation; ever: every jti that was ever on it. */
  datatype World = World(now: int, denied: map<Jti, int>, ever: set<Jti>,
                         entries: map<Jti, Entry>, calls: map<CallId, Call>, answers: seq<Answer>)

  datatype Step =
    | Tick(t: int)
    | Revoke(jti: Jti)
    | Reap(jti: Jti)
    | Probe(c: CallId, jti: Jti)
    | Read(c: CallId)
    | Fail(c: CallId)
    | Hydrate(c: CallId, jti: Jti)
    | Stamp(c: CallId)
    | Memoize(c: CallId, after: map<Jti, Entry>, answers: bool)

  predicate Hit(w: World, j: Jti) {
    j in w.entries && w.now < w.entries[j].expires
  }

  predicate Enabled(w: World, cfg: Config, a: Step) {
    match a
    case Tick(t) =>
      && w.now <= t
      && forall c | c in w.calls && !w.calls[c].Missed? && !w.calls[c].revoked :: t <= w.calls[c].readAt + cfg.latency
    case Revoke(j) => j !in w.denied
    case Reap(_) => true
    case Probe(c, _) => c !in w.calls
    case Read(c) => c in w.calls && w.calls[c].Missed?
    case Fail(c) => c in w.calls && w.calls[c].Missed?
    case Hydrate(c, j) => c !in w.calls && j in w.ever && j != ""
    case Stamp(c) => c in w.calls && w.calls[c].Fetched?
    case Memoize(c, after, _) =>
      && c in w.calls && w.calls[c].Stamped?
      && Stored(w.entries, after, w.calls[c].jti, Entry(w.calls[c].revoked, w.calls[c].stamp + cfg.ttl))
  }

  function Next(w: World, cfg: Config, a: Step): World
    requires Enabled(w, cfg, a)
  {
    match a
    case Tick(t) => w.(now := t)
    case Revoke(j) => w.(denied := w.denied[j := w.now], ever := w.ever + {j})
    case Reap(j) => w.(denied := w.denied - {j})
    case Probe(c, j) =>
      if Hit(w, j) then w.(answers := w.answers + [Answer(j, w.entries[j].revoked, w.now, true)])
      else w.(calls := w.calls[c := Missed(j)])
    case Read(c) => w.(calls := w.calls[c := Fetched(w.calls[c].jti, w.calls[c].jti in w.denied, w.now)])
    case Fail(c) => w.(calls := w.calls - {c})
    case Hydrate(c, j) => w.(calls := w.calls[c := Fetched(j, true, w.now)])
    case Stamp(c) => w.(calls := w.calls[c := Stamped(w.calls[c].jti, w.calls[c].revoked, w.calls[c].readAt, w.now)])
    case Memoize(c, after, answers) =>
      var call := w.calls[c];
      w.(entries := after, calls := w.calls - {c},
         answers := if answers then w.answers + [Answer(call.jti, call.revoked, w.now, false)] else w.answers)
  }

  predicate IsRun(w: World, cfg: Config, acts: seq<Step>)
    decreases |acts|
  {
    acts == [] || (Enabled(w, cfg, acts[0]) && IsRun(Next(w, cfg, acts[0]), cfg, acts[1..]))
  }

  function Run(w: World, cfg: Config, acts: seq<Step>): World
    requires IsRun(w, cfg, acts)
    decreases |acts|
  {
    if acts == [] then w else Run(Next(w, cfg, acts[0]), cfg, acts[1..])
  }

  predicate Init(w: World) {
    w.denied == map[] && w.ever == {} && w.entries == map[] && w.calls == map[] && w.answers == []
  }

  // ---------------------------------------------------------------------
  // Staleness
  // ---------------------------------------------------------------------

  function Worst(cfg: Config): int {
    cfg.latency + if cfg.ttl < 1 then 1 else cfg.ttl
  }

  predicate CallOk(w: World, cfg: Config, call: Call) {
    && (!call.Missed? && !call.revoked ==> call.readAt <= w.now <= call.readAt + cfg.latency)
    && (!call.Missed? && !call.revoked && call.jti in w.denied ==> call.readAt <= w.denied[call.jti])
    && (call.Stamped? && !call.revoked ==> call.stamp <= w.now)
    && (!call.Missed? && call.revoked ==> call.jti in w.ever)
  }

  predicate EntryOk(w: World, cfg: Config, j: Jti, e: Entry) {
    && (!e.revoked && j in w.denied ==> e.expires <= w.denied[j] + cfg.latency + cfg.ttl)
    && (!e.revoked ==> e.expires <= w.now + cfg.ttl)
    && (e.revoked ==> j in w.ever)
  }

  /** An answer is as good as its jti's revocation then was recent, as far as the present denylist can tell. */
  predicate AnswerOk(w: World, cfg: Config, x: Answer) {
    && x.at <= w.now
    && (!x.revoked && x.jti in w.denied ==> x.at < w.denied[x.jti] + Worst(cfg))
    && (x.revoked ==> x.jti in w.ever)
  }

  predicate Inv(w: World, cfg: Config) {
    && 0 <= cfg.latency
    && w.denied.Keys <= w.ever
    && (forall j | j in w.denied :: w.denied[j] <= w.now)
    && (forall c | c in w.calls :: CallOk(w, cfg, w.calls[c]))
    && (forall j | j in w.entries :: EntryOk(w, cfg, j, w.entries[j]))
    && (forall x | x in w.answers :: AnswerOk(w, cfg, x))
  }

  lemma RevokeKeeps(w: World, cfg: Config, j: Jti)
    requires Inv(w, cfg) && j !in w.denied
    ensures Inv(Next(w, cfg, Revoke(j)), cfg)
  {}

  lemma MemoizeKeeps(w: World, cfg: Config, c: CallId, after: map<Jti, Entry>, answers: bool)
    requires Inv(w, cfg) && Enabled(w, cfg, Memoize(c, after, answers))
    ensures Inv(Next(w, cfg, Memoize(c, after, answers)), cfg)
  {}

  lemma CallsKeep(w: World, cfg: Config, a: Step)
    requires Inv(w, cfg) && Enabled(w, cfg, a) && (a.Read? || a.Fail? || a.Hydrate? || a.Stamp? || a.Probe?)
    ensures Inv(Next(w, cfg, a), cfg)
  {}

  lemma StepKeeps(w: World, cfg: Config, a: Step)
    requires Inv(w, cfg) && Enabled(w, cfg, a)
    ensures Inv(Next(w, cfg, a), cfg)
  {
    match a
    case Revoke(j) => RevokeKeeps(w, cfg, j);
    case Memoize(c, after, answers) => MemoizeKeeps(w, cfg, c, after, answers);
    case Tick(t) =>
      var n := w.(now := t);
      forall c | c in n.calls ensures CallOk(n, cfg, n.calls[c]) { assert CallOk(w, cfg, w.calls[c]); }
      forall k | k in n.entries ensures EntryOk(n, cfg, k, n.entries[k]) { assert EntryOk(w, cfg, k, w.entries[k]); }
      forall x | x in n.answers ensures AnswerOk(n, cfg, x) { assert AnswerOk(w, cfg, x); }
    case Reap(j) =>
      var n := Next(w, cfg, a);
      forall c | c in n.calls ensures CallOk(n, cfg, n.calls[c]) { assert CallOk(w, cfg, w.calls[c]); }
      forall k | k in n.entries ensures EntryOk(n, cfg, k, n.entries[k]) { assert EntryOk(w, cfg, k, w.entries[k]); }
      forall x | x in n.answers ensures AnswerOk(n, cfg, x) { assert AnswerOk(w, cfg, x); }
    case _ => CallsKeep(w, cfg, a);
  }

  lemma {:induction false} RunKeeps(w: World, cfg: Config, acts: seq<Step>)
    requires Inv(w, cfg) && IsRun(w, cfg, acts)
    ensures Inv(Run(w, cfg, acts), cfg)
    decreases |acts|
  {
    if acts != [] {
      StepKeeps(w, cfg, acts[0]);
      RunKeeps(Next(w, cfg, acts[0]), cfg, acts[1..]);
    }
  }

  /** No token still on the denylist was accepted `bound` or more after its revocation. */
  predicate StaleFor(w: World, bound: int) {
    forall x | x in w.answers :: !x.revoked && x.jti in w.denied ==> x.at < w.denied[x.jti] + bound
  }

  ghost predicate Reachable(v: World, cfg: Config) {
    exists w, acts :: Init(w) && IsRun(w, cfg, acts) && Run(w, cfg, acts) == v
  }

  ghost predicate AlwaysWithin(cfg: Config, bound: int) {
    forall v | Reachable(v, cfg) :: StaleFor(v, bound)
  }

  lemma Snoc(w: World, cfg: Config, acts: seq<Step>, a: Step)
    requires IsRun(w, cfg, acts) && Enabled(Run(w, cfg, acts), cfg, a)
    ensures IsRun(w, cfg, acts + [a]) && Run(w, cfg, acts + [a]) == Next(Run(w, cfg, acts), cfg, a)
    decreases |acts|
  {
    if acts == [] {
      assert [] + [a] == [a] && [a][1..] == [];
      assert Run(Next(w, cfg, a), cfg, []) == Next(w, cfg, a);
    } else {
      Snoc(Next(w, cfg, acts[0]), cfg, acts[1..], a);
      assert (acts + [a])[1..] == acts[1..] + [a];
    }
  }

  lemma Reach(v: World, cfg: Config, a: Step) returns (n: World)
    requires Reachable(v, cfg) && Enabled(v, cfg, a)
    ensures n == Next(v, cfg, a) && Reachable(n, cfg)
  {
    var w, acts :| Init(w) && IsRun(w, cfg, acts) && Run(w, cfg, acts) == v;
    Snoc(w, cfg, acts, a);
    n := Next(v, cfg, a);
  }

  /** Read just before the revocation, memoized and answered `latency` later. */
  lemma StaleMemoized(cfg: Config) returns (v: World)
    requires 0 <= cfg.latency
    ensures Reachable(v, cfg) && v.now == cfg.latency && v.calls == map[] && v.denied == map["j" := 0]
    ensures v.entries == map["j" := Entry(false, cfg.latency + cfg.ttl)]
      && v.answers == [Answer("j", false, cfg.latency, false)]
  {
    v := World(0, map[], {}, map[], map[], []);
    assert Run(v, cfg, []) == v;
    v := Reach(v, cfg, Probe(0, "j"));
    v := Reach(v, cfg, Read(0));
    v := Reach(v, cfg, Revoke("j"));
    v := Reach(v, cfg, Tick(cfg.latency));
    v := Reach(v, cfg, Stamp(0));
    v := Reach(v, cfg, Memoize(0, map["j" := Entry(false, cfg.latency + cfg.ttl)], true));
  }

  /** The worst case happens: the stale entry is used until it expires. */
  lemma WorstCaseHappens(cfg: Config) returns (v: World)
    requires 0 <= cfg.latency
    ensures Reachable(v, cfg) && !StaleFor(v, Worst(cfg) - 1)
  {
    v := StaleMemoized(cfg);
    if 1 < cfg.ttl {
      v := Reach(v, cfg, Tick(cfg.latency + cfg.ttl - 1));
      v := Reach(v, cfg, Probe(1, "j"));
      assert v.answers[1] == Answer("j", false, cfg.latency + cfg.ttl - 1, true);
    } else {
      assert v.answers[0] == Answer("j", false, cfg.latency, false);
    }
  }

  /** The staleness bounds the cache meets, exactly: one TTL plus one lookup, not the TTL alone. */
  lemma StalenessIsTtlPlusLatency(cfg: Config, bound: int)
    requires 0 <= cfg.latency
    ensures AlwaysWithin(cfg, bound) <==> Worst(cfg) <= bound
  {
    if Worst(cfg) <= bound {
      forall v | Reachable(v, cfg) ensures StaleFor(v, bound) {
        var w, acts :| Init(w) && IsRun(w, cfg, acts) && Run(w, cfg, acts) == v;
        RunKeeps(w, cfg, acts);
        forall x | x in v.answers ensures AnswerOk(v, cfg, x) {}
      }
    } else {
      var v := WorstCaseHappens(cfg);
      assert !StaleFor(v, bound);
    }
  }

  /** A "revoked" answer is never invented. */
  lemma RevokedAnswersAreTrue(w: World, cfg: Config, acts: seq<Step>, x: Answer)
    requires Init(w) && 0 <= cfg.latency && IsRun(w, cfg, acts) && x in Run(w, cfg, acts).answers && x.revoked
    ensures x.jti in Run(w, cfg, acts).ever
  {
    RunKeeps(w, cfg, acts);
    assert AnswerOk(Run(w, cfg, acts), cfg, x);
  }

  // ---------------------------------------------------------------------
  // Hydrating
  // ---------------------------------------------------------------------

  /** A lookup in flight that read j as active. */
  predicate StaleCall(call: Call, j: Jti) {
    !call.Missed? && call.jti == j && !call.revoked
  }

  predicate NoStaleCall(w: World, j: Jti) {
    forall c | c in w.calls :: !StaleCall(w.calls[c], j)
  }

  predicate Hydrated(w: World, j: Jti) {
    j in w.denied && j in w.entries && w.entries[j].revoked
  }

  predicate RejectsFrom(w: World, n: nat, j: Jti) {
    forall i | n <= i < |w.answers| :: w.answers[i].jti == j ==> w.answers[i].revoked
  }

  predicate Secured(w: World, j: Jti) {
    j in w.denied && (j in w.entries ==> w.entries[j].revoked) && NoStaleCall(w, j)
  }

  predicate Unreaped(acts: seq<Step>, j: Jti) {
    Reap(j) !in acts
  }

  lemma SecuredStep(w: World, cfg: Config, a: Step, n: nat, j: Jti)
    requires Secured(w, j) && Enabled(w, cfg, a) && a != Reap(j) && n <= |w.answers| && RejectsFrom(w, n, j)
    ensures Secured(Next(w, cfg, a), j) && RejectsFrom(Next(w, cfg, a), n, j) && n <= |Next(w, cfg, a).answers|
  {}

  lemma {:induction false} SecuredRun(w: World, cfg: Config, acts: seq<Step>, n: nat, j: Jti)
    requires Secured(w, j) && IsRun(w, cfg, acts) && Unreaped(acts, j) && n <= |w.answers| && RejectsFrom(w, n, j)
    ensures RejectsFrom(Run(w, cfg, acts), n, j)
    decreases |acts|
  {
    if acts != [] {
      assert acts[0] in acts;
      SecuredStep(w, cfg, acts[0], n, j);
      SecuredRun(Next(w, cfg, acts[0]), cfg, acts[1..], n, j);
    }
  }

  ghost predicate RejectedEverAfter(w: World, cfg: Config, j: Jti) {
    forall acts | IsRun(w, cfg, acts) && Unreaped(acts, j) :: RejectsFrom(Run(w, cfg, acts), |w.answers|, j)
  }

  /** The stale lookup answers, and what it memoizes answers the next caller too. */
  lemma StaleCallOverwrites(w: World, cfg: Config, j: Jti, c: CallId, d: CallId) returns (acts: seq<Step>)
    requires Inv(w, cfg) && c in w.calls && StaleCall(w.calls[c], j) && d != c && d !in w.calls
    ensures IsRun(w, cfg, acts) && Unreaped(acts, j)
    ensures !RejectsFrom(Run(w, cfg, acts), |w.answers|, j)
    ensures w.calls[c].Fetched? && 0 < cfg.ttl ==>
      Run(w, cfg, acts).answers == w.answers + [Answer(j, false, w.now, false), Answer(j, false, w.now, true)]
  {
    acts := [];
    if w.calls[c].Fetched? {
      Snoc(w, cfg, acts, Stamp(c)); acts := acts + [Stamp(c)];
    }
    var u := Run(w, cfg, acts);
    var after := u.entries[j := Entry(false, u.calls[c].stamp + cfg.ttl)];
    Snoc(w, cfg, acts, Memoize(c, after, true)); acts := acts + [Memoize(c, after, true)];
    var v := Run(w, cfg, acts);
    assert v.answers[|w.answers|] == Answer(j, false, w.now, false);
    Snoc(w, cfg, acts, Probe(d, j)); acts := acts + [Probe(d, j)];
    assert Run(w, cfg, acts).answers[|w.answers|] == Answer(j, false, w.now, false);
  }

  lemma {:induction false} FreshCall(taken: set<CallId>) returns (d: CallId)
    ensures forall c | c in taken :: c < d
    decreases |taken|
  {
    d := 0;
    if c :| c in taken {
      var e := FreshCall(taken - {c});
      d := if e <= c then c + 1 else e;
      assert forall x | x in taken :: x == c || x in taken - {c};
    }
  }

  /** Once hydrated, j is rejected for good exactly when no lookup that read it as active is still in flight. */
  lemma HydrateSticksIff(w: World, cfg: Config, j: Jti)
    requires Inv(w, cfg) && Hydrated(w, j)
    ensures RejectedEverAfter(w, cfg, j) <==> NoStaleCall(w, j)
  {
    if NoStaleCall(w, j) {
      forall acts | IsRun(w, cfg, acts) && Unreaped(acts, j) ensures RejectsFrom(Run(w, cfg, acts), |w.answers|, j) {
        SecuredRun(w, cfg, acts, |w.answers|, j);
      }
    } else {
      var c :| c in w.calls && StaleCall(w.calls[c], j);
      var d := FreshCall(w.calls.Keys);
      var acts := StaleCallOverwrites(w, cfg, j, c, d);
    }
  }
}
