/**
 Where the denylist cache's answers come from: a log beside the machine
 remembers every look at the store and every hydration, by the store itself
 and not by what the call made of it.
 */
module DenylistLooks {
  import opened DenylistCache
  import opened DenylistStaleness

  /** At that moment the store had the jti on the denylist or not, or an administrator had just put it there. */
  datatype Look = Look(jti: Jti, revoked: bool, at: int)

  function Noted(log: set<Look>, w: World, a: Step): set<Look> {
    match a
    case Read(c) => if c in w.calls then log + {Look(w.calls[c].jti, w.calls[c].jti in w.denied, w.now)} else log
    case Hydrate(_, j) => log + {Look(j, true, w.now)}
    case _ => log
  }

  function LogOf(log: set<Look>, w: World, cfg: Config, acts: seq<Step>): set<Look>
    requires IsRun(w, cfg, acts)
    decreases |acts|
  {
    if acts == [] then log else LogOf(Noted(log, w, acts[0]), Next(w, cfg, acts[0]), cfg, acts[1..])
  }

  predicate CallSeen(log: set<Look>, call: Call) {
    !call.Missed? ==> Look(call.jti, call.revoked, call.readAt) in log
  }

  /** The entry repeats a look; an "active" one lasts no more than a TTL and a lookup from it. */
  predicate EntrySeen(log: set<Look>, cfg: Config, now: int, j: Jti, e: Entry) {
    exists k :: k in log && k.jti == j && k.revoked == e.revoked && k.at <= now
      && (!e.revoked ==> e.expires <= k.at + cfg.latency + cfg.ttl)
  }

  /** The answer repeats a look no later than it; an "active" one is younger than the worst case. */
  predicate AnswerSeen(log: set<Look>, cfg: Config, x: Answer) {
    exists k :: k in log && k.jti == x.jti && k.revoked == x.revoked && k.at <= x.at
      && (!x.revoked ==> x.at < k.at + Worst(cfg))
  }

  predicate Seen(log: set<Look>, w: World, cfg: Config) {
    && (forall k | k in log :: k.at <= w.now)
    && (forall c | c in w.calls :: CallSeen(log, w.calls[c]))
    && (forall j | j in w.entries :: EntrySeen(log, cfg, w.now, j, w.entries[j]))
    && (forall x | x in w.answers :: AnswerSeen(log, cfg, x))
  }

  lemma EntryStaysSeen(log: set<Look>, more: set<Look>, cfg: Config, now: int, later: int, j: Jti, e: Entry)
    requires EntrySeen(log, cfg, now, j, e) && log <= more && now <= later
    ensures EntrySeen(more, cfg, later, j, e)
  {
    var k :| k in log && k.jti == j && k.revoked == e.revoked && k.at <= now
      && (!e.revoked ==> e.expires <= k.at + cfg.latency + cfg.ttl);
    assert k in more;
  }

  lemma AnswerStaysSeen(log: set<Look>, more: set<Look>, cfg: Config, x: Answer)
    requires AnswerSeen(log, cfg, x) && log <= more
    ensures AnswerSeen(more, cfg, x)
  {
    var k :| k in log && k.jti == x.jti && k.revoked == x.revoked && k.at <= x.at
      && (!x.revoked ==> x.at < k.at + Worst(cfg));
    assert k in more;
  }

  /** Steps that touch neither entries nor answers. */
  lemma QuietStepSeen(log: set<Look>, w: World, cfg: Config, a: Step)
    requires Seen(log, w, cfg) && Enabled(w, cfg, a) && !a.Probe? && !a.Memoize?
    ensures Seen(Noted(log, w, a), Next(w, cfg, a), cfg)
  {
    var n, more := Next(w, cfg, a), Noted(log, w, a);
    forall c | c in n.calls ensures CallSeen(more, n.calls[c]) {
      if c in w.calls { assert CallSeen(log, w.calls[c]); }
    }
    forall j | j in n.entries ensures EntrySeen(more, cfg, n.now, j, n.entries[j]) {
      EntryStaysSeen(log, more, cfg, w.now, n.now, j, w.entries[j]);
    }
    forall x | x in n.answers ensures AnswerSeen(more, cfg, x) { AnswerStaysSeen(log, more, cfg, x); }
  }

  lemma ProbeSeen(log: set<Look>, w: World, cfg: Config, c: CallId, j: Jti)
    requires Seen(log, w, cfg) && 0 <= cfg.latency && Enabled(w, cfg, Probe(c, j))
    ensures Seen(log, Next(w, cfg, Probe(c, j)), cfg)
  {
    var n := Next(w, cfg, Probe(c, j));
    if Hit(w, j) {
      var x := Answer(j, w.entries[j].revoked, w.now, true);
      assert EntrySeen(log, cfg, w.now, j, w.entries[j]);
      assert AnswerSeen(log, cfg, x);
    }
  }

  lemma MemoizedSeen(log: set<Look>, w: World, cfg: Config, c: CallId)
    requires Seen(log, w, cfg) && Inv(w, cfg) && c in w.calls && w.calls[c].Stamped?
    ensures
      var call := w.calls[c];
      && EntrySeen(log, cfg, w.now, call.jti, Entry(call.revoked, call.stamp + cfg.ttl))
      && AnswerSeen(log, cfg, Answer(call.jti, call.revoked, w.now, false))
  {
    var call := w.calls[c];
    assert CallOk(w, cfg, call) && CallSeen(log, call);
    var k := Look(call.jti, call.revoked, call.readAt);
    assert k in log && k.at <= w.now;
  }

  lemma MemoizeSeen(log: set<Look>, w: World, cfg: Config, c: CallId, after: map<Jti, Entry>, answers: bool)
    requires Seen(log, w, cfg) && Inv(w, cfg) && Enabled(w, cfg, Memoize(c, after, answers))
    ensures Seen(log, Next(w, cfg, Memoize(c, after, answers)), cfg)
  {
    MemoizedSeen(log, w, cfg, c);
  }

  lemma StepSeen(log: set<Look>, w: World, cfg: Config, a: Step)
    requires Seen(log, w, cfg) && Inv(w, cfg) && Enabled(w, cfg, a)
    ensures Seen(Noted(log, w, a), Next(w, cfg, a), cfg)
  {
    match a
    case Probe(c, j) => ProbeSeen(log, w, cfg, c, j);
    case Memoize(c, after, answers) => MemoizeSeen(log, w, cfg, c, after, answers);
    case _ => QuietStepSeen(log, w, cfg, a);
  }

  lemma {:induction false} RunSeen(log: set<Look>, w: World, cfg: Config, acts: seq<Step>)
    requires Seen(log, w, cfg) && Inv(w, cfg) && IsRun(w, cfg, acts)
    ensures Seen(LogOf(log, w, cfg, acts), Run(w, cfg, acts), cfg)
    decreases |acts|
  {
    if acts != [] {
      StepSeen(log, w, cfg, acts[0]);
      StepKeeps(w, cfg, acts[0]);
      RunSeen(Noted(log, w, acts[0]), Next(w, cfg, acts[0]), cfg, acts[1..]);
    }
  }

  /**
   Every answer, "revoked" or "active", is what the store said of that very
   token at some moment before it, or what a hydration said; and an "active"
   one is younger than a TTL plus a lookup.
   */
  lemma AnswersRepeatALook(w: World, cfg: Config, acts: seq<Step>)
    requires Init(w) && 0 <= cfg.latency && IsRun(w, cfg, acts)
    ensures forall x | x in Run(w, cfg, acts).answers :: AnswerSeen(LogOf({}, w, cfg, acts), cfg, x)
  {
    RunSeen({}, w, cfg, acts);
  }

  // ---------------------------------------------------------------------
  // One call
  // ---------------------------------------------------------------------

  /** An unexpired entry is the answer, and the store is not asked; otherwise it is. */
  lemma ProbeAnswers(w: World, cfg: Config, c: CallId, j: Jti)
    requires c !in w.calls
    ensures
      var n := Next(w, cfg, Probe(c, j));
      if j in w.entries && w.now < w.entries[j].expires
        then n == w.(answers := w.answers + [Answer(j, w.entries[j].revoked, w.now, true)])
      else n == w.(calls := w.calls[c := Missed(j)])
  {}

  lemma Joined(w: World, cfg: Config, a: Step, rest: seq<Step>)
    requires Enabled(w, cfg, a) && IsRun(Next(w, cfg, a), cfg, rest)
    ensures IsRun(w, cfg, [a] + rest) && Run(w, cfg, [a] + rest) == Run(Next(w, cfg, a), cfg, rest)
  {
    assert ([a] + rest)[1..] == rest;
  }

  /** A miss that nobody interrupts answers what the store says, and stores that for a TTL. */
  lemma MissAsksTheStore(w: World, cfg: Config, c: CallId, j: Jti, after: map<Jti, Entry>)
    requires c !in w.calls && !(j in w.entries && w.now < w.entries[j].expires)
    requires Stored(w.entries, after, j, Entry(j in w.denied, w.now + cfg.ttl))
    ensures
      var acts := [Probe(c, j)] + ([Read(c)] + ([Stamp(c)] + ([Memoize(c, after, true)] + [])));
      && IsRun(w, cfg, acts)
      && Run(w, cfg, acts) == w.(entries := after, answers := w.answers + [Answer(j, j in w.denied, w.now, false)])
  {
    var w1 := Next(w, cfg, Probe(c, j));
    var w2 := Next(w1, cfg, Read(c));
    var w3 := Next(w2, cfg, Stamp(c));
    assert w3.calls - {c} == w.calls;
    Joined(w3, cfg, Memoize(c, after, true), []);
    Joined(w2, cfg, Stamp(c), [Memoize(c, after, true)] + []);
    Joined(w1, cfg, Read(c), [Stamp(c)] + ([Memoize(c, after, true)] + []));
    Joined(w, cfg, Probe(c, j), [Read(c)] + ([Stamp(c)] + ([Memoize(c, after, true)] + [])));
  }

  /** A hydration nobody interrupts stores the revocation for a TTL, and answers nobody. */
  lemma HydrationStores(w: World, cfg: Config, c: CallId, j: Jti, after: map<Jti, Entry>)
    requires c !in w.calls && j in w.ever && j != "" && Stored(w.entries, after, j, Entry(true, w.now + cfg.ttl))
    ensures
      var acts := [Hydrate(c, j)] + ([Stamp(c)] + ([Memoize(c, after, false)] + []));
      IsRun(w, cfg, acts) && Run(w, cfg, acts) == w.(entries := after)
  {
    var w1 := Next(w, cfg, Hydrate(c, j));
    var w2 := Next(w1, cfg, Stamp(c));
    assert w2.calls - {c} == w.calls;
    Joined(w2, cfg, Memoize(c, after, false), []);
    Joined(w1, cfg, Stamp(c), [Memoize(c, after, false)] + []);
    Joined(w, cfg, Hydrate(c, j), [Stamp(c)] + ([Memoize(c, after, false)] + []));
  }
}
