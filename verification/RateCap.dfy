/**
 When the limiter's memory cap cannot be noticed: the capped limiter against
 one that never drops a bucket.
 */
module RateCap {
  import opened RateLimiter
  import opened RateLimits

  // ---------------------------------------------------------------------
  // The limiter without a cap
  // ---------------------------------------------------------------------

  type Table = map<Key, Bucket>

  function FreeTouched(c: Config, m: Table, k: Key, t: real): Bucket {
    if k in m then Refilled(c, m[k], t) else Bucket(Burst(c), t)
  }

  predicate FreeAnswer(c: Config, m: Table, e: Event) {
    e.Allow? && 1.0 <= FreeTouched(c, m, e.key, e.at).tokens
  }

  function FreeStep(c: Config, m: Table, e: Event): Table {
    match e
    case Allow(k, t) =>
      var b := FreeTouched(c, m, k, t);
      m[k := if b.tokens < 1.0 then b else b.(tokens := b.tokens - 1.0)]
    case GiveBack(k) =>
      if k in m then m[k := m[k].(tokens := Min(m[k].tokens + 1.0, Burst(c)))] else m
  }

  function FreeAt(c: Config, evs: seq<Event>, n: nat): Table
    requires n <= |evs|
  {
    if n == 0 then map[] else FreeStep(c, FreeAt(c, evs, n - 1), evs[n - 1])
  }

  // ---------------------------------------------------------------------
  // Full buckets
  // ---------------------------------------------------------------------

  predicate InRange(c: Config, b: Bucket) {
    0.0 <= b.tokens <= Burst(c)
  }

  /** Refilled to t the bucket is as good as new. */
  predicate Full(c: Config, b: Bucket, t: real) {
    Refilled(c, b, t).tokens == Burst(c)
  }

  lemma LongerGainsMore(rate: real, a: real, b: real)
    requires 0.0 < rate && a <= b
    ensures a * rate <= b * rate
  {
    var d := b - a;
    GainIsPositive(rate, d);
    assert a * rate + d * rate == (a + d) * rate;
    assert a + d == b;
  }

  lemma FullStays(c: Config, b: Bucket, t: real, u: real)
    requires Sane(c) && InRange(c, b) && Full(c, b, t) && t <= u
    ensures Full(c, b, u)
  {
    RefilledBounds(c, b, u);
    if b.last < t {
      LongerGainsMore(c.rate, t - b.last, u - b.last);
    } else if b.last < u {
      GainIsPositive(c.rate, u - b.last);
    }
  }

  lemma FullAfterRefund(c: Config, b: Bucket, t: real)
    requires Sane(c) && InRange(c, b) && Full(c, b, t)
    ensures Full(c, b.(tokens := Min(b.tokens + 1.0, Burst(c))), t)
  {
    if b.last < t {
      GainIsPositive(c.rate, t - b.last);
    }
  }

  /** Idle for a whole window, whatever it held. */
  lemma FullWhenIdle(c: Config, b: Bucket, t: real, per: real)
    requires Sane(c) && InRange(c, b) && 0.0 < per && per * c.rate == Burst(c) && per <= t - b.last
    ensures Full(c, b, t)
  {
    var d := t - b.last;
    LongerGainsMore(c.rate, per, d);
    RefilledGains(c, b, t);
    assert Burst(c) <= d * c.rate;
  }

  // ---------------------------------------------------------------------
  // Evicting full buckets loses nothing
  // ---------------------------------------------------------------------

  /** Where the capped limiter has a bucket both agree; where it has dropped one the uncapped one's is full. */
  predicate Sim(c: Config, l: Limits, m: Table, t: real) {
    && (forall k | k in m :: InRange(c, m[k]))
    && (forall k | k in l.buckets :: k in m && m[k] == l.buckets[k])
    && forall k | k in m && k !in l.buckets :: Full(c, m[k], t)
  }

  predicate EvictsFull(c: Config, l: Limits, e: Event) {
    e.Allow? && e.key !in l.buckets && c.maxKeys <= |l.order| ==>
      forall i | 0 <= i < |l.order| && c.maxKeys - 1 <= i ::
        l.order[i] in l.buckets ==> Full(c, l.buckets[l.order[i]], e.at)
  }

  lemma SimLater(c: Config, l: Limits, m: Table, t: real, u: real)
    requires Sane(c) && Sim(c, l, m, t) && t <= u
    ensures Sim(c, l, m, u)
  {
    forall k | k in m && k !in l.buckets ensures Full(c, m[k], u) {
      FullStays(c, m[k], t, u);
    }
  }

  lemma SimEvict(c: Config, l: Limits, m: Table, e: Event)
    requires Sane(c) && Ok(c, l) && e.Allow? && e.key !in l.buckets && Sim(c, l, m, e.at) && EvictsFull(c, l, e)
    ensures Sim(c, Evicted(c, l), m, e.at)
  {}

  lemma SimPut(c: Config, l: Limits, m: Table, t: real, order: seq<Key>, k: Key, b: Bucket)
    requires Sim(c, l, m, t) && InRange(c, b)
    ensures Sim(c, Limits(order, l.buckets[k := b]), m[k := b], t)
  {}

  /** After the touch both hold the same bucket for the key. */
  lemma TouchSim(c: Config, l: Limits, m: Table, k: Key, t: real)
    requires Sane(c) && Ok(c, l) && Sim(c, l, m, t) && EvictsFull(c, l, Allow(k, t))
    ensures
      var n := Touched(c, l, k, t);
      k in n.buckets && n.buckets[k] == FreeTouched(c, m, k, t) && Sim(c, n, m[k := FreeTouched(c, m, k, t)], t)
  {
    if k in l.buckets {
      RefilledBounds(c, l.buckets[k], t);
      SimPut(c, l, m, t, [k] + Without(l.order, k), k, Refilled(c, l.buckets[k], t));
    } else {
      SimEvict(c, l, m, Allow(k, t));
      SimPut(c, Evicted(c, l), m, t, [k] + Evicted(c, l).order, k, Bucket(Burst(c), t));
    }
  }

  /** Spending what both hold alike. */
  lemma SpendSim(c: Config, n: Limits, m: Table, k: Key, t: real, b: Bucket)
    requires Sim(c, n, m[k := b], t) && k in n.buckets && n.buckets[k] == b
    ensures Sim(c, Spend(n, k), m[k := if b.tokens < 1.0 then b else b.(tokens := b.tokens - 1.0)], t)
  {
    if 1.0 <= b.tokens {
      var spent := b.(tokens := b.tokens - 1.0);
      assert InRange(c, m[k := b][k]);
      SimPut(c, n, m[k := b], t, n.order, k, spent);
      assert m[k := b][k := spent] == m[k := spent];
    }
  }

  lemma AllowSim(c: Config, l: Limits, m: Table, k: Key, t: real)
    requires Sane(c) && Ok(c, l) && Sim(c, l, m, t) && EvictsFull(c, l, Allow(k, t))
    ensures Answer(c, l, Allow(k, t)) == FreeAnswer(c, m, Allow(k, t))
    ensures Sim(c, Step(c, l, Allow(k, t)), FreeStep(c, m, Allow(k, t)), t)
  {
    TouchSim(c, l, m, k, t);
    SpendSim(c, Touched(c, l, k, t), m, k, t, FreeTouched(c, m, k, t));
  }

  lemma GiveBackSim(c: Config, l: Limits, m: Table, k: Key, t: real)
    requires Sane(c) && Sim(c, l, m, t)
    ensures Sim(c, Refund(c, l, k), FreeStep(c, m, GiveBack(k)), t)
  {}

  function Later(e: Event, t: real): real {
    if e.Allow? then e.at else t
  }

  lemma StepSim(c: Config, l: Limits, m: Table, e: Event, t: real)
    requires Sane(c) && Ok(c, l) && Sim(c, l, m, t) && EvictsFull(c, l, e) && t <= Later(e, t)
    ensures Answer(c, l, e) == FreeAnswer(c, m, e)
    ensures Sim(c, Step(c, l, e), FreeStep(c, m, e), Later(e, t))
  {
    match e
    case Allow(k, u) =>
      SimLater(c, l, m, t, u);
      AllowSim(c, l, m, k, u);
    case GiveBack(k) =>
      GiveBackSim(c, l, m, k, t);
  }

  ghost function CapAt(c: Config, evs: seq<Event>, n: nat): (r: Limits)
    requires Sane(c) && n <= |evs|
    ensures Ok(c, r)
  {
    StateAt(c, Limits([], map[]), evs, n)
  }

  /** Whatever event i evicts has refilled. */
  ghost predicate EvictsFullAt(c: Config, evs: seq<Event>, i: nat)
    requires Sane(c) && i < |evs|
  {
    EvictsFull(c, CapAt(c, evs, i), evs[i])
  }

  predicate NotBefore(evs: seq<Event>, n: nat, t: real)
    requires n <= |evs|
  {
    forall i | n <= i < |evs| && evs[i].Allow? :: t <= evs[i].at
  }

  lemma CapSimNext(c: Config, evs: seq<Event>, n: nat, t: real)
    requires Sane(c) && n < |evs| && Sim(c, CapAt(c, evs, n), FreeAt(c, evs, n), t)
    requires EvictsFull(c, CapAt(c, evs, n), evs[n]) && NotBefore(evs, n, t)
    ensures Sim(c, CapAt(c, evs, n + 1), FreeAt(c, evs, n + 1), Later(evs[n], t))
  {
    StepSim(c, CapAt(c, evs, n), FreeAt(c, evs, n), evs[n], t);
    StateNext(c, Limits([], map[]), evs, n);
  }

  lemma NotBeforeNext(evs: seq<Event>, n: nat, t: real)
    requires Orderly(evs) && n < |evs| && NotBefore(evs, n, t)
    ensures NotBefore(evs, n + 1, Later(evs[n], t))
  {}

  lemma CapSimStart(c: Config, evs: seq<Event>, t: real)
    requires Sane(c)
    ensures Sim(c, CapAt(c, evs, 0), FreeAt(c, evs, 0), t)
  {}

  lemma {:induction false} CapSim(c: Config, evs: seq<Event>, n: nat) returns (t: real)
    requires Sane(c) && Orderly(evs) && n <= |evs|
    requires forall i: nat | i < |evs| :: EvictsFullAt(c, evs, i)
    ensures NotBefore(evs, n, t) && Sim(c, CapAt(c, evs, n), FreeAt(c, evs, n), t)
  {
    if n == 0 {
      t := Earliest(evs);
      CapSimStart(c, evs, t);
    } else {
      var m := n - 1;
      var u := CapSim(c, evs, m);
      assert EvictsFullAt(c, evs, m);
      CapSimNext(c, evs, m, u);
      NotBeforeNext(evs, m, u);
      t := Later(evs[m], u);
    }
  }

  lemma {:induction false} Earliest(evs: seq<Event>) returns (t: real)
    ensures NotBefore(evs, 0, t)
    decreases |evs|
  {
    t := 0.0;
    if evs != [] {
      var last := evs[|evs| - 1];
      t := Earliest(evs[..|evs| - 1]);
      assert forall i | 0 <= i < |evs| - 1 :: evs[i] == evs[..|evs| - 1][i];
      t := if last.Allow? then Min(t, last.at) else t;
    }
  }

  ghost predicate SameAnswers(c: Config, evs: seq<Event>)
    requires Sane(c)
  {
    forall i: nat | i < |evs| :: Answer(c, CapAt(c, evs, i), evs[i]) == FreeAnswer(c, FreeAt(c, evs, i), evs[i])
  }

  /** With a clock that does not run backwards, evicting only refilled buckets changes no answer, refunds included. */
  lemma EvictingFullLosesNothing(c: Config, evs: seq<Event>)
    requires Sane(c) && Orderly(evs)
    requires forall i: nat | i < |evs| :: EvictsFullAt(c, evs, i)
    ensures SameAnswers(c, evs)
  {
    forall i: nat | i < |evs|
      ensures Answer(c, CapAt(c, evs, i), evs[i]) == FreeAnswer(c, FreeAt(c, evs, i), evs[i])
    {
      var t := CapSim(c, evs, i);
      assert EvictsFullAt(c, evs, i);
      StepSim(c, CapAt(c, evs, i), FreeAt(c, evs, i), evs[i], t);
    }
  }
}
