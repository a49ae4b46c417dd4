/**
 The two ends of the cap: a load a caller can check under which it is never
 noticed, and the exact buckets whose loss nobody can notice.
 */
module RateCalm {
  import opened RateCap
  import opened RateLimiter
  import opened RateLimits
  import opened Sets

  // ---------------------------------------------------------------------
  // Calm traffic
  // ---------------------------------------------------------------------

  /** The keys tried in the window that ends with event i. */
  function Recent(evs: seq<Event>, i: nat, per: real): set<Key>
    requires i < |evs| && evs[i].Allow?
  {
    set j | 0 <= j <= i && evs[j].Allow? && evs[i].at - evs[j].at < per :: evs[j].key
  }

  /** No window sees more keys than the cap. */
  predicate Calm(c: Config, evs: seq<Event>, per: real) {
    forall i: nat | i < |evs| && evs[i].Allow? :: |Recent(evs, i, per)| <= c.maxKeys
  }

  /** The order is that of last use, every bucket's last use is an event so far, and none is in the future. */
  predicate Traced(l: Limits, evs: seq<Event>, n: nat)
    requires n <= |evs|
  {
    && (forall i, j | 0 <= i < j < |l.order| && l.order[i] in l.buckets && l.order[j] in l.buckets ::
          l.buckets[l.order[j]].last <= l.buckets[l.order[i]].last)
    && forall k | k in l.buckets :: exists i :: 0 <= i < n && evs[i] == Allow(k, l.buckets[k].last)
  }

  lemma {:induction false} WithoutOrdered(l: Limits, s: seq<Key>, k: Key)
    requires Distinct(s) && forall i, j | 0 <= i < j < |s| && s[i] in l.buckets && s[j] in l.buckets ::
      l.buckets[s[j]].last <= l.buckets[s[i]].last
    ensures var r := Without(s, k);
      forall i, j | 0 <= i < j < |r| && r[i] in l.buckets && r[j] in l.buckets ::
        l.buckets[r[j]].last <= l.buckets[r[i]].last
  {
    if s != [] {
      var rest := s[1..];
      assert forall i | 0 <= i < |rest| :: rest[i] == s[i + 1];
      WithoutOrdered(l, rest, k);
      WithoutIs(rest, k);
      assert s == [s[0]] + rest;
      forall j | 0 <= j < |Without(rest, k)| ensures Without(rest, k)[j] in rest {}
    }
  }

  lemma {:induction false} DistinctSize(s: seq<Key>)
    requires Distinct(s)
    ensures |set x | x in s| == |s|
    decreases |s|
  {
    if s != [] {
      var rest := s[1..];
      assert Distinct(rest) && s == [s[0]] + rest && s[0] !in rest;
      DistinctSize(rest);
      assert (set x | x in s) == (set x | x in rest) + {s[0]};
    }
  }

  /** Putting the key just used in front of an ordered list of others. */
  lemma TracedPut(l: Limits, evs: seq<Event>, n: nat, order: seq<Key>, k: Key, b: Bucket)
    requires n < |evs| && Orderly(evs) && Traced(l, evs, n) && evs[n] == Allow(k, b.last)
    requires k !in order && forall i, j | 0 <= i < j < |order| && order[i] in l.buckets && order[j] in l.buckets ::
      l.buckets[order[j]].last <= l.buckets[order[i]].last
    ensures Traced(Limits([k] + order, l.buckets[k := b]), evs, n + 1)
  {}

  lemma TracedTouch(c: Config, l: Limits, evs: seq<Event>, n: nat, k: Key, t: real)
    requires Sane(c) && Ok(c, l) && n < |evs| && Orderly(evs) && Traced(l, evs, n) && evs[n] == Allow(k, t)
    ensures Traced(Touched(c, l, k, t), evs, n + 1)
  {
    if k in l.buckets {
      WithoutIs(l.order, k);
      WithoutOrdered(l, l.order, k);
      TracedPut(l, evs, n, Without(l.order, k), k, Refilled(c, l.buckets[k], t));
    } else {
      EvictedOk(c, l);
      TracedEvicted(c, l, evs, n);
      TracedPut(Evicted(c, l), evs, n, Evicted(c, l).order, k, Bucket(Burst(c), t));
    }
  }

  lemma TracedEvicted(c: Config, l: Limits, evs: seq<Event>, n: nat)
    requires Sane(c) && n <= |evs| && Traced(l, evs, n)
    ensures Traced(Evicted(c, l), evs, n)
  {}

  lemma TracedSpend(l: Limits, evs: seq<Event>, n: nat, k: Key)
    requires n <= |evs| && Traced(l, evs, n) && k in l.buckets
    ensures Traced(Spend(l, k), evs, n)
  {}

  lemma TracedRefund(c: Config, l: Limits, evs: seq<Event>, n: nat, k: Key)
    requires n < |evs| && Traced(l, evs, n)
    ensures Traced(Refund(c, l, k), evs, n + 1)
  {}

  lemma TracedStep(c: Config, l: Limits, evs: seq<Event>, n: nat)
    requires Sane(c) && Ok(c, l) && n < |evs| && Orderly(evs) && Traced(l, evs, n)
    ensures Traced(Step(c, l, evs[n]), evs, n + 1)
  {
    match evs[n]
    case GiveBack(k) => TracedRefund(c, l, evs, n, k);
    case Allow(k, t) =>
      TouchedOk(c, l, k, t);
      TracedTouch(c, l, evs, n, k, t);
      TracedSpend(Touched(c, l, k, t), evs, n + 1, k);
  }

  lemma CapTracedNext(c: Config, evs: seq<Event>, n: nat)
    requires Sane(c) && Orderly(evs) && n < |evs| && Traced(CapAt(c, evs, n), evs, n)
    ensures Traced(CapAt(c, evs, n + 1), evs, n + 1)
  {
    TracedStep(c, CapAt(c, evs, n), evs, n);
    StateNext(c, Limits([], map[]), evs, n);
  }

  lemma {:induction false} CapTraced(c: Config, evs: seq<Event>, n: nat)
    requires Sane(c) && Orderly(evs) && n <= |evs|
    ensures Traced(CapAt(c, evs, n), evs, n)
  {
    if n != 0 {
      CapTraced(c, evs, n - 1);
      CapTracedNext(c, evs, n - 1);
    }
  }

  lemma ManyRecent(c: Config, l: Limits, evs: seq<Event>, n: nat, per: real)
    requires Ok(c, l) && n < |evs| && Traced(l, evs, n) && evs[n].Allow? && evs[n].key !in l.buckets && 0.0 < per
    requires forall k | k in l.buckets :: evs[n].at - l.buckets[k].last < per
    ensures |l.order| < |Recent(evs, n, per)|
  {
    var old_ := set x | x in l.order;
    DistinctSize(l.order);
    forall k | k in old_ ensures k in Recent(evs, n, per) {
      var i :| 0 <= i < n && evs[i] == Allow(k, l.buckets[k].last);
    }
    SubsetIsSmaller(old_ + {evs[n].key}, Recent(evs, n, per));
  }

  /** In calm traffic a new key finds the least recently used bucket idle for a whole window. */
  lemma OldestIsIdle(c: Config, l: Limits, evs: seq<Event>, n: nat, per: real)
    requires Sane(c) && Ok(c, l) && n < |evs| && Traced(l, evs, n) && Calm(c, evs, per) && 0.0 < per
    requires evs[n].Allow? && evs[n].key !in l.buckets && |l.order| == c.maxKeys
    ensures per <= evs[n].at - l.buckets[l.order[c.maxKeys - 1]].last
  {
    var last := c.maxKeys - 1;
    if evs[n].at - l.buckets[l.order[last]].last < per {
      forall k | k in l.buckets ensures evs[n].at - l.buckets[k].last < per {
        var i :| 0 <= i < |l.order| && l.order[i] == k;
        assert i < last ==> l.buckets[l.order[last]].last <= l.buckets[l.order[i]].last;
      }
      ManyRecent(c, l, evs, n, per);
      assert false;
    }
  }

  lemma CalmEvictsFull(c: Config, l: Limits, evs: seq<Event>, n: nat, per: real)
    requires Sane(c) && Ok(c, l) && n < |evs| && Traced(l, evs, n)
    requires Calm(c, evs, per) && 0.0 < per && per * c.rate == Burst(c)
    ensures EvictsFull(c, l, evs[n])
  {
    var e := evs[n];
    if e.Allow? && e.key !in l.buckets && c.maxKeys <= |l.order| {
      OldestIsIdle(c, l, evs, n, per);
      FullWhenIdle(c, l.buckets[l.order[c.maxKeys - 1]], e.at, per);
    }
  }

  /**
   As long as no window of `per` (the time to refill a whole burst) sees more
   distinct keys than the cap, the limiter answers as if it had no cap.
   */
  lemma CalmTrafficNeverSeesTheCap(c: Config, evs: seq<Event>, per: real)
    requires Sane(c) && Orderly(evs) && Calm(c, evs, per) && 0.0 < per && per * c.rate == Burst(c)
    ensures SameAnswers(c, evs)
  {
    forall i: nat | i < |evs| ensures EvictsFullAt(c, evs, i) {
      CapTraced(c, evs, i);
      CalmEvictsFull(c, CapAt(c, evs, i), evs, i, per);
    }
    EvictingFullLosesNothing(c, evs);
  }

  // ---------------------------------------------------------------------
  // Which buckets can be dropped unnoticed
  // ---------------------------------------------------------------------

  /** The answers one key gets, given its bucket or the lack of one. */
  function KeyAnswers(c: Config, m: Table, evs: seq<Event>): seq<bool>
    decreases |evs|
  {
    if evs == [] then [] else [FreeAnswer(c, m, evs[0])] + KeyAnswers(c, FreeStep(c, m, evs[0]), evs[1..])
  }

  /** Calls for k alone, from t on, by a clock that does not run backwards. */
  predicate CallsFor(evs: seq<Event>, k: Key, t: real) {
    Orderly(evs) && forall i | 0 <= i < |evs| :: evs[i].key == k && (evs[i].Allow? ==> t <= evs[i].at)
  }

  ghost predicate Indistinguishable(c: Config, b: Bucket, t: real) {
    forall evs, k | CallsFor(evs, k, t) :: KeyAnswers(c, map[k := b], evs) == KeyAnswers(c, map[], evs)
  }

  lemma {:induction false} FullIsFresh(c: Config, b: Bucket, t: real, k: Key, evs: seq<Event>)
    requires Sane(c) && InRange(c, b) && Full(c, b, t) && CallsFor(evs, k, t)
    ensures KeyAnswers(c, map[k := b], evs) == KeyAnswers(c, map[], evs)
    decreases |evs|
  {
    if evs != [] {
      var m: Table := map[k := b];
      var rest := evs[1..];
      assert forall i | 0 <= i < |rest| :: rest[i] == evs[i + 1];
      match evs[0] {
        case Allow(_, u) =>
          FullStays(c, b, t, u);
          assert FreeTouched(c, m, k, u) == FreeTouched(c, map[], k, u);
          assert FreeStep(c, m, evs[0]) == FreeStep(c, map[], evs[0]);
        case GiveBack(_) =>
          FullAfterRefund(c, b, t);
          var r := b.(tokens := Min(b.tokens + 1.0, Burst(c)));
          assert FreeStep(c, m, evs[0]) == map[k := r];
          FullIsFresh(c, r, t, k, rest);
      }
    }
  }

  /** n attempts at once. */
  function Attempts(k: Key, t: real, n: nat): seq<Event> {
    seq(n, _ => Allow(k, t))
  }

  /** The n-th of n attempts at once from a bucket standing at t succeeds exactly if it held n tokens. */
  lemma {:induction false} LastAttempt(c: Config, b: Bucket, k: Key, t: real, n: nat)
    requires 0 < n && b.last == t
    ensures var r := KeyAnswers(c, map[k := b], Attempts(k, t, n));
      |r| == n && (r[n - 1] <==> n as real <= b.tokens)
    decreases n
  {
    var evs := Attempts(k, t, n);
    assert evs[1..] == Attempts(k, t, n - 1);
    assert Refilled(c, b, t) == b;
    var d := if b.tokens < 1.0 then b else b.(tokens := b.tokens - 1.0);
    assert FreeStep(c, map[k := b], evs[0]) == map[k := d];
    if 1 < n {
      LastAttempt(c, d, k, t, n - 1);
    }
  }

  lemma LastAttemptFrom(c: Config, m: Table, b: Bucket, k: Key, t: real, n: nat)
    requires 0 < n && b == FreeTouched(c, m, k, t) && m.Keys <= {k}
    ensures var r := KeyAnswers(c, m, Attempts(k, t, n));
      |r| == n && (r[n - 1] <==> n as real <= b.tokens)
  {
    var evs := Attempts(k, t, n);
    assert evs[1..] == Attempts(k, t, n - 1);
    var d := if b.tokens < 1.0 then b else b.(tokens := b.tokens - 1.0);
    assert FreeStep(c, m, evs[0]) == map[k := d];
    if 1 < n {
      LastAttempt(c, d, k, t, n - 1);
    }
  }

  /** A bucket can be dropped at t without any later call noticing exactly when, refilled to t, it is full. */
  lemma UnnoticedIffFull(c: Config, b: Bucket, t: real)
    requires Sane(c) && InRange(c, b)
    ensures Indistinguishable(c, b, t) <==> Full(c, b, t)
  {
    if Full(c, b, t) {
      forall evs, k | CallsFor(evs, k, t) ensures KeyAnswers(c, map[k := b], evs) == KeyAnswers(c, map[], evs) {
        FullIsFresh(c, b, t, k, evs);
      }
    } else {
      RefilledBounds(c, b, t);
      var k: Key := "";
      var evs := Attempts(k, t, c.burst);
      LastAttemptFrom(c, map[k := b], Refilled(c, b, t), k, t, c.burst);
      LastAttemptFrom(c, map[], Bucket(Burst(c), t), k, t, c.burst);
      assert CallsFor(evs, k, t);
      assert KeyAnswers(c, map[k := b], evs) != KeyAnswers(c, map[], evs);
    }
  }
}
