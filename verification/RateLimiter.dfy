/**
 The per-key token-bucket limiter: buckets start full, refill continuously and
 are dropped least-recently-used first past the cap.  Token counts and times
 are real numbers.
 */
module RateLimiter {
  type Key = string

  /** rate: tokens per second. */
  datatype Config = Config(burst: nat, rate: real, maxKeys: nat)

  predicate Sane(c: Config) {
    0 < c.burst && 0.0 < c.rate && 0 < c.maxKeys
  }

  function Burst(c: Config): real {
    c.burst as real
  }

  datatype Bucket = Bucket(tokens: real, last: real)

  /** order: most recently allowed first. */
  datatype Limits = Limits(order: seq<Key>, buckets: map<Key, Bucket>)

  function Min(a: real, b: real): real {
    if a < b then a else b
  }

  function Refilled(c: Config, b: Bucket, now: real): Bucket {
    Bucket(if b.last < now then Min(b.tokens + (now - b.last) * c.rate, Burst(c)) else b.tokens, now)
  }

  function Without(s: seq<Key>, k: Key): seq<Key> {
    if s == [] then [] else if s[0] == k then Without(s[1..], k) else [s[0]] + Without(s[1..], k)
  }

  /** The n most recently used. */
  function Front(l: Limits, n: nat): Limits
    requires n <= |l.order|
  {
    Limits(l.order[..n], map k | k in l.buckets && k in l.order[..n] :: l.buckets[k])
  }

  function Evicted(c: Config, l: Limits): Limits
    requires Sane(c)
  {
    if |l.order| < c.maxKeys then l else Front(l, c.maxKeys - 1)
  }

  /** The limiter with key's bucket refilled to now and in front. */
  function Touched(c: Config, l: Limits, key: Key, now: real): Limits
    requires Sane(c)
  {
    if key in l.buckets then Limits([key] + Without(l.order, key), l.buckets[key := Refilled(c, l.buckets[key], now)])
    else Limits([key] + Evicted(c, l).order, Evicted(c, l).buckets[key := Bucket(Burst(c), now)])
  }

  function Spend(l: Limits, key: Key): Limits
    requires key in l.buckets
  {
    var b := l.buckets[key];
    if b.tokens < 1.0 then l else l.(buckets := l.buckets[key := b.(tokens := b.tokens - 1.0)])
  }

  function Refund(c: Config, l: Limits, key: Key): Limits {
    if key !in l.buckets then l
    else l.(buckets := l.buckets[key := l.buckets[key].(tokens := Min(l.buckets[key].tokens + 1.0, Burst(c)))])
  }

  predicate Distinct(s: seq<Key>) {
    forall i, j | 0 <= i < j < |s| :: s[i] != s[j]
  }

  /** The list and the map hold the same keys, within the cap, and no bucket is over- or underfull. */
  ghost predicate Ok(c: Config, l: Limits) {
    && Distinct(l.order) && |l.order| <= c.maxKeys
    && (forall k :: k in l.order <==> k in l.buckets)
    && forall k | k in l.buckets :: 0.0 <= l.buckets[k].tokens <= Burst(c)
  }

  lemma {:induction false} WithoutIs(s: seq<Key>, k: Key)
    requires Distinct(s)
    ensures Distinct(Without(s, k))
    ensures forall x :: x in Without(s, k) <==> x in s && x != k
    ensures |Without(s, k)| == if k in s then |s| - 1 else |s|
  {
    if s != [] {
      var rest := s[1..];
      assert Distinct(rest) && s == [s[0]] + rest;
      assert s[0] !in rest;
      WithoutIs(rest, k);
    }
  }

  lemma GainIsPositive(rate: real, d: real)
    requires 0.0 < rate && 0.0 <= d
    ensures 0.0 <= d * rate
  {}

  lemma RefilledBounds(c: Config, b: Bucket, now: real)
    requires Sane(c) && 0.0 <= b.tokens <= Burst(c)
    ensures b.tokens <= Refilled(c, b, now).tokens <= Burst(c)
  {
    if b.last < now {
      var d := now - b.last;
      GainIsPositive(c.rate, d);
      assert Refilled(c, b, now).tokens == Min(b.tokens + d * c.rate, Burst(c));
    }
  }

  /** b is `was` with what the time since gained, kept up to the burst. */
  predicate GainedBy(c: Config, was: Bucket, now: real, b: Bucket) {
    var due := was.tokens + (now - was.last) * c.rate;
    b.last == now && (due <= Burst(c) ==> b.tokens == due) && (Burst(c) <= due ==> b.tokens == Burst(c))
  }

  lemma RefilledGains(c: Config, b: Bucket, now: real)
    requires b.last < now
    ensures GainedBy(c, b, now, Refilled(c, b, now))
  {}

  lemma EvictedOk(c: Config, l: Limits)
    requires Sane(c) && Ok(c, l)
    ensures Ok(c, Evicted(c, l)) && |Evicted(c, l).order| < c.maxKeys && Evicted(c, l).buckets.Keys <= l.buckets.Keys
  {}

  lemma FrontAll(c: Config, l: Limits)
    requires Ok(c, l)
    ensures Front(l, |l.order|) == l
  {}

  /** Removing the back of the list and its map entry leaves one fewer. */
  lemma FrontDrops(c: Config, l: Limits, n: nat)
    requires Ok(c, l) && 0 < n <= |l.order|
    ensures Front(l, n - 1) == Limits(l.order[..n][..n - 1], Front(l, n).buckets - {l.order[n - 1]})
  {
    assert l.order[..n][..n - 1] == l.order[..n - 1];
    assert l.order[..n] == l.order[..n - 1] + [l.order[n - 1]];
    assert l.order[n - 1] !in l.order[..n - 1];
  }

  lemma PutOk(c: Config, l: Limits, order: seq<Key>, key: Key, b: Bucket)
    requires Ok(c, l) && 0.0 <= b.tokens <= Burst(c)
    requires Distinct(order) && key !in order && |order| < c.maxKeys
    requires forall k :: k in order <==> k in l.buckets && k != key
    ensures Ok(c, Limits([key] + order, l.buckets[key := b]))
  {}

  lemma TouchedOk(c: Config, l: Limits, key: Key, now: real)
    requires Sane(c) && Ok(c, l)
    ensures Ok(c, Touched(c, l, key, now)) && key in Touched(c, l, key, now).buckets
  {
    if key in l.buckets {
      WithoutIs(l.order, key);
      RefilledBounds(c, l.buckets[key], now);
      PutOk(c, l, Without(l.order, key), key, Refilled(c, l.buckets[key], now));
    } else {
      EvictedOk(c, l);
      PutOk(c, Evicted(c, l), Evicted(c, l).order, key, Bucket(Burst(c), now));
    }
  }

  class Limiter {
    const c: Config
    var order: seq<Key>
    var buckets: map<Key, Bucket>

    function State(): Limits
      reads this
    {
      Limits(order, buckets)
    }

    ghost predicate Valid()
      reads this
    {
      Sane(c) && Ok(c, State())
    }

    constructor (c: Config)
      requires Sane(c)
      ensures Valid() && this.c == c && State() == Limits([], map[])
    {
      this.c := c;
      order, buckets := [], map[];
    }

    /** Drops from the back until there is room. */
    method Evict()
      requires Valid()
      modifies this
      ensures Valid() && State() == Evicted(c, old(State()))
    {
      ghost var was := State();
      FrontAll(c, was);
      ghost var n := |order|;
      while c.maxKeys <= |order|
        invariant 0 <= n == |order| <= |was.order| && State() == Front(was, n)
        invariant n == |was.order| || n == c.maxKeys - 1
      {
        FrontDrops(c, was, n);
        n := n - 1;
        var oldest := order[|order| - 1];
        order := order[..|order| - 1];
        buckets := buckets - {oldest};
        assert State() == Front(was, n);
      }
      EvictedOk(c, was);
    }

    method Touch(key: Key, now: real)
      requires Valid()
      modifies this
      ensures Valid() && key in buckets && State() == Touched(c, old(State()), key, now)
      ensures key !in old(buckets) ==> buckets[key] == Bucket(Burst(c), now)
      ensures key in old(buckets) && now <= old(buckets[key].last) ==>
        buckets[key] == Bucket(old(buckets[key].tokens), now)
      ensures key in old(buckets) && old(buckets[key].last) < now ==>
        GainedBy(c, old(buckets[key]), now, buckets[key])
    {
      TouchedOk(c, State(), key, now);
      if key in buckets {
        if buckets[key].last < now { RefilledGains(c, buckets[key], now); }
        order := [key] + Without(order, key);
        buckets := buckets[key := Refilled(c, buckets[key], now)];
        return;
      }
      Evict();
      order := [key] + order;
      buckets := buckets[key := Bucket(Burst(c), now)];
    }

    method Allow(key: Key, now: real) returns (ok: bool)
      requires Valid()
      modifies this
      ensures Valid()
      ensures var t := Touched(c, old(State()), key, now);
              key in t.buckets && ok == (1.0 <= t.buckets[key].tokens) && State() == Spend(t, key)
    {
      Touch(key, now);
      if buckets[key].tokens < 1.0 {
        return false;
      }
      buckets := buckets[key := buckets[key].(tokens := buckets[key].tokens - 1.0)];
      return true;
    }

    method GiveBack(key: Key)
      requires Valid()
      modifies this
      ensures Valid() && State() == Refund(c, old(State()), key)
    {
      if key in buckets {
        buckets := buckets[key := buckets[key].(tokens := Min(buckets[key].tokens + 1.0, Burst(c)))];
      }
    }
  }
}
