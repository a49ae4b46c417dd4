/**
 The limiter refuses no more than its bound asks for: an attempt is allowed
 exactly when counting it keeps every stretch that ends with it within a burst
 plus what time refilled and refunds gave back.
 */
module RateExact {
  import opened Wrappers
  import opened RateLimiter
  import opened RateLimits

  // ---------------------------------------------------------------------
  // Refilling in two steps is refilling in one
  // ---------------------------------------------------------------------

  lemma GainsAdd(rate: real, x: real, y: real)
    ensures x * rate + y * rate == (x + y) * rate
  {}

  lemma CappedTwice(tokens: real, x: real, y: real, cap: real)
    requires 0.0 <= x && 0.0 <= y
    ensures Min(Min(tokens + x, cap) + y, cap) == Min(tokens + (x + y), cap)
  {}

  /** Looking at a bucket on the way neither gains nor loses it anything. */
  lemma RefillComposes(c: Config, b: Bucket, t: real, u: real)
    requires Sane(c) && 0.0 <= b.tokens <= Burst(c) && b.last <= t <= u
    ensures Refilled(c, Refilled(c, b, t), u) == Refilled(c, b, u)
  {
    var x, y := t - b.last, u - t;
    GainIsPositive(c.rate, x);
    GainIsPositive(c.rate, y);
    GainsAdd(c.rate, x, y);
    assert x + y == u - b.last;
    RefilledIs(c, b, t);
    RefilledIs(c, b, u);
    RefilledIs(c, Refilled(c, b, t), u);
    CappedTwice(b.tokens, x * c.rate, y * c.rate, Burst(c));
  }

  lemma RefilledIs(c: Config, b: Bucket, now: real)
    requires Sane(c) && b.tokens <= Burst(c) && b.last <= now
    ensures Refilled(c, b, now) == Bucket(Min(b.tokens + (now - b.last) * c.rate, Burst(c)), now)
  {
    if b.last == now { assert (now - b.last) * c.rate == 0.0; }
  }

  // ---------------------------------------------------------------------
  // A capped account, by its sums
  // ---------------------------------------------------------------------

  /** Each entry of a capped account: what comes in is kept up to the cap, then what goes out is taken. */
  predicate Account(levels: seq<real>, ins: seq<real>, outs: seq<real>, cap: real) {
    && |levels| == |ins| + 1 && |ins| == |outs|
    && forall i | 0 <= i < |ins| :: levels[i + 1] == Min(levels[i] + ins[i], cap) - outs[i]
  }

  /** What there would be to spend at entry n had the account been full, before spending, at entry j. */
  function SinceFull(ins: seq<real>, outs: seq<real>, cap: real, j: nat, n: nat): real
    requires j <= n < |ins| && |ins| == |outs|
  {
    cap + (Sum(ins, n + 1) - Sum(ins, j + 1)) - (Sum(outs, n) - Sum(outs, j))
  }

  /** The same since the start. */
  function SinceStart(levels: seq<real>, ins: seq<real>, outs: seq<real>, n: nat): real
    requires n < |ins| && |ins| == |outs| && 0 < |levels|
  {
    levels[0] + Sum(ins, n + 1) - Sum(outs, n)
  }

  predicate ShortSince(ins: seq<real>, outs: seq<real>, cap: real, n: nat, x: real)
    requires n < |ins| && |ins| == |outs|
  {
    exists j: nat :: j <= n && SinceFull(ins, outs, cap, j, n) < x
  }

  lemma FullSlides(ins: seq<real>, outs: seq<real>, cap: real, j: nat, n: nat)
    requires j <= n && n + 1 < |ins| && |ins| == |outs|
    ensures SinceFull(ins, outs, cap, j, n + 1) == SinceFull(ins, outs, cap, j, n) + ins[n + 1] - outs[n]
  {}

  lemma ShortSlides(ins: seq<real>, outs: seq<real>, cap: real, n: nat, x: real)
    requires n + 1 < |ins| && |ins| == |outs|
    ensures ShortSince(ins, outs, cap, n + 1, x) <==> cap < x || ShortSince(ins, outs, cap, n, x - ins[n + 1] + outs[n])
  {
    var m := n + 1;
    if j: nat :| j <= m && SinceFull(ins, outs, cap, j, m) < x {
      if j <= n { FullSlides(ins, outs, cap, j, n); }
    }
    if cap < x { assert SinceFull(ins, outs, cap, n + 1, n + 1) < x; }
    if j: nat :| j <= n && SinceFull(ins, outs, cap, j, n) < x - ins[n + 1] + outs[n] {
      FullSlides(ins, outs, cap, j, n);
    }
  }

  /** What there is to spend at entry n falls short of x exactly if it does so since the start or since some entry. */
  lemma {:induction false} ShortExactlyWhen(levels: seq<real>, ins: seq<real>, outs: seq<real>, cap: real, n: nat,
    x: real)
    requires Account(levels, ins, outs, cap) && n < |ins|
    ensures Min(levels[n] + ins[n], cap) < x <==>
            SinceStart(levels, ins, outs, n) < x || ShortSince(ins, outs, cap, n, x)
  {
    if n == 0 {
      assert Sum(ins, 1) == Sum(ins, 0) + ins[0];
      assert SinceFull(ins, outs, cap, 0, 0) == cap;
    } else {
      ShortExactlyWhen(levels, ins, outs, cap, n - 1, x - ins[n] + outs[n - 1]);
      ShortSlides(ins, outs, cap, n - 1, x);
      assert levels[n] == Min(levels[n - 1] + ins[n - 1], cap) - outs[n - 1];
    }
  }

  /** More was spent since entry j, with one more now, than a full account and what has come in since. */
  predicate Overdrawn(ins: seq<real>, outs: seq<real>, cap: real, j: nat, n: nat)
    requires j < n < |ins| && |ins| == |outs|
  {
    cap + (Sum(ins, n + 1) - Sum(ins, j + 1)) < Sum(outs, n) - Sum(outs, j) + 1.0
  }

  lemma ShortOfOne(ins: seq<real>, outs: seq<real>, cap: real, n: nat)
    requires n < |ins| && |ins| == |outs| && 1.0 <= cap
    ensures ShortSince(ins, outs, cap, n, 1.0) <==> exists j: nat :: j < n && Overdrawn(ins, outs, cap, j, n)
  {
    if j: nat :| j < n && Overdrawn(ins, outs, cap, j, n) { assert SinceFull(ins, outs, cap, j, n) < 1.0; }
    if j: nat :| j <= n && SinceFull(ins, outs, cap, j, n) < 1.0 { assert Overdrawn(ins, outs, cap, j, n); }
  }

  // ---------------------------------------------------------------------
  // The limiter keeps such an account for each key
  // ---------------------------------------------------------------------

  function Stock(c: Config, l: Limits, k: Key): real {
    if k in l.buckets then l.buckets[k].tokens else Burst(c)
  }

  /** When k was last used, in the stretch or, if tracked at its start, before. */
  function LastSeen(l: Limits, evs: seq<Event>, n: nat, k: Key): Option<real>
    requires n <= |evs|
  {
    if LastUse(evs, n, k).Some? then LastUse(evs, n, k)
    else if k in l.buckets then Some(l.buckets[k].last) else None
  }

  /** What an event brings k: the refill of its use, a refund, or a full bucket for one that is dropped. */
  function Brings(c: Config, seen: Option<real>, e: Event, k: Key, dropped: bool): real {
    if dropped then Burst(c)
    else if e == GiveBack(k) then 1.0
    else RefillOf(c, seen, e, k)
  }

  ghost predicate Drops(c: Config, s: Limits, e: Event, k: Key)
    requires Sane(c) && Ok(c, s)
  {
    k in s.buckets && k !in Step(c, s, e).buckets
  }

  lemma SeenIsLast(c: Config, l: Limits, evs: seq<Event>, n: nat, k: Key)
    requires Sane(c) && Ok(c, l) && n <= |evs| && k in StateAt(c, l, evs, n).buckets
    ensures LastSeen(l, evs, n, k) == Some(StateAt(c, l, evs, n).buckets[k].last)
  {
    if LastUse(evs, n, k).Some? { LastIsLastUse(c, l, evs, n, k); } else { UnusedUntouched(c, l, evs, n, k); }
  }

  lemma {:induction false} UnusedUntouched(c: Config, l: Limits, evs: seq<Event>, n: nat, k: Key)
    requires Sane(c) && Ok(c, l) && n <= |evs| && LastUse(evs, n, k).None?
    ensures k in StateAt(c, l, evs, n).buckets ==>
              k in l.buckets && StateAt(c, l, evs, n).buckets[k].last == l.buckets[k].last
  {
    if n != 0 {
      UnusedUntouched(c, l, evs, n - 1, k);
      var s, e := StateAt(c, l, evs, n - 1), evs[n - 1];
      if e.key != k { OthersUntouched(c, s, e, k); } else { RefundPays(c, s, k, None); }
    }
  }

  lemma TouchedStock(c: Config, s: Limits, k: Key, t: real, seen: Option<real>)
    requires Sane(c) && Ok(c, s) && (k in s.buckets ==> seen == Some(s.buckets[k].last))
    ensures k in Touched(c, s, k, t).buckets
    ensures Touched(c, s, k, t).buckets[k].tokens
         == Min(Stock(c, s, k) + RefillOf(c, seen, Allow(k, t), k), Burst(c))
  {
    if seen.Some? && seen.value < t { GainIsPositive(c.rate, t - seen.value); }
    if k in s.buckets {
      assert Touched(c, s, k, t).buckets[k] == Refilled(c, s.buckets[k], t);
    } else {
      assert Touched(c, s, k, t).buckets[k] == Bucket(Burst(c), t);
    }
  }

  lemma UseAccounts(c: Config, s: Limits, k: Key, t: real, seen: Option<real>)
    requires Sane(c) && Ok(c, s) && (k in s.buckets ==> seen == Some(s.buckets[k].last))
    ensures
      var e, have := Allow(k, t), Min(Stock(c, s, k) + RefillOf(c, seen, Allow(k, t), k), Burst(c));
      && !Drops(c, s, e, k) && (Answer(c, s, e) <==> 1.0 <= have)
      && Stock(c, Step(c, s, e), k) == have - if 1.0 <= have then 1.0 else 0.0
  {
    TouchedStock(c, s, k, t, seen);
    var touched := Touched(c, s, k, t);
    SpendTakesOne(touched, k);
    assert Step(c, s, Allow(k, t)) == Spend(touched, k);
  }

  lemma StepAccounts(c: Config, s: Limits, e: Event, k: Key, seen: Option<real>)
    requires Sane(c) && Ok(c, s) && (k in s.buckets ==> seen == Some(s.buckets[k].last))
    ensures Stock(c, Step(c, s, e), k)
         == Min(Stock(c, s, k) + Brings(c, seen, e, k, Drops(c, s, e, k)), Burst(c))
            - if e.key == k && Answer(c, s, e) then 1.0 else 0.0
  {
    if e.key == k && e.Allow? {
      UseAccounts(c, s, k, e.at, seen);
    } else if e.key != k {
      OthersUntouched(c, s, e, k);
      OthersBringNothing(c, s, e, k);
    }
  }

  lemma OthersBringNothing(c: Config, s: Limits, e: Event, k: Key)
    requires Sane(c) && Ok(c, s) && e.key != k
    ensures k !in s.buckets ==> k !in Step(c, s, e).buckets
    ensures 0.0 <= Stock(c, s, k) <= Burst(c)
  {
    OthersUntouched(c, s, e, k);
  }

  ghost function Income(c: Config, l: Limits, evs: seq<Event>, k: Key): seq<real>
    requires Sane(c) && Ok(c, l)
  {
    seq(|evs|, i requires 0 <= i < |evs| =>
      Brings(c, LastSeen(l, evs, i, k), evs[i], k, Drops(c, StateAt(c, l, evs, i), evs[i], k)))
  }

  ghost function Stocks(c: Config, l: Limits, evs: seq<Event>, k: Key): seq<real>
    requires Sane(c) && Ok(c, l)
  {
    seq(|evs| + 1, i requires 0 <= i <= |evs| => Stock(c, StateAt(c, l, evs, i), k))
  }

  lemma StockAt(c: Config, l: Limits, evs: seq<Event>, k: Key, i: nat)
    requires Sane(c) && Ok(c, l) && i <= |evs|
    ensures Stocks(c, l, evs, k)[i] == Stock(c, StateAt(c, l, evs, i), k)
  {}

  lemma IncomeAt(c: Config, l: Limits, evs: seq<Event>, k: Key, i: nat, s: Limits)
    requires Sane(c) && Ok(c, l) && i < |evs| && s == StateAt(c, l, evs, i)
    ensures Income(c, l, evs, k)[i] == Brings(c, LastSeen(l, evs, i, k), evs[i], k, Drops(c, s, evs[i], k))
  {}

  lemma EntryAt(c: Config, l: Limits, evs: seq<Event>, k: Key, i: nat, s: Limits)
    requires Sane(c) && Ok(c, l) && i < |evs| && s == StateAt(c, l, evs, i)
    ensures Stocks(c, l, evs, k)[i] == Stock(c, s, k)
    ensures Stocks(c, l, evs, k)[i + 1] == Stock(c, Step(c, s, evs[i]), k)
    ensures Income(c, l, evs, k)[i] == Brings(c, LastSeen(l, evs, i, k), evs[i], k, Drops(c, s, evs[i], k))
    ensures Allowances(c, l, evs, k)[i] == if evs[i].key == k && Answer(c, s, evs[i]) then 1.0 else 0.0
  {
    StateNext(c, l, evs, i);
    StockAt(c, l, evs, k, i);
    StockAt(c, l, evs, k, i + 1);
    IncomeAt(c, l, evs, k, i, s);
    EventAt(c, l, evs, k, i, s, LastUse(evs, i, k));
  }

  lemma KeepsAccount(c: Config, l: Limits, evs: seq<Event>, k: Key)
    requires Sane(c) && Ok(c, l)
    ensures Account(Stocks(c, l, evs, k), Income(c, l, evs, k), Allowances(c, l, evs, k), Burst(c))
  {
    var levels, ins, outs := Stocks(c, l, evs, k), Income(c, l, evs, k), Allowances(c, l, evs, k);
    forall i: nat | i < |ins| ensures levels[i + 1] == Min(levels[i] + ins[i], Burst(c)) - outs[i] {
      var s := StateAt(c, l, evs, i);
      if k in s.buckets { SeenIsLast(c, l, evs, i, k); }
      EntryAt(c, l, evs, k, i, s);
      StepAccounts(c, s, evs[i], k, LastSeen(l, evs, i, k));
    }
  }

  lemma AllowedByStock(c: Config, l: Limits, evs: seq<Event>, k: Key, n: nat)
    requires Sane(c) && Ok(c, l) && n < |evs| && evs[n].Allow? && evs[n].key == k
    ensures Answer(c, StateAt(c, l, evs, n), evs[n]) <==>
            1.0 <= Min(Stocks(c, l, evs, k)[n] + Income(c, l, evs, k)[n], Burst(c))
  {
    var s := StateAt(c, l, evs, n);
    if k in s.buckets { SeenIsLast(c, l, evs, n, k); }
    EntryAt(c, l, evs, k, n, s);
    UseAccounts(c, s, k, evs[n].at, LastSeen(l, evs, n, k));
  }

  /**
   The bound is the rule.  Over any history, an attempt of k is refused exactly
   if, since the start or since some earlier event at which k's bucket were
   full, the attempts allowed leave less than one of what there was then and
   what has come in since: the refills of k's uses, its refunds, and a full
   bucket for each time the cap dropped it.
   */
  lemma RefusedExactlyWhenSpent(c: Config, l: Limits, evs: seq<Event>, k: Key, n: nat)
    requires Sane(c) && Ok(c, l) && n < |evs| && evs[n].Allow? && evs[n].key == k
    ensures
      var ins, outs := Income(c, l, evs, k), Allowances(c, l, evs, k);
      !Answer(c, StateAt(c, l, evs, n), evs[n]) <==>
        || Stock(c, l, k) + Sum(ins, n + 1) < Sum(outs, n) + 1.0
        || exists j: nat :: j < n && Overdrawn(ins, outs, Burst(c), j, n)
  {
    var levels, ins, outs := Stocks(c, l, evs, k), Income(c, l, evs, k), Allowances(c, l, evs, k);
    KeepsAccount(c, l, evs, k);
    AllowedByStock(c, l, evs, k, n);
    ShortExactlyWhen(levels, ins, outs, Burst(c), n, 1.0);
    ShortOfOne(ins, outs, Burst(c), n);
    StockAt(c, l, evs, k, 0);
  }

  // ---------------------------------------------------------------------
  // What comes in, by the clock
  // ---------------------------------------------------------------------

  function Gained(c: Config, t: real, u: real): real {
    (u - t) * c.rate
  }

  /** After j, what comes in is refills and refunds. */
  predicate Splits(ins: seq<real>, refills: seq<real>, refunds: seq<real>, j: nat) {
    && |ins| == |refills| == |refunds|
    && forall i | j < i < |ins| :: ins[i] == refills[i] + refunds[i]
  }

  lemma {:induction false} SplitSums(ins: seq<real>, refills: seq<real>, refunds: seq<real>, j: nat, m: nat)
    requires Splits(ins, refills, refunds, j) && j < m <= |ins|
    ensures Sum(ins, m) - Sum(ins, j + 1)
         == (Sum(refills, m) - Sum(refills, j + 1)) + (Sum(refunds, m) - Sum(refunds, j + 1))
  {
    if m != j + 1 {
      SplitSums(ins, refills, refunds, j, m - 1);
      assert ins[m - 1] == refills[m - 1] + refunds[m - 1];
    }
  }

  lemma IncomeIs(c: Config, l: Limits, evs: seq<Event>, k: Key, m: nat)
    requires Sane(c) && Ok(c, l) && m < |evs| && NeverEvicted(c, l, evs, k) && LastUse(evs, m, k).Some?
    ensures Income(c, l, evs, k)[m] == Refills(c, evs, k)[m] + Refunds(evs, k)[m]
  {
    var s := StateAt(c, l, evs, m);
    assert !Drops(c, s, evs[m], k);
    IncomeAt(c, l, evs, k, m, s);
    EventAt(c, l, evs, k, m, s, LastUse(evs, m, k));
  }

  lemma {:induction false} UsedStaysUsed(evs: seq<Event>, k: Key, j: nat, m: nat)
    requires j < m <= |evs| && evs[j].Allow? && evs[j].key == k
    ensures LastUse(evs, m, k).Some?
  {
    if m != j + 1 { UsedStaysUsed(evs, k, j, m - 1); }
  }

  lemma IncomeSplits(c: Config, l: Limits, evs: seq<Event>, k: Key, j: nat)
    requires Sane(c) && Ok(c, l) && NeverEvicted(c, l, evs, k) && j < |evs| && evs[j].Allow? && evs[j].key == k
    ensures Splits(Income(c, l, evs, k), Refills(c, evs, k), Refunds(evs, k), j)
  {
    var ins, refills, refunds := Income(c, l, evs, k), Refills(c, evs, k), Refunds(evs, k);
    forall i: nat | j < i < |ins| ensures ins[i] == refills[i] + refunds[i] {
      UsedStaysUsed(evs, k, j, i);
      IncomeIs(c, l, evs, k, i);
    }
  }

  lemma {:induction false} FirstUseExists(evs: seq<Event>, k: Key, n: nat) returns (f: nat)
    requires n <= |evs| && LastUse(evs, n, k).Some?
    ensures f < n && evs[f].Allow? && evs[f].key == k && LastUse(evs, f, k).None?
  {
    if LastUse(evs, n - 1, k).Some? { f := FirstUseExists(evs, k, n - 1); } else { f := n - 1; }
  }

  lemma GainedSubtract(c: Config, first: real, t: real, u: real, x: real, y: real)
    requires x == (u - first) * c.rate && y == (t - first) * c.rate
    ensures x - y == Gained(c, t, u)
  {
    GainsAdd(c.rate, u - t, t - first);
    assert (u - t) + (t - first) == u - first;
  }

  lemma RefilledSinceBoth(c: Config, evs: seq<Event>, k: Key, j: nat, n: nat, first: real)
    requires j < n < |evs| && RefilledSince(c, evs, j + 1, k, first) && RefilledSince(c, evs, n + 1, k, first)
    ensures Sum(Refills(c, evs, k), n + 1) - Sum(Refills(c, evs, k), j + 1)
         == Gained(c, LastUse(evs, j + 1, k).value, LastUse(evs, n + 1, k).value)
  {
    GainedSubtract(c, first, LastUse(evs, j + 1, k).value, LastUse(evs, n + 1, k).value,
      Sum(Refills(c, evs, k), n + 1), Sum(Refills(c, evs, k), j + 1));
  }

  lemma RefilledFromFirstUse(c: Config, evs: seq<Event>, k: Key, j: nat, n: nat) returns (first: real)
    requires Orderly(evs) && j < n < |evs| && evs[j].Allow? && evs[j].key == k
    ensures RefilledSince(c, evs, j + 1, k, first) && RefilledSince(c, evs, n + 1, k, first)
  {
    var f := FirstUseExists(evs, k, j + 1);
    first := evs[f].at;
    RefillsAreElapsed(c, evs, j + 1, k, f);
    RefillsAreElapsed(c, evs, n + 1, k, f);
  }

  /** Entry j's overdraft, given what has come in since. */
  lemma OverdrawnByGain(ins: seq<real>, refills: seq<real>, refunds: seq<real>, outs: seq<real>, cap: real, j: nat,
    n: nat, gain: real)
    requires Splits(ins, refills, refunds, j) && j < n < |ins| && |ins| == |outs|
    requires Sum(refills, n + 1) - Sum(refills, j + 1) == gain
    ensures Overdrawn(ins, outs, cap, j, n) <==>
            cap + gain + (Sum(refunds, n + 1) - Sum(refunds, j + 1)) < Sum(outs, n) - Sum(outs, j) + 1.0
  {
    SplitSums(ins, refills, refunds, j, n + 1);
  }

  /**
   By a clock that does not run backwards, an attempt at u finds k overdrawn
   since its use at t, not evicted meanwhile, exactly if the attempts allowed
   from then on, with this one, exceed a burst, the rate times u - t, and the
   refunds since.
   */
  lemma OverdrawnByTheClock(c: Config, l: Limits, evs: seq<Event>, k: Key, j: nat, t: real, n: nat, u: real)
    requires Sane(c) && Ok(c, l) && Orderly(evs) && NeverEvicted(c, l, evs, k)
    requires j < n < |evs| && evs[j] == Allow(k, t) && evs[n] == Allow(k, u)
    ensures
      var outs, refunds := Allowances(c, l, evs, k), Refunds(evs, k);
      Overdrawn(Income(c, l, evs, k), outs, Burst(c), j, n) <==>
        Burst(c) + Gained(c, t, u) + (Sum(refunds, n + 1) - Sum(refunds, j + 1)) < Sum(outs, n) - Sum(outs, j) + 1.0
  {
    IncomeSplits(c, l, evs, k, j);
    var first := RefilledFromFirstUse(c, evs, k, j, n);
    RefilledSinceBoth(c, evs, k, j, n, first);
    assert LastUse(evs, j + 1, k) == Some(t) && LastUse(evs, n + 1, k) == Some(u);
    OverdrawnByGain(Income(c, l, evs, k), Refills(c, evs, k), Refunds(evs, k), Allowances(c, l, evs, k), Burst(c), j, n,
      Gained(c, t, u));
  }
}
