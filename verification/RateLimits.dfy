/**
 What the limiter guarantees over whole histories of calls: how many attempts
 a key gets, and when the memory cap is invisible.
 */
module RateLimits {
  import opened Wrappers
  import opened RateLimiter

  datatype Event = Allow(key: Key, at: real) | GiveBack(key: Key)

  function Step(c: Config, l: Limits, e: Event): Limits
    requires Sane(c) && Ok(c, l)
  {
    TouchedOk(c, l, e.key, if e.Allow? then e.at else 0.0);
    match e
    case Allow(k, t) => Spend(Touched(c, l, k, t), k)
    case GiveBack(k) => Refund(c, l, k)
  }

  predicate Answer(c: Config, l: Limits, e: Event)
    requires Sane(c) && Ok(c, l)
  {
    TouchedOk(c, l, e.key, if e.Allow? then e.at else 0.0);
    e.Allow? && 1.0 <= Touched(c, l, e.key, e.at).buckets[e.key].tokens
  }

  lemma StepOk(c: Config, l: Limits, e: Event)
    requires Sane(c) && Ok(c, l)
    ensures Ok(c, Step(c, l, e))
  {
    TouchedOk(c, l, e.key, if e.Allow? then e.at else 0.0);
  }

  ghost function StateAt(c: Config, l: Limits, evs: seq<Event>, n: nat): (r: Limits)
    requires Sane(c) && Ok(c, l) && n <= |evs|
    ensures Ok(c, r)
  {
    if n == 0 then l else
      StepOk(c, StateAt(c, l, evs, n - 1), evs[n - 1]);
      Step(c, StateAt(c, l, evs, n - 1), evs[n - 1])
  }

  // ---------------------------------------------------------------------
  // Attempts per key
  // ---------------------------------------------------------------------

  function LastUse(evs: seq<Event>, n: nat, k: Key): Option<real>
    requires n <= |evs|
  {
    if n == 0 then None
    else if evs[n - 1].Allow? && evs[n - 1].key == k then Some(evs[n - 1].at)
    else LastUse(evs, n - 1, k)
  }

  /** Per event: an attempt of k that was allowed. */
  ghost function Allowances(c: Config, l: Limits, evs: seq<Event>, k: Key): seq<real>
    requires Sane(c) && Ok(c, l)
  {
    seq(|evs|, i requires 0 <= i < |evs| => if evs[i].key == k && Answer(c, StateAt(c, l, evs, i), evs[i]) then 1.0
      else 0.0)
  }

  /** Per event: the tokens time has refilled since the last use of k; none before its first use in the stretch. */
  function Refills(c: Config, evs: seq<Event>, k: Key): seq<real> {
    seq(|evs|, i requires 0 <= i < |evs| => RefillOf(c, LastUse(evs, i, k), evs[i], k))
  }

  function RefillOf(c: Config, p: Option<real>, e: Event, k: Key): real {
    if e.Allow? && e.key == k && p.Some? && p.value < e.at then (e.at - p.value) * c.rate else 0.0
  }

  /** Per event: a refund to k. */
  function Refunds(evs: seq<Event>, k: Key): seq<real> {
    seq(|evs|, i requires 0 <= i < |evs| => if evs[i] == GiveBack(k) then 1.0 else 0.0)
  }

  /** Per event: a burst, if it evicts k. */
  ghost function Reissues(c: Config, l: Limits, evs: seq<Event>, k: Key): seq<real>
    requires Sane(c) && Ok(c, l)
  {
    seq(|evs|, i requires 0 <= i < |evs| =>
      if k in StateAt(c, l, evs, i).buckets && k !in Step(c, StateAt(c, l, evs, i), evs[i]).buckets then Burst(c)
        else 0.0)
  }

  function Sum(xs: seq<real>, n: nat): real
    requires n <= |xs|
  {
    if n == 0 then 0.0 else Sum(xs, n - 1) + xs[n - 1]
  }

  /** What k can spend at once without a refill, given its last use in the stretch. */
  function Level(c: Config, l: Limits, p: Option<real>, k: Key): real {
    if k in l.buckets && p.Some? then l.buckets[k].tokens else Burst(c)
  }

  lemma OthersUntouched(c: Config, l: Limits, e: Event, k: Key)
    requires Sane(c) && Ok(c, l) && e.key != k
    ensures k in Step(c, l, e).buckets ==> k in l.buckets && Step(c, l, e).buckets[k] == l.buckets[k]
  {}

  lemma SpendTakesOne(l: Limits, k: Key)
    requires k in l.buckets
    ensures Spend(l, k).buckets[k].tokens + (if 1.0 <= l.buckets[k].tokens then 1.0 else 0.0) == l.buckets[k].tokens
    ensures Spend(l, k).buckets[k].last == l.buckets[k].last && Spend(l, k).buckets.Keys == l.buckets.Keys
  {}

  lemma RefillAtMost(c: Config, b: Bucket, now: real)
    ensures Refilled(c, b, now).last == now
    ensures b.last < now ==> Refilled(c, b, now).tokens <= b.tokens + (now - b.last) * c.rate
    ensures now <= b.last ==> Refilled(c, b, now).tokens == b.tokens
  {}

  lemma UsePays(c: Config, l: Limits, k: Key, t: real, p: Option<real>)
    requires Sane(c) && Ok(c, l) && (p.Some? && k in l.buckets ==> l.buckets[k].last == p.value)
    ensures
      var n, e := Step(c, l, Allow(k, t)), Allow(k, t);
      && k in n.buckets && n.buckets[k].last == t
      && Level(c, n, Some(t), k) + (if Answer(c, l, e) then 1.0 else 0.0) <= Level(c, l, p, k) + RefillOf(c, p, e, k)
  {
    TouchedOk(c, l, k, t);
    SpendTakesOne(Touched(c, l, k, t), k);
    if k in l.buckets {
      RefillAtMost(c, l.buckets[k], t);
      RefilledBounds(c, l.buckets[k], t);
    }
  }

  lemma RefundPays(c: Config, l: Limits, k: Key, p: Option<real>)
    requires Sane(c) && Ok(c, l)
    ensures Level(c, Refund(c, l, k), p, k) <= Level(c, l, p, k) + 1.0
    ensures Refund(c, l, k).buckets.Keys == l.buckets.Keys
    ensures k in l.buckets ==> Refund(c, l, k).buckets[k].last == l.buckets[k].last
  {}

  lemma {:induction false} LastIsLastUse(c: Config, l: Limits, evs: seq<Event>, n: nat, k: Key)
    requires Sane(c) && Ok(c, l) && n <= |evs|
    ensures LastUse(evs, n, k).Some? && k in StateAt(c, l, evs, n).buckets ==>
              StateAt(c, l, evs, n).buckets[k].last == LastUse(evs, n, k).value
  {
    if n != 0 {
      LastIsLastUse(c, l, evs, n - 1, k);
      var s, e := StateAt(c, l, evs, n - 1), evs[n - 1];
      if e.key != k {
        OthersUntouched(c, s, e, k);
      } else if e.Allow? {
        UsePays(c, s, k, e.at, LastUse(evs, n - 1, k));
      } else {
        RefundPays(c, s, k, None);
      }
    }
  }

  /** One event: what k can spend and what it spends grow by no more than what the event hands it. */
  predicate Pays(levels: seq<real>, spent: seq<real>, refills: seq<real>, refunds: seq<real>, reissues: seq<real>,
    i: nat)
    requires |levels| == |spent| + 1 && |spent| == |refills| == |refunds| == |reissues| && i < |spent|
  {
    levels[i + 1] + spent[i] <= levels[i] + refills[i] + refunds[i] + reissues[i]
  }

  lemma {:induction false} Telescope(levels: seq<real>, spent: seq<real>, refills: seq<real>, refunds: seq<real>,
    reissues: seq<real>, n: nat)
    requires |levels| == |spent| + 1 && |spent| == |refills| == |refunds| == |reissues| && n <= |spent|
    requires forall i: nat | i < |spent| :: Pays(levels, spent, refills, refunds, reissues, i)
    ensures Sum(spent, n) + levels[n] <= levels[0] + Sum(refills, n) + Sum(refunds, n) + Sum(reissues, n)
  {
    if n != 0 {
      Telescope(levels, spent, refills, refunds, reissues, n - 1);
      assert Pays(levels, spent, refills, refunds, reissues, n - 1);
    }
  }

  ghost function Levels(c: Config, l: Limits, evs: seq<Event>, k: Key): seq<real>
    requires Sane(c) && Ok(c, l)
  {
    seq(|evs| + 1, i requires 0 <= i <= |evs| => Level(c, StateAt(c, l, evs, i), LastUse(evs, i, k), k))
  }

  lemma StepPays(c: Config, s: Limits, e: Event, k: Key, p: Option<real>)
    requires Sane(c) && Ok(c, s) && (p.Some? && k in s.buckets ==> s.buckets[k].last == p.value)
    ensures
      Level(c, Step(c, s, e), if e.Allow? && e.key == k then Some(e.at) else p, k) + (if e.key == k && Answer(c, s, e)
        then 1.0 else 0.0)
      <= Level(c, s, p, k) + RefillOf(c, p, e, k) + (if e == GiveBack(k) then 1.0 else 0.0)
         + (if k in s.buckets && k !in Step(c, s, e).buckets then Burst(c) else 0.0)
  {}

  lemma LevelsAt(c: Config, l: Limits, evs: seq<Event>, k: Key, i: nat)
    requires Sane(c) && Ok(c, l) && i <= |evs|
    ensures Levels(c, l, evs, k)[i] == Level(c, StateAt(c, l, evs, i), LastUse(evs, i, k), k)
  {}

  lemma StateNext(c: Config, l: Limits, evs: seq<Event>, i: nat)
    requires Sane(c) && Ok(c, l) && i < |evs|
    ensures StateAt(c, l, evs, i + 1) == Step(c, StateAt(c, l, evs, i), evs[i])
  {}

  lemma EventAt(c: Config, l: Limits, evs: seq<Event>, k: Key, i: nat, s: Limits, p: Option<real>)
    requires Sane(c) && Ok(c, l) && i < |evs| && s == StateAt(c, l, evs, i) && p == LastUse(evs, i, k)
    ensures Allowances(c, l, evs, k)[i] == if evs[i].key == k && Answer(c, s, evs[i]) then 1.0 else 0.0
    ensures Refills(c, evs, k)[i] == RefillOf(c, p, evs[i], k)
    ensures Refunds(evs, k)[i] == if evs[i] == GiveBack(k) then 1.0 else 0.0
    ensures Reissues(c, l, evs, k)[i] == if k in s.buckets && k !in Step(c, s, evs[i]).buckets then Burst(c) else 0.0
  {}

  lemma EventPays(c: Config, l: Limits, evs: seq<Event>, k: Key, i: nat)
    requires Sane(c) && Ok(c, l) && i < |evs|
    ensures Pays(Levels(c, l, evs, k), Allowances(c, l, evs, k), Refills(c, evs, k), Refunds(evs, k),
      Reissues(c, l, evs, k), i)
  {
    var s, p := StateAt(c, l, evs, i), LastUse(evs, i, k);
    LastIsLastUse(c, l, evs, i, k);
    LevelsAt(c, l, evs, k, i);
    LevelsAt(c, l, evs, k, i + 1);
    StateNext(c, l, evs, i);
    EventAt(c, l, evs, k, i, s, p);
    StepPays(c, s, evs[i], k, p);
  }

  /**
   Over any stretch of calls, from any state, a key's allowed attempts are at
   most one burst plus what its elapsed time refills plus its refunds, plus
   one burst for each time the cap evicted it.
   */
  lemma AttemptsAreBounded(c: Config, l: Limits, evs: seq<Event>, k: Key)
    requires Sane(c) && Ok(c, l)
    ensures Sum(Allowances(c, l, evs, k), |evs|)
         <= Burst(c) + Sum(Refills(c, evs, k), |evs|) + Sum(Refunds(evs, k), |evs|) + Sum(Reissues(c, l, evs, k), |evs|)
  {
    var levels := Levels(c, l, evs, k);
    forall i: nat | i < |evs|
      ensures Pays(levels, Allowances(c, l, evs, k), Refills(c, evs, k), Refunds(evs, k), Reissues(c, l, evs, k), i)
    {
      EventPays(c, l, evs, k, i);
    }
    Telescope(levels, Allowances(c, l, evs, k), Refills(c, evs, k), Refunds(evs, k), Reissues(c, l, evs, k), |evs|);
  }

  predicate Orderly(evs: seq<Event>) {
    forall i, j | 0 <= i < j < |evs| && evs[i].Allow? && evs[j].Allow? :: evs[i].at <= evs[j].at
  }

  lemma {:induction false} LastUseIsUse(evs: seq<Event>, n: nat, k: Key)
    requires n <= |evs| && LastUse(evs, n, k).Some?
    ensures exists i :: 0 <= i < n && evs[i] == Allow(k, LastUse(evs, n, k).value)
  {
    if !(evs[n - 1].Allow? && evs[n - 1].key == k) {
      LastUseIsUse(evs, n - 1, k);
    } else {
      assert evs[n - 1] == Allow(k, LastUse(evs, n, k).value);
    }
  }

  lemma NextRefill(c: Config, evs: seq<Event>, n: nat, k: Key)
    requires 0 < n <= |evs|
    ensures Sum(Refills(c, evs, k), n) == Sum(Refills(c, evs, k), n - 1) + RefillOf(c, LastUse(evs, n - 1, k),
      evs[n - 1], k)
  {}

  /** The refills up to event n are the rate times the time from `first` to the last use. */
  predicate RefilledSince(c: Config, evs: seq<Event>, n: nat, k: Key, first: real)
    requires n <= |evs|
  {
    var p := LastUse(evs, n, k);
    p.Some? && Sum(Refills(c, evs, k), n) == (p.value - first) * c.rate
  }

  lemma RefilledSinceFirst(c: Config, evs: seq<Event>, n: nat, k: Key)
    requires 0 < n <= |evs| && evs[n - 1].Allow? && evs[n - 1].key == k && LastUse(evs, n - 1, k).None?
    ensures RefilledSince(c, evs, n, k, evs[n - 1].at)
  {
    NextRefill(c, evs, n, k);
    NoUseNoRefill(c, evs, n - 1, k);
  }

  lemma RefilledSinceNext(c: Config, evs: seq<Event>, n: nat, k: Key, first: real)
    requires 0 < n <= |evs| && RefilledSince(c, evs, n - 1, k, first)
    requires evs[n - 1].Allow? && evs[n - 1].key == k ==> LastUse(evs, n - 1, k).value <= evs[n - 1].at
    ensures RefilledSince(c, evs, n, k, first)
  {
    var e, p, sum := evs[n - 1], LastUse(evs, n - 1, k).value, Sum(Refills(c, evs, k), n - 1);
    NextRefill(c, evs, n, k);
    if e.Allow? && e.key == k {
      RefillOfIs(c, p, first, e, k);
    }
  }

  lemma RefillOfIs(c: Config, p: real, first: real, e: Event, k: Key)
    requires e.Allow? && e.key == k && p <= e.at
    ensures (p - first) * c.rate + RefillOf(c, Some(p), e, k) == (e.at - first) * c.rate
  {
    var x, y := p - first, e.at - p;
    assert x * c.rate + y * c.rate == (x + y) * c.rate;
    assert RefillOf(c, Some(p), e, k) == y * c.rate;
    assert x + y == e.at - first;
  }

  /** With a clock that does not run backwards the refills are the rate times the time from first use to last. */
  lemma {:induction false} RefillsAreElapsed(c: Config, evs: seq<Event>, n: nat, k: Key, f: nat)
    requires Orderly(evs) && f < n <= |evs| && evs[f].Allow? && evs[f].key == k && LastUse(evs, f, k).None?
    ensures RefilledSince(c, evs, n, k, evs[f].at)
  {
    if n == f + 1 {
      RefilledSinceFirst(c, evs, n, k);
    } else {
      RefillsAreElapsed(c, evs, n - 1, k, f);
      LastUseIsUse(evs, n - 1, k);
      var i :| 0 <= i < n - 1 && evs[i] == Allow(k, LastUse(evs, n - 1, k).value);
      RefilledSinceNext(c, evs, n, k, evs[f].at);
    }
  }

  lemma {:induction false} NoUseNoRefill(c: Config, evs: seq<Event>, n: nat, k: Key)
    requires n <= |evs| && LastUse(evs, n, k).None?
    ensures Sum(Refills(c, evs, k), n) == 0.0
  {
    if n != 0 {
      NoUseNoRefill(c, evs, n - 1, k);
    }
  }

  lemma {:induction false} SumOfNothing(xs: seq<real>, n: nat)
    requires n <= |xs| && forall i | 0 <= i < n :: xs[i] == 0.0
    ensures Sum(xs, n) == 0.0
  {
    if n != 0 {
      SumOfNothing(xs, n - 1);
    }
  }

  /** k is tracked or not yet tracked throughout: no event drops its bucket. */
  ghost predicate NeverEvicted(c: Config, l: Limits, evs: seq<Event>, k: Key)
    requires Sane(c) && Ok(c, l)
  {
    forall i | 0 <= i < |evs| ::
      k in StateAt(c, l, evs, i).buckets ==> k in Step(c, StateAt(c, l, evs, i), evs[i]).buckets
  }

  lemma NoReissues(c: Config, l: Limits, evs: seq<Event>, k: Key)
    requires Sane(c) && Ok(c, l) && NeverEvicted(c, l, evs, k)
    ensures Sum(Reissues(c, l, evs, k), |evs|) == 0.0
  {
    SumOfNothing(Reissues(c, l, evs, k), |evs|);
  }

  lemma ElapsedRefills(c: Config, evs: seq<Event>, k: Key, first: real, last: real)
    requires RefilledSince(c, evs, |evs|, k, first) && LastUse(evs, |evs|, k) == Some(last)
    ensures RefillsAre(c, evs, k, (last - first) * c.rate)
  {}

  predicate RefillsAre(c: Config, evs: seq<Event>, k: Key, refills: real) {
    refills == Sum(Refills(c, evs, k), |evs|)
  }

  lemma AttemptsWithinRefills(c: Config, l: Limits, evs: seq<Event>, k: Key, refills: real)
    requires Sane(c) && Ok(c, l) && NeverEvicted(c, l, evs, k) && RefillsAre(c, evs, k, refills)
    ensures Sum(Allowances(c, l, evs, k), |evs|) <= Burst(c) + refills + Sum(Refunds(evs, k), |evs|)
  {
    AttemptsAreBounded(c, l, evs, k);
    NoReissues(c, l, evs, k);
  }

  lemma AttemptsSince(c: Config, l: Limits, evs: seq<Event>, k: Key, first: real, last: real)
    requires Sane(c) && Ok(c, l) && NeverEvicted(c, l, evs, k)
    requires RefilledSince(c, evs, |evs|, k, first) && LastUse(evs, |evs|, k) == Some(last)
    ensures Sum(Allowances(c, l, evs, k), |evs|) <= Burst(c) + (last - first) * c.rate + Sum(Refunds(evs, k), |evs|)
  {
    ElapsedRefills(c, evs, k, first, last);
    AttemptsWithinRefills(c, l, evs, k, (last - first) * c.rate);
  }

  /** Event i is k's first use in the stretch, at t. */
  predicate FirstUse(evs: seq<Event>, k: Key, i: nat, t: real) {
    i < |evs| && evs[i] == Allow(k, t) && LastUse(evs, i, k).None?
  }

  lemma RefilledFromFirst(c: Config, evs: seq<Event>, k: Key, i: nat, t: real)
    requires Orderly(evs) && FirstUse(evs, k, i, t)
    ensures RefilledSince(c, evs, |evs|, k, t)
  {
    RefillsAreElapsed(c, evs, |evs|, k, i);
  }

  /**
   The bound as promised: over a stretch in which k is not evicted, by a clock
   that does not run backwards, k is allowed at most a burst, plus the rate
   times the time from its first use to its last, plus its refunds.
   */
  lemma AttemptsWithinBurstAndRate(c: Config, l: Limits, evs: seq<Event>, k: Key, i: nat, first: real, last: real)
    requires Sane(c) && Ok(c, l) && Orderly(evs) && NeverEvicted(c, l, evs, k)
    requires FirstUse(evs, k, i, first) && LastUse(evs, |evs|, k) == Some(last)
    ensures Sum(Allowances(c, l, evs, k), |evs|) <= Burst(c) + (last - first) * c.rate + Sum(Refunds(evs, k), |evs|)
  {
    RefilledFromFirst(c, evs, k, i, first);
    AttemptsSince(c, l, evs, k, first, last);
  }
}
