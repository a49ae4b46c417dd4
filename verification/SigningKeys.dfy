/** Which keypair signs: the publish delay, and what retiring a key may leave behind. */
module SigningKeys {
  import opened Wrappers

  type Kid = nat

  datatype Keypair = Keypair(kid: Kid, createdAt: int, retiredAt: Option<int>)

  predicate Active(k: Keypair) {
    k.retiredAt.None?
  }

  predicate Mature(k: Keypair, now: int, delay: int) {
    Active(k) && k.createdAt + delay <= now
  }

  predicate Before(a: Keypair, b: Keypair) {
    a.createdAt < b.createdAt || (a.createdAt == b.createdAt && a.kid < b.kid)
  }

  /** By CreatedAt, then kid, which is the store's key: strictly ascending. */
  predicate Sorted(ks: seq<Keypair>) {
    forall i, j | 0 <= i < j < |ks| :: Before(ks[i], ks[j])
  }

  predicate DistinctKids(ks: seq<Keypair>) {
    forall i, j | 0 <= i < j < |ks| :: ks[i].kid != ks[j].kid
  }

  function Insert(ks: seq<Keypair>, k: Keypair): (r: seq<Keypair>)
    ensures multiset(r) == multiset(ks) + multiset{k}
    ensures |r| == |ks| + 1
  {
    if ks == [] then [k]
    else if Before(k, ks[0]) then [k] + ks
    else
      assert ks == [ks[0]] + ks[1..];
      [ks[0]] + Insert(ks[1..], k)
  }

  lemma {:induction false} InsertSorts(ks: seq<Keypair>, k: Keypair)
    requires Sorted(ks) && forall i | 0 <= i < |ks| :: ks[i].kid != k.kid
    ensures Sorted(Insert(ks, k))
  {
    if ks != [] && !Before(k, ks[0]) {
      var rest := ks[1..];
      InsertSorts(rest, k);
      var r := Insert(rest, k);
      forall j | 0 <= j < |r| ensures Before(ks[0], r[j]) {
        assert r[j] in multiset(rest) + multiset{k};
        if r[j] in rest {
          var m :| 0 <= m < |rest| && rest[m] == r[j];
          assert ks[m + 1] == r[j];
        }
      }
    }
  }

  lemma InsertDistinct(ks: seq<Keypair>, k: Keypair)
    requires Sorted(ks) && DistinctKids(ks) && forall i | 0 <= i < |ks| :: ks[i].kid != k.kid
    ensures Sorted(Insert(ks, k)) && DistinctKids(Insert(ks, k)) && DistinctKids(ks + [k])
  {
    InsertSorts(ks, k);
    var r := Insert(ks, k);
    forall i, j | 0 <= i < j < |r| ensures r[i].kid != r[j].kid {
      assert r[i] in multiset(ks) + multiset{k} && r[j] in multiset(ks) + multiset{k};
      assert Before(r[i], r[j]);
      assert r[i] != k ==> r[i] in ks;
      assert r[j] != k ==> r[j] in ks;
    }
  }

  method SortByCreatedAt(ks: seq<Keypair>) returns (r: seq<Keypair>)
    requires DistinctKids(ks)
    ensures Sorted(r) && multiset(r) == multiset(ks)
    ensures forall i, j | 0 <= i < j < |r| ::
      r[i].createdAt < r[j].createdAt || (r[i].createdAt == r[j].createdAt && r[i].kid < r[j].kid)
  {
    r := [];
    for i := 0 to |ks|
      invariant Sorted(r) && multiset(r) == multiset(ks[..i])
    {
      forall j | 0 <= j < |r| ensures r[j].kid != ks[i].kid {
        assert r[j] in multiset(ks[..i]);
      }
      InsertSorts(r, ks[i]);
      r := Insert(r, ks[i]);
      assert ks[..i + 1] == ks[..i] + [ks[i]];
    }
    assert ks[..|ks|] == ks;
  }

  lemma HeadsAgree(a: seq<Keypair>, b: seq<Keypair>)
    requires Sorted(a) && Sorted(b) && multiset(a) == multiset(b) && a != [] && b != []
    ensures a[0] == b[0]
  {
    assert a[0] in multiset(b) && b[0] in multiset(a);
    assert forall k | 0 < k < |b| :: Before(b[0], b[k]);
    assert forall k | 0 < k < |a| :: Before(a[0], a[k]);
    var i :| 0 <= i < |b| && b[i] == a[0];
    var j :| 0 <= j < |a| && a[j] == b[0];
  }

  lemma TailMultiset(a: seq<Keypair>)
    requires a != []
    ensures multiset(a[1..]) == multiset(a) - multiset{a[0]}
  {
    assert a == [a[0]] + a[1..];
  }

  /** Strictly ascending sequences of the same keys are the same sequence. */
  lemma {:induction false} SortedIsUnique(a: seq<Keypair>, b: seq<Keypair>)
    requires Sorted(a) && Sorted(b) && multiset(a) == multiset(b)
    ensures a == b
  {
    assert |a| == |multiset(a)| && |b| == |multiset(b)|;
    if a != [] {
      HeadsAgree(a, b);
      TailMultiset(a);
      TailMultiset(b);
      SortedIsUnique(a[1..], b[1..]);
    }
  }

  // ---------------------------------------------------------------------
  // The signer, said without the scan
  // ---------------------------------------------------------------------

  predicate NewestMature(ks: seq<Keypair>, now: int, delay: int, i: int) {
    0 <= i < |ks| && Mature(ks[i], now, delay) && forall j | i < j < |ks| :: !Mature(ks[j], now, delay)
  }

  predicate OldestActive(ks: seq<Keypair>, i: int) {
    0 <= i < |ks| && Active(ks[i]) && forall j | 0 <= j < i :: !Active(ks[j])
  }

  predicate AnyMature(ks: seq<Keypair>, now: int, delay: int) {
    exists j :: 0 <= j < |ks| && Mature(ks[j], now, delay)
  }

  predicate AnyActive(ks: seq<Keypair>) {
    exists j :: 0 <= j < |ks| && Active(ks[j])
  }

  /** The newest active keypair past its delay; when there is none, the oldest active one. */
  predicate Signs(ks: seq<Keypair>, now: int, delay: int, i: int) {
    if AnyMature(ks, now, delay) then NewestMature(ks, now, delay, i) else OldestActive(ks, i)
  }

  lemma SignerIsUnique(ks: seq<Keypair>, now: int, delay: int, i: int, j: int)
    requires Signs(ks, now, delay, i) && Signs(ks, now, delay, j)
    ensures i == j
  {}

  /** The backward scan finds it, and finds one whenever any key is active. */
  method Scan(ks: seq<Keypair>, now: int, delay: int) returns (r: Option<nat>)
    ensures r.None? <==> !AnyActive(ks)
    ensures r.Some? ==> Signs(ks, now, delay, r.value)
  {
    var oldest: Option<nat> := None;
    var i := |ks|;
    while 0 < i
      invariant 0 <= i <= |ks|
      invariant forall j | i <= j < |ks| :: !Mature(ks[j], now, delay)
      invariant oldest.None? ==> forall j | i <= j < |ks| :: !Active(ks[j])
      invariant oldest.Some? ==>
        i <= oldest.value < |ks| && Active(ks[oldest.value]) && forall j | i <= j < oldest.value :: !Active(ks[j])
    {
      i := i - 1;
      if ks[i].retiredAt.None? {
        if now >= ks[i].createdAt + delay {
          return Some(i);
        }
        oldest := Some(i);
      }
    }
    r := oldest;
  }

  // ---------------------------------------------------------------------
  // Over time, on a fixed set
  // ---------------------------------------------------------------------

  lemma ChoiceOnlyMovesLater(ks: seq<Keypair>, now: int, later: int, delay: int, i: int, j: int)
    requires now <= later && Signs(ks, now, delay, i) && Signs(ks, later, delay, j)
    ensures i <= j
  {}

  /** A new key, generated with an active one in place, signs nothing until its delay has passed. */
  lemma NewKeyWaits(ks: seq<Keypair>, k: Keypair, now: int, delay: int, i: int)
    requires AnyActive(ks) && now < k.createdAt + delay
    ensures Signs(ks + [k], now, delay, i) <==> Signs(ks, now, delay, i)
  {
    var ls := ks + [k];
    assert forall j | 0 <= j < |ks| :: ls[j] == ks[j];
    assert ls[|ks|] == k && !Mature(k, now, delay);
    assert AnyMature(ls, now, delay) <==> AnyMature(ks, now, delay) by {
      if AnyMature(ks, now, delay) {
        var j :| 0 <= j < |ks| && Mature(ks[j], now, delay);
        assert Mature(ls[j], now, delay);
      }
    }
    var a :| 0 <= a < |ks| && Active(ks[a]);
    assert Active(ls[a]);
  }

  /**
   The moment reported for a key still inside its delay: up to it some earlier
   key signs; at it the signer is this key or a later one with the same stamp;
   from then on never an earlier one.
   */
  lemma ActivatesAtIsExact(ks: seq<Keypair>, now: int, t: int, delay: int, i: int, s: int, j: int)
    requires Sorted(ks) && 0 <= i < |ks| && Active(ks[i])
    requires Signs(ks, now, delay, s) && s != i && now < ks[i].createdAt + delay
    requires now <= t && Signs(ks, t, delay, j)
    ensures t < ks[i].createdAt + delay ==> j < i
    ensures t >= ks[i].createdAt + delay ==> i <= j
    ensures t == ks[i].createdAt + delay ==> ks[j].createdAt == ks[i].createdAt
  {}

  datatype Status = Status(key: Keypair, signing: bool, activatesAt: Option<int>)

  predicate StatusOk(ks: seq<Keypair>, now: int, delay: int, i: nat, st: Status)
    requires i < |ks|
  {
    && st.key == ks[i]
    && (st.signing <==> Active(ks[i]) && Signs(ks, now, delay, i))
    && (st.activatesAt.Some? <==> Active(ks[i]) && !st.signing && now < ks[i].createdAt + delay)
    && (st.activatesAt.Some? ==> st.activatesAt.value == ks[i].createdAt + delay)
  }

  method Statuses(ks: seq<Keypair>, now: int, delay: int) returns (out: seq<Status>)
    requires DistinctKids(ks)
    ensures |out| == |ks| && forall i | 0 <= i < |ks| :: StatusOk(ks, now, delay, i, out[i])
  {
    var signer := Scan(ks, now, delay);
    out := [];
    while |out| < |ks|
      invariant |out| <= |ks|
      invariant forall i | 0 <= i < |out| :: StatusOk(ks, now, delay, i, out[i])
    {
      var i := |out|;
      var k := ks[i];
      var signing := k.retiredAt.None? && signer.Some? && k.kid == ks[signer.value].kid;
      var at := k.createdAt + delay;
      var activates := if k.retiredAt.None? && !signing && now < at then Some(at) else None;
      SigningByKid(ks, now, delay, i, signer);
      out := out + [Status(k, signing, activates)];
    }
  }

  lemma SigningByKid(ks: seq<Keypair>, now: int, delay: int, i: nat, signer: Option<nat>)
    requires DistinctKids(ks) && i < |ks|
    requires (signer.None? <==> !AnyActive(ks)) && (signer.Some? ==> Signs(ks, now, delay, signer.value))
    ensures Active(ks[i]) ==> signer.Some? && (ks[i].kid == ks[signer.value].kid <==> Signs(ks, now, delay, i))
  {}

  // ---------------------------------------------------------------------
  // Retiring
  // ---------------------------------------------------------------------

  function Others(ks: seq<Keypair>, kid: Kid): (r: seq<Keypair>)
    ensures forall k :: k in r <==> k in ks && k.kid != kid
  {
    if ks == [] then []
    else
      assert ks == [ks[0]] + ks[1..];
      (if ks[0].kid == kid then [] else [ks[0]]) + Others(ks[1..], kid)
  }

  lemma {:induction false} OthersSorted(ks: seq<Keypair>, kid: Kid)
    requires Sorted(ks)
    ensures Sorted(Others(ks, kid))
  {
    if ks != [] {
      OthersSorted(ks[1..], kid);
      forall k | k in Others(ks[1..], kid) ensures Before(ks[0], k) {
        var j :| 0 <= j < |ks[1..]| && ks[1..][j] == k;
        assert ks[j + 1] == k;
      }
    }
  }

  /** RetireKeypair's effect: kid is stamped only when another active key is left. */
  function Retired(ks: seq<Keypair>, kid: Kid, at: int): (r: seq<Keypair>)
    ensures |r| == |ks| && forall i | 0 <= i < |ks| ::
      r[i] == if ks[i].kid == kid && Active(ks[i]) && AnyActive(Others(ks, kid)) then ks[i].(retiredAt := Some(at))
        else ks[i]
  {
    seq(|ks|, i requires 0 <= i < |ks| => if ks[i].kid == kid && Active(ks[i]) && AnyActive(Others(ks, kid))
      then ks[i].(retiredAt := Some(at)) else ks[i])
  }

  predicate SignsAs(ks: seq<Keypair>, now: int, delay: int, k: Keypair) {
    exists i :: 0 <= i < |ks| && ks[i] == k && Signs(ks, now, delay, i)
  }

  predicate KidSigns(ks: seq<Keypair>, now: int, delay: int, kid: Kid) {
    exists i :: 0 <= i < |ks| && ks[i].kid == kid && Signs(ks, now, delay, i)
  }

  /** kid signs at now1, k would sign at now2 without it, and k is still inside its delay at now3. */
  predicate Awaits(ks: seq<Keypair>, kid: Kid, now1: int, now2: int, now3: int, delay: int, k: Keypair) {
    KidSigns(ks, now1, delay, kid) && SignsAs(Others(ks, kid), now2, delay, k) && now3 < k.createdAt + delay
  }

  predicate Has(ks: seq<Keypair>, kid: Kid) {
    exists i :: 0 <= i < |ks| && ks[i].kid == kid
  }

  /** kid is active and nothing else is. */
  predicate OnlyActive(ks: seq<Keypair>, kid: Kid) {
    (exists i :: 0 <= i < |ks| && ks[i].kid == kid && Active(ks[i]))
      && forall i | 0 <= i < |ks| && ks[i].kid != kid :: !Active(ks[i])
  }

  /** n is ks with kid stamped `at` if it was active, and nothing else changed. */
  predicate RetiresOnly(ks: seq<Keypair>, n: seq<Keypair>, kid: Kid, at: int) {
    && |n| == |ks|
    && (forall i | 0 <= i < |ks| && ks[i].kid == kid && ks[i].retiredAt.None? :: n[i] == ks[i].(retiredAt := Some(at)))
    && (forall i | 0 <= i < |ks| && (ks[i].kid != kid || ks[i].retiredAt.Some?) :: n[i] == ks[i])
  }

  lemma RetiredIs(ks: seq<Keypair>, kid: Kid, at: int)
    ensures !Has(ks, kid) || OnlyActive(ks, kid) ==> Retired(ks, kid, at) == ks
    ensures Has(ks, kid) && !OnlyActive(ks, kid) ==> RetiresOnly(ks, Retired(ks, kid, at), kid, at)
  {
    OthersActive(ks, kid);
  }

  lemma AwaitsOne(ks: seq<Keypair>, kid: Kid, now1: int, now2: int, now3: int, delay: int, k: Keypair, l: Keypair)
    requires Awaits(ks, kid, now1, now2, now3, delay, k) && Awaits(ks, kid, now1, now2, now3, delay, l)
    ensures k == l
  {
    var rest := Others(ks, kid);
    var i :| 0 <= i < |rest| && rest[i] == k && Signs(rest, now2, delay, i);
    var j :| 0 <= j < |rest| && rest[j] == l && Signs(rest, now2, delay, j);
    SignerIsUnique(rest, now2, delay, i, j);
  }

  lemma NobodyElseSigns(ks: seq<Keypair>, now: int, delay: int, i: nat, kid: Kid)
    requires i < |ks| && Signs(ks, now, delay, i)
    ensures KidSigns(ks, now, delay, kid) <==> ks[i].kid == kid
  {
    if j :| 0 <= j < |ks| && ks[j].kid == kid && Signs(ks, now, delay, j) { SignerIsUnique(ks, now, delay, i, j); }
  }

  lemma OthersActive(ks: seq<Keypair>, kid: Kid)
    ensures AnyActive(Others(ks, kid)) <==> exists i :: 0 <= i < |ks| && ks[i].kid != kid && Active(ks[i])
  {
    var rest := Others(ks, kid);
    if j :| 0 <= j < |rest| && Active(rest[j]) { assert rest[j] in ks; }
    if i :| 0 <= i < |ks| && ks[i].kid != kid && Active(ks[i]) { assert ks[i] in rest; }
  }

  datatype RetireResult = RetiredOk | NotFound | LastActive | ReplacementPending(kid: Kid, activatesAt: int)

  class Keys {
    var stored: seq<Keypair>
    var cached: seq<Keypair>
    const delay: int

    constructor (stored: seq<Keypair>, delay: int)
      requires Sorted(stored) && DistinctKids(stored) && 0 <= delay
      ensures this.stored == stored && this.cached == stored && this.delay == delay
    {
      this.stored, this.cached, this.delay := stored, stored, delay;
    }

    ghost predicate Valid()
      reads this
    {
      Sorted(stored) && DistinctKids(stored) && Sorted(cached)
    }

    /** LoadKeypairs answers in created_at, kid order, which is the order swap would sort to. */
    method Reload()
      requires Valid()
      modifies this`cached
      ensures Valid() && cached == stored
    {
      cached := stored;
    }

    method Latest(now: int) returns (k: Option<Keypair>)
      requires Valid()
      ensures k.None? <==> !AnyActive(cached)
      ensures k.Some? ==> exists i :: 0 <= i < |cached| && Signs(cached, now, delay, i) && cached[i] == k.value
    {
      var i := Scan(cached, now, delay);
      k := if i.None? then None else Some(cached[i.value]);
    }

    /**
     A key unless one exists already and force is not given.  The cache is what
     was loaded with the new key appended, then sorted; it is the store's order
     whatever the clock says.
     */
    method Generate(kid: Kid, now: int, force: bool) returns (done: bool)
      requires Valid() && forall i | 0 <= i < |stored| :: stored[i].kid != kid
      modifies this
      ensures Valid() && (done <==> force || old(stored) == [])
      ensures done ==> cached == stored && multiset(stored) == multiset(old(stored)) + multiset{Keypair(kid, now, None)}
      ensures !done ==> stored == old(stored) && cached == old(cached)
    {
      done := |stored| == 0 || force;
      if done {
        var k := Keypair(kid, now, None);
        var loaded := stored;
        InsertDistinct(stored, k);
        stored := Insert(stored, k);
        InsertDistinct(loaded, k);
        cached := SortByCreatedAt(loaded + [k]);
        SortedIsUnique(cached, stored);
      }
    }

    /** The refusal is for the signer whose successor is still inside its delay; everything else is the store's call. */
    method CheckReplacementPublished(kid: Kid, now1: int, now2: int, now3: int) returns (pending: Option<Keypair>)
      requires Valid()
      modifies this`cached
      ensures Valid() && cached == stored
      ensures pending.Some? ==> Awaits(stored, kid, now1, now2, now3, delay, pending.value)
      ensures pending.None? ==> forall k :: !Awaits(stored, kid, now1, now2, now3, delay, k)
      ensures
        pending.None? && now1 <= now2 <= now3 && AnyMature(stored, now1, delay) && AnyActive(Others(stored, kid)) ==>
          AnyMature(Others(stored, kid), now3, delay)
    {
      Reload();
      var signer := Scan(cached, now1, delay);
      if signer.Some? { NobodyElseSigns(stored, now1, delay, signer.value, kid); }
      if signer.None? || cached[signer.value].kid != kid {
        if signer.Some? && AnyMature(stored, now1, delay) {
          assert Mature(stored[signer.value], now3, delay) || now3 < now1;
          if now1 <= now3 { MatureElsewhere(stored, kid, signer.value, now3, delay); }
        }
        return None;
      }
      var rest := Others(cached, kid);
      var next := Scan(rest, now2, delay);
      if next.None? {
        return None;
      }
      forall k | Awaits(stored, kid, now1, now2, now3, delay, k) ensures k == rest[next.value] {
        var i :| 0 <= i < |rest| && rest[i] == k && Signs(rest, now2, delay, i);
        SignerIsUnique(rest, now2, delay, next.value, i);
      }
      if now3 < rest[next.value].createdAt + delay {
        return Some(rest[next.value]);
      }
      pending := None;
      assert Active(rest[next.value]) by { SignerIsActive(rest, now2, delay, next.value); }
      assert Mature(rest[next.value], now3, delay);
    }

    /**
     Refused for a signer whose successor is still inside its delay, unless
     forced; then for a kid not stored, and for the only active key, even if
     forced.  Otherwise the key is stamped if it was active.  An unforced
     retirement that succeeds, with nobody else changing keys in between,
     leaves a signer past its delay if there was one.
     */
    method Retire(kid: Kid, force: bool, now1: int, now2: int, now3: int, at: int) returns (res: RetireResult)
      requires Valid()
      modifies this
      ensures Valid()
      ensures res.RetiredOk? ==> stored == Retired(old(stored), kid, at) && cached == stored
      ensures !res.RetiredOk? ==> stored == old(stored)
      ensures forall k | !force && Awaits(old(stored), kid, now1, now2, now3, delay, k) ::
        res == ReplacementPending(k.kid, k.createdAt + delay)
      ensures res.ReplacementPending? ==> !force && exists k :: Awaits(old(stored), kid, now1, now2, now3, delay, k)
      ensures !res.ReplacementPending? ==>
        && (res == NotFound <==> !Has(old(stored), kid))
        && (res == LastActive <==> OnlyActive(old(stored), kid))
      ensures res.RetiredOk? ==> RetiresOnly(old(stored), stored, kid, at)
      ensures AnyActive(old(stored)) ==> AnyActive(stored)
      ensures !force && now1 <= now2 <= now3 <= at && AnyMature(old(stored), now1, delay) ==>
        AnyMature(stored, at, delay)
    {
      if !force {
        var pending := CheckReplacementPublished(kid, now1, now2, now3);
        if pending.Some? {
          forall k | Awaits(stored, kid, now1, now2, now3, delay, k) ensures k == pending.value {
            AwaitsOne(stored, kid, now1, now2, now3, delay, k, pending.value);
          }
          if now1 <= at { KeepsMature(stored, now1, at, delay); }
          return ReplacementPending(pending.value.kid, pending.value.createdAt + delay);
        }
      }
      ghost var was := stored;
      if now1 <= at { KeepsMature(was, now1, at, delay); }
      if !force && now1 <= now2 <= now3 <= at
        && AnyMature(was, now1, delay) { RetireLeavesMature(was, kid, now1, now3, at, delay); }
      res := RetireKeypair(kid, at);
      if res.RetiredOk? { Reload(); }
    }

    /** The store's part: one guarded update, and a read that says why it changed nothing. */
    method RetireKeypair(kid: Kid, at: int) returns (res: RetireResult)
      requires Valid()
      modifies this`stored
      ensures Valid() && stored == Retired(old(stored), kid, at)
      ensures res == if !Has(old(stored), kid) then NotFound else if OnlyActive(old(stored), kid) then LastActive
        else RetiredOk
      ensures !res.RetiredOk? ==> stored == old(stored)
      ensures res.RetiredOk? ==> RetiresOnly(old(stored), stored, kid, at)
      ensures AnyActive(old(stored)) ==> AnyActive(stored)
    {
      ghost var was := stored;
      RetiredStaysValid(was, kid, at);
      if AnyActive(was) { RetireLeavesActive(was, kid, at); }
      OthersActive(was, kid);
      RetiredIs(was, kid, at);
      var other := FindOtherActive(stored, kid);
      var i := Find(stored, kid);
      if i.None? {
        return NotFound;
      }
      if stored[i.value].retiredAt.None? {
        if !other {
          return LastActive;
        }
        stored := Retired(stored, kid, at);
      } else {
        NothingToRetire(was, kid, at, i.value);
      }
      res := RetiredOk;
    }
  }

  method Find(ks: seq<Keypair>, kid: Kid) returns (r: Option<nat>)
    ensures r.None? ==> forall i | 0 <= i < |ks| :: ks[i].kid != kid
    ensures r.Some? ==> r.value < |ks| && ks[r.value].kid == kid
  {
    for i := 0 to |ks|
      invariant forall j | 0 <= j < i :: ks[j].kid != kid
    {
      if ks[i].kid == kid { return Some(i); }
    }
    r := None;
  }

  method FindOtherActive(ks: seq<Keypair>, kid: Kid) returns (found: bool)
    ensures found <==> AnyActive(Others(ks, kid))
  {
    var rest := Others(ks, kid);
    for i := 0 to |rest|
      invariant forall j | 0 <= j < i :: !Active(rest[j])
    {
      if rest[i].retiredAt.None? { return true; }
    }
    found := false;
  }

  lemma SignerIsActive(ks: seq<Keypair>, now: int, delay: int, i: int)
    requires Signs(ks, now, delay, i)
    ensures 0 <= i < |ks| && Active(ks[i])
  {}

  lemma KeepsMature(ks: seq<Keypair>, now: int, at: int, delay: int)
    requires now <= at
    ensures AnyMature(ks, now, delay) ==> AnyMature(ks, at, delay)
  {}

  lemma MatureElsewhere(ks: seq<Keypair>, kid: Kid, s: nat, now: int, delay: int)
    requires s < |ks| && ks[s].kid != kid && Mature(ks[s], now, delay)
    ensures AnyMature(Others(ks, kid), now, delay)
  {}

  lemma RetiredStaysValid(ks: seq<Keypair>, kid: Kid, at: int)
    requires Sorted(ks) && DistinctKids(ks)
    ensures Sorted(Retired(ks, kid, at)) && DistinctKids(Retired(ks, kid, at))
  {}

  lemma RetireLeavesMature(ks: seq<Keypair>, kid: Kid, now1: int, now3: int, at: int, delay: int)
    requires now3 <= at && now1 <= at
    requires AnyMature(ks, now1, delay) && (AnyActive(Others(ks, kid)) ==> AnyMature(Others(ks, kid), now3, delay))
    ensures AnyMature(Retired(ks, kid, at), at, delay)
  {}

  lemma RetireLeavesActive(ks: seq<Keypair>, kid: Kid, at: int)
    requires AnyActive(ks)
    ensures AnyActive(Retired(ks, kid, at))
  {}

  lemma NothingToRetire(ks: seq<Keypair>, kid: Kid, at: int, i: nat)
    requires DistinctKids(ks) && i < |ks| && ks[i].kid == kid && !Active(ks[i])
    ensures Retired(ks, kid, at) == ks
  {}
}
