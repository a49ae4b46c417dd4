/**
 The verifier's read-through cache over the denylist, in place: one map, swept
 at most once per TTL and capped, with "active" entries the first to go.
 */
module DenylistCache {
  import opened Sets
  import opened Wrappers

  type Jti = string

  datatype Entry = Entry(revoked: bool, expires: int)

  function Unexpired(m: map<Jti, Entry>, now: int): map<Jti, Entry> {
    map k | k in m && now < m[k].expires :: m[k]
  }

  predicate AllRevoked(m: map<Jti, Entry>) {
    forall k | k in m :: m[k].revoked
  }

  /** Storing e under j may drop other entries but never alters or adds one. */
  predicate Stored(before: map<Jti, Entry>, after: map<Jti, Entry>, j: Jti, e: Entry) {
    && j in after && after[j] == e
    && forall k | k in after && k != j :: k in before && after[k] == before[k]
  }

  lemma DropOne(m: map<Jti, Entry>, v: Jti)
    requires v in m
    ensures |m - {v}| == |m| - 1
  {}

  lemma PutSize(m: map<Jti, Entry>, j: Jti, e: Entry)
    ensures |m[j := e]| == if j in m then |m| else |m| + 1
  {}

  lemma UnexpiredSize(m: map<Jti, Entry>, now: int)
    ensures |Unexpired(m, now)| <= |m|
  {
    SubsetIsSmaller(Unexpired(m, now).Keys, m.Keys);
    assert |Unexpired(m, now).Keys| == |Unexpired(m, now)| && |m.Keys| == |m|;
  }

  class Cache {
    const ttl: int
    const maxEntries: nat
    var entries: map<Jti, Entry>
    var nextSweep: int

    ghost predicate Valid()
      reads this
    {
      0 < maxEntries && |entries| <= maxEntries
    }

    constructor (ttl: int, maxEntries: nat, epoch: int)
      requires 0 < maxEntries
      ensures Valid() && entries == map[] && this.ttl == ttl && this.maxEntries == maxEntries && nextSweep == epoch
    {
      this.ttl, this.maxEntries := ttl, maxEntries;
      entries, nextSweep := map[], epoch;
    }

    /** The cached answer, if there is an unexpired one. */
    method Probe(jti: Jti, now: int) returns (r: Option<bool>)
      ensures r.Some? <==> jti in entries && now < entries[jti].expires
      ensures r.Some? ==> r.value == entries[jti].revoked
    {
      if jti in entries && now < entries[jti].expires {
        r := Some(entries[jti].revoked);
      } else {
        r := None;
      }
    }

    /** Drops one entry, a revoked one only when there is no other kind; the key "" needs no special case. */
    method EvictOne()
      modifies this`entries
      ensures old(entries) == map[] ==> entries == map[]
      ensures old(entries) != map[] ==>
        exists v :: v in old(entries) && entries == old(entries) - {v}
          && (old(entries)[v].revoked ==> AllRevoked(old(entries)))
    {
      var victim := "";
      var todo := entries.Keys;
      while todo != {}
        invariant todo <= entries.Keys && entries == old(entries)
        invariant forall k | k in entries && k !in todo :: entries[k].revoked
        invariant victim != "" ==> victim in entries
        invariant victim == "" ==> entries.Keys - todo <= {""}
      {
        var k :| k in todo;
        todo := todo - {k};
        if !entries[k].revoked {
          entries := entries - {k};
          return;
        }
        if victim == "" {
          victim := k;
        }
      }
      assert victim in entries || entries == map[] by {
        if victim == "" && entries != map[] {
          var k :| k in entries;
          assert k in entries.Keys - todo;
        }
      }
      entries := entries - {victim};
    }

    method Sweep(now: int)
      modifies this`entries
      ensures entries == Unexpired(old(entries), now)
      ensures forall k :: k in entries <==> k in old(entries) && now < old(entries)[k].expires
      ensures forall k | k in entries :: entries[k] == old(entries)[k]
    {
      var todo := entries.Keys;
      while todo != {}
        invariant todo <= entries.Keys
        invariant forall k | k in entries ::
          k in old(entries) && entries[k] == old(entries)[k] && (k in todo || now < entries[k].expires)
        invariant forall k | k in old(entries) && now < old(entries)[k].expires :: k in entries
      {
        var k :| k in todo;
        todo := todo - {k};
        if entries[k].expires <= now {
          entries := entries - {k};
        }
      }
    }

    /** The cap holds, the answer is in, and an unexpired revocation is lost only when nothing else could go. */
    method Store(jti: Jti, revoked: bool, now: int)
      requires Valid()
      modifies this`entries, this`nextSweep
      ensures Valid()
      ensures nextSweep == if old(nextSweep) <= now then now + ttl else old(nextSweep)
      ensures
        var base := if old(nextSweep) <= now then Unexpired(old(entries), now) else old(entries);
        var e := Entry(revoked, now + ttl);
        if jti in base || |base| < maxEntries then entries == base[jti := e]
        else exists v :: v in base && (base[v].revoked ==> AllRevoked(base)) && entries == (base - {v})[jti := e]
      ensures Stored(old(entries), entries, jti, Entry(revoked, now + ttl))
    {
      if nextSweep <= now {
        Sweep(now);
        nextSweep := now + ttl;
      }
      UnexpiredSize(old(entries), now);
      ghost var base := entries;
      assert |base| <= maxEntries;
      if jti !in entries && maxEntries <= |entries| {
        EvictOne();
        assert base != map[];
        ghost var v :| v in base && entries == base - {v} && (base[v].revoked ==> AllRevoked(base));
        DropOne(base, v);
      }
      PutSize(entries, jti, Entry(revoked, now + ttl));
      entries := entries[jti := Entry(revoked, now + ttl)];
    }

    method Hydrate(jti: Jti, now: int)
      requires Valid()
      modifies this`entries, this`nextSweep
      ensures Valid()
      ensures if jti == "" then entries == old(entries) && nextSweep == old(nextSweep)
              else Stored(old(entries), entries, jti, Entry(true, now + ttl))
    {
      if jti == "" {
        return;
      }
      Store(jti, true, now);
    }
  }
}
