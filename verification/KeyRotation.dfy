/**
 Rotating signing keys across replicas and relying parties, with the clock.

 A keypair is stamped when created and visible once its save commits, at most
 `lag` later; likewise a retirement.  Every running replica has reloaded within
 `reload`, every relying party has fetched the key set of some replica within
 `fetch`, and a relying party accepts only keys in the set it holds.
 */
module KeyRotation {
  import opened Wrappers
  import opened SigningKeys

  type Replica = nat
  type Party = nat

  datatype Config = Config(delay: int, grace: int, lag: int, reload: int, fetch: int)

  predicate Sane(c: Config) {
    0 <= c.delay && 0 <= c.grace && 0 <= c.lag && 0 <= c.reload && 0 <= c.fetch
  }

  /** A stored key with the moments its save and its retirement became visible. */
  datatype Row = Row(key: Keypair, savedAt: int, retirementSavedAt: int)

  datatype Cache = Cache(at: int, keys: map<Kid, Keypair>)
  datatype Held = Held(at: int, kids: set<Kid>)

  datatype World = World(now: int, rows: map<Kid, Row>, replicas: map<Replica, Cache>, parties: map<Party, Held>)

  function Snapshot(rows: map<Kid, Row>): map<Kid, Keypair> {
    map k | k in rows :: rows[k].key
  }

  /** A replica generates a key before it serves if it finds none active, and the last active one is never retired. */
  predicate AnyKey(keys: map<Kid, Keypair>) {
    exists k :: k in keys && Active(keys[k])
  }

  predicate PublishedKey(k: Keypair, now: int, grace: int) {
    k.retiredAt.None? || now < k.retiredAt.value + grace
  }

  function Published(keys: map<Kid, Keypair>, now: int, grace: int): set<Kid> {
    set k | k in keys && PublishedKey(keys[k], now, grace)
  }

  /** The replica signs with k, k being past its publish delay: the newest such key it knows. */
  predicate SignsWith(keys: map<Kid, Keypair>, now: int, delay: int, k: Kid) {
    k in keys && Mature(keys[k], now, delay) && forall j | j in keys && Mature(keys[j], now, delay) ::
      j == k || Before(keys[j], keys[k])
  }

  /** The same choice the scan makes over the sorted cache. */
  lemma ScanSignsWith(ks: seq<Keypair>, keys: map<Kid, Keypair>, now: int, delay: int, i: nat)
    requires Sorted(ks) && AnyMature(ks, now, delay) && i < |ks| && Signs(ks, now, delay, i)
    requires forall j | 0 <= j < |ks| :: ks[j].kid in keys && keys[ks[j].kid] == ks[j]
    requires forall k | k in keys :: exists j :: 0 <= j < |ks| && ks[j] == keys[k] && ks[j].kid == k
    ensures SignsWith(keys, now, delay, ks[i].kid)
  {}

  // ---------------------------------------------------------------------
  // Steps
  // ---------------------------------------------------------------------

  datatype Step =
    | Tick(t: int)
    | Save(kid: Kid, createdAt: int)
    | Retire(kid: Kid, at: int)
    | Reload(r: Replica)
    | Stop(r: Replica)
    | Fetch(p: Party, r: Replica)

  predicate Enabled(w: World, c: Config, a: Step) {
    match a
    case Tick(t) =>
      && w.now <= t
      && (forall r | r in w.replicas :: t <= w.replicas[r].at + c.reload)
      && (forall p | p in w.parties :: t <= w.parties[p].at + c.fetch)
    case Save(k, createdAt) => k !in w.rows && createdAt <= w.now <= createdAt + c.lag
    case Retire(k, at) =>
      && k in w.rows && Active(w.rows[k].key) && at <= w.now <= at + c.lag
      && exists j :: j in w.rows && j != k && Active(w.rows[j].key)
    case Reload(_) => AnyKey(Snapshot(w.rows))
    case Stop(r) => r in w.replicas
    case Fetch(_, r) => r in w.replicas
  }

  function Next(w: World, c: Config, a: Step): World
    requires Enabled(w, c, a)
  {
    match a
    case Tick(t) => w.(now := t)
    case Save(k, createdAt) => w.(rows := w.rows[k := Row(Keypair(k, createdAt, None), w.now, w.now)])
    case Retire(k, at) =>
      w.(rows := w.rows[k := w.rows[k].(key := w.rows[k].key.(retiredAt := Some(at)), retirementSavedAt := w.now)])
    case Reload(r) => w.(replicas := w.replicas[r := Cache(w.now, Snapshot(w.rows))])
    case Stop(r) => w.(replicas := w.replicas - {r})
    case Fetch(p, r) => w.(parties := w.parties[p := Held(w.now, Published(w.replicas[r].keys, w.now, c.grace))])
  }

  predicate IsRun(w: World, c: Config, acts: seq<Step>)
    decreases |acts|
  {
    acts == [] || (Enabled(w, c, acts[0]) && IsRun(Next(w, c, acts[0]), c, acts[1..]))
  }

  function Run(w: World, c: Config, acts: seq<Step>): World
    requires IsRun(w, c, acts)
    decreases |acts|
  {
    if acts == [] then w else Run(Next(w, c, acts[0]), c, acts[1..])
  }

  predicate Init(w: World) {
    w.rows == map[] && w.replicas == map[] && w.parties == map[]
  }

  /** Whatever key a replica signs with past its delay, every relying party holds. */
  ghost predicate Accepted(w: World, c: Config) {
    forall r, k, p | r in w.replicas && p in w.parties && SignsWith(w.replicas[r].keys, w.now, c.delay, k) ::
      k in w.parties[p].kids
  }

  /** The waits the configuration must cover. */
  predicate Covers(c: Config) {
    c.lag + c.reload + c.fetch < c.delay && c.lag + c.reload < c.grace
  }

  // ---------------------------------------------------------------------
  // What every step keeps
  // ---------------------------------------------------------------------

  predicate RowOk(w: World, c: Config, k: Kid, r: Row) {
    && r.key.kid == k && r.savedAt <= w.now && r.savedAt <= r.key.createdAt + c.lag
    && (r.key.retiredAt.Some? ==> r.retirementSavedAt <= r.key.retiredAt.value + c.lag && r.retirementSavedAt <= w.now)
  }

  /** What a cache knows of k: everything saved before it was loaded. */
  predicate KnowsOk(w: World, cache: Cache, k: Kid)
    requires k in w.rows
  {
    var r := w.rows[k];
    && (r.savedAt < cache.at ==> k in cache.keys)
    && (k in cache.keys ==>
          && cache.keys[k].createdAt == r.key.createdAt
          && (cache.keys[k].retiredAt.Some? ==> r.key.retiredAt == cache.keys[k].retiredAt)
          && (cache.keys[k].retiredAt.None? && r.key.retiredAt.Some? ==> cache.at <= r.retirementSavedAt))
  }

  predicate CacheOk(w: World, c: Config, cache: Cache) {
    && cache.at <= w.now <= cache.at + c.reload
    && cache.keys.Keys <= w.rows.Keys
    && forall k | k in w.rows :: KnowsOk(w, cache, k)
  }

  /** A key saved early enough is missing from a held set only once its grace had run out. */
  predicate HeldOk(w: World, c: Config, h: Held) {
    && h.at <= w.now <= h.at + c.fetch
    && forall k | k in w.rows && w.rows[k].savedAt < h.at - c.reload ::
         k in h.kids || (w.rows[k].key.retiredAt.Some? && w.rows[k].key.retiredAt.value + c.grace <= h.at)
  }

  predicate Inv(w: World, c: Config) {
    && (forall k | k in w.rows :: RowOk(w, c, k, w.rows[k]))
    && (forall r | r in w.replicas :: CacheOk(w, c, w.replicas[r]) && AnyKey(w.replicas[r].keys))
    && (forall p | p in w.parties :: HeldOk(w, c, w.parties[p]))
  }

  lemma TickKeeps(w: World, c: Config, t: int)
    requires Inv(w, c) && Enabled(w, c, Tick(t))
    ensures Inv(w.(now := t), c)
  {}

  lemma SaveKeeps(w: World, c: Config, k: Kid, createdAt: int)
    requires Inv(w, c) && Sane(c) && Enabled(w, c, Save(k, createdAt))
    ensures Inv(Next(w, c, Save(k, createdAt)), c)
  {}

  lemma RetireKeeps(w: World, c: Config, k: Kid, at: int)
    requires Inv(w, c) && Enabled(w, c, Retire(k, at))
    ensures Inv(Next(w, c, Retire(k, at)), c)
  {}

  lemma FetchKeeps(w: World, c: Config, p: Party, r: Replica)
    requires Inv(w, c) && Sane(c) && r in w.replicas
    ensures Inv(Next(w, c, Fetch(p, r)), c)
  {}

  lemma ReloadKeeps(w: World, c: Config, r: Replica)
    requires Inv(w, c) && Sane(c) && AnyKey(Snapshot(w.rows))
    ensures Inv(Next(w, c, Reload(r)), c)
  {
    var n := Next(w, c, Reload(r));
    forall q | q in n.replicas ensures CacheOk(n, c, n.replicas[q]) && AnyKey(n.replicas[q].keys) {
      if q != r {
        assert CacheOk(w, c, w.replicas[q]);
        forall j | j in n.rows ensures KnowsOk(n, n.replicas[q], j) { assert KnowsOk(w, w.replicas[q], j); }
      }
    }
    forall q | q in n.parties ensures HeldOk(n, c, n.parties[q]) { assert HeldOk(w, c, w.parties[q]); }
  }

  lemma StopKeeps(w: World, c: Config, r: Replica)
    requires Inv(w, c) && r in w.replicas
    ensures Inv(Next(w, c, Stop(r)), c)
  {
    var n := Next(w, c, Stop(r));
    forall q | q in n.replicas ensures CacheOk(n, c, n.replicas[q]) {
      assert CacheOk(w, c, w.replicas[q]);
      forall j | j in n.rows ensures KnowsOk(n, n.replicas[q], j) { assert KnowsOk(w, w.replicas[q], j); }
    }
    forall q | q in n.parties ensures HeldOk(n, c, n.parties[q]) { assert HeldOk(w, c, w.parties[q]); }
  }

  lemma StepKeeps(w: World, c: Config, a: Step)
    requires Inv(w, c) && Sane(c) && Enabled(w, c, a)
    ensures Inv(Next(w, c, a), c)
  {
    match a
    case Tick(t) => TickKeeps(w, c, t);
    case Save(k, createdAt) => SaveKeeps(w, c, k, createdAt);
    case Retire(k, at) => RetireKeeps(w, c, k, at);
    case Fetch(p, r) => FetchKeeps(w, c, p, r);
    case Reload(r) => ReloadKeeps(w, c, r);
    case Stop(r) => StopKeeps(w, c, r);
  }

  lemma {:induction false} RunKeeps(w: World, c: Config, acts: seq<Step>)
    requires Inv(w, c) && Sane(c) && IsRun(w, c, acts)
    ensures Inv(Run(w, c, acts), c)
    decreases |acts|
  {
    if acts != [] {
      StepKeeps(w, c, acts[0]);
      RunKeeps(Next(w, c, acts[0]), c, acts[1..]);
    }
  }

  lemma CoveredIsAccepted(w: World, c: Config)
    requires Inv(w, c) && Covers(c)
    ensures Accepted(w, c)
  {}

  // ---------------------------------------------------------------------
  // Exactly which configurations are safe
  // ---------------------------------------------------------------------

  ghost predicate Reachable(v: World, c: Config) {
    exists w, acts :: Init(w) && IsRun(w, c, acts) && Run(w, c, acts) == v
  }

  ghost predicate Safe(c: Config) {
    forall v | Reachable(v, c) :: Accepted(v, c)
  }

  lemma Snoc(w: World, c: Config, acts: seq<Step>, a: Step)
    requires IsRun(w, c, acts) && Enabled(Run(w, c, acts), c, a)
    ensures IsRun(w, c, acts + [a]) && Run(w, c, acts + [a]) == Next(Run(w, c, acts), c, a)
    decreases |acts|
  {
    if acts == [] {
      assert [] + [a] == [a] && [a][1..] == [];
      assert Run(Next(w, c, a), c, []) == Next(w, c, a);
    } else {
      Snoc(Next(w, c, acts[0]), c, acts[1..], a);
      assert (acts + [a])[1..] == acts[1..] + [a];
    }
  }

  lemma Start(now: int, c: Config)
    ensures Reachable(World(now, map[], map[], map[]), c)
  {
    assert Run(World(now, map[], map[], map[]), c, []) == World(now, map[], map[], map[]);
  }

  lemma Reach(v: World, c: Config, a: Step) returns (n: World)
    requires Reachable(v, c) && Enabled(v, c, a)
    ensures n == Next(v, c, a) && Reachable(n, c)
  {
    var w, acts :| Init(w) && IsRun(w, c, acts) && Run(w, c, acts) == v;
    Snoc(w, c, acts, a);
    n := Next(v, c, a);
  }

  /** Replica 2 has loaded key 6, the only one, at the moment key 7 is saved. */
  lemma SavedBehind(c: Config) returns (v: World)
    requires Sane(c)
    ensures Reachable(v, c) && v.now == c.lag && v.parties == map[]
    ensures v.rows.Keys == {6, 7} && v.rows[6].key == Keypair(6, -1, None) && v.rows[7].key == Keypair(7, 0, None)
    ensures v.replicas == map[2 := Cache(c.lag, map[6 := Keypair(6, -1, None)])]
  {
    Start(-1, c);
    v := Reach(World(-1, map[], map[], map[]), c, Save(6, -1));
    v := Reach(v, c, Tick(c.lag));
    assert 6 in Snapshot(v.rows) && Active(Snapshot(v.rows)[6]);
    assert Snapshot(v.rows) == map[6 := Keypair(6, -1, None)];
    v := Reach(v, c, Reload(2));
    v := Reach(v, c, Save(7, 0));
  }

  /** A party that fetched without key 7, from a replica that is due to reload. */
  lemma FetchedWithout(c: Config) returns (v: World)
    requires Sane(c)
    ensures Reachable(v, c) && v.now == c.lag + c.reload && v.replicas == map[]
    ensures v.rows.Keys == {6, 7} && v.rows[6].key == Keypair(6, -1, None) && v.rows[7].key == Keypair(7, 0, None)
    ensures v.parties == map[0 := Held(c.lag + c.reload, {6})]
  {
    v := SavedBehind(c);
    v := Reach(v, c, Tick(c.lag + c.reload));
    v := Reach(v, c, Fetch(0, 2));
    assert v.parties[0].kids == {6};
    v := Reach(v, c, Stop(2));
  }

  /** Too short a delay: a key set fetched from a replica about to reload, when it reloaded just before the save. */
  lemma ShortDelayFails(c: Config) returns (v: World)
    requires Sane(c) && c.delay <= c.lag + c.reload + c.fetch
    ensures Reachable(v, c) && !Accepted(v, c)
  {
    v := FetchedWithout(c);
    v := Reach(v, c, Tick(c.lag + c.reload + c.fetch));
    assert 6 in Snapshot(v.rows) && Active(Snapshot(v.rows)[6]);
    v := Reach(v, c, Reload(1));
    assert SignsWith(v.replicas[1].keys, v.now, c.delay, 7) && 7 !in v.parties[0].kids;
  }

  /** Two keys past their delay, known to replica 1, which has just reloaded. */
  lemma TwoMature(c: Config) returns (v: World)
    requires Sane(c)
    ensures Reachable(v, c) && v.now == c.lag && v.parties == map[]
    ensures v.rows.Keys == {6, 7} && v.rows[6].key == Keypair(6, -c.delay - 1, None)
      && v.rows[7].key == Keypair(7, -c.delay, None)
    ensures v.replicas == map[1 := Cache(c.lag, Snapshot(v.rows))]
  {
    Start(-c.delay - 1, c);
    v := Reach(World(-c.delay - 1, map[], map[], map[]), c, Save(6, -c.delay - 1));
    v := Reach(v, c, Tick(-c.delay));
    v := Reach(v, c, Save(7, -c.delay));
    v := Reach(v, c, Tick(c.lag));
    assert 6 in Snapshot(v.rows) && Active(Snapshot(v.rows)[6]);
    v := Reach(v, c, Reload(1));
  }

  /** Key 7 is retired just after replica 1 reloaded, which is now due to reload again. */
  lemma RetiredBehind(c: Config) returns (v: World)
    requires Sane(c)
    ensures Reachable(v, c) && v.now == c.lag + c.reload && v.parties == map[]
    ensures v.rows.Keys == {6, 7} && v.rows[6].key == Keypair(6, -c.delay - 1, None)
    ensures v.rows[7].key == Keypair(7, -c.delay, Some(0))
    ensures v.replicas == map[1 := Cache(c.lag,
      map[6 := Keypair(6, -c.delay - 1, None), 7 := Keypair(7, -c.delay, None)])]
  {
    v := TwoMature(c);
    assert Snapshot(v.rows) == map[6 := Keypair(6, -c.delay - 1, None), 7 := Keypair(7, -c.delay, None)];
    assert 6 in v.rows && Active(v.rows[6].key);
    v := Reach(v, c, Retire(7, 0));
    v := Reach(v, c, Tick(c.lag + c.reload));
  }

  /** Too short a grace: a replica that reloaded just before a retirement signs on while another has dropped the key. */
  lemma ShortGraceFails(c: Config) returns (v: World)
    requires Sane(c) && c.grace <= c.lag + c.reload
    ensures Reachable(v, c) && !Accepted(v, c)
  {
    v := RetiredBehind(c);
    assert 6 in Snapshot(v.rows) && Active(Snapshot(v.rows)[6]);
    v := Reach(v, c, Reload(2));
    v := Reach(v, c, Fetch(0, 2));
    assert SignsWith(v.replicas[1].keys, v.now, c.delay, 7) && 7 !in v.parties[0].kids;
  }

  /**
   The rotation is safe, in every run, exactly for the configurations whose
   publish delay exceeds save lag plus reload interval plus the relying
   parties' fetch interval and whose grace exceeds save lag plus reload
   interval.  Meeting either with equality is not enough.
   */
  lemma SafeExactlyWhenCovered(c: Config)
    requires Sane(c)
    ensures Safe(c) <==> Covers(c)
  {
    if Covers(c) {
      forall v | Reachable(v, c) ensures Accepted(v, c) {
        var w, acts :| Init(w) && IsRun(w, c, acts) && Run(w, c, acts) == v;
        RunKeeps(w, c, acts);
        CoveredIsAccepted(v, c);
      }
    } else if c.delay <= c.lag + c.reload + c.fetch {
      var v := ShortDelayFails(c);
    } else {
      var v := ShortGraceFails(c);
    }
  }
}
