/**
 A sweep that finds its families at one moment and deletes them at later ones,
 in chunks, with requests and revocations running in between, as the SQLite
 reaper does.  It is as unobservable as one that deletes what is dead at once.
 */
module RefreshLateSweep {
  import opened RefreshSessions
  import opened RefreshInvariants
  import opened RefreshSweep
  import opened RefreshDeadness

  /** A sweep whose scan has ended: what it found dead, by which clock and lifetime. */
  datatype Sweep = Sweep(found: set<FamilyId>, now: int, life: int)

  datatype Event =
    | Act(a: Action)
    | ScanEnds(sweep: Sweep)
    | Delete(chunk: set<FamilyId>)

  /** The steps an interleaving amounts to: each chunk is deleted with the clock its sweep was begun with. */
  function Steps(sweep: Sweep, events: seq<Event>): seq<Action>
    decreases |events|
  {
    if events == [] then []
    else
      match events[0]
      case Act(a) => [a] + Steps(sweep, events[1..])
      case ScanEnds(s) => Steps(s, events[1..])
      case Delete(chunk) => [Reap(chunk, sweep.now, sweep.life)] + Steps(sweep, events[1..])
  }

  ghost predicate SweepOk(w: World, past: Past, sweep: Sweep) {
    past.latest <= sweep.now && forall f | f in sweep.found :: Settled(w, f, sweep.now, sweep.life)
  }

  /**
   What is asked of an interleaving: what a scan found is dead and nobody is
   between consume and save on it when the scan ends; a chunk is part of what
   was found; requests have fresh ids, and clocks no earlier than the sweep's.
   Nothing is asked of the moments at which chunks are deleted.
   */
  ghost predicate Uncontended(w: World, past: Past, sweep: Sweep, events: seq<Event>)
    decreases |events|
  {
    events == [] ||
    match events[0]
    case Act(a) =>
      && !a.Reap? && Orderly(w, past, a) && (a.StartRefresh? ==> sweep.now <= a.now)
      && Uncontended(Do(w, a), After(past, a, Enabled(w, a)), sweep, events[1..])
    case ScanEnds(s) => SweepOk(w, past, s) && Uncontended(w, past, s, events[1..])
    case Delete(chunk) =>
      var a := Reap(chunk, sweep.now, sweep.life);
      chunk != {} && chunk <= sweep.found && Uncontended(Do(w, a), After(past, a, Enabled(w, a)), sweep, events[1..])
  }

  /** However late, deleting a chunk finds every family in it dead and nobody between consume and save on it. */
  lemma ChunkIsStillDead(w: World, past: Past, sweep: Sweep, chunk: set<FamilyId>)
    requires SweepOk(w, past, sweep) && chunk != {} && chunk <= sweep.found
    ensures Quiet(w, chunk) && forall f | f in chunk :: DeadFamily(w.store, f, sweep.now, sweep.life)
    ensures Orderly(w, past, Reap(chunk, sweep.now, sweep.life))
  {
    forall f | f in chunk ensures Quiet(w, {f}) && DeadFamily(w.store, f, sweep.now, sweep.life) {
      assert Settled(w, f, sweep.now, sweep.life);
    }
    assert forall p, f | p in w.grants && Holds(w.grants[p], f) && f in chunk :: !Quiet(w, {f});
    var f :| f in chunk;
    assert Settled(w, f, sweep.now, sweep.life);
    forall p | p in w.grants && w.grants[p].Presenting? && Owns(w.store, chunk, w.grants[p].token)
      ensures sweep.now <= w.grants[p].now
    {
      assert Settled(w, w.store.tokens[w.grants[p].token].family, sweep.now, sweep.life);
    }
  }

  lemma DoSettles(w: World, a: Action, f: FamilyId, now: int, life: int)
    requires Inv(w) && Settled(w, f, now, life) && (a.StartRefresh? ==> now <= a.now)
    ensures Settled(Do(w, a), f, now, life)
  {
    if a.RevokeMany? {
      RevokeSettles(w, a.families * w.store.families.Keys, a.at, f, now, life);
    } else if Enabled(w, a) {
      StepSettles(w, a, f, now, life);
    }
  }

  lemma SweepStaysOk(w: World, past: Past, sweep: Sweep, a: Action)
    requires Inv(w) && SweepOk(w, past, sweep) && (a.StartRefresh? ==> sweep.now <= a.now)
    requires a.Reap? ==> a.now == sweep.now
    ensures SweepOk(Do(w, a), After(past, a, Enabled(w, a)), sweep)
  {
    forall f | f in sweep.found ensures Settled(Do(w, a), f, sweep.now, sweep.life) {
      DoSettles(w, a, f, sweep.now, sweep.life);
    }
  }

  lemma {:induction false} LateIsOrderly(w: World, past: Past, sweep: Sweep, events: seq<Event>)
    requires Inv(w) && SweepOk(w, past, sweep) && Uncontended(w, past, sweep, events)
    ensures OrderlyAll(w, past, Steps(sweep, events))
    decreases |events|
  {
    if events != [] {
      var rest := events[1..];
      match events[0] {
        case ScanEnds(s) =>
          LateIsOrderly(w, past, s, rest);
        case Act(a) =>
          SweepStaysOk(w, past, sweep, a);
          InvDo(w, a);
          LateIsOrderly(Do(w, a), After(past, a, Enabled(w, a)), sweep, rest);
          assert Steps(sweep, events)[1..] == Steps(sweep, rest);
        case Delete(chunk) =>
          var a := Reap(chunk, sweep.now, sweep.life);
          ChunkIsStillDead(w, past, sweep, chunk);
          SweepStaysOk(w, past, sweep, a);
          InvDo(w, a);
          LateIsOrderly(Do(w, a), After(past, a, Enabled(w, a)), sweep, rest);
          assert Steps(sweep, events)[1..] == Steps(sweep, rest);
      }
    }
  }

  /**
   From an empty store, with chunks deleted however long after their scan:
   the same token responses as with no sweep at all.
   */
  lemma LateSweepsAreUnobservable(w: World, start: int, events: seq<Event>)
    requires Init(w) && Uncontended(w, Past({}, start, {}), Sweep({}, start, 0), events)
    ensures
      var acts := Steps(Sweep({}, start, 0), events);
      Yield(Play(w, acts).answers) == Yield(Play(w, WithoutSweeps(acts)).answers)
  {
    InitInv(w);
    LateIsOrderly(w, Past({}, start, {}), Sweep({}, start, 0), events);
    SweepsAreUnobservable(w, start, Steps(Sweep({}, start, 0), events));
  }
}
