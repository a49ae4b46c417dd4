/**
 Concurrent polls of one device code that has not been polled within its
 interval: one of them is well paced, every other one is slow_down and adds
 five seconds, whichever store runs them and however they interleave.
 */
module DeviceRace {
  import opened Wrappers
  import opened DeviceCodes

  /** The polls in the race with their clock readings, the row they found and the polls recorded before. */
  datatype Race = Race(nows: map<Pid, int>, row: Row, before: nat)

  /** Still to be recorded. */
  predicate Polls(g: Grant) {
    g.Polling? || g.Reading? || g.Bumping?
  }

  function Waiting(w: World, nows: map<Pid, int>): set<Pid> {
    set p | p in nows && p in w.grants && Polls(w.grants[p])
  }

  /** p's clock reading is within the interval of every other's, so it is too fast after any of them. */
  predicate Close(race: Race, p: Pid)
    requires p in race.nows
  {
    forall q | q in race.nows :: race.nows[p] - race.nows[q] < race.row.interval * SECOND
  }

  /** A racer that has read has read the row all of them found; one that has not is close to the others. */
  predicate RacerOk(race: Race, p: Pid, g: Grant)
    requires p in race.nows
  {
    && (Polls(g) ==> g.now == race.nows[p])
    && (g.Reading? ==> g.last == race.row.lastPolled)
    && (g.Polling? ==> Close(race, p))
  }

  /** The starting line: the code was not polled within its interval of any racer. */
  predicate Starts(w: World, race: Race) {
    && w.row == Some(race.row) && 0 < race.row.interval && race.before == |w.polls|
    && forall p | p in race.nows ::
         && p in w.grants && (w.grants[p].Polling? || w.grants[p].Reading?) && RacerOk(race, p, w.grants[p])
         && !TooFast(race.row.lastPolled, race.row.interval, race.nows[p])
  }

  /** Only racers poll, none is abandoned, and no pid of theirs is used again; all else may happen. */
  predicate Fair(a: Step, nows: map<Pid, int>) {
    match a
    case LookUp(p, _, _) => p !in nows
    case PollLocked(p) => p in nows
    case PollSwap(p) => p in nows
    case PollBump(p) => p in nows
    case Abandon(p) => p !in nows
    case _ => true
  }

  /** The row as the polls recorded so far leave it. */
  predicate RowOk(w: World, race: Race) {
    w.row.Some? ==>
      var r := w.row.value;
      if |w.polls| == race.before then r.lastPolled == race.row.lastPolled && r.interval == race.row.interval
      else
        && r.interval == race.row.interval + SLOW_DOWN * (|w.polls| - race.before - 1)
        && exists q :: q in race.nows && r.lastPolled == Some(race.nows[q])
  }

  predicate HistoryOk(w: World, race: Race) {
    race.before <= |w.polls| && forall i | race.before <= i < |w.polls| :: w.polls[i].slow <==> race.before < i
  }

  /** A racer that knows it lost has lost to a recorded poll. */
  predicate LoserOk(w: World, race: Race, g: Grant) {
    g.Bumping? && w.row.Some? ==> race.before < |w.polls|
  }

  predicate Racing(w: World, race: Race) {
    && 0 < race.row.interval
    && (forall p | p in race.nows :: !TooFast(race.row.lastPolled, race.row.interval, race.nows[p]))
    && HistoryOk(w, race) && RowOk(w, race)
    && (forall p | p in race.nows && p in w.grants ::
          RacerOk(race, p, w.grants[p]) && LoserOk(w, race, w.grants[p]))
    && (w.row.Some? ==> |w.polls| - race.before + |Waiting(w, race.nows)| == |race.nows|)
  }

  /** No racer's stamp is the one they all found. */
  lemma StampsDiffer(race: Race, q: Pid)
    requires q in race.nows && 0 < race.row.interval && !TooFast(race.row.lastPolled, race.row.interval, race.nows[q])
    ensures Some(race.nows[q]) != race.row.lastPolled
  {}

  lemma StartRaces(w: World, race: Race)
    requires Starts(w, race)
    ensures Racing(w, race)
  {
    assert Waiting(w, race.nows) == race.nows.Keys;
  }

  /** p's poll is recorded and p leaves the waiting. */
  lemma RecordRaces(w: World, race: Race, p: Pid, slow: bool, grants: map<Pid, Grant>)
    requires Racing(w, race) && w.row.Some? && p in race.nows && p in w.grants && Polls(w.grants[p])
    requires slow <==> race.before < |w.polls|
    requires p in grants ==> !Polls(grants[p])
    requires forall q | q != p :: q in grants <==> q in w.grants
    requires forall q | q in grants && q != p :: grants[q] == w.grants[q]
    ensures Racing(Record(w, w.row.value, race.nows[p], slow).(grants := grants), race)
  {
    var n := Record(w, w.row.value, race.nows[p], slow).(grants := grants);
    assert n.row.value.lastPolled == Some(race.nows[p]);
    assert Waiting(n, race.nows) == Waiting(w, race.nows) - {p};
    assert p in Waiting(w, race.nows);
  }

  /** Nothing is recorded, the row's pace stays and every racer keeps waiting. */
  lemma FrameRaces(w: World, race: Race, n: World)
    requires Racing(w, race) && n.polls == w.polls
    requires n.row.Some? ==>
      w.row.Some? && n.row.value.lastPolled == w.row.value.lastPolled && n.row.value.interval == w.row.value.interval
    requires forall p | p in race.nows && p in n.grants ::
      RacerOk(race, p, n.grants[p]) && LoserOk(n, race, n.grants[p])
    requires n.row.Some? ==> Waiting(n, race.nows) == Waiting(w, race.nows)
    ensures Racing(n, race)
  {}

  lemma LockedRaces(w: World, race: Race, p: Pid)
    requires Racing(w, race) && p in race.nows && p in w.grants && w.grants[p].Polling?
    ensures Racing(AfterPollLocked(w, p), race)
  {
    if w.row.Some? {
      assert Close(race, p);
      var slow := TooFast(w.row.value.lastPolled, w.row.value.interval, race.nows[p]);
      RecordRaces(w, race, p, slow, AfterPollLocked(w, p).grants);
    } else {
      FrameRaces(w, race, Drop(w, p));
    }
  }

  lemma ReadRaces(w: World, race: Race, p: Pid)
    requires Racing(w, race) && p in w.grants && w.grants[p].Polling?
    ensures Racing(AfterPollRead(w, p), race)
  {
    var n := AfterPollRead(w, p);
    if w.row.Some? {
      assert p in race.nows ==> Close(race, p);
      assert Waiting(n, race.nows) == Waiting(w, race.nows);
    }
    FrameRaces(w, race, n);
  }

  lemma SwapRaces(w: World, race: Race, p: Pid)
    requires Racing(w, race) && p in race.nows && p in w.grants && w.grants[p].Reading?
    ensures Racing(AfterPollSwap(w, p), race)
  {
    var n := AfterPollSwap(w, p);
    if w.row.Some? {
      if race.before < |w.polls| {
        var q :| q in race.nows && w.row.value.lastPolled == Some(race.nows[q]);
        StampsDiffer(race, q);
        assert Waiting(n, race.nows) == Waiting(w, race.nows);
        FrameRaces(w, race, n);
      } else {
        RecordRaces(w, race, p, false, n.grants);
      }
    } else {
      FrameRaces(w, race, n);
    }
  }

  lemma BumpRaces(w: World, race: Race, p: Pid)
    requires Racing(w, race) && p in race.nows && p in w.grants && w.grants[p].Bumping?
    ensures Racing(AfterPollBump(w, p), race)
  {
    if w.row.Some? {
      RecordRaces(w, race, p, true, AfterPollBump(w, p).grants);
    } else {
      FrameRaces(w, race, Drop(w, p));
    }
  }

  /** Nothing recorded, the row's pace and the waiting racers as they were, though the row may be gone. */
  predicate Aside(w: World, n: World, nows: map<Pid, int>) {
    && n.polls == w.polls
    && (n.row.Some? ==>
          w.row.Some? && n.row.value.lastPolled == w.row.value.lastPolled
            && n.row.value.interval == w.row.value.interval)
    && (forall p | p in nows && p in w.grants && Polls(w.grants[p]) :: p in n.grants && n.grants[p] == w.grants[p])
    && (forall p | p in nows && p in n.grants && Polls(n.grants[p]) :: p in w.grants && n.grants[p] == w.grants[p])
  }

  lemma OthersStepAside(w: World, a: Step, nows: map<Pid, int>)
    requires Enabled(w, a) && Fair(a, nows) && !a.PollLocked? && !a.PollRead? && !a.PollSwap? && !a.PollBump?
    ensures Aside(w, Next(w, a), nows)
  {}

  lemma AsideRaces(w: World, race: Race, n: World)
    requires Racing(w, race) && Aside(w, n, race.nows)
    ensures Racing(n, race)
  {
    assert Waiting(n, race.nows) == Waiting(w, race.nows);
    FrameRaces(w, race, n);
  }

  lemma StepRaces(w: World, race: Race, a: Step)
    requires Racing(w, race) && Enabled(w, a) && Fair(a, race.nows)
    ensures Racing(Next(w, a), race)
  {
    match a
    case PollLocked(p) => LockedRaces(w, race, p);
    case PollRead(p) => ReadRaces(w, race, p);
    case PollSwap(p) => SwapRaces(w, race, p);
    case PollBump(p) => BumpRaces(w, race, p);
    case _ =>
      OthersStepAside(w, a, race.nows);
      AsideRaces(w, race, Next(w, a));
  }

  lemma {:induction false} RunRaces(w: World, race: Race, acts: seq<Step>)
    requires Racing(w, race) && IsRun(w, acts) && forall i | 0 <= i < |acts| :: Fair(acts[i], race.nows)
    ensures Racing(Run(w, acts), race)
    decreases |acts|
  {
    if acts != [] {
      StepRaces(w, race, acts[0]);
      RunRaces(Next(w, acts[0]), race, acts[1..]);
    }
  }

  /**
   However the racers interleave: the first poll recorded is well paced and
   every later one slow_down, the interval growing by five for each; a racer
   that has read is found well paced if and only if none was recorded before
   it; and once none of them waits, with the row still there, each has been
   recorded, so exactly one was well paced.
   */
  lemma OneOfARaceIsWellPaced(w: World, race: Race, acts: seq<Step>)
    requires Starts(w, race) && race.nows != map[]
    requires IsRun(w, acts) && forall i | 0 <= i < |acts| :: Fair(acts[i], race.nows)
    ensures
      var v := Run(w, acts);
      && |w.polls| <= |v.polls|
      && (forall i | |w.polls| <= i < |v.polls| :: v.polls[i].slow <==> |w.polls| < i)
      && (v.row.Some? ==> forall p | p in race.nows && p in v.grants && v.grants[p].Reading? ::
            AfterPollSwap(v, p).grants[p].Paced? <==> |v.polls| == |w.polls|)
      && (v.row.Some? && Waiting(v, race.nows) == {} ==>
            && |v.polls| == |w.polls| + |race.nows|
            && v.row.value.interval == race.row.interval + SLOW_DOWN * (|race.nows| - 1))
  {
    StartRaces(w, race);
    RunRaces(w, race, acts);
    var v := Run(w, acts);
    if v.row.Some? && |w.polls| < |v.polls| {
      var q :| q in race.nows && v.row.value.lastPolled == Some(race.nows[q]);
      StampsDiffer(race, q);
    }
    assert race.nows.Keys != {};
    assert |race.nows| == |race.nows.Keys|;
  }
}
