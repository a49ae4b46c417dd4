/** When EnsureFresh renews: the token in the file is presented exactly when it is due, and then replaced. */
module TokenRenewal {
  import opened Wrappers
  import opened TokenFile

  /** Five minutes or less are left, in microseconds. */
  predicate Due(f: File, now: int) {
    f.expiresAt <= now + 300_000_000
  }

  predicate Renewable(f: File, now: int) {
    Due(f, now) && f.refresh.Some? && f.clientKnown
  }

  // ---------------------------------------------------------------------
  // Over every run
  // ---------------------------------------------------------------------

  /** What a presentation went by: the file as read under the lock, and the clock. */
  datatype Reading = Reading(file: File, now: int)

  /** The readings behind the presentations, one for each. */
  function Noted(log: seq<Reading>, s: System, a: Step): seq<Reading>
    requires Inv(s) && Enabled(s, a)
  {
    if a.SecondLoad? && s.file.Some? && |s.sent| < |Next(s, a).sent| then log + [Reading(s.file.value, a.now)] else log
  }

  function LogOf(log: seq<Reading>, s: System, steps: seq<Step>): seq<Reading>
    requires Inv(s) && IsRun(s, steps)
    decreases |steps|
  {
    if steps == [] then log
    else
      StepKeeps(s, steps[0]);
      LogOf(Noted(log, s, steps[0]), Next(s, steps[0]), steps[1..])
  }

  /** Each presentation was of the refresh token then in the file, which was due. */
  predicate AllDue(log: seq<Reading>, s: System) {
    && |log| == |s.sent|
    && forall i | 0 <= i < |log| :: Renewable(log[i].file, log[i].now) && log[i].file.refresh == Some(s.sent[i].token)
  }

  lemma StepKeepsDue(log: seq<Reading>, s: System, a: Step)
    requires Inv(s) && Enabled(s, a) && AllDue(log, s)
    ensures AllDue(Noted(log, s, a), Next(s, a))
  {
    match a
    case GiveUp(p, why) => assert PhaseOk(s, p, s.procs[p]);
    case Save(p, _) => assert PhaseOk(s, p, s.procs[p]);
    case _ =>
  }

  lemma {:induction false} RunKeepsDue(log: seq<Reading>, s: System, steps: seq<Step>)
    requires Inv(s) && IsRun(s, steps) && AllDue(log, s)
    ensures AllDue(LogOf(log, s, steps), Run(s, steps))
    decreases |steps|
  {
    if steps != [] {
      StepKeeps(s, steps[0]);
      StepKeepsDue(log, s, steps[0]);
      RunKeepsDue(Noted(log, s, steps[0]), Next(s, steps[0]), steps[1..]);
    }
  }

  /** However the processes interleave, nobody presents a refresh token with more than five minutes left on the file. */
  lemma PresentedOnlyWhenDue(s: System, steps: seq<Step>)
    requires Init(s) && Inv(s) && IsRun(s, steps)
    ensures AllDue(LogOf([], s, steps), Run(s, steps))
  {
    RunKeepsDue([], s, steps);
  }

  // ---------------------------------------------------------------------
  // One call
  // ---------------------------------------------------------------------

  /** The first read goes on to the lock exactly for a file that is due, the second presents exactly if it can. */
  lemma ReadsDecide(s: System, p: Pid, now: int)
    requires Inv(s) && p in s.procs
    ensures s.procs[p].Started? ==>
      (p in Next(s, FirstLoad(p, now)).procs <==> s.file.Some? && Due(s.file.value, now))
    ensures s.procs[p].Locked? ==>
      (Next(s, SecondLoad(p, now)).sent != s.sent <==> s.file.Some? && Renewable(s.file.value, now))
    ensures s.procs[p].Locked? ==>
      (p in Next(s, SecondLoad(p, now)).procs <==> s.file.Some? && Renewable(s.file.value, now))
  {}

  /**
   The server, by the token's status: a consumed one is reuse; a live one it
   accepts with a new token in its place, or none, or refuses and consumes.
   */
  lemma HandleDecides(s: System, i: nat, accept: bool, child: Option<Token>)
    requires Inv(s) && Enabled(s, Handle(i, accept, child))
    ensures
      var t, n := s.sent[i].token, Next(s, Handle(i, accept, child));
      && n.handled == s.handled + {i} && n.file == s.file && n.sent == s.sent && n.procs == s.procs
      && n.holder == s.holder
      && n.reuses == s.reuses + (if s.server[t].ConsumedBy? then [i] else [])
      && (s.server[t].ConsumedBy? ==> n.server == s.server && n.answers == s.answers)
      && (s.server[t].Live? && accept ==> n.answers == s.answers[i := child])
      && (s.server[t].Live? && accept && child.Some? ==>
            n.server == s.server[t := ConsumedBy(i)][child.value := Live])
      && (s.server[t].Live? && accept && child.None? ==> n.server == s.server)
      && (s.server[t].Live? && !accept ==> n.server == s.server[t := ConsumedBy(i)] && n.answers == s.answers)
  {}

  lemma Joined(s: System, a: Step, rest: seq<Step>)
    requires Inv(s) && Enabled(s, a)
    ensures Inv(Next(s, a)) && (IsRun(Next(s, a), rest) ==> IsRun(s, [a] + rest))
    ensures IsRun(Next(s, a), rest) ==> Run(s, [a] + rest) == Run(Next(s, a), rest)
  {
    StepKeeps(s, a);
    assert ([a] + rest)[1..] == rest;
  }

  function Presenting(s: System, p: Pid, t: Token): System {
    s.(holder := Some(p), procs := s.procs[p := Sending(|s.sent|)], sent := s.sent + [Sent(t, Open)])
  }

  function At(s: System, p: Pid, ph: Phase): System {
    s.(procs := s.procs[p := ph], holder := if ph.Locked? then Some(p) else s.holder)
  }

  lemma ReachesFromLock(s: System, p: Pid, again: int, rest: seq<Step>)
    requires Inv(At(s, p, Locked)) && s.file.Some? && Renewable(s.file.value, again)
    ensures
      var n, steps := Presenting(s, p, s.file.value.refresh.value), [SecondLoad(p, again)] + rest;
      Inv(n) && (IsRun(n, rest) ==> IsRun(At(s, p, Locked), steps) && Run(At(s, p, Locked), steps) == Run(n, rest))
  {
    Joined(At(s, p, Locked), SecondLoad(p, again), rest);
    assert Next(At(s, p, Locked), SecondLoad(p, again)) == Presenting(s, p, s.file.value.refresh.value);
  }

  lemma ReachesFromWait(s: System, p: Pid, again: int, rest: seq<Step>)
    requires Inv(At(s, p, Waiting)) && s.holder.None? && s.file.Some? && Renewable(s.file.value, again)
    ensures
      var n, steps := Presenting(s, p, s.file.value.refresh.value), [Acquire(p)] + ([SecondLoad(p, again)] + rest);
      Inv(n) && (IsRun(n, rest) ==> IsRun(At(s, p, Waiting), steps) && Run(At(s, p, Waiting), steps) == Run(n, rest))
  {
    Joined(At(s, p, Waiting), Acquire(p), [SecondLoad(p, again)] + rest);
    assert Next(At(s, p, Waiting), Acquire(p)) == At(s, p, Locked);
    ReachesFromLock(s, p, again, rest);
  }

  lemma ReachesFromStart(s: System, p: Pid, now: int, again: int, rest: seq<Step>)
    requires Inv(At(s, p, Started)) && s.holder.None? && s.file.Some?
      && Due(s.file.value, now) && Renewable(s.file.value, again)
    ensures
      var n := Presenting(s, p, s.file.value.refresh.value);
      var steps := [FirstLoad(p, now)] + ([Acquire(p)] + ([SecondLoad(p, again)] + rest));
      Inv(n) && (IsRun(n, rest) ==> IsRun(At(s, p, Started), steps) && Run(At(s, p, Started), steps) == Run(n, rest))
  {
    Joined(At(s, p, Started), FirstLoad(p, now), [Acquire(p)] + ([SecondLoad(p, again)] + rest));
    assert Next(At(s, p, Started), FirstLoad(p, now)) == At(s, p, Waiting);
    ReachesFromWait(s, p, again, rest);
  }

  lemma Reaches(s: System, p: Pid, now: int, again: int, rest: seq<Step>)
    requires Inv(s) && p !in s.procs && s.holder.None? && s.file.Some?
      && Due(s.file.value, now) && Renewable(s.file.value, again)
    ensures
      var n := Presenting(s, p, s.file.value.refresh.value);
      var steps := [Start(p)] + ([FirstLoad(p, now)] + ([Acquire(p)] + ([SecondLoad(p, again)] + rest)));
      Inv(n) && (IsRun(n, rest) ==> IsRun(s, steps) && Run(s, steps) == Run(n, rest))
  {
    Joined(s, Start(p), [FirstLoad(p, now)] + ([Acquire(p)] + ([SecondLoad(p, again)] + rest)));
    assert Next(s, Start(p)) == At(s, p, Started);
    ReachesFromStart(s, p, now, again, rest);
  }

  /** The answer's refresh token, or the one presented, is in the file; the lock is free. */
  function Renewed(s: System, t: Token, child: Option<Token>, expiresAt: int): System {
    var i := |s.sent|;
    s.(file := Some(File(if child.Some? then child else Some(t), expiresAt, true)),
       server := if child.Some? then s.server[t := ConsumedBy(i)][child.value := Live] else s.server,
       answers := s.answers[i := child], handled := s.handled + {i},
       sent := s.sent + [Sent(t, if child.Some? then Rotated else Kept)])
  }

  /** The server has accepted, and the process has the answer or not yet. */
  function Accepted(s: System, p: Pid, t: Token, child: Option<Token>, received: bool): System {
    var i, n := |s.sent|, Presenting(s, p, t);
    n.(server := if child.Some? then s.server[t := ConsumedBy(i)][child.value := Live] else s.server,
       answers := s.answers[i := child], handled := s.handled + {i},
       procs := s.procs[p := if received then Received(i, child) else Sending(i)])
  }

  lemma Saves(s: System, p: Pid, t: Token, child: Option<Token>, expiresAt: int)
    requires Inv(Accepted(s, p, t, child, true)) && p !in s.procs && s.holder.None?
    ensures
      var n := Accepted(s, p, t, child, true);
      IsRun(n, [Save(p, expiresAt)]) && Run(n, [Save(p, expiresAt)]) == Renewed(s, t, child, expiresAt)
  {
    var n := Accepted(s, p, t, child, true);
    Joined(n, Save(p, expiresAt), []);
    assert [Save(p, expiresAt)] + [] == [Save(p, expiresAt)];
    assert n.procs - {p} == s.procs;
    assert Next(n, Save(p, expiresAt)) == Renewed(s, t, child, expiresAt);
  }

  lemma HearsNext(s: System, p: Pid, t: Token, child: Option<Token>)
    requires Inv(Accepted(s, p, t, child, false))
    ensures Enabled(Accepted(s, p, t, child, false), Receive(p))
    ensures Next(Accepted(s, p, t, child, false), Receive(p)) == Accepted(s, p, t, child, true)
  {}

  lemma Hears(s: System, p: Pid, t: Token, child: Option<Token>, expiresAt: int)
    requires Inv(Accepted(s, p, t, child, false)) && p !in s.procs && s.holder.None?
    ensures
      var n, steps := Accepted(s, p, t, child, false), [Receive(p)] + [Save(p, expiresAt)];
      IsRun(n, steps) && Run(n, steps) == Renewed(s, t, child, expiresAt)
  {
    var n := Accepted(s, p, t, child, false);
    HearsNext(s, p, t, child);
    Joined(n, Receive(p), [Save(p, expiresAt)]);
    Saves(s, p, t, child, expiresAt);
  }

  lemma Finishes(s: System, p: Pid, t: Token, child: Option<Token>, expiresAt: int)
    requires Inv(s) && Inv(Presenting(s, p, t)) && p !in s.procs && s.holder.None?
    requires t in s.server && s.server[t].Live? && (child.Some? ==> child.value !in s.server)
    ensures
      var n, steps := Presenting(s, p, t), [Handle(|s.sent|, true, child)] + ([Receive(p)] + [Save(p, expiresAt)]);
      IsRun(n, steps) && Run(n, steps) == Renewed(s, t, child, expiresAt)
  {
    var n, a := Presenting(s, p, t), Handle(|s.sent|, true, child);
    assert |s.sent| !in s.handled;
    Joined(n, a, [Receive(p)] + [Save(p, expiresAt)]);
    assert Next(n, a) == Accepted(s, p, t, child, false);
    Hears(s, p, t, child, expiresAt);
  }

  /** A call that nobody interrupts. */
  function Call(s: System, p: Pid, now: int, again: int, child: Option<Token>, expiresAt: int): seq<Step> {
    [Start(p)] + ([FirstLoad(p, now)] + ([Acquire(p)] + ([SecondLoad(p, again)] +
    ([Handle(|s.sent|, true, child)] + ([Receive(p)] + [Save(p, expiresAt)])))))
  }

  /**
   A call on a file that is due, nobody interrupting and the server accepting,
   presents the file's refresh token once, leaves the new one in the file,
   keeping the old if the answer has none, and leaves no lock and no process.
   */
  lemma DueIsRenewed(s: System, p: Pid, now: int, again: int, child: Option<Token>, expiresAt: int)
    requires Inv(s) && p !in s.procs && s.holder.None? && s.file.Some?
      && Due(s.file.value, now) && Renewable(s.file.value, again)
    requires s.server[s.file.value.refresh.value].Live? && (child.Some? ==> child.value !in s.server)
    ensures IsRun(s, Call(s, p, now, again, child, expiresAt))
    ensures Run(s, Call(s, p, now, again, child, expiresAt)) == Renewed(s, s.file.value.refresh.value, child, expiresAt)
  {
    var t := s.file.value.refresh.value;
    var rest := [Handle(|s.sent|, true, child)] + ([Receive(p)] + [Save(p, expiresAt)]);
    Reaches(s, p, now, again, rest);
    Finishes(s, p, t, child, expiresAt);
  }

  /** A call on a file with more than five minutes left touches nothing. */
  lemma FreshIsReturned(s: System, p: Pid, now: int)
    requires Inv(s) && p !in s.procs && s.file.Some? && !Due(s.file.value, now)
    ensures IsRun(s, [Start(p)] + ([FirstLoad(p, now)] + [])) && Run(s, [Start(p)] + ([FirstLoad(p, now)] + [])) == s
  {
    Joined(s, Start(p), [FirstLoad(p, now)] + []);
    var s1 := Next(s, Start(p));
    Joined(s1, FirstLoad(p, now), []);
    assert s.holder != Some(p);
    assert s1.procs - {p} == s.procs;
  }
}
