/**
 Any number of CLI processes renewing the credentials in one token file.

 Each process runs EnsureFresh: read the file, and if it is about to expire
 take the exclusive lock, read again, present the refresh token, save the
 answer.  A request may be handled by the server after its sender has given up
 or died; the kernel drops a dead holder's lock; `tempogate login` replaces the
 file without taking the lock.  All clocks are arbitrary.
 */
module TokenFile {
  import opened Wrappers

  type Token = nat
  type Pid = nat

  const REFRESH_SKEW := 300_000_000

  datatype File = File(refresh: Option<Token>, expiresAt: int, clientKnown: bool)

  /** What became of a presentation, as its process saw it. */
  datatype Fate = Open | Rotated | Failed | Lost | Unsaved | Kept

  datatype Sent = Sent(token: Token, fate: Fate)

  /** An answer carries a new refresh token, or none, when the one presented is kept. */
  datatype Phase =
    | Started
    | Waiting
    | Locked
    | Sending(index: nat)
    | Received(index: nat, child: Option<Token>)

  /** A token the server issued is live until the presentation that consumed it. */
  datatype Status = Live | ConsumedBy(index: nat)

  datatype System = System(
    file: Option<File>,
    holder: Option<Pid>,
    procs: map<Pid, Phase>,
    server: map<Token, Status>,
    answers: map<nat, Option<Token>>,
    handled: set<nat>,
    sent: seq<Sent>,
    reuses: seq<nat>)

  predicate Fresh(f: File, now: int) {
    now < f.expiresAt - REFRESH_SKEW
  }

  // ---------------------------------------------------------------------
  // Steps
  // ---------------------------------------------------------------------

  datatype Step =
    | Start(pid: Pid)
    | FirstLoad(pid: Pid, now: int)
    | Acquire(pid: Pid)
    | SecondLoad(pid: Pid, now: int)
    | Handle(index: nat, accept: bool, child: Option<Token>)
    | Receive(pid: Pid)
    | GiveUp(pid: Pid, why: Fate)
    | Save(pid: Pid, expiresAt: int)
    | Exit(pid: Pid)
    | Login(token: Token, expiresAt: int)

  predicate Enabled(s: System, a: Step) {
    match a
    case Start(p) => p !in s.procs
    case FirstLoad(p, _) => p in s.procs && s.procs[p].Started?
    case Acquire(p) => p in s.procs && s.procs[p].Waiting? && s.holder.None?
    case SecondLoad(p, _) => p in s.procs && s.procs[p].Locked?
    case Handle(i, accept, child) => i < |s.sent| && i !in s.handled && (child.Some? ==> child.value !in s.server)
    case Receive(p) => p in s.procs && s.procs[p].Sending? && s.procs[p].index in s.answers
    case GiveUp(p, why) =>
      p in s.procs && ((s.procs[p].Sending? && (why.Failed? || why.Lost?)) || (s.procs[p].Received? && why.Unsaved?))
    case Save(p, _) => p in s.procs && s.procs[p].Received?
    case Exit(p) => p in s.procs && (s.procs[p].Started? || s.procs[p].Waiting? || s.procs[p].Locked?)
    case Login(t, _) => t !in s.server
  }

  /** The process returns or dies: its descriptor closes, which releases the lock if it held it. */
  function End(s: System, p: Pid): System {
    s.(procs := s.procs - {p}, holder := if s.holder == Some(p) then None else s.holder)
  }

  function Mark(s: System, i: nat, f: Fate): System
    requires i < |s.sent|
  {
    s.(sent := s.sent[i := s.sent[i].(fate := f)])
  }

  function AfterSecondLoad(s: System, p: Pid, now: int): System {
    if s.file.None? || Fresh(s.file.value, now) || s.file.value.refresh.None? || !s.file.value.clientKnown then
      End(s, p)
    else
      s.(sent := s.sent + [Sent(s.file.value.refresh.value, Open)], procs := s.procs[p := Sending(|s.sent|)])
  }

  /** The refresh grant: a live token is consumed, a consumed one is reuse, an unknown one is refused. */
  function AfterHandle(s: System, i: nat, accept: bool, child: Option<Token>): System
    requires i < |s.sent|
  {
    var t := s.sent[i].token;
    var s := s.(handled := s.handled + {i});
    if t !in s.server then s
    else if s.server[t].ConsumedBy? then s.(reuses := s.reuses + [i])
    else if accept then
      s.(server := if child.Some? then s.server[t := ConsumedBy(i)][child.value := Live] else s.server,
         answers := s.answers[i := child])
    else s.(server := s.server[t := ConsumedBy(i)])
  }

  function AfterSave(s: System, p: Pid, expiresAt: int): System
    requires p in s.procs && s.procs[p].Received? && s.procs[p].index < |s.sent|
  {
    var Received(i, child) := s.procs[p];
    var refresh := if child.Some? then child else Some(s.sent[i].token);
    End(Mark(s, i, if child.Some? then Rotated else Kept).(file := Some(File(refresh, expiresAt, true))), p)
  }

  function Next(s: System, a: Step): System
    requires Inv(s) && Enabled(s, a)
  {
    match a
    case Start(p) => s.(procs := s.procs[p := Started])
    case FirstLoad(p, now) =>
      if s.file.None? || Fresh(s.file.value, now) then End(s, p) else s.(procs := s.procs[p := Waiting])
    case Acquire(p) => s.(holder := Some(p), procs := s.procs[p := Locked])
    case SecondLoad(p, now) => AfterSecondLoad(s, p, now)
    case Handle(i, accept, child) => AfterHandle(s, i, accept, child)
    case Receive(p) => s.(procs := s.procs[p := Received(s.procs[p].index, s.answers[s.procs[p].index])])
    case GiveUp(p, why) => End(Mark(s, s.procs[p].index, why), p)
    case Save(p, expiresAt) => AfterSave(s, p, expiresAt)
    case Exit(p) => End(s, p)
    case Login(t, expiresAt) => s.(file := Some(File(Some(t), expiresAt, true)), server := s.server[t := Live])
  }

  predicate Init(s: System) {
    s == System(None, None, map[], map[], map[], {}, [], [])
  }

  // ---------------------------------------------------------------------
  // What every step keeps
  // ---------------------------------------------------------------------

  predicate Critical(ph: Phase) {
    ph.Locked? || ph.Sending? || ph.Received?
  }

  /** Only the lock holder is past the lock, and only the last presentation can be open, which is its. */
  predicate PhaseOk(s: System, p: Pid, ph: Phase) {
    && (Critical(ph) ==> s.holder == Some(p))
    && (ph.Sending? || ph.Received? ==> ph.index + 1 == |s.sent| && s.sent[ph.index].fate == Open)
    && (ph.Received? ==> ph.index in s.answers && ph.child == s.answers[ph.index])
  }

  predicate HolderOk(s: System) {
    s.holder.Some? ==> s.holder.value in s.procs && Critical(s.procs[s.holder.value])
  }

  predicate OpenOk(s: System) {
    forall i | 0 <= i < |s.sent| && s.sent[i].fate == Open ::
      i + 1 == |s.sent| && s.holder.Some? && s.holder.value in s.procs
        && (s.procs[s.holder.value].Sending? || s.procs[s.holder.value].Received?)
  }

  /** A token that was rotated and saved is not in the file any more. */
  predicate FileOk(s: System) {
    s.file.Some? && s.file.value.refresh.Some? ==>
      s.file.value.refresh.value in s.server && forall i | 0 <= i < |s.sent|
        && s.sent[i].token == s.file.value.refresh.value :: s.sent[i].fate != Rotated
  }

  predicate Troubled(f: Fate) {
    f.Failed? || f.Lost? || f.Unsaved? || f.Kept?
  }

  predicate PresentedAgainOnlyAfterTrouble(s: System) {
    forall i, j | 0 <= i < j < |s.sent| && s.sent[i].token == s.sent[j].token :: Troubled(s.sent[i].fate)
  }

  predicate ServerOk(s: System) {
    && (forall i | 0 <= i < |s.sent| :: s.sent[i].token in s.server)
    && (forall t | t in s.server && s.server[t].ConsumedBy? ::
          var i := s.server[t].index; i in s.handled && i < |s.sent| && s.sent[i].token == t)
    && (forall i | i in s.handled :: i < |s.sent|)
    && s.answers.Keys <= s.handled
    && (forall i | i in s.answers && s.answers[i].Some? :: s.answers[i].value in s.server)
  }

  /** A child still on its way to the file has been presented by nobody. */
  predicate ChildOk(s: System) {
    && (forall i, k | i in s.answers && s.answers[i].Some? && 0 <= k < |s.sent|
      && s.sent[k].token == s.answers[i].value && i < |s.sent| ::
          s.sent[i].fate == Rotated)
    && (forall i, j | i in s.answers && j in s.answers && i != j && s.answers[i].Some? :: s.answers[i] != s.answers[j])
    && (s.file.Some? && s.file.value.refresh.Some? ==>
          forall i | i in s.answers && s.answers[i] == s.file.value.refresh && i < |s.sent| ::
            s.sent[i].fate == Rotated)
  }

  predicate ReusesOk(s: System) {
    forall r | 0 <= r < |s.reuses| ::
      var j := s.reuses[r]; j < |s.sent| && exists i ::
        0 <= i < |s.sent| && i != j && s.sent[i].token == s.sent[j].token
  }

  predicate Inv(s: System) {
    && (forall p | p in s.procs :: PhaseOk(s, p, s.procs[p]))
    && HolderOk(s) && OpenOk(s) && FileOk(s) && PresentedAgainOnlyAfterTrouble(s) && ServerOk(s) && ChildOk(s)
      && ReusesOk(s)
  }

  lemma EndKeeps(s: System, p: Pid)
    requires Inv(s) && p in s.procs && !s.procs[p].Sending? && !s.procs[p].Received?
    ensures Inv(End(s, p))
  {}

  lemma MoveKeeps(s: System, p: Pid, ph: Phase)
    requires Inv(s) && (ph.Started? || ph.Waiting?) && (p in s.procs ==> !Critical(s.procs[p]))
    ensures Inv(s.(procs := s.procs[p := ph]))
  {}

  lemma AcquireKeeps(s: System, p: Pid)
    requires Inv(s) && p in s.procs && s.procs[p].Waiting? && s.holder.None?
    ensures Inv(s.(holder := Some(p), procs := s.procs[p := Locked]))
  {}

  /** The second read happens under the lock, so nothing is open and the token read was not rotated away. */
  lemma PresentKeeps(s: System, p: Pid, t: Token)
    requires Inv(s) && p in s.procs && s.procs[p].Locked? && s.file.Some? && s.file.value.refresh == Some(t)
    ensures Inv(s.(sent := s.sent + [Sent(t, Open)], procs := s.procs[p := Sending(|s.sent|)]))
  {
    var n := s.(sent := s.sent + [Sent(t, Open)], procs := s.procs[p := Sending(|s.sent|)]);
    assert PhaseOk(s, p, s.procs[p]);
    assert forall i | 0 <= i < |s.sent| :: n.sent[i] == s.sent[i];
    assert forall q | q in n.procs :: PhaseOk(n, q, n.procs[q]) by {
      forall q | q in n.procs ensures PhaseOk(n, q, n.procs[q]) { assert q != p ==> PhaseOk(s, q, s.procs[q]); }
    }
    PresentKeepsReuses(s, Sent(t, Open));
    assert ReusesOk(n);
  }

  lemma PresentKeepsReuses(s: System, x: Sent)
    requires ReusesOk(s)
    ensures ReusesOk(s.(sent := s.sent + [x]))
  {
    var n := s.(sent := s.sent + [x]);
    forall r | 0 <= r < |s.reuses|
      ensures var j := n.reuses[r]; j < |n.sent| && exists i ::
        0 <= i < |n.sent| && i != j && n.sent[i].token == n.sent[j].token
    {
      var j := s.reuses[r];
      var i :| 0 <= i < |s.sent| && i != j && s.sent[i].token == s.sent[j].token;
      assert n.sent[i].token == n.sent[j].token;
    }
  }

  lemma ReuseKeeps(s: System, i: nat)
    requires Inv(s) && i < |s.sent| && i !in s.handled && s.sent[i].token in s.server
      && s.server[s.sent[i].token].ConsumedBy?
    ensures Inv(s.(handled := s.handled + {i}, reuses := s.reuses + [i]))
  {}

  lemma AnswerKeeps(s: System, i: nat, child: Option<Token>)
    requires Inv(s) && i < |s.sent| && i !in s.handled && (child.Some? ==> child.value !in s.server)
    requires s.sent[i].token in s.server && s.server[s.sent[i].token].Live?
    ensures Inv(AfterHandle(s, i, true, child))
  {
    var n := AfterHandle(s, i, true, child);
    forall q | q in n.procs ensures PhaseOk(n, q, n.procs[q]) { assert PhaseOk(s, q, s.procs[q]); }
    assert ServerOk(n);
    assert ChildOk(n);
  }

  lemma HandleKeeps(s: System, i: nat, accept: bool, child: Option<Token>)
    requires Inv(s) && Enabled(s, Handle(i, accept, child))
    ensures Inv(AfterHandle(s, i, accept, child))
  {
    var t := s.sent[i].token;
    if s.server[t].ConsumedBy? {
      ReuseKeeps(s, i);
    } else if accept {
      AnswerKeeps(s, i, child);
    } else {
      RefuseKeeps(s, i);
    }
  }

  lemma RefuseKeeps(s: System, i: nat)
    requires Inv(s) && i < |s.sent| && i !in s.handled && s.sent[i].token in s.server && s.server[s.sent[i].token].Live?
    ensures Inv(AfterHandle(s, i, false, None))
  {
    var n := AfterHandle(s, i, false, None);
    forall q | q in n.procs ensures PhaseOk(n, q, n.procs[q]) { assert PhaseOk(s, q, s.procs[q]); }
  }

  lemma ReceiveKeeps(s: System, p: Pid)
    requires Inv(s) && p in s.procs && s.procs[p].Sending? && s.procs[p].index in s.answers
    ensures Inv(s.(procs := s.procs[p := Received(s.procs[p].index, s.answers[s.procs[p].index])]))
  {}

  lemma MarkKeepsReuses(s: System, i: nat, f: Fate)
    requires ReusesOk(s) && i < |s.sent|
    ensures ReusesOk(Mark(s, i, f))
  {
    var n := Mark(s, i, f);
    forall r | 0 <= r < |n.reuses|
      ensures var j := n.reuses[r]; j < |n.sent| && exists m ::
        0 <= m < |n.sent| && m != j && n.sent[m].token == n.sent[j].token
    {
      var j := s.reuses[r];
      var m :| 0 <= m < |s.sent| && m != j && s.sent[m].token == s.sent[j].token;
      assert n.sent[m].token == n.sent[j].token;
    }
  }

  /** Whatever goes wrong with a presentation leaves it marked, and the file as it was. */
  lemma GiveUpKeeps(s: System, p: Pid, why: Fate)
    requires Inv(s) && Enabled(s, GiveUp(p, why))
    ensures Inv(Next(s, GiveUp(p, why)))
  {
    assert PhaseOk(s, p, s.procs[p]);
    MarkKeepsReuses(s, s.procs[p].index, why);
    var n := Next(s, GiveUp(p, why));
    forall q | q in n.procs ensures PhaseOk(n, q, n.procs[q]) { assert PhaseOk(s, q, s.procs[q]); }
    assert forall i, k | i in s.answers && s.answers[i].Some? && 0 <= k < |s.sent|
      && s.sent[k].token == s.answers[i].value && i < |s.sent| :: i != s.procs[p].index;
  }

  lemma SaveKeeps(s: System, p: Pid, expiresAt: int)
    requires Inv(s) && Enabled(s, Save(p, expiresAt))
    ensures Inv(Next(s, Save(p, expiresAt)))
  {
    assert PhaseOk(s, p, s.procs[p]);
    var Received(i, child) := s.procs[p];
    MarkKeepsReuses(s, i, if child.Some? then Rotated else Kept);
    var n := Next(s, Save(p, expiresAt));
    forall q | q in n.procs ensures PhaseOk(n, q, n.procs[q]) { assert PhaseOk(s, q, s.procs[q]); }
  }

  lemma LoginKeeps(s: System, t: Token, expiresAt: int)
    requires Inv(s) && t !in s.server
    ensures Inv(s.(file := Some(File(Some(t), expiresAt, true)), server := s.server[t := Live]))
  {}

  lemma StepKeeps(s: System, a: Step)
    requires Inv(s) && Enabled(s, a)
    ensures Inv(Next(s, a))
  {
    match a
    case Start(p) => MoveKeeps(s, p, Started);
    case FirstLoad(p, now) => if s.file.None? || Fresh(s.file.value, now) { EndKeeps(s, p); }
      else { MoveKeeps(s, p, Waiting); }
    case Acquire(p) => AcquireKeeps(s, p);
    case SecondLoad(p, now) =>
      if AfterSecondLoad(s, p, now) == End(s, p) { EndKeeps(s, p); }
        else { PresentKeeps(s, p, s.file.value.refresh.value); }
    case Handle(i, accept, child) => HandleKeeps(s, i, accept, child);
    case Receive(p) => ReceiveKeeps(s, p);
    case GiveUp(p, why) => GiveUpKeeps(s, p, why);
    case Save(p, expiresAt) => SaveKeeps(s, p, expiresAt);
    case Exit(p) => EndKeeps(s, p);
    case Login(t, expiresAt) => LoginKeeps(s, t, expiresAt);
  }

  // ---------------------------------------------------------------------
  // Every run
  // ---------------------------------------------------------------------

  predicate IsRun(s: System, steps: seq<Step>)
    requires Inv(s)
    decreases |steps|
  {
    steps == [] || (Enabled(s, steps[0]) && (StepKeeps(s, steps[0]); IsRun(Next(s, steps[0]), steps[1..])))
  }

  function Run(s: System, steps: seq<Step>): System
    requires Inv(s) && IsRun(s, steps)
    decreases |steps|
  {
    if steps == [] then s else StepKeeps(s, steps[0]); Run(Next(s, steps[0]), steps[1..])
  }

  lemma {:induction false} RunKeeps(s: System, steps: seq<Step>)
    requires Inv(s) && IsRun(s, steps)
    ensures Inv(Run(s, steps))
    decreases |steps|
  {
    if steps != [] {
      StepKeeps(s, steps[0]);
      RunKeeps(Next(s, steps[0]), steps[1..]);
    }
  }

  /** The invariant holds before the first login: no file, no process. */
  lemma InitInv(s: System)
    requires Init(s)
    ensures Inv(s)
  {}

  /** Presentation j has another of the same token that went wrong, or went wrong itself before that other. */
  predicate Blamed(s: System, j: nat) {
    j < |s.sent| && exists i :: 0 <= i < |s.sent| && s.sent[i].token == s.sent[j].token && Troubled(s.sent[i].fate)
  }

  /**
   However many processes share the file and however they interleave: a
   refresh token is presented a second time only if an earlier presentation of
   it was refused, lost its answer, could not be saved, or was answered without
   a new refresh token.  When the server detects reuse, such a presentation of
   that very token is to blame; so a session whose presentations all went well
   never ends that way.
   */
  lemma ReuseNeedsTrouble(s: System, steps: seq<Step>)
    requires Inv(s) && IsRun(s, steps)
    ensures PresentedAgainOnlyAfterTrouble(Run(s, steps))
    ensures forall r | 0 <= r < |Run(s, steps).reuses| :: Blamed(Run(s, steps), Run(s, steps).reuses[r])
    ensures Run(s, steps).reuses != [] ==> exists i ::
      0 <= i < |Run(s, steps).sent| && Troubled(Run(s, steps).sent[i].fate)
  {
    RunKeeps(s, steps);
    var n := Run(s, steps);
    forall r | 0 <= r < |n.reuses| ensures Blamed(n, n.reuses[r]) {
      var j := n.reuses[r];
      var i :| 0 <= i < |n.sent| && i != j && n.sent[i].token == n.sent[j].token;
      var k := if i < j then i else j;
      assert Troubled(n.sent[k].fate);
    }
    if n.reuses != [] {
      assert Blamed(n, n.reuses[0]);
    }
  }
}
