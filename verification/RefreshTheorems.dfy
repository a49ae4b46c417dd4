/** What the invariants say of whole runs, and the one place they need a hypothesis. */
module RefreshTheorems {
  import opened Wrappers
  import opened RefreshSessions
  import opened RefreshInvariants

  // ---------------------------------------------------------------------
  // At most one token or grant can extend a session
  // ---------------------------------------------------------------------

  datatype Holder = LiveToken(token: Token) | InFlightGrant(pid: Pid)

  ghost function Holders(w: World, f: FamilyId): set<Holder> {
    (set t | t in w.store.tokens && w.store.tokens[t].family == f && Live(w.store.tokens[t]) :: LiveToken(t))
    + (set p | p in w.grants && Holds(w.grants[p], f) :: InFlightGrant(p))
  }

  lemma AllEqualIsSmall<T>(s: set<T>)
    requires forall x, y | x in s && y in s :: x == y
    ensures |s| <= 1
  {
    if s != {} {
      var x :| x in s;
      assert s == {x};
    }
  }

  lemma AtMostOneHolder(w: World, f: FamilyId)
    requires Inv(w)
    ensures |Holders(w, f)| <= 1
  {
    forall x, y | x in Holders(w, f) && y in Holders(w, f) ensures x == y {
      assert OwnerIs(w, f, x) && OwnerIs(w, f, y);
    }
    AllEqualIsSmall(Holders(w, f));
  }

  ghost predicate OwnerIs(w: World, f: FamilyId, h: Holder) {
    f in w.owner && w.owner[f] == match h case LiveToken(t) => ByToken(t) case InFlightGrant(p) => ByGrant(p)
  }

  lemma CredentialPaysOnce(w: World, i: nat, j: nat)
    requires Inv(w) && i < j < |w.answers| && w.answers[i].Granted? && w.answers[j].Granted?
    ensures w.answers[i].cred != w.answers[j].cred
  {}

  /** In every state reachable from an empty store. */
  lemma SessionsAreExclusive(w: World, acts: seq<Action>)
    requires Init(w) && IsRun(w, acts)
    ensures forall f :: |Holders(Run(w, acts), f)| <= 1
    ensures forall i, j | 0 <= i < j < |Run(w, acts).answers| && Run(w, acts).answers[i].Granted?
      && Run(w, acts).answers[j].Granted? ::
              Run(w, acts).answers[i].cred != Run(w, acts).answers[j].cred
  {
    InitInv(w);
    RunKeeps(w, acts);
    var v := Run(w, acts);
    forall f ensures |Holders(v, f)| <= 1 { AtMostOneHolder(v, f); }
    forall i, j | 0 <= i < j < |v.answers| && v.answers[i].Granted? && v.answers[j].Granted?
      ensures v.answers[i].cred != v.answers[j].cred
    {
      CredentialPaysOnce(v, i, j);
    }
  }

  // ---------------------------------------------------------------------
  // A committed revocation is final
  // ---------------------------------------------------------------------

  /** The grant behind `a` had its child stored before the state `w`. */
  ghost predicate AlreadySaved(w: World, a: Answer)
    requires a.Granted?
  {
    a.pid in w.grants && w.grants[a.pid] == Saved(a.cred, a.now, a.family, a.child)
  }

  ghost predicate Prefix(w: World, v: World) {
    |w.answers| <= |v.answers| && forall i | 0 <= i < |w.answers| :: v.answers[i] == w.answers[i]
  }

  ghost predicate NoLiveToken(w: World, f: FamilyId) {
    forall t | t in w.store.tokens && w.store.tokens[t].family == f :: !Live(w.store.tokens[t])
  }

  /** Every token answer for f that v has and w lacks comes from a grant that had saved by w. */
  ghost predicate OnlyAlreadySaved(w: World, v: World, f: FamilyId) {
    && Prefix(w, v)
    && forall i | |w.answers| <= i < |v.answers| && v.answers[i].Granted? && v.answers[i].family == f ::
      AlreadySaved(w, v.answers[i])
  }

  /** One step answers with tokens only what had been stored. */
  lemma StepAnswers(w: World, a: Action, f: FamilyId)
    requires Guarded(w, a) && f in w.ended
    ensures f in Next(w, a).ended && OnlyAlreadySaved(w, Next(w, a), f)
  {
    if Moves(a) { StepMovesOnly(w, a); }
  }

  /** The save that a revocation forestalls: SaveRefresh finds the family revoked and stores nothing. */
  lemma SaveAfterRevocation(w: World, p: Pid)
    requires Inv(w) && p in w.grants && w.grants[p].Saving? && w.grants[p].family in w.ended
    ensures AfterSave(w, p) == Drop(w, p)
  {}

  /** v differs from w in p's grant, which is not Saved in v, and sends no answer. */
  ghost predicate MovesOnly(w: World, v: World, p: Pid) {
    && v.answers == w.answers
    && (p in v.grants ==> !v.grants[p].Saved?)
    && (forall q | q in v.grants && q != p :: q in w.grants && w.grants[q] == v.grants[q])
    && (forall q | q in w.grants && q != p :: q in v.grants)
  }

  lemma ConsumeMovesOnly(w: World, p: Pid, policy: Policy)
    requires p in w.grants && w.grants[p].Presenting?
    ensures MovesOnly(w, AfterConsume(w, p, policy), p)
  {}

  lemma ConsumeCodeMovesOnly(w: World, p: Pid, bound: bool, authTime: int)
    requires p in w.grants && w.grants[p].Redeeming?
    ensures MovesOnly(w, AfterConsumeCode(w, p, bound, authTime), p)
  {}

  lemma MintMovesOnly(w: World, p: Pid, permitted: bool, clock: int, child: Token)
    requires p in w.grants && w.grants[p].Holding?
    ensures MovesOnly(w, AfterMint(w, p, permitted, clock, child), p)
  {}

  lemma LookUpsMoveOnly(w: World, p: Pid)
    requires p in w.grants
    ensures w.grants[p].LookingUp? ==> MovesOnly(w, AfterLookUp(w, p), p)
    ensures w.grants[p].LookingUpCode? ==> MovesOnly(w, AfterLookUpCode(w, p), p)
  {}

  predicate Moves(a: Action) {
    a.StartRefresh? || a.Consume? || a.LookUp? || a.StartRedeem? || a.ConsumeCode? || a.LookUpCode? || a.StartDevice?
      || a.Mint? || a.Abandon?
  }

  lemma StepMovesOnly(w: World, a: Action)
    requires Moves(a) && Enabled(w, a)
    ensures MovesOnly(w, Next(w, a), a.pid)
  {
    match a
    case Consume(q, policy) => ConsumeMovesOnly(w, q, policy);
    case ConsumeCode(q, bound, authTime) => ConsumeCodeMovesOnly(w, q, bound, authTime);
    case Mint(q, permitted, clock, child) => MintMovesOnly(w, q, permitted, clock, child);
    case LookUp(q) => LookUpsMoveOnly(w, q);
    case LookUpCode(q) => LookUpsMoveOnly(w, q);
    case _ =>
  }

  /** A grant is newly saved only by its own Save step. */
  lemma OnlySaveSaves(w: World, a: Action, p: Pid)
    requires Enabled(w, a) && a != Save(p) && p in Next(w, a).grants && Next(w, a).grants[p].Saved?
    ensures p in w.grants && w.grants[p] == Next(w, a).grants[p]
  {
    if Moves(a) { StepMovesOnly(w, a); }
  }

  lemma {:induction false} AnswersAfterRevocation(w: World, acts: seq<Action>, f: FamilyId)
    requires Inv(w) && IsRun(w, acts) && f in w.ended
    ensures f in Run(w, acts).ended && OnlyAlreadySaved(w, Run(w, acts), f)
    decreases |acts|
  {
    if acts != [] {
      var v := Next(w, acts[0]);
      StepKeeps(w, acts[0]);
      StepAnswers(w, acts[0], f);
      AnswersAfterRevocation(v, acts[1..], f);
      var u := Run(w, acts);
      forall i | |v.answers| <= i < |u.answers| && u.answers[i].Granted? && u.answers[i].family == f
        ensures AlreadySaved(w, u.answers[i])
      {
        var p := u.answers[i].pid;
        if acts[0] == Save(p) {
          if w.grants[p].family in w.ended { SaveAfterRevocation(w, p); }
        } else {
          OnlySaveSaves(w, acts[0], p);
        }
      }
    }
  }

  lemma EndedHasNoLiveToken(w: World, f: FamilyId)
    requires Inv(w) && f in w.ended
    ensures NoLiveToken(w, f)
  {}

  /**
   Once a family's revocation has committed, for every run that follows: none
   of its tokens is live, and whatever a request that starts later presents,
   it gets no token response for the family, nor for any token ever minted
   into it.
   */
  lemma RevocationIsFinal(w: World, acts: seq<Action>, f: FamilyId)
    requires Inv(w) && IsRun(w, acts) && f in w.ended
    ensures NoLiveToken(Run(w, acts), f)
    ensures OnlyAlreadySaved(w, Run(w, acts), f)
    ensures forall i | |w.answers| <= i < |Run(w, acts).answers| && Run(w, acts).answers[i].Granted?
      && Run(w, acts).answers[i].pid !in w.grants ::
              var a := Run(w, acts).answers[i];
              a.family != f && (a.cred.FromToken? ==>
                a.cred.token in Run(w, acts).familyOf && Run(w, acts).familyOf[a.cred.token] != f)
  {
    RunKeeps(w, acts);
    AnswersAfterRevocation(w, acts, f);
    var v := Run(w, acts);
    EndedHasNoLiveToken(v, f);
    forall i | |w.answers| <= i < |v.answers| && v.answers[i].Granted? && v.answers[i].pid !in w.grants
      ensures v.answers[i].family != f
      ensures v.answers[i].cred.FromToken? ==>
        v.answers[i].cred.token in v.familyOf && v.familyOf[v.answers[i].cred.token] != f
    {
      assert AnswerOk(v, i, v.answers[i]);
    }
  }

  // ---------------------------------------------------------------------
  // The sign-in time and the absolute lifetime
  // ---------------------------------------------------------------------

  lemma StepKeepsSignIn(w: World, a: Action, f: FamilyId)
    requires Inv(w) && Guarded(w, a) && f in w.signIns
    ensures f in Next(w, a).signIns && Next(w, a).signIns[f] == w.signIns[f] && Next(w, a).cfg == w.cfg
  {
    if a.ConsumeCode? {
      assert GrantOk(w, a.pid, w.grants[a.pid]);
    }
  }

  lemma {:induction false} SignInsNeverChange(w: World, acts: seq<Action>, f: FamilyId)
    requires Inv(w) && IsRun(w, acts) && f in w.signIns
    ensures f in Run(w, acts).signIns && Run(w, acts).signIns[f] == w.signIns[f] && Run(w, acts).cfg == w.cfg
    decreases |acts|
  {
    if acts != [] {
      StepKeeps(w, acts[0]);
      StepKeepsSignIn(w, acts[0], f);
      SignInsNeverChange(Next(w, acts[0]), acts[1..], f);
    }
  }

  /**
   However often a session has rotated, each stored token still carries the
   client, identity and time of its sign-in and expires within the absolute
   lifetime counted from it; and no refresh whose clock had reached that bound
   was answered with tokens.
   */
  lemma LifetimeIsAbsolute(w: World, acts: seq<Action>, f: FamilyId)
    requires Inv(w) && IsRun(w, acts) && f in w.signIns
    ensures forall t | t in Run(w, acts).store.tokens && Run(w, acts).store.tokens[t].family == f ::
              var r := Run(w, acts).store.tokens[t];
              r.lineage == w.signIns[f] && r.expiresAt <= w.signIns[f].authTime + w.cfg.maxLife
    ensures forall i | 0 <= i < |Run(w, acts).answers| && Run(w, acts).answers[i].Granted?
      && Run(w, acts).answers[i].family == f ::
              var a := Run(w, acts).answers[i];
              a.cred.FromToken? ==> a.now < w.signIns[f].authTime + w.cfg.maxLife
  {
    RunKeeps(w, acts);
    SignInsNeverChange(w, acts, f);
    var v := Run(w, acts);
    forall t | t in v.store.tokens && v.store.tokens[t].family == f
      ensures v.store.tokens[t].lineage == w.signIns[f]
        && v.store.tokens[t].expiresAt <= w.signIns[f].authTime + w.cfg.maxLife
    {
      assert TokenOk(v, t, v.store.tokens[t]);
    }
    forall i | 0 <= i < |v.answers| && v.answers[i].Granted? && v.answers[i].family == f && v.answers[i].cred.FromToken?
      ensures v.answers[i].now < w.signIns[f].authTime + w.cfg.maxLife
    {
      assert AnswerOk(v, i, v.answers[i]);
    }
  }

  // ---------------------------------------------------------------------
  // The reaper's race with a grant in flight
  // ---------------------------------------------------------------------

  ghost predicate CanRevive(w: World, f: FamilyId) {
    exists acts :: IsRun(w, acts) && !NoLiveToken(Run(w, acts), f)
  }

  lemma UnusedToken(used: set<Token>) returns (t: Token)
    ensures t !in used
  {
    t := UpperBound(used);
  }

  ghost function UpperBound(s: set<nat>): (b: nat)
    ensures forall x | x in s :: x < b
  {
    if s == {} then 0 else
      var x :| x in s;
      var b := UpperBound(s - {x});
      assert forall y | y in s :: y == x || y in s - {x};
      if x < b then b else x + 1
  }

  lemma SaveRevives(w: World, p: Pid, f: FamilyId)
    requires p in w.grants && w.grants[p].Saving? && w.grants[p].family == f && w.grants[p].row.family == f
      && Live(w.grants[p].row)
    requires f !in w.store.families
    ensures IsRun(w, [Save(p)]) && !NoLiveToken(Run(w, [Save(p)]), f)
  {
    var v := Next(w, Save(p));
    assert [Save(p)][1..] == [];
    assert IsRun(v, []) && Run(v, []) == v;
    assert v.store.tokens[w.grants[p].child] == w.grants[p].row;
  }

  lemma HolderRevives(w: World, p: Pid, f: FamilyId)
    requires p in w.grants && Holds(w.grants[p], f) && f !in w.store.families
    requires w.grants[p].Saving? ==> w.grants[p].row.family == f && Live(w.grants[p].row)
    ensures CanRevive(w, f)
  {
    if w.grants[p].Saving? {
      SaveRevives(w, p, f);
    } else {
      var t := UnusedToken(set c | c in w.uses && c.FromToken? :: c.token);
      assert FromToken(t) !in w.uses;
      var mint := Mint(p, true, 0, t);
      var v := Next(w, mint);
      SaveRevives(v, p, f);
      var acts := [mint, Save(p)];
      assert acts[1..] == [Save(p)];
      assert IsRun(w, acts) && Run(w, acts) == Run(v, [Save(p)]);
    }
  }

  /**
   Reaping one revoked family keeps its revocation final exactly when no grant
   sits between its consume and its save on it: the family row such a grant
   would have found revoked is gone, and it creates a fresh, unrevoked one.
   */
  lemma ReapKeepsRevocationIff(w: World, f: FamilyId, now: int, life: int)
    requires Inv(w) && f in w.ended && Enabled(w, Reap({f}, now, life))
    ensures !CanRevive(Next(w, Reap({f}, now, life)), f) <==> Quiet(w, {f})
  {
    var v := Next(w, Reap({f}, now, life));
    if Quiet(w, {f}) {
      StepKeeps(w, Reap({f}, now, life));
      forall acts | IsRun(v, acts) ensures NoLiveToken(Run(v, acts), f) {
        RevocationIsFinal(v, acts, f);
      }
    } else {
      var p :| p in w.grants && (w.grants[p].Holding? || w.grants[p].Saving?) && w.grants[p].family in {f};
      assert GrantOk(w, p, w.grants[p]);
      HolderRevives(v, p, f);
    }
  }

  lemma RunThen(w: World, acts: seq<Action>, a: Action)
    requires IsRun(w, acts) && Guarded(Run(w, acts), a)
    ensures IsRun(w, acts + [a]) && Run(w, acts + [a]) == Next(Run(w, acts), a)
    decreases |acts|
  {
    if acts == [] {
      assert [a][1..] == [];
      assert [] + [a] == [a];
    } else {
      RunThen(Next(w, acts[0]), acts[1..], a);
      assert (acts + [a])[1..] == acts[1..] + [a];
    }
  }

  /**
   The race is reachable: a device sign-in at 0, a refresh that has consumed
   its token at 9, a revocation at 10, and a sweep at 21 once the token's
   expiry at 20 has passed.  The refresh's save then revives the family.
   */
  lemma SweepRaceIsReachable()
    ensures exists w, acts ::
      Init(w) && IsRun(w, acts) && 0 in Run(w, acts).ended && Enabled(Run(w, acts), Reap({0}, 21, 100))
                              && CanRevive(Next(Run(w, acts), Reap({0}, 21, 100)), 0)
  {
    var w := World(Config(20, 100), Store(map[], map[], map[]), map[], map[], map[], map[], map[], {}, []);
    var me := Lineage(1, Identity("google", "s", "e"), 0);
    var acts := ConsumedAndRevoked(w, me);
    InitInv(w);
    RunKeeps(w, acts);
    ReapKeepsRevocationIff(Run(w, acts), 0, 21, 100);
  }

  lemma ConsumedAndRevoked(w: World, me: Lineage) returns (acts: seq<Action>)
    requires Init(w) && w.cfg == Config(20, 100) && me.authTime == 0 && me.client == 1 && me.identity.subject != ""
    ensures IsRun(w, acts) && 0 in Run(w, acts).ended && Enabled(Run(w, acts), Reap({0}, 21, 100))
      && !Quiet(Run(w, acts), {0})
  {
    var prior := SignedIn(w, me);
    var v := Run(w, prior);
    var start, take, revoke := StartRefresh(8, 5, 1, 9), Consume(8, Policy(true, true)), RevokeMany({0}, 10);
    RunThen(w, prior, start);
    var u := TakesToken(Next(v, start), me);
    RunThen(w, prior + [start], take);
    RunThen(w, prior + [start] + [take], revoke);
    acts := prior + [start] + [take] + [revoke];
  }

  lemma TakesToken(w: World, me: Lineage) returns (v: World)
    requires w.cfg == Config(20, 100) && me.authTime == 0 && me.client == 1 && me.identity.subject != ""
    requires w.store.tokens == map[5 := Row(0, me, None, None, 20)] && 8 in w.grants
      && w.grants[8] == Presenting(5, 1, 9)
    ensures v == AfterConsume(w, 8, Policy(true, true)) && 8 in v.grants && Holds(v.grants[8], 0)
    ensures v.store.families == w.store.families && v.store.tokens == map[5 := Row(0, me, Some(9), None, 20)]
  {
    assert Admit(w.store.tokens[5], 9, w.cfg, Policy(true, true)) == Admitted;
    v := AfterConsume(w, 8, Policy(true, true));
  }

  lemma SignedIn(w: World, me: Lineage) returns (acts: seq<Action>)
    requires Init(w) && w.cfg == Config(20, 100) && me.authTime == 0
    ensures IsRun(w, acts)
    ensures Run(w, acts).cfg == w.cfg && Run(w, acts).ended == {} && Run(w, acts).grants.Keys == {7}
    ensures Run(w, acts).store.tokens == map[5 := Row(0, me, None, None, 20)]
      && Run(w, acts).store.families == map[0 := None]
  {
    var w1 := Next(w, StartDevice(7, 0, me));
    assert w1 == AfterStartDevice(w, 7, 0, me);
    var w2 := Next(w1, Mint(7, true, 0, 5));
    assert w2 == AfterMint(w1, 7, true, 0, 5);
    assert IsRun(w, []) && Run(w, []) == w;
    RunThen(w, [], StartDevice(7, 0, me));
    RunThen(w, [] + [StartDevice(7, 0, me)], Mint(7, true, 0, 5));
    RunThen(w, [] + [StartDevice(7, 0, me)] + [Mint(7, true, 0, 5)], Save(7));
    acts := [] + [StartDevice(7, 0, me)] + [Mint(7, true, 0, 5)] + [Save(7)];
  }
}
