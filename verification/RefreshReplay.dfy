/**
 Sweeping loses no replay that matters: a refresh request whose clock is not
 past its token's expiry, and inside its session's lifetime, fares the same
 with the sweeps as without them, whether it earns tokens, ends its session or
 gets nothing.
 */
module RefreshReplay {
  import opened Wrappers
  import opened RefreshSessions
  import opened RefreshInvariants
  import opened RefreshSweep
  import opened RefreshDeadness

  datatype Ask = Ask(token: Token, now: int)

  /** The refreshes asked for so far, and those a sweep caught half-way with an older clock. */
  datatype Log = Log(asked: map<Pid, Ask>, caught: set<Pid>)

  /** p is past its consume on a swept family, by a clock behind the sweep's. */
  predicate Behind(w: World, p: Pid, fs: set<FamilyId>, now: int)
    requires p in w.grants
  {
    var g := w.grants[p];
    || (g.LookingUp? && Owns(w.store, fs, g.token) && g.now < now)
    || (g.Revoking? && g.family in fs && g.now < now)
  }

  ghost function Logged(log: Log, w: World, a: Action): Log {
    if !Enabled(w, a) then log
    else
      match a
      case StartRefresh(p, t, _, now) => log.(asked := log.asked[p := Ask(t, now)])
      case Reap(fs, now, _) => log.(caught := log.caught + set p | p in w.grants && Behind(w, p, fs, now))
      case _ => log
  }

  /** The token had expired, or its session had outlived its time, by the request's clock. */
  predicate Late(s: Store, cfg: Config, ask: Ask) {
    ask.token in s.tokens &&
    (s.tokens[ask.token].expiresAt < ask.now || s.tokens[ask.token].lineage.authTime + cfg.maxLife <= ask.now)
  }

  function Own(answers: seq<Answer>, p: Pid): seq<Answer> {
    if answers == [] then []
    else Own(answers[..|answers| - 1], p) + if answers[|answers| - 1].pid == p then [answers[|answers| - 1]] else []
  }

  lemma OwnAppend(answers: seq<Answer>, a: Answer, p: Pid)
    ensures Own(answers + [a], p) == Own(answers, p) + if a.pid == p then [a] else []
  {
    assert (answers + [a])[..|answers|] == answers;
  }

  // ---------------------------------------------------------------------
  // A refresh request goes on about the token it presented
  // ---------------------------------------------------------------------

  predicate InFamily(s: Store, t: Token, f: FamilyId) {
    t in s.tokens && s.tokens[t].family == f
  }

  predicate Follows(g: Grant, s: Store, ask: Ask) {
    match g
    case Presenting(t, _, now) => t == ask.token && now == ask.now
    case LookingUp(t, _, now) => t == ask.token && now == ask.now
    case Holding(cred, _, f, _) => cred == FromToken(ask.token) && InFamily(s, ask.token, f) && g.now == ask.now
    case Saving(cred, _, f, _, _) => cred == FromToken(ask.token) && InFamily(s, ask.token, f) && g.now == ask.now
    case Saved(cred, _, _, _) => cred == FromToken(ask.token) && g.now == ask.now
    case Revoking(f, now) => InFamily(s, ask.token, f) && now == ask.now
    case _ => false
  }

  predicate OnTrack(x: World, s: Store, p: Pid, ask: Ask) {
    p in x.grants ==> Follows(x.grants[p], s, ask)
  }

  /** x's rows are s's. */
  ghost predicate Within(x: World, s: Store) {
    forall t | t in x.store.tokens :: t in s.tokens && s.tokens[t] == x.store.tokens[t]
  }

  lemma AgedFollows(g: Grant, s: Store, n: Store, ask: Ask)
    requires Follows(g, s, ask) && OnlyAged(s.tokens, n.tokens)
    ensures Follows(g, n, ask)
  {}

  lemma ConsumeFollows(x: World, s: Store, p: Pid, policy: Policy, ask: Ask)
    requires p in x.grants && x.grants[p].Presenting? && Follows(x.grants[p], s, ask) && Within(x, s)
    ensures OnTrack(AfterConsume(x, p, policy), s, p, ask)
  {}

  lemma MintFollows(x: World, s: Store, p: Pid, permitted: bool, clock: int, child: Token, ask: Ask)
    requires p in x.grants && x.grants[p].Holding? && Follows(x.grants[p], s, ask)
    ensures OnTrack(AfterMint(x, p, permitted, clock, child), s, p, ask)
  {}

  lemma LookUpFollows(x: World, s: Store, p: Pid, ask: Ask)
    requires p in x.grants && x.grants[p].LookingUp? && Follows(x.grants[p], s, ask) && Within(x, s)
    ensures OnTrack(AfterLookUp(x, p), s, p, ask)
  {}

  lemma OwnStepFollows(x: World, s: Store, a: Action, ask: Ask)
    requires Advances(a) && Enabled(x, a) && Follows(x.grants[a.pid], s, ask) && Within(x, s)
    ensures OnTrack(Next(x, a), s, a.pid, ask)
  {
    match a
    case Consume(p, policy) => ConsumeFollows(x, s, p, policy, ask);
    case LookUp(p) => LookUpFollows(x, s, p, ask);
    case Mint(p, permitted, clock, child) => MintFollows(x, s, p, permitted, clock, child, ask);
    case _ =>
  }

  // ---------------------------------------------------------------------
  // One step touches one request
  // ---------------------------------------------------------------------

  predicate Moves(a: Action, p: Pid) {
    (Advances(a) || Starts(a)) && a.pid == p
  }

  lemma LookUpsTouchOne(x: World, p: Pid, q: Pid)
    requires p in x.grants && q != p
    ensures x.grants[p].LookingUp? ==> SameGrant(x, AfterLookUp(x, p), q) && AfterLookUp(x, p).answers == x.answers
    ensures x.grants[p].LookingUpCode? ==>
      SameGrant(x, AfterLookUpCode(x, p), q) && AfterLookUpCode(x, p).answers == x.answers
  {}

  lemma ConsumesTouchOne(x: World, p: Pid, q: Pid, policy: Policy, bound: bool, authTime: int)
    requires p in x.grants && q != p
    ensures x.grants[p].Presenting? ==> SameGrant(x, AfterConsume(x, p, policy), q)
    ensures x.grants[p].Redeeming? ==> SameGrant(x, AfterConsumeCode(x, p, bound, authTime), q)
  {}

  lemma RevokesTouchOne(x: World, p: Pid, q: Pid)
    requires p in x.grants && q != p
    ensures x.grants[p].Revoking? ==> SameGrant(x, AfterRevokeOwn(x, p), q)
    ensures x.grants[p].Saving? ==> SameGrant(x, AfterSave(x, p), q)
  {}

  lemma GrantUntouched(x: World, a: Action, q: Pid)
    requires !Moves(a, q)
    ensures SameGrant(x, Do(x, a), q)
  {
    if Enabled(x, a) {
      match a
      case Consume(p, policy) => ConsumesTouchOne(x, p, q, policy, false, 0);
      case ConsumeCode(p, bound, authTime) => ConsumesTouchOne(x, p, q, Policy(false, false), bound, authTime);
      case LookUp(p) => LookUpsTouchOne(x, p, q);
      case LookUpCode(p) => LookUpsTouchOne(x, p, q);
      case RevokeOwn(p) => RevokesTouchOne(x, p, q);
      case Save(p) => RevokesTouchOne(x, p, q);
      case _ =>
    }
  }

  /** What a step adds to the answers. */
  function Adds(x: World, a: Action): seq<Answer> {
    match a
    case Respond(p) =>
      if p in x.grants && x.grants[p].Saved?
      then [Granted(p, x.grants[p].cred, x.grants[p].now, x.grants[p].family, x.grants[p].child)] else []
    case RevokeOwn(p) =>
      if p in x.grants && x.grants[p].Revoking? && x.grants[p].family in x.store.families
      then [SessionRevoked(p, x.grants[p].family)] else []
    case _ => []
  }

  lemma ConsumesAnswerNothing(x: World, p: Pid, policy: Policy, bound: bool, authTime: int)
    requires p in x.grants
    ensures x.grants[p].Presenting? ==> AfterConsume(x, p, policy).answers == x.answers
    ensures x.grants[p].Redeeming? ==> AfterConsumeCode(x, p, bound, authTime).answers == x.answers
    ensures x.grants[p].LookingUp? ==> AfterLookUp(x, p).answers == x.answers
    ensures x.grants[p].LookingUpCode? ==> AfterLookUpCode(x, p).answers == x.answers
  {}

  lemma AnswersAdded(x: World, a: Action)
    ensures Do(x, a).answers == x.answers + Adds(x, a)
  {
    if Enabled(x, a) {
      match a
      case Consume(p, policy) => ConsumesAnswerNothing(x, p, policy, false, 0);
      case ConsumeCode(p, bound, authTime) => ConsumesAnswerNothing(x, p, Policy(false, false), bound, authTime);
      case LookUp(p) => ConsumesAnswerNothing(x, p, Policy(false, false), false, 0);
      case LookUpCode(p) => ConsumesAnswerNothing(x, p, Policy(false, false), false, 0);
      case _ =>
    }
  }

  lemma AddsOneOfItsOwn(x: World, a: Action)
    ensures |Adds(x, a)| <= 1 && (Adds(x, a) != [] ==> Advances(a) && Adds(x, a)[0].pid == a.pid)
  {}

  lemma OwnOfMore(answers: seq<Answer>, added: seq<Answer>, p: Pid)
    requires |added| <= 1
    ensures Own(answers + added, p) == Own(answers, p) + if added != [] && added[0].pid == p then added else []
  {
    if added == [] {
      assert answers + added == answers;
    } else {
      assert added == [added[0]];
      OwnAppend(answers, added[0], p);
    }
  }

  lemma OwnAdded(x: World, a: Action, p: Pid)
    ensures Own(Do(x, a).answers, p) == Own(x.answers, p) + if Moves(a, p) then Adds(x, a) else []
  {
    AnswersAdded(x, a);
    AddsOneOfItsOwn(x, a);
    OwnOfMore(x.answers, Adds(x, a), p);
  }

  lemma DoOnlyAges(x: World, a: Action)
    requires Inv(x) && !a.Reap?
    ensures OnlyAged(x.store.tokens, Do(x, a).store.tokens)
  {
    if a.RevokeMany? {
      RevokeOnlyAges(x.store, a.families * x.store.families.Keys, a.at);
    } else if Enabled(x, a) {
      RowsOnlyAge(x, a);
    }
  }

  lemma ConsumeAddsNone(x: World, p: Pid, policy: Policy)
    requires p in x.grants && x.grants[p].Presenting?
    ensures AfterConsume(x, p, policy).store.tokens.Keys == x.store.tokens.Keys
  {
    ConsumeStamps(x, p, policy);
  }

  lemma RevokeAddsNone(s: Store, fs: set<FamilyId>, at: int)
    ensures RevokeIn(s, fs, at).tokens.Keys == s.tokens.Keys
  {}

  lemma RevokeOwnAddsNone(x: World, p: Pid)
    requires p in x.grants && x.grants[p].Revoking?
    ensures AfterRevokeOwn(x, p).store.tokens.Keys == x.store.tokens.Keys
  {
    RevokeAddsNone(x.store, {x.grants[p].family}, x.grants[p].now);
  }

  /** A row that was not there is the child of the grant that saves. */
  lemma NewRowsAreSaved(x: World, a: Action, t: Token)
    requires !a.Reap? && t in Do(x, a).store.tokens && t !in x.store.tokens
    ensures
      && a.Save? && a.pid in x.grants && x.grants[a.pid].Saving?
      && Do(x, a).store.tokens[t] == x.grants[a.pid].row
  {
    if a.RevokeMany? {
      RevokeAddsNone(x.store, a.families * x.store.families.Keys, a.at);
    } else if Enabled(x, a) && !Stamps(a) {
      OthersLeaveTokens(x, a);
    } else if Enabled(x, a) {
      match a
      case Consume(p, policy) => ConsumeAddsNone(x, p, policy);
      case RevokeOwn(p) => RevokeOwnAddsNone(x, p);
      case _ =>
    }
  }

  // ---------------------------------------------------------------------
  // The two plays side by side: w is swept, v is not
  // ---------------------------------------------------------------------

  /** No clock from `at` on asks for this row in time. */
  predicate Buried(r: Row, cfg: Config, at: int) {
    r.lineage.authTime + cfg.maxLife <= at || (!Live(r) && r.expiresAt < at)
  }

  ghost predicate Tombs(v: World, past: Past) {
    forall t | Owns(v.store, past.swept, t) :: Buried(v.store.tokens[t], v.cfg, past.latest)
  }

  /** p has still to hear about the token it presented. */
  predicate Open(x: World, p: Pid) {
    p in x.grants && !x.grants[p].Saved?
  }

  ghost predicate Alike(w: World, v: World, past: Past, p: Pid, ask: Ask) {
    && SameGrant(w, v, p) && Own(w.answers, p) == Own(v.answers, p)
    && (Open(w, p) ==> !Owns(v.store, past.swept, ask.token))
  }

  ghost predicate Unheard(w: World, v: World, past: Past) {
    forall p | p !in past.started :: Own(w.answers, p) == [] && Own(v.answers, p) == []
  }

  ghost predicate Tracked(x: World, s: Store, log: Log) {
    forall p | p in log.asked :: OnTrack(x, s, p, log.asked[p])
  }

  ghost predicate TimelyAlike(w: World, v: World, past: Past, log: Log) {
    forall p | p in log.asked && p !in log.caught && !Late(v.store, v.cfg, log.asked[p]) ::
      Alike(w, v, past, p, log.asked[p])
  }

  ghost predicate Plays(w: World, v: World, past: Past, log: Log) {
    Sim(w, v, past) && Inv(w) && Inv(v) && log.asked.Keys <= past.started
  }

  ghost predicate Faithful(w: World, v: World, past: Past, log: Log) {
    && Plays(w, v, past, log) && Tombs(v, past) && Unheard(w, v, past)
    && Tracked(w, v.store, log) && Tracked(v, v.store, log) && TimelyAlike(w, v, past, log)
  }

  lemma SavesElsewhere(w: World, v: World, past: Past, p: Pid)
    requires Sim(w, v, past) && Inv(v) && p in v.grants && v.grants[p].Saving?
    ensures v.grants[p].row.family !in past.swept
  {
    assert GrantSim(w, v, past, p) && GrantOk(v, p, v.grants[p]);
  }

  /** No row is added to a swept family, in either play. */
  lemma NothingNewInSwept(w: World, v: World, past: Past, a: Action, t: Token)
    requires Sim(w, v, past) && Inv(v) && !a.Reap? && Owns(Do(v, a).store, past.swept, t)
    ensures Owns(v.store, past.swept, t) && Aged(v.store.tokens[t], Do(v, a).store.tokens[t])
  {
    DoOnlyAges(v, a);
    if t !in v.store.tokens {
      NewRowsAreSaved(v, a, t);
      SavesElsewhere(w, v, past, a.pid);
    }
  }

  lemma TombsKept(w: World, v: World, past: Past, a: Action)
    requires Sim(w, v, past) && Inv(v) && !a.Reap? && Tombs(v, past) && Do(v, a).cfg == v.cfg
    ensures Tombs(Do(v, a), past)
  {
    forall t | Owns(Do(v, a).store, past.swept, t) ensures Buried(Do(v, a).store.tokens[t], v.cfg, past.latest) {
      NothingNewInSwept(w, v, past, a, t);
    }
  }

  lemma UnheardKept(w: World, v: World, past: Past, a: Action)
    requires Sim(w, v, past) && Unheard(w, v, past) && !a.Reap?
    ensures Unheard(Do(w, a), Do(v, a), After(past, a, true))
  {
    forall p | p !in After(past, a, true).started ensures Own(Do(w, a).answers, p) == [] == Own(Do(v, a).answers, p) {
      assert GrantSim(w, v, past, p);
      OwnAdded(w, a, p);
      OwnAdded(v, a, p);
    }
  }

  lemma OnTrackKept(x: World, s: Store, n: Store, a: Action, p: Pid, ask: Ask)
    requires OnTrack(x, s, p, ask) && Within(x, s) && OnlyAged(s.tokens, n.tokens) && !(Starts(a) && a.pid == p)
    ensures OnTrack(Do(x, a), n, p, ask)
  {
    if Moves(a, p) && Enabled(x, a) { OwnStepFollows(x, s, a, ask); }
    else if !Moves(a, p) { GrantUntouched(x, a, p); }
    if p in Do(x, a).grants { AgedFollows(Do(x, a).grants[p], s, n, ask); }
  }

  // ---------------------------------------------------------------------
  // A timely request's own step
  // ---------------------------------------------------------------------

  /** Whatever p's step, both plays add the same. */
  lemma AddsAlike(w: World, v: World, past: Past, a: Action, ask: Ask)
    requires Sim(w, v, past) && Advances(a) && Alike(w, v, past, a.pid, ask) && OnTrack(w, v.store, a.pid, ask)
    ensures Adds(w, a) == Adds(v, a)
  {}

  lemma SavedMoves(x: World, a: Action)
    requires Advances(a) && a.pid in x.grants && x.grants[a.pid].Saved?
    ensures a.Respond? || a.Abandon? ==> a.pid !in Do(x, a).grants
    ensures !a.Respond? && !a.Abandon? ==> Do(x, a) == x
  {}

  /** A request on a family that is not swept is doomed in neither play. */
  lemma UndoomedAlike(w: World, v: World, past: Past, p: Pid, ask: Ask)
    requires GrantSim(w, v, past, p) && OnTrack(w, v.store, p, ask) && OnTrack(v, v.store, p, ask)
      && !Owns(v.store, past.swept, ask.token)
    ensures SameGrant(w, v, p)
  {}

  lemma OwnStepAlike(w: World, v: World, past: Past, a: Action, ask: Ask)
    requires Sim(w, v, past) && Inv(v) && Advances(a) && Sim(Do(w, a), Do(v, a), past)
    requires OnTrack(w, v.store, a.pid, ask) && Alike(w, v, past, a.pid, ask)
    requires OnTrack(Do(w, a), Do(v, a).store, a.pid, ask) && OnTrack(Do(v, a), Do(v, a).store, a.pid, ask)
    ensures Alike(Do(w, a), Do(v, a), past, a.pid, ask)
  {
    var p := a.pid;
    AddsAlike(w, v, past, a, ask);
    OwnAdded(w, a, p);
    OwnAdded(v, a, p);
    if p !in w.grants {
    } else if w.grants[p].Saved? {
      SavedMoves(w, a);
      SavedMoves(v, a);
    } else {
      if Owns(Do(v, a).store, past.swept, ask.token) { NothingNewInSwept(w, v, past, a, ask.token); }
      assert GrantSim(Do(w, a), Do(v, a), past, p);
      UndoomedAlike(Do(w, a), Do(v, a), past, p, ask);
    }
  }

  lemma OtherStepAlike(w: World, v: World, past: Past, a: Action, p: Pid, ask: Ask)
    requires Sim(w, v, past) && Inv(v) && !a.Reap? && !Moves(a, p) && Alike(w, v, past, p, ask)
    ensures Alike(Do(w, a), Do(v, a), past, p, ask)
  {
    GrantUntouched(w, a, p);
    GrantUntouched(v, a, p);
    OwnAdded(w, a, p);
    OwnAdded(v, a, p);
    if Owns(Do(v, a).store, past.swept, ask.token) { NothingNewInSwept(w, v, past, a, ask.token); }
  }

  /** A request that starts now, by a clock no sweep so far is ahead of. */
  lemma StartAlike(w: World, v: World, past: Past, p: Pid, t: Token, client: ClientId, now: int)
    requires Sim(w, v, past) && Tombs(v, past) && Unheard(w, v, past) && p !in past.started && past.latest <= now
    requires !Late(v.store, v.cfg, Ask(t, now))
    ensures Alike(Put(w, p, Presenting(t, client, now)), Put(v, p, Presenting(t, client, now)), past, p, Ask(t, now))
  {}

  // ---------------------------------------------------------------------
  // Every step
  // ---------------------------------------------------------------------

  lemma ConsumesKeepCfg(x: World, p: Pid, policy: Policy, bound: bool, authTime: int)
    requires p in x.grants
    ensures x.grants[p].Presenting? ==> AfterConsume(x, p, policy).cfg == x.cfg
    ensures x.grants[p].Redeeming? ==> AfterConsumeCode(x, p, bound, authTime).cfg == x.cfg
    ensures x.grants[p].LookingUp? ==> AfterLookUp(x, p).cfg == x.cfg
    ensures x.grants[p].LookingUpCode? ==> AfterLookUpCode(x, p).cfg == x.cfg
  {}

  lemma CfgKept(x: World, a: Action)
    ensures Do(x, a).cfg == x.cfg
  {
    if Enabled(x, a) {
      match a
      case Consume(p, policy) => ConsumesKeepCfg(x, p, policy, false, 0);
      case ConsumeCode(p, bound, authTime) => ConsumesKeepCfg(x, p, Policy(false, false), bound, authTime);
      case LookUp(p) => ConsumesKeepCfg(x, p, Policy(false, false), false, 0);
      case LookUpCode(p) => ConsumesKeepCfg(x, p, Policy(false, false), false, 0);
      case _ =>
    }
  }

  lemma StaysLate(s: Store, n: Store, cfg: Config, ask: Ask)
    requires OnlyAged(s.tokens, n.tokens) && Late(s, cfg, ask)
    ensures Late(n, cfg, ask)
  {}

  lemma SweptWithin(w: World, v: World, past: Past)
    requires Sim(w, v, past)
    ensures Within(w, v.store) && Within(v, v.store)
  {}

  lemma TrackedKept(x: World, s: Store, n: Store, past: Past, log: Log, log': Log, a: Action)
    requires Tracked(x, s, log) && Within(x, s) && OnlyAged(s.tokens, n.tokens) && log.asked.Keys <= past.started
    requires Starts(a) ==> a.pid !in past.started && a.pid !in x.grants
    requires log'.asked == if a.StartRefresh? then log.asked[a.pid := Ask(a.token, a.now)] else log.asked
    ensures Tracked(Do(x, a), n, log')
  {
    forall p | p in log'.asked ensures OnTrack(Do(x, a), n, p, log'.asked[p]) {
      if !(Starts(a) && a.pid == p) { OnTrackKept(x, s, n, a, p, log.asked[p]); }
    }
  }

  lemma TimelyKept(w: World, v: World, past: Past, log: Log, a: Action, p: Pid)
    requires Faithful(w, v, past, log) && Orderly(w, past, a) && !a.Reap? && Sim(Do(w, a), Do(v, a), past)
    requires !(Starts(a) && a.pid == p) && p in log.asked && p !in log.caught
    requires !Late(Do(v, a).store, v.cfg, log.asked[p])
    ensures Alike(Do(w, a), Do(v, a), past, p, log.asked[p])
  {
    var ask := log.asked[p];
    DoOnlyAges(v, a);
    if Late(v.store, v.cfg, ask) { StaysLate(v.store, Do(v, a).store, v.cfg, ask); }
    if Moves(a, p) {
      SweptWithin(w, v, past);
      OnTrackKept(w, v.store, Do(v, a).store, a, p, ask);
      OnTrackKept(v, v.store, Do(v, a).store, a, p, ask);
      OwnStepAlike(w, v, past, a, ask);
    } else {
      OtherStepAlike(w, v, past, a, p, ask);
    }
  }

  lemma StepKeepsPlays(w: World, v: World, past: Past, log: Log, a: Action)
    requires Plays(w, v, past, log) && Orderly(w, past, a) && !a.Reap?
    ensures Plays(Do(w, a), Do(v, a), After(past, a, true), Logged(log, w, a))
  {
    StepSim(w, v, past, a);
    InvDo(w, a);
    InvDo(v, a);
  }

  lemma StepKeepsTracks(w: World, v: World, past: Past, log: Log, a: Action)
    requires Faithful(w, v, past, log) && Orderly(w, past, a) && !a.Reap?
    ensures Tracked(Do(w, a), Do(v, a).store, Logged(log, w, a)) && Tracked(Do(v, a), Do(v, a).store, Logged(log, w, a))
  {
    if Starts(a) { assert GrantSim(w, v, past, a.pid); }
    SweptWithin(w, v, past);
    DoOnlyAges(v, a);
    TrackedKept(w, v.store, Do(v, a).store, past, log, Logged(log, w, a), a);
    TrackedKept(v, v.store, Do(v, a).store, past, log, Logged(log, w, a), a);
  }

  lemma StartIsTimely(w: World, v: World, past: Past, log: Log, a: Action)
    requires Faithful(w, v, past, log) && Orderly(w, past, a) && a.StartRefresh?
    requires !Late(Do(v, a).store, v.cfg, Ask(a.token, a.now))
    ensures Alike(Do(w, a), Do(v, a), past, a.pid, Ask(a.token, a.now))
  {
    assert GrantSim(w, v, past, a.pid);
    StartAlike(w, v, past, a.pid, a.token, a.client, a.now);
  }

  lemma StepKeepsTimely(w: World, v: World, past: Past, log: Log, a: Action)
    requires Faithful(w, v, past, log) && Orderly(w, past, a) && !a.Reap? && !Starts(a)
    ensures TimelyAlike(Do(w, a), Do(v, a), past, log)
  {
    CfgKept(v, a);
    StepSim(w, v, past, a);
    forall p | p in log.asked && p !in log.caught && !Late(Do(v, a).store, v.cfg, log.asked[p])
      ensures Alike(Do(w, a), Do(v, a), past, p, log.asked[p])
    {
      TimelyKept(w, v, past, log, a, p);
    }
  }

  lemma StartTimelyKept(w: World, v: World, past: Past, log: Log, a: Action, p: Pid)
    requires Faithful(w, v, past, log) && Starts(a) && p != a.pid && p in log.asked && p !in log.caught
    requires !Late(Do(v, a).store, v.cfg, log.asked[p])
    ensures Alike(Do(w, a), Do(v, a), past, p, log.asked[p])
  {
    OtherStepAlike(w, v, past, a, p, log.asked[p]);
  }

  lemma StartKeepsTimely(w: World, v: World, past: Past, log: Log, a: Action)
    requires Faithful(w, v, past, log) && Orderly(w, past, a) && Starts(a)
    ensures TimelyAlike(Do(w, a), Do(v, a), After(past, a, true), Logged(log, w, a))
  {
    var next, log' := After(past, a, true), Logged(log, w, a);
    CfgKept(v, a);
    forall p | p in log'.asked && p !in log'.caught && !Late(Do(v, a).store, v.cfg, log'.asked[p])
      ensures Alike(Do(w, a), Do(v, a), next, p, log'.asked[p])
    {
      if p == a.pid {
        StartIsTimely(w, v, past, log, a);
      } else {
        StartTimelyKept(w, v, past, log, a, p);
      }
    }
  }

  lemma StepIsFaithful(w: World, v: World, past: Past, log: Log, a: Action)
    requires Faithful(w, v, past, log) && Orderly(w, past, a) && !a.Reap?
    ensures Faithful(Do(w, a), Do(v, a), After(past, a, true), Logged(log, w, a))
  {
    StepKeepsPlays(w, v, past, log, a);
    CfgKept(v, a);
    TombsKept(w, v, past, a);
    UnheardKept(w, v, past, a);
    StepKeepsTracks(w, v, past, log, a);
    if Starts(a) { StartKeepsTimely(w, v, past, log, a); } else { StepKeepsTimely(w, v, past, log, a); }
  }

  // ---------------------------------------------------------------------
  // The sweep
  // ---------------------------------------------------------------------

  lemma SweptRowsAreBuried(w: World, v: World, past: Past, fs: set<FamilyId>, now: int, life: int)
    requires Sim(w, v, past) && Tombs(v, past) && past.latest <= now && (life <= 0 || w.cfg.maxLife <= life)
    requires Enabled(w, Reap(fs, now, life))
    ensures Tombs(v, After(past, Reap(fs, now, life), true))
  {
    var next := After(past, Reap(fs, now, life), true);
    forall t | Owns(v.store, next.swept, t) ensures Buried(v.store.tokens[t], v.cfg, now) {
      if !Owns(v.store, past.swept, t) {
        assert t in w.store.tokens && w.store.tokens[t] == v.store.tokens[t];
        assert DeadRow(w.store.tokens[t], now, life);
      }
    }
  }

  lemma SweepIsTimely(w: World, v: World, past: Past, log: Log, fs: set<FamilyId>, now: int, life: int, p: Pid)
    requires Faithful(w, v, past, log) && Orderly(w, past, Reap(fs, now, life)) && Enabled(w, Reap(fs, now, life))
    requires p in log.asked && p !in Logged(log, w, Reap(fs, now, life)).caught
    requires !Late(v.store, v.cfg, log.asked[p])
    ensures Alike(Next(w, Reap(fs, now, life)), v, After(past, Reap(fs, now, life), true), p, log.asked[p])
  {
    var ask, next := log.asked[p], After(past, Reap(fs, now, life), true);
    SweptRowsAreBuried(w, v, past, fs, now, life);
    assert Alike(w, v, past, p, ask) && OnTrack(w, v.store, p, ask);
    if Open(w, p) && Owns(v.store, next.swept, ask.token) {
      assert Owns(w.store, fs, ask.token);
    }
  }

  lemma SweepIsFaithful(w: World, v: World, past: Past, log: Log, fs: set<FamilyId>, now: int, life: int)
    requires Faithful(w, v, past, log) && Orderly(w, past, Reap(fs, now, life)) && Enabled(w, Reap(fs, now, life))
    ensures Faithful(Next(w, Reap(fs, now, life)), v, After(past, Reap(fs, now, life), true),
              Logged(log, w, Reap(fs, now, life)))
  {
    var a := Reap(fs, now, life);
    var w', next, log' := Next(w, a), After(past, a, true), Logged(log, w, a);
    ReapSim(w, v, past, fs, now, life);
    StepKeeps(w, a);
    SweptRowsAreBuried(w, v, past, fs, now, life);
    forall p | p in log'.asked && p !in log'.caught && !Late(v.store, v.cfg, log'.asked[p])
      ensures Alike(w', v, next, p, log'.asked[p])
    {
      SweepIsTimely(w, v, past, log, fs, now, life, p);
    }
  }

  // ---------------------------------------------------------------------
  // Every schedule
  // ---------------------------------------------------------------------

  /** The log the swept play keeps. */
  ghost function LogOf(w: World, log: Log, acts: seq<Action>): Log
    decreases |acts|
  {
    if acts == [] then log else LogOf(Do(w, acts[0]), Logged(log, w, acts[0]), acts[1..])
  }

  ghost predicate FaresAlike(w: World, v: World, log: Log) {
    forall p | p in log.asked && p !in log.caught && !Late(v.store, v.cfg, log.asked[p]) ::
      SameGrant(w, v, p) && Own(w.answers, p) == Own(v.answers, p)
  }

  lemma {:induction false} PlayIsFaithful(w: World, v: World, past: Past, log: Log, acts: seq<Action>)
    requires Faithful(w, v, past, log) && OrderlyAll(w, past, acts)
    ensures FaresAlike(Play(w, acts), Play(v, WithoutSweeps(acts)), LogOf(w, log, acts))
    decreases |acts|
  {
    if acts != [] {
      var a := acts[0];
      if a.Reap? {
        if Enabled(w, a) { SweepIsFaithful(w, v, past, log, a.families, a.now, a.life); }
        PlayIsFaithful(Do(w, a), v, After(past, a, Enabled(w, a)), Logged(log, w, a), acts[1..]);
        assert WithoutSweeps(acts) == WithoutSweeps(acts[1..]);
      } else {
        StepIsFaithful(w, v, past, log, a);
        PlayIsFaithful(Do(w, a), Do(v, a), After(past, a, Enabled(w, a)), Logged(log, w, a), acts[1..]);
        assert WithoutSweeps(acts)[1..] == WithoutSweeps(acts[1..]);
      }
    }
  }

  /**
   From an empty store, after any orderly schedule: a refresh that no sweep
   caught half-way, asked for no later than its token's expiry and inside its
   session's lifetime, stands where it would have stood without the sweeps,
   and has been answered as it would have been, a replay that ends its
   session included.
   */
  lemma TimelyReplaysAreSeen(w: World, start: int, acts: seq<Action>)
    requires Init(w) && OrderlyAll(w, Past({}, start, {}), acts)
    ensures
      var swept, unswept, log := Play(w, acts), Play(w, WithoutSweeps(acts)), LogOf(w, Log(map[], {}), acts);
      forall p | p in log.asked && p !in log.caught ::
        var ask := log.asked[p];
        || (ask.token in unswept.store.tokens && unswept.store.tokens[ask.token].expiresAt < ask.now)
        || (ask.token in unswept.store.tokens
            && unswept.store.tokens[ask.token].lineage.authTime + unswept.cfg.maxLife <= ask.now)
        || (SameGrant(swept, unswept, p) && Own(swept.answers, p) == Own(unswept.answers, p))
  {
    InitInv(w);
    assert WithoutFamilies(w.store, {}) == w.store;
    PlayIsFaithful(w, w, Past({}, start, {}), Log(map[], {}), acts);
  }
}
