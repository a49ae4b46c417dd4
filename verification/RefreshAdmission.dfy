/**
 Which refreshes are answered with tokens, in terms of the rows, clocks and
 policy they met: a chronicle beside the session machine remembers how each
 token was consumed and by which clock it was minted.
 */
module RefreshAdmission {
  import opened Wrappers
  import opened RefreshSessions
  import opened RefreshInvariants

  /** How a token was consumed: the row as it was, by whom, by which clock and under which policy. */
  datatype Taken = Taken(row: Row, client: ClientId, now: int, policy: Policy)

  datatype Chronicle = Chronicle(taken: map<Token, Taken>, mintedAt: map<Token, int>)

  /** The chronicle after a step, read off the tables and the request, not off what the step decides. */
  function Noted(h: Chronicle, w: World, a: Action): Chronicle {
    match a
    case Consume(p, policy) =>
      if p in w.grants && w.grants[p].Presenting? && w.grants[p].token in w.store.tokens
         && Live(w.store.tokens[w.grants[p].token])
         && w.store.tokens[w.grants[p].token].lineage.client == w.grants[p].client
      then
        var g := w.grants[p];
        h.(taken := h.taken[g.token := Taken(w.store.tokens[g.token], g.client, g.now, policy)])
      else h
    case Mint(_, permitted, clock, child) => if permitted then h.(mintedAt := h.mintedAt[child := clock]) else h
    case _ => h
  }

  ghost function Written(h: Chronicle, w: World, acts: seq<Action>): Chronicle
    requires IsRun(w, acts)
    decreases |acts|
  {
    if acts == [] then h else Written(Noted(h, w, acts[0]), Next(w, acts[0]), acts[1..])
  }

  /** The token was consumed in time, by its own client, for a person who may still sign in. */
  predicate WellTaken(h: Chronicle, cfg: Config, t: Token, now: int, family: FamilyId) {
    t in h.taken &&
    var k := h.taken[t];
    && k.now == now && k.row.family == family && k.row.lineage.client == k.client
    && k.row.consumedAt.None? && k.row.revokedAt.None?
    && now <= k.row.expiresAt && now < k.row.lineage.authTime + cfg.maxLife
    && k.row.lineage.identity.subject != ""
    && k.policy.connectorConfigured && k.policy.domainAllowed
  }

  /** A token expires when it has been idle, or its session has lasted, as long as allowed, whichever is first. */
  predicate ExpiresRight(h: Chronicle, cfg: Config, t: Token, r: Row) {
    t in h.mintedAt &&
    var idle, end := h.mintedAt[t] + cfg.idle, r.lineage.authTime + cfg.maxLife;
    r.expiresAt <= idle && r.expiresAt <= end && (r.expiresAt == idle || r.expiresAt == end)
  }

  predicate GrantRight(h: Chronicle, cfg: Config, g: Grant) {
    && (InFlight(g) && g.cred.FromToken? ==> WellTaken(h, cfg, g.cred.token, g.now, g.family))
    && (g.Saving? ==> ExpiresRight(h, cfg, g.child, g.row))
  }

  predicate AnswerRight(h: Chronicle, cfg: Config, a: Answer) {
    a.Granted? && a.cred.FromToken? ==> WellTaken(h, cfg, a.cred.token, a.now, a.family)
  }

  ghost predicate Right(w: World, h: Chronicle) {
    && (forall p | p in w.grants :: GrantRight(h, w.cfg, w.grants[p]))
    && (forall i | 0 <= i < |w.answers| :: AnswerRight(h, w.cfg, w.answers[i]))
    && (forall t | t in w.store.tokens :: ExpiresRight(h, w.cfg, t, w.store.tokens[t]))
  }

  // ---------------------------------------------------------------------
  // Every step keeps it right
  // ---------------------------------------------------------------------

  /** A live token's consume is nobody's yet, so writing it down overwrites nothing that is relied on. */
  lemma NotedKeeps(w: World, h: Chronicle, t: Token, k: Taken)
    requires Inv(w) && Right(w, h) && t in w.store.tokens && Live(w.store.tokens[t])
    ensures Right(w, h.(taken := h.taken[t := k]))
  {
    var n := h.(taken := h.taken[t := k]);
    assert TokenOk(w, t, w.store.tokens[t]);
    forall p | p in w.grants ensures GrantRight(n, w.cfg, w.grants[p]) {
      assert GrantOk(w, p, w.grants[p]) && GrantRight(h, w.cfg, w.grants[p]);
    }
    forall i | 0 <= i < |w.answers| ensures AnswerRight(n, w.cfg, w.answers[i]) {
      assert AnswerOk(w, i, w.answers[i]) && AnswerRight(h, w.cfg, w.answers[i]);
    }
  }

  /** A token only stamped, a grant that goes or is idle: nothing to be wrong about. */
  lemma FrameRight(w: World, n: World, h: Chronicle)
    requires Right(w, h) && n.cfg == w.cfg && n.answers == w.answers
    requires forall p | p in n.grants ::
      (p in w.grants && n.grants[p] == w.grants[p]) || GrantRight(h, w.cfg, n.grants[p])
    requires forall t | t in n.store.tokens ::
      && t in w.store.tokens && n.store.tokens[t].lineage == w.store.tokens[t].lineage
      && n.store.tokens[t].expiresAt == w.store.tokens[t].expiresAt
    ensures Right(n, h)
  {
    forall t | t in n.store.tokens ensures ExpiresRight(h, n.cfg, t, n.store.tokens[t]) {
      assert ExpiresRight(h, w.cfg, t, w.store.tokens[t]);
    }
  }

  lemma PutRight(w: World, h: Chronicle, p: Pid, g: Grant)
    requires Right(w, h) && GrantRight(h, w.cfg, g)
    ensures Right(Put(w, p, g), h)
  {}

  lemma DropRight(w: World, h: Chronicle, p: Pid)
    requires Right(w, h)
    ensures Right(Drop(w, p), h)
  {}

  lemma StampRight(w: World, h: Chronicle, p: Pid, t: Token, at: int)
    requires Right(w, h) && t in w.store.tokens
    ensures Right(StampConsumed(w, p, t, at), h)
  {
    FrameRight(w, StampConsumed(w, p, t, at), h);
  }

  lemma ConsumeRight(w: World, h: Chronicle, p: Pid, policy: Policy)
    requires Inv(w) && Right(w, h) && p in w.grants && w.grants[p].Presenting?
    ensures Right(AfterConsume(w, p, policy), Noted(h, w, Consume(p, policy)))
  {
    var g, k := w.grants[p], Noted(h, w, Consume(p, policy));
    if Consumable(w.store, g.token, g.client) {
      var row := w.store.tokens[g.token];
      NotedKeeps(w, h, g.token, Taken(row, g.client, g.now, policy));
      StampRight(w, k, p, g.token, g.now);
      var v := StampConsumed(w, p, g.token, g.now);
      match Admit(row, g.now, w.cfg, policy)
      case Admitted => PutRight(v, k, p, Holding(FromToken(g.token), g.now, row.family, row.lineage));
      case Refused => DropRight(v, k, p);
      case RefusedAndRevoke => PutRight(v, k, p, Revoking(row.family, g.now));
    } else {
      PutRight(w, h, p, LookingUp(g.token, g.client, g.now));
    }
  }

  /** A token not created yet has no clock written down that anything relies on. */
  lemma MintNotedKeeps(w: World, h: Chronicle, child: Token, clock: int)
    requires Inv(w) && Right(w, h) && FromToken(child) !in w.uses
    ensures Right(w, h.(mintedAt := h.mintedAt[child := clock]))
  {
    var n := h.(mintedAt := h.mintedAt[child := clock]);
    forall p | p in w.grants ensures GrantRight(n, w.cfg, w.grants[p]) {
      assert GrantOk(w, p, w.grants[p]) && GrantRight(h, w.cfg, w.grants[p]);
    }
    forall t | t in w.store.tokens ensures ExpiresRight(n, w.cfg, t, w.store.tokens[t]) {
      assert TokenOk(w, t, w.store.tokens[t]) && ExpiresRight(h, w.cfg, t, w.store.tokens[t]);
    }
    assert forall i | 0 <= i < |w.answers| ::
      AnswerRight(h, w.cfg, w.answers[i]) ==> AnswerRight(n, w.cfg, w.answers[i]);
  }

  lemma MintRight(w: World, h: Chronicle, p: Pid, permitted: bool, clock: int, child: Token)
    requires Inv(w) && Right(w, h) && p in w.grants && w.grants[p].Holding?
    requires permitted ==> FromToken(child) !in w.uses
    ensures Right(AfterMint(w, p, permitted, clock, child), Noted(h, w, Mint(p, permitted, clock, child)))
  {
    var g, n := w.grants[p], Noted(h, w, Mint(p, permitted, clock, child));
    if permitted {
      MintNotedKeeps(w, h, child, clock);
      assert GrantRight(n, w.cfg, g);
      FrameRight(w, AfterMint(w, p, permitted, clock, child), n);
    } else {
      FrameRight(w, AfterMint(w, p, permitted, clock, child), n);
    }
  }

  lemma SaveRight(w: World, h: Chronicle, p: Pid)
    requires Right(w, h) && p in w.grants && w.grants[p].Saving?
    ensures Right(AfterSave(w, p), h)
  {
    var g, n := w.grants[p], AfterSave(w, p);
    assert GrantRight(h, w.cfg, g);
    forall t | t in n.store.tokens ensures ExpiresRight(h, n.cfg, t, n.store.tokens[t]) {
      assert t in w.store.tokens ==> ExpiresRight(h, w.cfg, t, w.store.tokens[t]);
    }
  }

  lemma RespondRight(w: World, h: Chronicle, p: Pid)
    requires Right(w, h) && p in w.grants && w.grants[p].Saved?
    ensures Right(AfterRespond(w, p), h)
  {
    assert GrantRight(h, w.cfg, w.grants[p]);
  }

  lemma RevokeRight(w: World, h: Chronicle, fs: set<FamilyId>, at: int)
    requires Right(w, h)
    ensures Right(AfterRevoke(w, fs, at), h)
  {
    FrameRight(w, AfterRevoke(w, fs, at), h);
  }

  lemma RevokeOwnRight(w: World, h: Chronicle, p: Pid)
    requires Right(w, h) && p in w.grants && w.grants[p].Revoking?
    ensures Right(AfterRevokeOwn(w, p), h)
  {
    var g := w.grants[p];
    RevokeRight(w, h, {g.family}, g.now);
    DropRight(w, h, p);
    if g.family in w.store.families {
      DropRight(AfterRevoke(w, {g.family}, g.now), h, p);
    }
  }

  lemma LookUpsRight(w: World, h: Chronicle, p: Pid)
    requires Right(w, h) && p in w.grants
    ensures w.grants[p].LookingUp? ==> Right(AfterLookUp(w, p), h)
    ensures w.grants[p].LookingUpCode? ==> Right(AfterLookUpCode(w, p), h)
  {
    DropRight(w, h, p);
    if w.grants[p].LookingUp? && w.grants[p].token in w.store.tokens {
      PutRight(w, h, p, Revoking(w.store.tokens[w.grants[p].token].family, w.grants[p].now));
    } else if w.grants[p].LookingUpCode? && w.grants[p].code in w.store.codes {
      PutRight(w, h, p, Revoking(w.store.codes[w.grants[p].code].family, w.grants[p].now));
    }
  }

  lemma RedeemRight(w: World, h: Chronicle, p: Pid, bound: bool, authTime: int)
    requires Right(w, h) && p in w.grants && w.grants[p].Redeeming?
    ensures Right(AfterConsumeCode(w, p, bound, authTime), h)
  {
    FrameRight(w, AfterConsumeCode(w, p, bound, authTime), h);
  }

  lemma OtherRight(w: World, h: Chronicle, a: Action)
    requires Right(w, h) && Enabled(w, a)
    requires a.IssueCode? || a.StartRefresh? || a.StartRedeem? || a.StartDevice? || a.Abandon? || a.Reap?
      || a.ReapCodes?
    ensures Right(Next(w, a), h)
  {
    FrameRight(w, Next(w, a), h);
  }

  lemma StepRight(w: World, h: Chronicle, a: Action)
    requires Inv(w) && Right(w, h) && Enabled(w, a)
    ensures Right(Next(w, a), Noted(h, w, a))
  {
    match a
    case Consume(p, policy) => ConsumeRight(w, h, p, policy);
    case LookUp(p) => LookUpsRight(w, h, p);
    case LookUpCode(p) => LookUpsRight(w, h, p);
    case ConsumeCode(p, bound, authTime) => RedeemRight(w, h, p, bound, authTime);
    case Mint(p, permitted, clock, child) => MintRight(w, h, p, permitted, clock, child);
    case Save(p) => SaveRight(w, h, p);
    case Respond(p) => RespondRight(w, h, p);
    case RevokeOwn(p) => RevokeOwnRight(w, h, p);
    case RevokeMany(fs, at) => RevokeRight(w, h, fs, at);
    case _ => OtherRight(w, h, a);
  }

  lemma {:induction false} RunRight(w: World, h: Chronicle, acts: seq<Action>)
    requires Inv(w) && Right(w, h) && IsRun(w, acts)
    ensures Right(Run(w, acts), Written(h, w, acts))
    decreases |acts|
  {
    if acts != [] {
      StepRight(w, h, acts[0]);
      StepKeeps(w, acts[0]);
      RunRight(Next(w, acts[0]), Noted(h, w, acts[0]), acts[1..]);
    }
  }

  /**
   In every run from an empty store: a token response paid for with a refresh
   token was asked for by that token's client, before the token's expiry and
   inside its session's lifetime, with connector and domain still allowed and
   a subject on record; and every stored token expires when it would have been
   idle too long or its session would have lasted too long, whichever is first.
   */
  lemma RefreshesAreAdmissible(w: World, acts: seq<Action>)
    requires Init(w) && IsRun(w, acts)
    ensures
      var v, h := Run(w, acts), Written(Chronicle(map[], map[]), w, acts);
      && (forall i | 0 <= i < |v.answers| && v.answers[i].Granted? && v.answers[i].cred.FromToken? ::
            WellTaken(h, v.cfg, v.answers[i].cred.token, v.answers[i].now, v.answers[i].family))
      && (forall t | t in v.store.tokens :: ExpiresRight(h, v.cfg, t, v.store.tokens[t]))
  {
    InitInv(w);
    RunRight(w, Chronicle(map[], map[]), acts);
    var v, h := Run(w, acts), Written(Chronicle(map[], map[]), w, acts);
    forall i | 0 <= i < |v.answers| && v.answers[i].Granted? && v.answers[i].cred.FromToken?
      ensures WellTaken(h, v.cfg, v.answers[i].cred.token, v.answers[i].now, v.answers[i].family)
    {
      assert AnswerRight(h, v.cfg, v.answers[i]);
    }
  }
}
