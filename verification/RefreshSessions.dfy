/**
 Refresh-token sessions as a state machine over the store's atomic methods.

 A request on /token is a `Grant` that moves through the statements of
 `oidc/token.go`; every store method is one step, which is the contract
 `state/doc.go` asks of a backend.  `RefreshTransactions` shows that the
 Postgres store, whose methods are several statements under READ COMMITTED,
 meets that contract.

 Random values (tokens, codes, family ids) are naturals drawn fresh.  Every
 clock reading is an arbitrary integer chosen by the step that reads it, so
 no claim below needs the replicas' clocks to agree or to run forwards.
 */
module RefreshSessions {
  import opened Wrappers

  type Token = nat
  type FamilyId = nat
  type Code = nat
  type ClientId = nat
  type Pid = nat

  datatype Identity = Identity(connector: string, subject: string, email: string)

  /** What a refresh token inherits from the sign-in that started its session. */
  datatype Lineage = Lineage(client: ClientId, identity: Identity, authTime: int)

  datatype Config = Config(idle: int, maxLife: int)

  datatype Row = Row(family: FamilyId, lineage: Lineage, consumedAt: Option<int>, revokedAt: Option<int>,
    expiresAt: int)

  datatype CodeRow = CodeRow(client: ClientId, identity: Identity, expiresAt: int, consumedAt: Option<int>,
    family: FamilyId)

  /** `families[f]` is the family's revoked_at. */
  datatype Store = Store(tokens: map<Token, Row>, families: map<FamilyId, Option<int>>, codes: map<Code, CodeRow>)

  /** The single-use credential a token response is paid for with. */
  datatype Cred = FromToken(token: Token) | FromCode(code: Code) | FromDevice(family: FamilyId)

  datatype Grant =
    | Presenting(token: Token, client: ClientId, now: int)
    | LookingUp(token: Token, client: ClientId, now: int)
    | Redeeming(code: Code, client: ClientId, now: int, family: FamilyId)
    | LookingUpCode(code: Code, now: int)
    | Holding(cred: Cred, now: int, family: FamilyId, lineage: Lineage)
    | Saving(cred: Cred, now: int, family: FamilyId, child: Token, row: Row)
    | Saved(cred: Cred, now: int, family: FamilyId, child: Token)
    | Revoking(family: FamilyId, now: int)

  datatype Answer =
    | Granted(pid: Pid, cred: Cred, now: int, family: FamilyId, child: Token)
    | SessionRevoked(pid: Pid, family: FamilyId)

  /** Who was last in a position to extend a family. */
  datatype Owner = ByToken(token: Token) | ByGrant(pid: Pid)

  /** How far a credential has got: being written, redeemable, consumed by a grant, answered. */
  datatype Use = Minting(pid: Pid) | Unused | InUse(pid: Pid) | Answered(index: nat)

  /**
   `store` and `grants` are the system; no step reads anything else.  The rest
   is history: each family's sign-in, a ledger of the family ids drawn and of
   the credentials created, the family each token was minted into, the families
   whose revocation committed, and the answers sent.
   */
  datatype World = World(
    cfg: Config,
    store: Store,
    grants: map<Pid, Grant>,
    signIns: map<FamilyId, Lineage>,
    owner: map<FamilyId, Owner>,
    uses: map<Cred, Use>,
    familyOf: map<Token, FamilyId>,
    ended: set<FamilyId>,
    answers: seq<Answer>)

  predicate Live(r: Row) {
    r.consumedAt.None? && r.revokedAt.None?
  }

  // ---------------------------------------------------------------------
  // What the grant decides on a row it has just consumed
  // ---------------------------------------------------------------------

  datatype Policy = Policy(connectorConfigured: bool, domainAllowed: bool)

  datatype Admission = Admitted | Refused | RefusedAndRevoke

  function Admit(row: Row, now: int, cfg: Config, policy: Policy): Admission {
    if now > row.expiresAt then Refused
    else if now >= row.lineage.authTime + cfg.maxLife then Refused
    else if row.lineage.identity.subject == "" then Refused
    else if !policy.connectorConfigured || !policy.domainAllowed then RefusedAndRevoke
    else Admitted
  }

  function ExpiryOf(cfg: Config, authTime: int, clock: int): int {
    if authTime + cfg.maxLife < clock + cfg.idle then authTime + cfg.maxLife else clock + cfg.idle
  }

  // ---------------------------------------------------------------------
  // Store methods, atomic
  // ---------------------------------------------------------------------

  function StampRevoked(r: Row, at: int): Row {
    if r.revokedAt.None? then r.(revokedAt := Some(at)) else r
  }

  function RevokeIn(s: Store, fs: set<FamilyId>, at: int): Store {
    s.(tokens := map t | t in s.tokens ::
      if s.tokens[t].family in fs then StampRevoked(s.tokens[t], at) else s.tokens[t],
       families := map f | f in s.families :: if f in fs && s.families[f].None? then Some(at) else s.families[f])
  }

  predicate DeadRow(r: Row, now: int, life: int) {
    || (life > 0 && r.lineage.authTime + life <= now)
    || ((r.consumedAt.Some? || r.revokedAt.Some?) && r.expiresAt < now)
  }

  /** The session has time left, and the row can still be consumed or tell a replay before it expires. */
  predicate Wanted(r: Row, now: int, life: int) {
    && (life > 0 ==> now < r.lineage.authTime + life)
    && ((r.consumedAt.None? && r.revokedAt.None?) || now <= r.expiresAt)
  }

  ghost predicate DeadFamily(s: Store, f: FamilyId, now: int, life: int) {
    forall t | t in s.tokens && s.tokens[t].family == f :: DeadRow(s.tokens[t], now, life)
  }

  function WithoutFamilies(s: Store, fs: set<FamilyId>): Store {
    s.(tokens := map t | t in s.tokens && s.tokens[t].family !in fs :: s.tokens[t],
       families := s.families - fs)
  }

  predicate Revoked(s: Store, f: FamilyId) {
    f in s.families && s.families[f].Some?
  }

  // ---------------------------------------------------------------------
  // Steps
  // ---------------------------------------------------------------------

  datatype Action =
    | IssueCode(code: Code, codeRow: CodeRow)
    | StartRefresh(pid: Pid, token: Token, client: ClientId, now: int)
    | Consume(pid: Pid, policy: Policy)
    | LookUp(pid: Pid)
    | StartRedeem(pid: Pid, code: Code, client: ClientId, now: int, family: FamilyId)
    | ConsumeCode(pid: Pid, bound: bool, authTime: int)
    | LookUpCode(pid: Pid)
    | StartDevice(pid: Pid, family: FamilyId, lineage: Lineage)
    | Mint(pid: Pid, permitted: bool, clock: int, child: Token)
    | Save(pid: Pid)
    | Respond(pid: Pid)
    | RevokeOwn(pid: Pid)
    | RevokeMany(families: set<FamilyId>, at: int)
    | Abandon(pid: Pid)
    | Reap(families: set<FamilyId>, now: int, life: int)
    | ReapCodes(codes: set<Code>, now: int)

  ghost predicate Enabled(w: World, a: Action) {
    match a
    case IssueCode(code, row) => FromCode(code) !in w.uses && row.consumedAt.None?
    case StartRefresh(p, _, _, _) => p !in w.grants
    case Consume(p, _) => p in w.grants && w.grants[p].Presenting?
    case LookUp(p) => p in w.grants && w.grants[p].LookingUp?
    case StartRedeem(p, _, _, _, f) => p !in w.grants && f !in w.owner
    case ConsumeCode(p, _, _) => p in w.grants && w.grants[p].Redeeming?
    case LookUpCode(p) => p in w.grants && w.grants[p].LookingUpCode?
    case StartDevice(p, f, _) => p !in w.grants && f !in w.owner
    case Mint(p, permitted, _, child) =>
      p in w.grants && w.grants[p].Holding? && (permitted ==> FromToken(child) !in w.uses)
    case Save(p) => p in w.grants && w.grants[p].Saving?
    case Respond(p) => p in w.grants && w.grants[p].Saved?
    case RevokeOwn(p) => p in w.grants && w.grants[p].Revoking?
    case RevokeMany(fs, _) => fs <= w.store.families.Keys
    case Abandon(p) => p in w.grants
    case Reap(fs, now, life) => fs <= w.store.families.Keys && forall f | f in fs :: DeadFamily(w.store, f, now, life)
    case ReapCodes(cs, now) => cs <= w.store.codes.Keys && forall c | c in cs :: w.store.codes[c].expiresAt < now
  }

  function Put(w: World, p: Pid, g: Grant): World {
    w.(grants := w.grants[p := g])
  }

  function Drop(w: World, p: Pid): World {
    w.(grants := w.grants - {p})
  }

  /** The conditional UPDATE of ConsumeRefresh, which names the client: the row it would stamp. */
  predicate Consumable(s: Store, token: Token, client: ClientId) {
    token in s.tokens && s.tokens[token].lineage.client == client && Live(s.tokens[token])
  }

  function StampConsumed(w: World, p: Pid, token: Token, at: int): World
    requires token in w.store.tokens
  {
    var row := w.store.tokens[token].(consumedAt := Some(at));
    w.(store := w.store.(tokens := w.store.tokens[token := row]),
       owner := w.owner[row.family := ByGrant(p)], uses := w.uses[FromToken(token) := InUse(p)])
  }

  function AfterConsume(w: World, p: Pid, policy: Policy): World
    requires p in w.grants && w.grants[p].Presenting?
  {
    var g := w.grants[p];
    if Consumable(w.store, g.token, g.client) then
      var row := w.store.tokens[g.token];
      var v := StampConsumed(w, p, g.token, g.now);
      match Admit(row, g.now, w.cfg, policy)
      case Admitted => Put(v, p, Holding(FromToken(g.token), g.now, row.family, row.lineage))
      case Refused => Drop(v, p)
      case RefusedAndRevoke => Put(v, p, Revoking(row.family, g.now))
    else
      Put(w, p, LookingUp(g.token, g.client, g.now))
  }

  function AfterLookUp(w: World, p: Pid): World
    requires p in w.grants && w.grants[p].LookingUp?
  {
    var g := w.grants[p];
    var tokens := w.store.tokens;
    if g.token in tokens && tokens[g.token].lineage.client == g.client && tokens[g.token].consumedAt.Some? then
      Put(w, p, Revoking(tokens[g.token].family, g.now))
    else
      Drop(w, p)
  }

  function StampRedeemed(w: World, p: Pid, code: Code, family: FamilyId, at: int): World
    requires code in w.store.codes
  {
    var row := w.store.codes[code].(consumedAt := Some(at), family := family);
    w.(store := w.store.(codes := w.store.codes[code := row]), uses := w.uses[FromCode(code) := InUse(p)])
  }

  function AfterConsumeCode(w: World, p: Pid, bound: bool, authTime: int): World
    requires p in w.grants && w.grants[p].Redeeming?
  {
    var g := w.grants[p];
    if g.code in w.store.codes && w.store.codes[g.code].consumedAt.None? then
      var row := w.store.codes[g.code];
      var v := StampRedeemed(w, p, g.code, g.family, g.now);
      if g.now > row.expiresAt || row.identity.subject == "" || g.client != row.client || !bound then
        Drop(v, p)
      else
        var lineage := Lineage(row.client, row.identity, authTime);
        Put(v.(signIns := v.signIns[g.family := lineage]), p, Holding(FromCode(g.code), g.now, g.family, lineage))
    else
      Put(w, p, LookingUpCode(g.code, g.now))
  }

  function AfterLookUpCode(w: World, p: Pid): World
    requires p in w.grants && w.grants[p].LookingUpCode?
  {
    var g := w.grants[p];
    var codes := w.store.codes;
    if g.code in codes && codes[g.code].consumedAt.Some? then
      Put(w, p, Revoking(codes[g.code].family, g.now))
    else
      Drop(w, p)
  }

  function Draw(w: World, p: Pid, f: FamilyId, lineage: Lineage): World {
    w.(owner := w.owner[f := ByGrant(p)], uses := w.uses[FromDevice(f) := InUse(p)], signIns := w.signIns[f := lineage])
  }

  function AfterStartDevice(w: World, p: Pid, f: FamilyId, lineage: Lineage): World {
    Put(Draw(w, p, f, lineage), p, Holding(FromDevice(f), lineage.authTime, f, lineage))
  }

  function AfterMint(w: World, p: Pid, permitted: bool, clock: int, child: Token): World
    requires p in w.grants && w.grants[p].Holding?
  {
    var g := w.grants[p];
    if permitted then
      var row := Row(g.family, g.lineage, None, None, ExpiryOf(w.cfg, g.lineage.authTime, clock));
      Put(w.(uses := w.uses[FromToken(child) := Minting(p)], familyOf := w.familyOf[child := g.family]), p,
        Saving(g.cred, g.now, g.family, child, row))
    else if g.cred.FromToken? then
      Put(w, p, Revoking(g.family, g.now))
    else
      Drop(w, p)
  }

  function AfterSave(w: World, p: Pid): World
    requires p in w.grants && w.grants[p].Saving?
  {
    var g := w.grants[p];
    if Revoked(w.store, g.family) then
      Drop(w, p)
    else
      var families := if g.family in w.store.families then w.store.families else w.store.families[g.family := None];
      Put(w.(store := w.store.(tokens := w.store.tokens[g.child := g.row], families := families),
             owner := w.owner[g.family := ByToken(g.child)], uses := w.uses[FromToken(g.child) := Unused]),
          p, Saved(g.cred, g.now, g.family, g.child))
  }

  function AfterRespond(w: World, p: Pid): World
    requires p in w.grants && w.grants[p].Saved?
  {
    var g := w.grants[p];
    Drop(w.(answers := w.answers + [Granted(p, g.cred, g.now, g.family, g.child)],
            uses := w.uses[g.cred := Answered(|w.answers|)]), p)
  }

  function AfterRevoke(w: World, fs: set<FamilyId>, at: int): World {
    w.(store := RevokeIn(w.store, fs, at), ended := w.ended + fs)
  }

  function AfterRevokeOwn(w: World, p: Pid): World
    requires p in w.grants && w.grants[p].Revoking?
  {
    var g := w.grants[p];
    if g.family in w.store.families then
      Drop(AfterRevoke(w, {g.family}, g.now).(answers := w.answers + [SessionRevoked(p, g.family)]), p)
    else
      Drop(w, p)
  }

  ghost function Next(w: World, a: Action): World
    requires Enabled(w, a)
  {
    match a
    case IssueCode(code, row) =>
      w.(store := w.store.(codes := w.store.codes[code := row]), uses := w.uses[FromCode(code) := Unused])
    case StartRefresh(p, token, client, now) => Put(w, p, Presenting(token, client, now))
    case Consume(p, policy) => AfterConsume(w, p, policy)
    case LookUp(p) => AfterLookUp(w, p)
    case StartRedeem(p, code, client, now, f) =>
      Put(w.(owner := w.owner[f := ByGrant(p)]), p, Redeeming(code, client, now, f))
    case ConsumeCode(p, bound, authTime) => AfterConsumeCode(w, p, bound, authTime)
    case LookUpCode(p) => AfterLookUpCode(w, p)
    case StartDevice(p, f, lineage) => AfterStartDevice(w, p, f, lineage)
    case Mint(p, permitted, clock, child) => AfterMint(w, p, permitted, clock, child)
    case Save(p) => AfterSave(w, p)
    case Respond(p) => AfterRespond(w, p)
    case RevokeOwn(p) => AfterRevokeOwn(w, p)
    case RevokeMany(fs, at) => AfterRevoke(w, fs, at)
    case Abandon(p) => Drop(w, p)
    case Reap(fs, _, _) => w.(store := WithoutFamilies(w.store, fs))
    case ReapCodes(cs, _) => w.(store := w.store.(codes := w.store.codes - cs))
  }

  // ---------------------------------------------------------------------
  // Runs
  // ---------------------------------------------------------------------

  predicate Holds(g: Grant, f: FamilyId) {
    (g.Holding? || g.Saving?) && g.family == f
  }

  /** No grant sits between its consume and its save on a family being reaped. */
  ghost predicate Quiet(w: World, fs: set<FamilyId>) {
    forall p | p in w.grants :: (w.grants[p].Holding? || w.grants[p].Saving?) ==> w.grants[p].family !in fs
  }

  ghost predicate Guarded(w: World, a: Action) {
    Enabled(w, a) && (a.Reap? ==> Quiet(w, a.families))
  }

  ghost predicate IsRun(w: World, acts: seq<Action>)
    decreases |acts|
  {
    acts == [] || (Guarded(w, acts[0]) && IsRun(Next(w, acts[0]), acts[1..]))
  }

  ghost function Run(w: World, acts: seq<Action>): World
    requires IsRun(w, acts)
    decreases |acts|
  {
    if acts == [] then w else Run(Next(w, acts[0]), acts[1..])
  }

  ghost predicate Init(w: World) {
    && w.store == Store(map[], map[], map[])
    && w.grants == map[] && w.signIns == map[] && w.owner == map[] && w.uses == map[] && w.familyOf == map[]
    && w.ended == {} && w.answers == []
  }
}
