/**
 The Postgres refresh-token tables as an object, each store method one atomic
 change to them.  The contracts are the functions the session machine steps by,
 so what is proved of every run holds of these methods.
 */
module RefreshStore {
  import opened RefreshInvariants
  import opened RefreshSessions
  import opened Sets
  import opened Wrappers

  datatype SaveResult = SaveOk | FamilyRevoked | DuplicateToken

  datatype ConsumeResult = Consumed(row: Row) | Reused(row: Row) | NotFound

  datatype RedeemResult = Redeemed(codeRow: CodeRow) | CodeReused(codeRow: CodeRow) | CodeNotFound

  /** Every token has its family row and every family row a token. */
  predicate Populated(s: Store) {
    && (forall t | t in s.tokens :: s.tokens[t].family in s.families)
    && (forall f | f in s.families :: exists t :: t in s.tokens && s.tokens[t].family == f)
  }

  ghost function LiveTokens(s: Store, f: FamilyId): set<Token> {
    set t | t in s.tokens && s.tokens[t].family == f && Live(s.tokens[t])
  }

  ghost function DeadFamilies(s: Store, now: int, life: int): set<FamilyId> {
    set f | f in s.families && DeadFamily(s, f, now, life)
  }

  // ---------------------------------------------------------------------
  // A batch at a time
  // ---------------------------------------------------------------------

  lemma SweptStaysPopulated(s: Store, fs: set<FamilyId>)
    requires Populated(s)
    ensures Populated(WithoutFamilies(s, fs))
  {
    var r := WithoutFamilies(s, fs);
    forall f | f in r.families ensures exists t :: t in r.tokens && r.tokens[t].family == f {
      var t :| t in s.tokens && s.tokens[t].family == f;
      assert t in r.tokens;
    }
  }

  lemma SavedStaysPopulated(s: Store, t: Token, r: Row, families: map<FamilyId, Option<int>>)
    requires Populated(s) && t !in s.tokens && families.Keys == s.families.Keys + {r.family}
    ensures Populated(s.(tokens := s.tokens[t := r], families := families))
  {
    var n := s.(tokens := s.tokens[t := r], families := families);
    assert n.tokens[t].family == r.family;
    forall f | f in n.families ensures exists u :: u in n.tokens && n.tokens[u].family == f {
      if f in s.families {
        var u :| u in s.tokens && s.tokens[u].family == f;
        assert u in n.tokens && n.tokens[u].family == f;
      }
    }
  }

  /** Revoking deletes nothing; that and SavedStaysPopulated keep the sweep's assumption below. */
  lemma RevokedStaysPopulated(s: Store, fs: set<FamilyId>, at: int)
    requires Populated(s)
    ensures Populated(RevokeIn(s, fs, at))
  {
    var n := RevokeIn(s, fs, at);
    forall f | f in n.families ensures exists t :: t in n.tokens && n.tokens[t].family == f {
      var t :| t in s.tokens && s.tokens[t].family == f;
      assert t in n.tokens && n.tokens[t].family == f;
    }
  }

  lemma ConsumedStaysPopulated(s: Store, t: Token, at: int)
    requires Populated(s) && t in s.tokens
    ensures Populated(s.(tokens := s.tokens[t := s.tokens[t].(consumedAt := Some(at))]))
  {
    var n := s.(tokens := s.tokens[t := s.tokens[t].(consumedAt := Some(at))]);
    forall f | f in n.families ensures exists u :: u in n.tokens && n.tokens[u].family == f {
      var u :| u in s.tokens && s.tokens[u].family == f;
      assert u in n.tokens && n.tokens[u].family == f;
    }
  }

  lemma SaveStepStaysPopulated(w: World, p: Pid)
    requires Inv(w) && p in w.grants && w.grants[p].Saving? && Populated(w.store)
    ensures Populated(AfterSave(w, p).store)
  {
    var g := w.grants[p];
    assert GrantOk(w, p, g);
    if !Revoked(w.store, g.family) {
      assert g.child in w.store.tokens ==> TokenOk(w, g.child, w.store.tokens[g.child]);
      SavedStaysPopulated(w.store, g.child, g.row, AfterSave(w, p).store.families);
    }
  }

  lemma ConsumeStepStaysPopulated(w: World, p: Pid, policy: Policy)
    requires p in w.grants && w.grants[p].Presenting? && Populated(w.store)
    ensures Populated(AfterConsume(w, p, policy).store)
  {
    var g := w.grants[p];
    if Consumable(w.store, g.token, g.client) {
      ConsumedStaysPopulated(w.store, g.token, g.now);
    }
  }

  lemma StepStaysPopulated(w: World, a: Action)
    requires Inv(w) && Enabled(w, a) && Populated(w.store)
    ensures Populated(Next(w, a).store)
  {
    match a
    case Consume(p, policy) => ConsumeStepStaysPopulated(w, p, policy);
    case Save(p) => SaveStepStaysPopulated(w, p);
    case RevokeOwn(p) => RevokedStaysPopulated(w.store, {w.grants[p].family}, w.grants[p].now);
    case RevokeMany(fs, at) => RevokedStaysPopulated(w.store, fs, at);
    case Reap(fs, _, _) => SweptStaysPopulated(w.store, fs);
    case _ =>
  }

  /** In every state reachable from an empty store each token has its family's row and each family a token. */
  lemma {:induction false} StoreStaysPopulated(w: World, acts: seq<Action>)
    requires Inv(w) && Populated(w.store) && IsRun(w, acts)
    ensures Populated(Run(w, acts).store)
    decreases |acts|
  {
    if acts != [] {
      StepStaysPopulated(w, acts[0]);
      StepKeeps(w, acts[0]);
      StoreStaysPopulated(Next(w, acts[0]), acts[1..]);
    }
  }

  lemma BatchesCompose(s: Store, fs: set<FamilyId>, gs: set<FamilyId>)
    ensures WithoutFamilies(WithoutFamilies(s, fs), gs) == WithoutFamilies(s, fs + gs)
  {}

  lemma DeadAfterBatch(s: Store, fs: set<FamilyId>, now: int, life: int)
    ensures DeadFamilies(WithoutFamilies(s, fs), now, life) == DeadFamilies(s, now, life) - fs
  {
    var r := WithoutFamilies(s, fs);
    forall f | f in r.families ensures DeadFamily(r, f, now, life) <==> DeadFamily(s, f, now, life) {
      assert forall t | t in s.tokens && s.tokens[t].family == f :: t in r.tokens;
    }
  }

  ghost function TokensOf(s: Store, fs: set<FamilyId>): set<Token> {
    set t | t in s.tokens && s.tokens[t].family in fs
  }

  lemma TokensLeft(s: Store, fs: set<FamilyId>)
    ensures |WithoutFamilies(s, fs).tokens| + |TokensOf(s, fs)| == |s.tokens|
  {
    var left := WithoutFamilies(s, fs).tokens;
    assert s.tokens.Keys == left.Keys + TokensOf(s, fs);
    assert |left.Keys| == |left| && |s.tokens.Keys| == |s.tokens|;
  }

  /** One token per family is enough to make the rows deleted outnumber the families deleted. */
  lemma {:induction false} FamiliesDeletedAtMostTokens(s: Store, fs: set<FamilyId>)
    requires Populated(s) && fs <= s.families.Keys
    ensures |fs| <= |TokensOf(s, fs)|
    decreases |fs|
  {
    if f :| f in fs {
      var rest := fs - {f};
      FamiliesDeletedAtMostTokens(s, rest);
      var t :| t in s.tokens && s.tokens[t].family == f;
      assert TokensOf(s, rest) + {t} <= TokensOf(s, fs) && t !in TokensOf(s, rest);
      SubsetIsSmaller(TokensOf(s, rest) + {t}, TokensOf(s, fs));
    }
  }

  // ---------------------------------------------------------------------
  // What a sweep may take, by what the rows say
  // ---------------------------------------------------------------------

  predicate HasWanted(s: Store, f: FamilyId, now: int, life: int) {
    exists t :: t in s.tokens && s.tokens[t].family == f && Wanted(s.tokens[t], now, life)
  }

  lemma DeadIsUnwanted(s: Store, f: FamilyId, now: int, life: int)
    ensures DeadFamily(s, f, now, life) <==> !HasWanted(s, f, now, life)
  {
    if DeadFamily(s, f, now, life) {
    } else {
      var t :| t in s.tokens && s.tokens[t].family == f && !DeadRow(s.tokens[t], now, life);
      assert Wanted(s.tokens[t], now, life);
    }
  }

  /** s is `was` less whole families, none with a row anyone could want. */
  ghost predicate Pruned(was: Store, s: Store, now: int, life: int) {
    && s.codes == was.codes && s.tokens.Keys <= was.tokens.Keys && s.families.Keys <= was.families.Keys
    && (forall t | t in s.tokens :: s.tokens[t] == was.tokens[t])
    && (forall f | f in s.families :: s.families[f] == was.families[f])
    && (forall t | t in was.tokens && t !in s.tokens ::
          was.tokens[t].family !in s.families && !HasWanted(was, was.tokens[t].family, now, life))
    && (forall f | f in was.families && f !in s.families :: !HasWanted(was, f, now, life))
  }

  lemma SweepPrunes(s: Store, fs: set<FamilyId>, now: int, life: int)
    requires fs <= DeadFamilies(s, now, life)
    ensures Pruned(s, WithoutFamilies(s, fs), now, life)
  {
    forall f | f in fs ensures !HasWanted(s, f, now, life) { DeadIsUnwanted(s, f, now, life); }
  }

  lemma SweepLeavesWanted(s: Store, now: int, life: int)
    ensures forall f | f in WithoutFamilies(s, DeadFamilies(s, now, life)).families ::
              HasWanted(WithoutFamilies(s, DeadFamilies(s, now, life)), f, now, life)
  {
    var n := WithoutFamilies(s, DeadFamilies(s, now, life));
    forall f | f in n.families ensures HasWanted(n, f, now, life) {
      DeadIsUnwanted(s, f, now, life);
      var t :| t in s.tokens && s.tokens[t].family == f && Wanted(s.tokens[t], now, life);
      assert t in n.tokens;
    }
  }

  // ---------------------------------------------------------------------
  // When the batch loop completes the sweep
  // ---------------------------------------------------------------------

  /** What one batch may pick: dead families, no more than its limit, and all of them if fewer. */
  ghost predicate IsPick(s: Store, fs: set<FamilyId>, now: int, life: int, batch: nat) {
    fs <= DeadFamilies(s, now, life) && |fs| <= batch && (|fs| < batch ==> fs == DeadFamilies(s, now, life))
  }

  function Union(picks: seq<set<FamilyId>>): set<FamilyId> {
    if picks == [] then {} else Union(picks[..|picks| - 1]) + picks[|picks| - 1]
  }

  /** Batches so far, each of which deleted at least the limit's number of rows, so that the loop goes on. */
  ghost predicate GoesOn(s: Store, picks: seq<set<FamilyId>>, now: int, life: int, batch: nat) {
    picks == [] ||
      var before := WithoutFamilies(s, Union(picks[..|picks| - 1]));
      var last := picks[|picks| - 1];
      && GoesOn(s, picks[..|picks| - 1], now, life, batch)
      && IsPick(before, last, now, life, batch) && batch <= |TokensOf(before, last)|
  }

  /** A whole run of the loop: the last batch deleted fewer rows than the limit. */
  ghost predicate IsSweep(s: Store, picks: seq<set<FamilyId>>, now: int, life: int, batch: nat) {
    picks != [] &&
      var before := WithoutFamilies(s, Union(picks[..|picks| - 1]));
      var last := picks[|picks| - 1];
      && GoesOn(s, picks[..|picks| - 1], now, life, batch)
      && IsPick(before, last, now, life, batch) && |TokensOf(before, last)| < batch
  }

  ghost predicate AlwaysCompletes(s: Store, now: int, life: int, batch: nat) {
    forall picks | IsSweep(s, picks, now, life, batch) :: Union(picks) == DeadFamilies(s, now, life)
  }

  /** A full batch of dead families, not all there are, with too few rows among them. */
  ghost predicate Stalls(s: Store, fs: set<FamilyId>, now: int, life: int, batch: nat) {
    fs < DeadFamilies(s, now, life) && |fs| == batch && |TokensOf(s, fs)| < batch
  }

  lemma {:induction false} PicksAreDead(s: Store, picks: seq<set<FamilyId>>, now: int, life: int, batch: nat)
    requires GoesOn(s, picks, now, life, batch)
    ensures Union(picks) <= DeadFamilies(s, now, life)
    decreases |picks|
  {
    if picks != [] {
      var init := picks[..|picks| - 1];
      PicksAreDead(s, init, now, life, batch);
      DeadAfterBatch(s, Union(init), now, life);
    }
  }

  lemma SweepTakesTheDead(s: Store, picks: seq<set<FamilyId>>, now: int, life: int, batch: nat)
    requires IsSweep(s, picks, now, life, batch)
    ensures Union(picks) <= DeadFamilies(s, now, life)
  {
    var init := picks[..|picks| - 1];
    PicksAreDead(s, init, now, life, batch);
    DeadAfterBatch(s, Union(init), now, life);
  }

  lemma SameTokens(s: Store, gone: set<FamilyId>, fs: set<FamilyId>)
    requires gone !! fs
    ensures TokensOf(WithoutFamilies(s, gone), fs) == TokensOf(s, fs)
  {}

  lemma LastPickCompletes(s: Store, picks: seq<set<FamilyId>>, now: int, life: int, batch: nat)
    requires IsSweep(s, picks, now, life, batch) && forall fs :: !Stalls(s, fs, now, life, batch)
    ensures Union(picks) == DeadFamilies(s, now, life)
  {
    var gone, last := Union(picks[..|picks| - 1]), picks[|picks| - 1];
    PicksAreDead(s, picks[..|picks| - 1], now, life, batch);
    DeadAfterBatch(s, gone, now, life);
    SameTokens(s, gone, last);
    assert !Stalls(s, last, now, life, batch);
  }

  /** One more batch, which is the last if it deleted too few rows. */
  lemma OneMoreBatch(s: Store, picks: seq<set<FamilyId>>, last: set<FamilyId>, now: int, life: int, batch: nat)
    requires GoesOn(s, picks, now, life, batch) && IsPick(WithoutFamilies(s, Union(picks)), last, now, life, batch)
    ensures Union(picks + [last]) == Union(picks) + last
    ensures if batch <= |TokensOf(WithoutFamilies(s, Union(picks)), last)|
            then GoesOn(s, picks + [last], now, life, batch) else IsSweep(s, picks + [last], now, life, batch)
  {
    assert (picks + [last])[..|picks|] == picks;
  }

  lemma StallBreaksOff(s: Store, fs: set<FamilyId>, now: int, life: int, batch: nat)
    requires 0 < batch && Stalls(s, fs, now, life, batch)
    ensures !AlwaysCompletes(s, now, life, batch)
  {
    var none: seq<set<FamilyId>> := [];
    assert WithoutFamilies(s, Union(none)) == s;
    OneMoreBatch(s, none, fs, now, life, batch);
    assert IsSweep(s, none + [fs], now, life, batch) && Union(none + [fs]) == fs;
  }

  /**
   The loop is sure to delete every dead family, whichever the database picks
   for each batch, if and only if no full batch of them, short of all, has
   fewer rows than the limit.
   */
  lemma SweepCompletesIff(s: Store, now: int, life: int, batch: nat)
    requires 0 < batch
    ensures AlwaysCompletes(s, now, life, batch) <==> forall fs :: !Stalls(s, fs, now, life, batch)
  {
    if fs :| Stalls(s, fs, now, life, batch) {
      StallBreaksOff(s, fs, now, life, batch);
    } else {
      forall picks | IsSweep(s, picks, now, life, batch) ensures Union(picks) == DeadFamilies(s, now, life) {
        LastPickCompletes(s, picks, now, life, batch);
      }
    }
  }

  /** With a token in every family it never stalls. */
  lemma PopulatedSweepsComplete(s: Store, now: int, life: int, batch: nat)
    requires Populated(s) && 0 < batch
    ensures AlwaysCompletes(s, now, life, batch)
  {
    forall fs ensures !Stalls(s, fs, now, life, batch) {
      if fs <= DeadFamilies(s, now, life) { FamiliesDeletedAtMostTokens(s, fs); }
    }
    SweepCompletesIff(s, now, life, batch);
  }

  /** One dead family without a token and another dead one would do to stop a loop with batches of one. */
  lemma EmptyFamilyStopsTheSweep(s: Store, f: FamilyId, g: FamilyId, now: int, life: int)
    requires f != g && f in DeadFamilies(s, now, life) && g in DeadFamilies(s, now, life) && TokensOf(s, {f}) == {}
    ensures !AlwaysCompletes(s, now, life, 1)
  {
    assert Stalls(s, {f}, now, life, 1);
    SweepCompletesIff(s, now, life, 1);
  }

  /** n is s with f and all its tokens revoked, at `at` unless they already were. */
  ghost predicate OnlyRevokes(s: Store, n: Store, f: FamilyId, at: int) {
    && n.codes == s.codes && n.tokens.Keys == s.tokens.Keys && n.families.Keys == s.families.Keys
    && (forall t | t in s.tokens :: n.tokens[t].(revokedAt := None) == s.tokens[t].(revokedAt := None))
    && (forall t | t in s.tokens && (s.tokens[t].family != f || s.tokens[t].revokedAt.Some?) ::
          n.tokens[t].revokedAt == s.tokens[t].revokedAt)
    && (forall t | t in s.tokens && s.tokens[t].family == f && s.tokens[t].revokedAt.None? ::
          n.tokens[t].revokedAt == Some(at))
    && (forall h | h in s.families && (h != f || s.families[h].Some?) :: n.families[h] == s.families[h])
    && (f in s.families && s.families[f].None? ==> n.families[f] == Some(at))
  }

  lemma RevokeInOnlyRevokes(s: Store, f: FamilyId, at: int)
    ensures OnlyRevokes(s, RevokeIn(s, {f}, at), f, at)
  {}

  class Tables {
    var tokens: map<Token, Row>
    var families: map<FamilyId, Option<int>>
    var codes: map<Code, CodeRow>

    function State(): Store
      reads this
    {
      Store(tokens, families, codes)
    }

    constructor ()
      ensures State() == Store(map[], map[], map[]) && Populated(State())
    {
      tokens, families, codes := map[], map[], map[];
    }

    method SaveRefresh(t: Token, r: Row) returns (res: SaveResult)
      modifies this
      ensures codes == old(codes) && (Populated(old(State())) ==> Populated(State()))
      ensures res.FamilyRevoked? <==> Revoked(old(State()), r.family)
      ensures res.DuplicateToken? <==> !Revoked(old(State()), r.family) && t in old(tokens)
      ensures !res.SaveOk? ==> State() == old(State())
      ensures res.SaveOk? ==>
        && tokens == old(tokens)[t := r]
        && families.Keys == old(families).Keys + {r.family} && !Revoked(State(), r.family)
      ensures forall f | f in old(families) :: f in families && families[f] == old(families)[f]
    {
      if r.family in families && families[r.family].Some? {
        return FamilyRevoked;
      }
      if t in tokens {
        return DuplicateToken;
      }
      if r.family !in families {
        families := families[r.family := None];
      }
      if Populated(old(State())) { SavedStaysPopulated(old(State()), t, r, families); }
      tokens := tokens[t := r];
      res := SaveOk;
    }

    method ConsumeRefresh(t: Token, client: ClientId, at: int) returns (res: ConsumeResult)
      modifies this
      ensures families == old(families) && codes == old(codes)
      ensures res.Consumed? <==> Consumable(old(State()), t, client)
      ensures res.Reused? <==>
        t in old(tokens) && old(tokens)[t].lineage.client == client && old(tokens)[t].consumedAt.Some?
      ensures res.Consumed? ==>
        res.row == old(tokens)[t] && tokens == old(tokens)[t := old(tokens)[t].(consumedAt := Some(at))]
      ensures !Consumable(State(), t, client)
      ensures res.Reused? ==> res.row == old(tokens)[t]
      ensures !res.Consumed? ==> tokens == old(tokens)
      ensures Populated(old(State())) ==> Populated(State())
    {
      if t in tokens && tokens[t].lineage.client == client {
        var r := tokens[t];
        if r.consumedAt.None? && r.revokedAt.None? {
          if Populated(State()) { ConsumedStaysPopulated(State(), t, at); }
          tokens := tokens[t := r.(consumedAt := Some(at))];
          return Consumed(r);
        }
        if r.consumedAt.Some? {
          return Reused(r);
        }
      }
      res := NotFound;
    }

    method RevokeRefreshFamily(f: FamilyId, at: int) returns (live: Option<nat>)
      modifies this
      ensures live.None? <==> f !in old(families)
      ensures live.None? ==> State() == old(State())
      ensures live.Some? ==> State() == RevokeIn(old(State()), {f}, at) && live.value == |LiveTokens(old(State()), f)|
      ensures live.Some? ==> OnlyRevokes(old(State()), State(), f, at)
      ensures Populated(old(State())) ==> Populated(State())
    {
      if f !in families {
        return None;
      }
      ghost var was := State();
      var ended := RevokeRows(f, at);
      if Populated(was) { RevokedStaysPopulated(was, {f}, at); }
      RevokeInOnlyRevokes(was, f, at);
      live := Some(ended);
    }

    /** Stamps the family's row and then its tokens, and counts those it ended. */
    method RevokeRows(f: FamilyId, at: int) returns (live: nat)
      requires f in families
      modifies this
      ensures State() == RevokeIn(old(State()), {f}, at) && live == |LiveTokens(old(State()), f)|
    {
      ghost var was := State();
      var ended := set t | t in tokens && tokens[t].family == f && tokens[t].consumedAt.None?
        && tokens[t].revokedAt.None?;
      var stamped := map t | t in tokens :: if tokens[t].family == f then StampRevoked(tokens[t], at) else tokens[t];
      assert stamped == RevokeIn(was, {f}, at).tokens;
      var marked := if families[f].None? then families[f := Some(at)] else families;
      assert marked == RevokeIn(was, {f}, at).families;
      assert ended == LiveTokens(was, f);
      tokens, families := stamped, marked;
      live := |ended|;
    }

    method ConsumeAuthCode(c: Code, f: FamilyId, at: int) returns (res: RedeemResult)
      modifies this
      ensures tokens == old(tokens) && families == old(families)
      ensures res.CodeNotFound? <==> c !in old(codes)
      ensures res.Redeemed? <==> c in old(codes) && old(codes)[c].consumedAt.None?
      ensures res.Redeemed? ==>
        codes == old(codes)[c := res.codeRow] && res.codeRow == old(codes)[c].(consumedAt := Some(at), family := f)
      ensures !res.Redeemed? ==> codes == old(codes)
      ensures res.CodeReused? ==> res.codeRow == codes[c]
      ensures Populated(old(State())) ==> Populated(State())
    {
      if c !in codes {
        return CodeNotFound;
      }
      var r := codes[c];
      if r.consumedAt.Some? {
        return CodeReused(r);
      }
      r := r.(consumedAt := Some(at), family := f);
      codes := codes[c := r];
      res := Redeemed(r);
    }

    /** The rows one batch picks: at most `batch` dead families, whichever the database finds first. */
    method PickDead(now: int, life: int, batch: nat) returns (picked: set<FamilyId>)
      ensures IsPick(State(), picked, now, life, batch)
      ensures forall f | f in picked :: f in families && !HasWanted(State(), f, now, life)
      ensures |picked| < batch ==> forall f | f in families && f !in picked :: HasWanted(State(), f, now, life)
    {
      picked := {};
      var todo := families.Keys;
      ghost var dead := DeadFamilies(State(), now, life);
      while todo != {} && |picked| < batch
        invariant picked <= dead <= picked + todo && |picked| <= batch && todo <= families.Keys
        invariant picked !! todo
        decreases todo
      {
        var f :| f in todo;
        todo := todo - {f};
        if forall t | t in tokens :: tokens[t].family == f ==> DeadRow(tokens[t], now, life) {
          assert DeadFamily(State(), f, now, life);
          picked := picked + {f};
        } else {
          assert !DeadFamily(State(), f, now, life);
        }
      }
      forall f ensures DeadFamily(State(), f, now, life) <==> !HasWanted(State(), f, now, life) {
        DeadIsUnwanted(State(), f, now, life);
      }
    }

    method DeleteBatch(now: int, life: int, batch: nat) returns (deleted: nat, ghost picked: set<FamilyId>)
      modifies this
      ensures IsPick(old(State()), picked, now, life, batch) && State() == WithoutFamilies(old(State()), picked)
      ensures deleted == |TokensOf(old(State()), picked)| == |old(tokens)| - |tokens|
    {
      var fs := PickDead(now, life, batch);
      TokensLeft(State(), fs);
      var kept := map t | t in tokens && tokens[t].family !in fs :: tokens[t];
      deleted := |tokens| - |kept|;
      tokens, families := kept, families - fs;
      picked := fs;
    }

    /** Batches run until one deletes fewer rows than the batch size. */
    method DeleteBatches(now: int, life: int, batch: nat) returns (deleted: nat, ghost picks: seq<set<FamilyId>>)
      requires 0 < batch
      modifies this
      ensures IsSweep(old(State()), picks, now, life, batch) && State() == WithoutFamilies(old(State()), Union(picks))
      ensures deleted == |old(tokens)| - |tokens|
    {
      ghost var was := State();
      deleted, picks := 0, [];
      var more := true;
      assert was == WithoutFamilies(was, {});
      while more
        invariant State() == WithoutFamilies(was, Union(picks)) && deleted == |was.tokens| - |tokens|
        invariant if more then GoesOn(was, picks, now, life, batch) else IsSweep(was, picks, now, life, batch)
        decreases more, |tokens|
      {
        var n, picked := DeleteBatch(now, life, batch);
        BatchesCompose(was, Union(picks), picked);
        OneMoreBatch(was, picks, picked, now, life, batch);
        picks := picks + [picked];
        deleted := deleted + n;
        more := n >= batch;
      }
    }

    /**
     The limit counts families and the comparison tokens, so the loop is sure
     to be complete when every family has a token.
     */
    method ReapRefreshFamilies(now: int, life: int, batch: nat) returns (deleted: nat, ghost picks: seq<set<FamilyId>>)
      requires 0 < batch
      modifies this
      ensures IsSweep(old(State()), picks, now, life, batch) && State() == WithoutFamilies(old(State()), Union(picks))
      ensures deleted == |old(tokens)| - |tokens|
      ensures Pruned(old(State()), State(), now, life)
      ensures Populated(old(State())) ==>
        State() == WithoutFamilies(old(State()), DeadFamilies(old(State()), now, life)) && Populated(State())
      ensures Populated(old(State())) ==> forall f | f in families :: HasWanted(State(), f, now, life)
    {
      ghost var was := State();
      deleted, picks := DeleteBatches(now, life, batch);
      SweepTakesTheDead(was, picks, now, life, batch);
      SweepPrunes(was, Union(picks), now, life);
      if Populated(was) {
        SweepLeavesWanted(was, now, life);
        PopulatedSweepsComplete(was, now, life, batch);
        SweptStaysPopulated(was, Union(picks));
      }
    }
  }

  // ---------------------------------------------------------------------
  // The methods' promises are the session machine's steps
  // ---------------------------------------------------------------------

  /** Whatever tables meet what SaveRefresh promises are those after the grant's save. */
  lemma SavePromiseIsTheStep(w: World, p: Pid, s: Store)
    requires p in w.grants && w.grants[p].Saving? && s.codes == w.store.codes
    requires Revoked(w.store, w.grants[p].family) ==> s == w.store
    requires !Revoked(w.store, w.grants[p].family) ==>
      && s.tokens == w.store.tokens[w.grants[p].child := w.grants[p].row] && !Revoked(s, w.grants[p].family)
      && s.families.Keys == w.store.families.Keys + {w.grants[p].family}
      && forall f | f in w.store.families :: s.families[f] == w.store.families[f]
    ensures AfterSave(w, p).store == s
  {}

  /** Expired, past its session's lifetime, or from before subjects were recorded. */
  predicate Outlived(r: Row, now: int, cfg: Config) {
    r.expiresAt < now || r.lineage.authTime + cfg.maxLife <= now || r.lineage.identity.subject == ""
  }

  /**
   Whatever tables and answer meet what ConsumeRefresh promises are those after
   the grant's consume: the tables are the step's, a consumed row ends the
   grant, has it revoke the family or lets it go on, and the other two answers
   are what the lookup that follows, undisturbed, makes of the grant.
   */
  lemma ConsumePromiseIsTheStep(w: World, p: Pid, policy: Policy, s: Store, res: ConsumeResult)
    requires p in w.grants && w.grants[p].Presenting?
    requires s.families == w.store.families && s.codes == w.store.codes
    requires
      var g := w.grants[p];
      && (res.Consumed? <==> Consumable(w.store, g.token, g.client))
      && (res.Reused? <==> g.token in w.store.tokens && w.store.tokens[g.token].lineage.client == g.client
                           && w.store.tokens[g.token].consumedAt.Some?)
      && (res.Consumed? ==>
            && res.row == w.store.tokens[g.token]
            && s.tokens == w.store.tokens[g.token := res.row.(consumedAt := Some(g.now))])
      && (res.Reused? ==> res.row == w.store.tokens[g.token])
      && (!res.Consumed? ==> s.tokens == w.store.tokens)
    ensures AfterConsume(w, p, policy).store == s
    ensures
      var g, n := w.grants[p], AfterConsume(w, p, policy);
      match res
      case Consumed(row) =>
        && (Outlived(row, g.now, w.cfg) ==> n.grants == w.grants - {p})
        && (!Outlived(row, g.now, w.cfg) && policy.connectorConfigured && policy.domainAllowed ==>
              n.grants == w.grants[p := Holding(FromToken(g.token), g.now, row.family, row.lineage)])
        && (!Outlived(row, g.now, w.cfg) && !(policy.connectorConfigured && policy.domainAllowed) ==>
              n.grants == w.grants[p := Revoking(row.family, g.now)])
      case Reused(row) =>
        p in n.grants && n.grants[p].LookingUp?
          && AfterLookUp(n, p).grants == w.grants[p := Revoking(row.family, g.now)]
      case NotFound => p in n.grants && n.grants[p].LookingUp? && AfterLookUp(n, p).grants == w.grants - {p}
  {
    var n := AfterConsume(w, p, policy);
    if !res.Consumed? {
      assert n == Put(w, p, LookingUp(w.grants[p].token, w.grants[p].client, w.grants[p].now));
      assert n.grants - {p} == w.grants - {p};
    }
  }

  /** The same for ConsumeAuthCode: a second redemption learns the first one's family, to revoke it. */
  lemma RedeemPromiseIsTheStep(w: World, p: Pid, bound: bool, authTime: int, s: Store, res: RedeemResult)
    requires p in w.grants && w.grants[p].Redeeming?
    requires s.tokens == w.store.tokens && s.families == w.store.families
    requires
      var g := w.grants[p];
      && (res.CodeNotFound? <==> g.code !in w.store.codes)
      && (res.Redeemed? <==> g.code in w.store.codes && w.store.codes[g.code].consumedAt.None?)
      && (res.Redeemed? ==> s.codes == w.store.codes[g.code := res.codeRow]
                            && res.codeRow == w.store.codes[g.code].(consumedAt := Some(g.now), family := g.family))
      && (!res.Redeemed? ==> s.codes == w.store.codes)
      && (res.CodeReused? ==> res.codeRow == s.codes[g.code])
    ensures AfterConsumeCode(w, p, bound, authTime).store == s
    ensures
      var g, n := w.grants[p], AfterConsumeCode(w, p, bound, authTime);
      match res
      case Redeemed(row) =>
        if g.now > row.expiresAt || row.identity.subject == "" || g.client != row.client || !bound
          then n.grants == w.grants - {p}
        else n.grants == w.grants[p := Holding(FromCode(g.code), g.now, g.family,
          Lineage(row.client, row.identity, authTime))]
      case CodeReused(row) =>
        p in n.grants && n.grants[p].LookingUpCode?
          && AfterLookUpCode(n, p).grants == w.grants[p := Revoking(row.family, g.now)]
      case CodeNotFound =>
        p in n.grants && n.grants[p].LookingUpCode? && AfterLookUpCode(n, p).grants == w.grants - {p}
  {
    var n := AfterConsumeCode(w, p, bound, authTime);
    if !res.Redeemed? {
      assert n == Put(w, p, LookingUpCode(w.grants[p].code, w.grants[p].now));
      assert n.grants - {p} == w.grants - {p};
    }
  }
}
