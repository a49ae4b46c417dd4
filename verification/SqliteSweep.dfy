/**
 The SQLite family sweep: a paged walk over refresh_tokens by rowid that
 collects, per family, whether any row is alive, then deletes the dead families
 a chunk at a time.  The connection is released between statements, so others
 may stamp rows and add new ones between any two pages or deletes.
 */
module SqliteSweep {
  import opened RefreshSessions
  import opened RefreshDeadness

  datatype Entry = Entry(rowid: int, row: Row)

  predicate Ordered(rows: seq<Entry>) {
    && (forall i | 0 <= i < |rows| :: 0 < rows[i].rowid)
    && (forall i, j | 0 <= i < j < |rows| :: rows[i].rowid < rows[j].rowid)
  }

  /** Some row of f is not dead. */
  predicate Alive(rows: seq<Entry>, f: FamilyId, now: int, life: int) {
    exists i :: 0 <= i < |rows| && rows[i].row.family == f && !DeadRow(rows[i].row, now, life)
  }

  predicate HasWanted(rows: seq<Entry>, f: FamilyId, now: int, life: int) {
    exists i :: 0 <= i < |rows| && rows[i].row.family == f && Wanted(rows[i].row, now, life)
  }

  lemma AliveIsWanted(rows: seq<Entry>, f: FamilyId, now: int, life: int)
    ensures Alive(rows, f, now, life) <==> HasWanted(rows, f, now, life)
  {
    if i :| 0 <= i < |rows| && rows[i].row.family == f && !DeadRow(rows[i].row, now, life) {
      assert Wanted(rows[i].row, now, life);
    }
    if i :| 0 <= i < |rows| && rows[i].row.family == f && Wanted(rows[i].row, now, life) {
      assert !DeadRow(rows[i].row, now, life);
    }
  }

  function FamiliesIn(rows: seq<Entry>): set<FamilyId> {
    set i | 0 <= i < |rows| :: rows[i].row.family
  }

  ghost function DeadFamilies(rows: seq<Entry>, now: int, life: int): set<FamilyId> {
    set f | f in FamiliesIn(rows) && !Alive(rows, f, now, life)
  }

  function Without(rows: seq<Entry>, fs: set<FamilyId>): seq<Entry> {
    if rows == [] then []
    else (if rows[0].row.family in fs then [] else [rows[0]]) + Without(rows[1..], fs)
  }

  /** SELECT ... WHERE rowid > cursor ORDER BY rowid LIMIT batch */
  function Above(rows: seq<Entry>, cursor: int): seq<Entry> {
    if rows == [] then []
    else if rows[0].rowid > cursor then rows
    else Above(rows[1..], cursor)
  }

  function Page(rows: seq<Entry>, cursor: int, batch: nat): seq<Entry> {
    var rest := Above(rows, cursor);
    if batch < |rest| then rest[..batch] else rest
  }

  lemma AboveIsSuffix(rows: seq<Entry>, i: nat)
    requires Ordered(rows) && i <= |rows|
    ensures Above(rows, if i == 0 then 0 else rows[i - 1].rowid) == rows[i..]
  {
    if 0 < i {
      var rest := rows[1..];
      assert Ordered(rest);
      if i == 1 {
        assert |rest| == 0 || rest[0].rowid > rows[0].rowid;
        assert rows[1..] == rest;
      } else {
        AboveIsSuffix(rest, i - 1);
        assert rest[i - 2] == rows[i - 1];
        assert rest[i - 1..] == rows[i..];
      }
    }
  }

  lemma {:induction false} WithoutTwice(rows: seq<Entry>, fs: set<FamilyId>, gs: set<FamilyId>)
    ensures Without(Without(rows, fs), gs) == Without(rows, fs + gs)
  {
    if rows != [] {
      WithoutTwice(rows[1..], fs, gs);
      var rest := Without(rows[1..], fs);
      if rows[0].row.family in fs {
        assert Without(rows, fs) == rest;
        assert Without(rows, fs + gs) == Without(rows[1..], fs + gs);
      } else {
        assert ([rows[0]] + rest)[1..] == rest;
      }
    }
  }

  lemma WithoutNone(rows: seq<Entry>)
    ensures Without(rows, {}) == rows
  {
  }

  /** Kept rows are exactly those of other families. */
  lemma {:induction false} WithoutKeeps(rows: seq<Entry>, fs: set<FamilyId>, e: Entry)
    ensures e in Without(rows, fs) <==> e in rows && e.row.family !in fs
  {
    if rows != [] {
      WithoutKeeps(rows[1..], fs, e);
      assert rows == [rows[0]] + rows[1..];
    }
  }

  lemma {:induction false} WithoutOrdered(rows: seq<Entry>, fs: set<FamilyId>)
    requires Ordered(rows)
    ensures Ordered(Without(rows, fs)) && |Without(rows, fs)| <= |rows|
  {
    if rows != [] {
      assert Ordered(rows[1..]);
      WithoutOrdered(rows[1..], fs);
      var rest := Without(rows[1..], fs);
      forall i | 0 <= i < |rest| ensures rows[0].rowid < rest[i].rowid {
        WithoutKeeps(rows[1..], fs, rest[i]);
        var k :| 0 <= k < |rows[1..]| && rows[1..][k] == rest[i];
        assert rows[k + 1] == rest[i];
      }
    }
  }

  /** The flags after one more row: the row's family is now seen, and alive if it was or the row is. */
  lemma SeenOne(rows: seq<Entry>, i: nat, now: int, life: int, f: FamilyId)
    requires i < |rows|
    ensures Alive(rows[..i + 1], f, now, life) <==>
            Alive(rows[..i], f, now, life) || (rows[i].row.family == f && !DeadRow(rows[i].row, now, life))
  {
    var a, b := rows[..i], rows[..i + 1];
    assert forall k | 0 <= k < i :: b[k] == a[k];
    assert b[i] == rows[i];
  }

  ghost predicate Summarises(seen: map<FamilyId, bool>, rows: seq<Entry>, now: int, life: int) {
    && seen.Keys == FamiliesIn(rows)
    && forall f | f in seen :: seen[f] <==> Alive(rows, f, now, life)
  }

  lemma SeenGrows(seen: map<FamilyId, bool>, rows: seq<Entry>, i: nat, now: int, life: int)
    requires i < |rows| && Summarises(seen, rows[..i], now, life)
    ensures var f := rows[i].row.family;
            Summarises(seen[f := !DeadRow(rows[i].row, now, life) || (f in seen && seen[f])], rows[..i + 1], now, life)
  {
    FamiliesGrow(rows, i);
    if rows[i].row.family !in seen { NotSeenNotAlive(rows[..i], rows[i].row.family, now, life); }
    forall f ensures Alive(rows[..i + 1], f, now, life) <==>
        Alive(rows[..i], f, now, life) || (rows[i].row.family == f && !DeadRow(rows[i].row, now, life)) {
      SeenOne(rows, i, now, life, f);
    }
  }

  function CursorAt(rows: seq<Entry>, done: nat): int
    requires done <= |rows|
  {
    if done == 0 then 0 else rows[done - 1].rowid
  }

  lemma PageIsNext(rows: seq<Entry>, done: nat, batch: nat)
    requires Ordered(rows) && done <= |rows|
    ensures var page := Page(rows, CursorAt(rows, done), batch);
            && |page| <= batch && done + |page| <= |rows| && page == rows[done..done + |page|]
            && (|page| < batch ==> done + |page| == |rows|)
  {
    AboveIsSuffix(rows, done);
  }

  // ---------------------------------------------------------------------
  // What others do between two statements
  // ---------------------------------------------------------------------

  /** b is a with rows stamped and rows added; only the sweep deletes any. */
  predicate Evolves(a: seq<Entry>, b: seq<Entry>) {
    && Ordered(b) && |a| <= |b|
    && forall i | 0 <= i < |a| :: a[i].rowid == b[i].rowid && Aged(a[i].row, b[i].row)
  }

  /** e is in the table, perhaps with stamps added. */
  ghost predicate Survives(e: Entry, rows: seq<Entry>) {
    exists x :: x in rows && x.rowid == e.rowid && Aged(e.row, x.row)
  }

  lemma SurvivesOthers(e: Entry, a: seq<Entry>, b: seq<Entry>)
    requires Survives(e, a) && Evolves(a, b)
    ensures Survives(e, b)
  {
    var x :| x in a && x.rowid == e.rowid && Aged(e.row, x.row);
    var i :| 0 <= i < |a| && a[i] == x;
    assert b[i] in b;
  }

  lemma SurvivesDelete(e: Entry, rows: seq<Entry>, fs: set<FamilyId>)
    requires Survives(e, rows) && e.row.family !in fs
    ensures Survives(e, Without(rows, fs))
  {
    var x :| x in rows && x.rowid == e.rowid && Aged(e.row, x.row);
    WithoutKeeps(rows, fs, x);
  }

  /** The families `gone` were deleted; rows of theirs are there only if others added some since. */
  ghost predicate Deleting(was: seq<Entry>, rows: seq<Entry>, gone: set<FamilyId>, late: set<FamilyId>) {
    && Ordered(rows)
    && (forall e | e in rows && e.row.family in gone :: e.row.family in late)
    && forall e | e in was && e.row.family !in gone :: Survives(e, rows)
  }

  lemma NothingDeleted(rows: seq<Entry>)
    requires Ordered(rows)
    ensures Deleting(rows, rows, {}, {})
  {
    forall e | e in rows ensures Survives(e, rows) { assert Aged(e.row, e.row); }
  }

  lemma OthersDuring(was: seq<Entry>, rows: seq<Entry>, next: seq<Entry>, gone: set<FamilyId>, late: set<FamilyId>)
    requires Deleting(was, rows, gone, late) && Evolves(rows, next)
    ensures Deleting(was, next, gone, late + FamiliesIn(next[|rows|..]))
  {
    var added := next[|rows|..];
    forall e | e in next && e.row.family in gone ensures e.row.family in late + FamiliesIn(added) {
      var i :| 0 <= i < |next| && next[i] == e;
      if i < |rows| {
        assert rows[i] in rows;
      } else {
        assert added[i - |rows|] == e;
      }
    }
    forall e | e in was && e.row.family !in gone ensures Survives(e, next) { SurvivesOthers(e, rows, next); }
  }

  lemma DeleteDuring(was: seq<Entry>, rows: seq<Entry>, gone: set<FamilyId>, late: set<FamilyId>, chunk: set<FamilyId>)
    requires Deleting(was, rows, gone, late)
    ensures Deleting(was, Without(rows, chunk), gone + chunk, late)
  {
    WithoutOrdered(rows, chunk);
    forall e | e in Without(rows, chunk) && e.row.family in gone + chunk ensures e.row.family in late {
      WithoutKeeps(rows, chunk, e);
    }
    forall e | e in was && e.row.family !in gone + chunk ensures Survives(e, Without(rows, chunk)) {
      SurvivesDelete(e, rows, chunk);
    }
  }

  /** One is the other's first rows, at an earlier time. */
  predicate Earlier(a: seq<Entry>, b: seq<Entry>) {
    forall i | 0 <= i < |a| && i < |b| :: a[i].rowid == b[i].rowid && Aged(a[i].row, b[i].row)
  }

  /** The table was `was` and is `rows`; `log` is what was read, page by page, of its first rows. */
  predicate Scanning(was: seq<Entry>, rows: seq<Entry>, log: seq<Entry>) {
    Evolves(was, rows) && |log| <= |rows| && Earlier(was, log) && Earlier(log, rows)
  }

  lemma PageRead(was: seq<Entry>, rows: seq<Entry>, log: seq<Entry>, page: seq<Entry>)
    requires Scanning(was, rows, log) && |log| + |page| <= |rows| && page == rows[|log|..|log| + |page|]
    ensures Scanning(was, rows, log + page)
  {}

  lemma OthersRan(was: seq<Entry>, rows: seq<Entry>, log: seq<Entry>, next: seq<Entry>)
    requires Scanning(was, rows, log) && Evolves(rows, next)
    ensures Scanning(was, next, log)
  {}

  /** A family all of whose rows were dead when read is dead when the last is read. */
  lemma DeadWhenReadIsDead(was: seq<Entry>, rows: seq<Entry>, log: seq<Entry>, now: int, life: int)
    requires Scanning(was, rows, log) && |log| == |rows|
    ensures DeadFamilies(log, now, life) <= DeadFamilies(rows, now, life)
  {
    forall f | f in DeadFamilies(log, now, life) ensures f in DeadFamilies(rows, now, life) {
      var k :| 0 <= k < |log| && log[k].row.family == f;
      assert rows[k].row.family == f;
      forall i | 0 <= i < |rows| && rows[i].row.family == f ensures DeadRow(rows[i].row, now, life) {
        assert log[i].row.family == f && DeadRow(log[i].row, now, life);
        DeadRowsAge(log[i].row, rows[i].row, now, life);
      }
    }
  }

  /** No row of f from index n on. */
  predicate NoNewRow(rows: seq<Entry>, n: nat, f: FamilyId) {
    forall i | n <= i < |rows| :: rows[i].row.family != f
  }

  /** What a scan ending with the table `scanned` found: only families dead by then, all that were dead throughout. */
  ghost predicate Finds(was: seq<Entry>, scanned: seq<Entry>, found: set<FamilyId>, now: int, life: int) {
    && Evolves(was, scanned) && found <= DeadFamilies(scanned, now, life)
    && forall f | f in DeadFamilies(was, now, life) && NoNewRow(scanned, |was|, f) :: f in found
  }

  /** The same by what the rows say. */
  lemma FindsUnwanted(was: seq<Entry>, scanned: seq<Entry>, found: set<FamilyId>, now: int, life: int)
    requires Finds(was, scanned, found, now, life)
    ensures forall f | f in found :: f in FamiliesIn(scanned) && !HasWanted(scanned, f, now, life)
    ensures forall f | f in FamiliesIn(was) && !HasWanted(was, f, now, life) && NoNewRow(scanned, |was|, f) ::
      f in found
  {
    forall f ensures Alive(was, f, now, life) <==> HasWanted(was, f, now, life) { AliveIsWanted(was, f, now, life); }
    forall f ensures Alive(scanned, f, now, life) <==> HasWanted(scanned, f, now, life) {
      AliveIsWanted(scanned, f, now, life);
    }
  }

  /** Exactly the rows of families with a wanted row are left. */
  lemma SweepKeepsWanted(rows: seq<Entry>, now: int, life: int, e: Entry)
    ensures e in Without(rows, DeadFamilies(rows, now, life)) <==> e in rows && HasWanted(rows, e.row.family, now, life)
  {
    WithoutKeeps(rows, DeadFamilies(rows, now, life), e);
    AliveIsWanted(rows, e.row.family, now, life);
  }

  lemma DeadThroughoutIsFound(was: seq<Entry>, rows: seq<Entry>, log: seq<Entry>, f: FamilyId, now: int, life: int)
    requires Scanning(was, rows, log) && |log| == |rows| && f in DeadFamilies(was, now, life)
      && NoNewRow(rows, |was|, f)
    ensures f in DeadFamilies(log, now, life)
  {
    var k :| 0 <= k < |was| && was[k].row.family == f;
    assert log[k].row.family == f;
    forall i | 0 <= i < |log| && log[i].row.family == f ensures DeadRow(log[i].row, now, life) {
      assert rows[i].row.family == f;
      assert was[i].row.family == f && DeadRow(was[i].row, now, life);
      DeadRowsAge(was[i].row, log[i].row, now, life);
    }
  }

  lemma ScanFinds(was: seq<Entry>, rows: seq<Entry>, log: seq<Entry>, now: int, life: int)
    requires Scanning(was, rows, log) && |log| == |rows|
    ensures Finds(was, rows, DeadFamilies(log, now, life), now, life)
    ensures rows == was ==> DeadFamilies(log, now, life) == DeadFamilies(rows, now, life)
  {
    DeadWhenReadIsDead(was, rows, log, now, life);
    forall f | f in DeadFamilies(was, now, life) && NoNewRow(rows, |was|, f) ensures f in DeadFamilies(log, now, life) {
      DeadThroughoutIsFound(was, rows, log, f, now, life);
    }
  }

  /** One page: every row read updates its family's flag, and the cursor follows. */
  method ScanPage(page: seq<Entry>, seen0: map<FamilyId, bool>, cursor0: int, now: int, life: int,
    ghost log: seq<Entry>)
    returns (seen: map<FamilyId, bool>, cursor: int, read: nat)
    requires cursor0 == CursorAt(log, |log|) && Summarises(seen0, log, now, life)
    ensures read == |page| && cursor == CursorAt(log + page, |log + page|) && Summarises(seen, log + page, now, life)
  {
    seen, cursor, read := seen0, cursor0, 0;
    ghost var all := log + page;
    assert all[..|log|] == log;
    while read < |page|
      invariant read <= |page| && cursor == CursorAt(all, |log| + read)
      invariant Summarises(seen, all[..|log| + read], now, life)
    {
      var e := page[read];
      assert e == all[|log| + read];
      SeenGrows(seen, all, |log| + read, now, life);
      seen := seen[e.row.family := !DeadRow(e.row, now, life) || (e.row.family in seen && seen[e.row.family])];
      cursor := e.rowid;
      read := read + 1;
    }
    assert all[..|all|] == all;
  }

  class Reaper {
    var rows: seq<Entry>
    const batch: nat

    constructor (rows: seq<Entry>, batch: nat)
      requires Ordered(rows) && 0 < batch
      ensures this.rows == rows && this.batch == batch
    {
      this.rows := rows;
      this.batch := batch;
    }

    /** Whatever others did since the last statement, if it is something they could have done. */
    method Others(next: seq<Entry>)
      requires Ordered(rows)
      modifies this`rows
      ensures rows == if Evolves(old(rows), next) then next else old(rows)
      ensures Evolves(old(rows), rows)
    {
      if Evolves(rows, next) {
        rows := next;
      }
    }

    /** One page and its scan: the rows read join the log, and a short page was the last. */
    method ReadPage(seen0: map<FamilyId, bool>, cursor0: int, now: int, life: int, ghost was: seq<Entry>,
      ghost log0: seq<Entry>)
      returns (seen: map<FamilyId, bool>, cursor: int, read: nat, ghost log: seq<Entry>)
      requires Scanning(was, rows, log0) && cursor0 == CursorAt(log0, |log0|) && Summarises(seen0, log0, now, life)
      ensures Scanning(was, rows, log) && cursor == CursorAt(log, |log|) && Summarises(seen, log, now, life)
      ensures |log| == |log0| + read && (read < batch ==> |log| == |rows|)
    {
      PageIsNext(rows, |log0|, batch);
      var page := Page(rows, cursor0, batch);
      seen, cursor, read := ScanPage(page, seen0, cursor0, now, life, log0);
      PageRead(was, rows, log0, page);
      log := log0 + page;
    }

    /**
     The walk.  `feed` is what others make of the table between pages.  What is
     found is dead when the last page is read, although most rows were read
     earlier; and a family dead all along that gained no row is found.
     */
    method Scan(now: int, life: int, feed: seq<seq<Entry>>) returns (found: set<FamilyId>, used: nat)
      requires Ordered(rows) && 0 < batch
      modifies this`rows
      ensures used <= |feed| && Finds(old(rows), rows, found, now, life)
      ensures feed == [] ==> rows == old(rows) && found == DeadFamilies(rows, now, life)
      ensures forall f | f in found :: f in FamiliesIn(rows) && !HasWanted(rows, f, now, life)
      ensures forall f | f in FamiliesIn(old(rows)) && !HasWanted(old(rows), f, now, life)
        && NoNewRow(rows, |old(rows)|, f) :: f in found
    {
      var seen: map<FamilyId, bool> := map[];
      var cursor, more := 0, true;
      ghost var log: seq<Entry> := [];
      used := 0;
      ghost var was := rows;
      while more
        invariant used <= |feed| && Scanning(was, rows, log) && (feed == [] ==> rows == was)
        invariant cursor == CursorAt(log, |log|) && Summarises(seen, log, now, life)
        invariant !more ==> |log| == |rows|
        decreases more, |feed| - used, |rows| - |log|
      {
        var read: nat;
        seen, cursor, read, log := ReadPage(seen, cursor, now, life, was, log);
        more := read >= batch;
        if more && used < |feed| {
          ghost var before := rows;
          Others(feed[used]);
          OthersRan(was, before, log, rows);
          used := used + 1;
        }
      }
      found := set f | f in seen && !seen[f];
      assert found == DeadFamilies(log, now, life);
      ScanFinds(was, rows, log, now, life);
      FindsUnwanted(was, rows, found, now, life);
    }

    /**
     Deletes in chunks of at most `batch` families, others running before each.
     `late` collects the families others add rows to meanwhile.
     */
    method DeleteFamilies(dead: set<FamilyId>, feed: seq<seq<Entry>>)
      returns (deleted: nat, ghost late: set<FamilyId>, ghost arrived: nat)
      requires Ordered(rows) && 0 < batch
      modifies this`rows
      ensures Deleting(old(rows), rows, dead, late) && |rows| + deleted == |old(rows)| + arrived
      ensures feed == [] ==> rows == Without(old(rows), dead) && late == {} && arrived == 0
    {
      var families := dead;
      var used := 0;
      deleted, late, arrived := 0, {}, 0;
      ghost var was := rows;
      assert dead - families == {};
      WithoutNone(rows);
      NothingDeleted(rows);
      while families != {}
        invariant families <= dead && Deleting(was, rows, dead - families, late) && |rows| + deleted == |was| + arrived
        invariant feed == [] ==> rows == Without(was, dead - families) && late == {} && arrived == 0
        decreases |families|
      {
        if used < |feed| {
          ghost var before := rows;
          Others(feed[used]);
          OthersDuring(was, before, rows, dead - families, late);
          late, arrived := late + FamiliesIn(rows[|before|..]), arrived + |rows| - |before|;
          used := used + 1;
        }
        var chunk := TakeChunk(families, batch);
        ghost var gone := dead - families;
        WithoutTwice(was, gone, chunk);
        assert families == (families - chunk) + chunk && gone + chunk == dead - (families - chunk);
        var n := DeleteIn(chunk, was, gone, late);
        deleted := deleted + n;
        families := families - chunk;
      }
      assert dead - {} == dead;
    }

    /** One DELETE ... WHERE family_id IN chunk. */
    method DeleteIn(chunk: set<FamilyId>, ghost was: seq<Entry>, ghost gone: set<FamilyId>, ghost late: set<FamilyId>)
      returns (deleted: nat)
      requires Deleting(was, rows, gone, late)
      modifies this`rows
      ensures rows == Without(old(rows), chunk) && |rows| + deleted == |old(rows)|
      ensures Deleting(was, rows, gone + chunk, late)
    {
      WithoutOrdered(rows, chunk);
      DeleteDuring(was, rows, gone, late, chunk);
      var kept := Without(rows, chunk);
      deleted := |rows| - |kept|;
      rows := kept;
    }

    /**
     The whole sweep.  `scanned` is the table when the last page was read: what
     is found was dead then, and includes what was dead from the start and
     gained no row.  Afterwards a found family has no row unless others added
     one after the scan, and every other row is still there; undisturbed, the
     sweep deletes exactly the dead families.
     */
    method ReapRefreshFamilies(now: int, life: int, feed: seq<seq<Entry>>)
      returns (deleted: nat, ghost scanned: seq<Entry>, ghost found: set<FamilyId>, ghost late: set<FamilyId>)
      requires Ordered(rows) && 0 < batch
      modifies this`rows
      ensures Finds(old(rows), scanned, found, now, life) && Deleting(scanned, rows, found, late)
      ensures feed == [] ==>
        rows == Without(old(rows), DeadFamilies(old(rows), now, life)) && deleted == |old(rows)| - |rows| && late == {}
      ensures forall f | f in found :: !HasWanted(scanned, f, now, life)
      ensures feed == [] ==>
        forall e :: e in rows <==> e in old(rows) && HasWanted(old(rows), e.row.family, now, life)
    {
      ghost var was := rows;
      var dead, used := Scan(now, life, feed);
      scanned, found := rows, dead;
      forall e ensures e in Without(was, DeadFamilies(was, now, life)) <==>
          e in was && HasWanted(was, e.row.family, now, life) {
        SweepKeepsWanted(was, now, life, e);
      }
      ghost var arrived: nat;
      deleted, late, arrived := DeleteFamilies(dead, feed[used..]);
    }
  }

  method TakeChunk(families: set<FamilyId>, batch: nat) returns (chunk: set<FamilyId>)
    requires families != {} && 0 < batch
    ensures {} < chunk <= families && |chunk| <= batch
    ensures |chunk| == batch || chunk == families
  {
    chunk := {};
    while |chunk| < batch && chunk != families
      invariant chunk <= families && |chunk| <= batch
      decreases families - chunk
    {
      assert families - chunk != {} by { assert families == chunk + (families - chunk); }
      var f :| f in families - chunk;
      chunk := chunk + {f};
    }
    assert chunk == {} ==> |chunk| == 0;
  }

  lemma FamiliesGrow(rows: seq<Entry>, i: nat)
    requires i < |rows|
    ensures FamiliesIn(rows[..i + 1]) == FamiliesIn(rows[..i]) + {rows[i].row.family}
  {
    var a, b := rows[..i], rows[..i + 1];
    forall f ensures f in FamiliesIn(b) <==> f in FamiliesIn(a) + {rows[i].row.family} {
      if f in FamiliesIn(a) {
        var k :| 0 <= k < |a| && a[k].row.family == f;
        assert b[k] == a[k];
      }
      assert b[i] == rows[i];
      if f in FamiliesIn(b) {
        var k :| 0 <= k < |b| && b[k].row.family == f;
        assert k < i ==> a[k] == b[k];
      }
    }
  }

  lemma NotSeenNotAlive(rows: seq<Entry>, f: FamilyId, now: int, life: int)
    requires f !in FamiliesIn(rows)
    ensures !Alive(rows, f, now, life)
  {
  }
}
