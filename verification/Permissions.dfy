/**
 Grants: one role per namespace, the highest it was given, and what that means
 to an authorizer that ORs every entry's bit into a mask and compares masks
 numerically.
 */
module Permissions {
  import opened Wrappers

  /** A role is any string in the source; Other holds one that is none of the four. */
  type NoRole = s: string | s != "worker" && s != "read" && s != "write" && s != "admin" witness ""
  datatype Role = Worker | Read | Write | Admin | Other(text: NoRole)

  const SYSTEM := "temporal-system"

  datatype Entry = Entry(namespace: string, role: Role)

  /** The role's bit in the authorizer's mask; none for a string that is no role. */
  function Bit(r: Role): nat {
    match r
    case Worker => 1
    case Read => 2
    case Write => 4
    case Admin => 8
    case Other(_) => 0
  }

  predicate ValidRole(r: Role) {
    !r.Other?
  }

  type Perms = map<string, Role>

  function Added(g: Perms, ns: string, r: Role): Perms {
    if ns !in g || Bit(g[ns]) < Bit(r) then g[ns := r] else g
  }

  function Built(entries: seq<Entry>): Perms {
    if entries == [] then map[]
    else
      var last := entries[|entries| - 1];
      Added(Built(entries[..|entries| - 1]), last.namespace, last.role)
  }

  // ---------------------------------------------------------------------
  // What a grant holds
  // ---------------------------------------------------------------------

  /** The entry at i is the first of the highest given to its namespace. */
  predicate Wins(entries: seq<Entry>, i: int) {
    && 0 <= i < |entries|
    && forall j | 0 <= j < |entries| && entries[j].namespace == entries[i].namespace ::
         Bit(entries[j].role) <= Bit(entries[i].role) && (j < i ==> Bit(entries[j].role) < Bit(entries[i].role))
  }

  lemma {:induction false} BuiltIs(entries: seq<Entry>, ns: string)
    ensures ns in Built(entries) <==> exists i :: 0 <= i < |entries| && entries[i].namespace == ns
    ensures ns in Built(entries) ==> exists i :: Wins(entries, i) && entries[i] == Entry(ns, Built(entries)[ns])
    decreases |entries|
  {
    if entries != [] {
      var n := |entries| - 1;
      var init, last := entries[..n], entries[n];
      BuiltIs(init, ns);
      assert forall j | 0 <= j < n :: init[j] == entries[j];
      if last.namespace == ns {
        if ns in Built(init) {
          var i :| Wins(init, i) && init[i] == Entry(ns, Built(init)[ns]);
          assert Wins(entries, if Bit(init[i].role) < Bit(last.role) then n else i);
        } else {
          assert forall j | 0 <= j < n :: entries[j].namespace != ns;
          assert Wins(entries, n);
        }
      } else if ns in Built(init) {
        var i :| Wins(init, i) && init[i] == Entry(ns, Built(init)[ns]);
        assert Wins(entries, i) && entries[i] == Entry(ns, Built(entries)[ns]);
      }
    }
  }

  predicate AllValid(entries: seq<Entry>) {
    forall i | 0 <= i < |entries| :: ValidRole(entries[i].role)
  }

  lemma BitsNameRoles(a: Role, b: Role)
    requires Bit(a) == Bit(b) && ValidRole(a)
    ensures a == b
  {}

  lemma SameHeld(a: seq<Entry>, b: seq<Entry>, ns: string)
    requires AllValid(a) && (forall e :: e in a <==> e in b) && ns in Built(a)
    ensures ns in Built(b) && Built(b)[ns] == Built(a)[ns]
  {
    BuiltIs(a, ns);
    BuiltIs(b, ns);
    var i :| Wins(a, i) && a[i] == Entry(ns, Built(a)[ns]);
    assert a[i] in b;
    var k :| Wins(b, k) && b[k] == Entry(ns, Built(b)[ns]);
    assert b[k] in a;
    BitsNameRoles(a[i].role, b[k].role);
  }

  /** For roles that exist neither order nor repetition matters, only which entries there are. */
  lemma OrderDoesNotMatter(a: seq<Entry>, b: seq<Entry>)
    requires AllValid(a) && AllValid(b) && forall e :: e in a <==> e in b
    ensures Built(a) == Built(b)
  {
    forall ns | ns in Built(a) ensures ns in Built(b) && Built(b)[ns] == Built(a)[ns] { SameHeld(a, b, ns); }
    forall ns | ns in Built(b) ensures ns in Built(a) { SameHeld(b, a, ns); }
  }

  // ---------------------------------------------------------------------
  // What the authorizer decides
  // ---------------------------------------------------------------------

  /** A mask of the four role bits, with its bits and its number. */
  datatype Mask = Mask(worker: bool, read: bool, write: bool, admin: bool) {
    function Value(): nat {
      (if worker then 1 else 0) + (if read then 2 else 0) + (if write then 4 else 0) + if admin then 8 else 0
    }

    function Or(m: Mask): Mask {
      Mask(worker || m.worker, read || m.read, write || m.write, admin || m.admin)
    }
  }

  const NO_ROLE := Mask(false, false, false, false)

  function MaskOf(r: Role): Mask {
    Mask(r.Worker?, r.Read?, r.Write?, r.Admin?)
  }

  /** Every entry's bit for the namespace, ORed. */
  function Ored(entries: seq<Entry>, ns: string): Mask {
    if entries == [] then NO_ROLE
    else
      var last := entries[|entries| - 1];
      Ored(entries[..|entries| - 1], ns).Or(if last.namespace == ns then MaskOf(last.role) else NO_ROLE)
  }

  /** The documented reading instead: a later entry overrides. */
  function Overridden(entries: seq<Entry>, ns: string): Mask {
    if entries == [] then NO_ROLE
    else
      var last := entries[|entries| - 1];
      if last.namespace == ns then MaskOf(last.role) else Overridden(entries[..|entries| - 1], ns)
  }

  predicate Authorizes(entries: seq<Entry>, target: string, required: Role) {
    Bit(required) <= Ored(entries, SYSTEM).Or(Ored(entries, target)).Value()
  }

  function BitIn(g: Perms, ns: string): nat {
    if ns in g then Bit(g[ns]) else 0
  }

  /** The grant's own account: the role on the target or the system role reaches the one required. */
  predicate Grants(g: Perms, target: string, required: Role) {
    Bit(required) <= BitIn(g, target) || Bit(required) <= BitIn(g, SYSTEM)
  }

  lemma OrReaches(a: Mask, b: Mask, r: Role)
    ensures Bit(r) <= a.Or(b).Value() <==> Bit(r) <= a.Value() || Bit(r) <= b.Value()
  {}

  lemma {:induction false} MaskReaches(entries: seq<Entry>, ns: string, r: Role)
    ensures Bit(r) <= Ored(entries, ns).Value() <==> Bit(r) <= BitIn(Built(entries), ns)
    decreases |entries|
  {
    if entries != [] {
      var last := entries[|entries| - 1];
      var init := entries[..|entries| - 1];
      MaskReaches(init, ns, r);
      OrReaches(Ored(init, ns), if last.namespace == ns then MaskOf(last.role) else NO_ROLE, r);
    }
  }

  /** The ORed masks decide as the highest role per namespace does, for every target and every role an API can need. */
  lemma {:induction false} GrantDecidesAsMask(entries: seq<Entry>, target: string, required: Role)
    ensures Authorizes(entries, target, required) <==> Grants(Built(entries), target, required)
  {
    OrReaches(Ored(entries, SYSTEM), Ored(entries, target), required);
    MaskReaches(entries, target, required);
    MaskReaches(entries, SYSTEM, required);
  }

  predicate OncePerNamespace(entries: seq<Entry>) {
    forall i, j | 0 <= i < j < |entries| :: entries[i].namespace != entries[j].namespace
  }

  lemma {:induction false} MaskOfAbsent(entries: seq<Entry>, ns: string)
    requires forall i | 0 <= i < |entries| :: entries[i].namespace != ns
    ensures Ored(entries, ns) == NO_ROLE
    decreases |entries|
  {
    if entries != [] {
      MaskOfAbsent(entries[..|entries| - 1], ns);
    }
  }

  /** With one entry per namespace the ORing and the overriding reading agree. */
  lemma {:induction false} ReadingsAgree(entries: seq<Entry>, ns: string)
    requires OncePerNamespace(entries)
    ensures Ored(entries, ns) == Overridden(entries, ns)
    decreases |entries|
  {
    if entries != [] {
      var n := |entries| - 1;
      if entries[n].namespace == ns {
        MaskOfAbsent(entries[..n], ns);
      } else {
        ReadingsAgree(entries[..n], ns);
      }
    }
  }

  // ---------------------------------------------------------------------
  // Merging
  // ---------------------------------------------------------------------

  function Merged2(a: Perms, g: Perms): Perms {
    map ns | ns in a.Keys + g.Keys :: if ns !in g || (ns in a && Bit(g[ns]) <= Bit(a[ns])) then a[ns] else g[ns]
  }

  function Merged(grants: seq<Option<Perms>>): Perms {
    if grants == [] then map[]
    else
      var last := grants[|grants| - 1];
      var init := Merged(grants[..|grants| - 1]);
      if last.None? then init else Merged2(init, last.value)
  }

  /** A merge grants exactly what one of its parts grants. */
  lemma {:induction false} MergeGrantsWhatAnyGrants(grants: seq<Option<Perms>>, target: string, required: Role)
    requires ValidRole(required)
    ensures Grants(Merged(grants), target, required) <==>
            exists i :: 0 <= i < |grants| && grants[i].Some? && Grants(grants[i].value, target, required)
    decreases |grants|
  {
    if grants != [] {
      var n := |grants| - 1;
      MergeGrantsWhatAnyGrants(grants[..n], target, required);
      assert forall i | 0 <= i < n :: grants[..n][i] == grants[i];
      if grants[n].Some? {
        var a, g := Merged(grants[..n]), grants[n].value;
        assert Grants(Merged2(a, g), target, required) <==> Grants(a, target, required) || Grants(g, target, required);
      }
    }
  }

  lemma AddAfterMerge(a: Perms, b: Perms, ns: string, r: Role)
    ensures Merged2(a, Added(b, ns, r)) == Added(Merged2(a, b), ns, r)
  {}

  lemma {:induction false} MergeOfTwo(a: seq<Entry>, b: seq<Entry>)
    ensures Merged2(Built(a), Built(b)) == Built(a + b)
    decreases |b|
  {
    if b == [] {
      assert a + b == a && Merged2(Built(a), map[]) == Built(a);
    } else {
      var n := |b| - 1;
      MergeOfTwo(a, b[..n]);
      AddAfterMerge(Built(a), Built(b[..n]), b[n].namespace, b[n].role);
      assert (a + b)[..|a + b| - 1] == a + b[..n];
    }
  }

  function Concatenated(parts: seq<seq<Entry>>): seq<Entry> {
    if parts == [] then [] else Concatenated(parts[..|parts| - 1]) + parts[|parts| - 1]
  }

  function Grantings(parts: seq<seq<Entry>>): seq<Option<Perms>> {
    seq(|parts|, i requires 0 <= i < |parts| => Some(Built(parts[i])))
  }

  /** Merging grants is building one from everything that went into them, in sequence. */
  lemma {:induction false} MergeIsConcatenation(parts: seq<seq<Entry>>)
    ensures Merged(Grantings(parts)) == Built(Concatenated(parts))
    decreases |parts|
  {
    if parts != [] {
      var n := |parts| - 1;
      MergeIsConcatenation(parts[..n]);
      assert Grantings(parts)[..n] == Grantings(parts[..n]);
      MergeOfTwo(Concatenated(parts[..n]), parts[n]);
    }
  }

  predicate Names(grants: seq<Option<Perms>>, i: int, ns: string) {
    0 <= i < |grants| && grants[i].Some? && ns in grants[i].value
  }

  /** A merge names what any part names, each at the highest role a part gives it. */
  lemma {:induction false} MergedIs(grants: seq<Option<Perms>>, ns: string)
    ensures ns in Merged(grants) <==> exists i :: Names(grants, i, ns)
    ensures ns in Merged(grants) ==> exists i :: Names(grants, i, ns) && grants[i].value[ns] == Merged(grants)[ns]
    ensures ns in Merged(grants) ==>
      forall i | Names(grants, i, ns) :: Bit(grants[i].value[ns]) <= Bit(Merged(grants)[ns])
    decreases |grants|
  {
    if grants != [] {
      var n := |grants| - 1;
      MergedIs(grants[..n], ns);
      assert forall i | 0 <= i < n :: grants[..n][i] == grants[i];
      assert forall i :: Names(grants[..n], i, ns) <==> Names(grants, i, ns) && i < n;
      if ns in Merged(grants[..n]) {
        var i :| Names(grants[..n], i, ns) && grants[..n][i].value[ns] == Merged(grants[..n])[ns];
        assert Names(grants, i, ns);
      }
      if grants[n].Some? && ns in grants[n].value {
        assert Names(grants, n, ns);
      }
    }
  }

  predicate AllReal(grants: seq<Option<Perms>>) {
    forall i | 0 <= i < |grants| && grants[i].Some? :: forall ns | ns in grants[i].value ::
      ValidRole(grants[i].value[ns])
  }

  lemma SameMerged(a: seq<Option<Perms>>, b: seq<Option<Perms>>, ns: string)
    requires AllReal(a) && (forall g :: g in a <==> g in b) && ns in Merged(a)
    ensures ns in Merged(b) && Merged(b)[ns] == Merged(a)[ns]
  {
    MergedIs(a, ns);
    MergedIs(b, ns);
    var i :| Names(a, i, ns) && a[i].value[ns] == Merged(a)[ns];
    assert a[i] in b;
    var i' :| 0 <= i' < |b| && b[i'] == a[i];
    assert Names(b, i', ns);
    var k :| Names(b, k, ns) && b[k].value[ns] == Merged(b)[ns];
    assert b[k] in a;
    var k' :| 0 <= k' < |a| && a[k'] == b[k];
    assert Names(a, k', ns);
    BitsNameRoles(Merged(a)[ns], Merged(b)[ns]);
  }

  /** For the four roles a merge is the same in any order, however often a part is repeated. */
  lemma MergeInAnyOrder(a: seq<Option<Perms>>, b: seq<Option<Perms>>)
    requires AllReal(a) && AllReal(b) && forall g :: g in a <==> g in b
    ensures Merged(a) == Merged(b)
  {
    forall ns | ns in Merged(a) ensures ns in Merged(b) && Merged(b)[ns] == Merged(a)[ns] { SameMerged(a, b, ns); }
    forall ns | ns in Merged(b) ensures ns in Merged(a) { SameMerged(b, a, ns); }
  }

  class Grant {
    var perms: Perms

    constructor ()
      ensures perms == map[]
    {
      perms := map[];
    }

    method Add(ns: string, r: Role)
      modifies this
      ensures perms == Added(old(perms), ns, r)
    {
      if ns !in perms || Bit(perms[ns]) < Bit(r) {
        perms := perms[ns := r];
      }
    }
  }

  /** The union of grants; absent ones are skipped and the inputs left alone. */
  method Merge(grants: seq<Option<Perms>>) returns (out: Grant)
    ensures fresh(out) && out.perms == Merged(grants)
  {
    out := new Grant();
    for i := 0 to |grants|
      invariant fresh(out) && out.perms == Merged(grants[..i])
    {
      assert grants[..i + 1][..i] == grants[..i];
      if grants[i].Some? {
        var g := grants[i].value;
        ghost var before := out.perms;
        var todo := g.Keys;
        while todo != {}
          invariant todo <= g.Keys && fresh(out)
          invariant out.perms.Keys == before.Keys + (g.Keys - todo)
          invariant forall ns | ns in out.perms ::
            if ns in todo then out.perms[ns] == before[ns] else out.perms[ns] == Merged2(before, g)[ns]
        {
          var ns :| ns in todo;
          todo := todo - {ns};
          out.Add(ns, g[ns]);
        }
      }
    }
    assert grants[..|grants|] == grants;
  }
}
