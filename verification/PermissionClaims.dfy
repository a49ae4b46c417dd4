/**
 The wire form of a grant: sorted "namespace:role" entries, and the parser that
 splits each on its last colon.
 */
module PermissionClaims {
  import opened Permissions

  datatype Error = MalformedEntry | EmptyNamespace | InvalidRole

  datatype Parsed = Ok(perms: Perms) | Err(error: Error, index: nat)

  // ---------------------------------------------------------------------
  // Listing a grant
  // ---------------------------------------------------------------------

  /** Lexicographic order, as the source language compares strings. */
  predicate Less(a: string, b: string) {
    b != [] && (a == [] || a[0] < b[0] || (a[0] == b[0] && Less(a[1..], b[1..])))
  }

  /** a and b agree before i, where a ends or has the smaller character. */
  predicate SmallerFrom(a: string, b: string, i: nat) {
    i <= |a| && i < |b| && a[..i] == b[..i] && (i == |a| || a[i] < b[i])
  }

  lemma {:induction false} LessIs(a: string, b: string)
    ensures Less(a, b) <==> exists i: nat :: SmallerFrom(a, b, i)
    decreases |a|
  {
    if a == [] || b == [] || a[0] < b[0] {
      if b != [] { assert SmallerFrom(a, b, 0); }
    } else {
      LessIs(a[1..], b[1..]);
      if a[0] == b[0] && Less(a[1..], b[1..]) {
        var i: nat :| SmallerFrom(a[1..], b[1..], i);
        SmallerShifts(a, b, i);
      }
      if i: nat :| SmallerFrom(a, b, i) {
        assert i != 0 && a[..i][0] == b[..i][0];
        SmallerShifts(a, b, i - 1);
      }
    }
  }

  lemma SmallerShifts(a: string, b: string, i: nat)
    requires a != [] && b != [] && a[0] == b[0]
    ensures SmallerFrom(a[1..], b[1..], i) <==> SmallerFrom(a, b, i + 1)
  {
    if i < |a| && i + 1 < |b| {
      assert a[..i + 1] == [a[0]] + a[1..][..i] && b[..i + 1] == [b[0]] + b[1..][..i];
    }
  }

  lemma {:induction false} LessIsTotal(a: string, b: string)
    ensures Less(a, b) || Less(b, a) || a == b
    decreases |a|
  {
    if a != [] && b != [] {
      LessIsTotal(a[1..], b[1..]);
      assert a == [a[0]] + a[1..] && b == [b[0]] + b[1..];
    }
  }

  lemma {:induction false} LessIsTransitive(a: string, b: string, c: string)
    requires Less(a, b) && Less(b, c)
    ensures Less(a, c)
    decreases |a|
  {
    if a != [] && a[0] == b[0] && b[0] == c[0] {
      LessIsTransitive(a[1..], b[1..], c[1..]);
    }
  }

  lemma {:induction false} LessIsStrict(a: string)
    ensures !Less(a, a)
    decreases |a|
  {
    if a != [] {
      LessIsStrict(a[1..]);
    }
  }

  predicate Ascending(es: seq<Entry>) {
    forall i, j | 0 <= i < j < |es| :: Less(es[i].namespace, es[j].namespace)
  }

  /** es lists exactly the grant's pairs, sorted by namespace. */
  ghost predicate Lists(es: seq<Entry>, g: Perms) {
    && Ascending(es)
    && (forall i | 0 <= i < |es| :: es[i].namespace in g && g[es[i].namespace] == es[i].role)
    && forall ns | ns in g :: Entry(ns, g[ns]) in es
  }

  lemma ListedOnce(es: seq<Entry>)
    requires Ascending(es)
    ensures OncePerNamespace(es)
  {
    forall i, j | 0 <= i < j < |es| ensures es[i].namespace != es[j].namespace {
      LessIsStrict(es[i].namespace);
    }
  }

  /** The head of one listing heads the other. */
  lemma SameHead(a: seq<Entry>, b: seq<Entry>, g: Perms)
    requires Lists(a, g) && Lists(b, g) && a != []
    ensures b != [] && a[0] == b[0]
  {
    assert Entry(a[0].namespace, g[a[0].namespace]) == a[0];
    assert a[0] in b;
    var i :| 0 <= i < |b| && b[i] == a[0];
    assert Entry(b[0].namespace, g[b[0].namespace]) == b[0];
    assert b[0] in a;
    var j :| 0 <= j < |a| && a[j] == b[0];
    if 0 < i && 0 < j {
      LessIsTransitive(a[0].namespace, b[0].namespace, a[0].namespace);
      LessIsStrict(a[0].namespace);
      assert false;
    }
  }

  lemma TailLists(es: seq<Entry>, g: Perms)
    requires Lists(es, g) && es != []
    ensures Lists(es[1..], g - {es[0].namespace})
  {
    ListedOnce(es);
    var rest := es[1..];
    assert forall i | 0 <= i < |rest| :: rest[i] == es[i + 1];
    forall ns | ns in g && ns != es[0].namespace ensures Entry(ns, g[ns]) in rest {
      var i :| 0 <= i < |es| && es[i] == Entry(ns, g[ns]);
      assert rest[i - 1] == es[i];
    }
  }

  lemma SameHeadAndTail(a: seq<Entry>, b: seq<Entry>)
    requires a != [] && b != [] && a[0] == b[0] && a[1..] == b[1..]
    ensures a == b
  {
    assert a == [a[0]] + a[1..] && b == [b[0]] + b[1..];
  }

  /** A grant has one listing, whatever order its map is walked in. */
  lemma {:induction false} ListingIsUnique(a: seq<Entry>, b: seq<Entry>, g: Perms)
    requires Lists(a, g) && Lists(b, g)
    ensures a == b
    decreases |a|
  {
    if a != [] {
      SameHead(a, b, g);
      TailLists(a, g);
      TailLists(b, g);
      ListingIsUnique(a[1..], b[1..], g - {a[0].namespace});
      SameHeadAndTail(a, b);
    } else if b != [] {
      SameHead(b, a, g);
    }
  }

  function Insert(es: seq<Entry>, e: Entry): seq<Entry> {
    if es == [] || Less(e.namespace, es[0].namespace) then [e] + es else [es[0]] + Insert(es[1..], e)
  }

  lemma {:induction false} InsertHas(es: seq<Entry>, e: Entry)
    ensures forall x :: x in Insert(es, e) <==> x == e || x in es
  {
    if es != [] && !Less(e.namespace, es[0].namespace) {
      InsertHas(es[1..], e);
      assert es == [es[0]] + es[1..];
    }
  }

  lemma {:induction false} InsertAscends(es: seq<Entry>, e: Entry)
    requires Ascending(es) && forall i | 0 <= i < |es| :: es[i].namespace != e.namespace
    ensures Ascending(Insert(es, e))
    decreases |es|
  {
    if es != [] {
      var rest := es[1..];
      if Less(e.namespace, es[0].namespace) {
        forall i | 0 < i < |es| ensures Less(e.namespace, es[i].namespace) {
          LessIsTransitive(e.namespace, es[0].namespace, es[i].namespace);
        }
      } else {
        LessIsTotal(e.namespace, es[0].namespace);
        InsertAscends(rest, e);
        InsertHas(rest, e);
        var tail := Insert(rest, e);
        forall i | 0 <= i < |tail| ensures Less(es[0].namespace, tail[i].namespace) {
          assert tail[i] in tail;
        }
      }
    }
  }

  /** The pairs in sorted order, however the map yields them. */
  method Namespaces(g: Perms) returns (es: seq<Entry>)
    ensures Lists(es, g)
  {
    es := [];
    var todo := g.Keys;
    while todo != {}
      invariant todo <= g.Keys && Ascending(es)
      invariant forall x :: x in es <==> x.namespace in g && x.namespace !in todo && g[x.namespace] == x.role
    {
      var ns :| ns in todo;
      forall i | 0 <= i < |es| ensures es[i].namespace != ns { assert es[i] in es; }
      InsertAscends(es, Entry(ns, g[ns]));
      InsertHas(es, Entry(ns, g[ns]));
      es := Insert(es, Entry(ns, g[ns]));
      todo := todo - {ns};
    }
    forall i | 0 <= i < |es| ensures es[i].namespace in g && g[es[i].namespace] == es[i].role { assert es[i] in es; }
  }

  /** Building from a listing gives the grant back. */
  lemma BuiltOfListing(es: seq<Entry>, g: Perms)
    requires Lists(es, g)
    ensures Built(es) == g
  {
    forall ns ensures ns in Built(es) <==> ns in g {
      BuiltIs(es, ns);
      if ns in g {
        var i :| 0 <= i < |es| && es[i] == Entry(ns, g[ns]);
      }
    }
    forall ns | ns in Built(es) ensures Built(es)[ns] == g[ns] {
      BuiltIs(es, ns);
    }
  }

  /** A listed grant means itself to the authorizer, whichever way repeated entries are read. */
  lemma ListingMeansGrant(es: seq<Entry>, g: Perms, target: string, required: Role)
    requires Lists(es, g)
    ensures Authorizes(es, target, required) <==> Grants(g, target, required)
    ensures Ored(es, target) == Overridden(es, target)
  {
    BuiltOfListing(es, g);
    GrantDecidesAsMask(es, target, required);
    ListedOnce(es);
    ReadingsAgree(es, target);
  }

  // ---------------------------------------------------------------------
  // Text
  // ---------------------------------------------------------------------

  function RoleText(r: Role): string {
    match r
    case Worker => "worker"
    case Read => "read"
    case Write => "write"
    case Admin => "admin"
    case Other(text) => text
  }

  function RoleOf(s: string): (r: Role)
    ensures RoleText(r) == s
  {
    if s == "worker" then Worker
    else if s == "read" then Read
    else if s == "write" then Write
    else if s == "admin" then Admin
    else Other(s)
  }

  function Render(e: Entry): string {
    e.namespace + ":" + RoleText(e.role)
  }

  /** Where the last colon is, -1 if there is none. */
  function LastColon(s: string): (i: int)
    ensures -1 <= i < |s|
    ensures 0 <= i ==> s[i] == ':'
    ensures forall j | i < j < |s| :: s[j] != ':'
  {
    if s == [] then -1 else if s[|s| - 1] == ':' then |s| - 1 else LastColon(s[..|s| - 1])
  }

  datatype EntryResult = Good(entry: Entry) | Bad(error: Error)

  function ParseEntry(s: string): EntryResult {
    var i := LastColon(s);
    if i < 0 then Bad(MalformedEntry)
    else if i == 0 then Bad(EmptyNamespace)
    else if !ValidRole(RoleOf(s[i + 1..])) then Bad(InvalidRole)
    else Good(Entry(s[..i], RoleOf(s[i + 1..])))
  }

  // ---------------------------------------------------------------------
  // The same by the text alone
  // ---------------------------------------------------------------------

  /** s is the entry's namespace, a colon and the name of its role. */
  predicate Says(s: string, e: Entry) {
    e.namespace != "" &&
    match e.role
    case Worker => s == e.namespace + ":worker"
    case Read => s == e.namespace + ":read"
    case Write => s == e.namespace + ":write"
    case Admin => s == e.namespace + ":admin"
    case Other(_) => false
  }

  predicate NamesRole(text: string) {
    text == "worker" || text == "read" || text == "write" || text == "admin"
  }

  /** What is wrong with s: no colon, nothing before the only one, or no role after the last. */
  predicate Faulty(s: string, error: Error) {
    match error
    case MalformedEntry => ':' !in s
    case EmptyNamespace => s != "" && LastOf(s, 0)
    case InvalidRole => exists i :: 0 < i < |s| && LastOf(s, i) && !NamesRole(s[i + 1..])
  }

  /** The colon at i has none after it. */
  predicate LastOf(s: string, i: int)
    requires 0 <= i < |s|
  {
    s[i] == ':' && ':' !in s[i + 1..]
  }

  lemma LastColonIs(s: string, i: nat)
    requires i < |s| && s[i] == ':' && forall j | i < j < |s| :: s[j] != ':'
    ensures LastColon(s) == i
  {}

  lemma ColonIsLast(s: string, ns: string, text: string)
    requires ':' !in text && s == ns + [':'] + text
    ensures LastColon(s) == |ns|
  {
    forall j | |ns| < j < |s| ensures s[j] != ':' {
      assert s[j] == text[j - |ns| - 1];
    }
    LastColonIs(s, |ns|);
  }

  /** A namespace may itself hold colons. */
  lemma ParseRendered(e: Entry)
    requires ValidRole(e.role)
    ensures ParseEntry(Render(e)) == if e.namespace == "" then Bad(EmptyNamespace) else Good(e)
  {
    var text := RoleText(e.role);
    assert ':' !in text;
    ColonIsLast(Render(e), e.namespace, text);
    assert Render(e)[..|e.namespace|] == e.namespace && Render(e)[|e.namespace| + 1..] == text;
    assert RoleOf(text) == e.role;
  }

  lemma SaysRendered(s: string, e: Entry)
    ensures Says(s, e) <==> e.namespace != "" && ValidRole(e.role) && s == Render(e)
  {
    if e.role.Worker? { assert ":" + "worker" == ":worker"; }
    if e.role.Read? { assert ":" + "read" == ":read"; }
    if e.role.Write? { assert ":" + "write" == ":write"; }
    if e.role.Admin? { assert ":" + "admin" == ":admin"; }
  }

  /** An entry is read exactly from the text that says it. */
  lemma GoodIsSaid(s: string, e: Entry)
    ensures ParseEntry(s) == Good(e) <==> Says(s, e)
  {
    SaysRendered(s, e);
    if Says(s, e) {
      ParseRendered(e);
    }
    if ParseEntry(s) == Good(e) {
      var i := LastColon(s);
      assert s == s[..i] + [s[i]] + s[i + 1..];
    }
  }

  lemma NoColon(s: string)
    ensures LastColon(s) < 0 <==> ':' !in s
  {}

  lemma ColonAt(s: string, i: nat)
    requires i < |s|
    ensures LastColon(s) == i <==> LastOf(s, i)
  {
    var rest := s[i + 1..];
    if LastOf(s, i) {
      forall j | i < j < |s| ensures s[j] != ':' { assert s[j] == rest[j - i - 1]; }
      LastColonIs(s, i);
    }
  }

  lemma RoleNamed(text: string)
    ensures ValidRole(RoleOf(text)) <==> NamesRole(text)
  {}

  lemma RoleFault(s: string)
    ensures ParseEntry(s) == Bad(InvalidRole) <==> Faulty(s, InvalidRole)
  {
    var i := LastColon(s);
    if 0 < i {
      ColonAt(s, i);
      RoleNamed(s[i + 1..]);
      assert !NamesRole(s[i + 1..]) ==> Faulty(s, InvalidRole);
    }
    if Faulty(s, InvalidRole) {
      var j :| 0 < j < |s| && LastOf(s, j) && !NamesRole(s[j + 1..]);
      ColonAt(s, j);
      RoleNamed(s[j + 1..]);
    }
  }

  /** A fault is named exactly for the text that has it. */
  lemma BadIsFaulty(s: string, error: Error)
    ensures ParseEntry(s) == Bad(error) <==> Faulty(s, error)
  {
    match error
    case MalformedEntry => NoColon(s);
    case EmptyNamespace => if s != "" { ColonAt(s, 0); }
    case InvalidRole => RoleFault(s);
  }

  // ---------------------------------------------------------------------
  // Claims
  // ---------------------------------------------------------------------

  function ParseClaimSpec(claim: seq<string>): Parsed {
    if claim == [] then Ok(map[])
    else
      var n := |claim| - 1;
      match ParseClaimSpec(claim[..n])
      case Err(error, i) => Err(error, i)
      case Ok(g) =>
        match ParseEntry(claim[n])
        case Bad(error) => Err(error, n)
        case Good(e) => Ok(Added(g, e.namespace, e.role))
  }

  lemma {:induction false} ErrorsStay(claim: seq<string>, n: nat)
    requires n <= |claim| && ParseClaimSpec(claim[..n]).Err?
    ensures ParseClaimSpec(claim) == ParseClaimSpec(claim[..n])
    decreases |claim|
  {
    if n < |claim| {
      assert claim[..|claim| - 1][..n] == claim[..n];
      ErrorsStay(claim[..|claim| - 1], n);
    } else {
      assert claim[..n] == claim;
    }
  }

  method ParseClaim(claim: seq<string>) returns (r: Parsed)
    ensures r == ParseClaimSpec(claim)
  {
    var g := new Grant();
    for i := 0 to |claim|
      invariant ParseClaimSpec(claim[..i]) == Ok(g.perms)
    {
      assert claim[..i + 1][..i] == claim[..i];
      var idx := LastColon(claim[i]);
      if idx < 0 {
        ErrorsStay(claim, i + 1);
        return Err(MalformedEntry, i);
      }
      var namespace, role := claim[i][..idx], RoleOf(claim[i][idx + 1..]);
      if namespace == "" {
        ErrorsStay(claim, i + 1);
        return Err(EmptyNamespace, i);
      }
      if !ValidRole(role) {
        ErrorsStay(claim, i + 1);
        return Err(InvalidRole, i);
      }
      g.Add(namespace, role);
    }
    assert claim[..|claim|] == claim;
    r := Ok(g.perms);
  }

  method ToClaim(g: Perms) returns (claim: seq<string>)
    ensures exists es :: Lists(es, g) && claim == Rendered(es)
  {
    var es := Namespaces(g);
    claim := [];
    for i := 0 to |es|
      invariant claim == Rendered(es[..i])
    {
      assert es[..i + 1] == es[..i] + [es[i]];
      claim := claim + [Render(es[i])];
    }
    assert es[..|es|] == es;
  }

  function Rendered(es: seq<Entry>): seq<string> {
    seq(|es|, i requires 0 <= i < |es| => Render(es[i]))
  }

  predicate AllGood(claim: seq<string>) {
    forall i | 0 <= i < |claim| :: ParseEntry(claim[i]).Good?
  }

  function EntriesOf(claim: seq<string>): seq<Entry>
    requires AllGood(claim)
  {
    seq(|claim|, i requires 0 <= i < |claim| => ParseEntry(claim[i]).entry)
  }

  /** A claim of good entries parses into what building from them gives. */
  lemma {:induction false} ParseIsBuilt(claim: seq<string>)
    requires AllGood(claim)
    ensures ParseClaimSpec(claim) == Ok(Built(EntriesOf(claim)))
    decreases |claim|
  {
    if claim != [] {
      var n := |claim| - 1;
      assert forall j | 0 <= j < n :: claim[..n][j] == claim[j];
      ParseIsBuilt(claim[..n]);
      EntriesGrow(claim);
    }
  }

  lemma EntriesGrow(claim: seq<string>)
    requires AllGood(claim) && claim != []
    ensures var n := |claim| - 1;
      && AllGood(claim[..n])
      && Built(EntriesOf(claim)) == Added(Built(EntriesOf(claim[..n])), ParseEntry(claim[n]).entry.namespace,
        ParseEntry(claim[n]).entry.role)
  {
    var n := |claim| - 1;
    assert forall j | 0 <= j < n :: claim[..n][j] == claim[j];
    assert EntriesOf(claim)[..n] == EntriesOf(claim[..n]);
  }

  predicate FirstBad(claim: seq<string>, i: nat) {
    i < |claim| && AllGood(claim[..i]) && ParseEntry(claim[i]).Bad?
  }

  lemma FirstBadIsNamed(claim: seq<string>, i: nat)
    requires FirstBad(claim, i)
    ensures ParseClaimSpec(claim) == Err(ParseEntry(claim[i]).error, i)
  {
    ParseIsBuilt(claim[..i]);
    assert claim[..i + 1][..i] == claim[..i];
    ErrorsStay(claim, i + 1);
  }

  lemma {:induction false} SomeFirstBad(claim: seq<string>) returns (i: nat)
    requires !AllGood(claim)
    ensures FirstBad(claim, i)
    decreases |claim|
  {
    var n := |claim| - 1;
    var init := claim[..n];
    assert forall j | 0 <= j < n :: init[j] == claim[j];
    if AllGood(init) {
      i := n;
    } else {
      i := SomeFirstBad(init);
      assert claim[..i] == init[..i];
    }
  }

  lemma {:induction false} ParsesExactlyWhenGood(claim: seq<string>)
    ensures ParseClaimSpec(claim).Ok? <==> AllGood(claim)
  {
    if AllGood(claim) {
      ParseIsBuilt(claim);
    } else {
      var i := SomeFirstBad(claim);
      FirstBadIsNamed(claim, i);
    }
  }

  /** Entry by entry, the claim says es. */
  predicate Spells(claim: seq<string>, es: seq<Entry>) {
    |claim| == |es| && forall i | 0 <= i < |claim| :: Says(claim[i], es[i])
  }

  lemma SpeltIsGood(claim: seq<string>, es: seq<Entry>)
    requires Spells(claim, es)
    ensures AllGood(claim) && EntriesOf(claim) == es
  {
    forall i | 0 <= i < |claim| ensures ParseEntry(claim[i]) == Good(es[i]) { GoodIsSaid(claim[i], es[i]); }
  }

  /** A claim parses exactly if every text in it says an entry, and then into the grant built from those. */
  lemma ParsesExactlyWhenSpelt(claim: seq<string>)
    ensures ParseClaimSpec(claim).Ok? <==> exists es :: Spells(claim, es)
    ensures forall es | Spells(claim, es) :: ParseClaimSpec(claim) == Ok(Built(es))
  {
    ParsesExactlyWhenGood(claim);
    forall es | Spells(claim, es) ensures AllGood(claim) && ParseClaimSpec(claim) == Ok(Built(es)) {
      SpeltIsGood(claim, es);
      ParseIsBuilt(claim);
    }
    if AllGood(claim) {
      var es := EntriesOf(claim);
      forall i | 0 <= i < |claim| ensures Says(claim[i], es[i]) { GoodIsSaid(claim[i], es[i]); }
      assert Spells(claim, es);
    }
  }

  /** Otherwise the first text that says none is named, with what is wrong with it. */
  lemma FirstErrorIsNamed(claim: seq<string>, i: nat, es: seq<Entry>, error: Error)
    requires i < |claim| && Spells(claim[..i], es) && Faulty(claim[i], error)
    ensures ParseClaimSpec(claim) == Err(error, i)
  {
    SpeltIsGood(claim[..i], es);
    BadIsFaulty(claim[i], error);
    FirstBadIsNamed(claim, i);
  }

  /** What a parsed claim grants is what the ORed masks of its own entries decide, duplicates included. */
  lemma ParsedMeansClaim(claim: seq<string>, es: seq<Entry>, target: string, required: Role)
    requires Spells(claim, es)
    ensures ParseClaimSpec(claim).Ok?
    ensures Authorizes(es, target, required) <==> Grants(ParseClaimSpec(claim).perms, target, required)
  {
    ParsesExactlyWhenSpelt(claim);
    GrantDecidesAsMask(es, target, required);
  }

  predicate Nameable(g: Perms) {
    forall ns | ns in g :: ns != "" && ValidRole(g[ns])
  }

  lemma {:induction false} ParsedIsNameable(claim: seq<string>)
    requires ParseClaimSpec(claim).Ok?
    ensures Nameable(ParseClaimSpec(claim).perms)
  {
    ParsesExactlyWhenGood(claim);
    ParseIsBuilt(claim);
    var es := EntriesOf(claim);
    forall ns | ns in Built(es) ensures ns != "" && ValidRole(Built(es)[ns]) {
      BuiltIs(es, ns);
      var i :| Wins(es, i) && es[i] == Entry(ns, Built(es)[ns]);
      assert ParseEntry(claim[i]).Good?;
    }
  }

  /** Rendering a grant and parsing it back is the identity exactly for non-empty namespaces with roles that exist. */
  lemma RoundTripIff(g: Perms, es: seq<Entry>)
    requires Lists(es, g)
    ensures ParseClaimSpec(Rendered(es)) == Ok(g) <==> Nameable(g)
  {
    var claim := Rendered(es);
    if Nameable(g) {
      forall i | 0 <= i < |claim| ensures ParseEntry(claim[i]) == Good(es[i]) {
        ParseRendered(es[i]);
      }
      assert EntriesOf(claim) == es;
      ParseIsBuilt(claim);
      BuiltOfListing(es, g);
    } else if ParseClaimSpec(claim).Ok? {
      ParsedIsNameable(claim);
    }
  }

  /** A grant the source can hold that does not come back: the empty namespace is refused. */
  lemma EmptyNamespaceIsLost()
    ensures Lists([Entry("", Read)], map["" := Read])
    ensures ParseClaimSpec(Rendered([Entry("", Read)])) == Err(EmptyNamespace, 0)
  {
    var es := [Entry("", Read)];
    ParseRendered(es[0]);
    assert Rendered(es)[0] == Render(es[0]) && Rendered(es)[..0] == [];
    FirstBadIsNamed(Rendered(es), 0);
  }
}
