/** How the two policy computations relate, and what the decision does not depend on. */
module PolicyTheorems {
  import opened Wrappers
  import opened Identifiers
  import opened Sequences
  import opened Dicts
  import opened Policies
  import opened Rewrites

  lemma DenyMembers(policies: seq<Policy>, who: Principal, database: string, tables: seq<string>)
    ensures forall p ::
      p in Denies(policies, who, database, tables) <==> p in policies && IsDeny(p, who, database, tables)
  {
    FilterMembers((p: Policy) => IsDeny(p, who, database, tables), policies);
  }

  lemma GrantMembers(policies: seq<Policy>, who: Principal, database: string, tables: seq<string>)
    ensures forall p ::
      p in Grants(policies, who, database, tables) <==> p in policies && IsGrant(p, who, database, tables)
  {
    FilterMembers((p: Policy) => IsGrant(p, who, database, tables), policies);
  }

  // ---- Display and decision: tables ----

  predicate DeniedFor(p: Policy, who: Principal, database: string, t: string) {
    Applies(p, who, database) && p.effect == "deny" && (p.table.None? || p.table.value == t)
  }

  predicate GrantsFor(p: Policy, who: Principal, database: string, t: string) {
    Applies(p, who, database) && p.effect == "allow" && p.table == Some(t)
  }

  predicate ShowsFor(p: Policy, who: Principal, database: string, t: string) {
    Applies(p, who, database) && p.effect != "deny" && p.table == Some(t)
  }

  /** The gates of the decision, table by table. */
  lemma TableGateMeans(policies: seq<Policy>, who: Principal, database: string, tables: seq<string>)
    requires tables != []
    ensures TableGate(policies, who, database, tables)
       <==> forall t | t in tables ::
              (exists p | p in policies :: GrantsFor(p, who, database, Fold(t)))
              && !(exists p | p in policies :: DeniedFor(p, who, database, Fold(t)))
  {
    var denies, grants := Denies(policies, who, database, tables), Grants(policies, who, database, tables);
    DenyMembers(policies, who, database, tables);
    GrantMembers(policies, who, database, tables);
    assert denies == [] <==> forall p | p in policies :: !IsDeny(p, who, database, tables) by {
      if denies != [] { assert denies[0] in denies; }
    }
    forall t | t in tables
      ensures Fold(t) in GrantedTables(grants) <==> exists p | p in policies :: GrantsFor(p, who, database, Fold(t))
    {
      if p :| p in policies && GrantsFor(p, who, database, Fold(t)) {
        assert Matches(p, who, database, t);
        assert p in grants && p.table.value == Fold(t);
      }
      if Fold(t) in GrantedTables(grants) {
        var p :| p in grants && p.table.Some? && p.table.value == Fold(t);
        assert GrantsFor(p, who, database, Fold(t));
      }
    }
    forall t, p | t in tables && p in policies && DeniedFor(p, who, database, Fold(t))
      ensures IsDeny(p, who, database, tables)
    {
      assert Matches(p, who, database, t);
    }
    forall p | p in policies && IsDeny(p, who, database, tables)
      ensures exists t | t in tables :: DeniedFor(p, who, database, Fold(t))
    {
      var t :| t in tables && Matches(p, who, database, t);
      assert DeniedFor(p, who, database, Fold(t));
    }
    assert tables[0] in tables;
    if AllGranted(grants, tables) {
      assert Fold(tables[0]) in GrantedTables(grants);
    }
  }

  /** The displayed tables, table by table. */
  lemma SurfaceTableMeans(policies: seq<Policy>, who: Principal, database: string, t: string)
    ensures Fold(t) in Surface(true, policies, who, database).tables
       <==> (exists p | p in policies :: ShowsFor(p, who, database, Fold(t)))
            && !(exists p | p in policies :: DeniedFor(p, who, database, Fold(t)))
  {
    FoldTwice(t);
    var shown := Shown(policies, who, database);
    ShownMembers(policies, who, database);
    if p :| p in policies && ShowsFor(p, who, database, Fold(t)) {
      assert p in shown && p.table.value == Fold(t);
    }
    if Fold(t) in GrantedTables(shown) {
      var p :| p in shown && p.table.Some? && p.table.value == Fold(t);
      assert ShowsFor(p, who, database, Fold(t));
    }
    assert (exists p | p in policies :: DeniedFor(p, who, database, Fold(t)))
      <==> DeniesAll(policies, who, database) || Fold(t) in DeniedTables(policies, who, database) by {
      if p :| p in policies && DeniedFor(p, who, database, Fold(t)) {
        assert Considered(p, who, database);
      }
      if DeniesAll(policies, who, database) {
        var p :| p in policies && Considered(p, who, database) && p.effect == "deny" && p.table.None?;
        assert DeniedFor(p, who, database, Fold(t));
      }
      if Fold(t) in DeniedTables(policies, who, database) {
        var p :| p in policies && Considered(p, who, database) && p.effect == "deny" && p.table.Some?
                  && p.table.value == Fold(t);
        assert DeniedFor(p, who, database, Fold(t));
      }
    }
  }

  /** The display files every effect but deny under its table, the decision grants by `allow` alone. The two
      can only differ over a table that is shown by some other effect, not granted, and not denied. */
  predicate NoPhantomGrant(policies: seq<Policy>, who: Principal, database: string) {
    forall p | p in policies && Applies(p, who, database) && p.effect !in {"allow", "deny"} && p.table.Some?
        && Plain(p.table.value) && Fold(p.table.value) == p.table.value ::
      || (exists g | g in policies :: GrantsFor(g, who, database, p.table.value))
      || (exists d | d in policies :: DeniedFor(d, who, database, p.table.value))
  }

  /** A name that `table_accessible` normalizes to its lower-case form: no dot, quotes or blanks around it. */
  predicate Plain(t: string) {
    Normalize(t) == Fold(t)
  }

  predicate GateMirrored(policies: seq<Policy>, who: Principal, database: string, tables: seq<string>) {
    TableGate(policies, who, database, tables)
    <==> forall t | t in tables :: Surface(true, policies, who, database).TableAccessible(t)
  }

  lemma AccessibleTable(policies: seq<Policy>, who: Principal, database: string, t: string)
    requires Plain(t)
    ensures Surface(true, policies, who, database).TableAccessible(t)
       <==> (exists p | p in policies :: ShowsFor(p, who, database, Fold(t)))
            && !(exists p | p in policies :: DeniedFor(p, who, database, Fold(t)))
  {
    SurfaceTableMeans(policies, who, database, t);
  }

  lemma MirroredWithoutPhantoms(policies: seq<Policy>, who: Principal, database: string, tables: seq<string>)
    requires NoPhantomGrant(policies, who, database) && tables != [] && forall t | t in tables :: Plain(t)
    ensures GateMirrored(policies, who, database, tables)
  {
    TableGateMeans(policies, who, database, tables);
    forall t | t in tables
      ensures Surface(true, policies, who, database).TableAccessible(t)
         <==> (exists p | p in policies :: GrantsFor(p, who, database, Fold(t)))
              && !(exists p | p in policies :: DeniedFor(p, who, database, Fold(t)))
    {
      AccessibleTable(policies, who, database, t);
      FoldTwice(t);
      NormalizeFolded(t);
      if !(exists p | p in policies :: DeniedFor(p, who, database, Fold(t))) {
        ShownIsGranted(policies, who, database, Fold(t));
      }
    }
  }

  lemma PhantomNeedsGrant(policies: seq<Policy>, who: Principal, database: string, p: Policy)
    requires p in policies && Applies(p, who, database) && p.effect !in {"allow", "deny"} && p.table.Some?
    requires Plain(p.table.value) && Fold(p.table.value) == p.table.value
    requires GateMirrored(policies, who, database, [p.table.value])
    ensures (exists g | g in policies :: GrantsFor(g, who, database, p.table.value))
         || (exists d | d in policies :: DeniedFor(d, who, database, p.table.value))
  {
    var t := p.table.value;
    TableGateMeans(policies, who, database, [t]);
    AccessibleTable(policies, who, database, t);
    assert ShowsFor(p, who, database, t) && t in [t];
  }

  /** Display mirrors decision, for every list of plain table names, exactly when no table is shown by a
      foreign effect only. */
  lemma DisplayMirrorsTables(policies: seq<Policy>, who: Principal, database: string)
    ensures (forall tables: seq<string> | tables != [] && (forall t | t in tables :: Plain(t)) ::
             GateMirrored(policies, who, database, tables))
       <==> NoPhantomGrant(policies, who, database)
  {
    if NoPhantomGrant(policies, who, database) {
      forall tables: seq<string> | tables != [] && (forall t | t in tables :: Plain(t))
        ensures GateMirrored(policies, who, database, tables)
      {
        MirroredWithoutPhantoms(policies, who, database, tables);
      }
    }
    if forall tables: seq<string> | tables != [] && (forall t | t in tables :: Plain(t)) ::
        GateMirrored(policies, who, database, tables) {
      forall p | p in policies && Applies(p, who, database) && p.effect !in {"allow", "deny"} && p.table.Some?
          && Plain(p.table.value) && Fold(p.table.value) == p.table.value
        ensures (exists g | g in policies :: GrantsFor(g, who, database, p.table.value))
             || (exists d | d in policies :: DeniedFor(d, who, database, p.table.value))
      {
        assert GateMirrored(policies, who, database, [p.table.value]);
        PhantomNeedsGrant(policies, who, database, p);
      }
    }
  }

  /** A qualified name is displayed by its last part but decided on as a whole. */
  lemma DottedNameDiffers(who: Principal, database: string, allow: Policy)
    requires Applies(allow, who, database) && allow.effect == "allow" && allow.table == Some("emp")
    ensures Surface(true, [allow], who, database).TableAccessible("hr.emp")
    ensures !TableGate([allow], who, database, ["hr.emp"])
  {
    var t := "hr.emp";
    assert Fold(t) == t && Strip(t) == t && StripOf(t, Quoting) == t;
    assert LastComponent(t) == "emp" by {
      assert t[3..] == "emp" && t[2] == '.';
      assert DropWhileBackTo(t, 3) == t[3..] && DropWhileBackTo(t, 4) == t[3..] && DropWhileBackTo(t, 5) == t[3..];
    }
    assert Fold("emp") == "emp";
    SurfaceTableMeans([allow], who, database, "emp");
    assert ShowsFor(allow, who, database, "emp") && allow in [allow];
    TableGateMeans([allow], who, database, [t]);
    assert t in [t];
  }

  lemma ShownIsGranted(policies: seq<Policy>, who: Principal, database: string, t: string)
    requires NoPhantomGrant(policies, who, database) && Fold(t) == t && Plain(t)
    requires !(exists p | p in policies :: DeniedFor(p, who, database, t))
    ensures (exists p | p in policies :: ShowsFor(p, who, database, t))
       <==> (exists p | p in policies :: GrantsFor(p, who, database, t))
  {
    if p :| p in policies && ShowsFor(p, who, database, t) {
      if p.effect == "allow" {
        assert GrantsFor(p, who, database, t);
      }
    }
    if g :| g in policies && GrantsFor(g, who, database, t) {
      assert ShowsFor(g, who, database, t);
    }
  }

  // ---- Display and decision: columns ----

  lemma GrantsAreShown(policies: seq<Policy>, who: Principal, database: string, tables: seq<string>)
    ensures forall p | p in Grants(policies, who, database, tables) :: p in Shown(policies, who, database)
  {
    GrantMembers(policies, who, database, tables);
    ShownMembers(policies, who, database);
    forall p | p in Grants(policies, who, database, tables) ensures IsShown(p, who, database) {
      var t :| t in tables && Matches(p, who, database, t);
      FoldTwice(t);
    }
  }

  lemma ListedMonotone(a: seq<Policy>, b: seq<Policy>)
    requires forall p | p in a :: p in b
    ensures ListedColumns(a) <= ListedColumns(b)
  {
  }

  /** Every column the decision lets through by a column list is displayed, on every table of the query. */
  lemma AllowedColumnsDisplayed(policies: seq<Policy>, who: Principal, database: string, tables: seq<string>,
                                referenced: set<string>, t: string, c: string)
    requires Decide(true, policies, who, database, tables, referenced).allowed
    requires ListedColumns(Grants(policies, who, database, tables)) != {}
    requires t in tables && c in referenced && Normalize(t) == Fold(t) && Normalize(c) == c
    ensures Surface(true, policies, who, database).ColumnAccessible(t, c)
  {
    GrantsAreShown(policies, who, database, tables);
    ListedMonotone(Grants(policies, who, database, tables), Shown(policies, who, database));
    TableGateMeans(policies, who, database, tables);
    SurfaceTableMeans(policies, who, database, t);
    var p :| p in policies && GrantsFor(p, who, database, Fold(t));
    assert ShowsFor(p, who, database, Fold(t));
  }

  /** The query names every displayed table, and column lists stand on displayed tables, in allow policies. */
  predicate WholeSchema(a: Access, shown: seq<Policy>, tables: seq<string>) {
    && (forall x | x in a.tables :: exists t | t in tables :: Fold(t) == x)
    && forall p | p in shown && p.columns != {} :: p.effect == "allow" && p.table.Some? && p.table.value in a.tables
  }

  /** The column lists that confine a query over the whole displayed schema are the displayed columns. */
  lemma ColumnsMirrored(policies: seq<Policy>, who: Principal, database: string, tables: seq<string>)
    requires WholeSchema(Surface(true, policies, who, database), Shown(policies, who, database), tables)
    ensures ListedColumns(Grants(policies, who, database, tables)) == Surface(true, policies, who, database).columns
  {
    var grants, shown := Grants(policies, who, database, tables), Shown(policies, who, database);
    GrantsAreShown(policies, who, database, tables);
    ListedMonotone(grants, shown);
    GrantMembers(policies, who, database, tables);
    ShownMembers(policies, who, database);
    forall c | c in ListedColumns(shown) ensures c in ListedColumns(grants) {
      var p :| p in shown && c in p.columns;
      var t :| t in tables && Fold(t) == p.table.value;
      assert Matches(p, who, database, t);
    }
  }

  lemma AccessibleMeans(a: Access, grants: seq<Policy>, tables: seq<string>, referenced: set<string>)
    requires !a.unrestricted && ListedColumns(grants) == a.columns
    requires tables != [] && (forall t | t in tables :: Normalize(t) in a.tables)
    requires forall c | c in referenced :: Normalize(c) == c
    ensures ColumnGate(grants, referenced) <==> forall t, c | t in tables && c in referenced :: a.ColumnAccessible(t, c)
  {
    if forall t, c | t in tables && c in referenced :: a.ColumnAccessible(t, c) {
      forall c | c in referenced && a.columns != {} ensures c in a.columns {
        assert a.ColumnAccessible(tables[0], c);
      }
    }
  }

  /** Over such a query, the column gate lets through exactly the columns displayed on all of its tables. */
  lemma ColumnGateMirrored(policies: seq<Policy>, who: Principal, database: string, tables: seq<string>,
                           referenced: set<string>, a: Access)
    requires a == Surface(true, policies, who, database) && WholeSchema(a, Shown(policies, who, database), tables)
    requires tables != [] && (forall t | t in tables :: Normalize(t) in a.tables)
    requires forall c | c in referenced :: Normalize(c) == c
    ensures ColumnGate(Grants(policies, who, database, tables), referenced)
       <==> forall t, c | t in tables && c in referenced :: a.ColumnAccessible(t, c)
  {
    ColumnsMirrored(policies, who, database, tables);
    AccessibleMeans(a, Grants(policies, who, database, tables), tables, referenced);
  }

  // ---- The decision, policy by policy ----

  /** A column list of some granting policy has the column, if any of them has a list. */
  predicate ColumnPermitted(policies: seq<Policy>, who: Principal, database: string, tables: seq<string>, c: string) {
    || (forall p | p in policies && IsGrant(p, who, database, tables) :: p.columns == {})
    || (exists p | p in policies && IsGrant(p, who, database, tables) :: c in p.columns)
  }

  lemma ColumnGateMeans(policies: seq<Policy>, who: Principal, database: string, tables: seq<string>,
                        referenced: set<string>)
    ensures ColumnGate(Grants(policies, who, database, tables), referenced)
       <==> forall c | c in referenced :: ColumnPermitted(policies, who, database, tables, c)
  {
    var grants := Grants(policies, who, database, tables);
    GrantMembers(policies, who, database, tables);
    HasList(grants);
    forall c | c in referenced
      ensures ColumnPermitted(policies, who, database, tables, c)
         <==> ListedColumns(grants) == {} || c in ListedColumns(grants)
    {
      assert ListedColumns(grants) == {} <==> forall p | p in grants :: p.columns == {};
    }
  }

  /** What an allow takes: an allow policy and no deny for every table, a list for every column where there
      are lists, and an attribute of the subject for every restricted column. */
  lemma AllowedExactly(policies: seq<Policy>, who: Principal, database: string, tables: seq<string>,
                       referenced: set<string>)
    ensures Decide(true, policies, who, database, tables, referenced).allowed
       <==> && tables != []
            && (forall t | t in tables ::
                 (exists p | p in policies :: GrantsFor(p, who, database, Fold(t)))
                 && !(exists p | p in policies :: DeniedFor(p, who, database, Fold(t))))
            && (forall c | c in referenced :: ColumnPermitted(policies, who, database, tables, c))
            && forall r | r in MergedScopes(Grants(policies, who, database, tables)) :: !Absent(r.1, who)
  {
    if tables != [] {
      TableGateMeans(policies, who, database, tables);
      ColumnGateMeans(policies, who, database, tables, referenced);
    }
  }

  /** What an allow masks: every masked column of every granting policy, no other; and all of it is displayed
      as masked. */
  lemma AllowedMasks(policies: seq<Policy>, who: Principal, database: string, tables: seq<string>,
                     referenced: set<string>)
    requires Decide(true, policies, who, database, tables, referenced).allowed
    ensures var d := Decide(true, policies, who, database, tables, referenced);
      && (forall c :: c in d.masked <==> exists p | p in policies && IsGrant(p, who, database, tables) ::
          c in p.maskedColumns)
      && d.masked <= Surface(true, policies, who, database).masked
  {
    GrantMembers(policies, who, database, tables);
    GrantsAreShown(policies, who, database, tables);
  }

  /** The restrictions are on every scope column of every granting policy and no other, each once. */
  predicate RestrictsAll(restrictions: Dict, policies: seq<Policy>, who: Principal, database: string,
                         tables: seq<string>) {
    && IsDict(restrictions)
    && (forall p, c | p in policies && IsGrant(p, who, database, tables) && c in p.Scope() :: c in ToMap(restrictions))
    && forall c | c in ToMap(restrictions) :: exists p | p in policies && IsGrant(p, who, database, tables) ::
         c in p.Scope()
  }

  lemma GrantsRestrict(policies: seq<Policy>, who: Principal, database: string, tables: seq<string>)
    requires AllValid(policies)
    ensures RestrictsAll(MergedScopes(Grants(policies, who, database, tables)), policies, who, database, tables)
  {
    var grants := Grants(policies, who, database, tables);
    GrantMembers(policies, who, database, tables);
    MergedMeans(grants);
    MergedIsDict(grants);
    forall c | c in Merged(grants)
      ensures exists p | p in policies && IsGrant(p, who, database, tables) :: c in p.Scope()
    {
      var p :| p in grants && c in p.Scope();
      assert p in policies && IsGrant(p, who, database, tables);
    }
  }

  lemma AllowedGives(policies: seq<Policy>, who: Principal, database: string, tables: seq<string>,
                     referenced: set<string>)
    requires Decide(true, policies, who, database, tables, referenced).allowed
    ensures Decide(true, policies, who, database, tables, referenced).rowRestrictions
         == MergedScopes(Grants(policies, who, database, tables))
  {
  }

  /** What an allow restricts: every scope column of every granting policy, no other, each once. */
  lemma AllowedRestricts(policies: seq<Policy>, who: Principal, database: string, tables: seq<string>,
                         referenced: set<string>)
    requires AllValid(policies) && Decide(true, policies, who, database, tables, referenced).allowed
    ensures RestrictsAll(Decide(true, policies, who, database, tables, referenced).rowRestrictions, policies, who,
                         database, tables)
  {
    AllowedGives(policies, who, database, tables, referenced);
    GrantsRestrict(policies, who, database, tables);
  }

  /** Among grants that restrict one column, the last one names the attribute. */
  lemma {:induction false} LastGrantWins(grants: seq<Policy>, i: nat, c: string)
    requires AllValid(grants) && i < |grants| && c in grants[i].Scope()
    requires forall j | i < j < |grants| :: c !in grants[j].Scope()
    ensures c in Merged(grants) && Merged(grants)[c] == grants[i].Scope()[c]
    decreases |grants|
  {
    MergedIsDict(grants);
    if i < |grants| - 1 {
      LastGrantWins(grants[..|grants| - 1], i, c);
    }
  }

  // ---- The order of policies ----

  ghost predicate SameMembers(a: seq<Policy>, b: seq<Policy>) {
    forall p :: p in a <==> p in b
  }

  /** No two grants map one scope column to different subject attributes. */
  predicate Compatible(grants: seq<Policy>) {
    forall p, q, c | p in grants && q in grants && c in p.Scope() && c in q.Scope() :: p.Scope()[c] == q.Scope()[c]
  }

  /** The merged restrictions, as a mapping. */
  function Merged(grants: seq<Policy>): map<string, string> {
    ToMap(MergedScopes(grants))
  }

  lemma {:induction false} MergedIsDict(grants: seq<Policy>)
    requires AllValid(grants)
    ensures IsDict(MergedScopes(grants))
    ensures grants != [] ==> Merged(grants) == Merged(grants[..|grants| - 1]) + grants[|grants| - 1].Scope()
  {
    if grants != [] {
      MergedIsDict(grants[..|grants| - 1]);
      assert grants[|grants| - 1].Valid();
      UpdateMeans(MergedScopes(grants[..|grants| - 1]), grants[|grants| - 1].rowScope);
    }
  }

  /** The mapping takes each of its items from a grant, and leaves out no column of any. */
  predicate DrawnFrom(m: map<string, string>, grants: seq<Policy>) {
    && (forall p, c | p in grants && c in p.Scope() :: c in m)
    && forall c | c in m :: exists p | p in grants :: c in p.Scope() && p.Scope()[c] == m[c]
  }

  lemma DrawnFromMore(m: map<string, string>, grants: seq<Policy>, last: Policy)
    requires DrawnFrom(m, grants)
    ensures DrawnFrom(m + last.Scope(), grants + [last])
  {
    var n, all := m + last.Scope(), grants + [last];
    forall c | c in n ensures exists p | p in all :: c in p.Scope() && p.Scope()[c] == n[c] {
      if c in last.Scope() {
        assert last in all;
      } else {
        var p :| p in grants && c in p.Scope() && p.Scope()[c] == m[c];
        assert p in all;
      }
    }
  }

  lemma {:induction false} MergedMeans(grants: seq<Policy>)
    requires AllValid(grants)
    ensures DrawnFrom(Merged(grants), grants)
  {
    if grants != [] {
      var init := grants[..|grants| - 1];
      MergedMeans(init);
      MergedIsDict(grants);
      DrawnFromMore(Merged(init), init, grants[|grants| - 1]);
      assert grants == init + [grants[|grants| - 1]];
    }
  }

  lemma CompatibleSame(a: seq<Policy>, b: seq<Policy>)
    requires SameMembers(a, b) && Compatible(a)
    ensures Compatible(b)
  {
    forall p, q, c | p in b && q in b && c in p.Scope() && c in q.Scope() ensures p.Scope()[c] == q.Scope()[c] {
      assert p in a && q in a;
    }
  }

  /** Some grant contributes the merged value. */
  lemma MergedFrom(a: seq<Policy>, b: seq<Policy>, c: string)
    requires AllValid(a) && SameMembers(a, b) && Compatible(b) && c in Merged(a)
    ensures c in Merged(b) && Merged(a)[c] == Merged(b)[c]
  {
    MergedMeans(a);
    var p :| p in a && c in p.Scope() && p.Scope()[c] == Merged(a)[c];
    assert p in b;
    MergedMeans(b);
  }

  lemma MergedSame(a: seq<Policy>, b: seq<Policy>)
    requires AllValid(a) && SameMembers(a, b) && Compatible(a)
    ensures Merged(a) == Merged(b)
  {
    CompatibleSame(a, b);
    forall c ensures c in Merged(a) <==> c in Merged(b) {
      if c in Merged(a) { MergedFrom(a, b, c); }
      if c in Merged(b) { MergedFrom(b, a, c); }
    }
    forall c | c in Merged(a) ensures Merged(a)[c] == Merged(b)[c] {
      MergedFrom(a, b, c);
    }
  }

  /** Which attributes are asked for, as far as the merged mapping goes. */
  lemma AbsentMeans(grants: seq<Policy>, who: Principal)
    requires AllValid(grants)
    ensures FirstAbsent(MergedScopes(grants), who).None?
       <==> forall c | c in Merged(grants) :: !Absent(Merged(grants)[c], who)
  {
    MergedIsDict(grants);
    MapMeans(MergedScopes(grants));
  }

  lemma ListsSame(a: seq<Policy>, b: seq<Policy>, who: Principal, database: string, tables: seq<string>)
    requires SameMembers(a, b)
    ensures SameMembers(Denies(a, who, database, tables), Denies(b, who, database, tables))
    ensures SameMembers(Grants(a, who, database, tables), Grants(b, who, database, tables))
  {
    DenyMembers(a, who, database, tables);
    DenyMembers(b, who, database, tables);
    GrantMembers(a, who, database, tables);
    GrantMembers(b, who, database, tables);
  }

  lemma EmptySame(a: seq<Policy>, b: seq<Policy>)
    requires SameMembers(a, b)
    ensures a == [] <==> b == []
  {
    if a != [] { assert a[0] in b; }
    if b != [] { assert b[0] in a; }
  }

  /** The same verdict, kind of reason, row restrictions and masked columns. */
  predicate SameDecision(d: Decision, e: Decision) {
    && d.allowed == e.allowed && (d.reason == e.reason || (d.reason.AttributeAbsent? && e.reason.AttributeAbsent?))
    && ToMap(d.rowRestrictions) == ToMap(e.rowRestrictions) && d.masked == e.masked
  }

  /** Permuting or repeating policies changes neither the verdict, nor its kind of reason, nor the row
      restrictions, nor the masked columns, when the grants are compatible. Which of several absent attributes
      is named does depend on the order. */
  lemma OrderIrrelevant(a: seq<Policy>, b: seq<Policy>, enabled: bool, who: Principal, database: string,
                        tables: seq<string>, referenced: set<string>)
    requires AllValid(a) && SameMembers(a, b) && Compatible(Grants(a, who, database, tables))
    ensures SameDecision(Decide(enabled, a, who, database, tables, referenced),
                         Decide(enabled, b, who, database, tables, referenced))
  {
    ListsSame(a, b, who, database, tables);
    EmptySame(Denies(a, who, database, tables), Denies(b, who, database, tables));
    EmptySame(Grants(a, who, database, tables), Grants(b, who, database, tables));
    JudgeSame(Denies(a, who, database, tables), Denies(b, who, database, tables),
              Grants(a, who, database, tables), Grants(b, who, database, tables), who, tables, referenced);
  }

  lemma JudgeSame(d1: seq<Policy>, d2: seq<Policy>, g1: seq<Policy>, g2: seq<Policy>, who: Principal,
                  tables: seq<string>, referenced: set<string>)
    requires (d1 == [] <==> d2 == []) && (g1 == [] <==> g2 == []) && AllValid(g1) && SameMembers(g1, g2)
    requires Compatible(g1)
    ensures SameDecision(Judge(d1, g1, who, tables, referenced), Judge(d2, g2, who, tables, referenced))
  {
    MergedSame(g1, g2);
    AbsentMeans(g1, who);
    AbsentMeans(g2, who);
    assert GrantedTables(g1) == GrantedTables(g2);
    assert ListedColumns(g1) == ListedColumns(g2);
    assert MaskedColumns(g1) == MaskedColumns(g2);
  }

  /** A grant moved to the end. */
  function MovedLast(grants: seq<Policy>, i: nat): seq<Policy>
    requires i < |grants|
  {
    grants[..i] + grants[i + 1..] + [grants[i]]
  }

  lemma MovedLastPermutes(grants: seq<Policy>, i: nat)
    requires i < |grants| && AllValid(grants)
    ensures multiset(MovedLast(grants, i)) == multiset(grants)
    ensures forall c | c in grants[i].Scope() ::
      c in Merged(MovedLast(grants, i)) && Merged(MovedLast(grants, i))[c] == grants[i].Scope()[c]
  {
    assert grants == grants[..i] + [grants[i]] + grants[i + 1..];
    var moved := MovedLast(grants, i);
    assert moved[|moved| - 1] == grants[i] && moved[..|moved| - 1] == grants[..i] + grants[i + 1..];
    MergedIsDict(moved);
  }

  lemma PermutationMembers(a: seq<Policy>, b: seq<Policy>)
    requires multiset(a) == multiset(b)
    ensures SameMembers(a, b)
  {
    forall p ensures p in a <==> p in b {
      assert p in a <==> p in multiset(a);
      assert p in b <==> p in multiset(b);
    }
  }

  /** Compatibility is also necessary: otherwise some permutation merges to other restrictions. */
  lemma OrderMattersOnConflict(grants: seq<Policy>)
    requires AllValid(grants)
    ensures (forall other: seq<Policy> | multiset(other) == multiset(grants) :: Merged(other) == Merged(grants))
       <==> Compatible(grants)
  {
    if Compatible(grants) {
      forall other: seq<Policy> | multiset(other) == multiset(grants) ensures Merged(other) == Merged(grants) {
        PermutationMembers(grants, other);
        MergedSame(grants, other);
      }
    } else {
      var p, q, c :| p in grants && q in grants && c in p.Scope() && c in q.Scope() && p.Scope()[c] != q.Scope()[c];
      var i :| 0 <= i < |grants| && grants[i] == p;
      var j :| 0 <= j < |grants| && grants[j] == q;
      MovedLastPermutes(grants, i);
      MovedLastPermutes(grants, j);
      assert Merged(MovedLast(grants, i))[c] != Merged(MovedLast(grants, j))[c];
    }
  }

  // ---- Denies ----

  /** Adding a deny policy anywhere never turns a refusal into an allow, nor changes what an allow obliges to. */
  lemma DenyOnlyRefuses(before: seq<Policy>, deny: Policy, after: seq<Policy>, enabled: bool, who: Principal,
                        database: string, tables: seq<string>, referenced: set<string>)
    requires deny.effect == "deny"
    requires Decide(enabled, before + [deny] + after, who, database, tables, referenced).allowed
    ensures Decide(enabled, before + after, who, database, tables, referenced)
         == Decide(enabled, before + [deny] + after, who, database, tables, referenced)
  {
    if enabled {
      var d, g := (p: Policy) => IsDeny(p, who, database, tables), (p: Policy) => IsGrant(p, who, database, tables);
      FilterAppend(d, before + [deny], after);
      FilterAppend(d, before, [deny]);
      FilterAppend(d, before, after);
      FilterAppend(g, before + [deny], after);
      FilterAppend(g, before, [deny]);
      FilterAppend(g, before, after);
      assert Filter(g, [deny]) == [];
      assert Filter(g, before) + [] == Filter(g, before);
    }
  }

  // ---- From the decision to the rewrite ----

  predicate Resolves(r: (string, string), attributes: map<string, Option<string>>) {
    r.1 in attributes && attributes[r.1].Some?
  }

  lemma LastResolves(restrictions: seq<(string, string)>, attributes: map<string, Option<string>>)
    requires restrictions != []
    ensures (forall r | r in restrictions :: Resolves(r, attributes))
       <==> && (forall r | r in restrictions[..|restrictions| - 1] :: Resolves(r, attributes))
            && Resolves(restrictions[|restrictions| - 1], attributes)
  {
    assert restrictions == restrictions[..|restrictions| - 1] + [restrictions[|restrictions| - 1]];
  }

  lemma {:induction false} ResolveMeans(restrictions: seq<(string, string)>, attributes: map<string, Option<string>>)
    ensures ResolveScope(restrictions, attributes).Ok? <==> forall r | r in restrictions :: Resolves(r, attributes)
  {
    if restrictions != [] {
      ResolveMeans(restrictions[..|restrictions| - 1], attributes);
      LastResolves(restrictions, attributes);
    }
  }

  /** After an allow, row scoping is refused only for an attribute that is None but shares its name with a
      member of the principal's class, which the decision mistakes for the attribute. */
  lemma AllowedRestrictionsResolve(policies: seq<Policy>, who: Principal, database: string, tables: seq<string>,
                                   referenced: set<string>)
    requires Decide(true, policies, who, database, tables, referenced).allowed
    ensures var restrictions := Decide(true, policies, who, database, tables, referenced).rowRestrictions;
      ResolveScope(restrictions, who.attributes).Ok?
      <==> forall r | r in restrictions :: !(r.1 in MEMBERS && who.attributes[r.1].None?)
  {
    ResolveMeans(Decide(true, policies, who, database, tables, referenced).rowRestrictions, who.attributes);
  }

  // ---- The order of tables ----

  ghost predicate SameTables(tables: seq<string>, others: seq<string>) {
    forall t :: t in tables <==> t in others
  }

  lemma MatchesSame(p: Policy, who: Principal, database: string, tables: seq<string>, others: seq<string>)
    requires SameTables(tables, others)
    ensures MatchesAny(p, who, database, tables) <==> MatchesAny(p, who, database, others)
  {
    if t :| t in tables && Matches(p, who, database, t) { assert t in others; }
    if t :| t in others && Matches(p, who, database, t) { assert t in tables; }
  }

  lemma FiltersSame(policies: seq<Policy>, who: Principal, database: string, tables: seq<string>, others: seq<string>)
    requires SameTables(tables, others)
    ensures Denies(policies, who, database, tables) == Denies(policies, who, database, others)
    ensures Grants(policies, who, database, tables) == Grants(policies, who, database, others)
  {
    forall p ensures MatchesAny(p, who, database, tables) <==> MatchesAny(p, who, database, others) {
      MatchesSame(p, who, database, tables, others);
    }
    FilterSame((p: Policy) => IsDeny(p, who, database, tables), (p: Policy) => IsDeny(p, who, database, others),
               policies);
    FilterSame((p: Policy) => IsGrant(p, who, database, tables), (p: Policy) => IsGrant(p, who, database, others),
               policies);
  }

  lemma JudgeTables(denies: seq<Policy>, grants: seq<Policy>, who: Principal, tables: seq<string>,
                    others: seq<string>, referenced: set<string>)
    requires SameTables(tables, others)
    ensures Judge(denies, grants, who, tables, referenced) == Judge(denies, grants, who, others, referenced)
  {
    assert AllGranted(grants, tables) <==> AllGranted(grants, others);
  }

  /** The decision depends on which tables are named, not on their order or how often. */
  lemma TableOrderIrrelevant(enabled: bool, policies: seq<Policy>, who: Principal, database: string,
                             tables: seq<string>, others: seq<string>, referenced: set<string>)
    requires SameTables(tables, others)
    ensures Decide(enabled, policies, who, database, tables, referenced)
         == Decide(enabled, policies, who, database, others, referenced)
  {
    if tables != [] { assert tables[0] in others; }
    if others != [] { assert others[0] in tables; }
    FiltersSame(policies, who, database, tables, others);
    JudgeTables(Denies(policies, who, database, tables), Grants(policies, who, database, tables), who, tables, others,
                referenced);
  }
}
