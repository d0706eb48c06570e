/** The policy decision and the display from the fields of the policies and of the caller. */
module PolicyFields {
  import opened Wrappers
  import opened Identifiers
  import opened Sequences
  import opened Policies
  import opened PolicyTheorems

  // ---- Which policies concern a caller ----

  /** Every field that is filled in fits the caller, the database and reading. */
  predicate Fits(p: Policy, who: Principal, database: string) {
    && (p.orgId.Some? ==> p.orgId.value == who.orgId)
    && (p.principalId.Some? ==> p.principalId.value == who.userId)
    && (p.roles != {} ==> exists r | r in p.roles :: r in who.roles)
    && (p.databaseId.Some? ==> p.databaseId.value == database)
    && (p.action == "select" || p.action == "*")
  }

  predicate Allows(p: Policy, who: Principal, database: string, t: string) {
    Fits(p, who, database) && p.effect == "allow" && p.table == Some(Fold(t))
  }

  predicate Forbids(p: Policy, who: Principal, database: string, t: string) {
    Fits(p, who, database) && p.effect == "deny" && (p.table.Some? ==> p.table.value == Fold(t))
  }

  lemma FitsMeans(p: Policy, who: Principal, database: string)
    ensures Applies(p, who, database) <==> Fits(p, who, database)
  {
    assert Fold("select") == "select";
    if r :| r in p.roles && r in who.roles {
      assert r in p.roles * who.roles;
    }
    if p.roles * who.roles != {} {
      var r :| r in p.roles * who.roles;
      assert r in p.roles && r in who.roles;
    }
  }

  lemma ForMeans(p: Policy, who: Principal, database: string, t: string)
    ensures GrantsFor(p, who, database, Fold(t)) <==> Allows(p, who, database, t)
    ensures DeniedFor(p, who, database, Fold(t)) <==> Forbids(p, who, database, t)
  {
    FitsMeans(p, who, database);
  }

  lemma ListMeans(p: Policy, who: Principal, database: string, tables: seq<string>)
    ensures IsGrant(p, who, database, tables) <==> exists t | t in tables :: Allows(p, who, database, t)
    ensures IsDeny(p, who, database, tables) <==> exists t | t in tables :: Forbids(p, who, database, t)
  {
    FitsMeans(p, who, database);
    if IsGrant(p, who, database, tables) {
      var t :| t in tables && Matches(p, who, database, t);
      assert Allows(p, who, database, t);
    }
    if t :| t in tables && Allows(p, who, database, t) {
      assert Matches(p, who, database, t);
    }
    if IsDeny(p, who, database, tables) {
      var t :| t in tables && Matches(p, who, database, t);
      assert Forbids(p, who, database, t);
    }
    if t :| t in tables && Forbids(p, who, database, t) {
      assert Matches(p, who, database, t);
    }
  }

  // ---- Policies that do not fit ----

  lemma FilterInsert<T>(keep: T -> bool, before: seq<T>, x: T, after: seq<T>)
    requires !keep(x)
    ensures Filter(keep, before + [x] + after) == Filter(keep, before + after)
  {
    FilterAppend(keep, before + [x], after);
    FilterAppend(keep, before, [x]);
    FilterAppend(keep, before, after);
    FilterNone(keep, [x]);
    assert Filter(keep, before) + [] == Filter(keep, before);
  }

  /** One field that does not fit is enough: neither the decision nor the display sees the policy. */
  lemma MisfitIgnored(before: seq<Policy>, p: Policy, after: seq<Policy>, enabled: bool, who: Principal,
                      database: string,
                      tables: seq<string>, referenced: set<string>)
    requires || (p.orgId.Some? && p.orgId.value != who.orgId)
             || (p.principalId.Some? && p.principalId.value != who.userId)
             || (p.roles != {} && p.roles !! who.roles)
             || (p.databaseId.Some? && p.databaseId.value != database)
             || (p.action != "select" && p.action != "*")
    ensures Decide(enabled, before + [p] + after, who, database, tables, referenced)
         == Decide(enabled, before + after, who, database, tables, referenced)
    ensures Surface(enabled, before + [p] + after, who, database) == Surface(enabled, before + after, who, database)
  {
    FitsMeans(p, who, database);
    assert !Applies(p, who, database);
    FilterInsert((x: Policy) => IsDeny(x, who, database, tables), before, p, after);
    FilterInsert((x: Policy) => IsGrant(x, who, database, tables), before, p, after);
    FilterInsert((x: Policy) => IsShown(x, who, database), before, p, after);
    DeniesInsert(before, p, after, who, database);
  }

  lemma DeniesInsert(before: seq<Policy>, p: Policy, after: seq<Policy>, who: Principal, database: string)
    requires !Applies(p, who, database)
    ensures DeniesAll(before + [p] + after, who, database) <==> DeniesAll(before + after, who, database)
    ensures DeniedTables(before + [p] + after, who, database) == DeniedTables(before + after, who, database)
  {
    assert forall x :: x in before + [p] + after <==> x in before + after || x == p;
    if x :| x in before + after && Considered(x, who, database) && x.effect == "deny" && x.table.None? {
      assert x in before + [p] + after;
    }
  }

  // ---- Policies that fit ----

  /** A deny that fits one table of the query refuses it, and takes the table off the display. */
  lemma FittingDenyRefuses(policies: seq<Policy>, p: Policy, who: Principal, database: string, tables: seq<string>,
                           referenced: set<string>, t: string)
    requires p in policies && Forbids(p, who, database, t) && t in tables
    ensures var d := Decide(true, policies, who, database, tables, referenced);
      !d.allowed && d.reason == DeniedByPolicy && p.id in d.policyIds
    ensures Fold(t) !in Surface(true, policies, who, database).tables
  {
    ListMeans(p, who, database, tables);
    DenyMembers(policies, who, database, tables);
    var denies := Denies(policies, who, database, tables);
    assert p in denies;
    IdsMean(denies);
    ForMeans(p, who, database, t);
    SurfaceTableMeans(policies, who, database, t);
  }

  lemma IdsMean(policies: seq<Policy>)
    ensures forall id :: id in Ids(policies) <==> exists p | p in policies :: p.id == id
  {
    forall p | p in policies ensures p.id in Ids(policies) {
      var i :| 0 <= i < |policies| && policies[i] == p;
      assert Ids(policies)[i] == p.id;
    }
    forall id | id in Ids(policies) ensures exists p | p in policies :: p.id == id {
      var i :| 0 <= i < |policies| && Ids(policies)[i] == id;
      assert policies[i] in policies;
    }
  }

  /** An allow that fits grants its table and shows it, when no deny fits. */
  lemma FittingAllowGrants(policies: seq<Policy>, p: Policy, who: Principal, database: string, t: string)
    requires p in policies && Allows(p, who, database, t)
    requires forall d | d in policies :: !Forbids(d, who, database, t)
    ensures TableGate(policies, who, database, [t])
    ensures Fold(t) in Surface(true, policies, who, database).tables
    ensures (&& p.columns == {} && p.rowScope == []
             && forall x | x in policies && Allows(x, who, database, t) :: x == p) ==>
      Decide(true, policies, who, database, [t], {}).allowed
  {
    TableGateMeans(policies, who, database, [t]);
    SurfaceTableMeans(policies, who, database, t);
    ForMeans(p, who, database, t);
    forall d | d in policies ensures !DeniedFor(d, who, database, Fold(t)) {
      ForMeans(d, who, database, t);
    }
    assert ShowsFor(p, who, database, Fold(t));
    if p.columns == {} && p.rowScope == [] && forall x | x in policies && Allows(x, who, database, t) :: x == p {
      LoneGrant(policies, p, who, database, t);
    }
  }

  lemma LoneGrant(policies: seq<Policy>, p: Policy, who: Principal, database: string, t: string)
    requires TableGate(policies, who, database, [t]) && p.rowScope == []
    requires forall x | x in policies && Allows(x, who, database, t) :: x == p
    ensures Decide(true, policies, who, database, [t], {}).allowed
  {
    var grants := Grants(policies, who, database, [t]);
    GrantMembers(policies, who, database, [t]);
    forall x | x in grants ensures x.rowScope == [] {
      ListMeans(x, who, database, [t]);
    }
    NoScopesMerged(grants);
  }

  lemma {:induction false} NoScopesMerged(grants: seq<Policy>)
    requires forall x | x in grants :: x.rowScope == []
    ensures MergedScopes(grants) == []
  {
    if grants != [] {
      NoScopesMerged(grants[..|grants| - 1]);
      assert grants[|grants| - 1] in grants;
    }
  }

  // ---- The whole decision ----

  /** The attribute is not there, or is None and no member of the principal's class. */
  predicate Lacks(attribute: string, who: Principal) {
    attribute !in who.attributes || (who.attributes[attribute].None? && attribute !in MEMBERS)
  }

  /** Some allow policy of some table of the query. */
  predicate AllowsSome(p: Policy, who: Principal, database: string, tables: seq<string>) {
    exists t | t in tables :: Allows(p, who, database, t)
  }

  /** Allowed exactly when: a table is named; each has an allow policy that fits, and no deny fits any; each column is
      listed by an allow policy that fits some table, if any of these lists columns; and no restriction of theirs
      lacks its attribute. */
  lemma DecidedByFields(policies: seq<Policy>, who: Principal, database: string, tables: seq<string>,
                        referenced: set<string>)
    ensures Decide(true, policies, who, database, tables, referenced).allowed
       <==> && tables != []
            && (forall t | t in tables ::
                  && (exists p | p in policies :: Allows(p, who, database, t))
                  && forall p | p in policies :: !Forbids(p, who, database, t))
            && (forall c | c in referenced ::
                  || (forall p | p in policies && AllowsSome(p, who, database, tables) :: p.columns == {})
                  || (exists p | p in policies && AllowsSome(p, who, database, tables) :: c in p.columns))
            && (forall r | r in MergedScopes(Grants(policies, who, database, tables)) :: !Lacks(r.1, who))
  {
    AllowedExactly(policies, who, database, tables, referenced);
    forall p, t ensures GrantsFor(p, who, database, Fold(t)) <==> Allows(p, who, database, t) {
      ForMeans(p, who, database, t);
    }
    forall p, t ensures DeniedFor(p, who, database, Fold(t)) <==> Forbids(p, who, database, t) {
      ForMeans(p, who, database, t);
    }
    forall p ensures IsGrant(p, who, database, tables) <==> AllowsSome(p, who, database, tables) {
      ListMeans(p, who, database, tables);
    }
    forall c | c in referenced
      ensures ColumnPermitted(policies, who, database, tables, c)
        <==> || (forall p | p in policies && AllowsSome(p, who, database, tables) :: p.columns == {})
             || (exists p | p in policies && AllowsSome(p, who, database, tables) :: c in p.columns)
    {
    }
    forall a ensures Absent(a, who) <==> Lacks(a, who) {
    }
  }

  predicate ForbidsSome(p: Policy, who: Principal, database: string, tables: seq<string>) {
    exists t | t in tables :: Forbids(p, who, database, t)
  }

  predicate AnyForbids(policies: seq<Policy>, who: Principal, database: string, tables: seq<string>) {
    exists p | p in policies :: ForbidsSome(p, who, database, tables)
  }

  predicate AnyAllows(policies: seq<Policy>, who: Principal, database: string, tables: seq<string>) {
    exists p | p in policies :: AllowsSome(p, who, database, tables)
  }

  predicate AllAllowed(policies: seq<Policy>, who: Principal, database: string, tables: seq<string>) {
    forall t | t in tables :: exists p | p in policies :: Allows(p, who, database, t)
  }

  lemma MembersByFields(policies: seq<Policy>, who: Principal, database: string, tables: seq<string>)
    ensures forall p ::
      p in Denies(policies, who, database, tables) <==> p in policies && ForbidsSome(p, who, database, tables)
    ensures forall p ::
      p in Grants(policies, who, database, tables) <==> p in policies && AllowsSome(p, who, database, tables)
  {
    DenyMembers(policies, who, database, tables);
    GrantMembers(policies, who, database, tables);
    forall p
      ensures IsGrant(p, who, database, tables) <==> AllowsSome(p, who, database, tables)
      ensures IsDeny(p, who, database, tables) <==> ForbidsSome(p, who, database, tables)
    {
      ListMeans(p, who, database, tables);
    }
  }

  lemma GatesByFields(policies: seq<Policy>, who: Principal, database: string, tables: seq<string>)
    ensures Denies(policies, who, database, tables) == [] <==> !AnyForbids(policies, who, database, tables)
    ensures Grants(policies, who, database, tables) == [] <==> !AnyAllows(policies, who, database, tables)
    ensures AllGranted(Grants(policies, who, database, tables), tables) <==> AllAllowed(policies, who, database, tables)
  {
    var denies, grants := Denies(policies, who, database, tables), Grants(policies, who, database, tables);
    MembersByFields(policies, who, database, tables);
    if denies != [] { assert denies[0] in denies; }
    if grants != [] { assert grants[0] in grants; }
    forall t | t in tables
      ensures Fold(t) in GrantedTables(grants) <==> exists p | p in policies :: Allows(p, who, database, t)
    {
      if p :| p in policies && Allows(p, who, database, t) {
        assert AllowsSome(p, who, database, tables) && p in grants && p.table.value == Fold(t);
      }
      if Fold(t) in GrantedTables(grants) {
        var p :| p in grants && p.table.Some? && p.table.value == Fold(t);
        assert Allows(p, who, database, t);
      }
    }
  }

  /** The reason of a decision, gate by gate. */
  lemma ReasonsByFields(policies: seq<Policy>, who: Principal, database: string, tables: seq<string>,
                        referenced: set<string>)
    requires tables != []
    ensures var reason := Decide(true, policies, who, database, tables, referenced).reason;
      var forbidden, allowed := AnyForbids(policies, who, database, tables), AnyAllows(policies, who, database, tables);
      && (reason == DeniedByPolicy <==> forbidden)
      && (reason == NoAllowPolicy <==> !forbidden && !allowed)
      && (reason == TableNotAllowed <==> !forbidden && allowed && !AllAllowed(policies, who, database, tables))
      && (reason == AllowedByPolicy <==> Decide(true, policies, who, database, tables, referenced).allowed)
  {
    GatesByFields(policies, who, database, tables);
  }

  /** The restriction at i is the first whose attribute the caller lacks. */
  predicate FirstLackingAt(restrictions: seq<(string, string)>, who: Principal, i: nat)
    requires i < |restrictions|
  {
    Lacks(restrictions[i].1, who) && forall j | 0 <= j < i :: !Lacks(restrictions[j].1, who)
  }

  lemma {:induction false} FirstLacking(restrictions: seq<(string, string)>, who: Principal) returns (i: nat)
    requires FirstAbsent(restrictions, who).Some?
    ensures i < |restrictions| && FirstLackingAt(restrictions, who, i)
    ensures restrictions[i].1 == FirstAbsent(restrictions, who).value
  {
    i := 0;
    if !Absent(restrictions[0].1, who) {
      var k := FirstLacking(restrictions[1..], who);
      i := k + 1;
      forall j | 0 <= j < i ensures !Lacks(restrictions[j].1, who) {
        if j > 0 { assert restrictions[j] == restrictions[1..][j - 1]; }
      }
    }
  }

  /** An absent attribute is the last thing to refuse for, and the one named is the first lacking. */
  lemma AbsentByFields(policies: seq<Policy>, who: Principal, database: string, tables: seq<string>,
                       referenced: set<string>)
    returns (i: nat)
    requires Decide(true, policies, who, database, tables, referenced).reason.AttributeAbsent?
    ensures var restrictions := MergedScopes(Grants(policies, who, database, tables));
      && i < |restrictions| && FirstLackingAt(restrictions, who, i)
      && Decide(true, policies, who, database, tables, referenced).reason == AttributeAbsent(restrictions[i].1)
  {
    i := FirstLacking(MergedScopes(Grants(policies, who, database, tables)), who);
  }

  /** The ids are those of the policies that pass. */
  ghost predicate IdsOf(ids: seq<string>, policies: seq<Policy>, pass: Policy -> bool) {
    forall id :: id in ids <==> exists p | p in policies && p.id == id :: pass(p)
  }

  lemma ListedIds(policies: seq<Policy>, some: seq<Policy>, pass: Policy -> bool)
    requires forall p :: p in some <==> p in policies && pass(p)
    ensures IdsOf(Ids(some), policies, pass)
  {
    IdsMean(some);
  }

  function Forbidding(who: Principal, database: string, tables: seq<string>): Policy -> bool {
    p => ForbidsSome(p, who, database, tables)
  }

  function Allowing(who: Principal, database: string, tables: seq<string>): Policy -> bool {
    p => AllowsSome(p, who, database, tables)
  }

  lemma DecisionIds(policies: seq<Policy>, who: Principal, database: string, tables: seq<string>,
                    referenced: set<string>)
    requires tables != []
    ensures var d := Decide(true, policies, who, database, tables, referenced);
      && (d.reason == DeniedByPolicy ==> d.policyIds == Ids(Denies(policies, who, database, tables)))
      && (d.allowed ==> d.policyIds == Ids(Grants(policies, who, database, tables)))
      && (d.reason != DeniedByPolicy && !d.allowed ==> d.policyIds == [])
  {
  }

  /** A refusal by policy names the denies that fit. */
  lemma DenyIdsByFields(policies: seq<Policy>, who: Principal, database: string, tables: seq<string>,
                        referenced: set<string>)
    requires tables != [] && Decide(true, policies, who, database, tables, referenced).reason == DeniedByPolicy
    ensures IdsOf(Decide(true, policies, who, database, tables, referenced).policyIds, policies,
                  Forbidding(who, database, tables))
  {
    DecisionIds(policies, who, database, tables, referenced);
    MembersByFields(policies, who, database, tables);
    ListedIds(policies, Denies(policies, who, database, tables), Forbidding(who, database, tables));
  }

  /** An allow names the allow policies that fit. */
  lemma AllowIdsByFields(policies: seq<Policy>, who: Principal, database: string, tables: seq<string>,
                         referenced: set<string>)
    requires tables != [] && Decide(true, policies, who, database, tables, referenced).allowed
    ensures IdsOf(Decide(true, policies, who, database, tables, referenced).policyIds, policies,
                  Allowing(who, database, tables))
  {
    DecisionIds(policies, who, database, tables, referenced);
    MembersByFields(policies, who, database, tables);
    ListedIds(policies, Grants(policies, who, database, tables), Allowing(who, database, tables));
  }

  // ---- The display ----

  /** A policy that is no deny, fits, and names a table in lower case. */
  predicate Shows(p: Policy, who: Principal, database: string) {
    Fits(p, who, database) && p.effect != "deny" && p.table.Some? && Fold(p.table.value) == p.table.value
  }

  /** The displayed tables, column lists and masks, from the fields. */
  lemma DisplayedByFields(policies: seq<Policy>, who: Principal, database: string)
    ensures var a := Surface(true, policies, who, database);
      && (forall t :: Fold(t) in a.tables
           <==> && (exists p | p in policies :: Shows(p, who, database) && p.table.value == Fold(t))
                && forall p | p in policies :: !Forbids(p, who, database, t))
      && (forall c :: c in a.columns <==> exists p | p in policies && Shows(p, who, database) :: c in p.columns)
      && (forall c :: c in a.masked <==> exists p | p in policies && Shows(p, who, database) :: c in p.maskedColumns)
  {
    var a := Surface(true, policies, who, database);
    ShownMembers(policies, who, database);
    forall p ensures IsShown(p, who, database) <==> Shows(p, who, database) {
      FitsMeans(p, who, database);
    }
    forall t
      ensures Fold(t) in a.tables
        <==> && (exists p | p in policies :: Shows(p, who, database) && p.table.value == Fold(t))
             && forall p | p in policies :: !Forbids(p, who, database, t)
    {
      DisplayedTable(policies, who, database, t);
    }
  }

  lemma DisplayedTable(policies: seq<Policy>, who: Principal, database: string, t: string)
    ensures Fold(t) in Surface(true, policies, who, database).tables
       <==> && (exists p | p in policies :: Shows(p, who, database) && p.table.value == Fold(t))
            && forall p | p in policies :: !Forbids(p, who, database, t)
  {
    SurfaceTableMeans(policies, who, database, t);
    FoldTwice(t);
    forall p
      ensures ShowsFor(p, who, database, Fold(t)) <==> Shows(p, who, database) && p.table.value == Fold(t)
      ensures DeniedFor(p, who, database, Fold(t)) <==> Forbids(p, who, database, t)
    {
      FitsMeans(p, who, database);
      ForMeans(p, who, database, t);
    }
  }

  // ---- Without policies, and without tables ----

  /** Without a policy document every query is allowed, unrestricted and unmasked, and everything is shown. */
  lemma Unconfigured(policies: seq<Policy>, who: Principal, database: string, tables: seq<string>,
                     referenced: set<string>)
    ensures var d := Decide(false, policies, who, database, tables, referenced);
      d.allowed && d.reason == NotConfigured && d.rowRestrictions == [] && d.masked == {}
    ensures forall t, c :: Surface(false, policies, who, database).ColumnAccessible(t, c)
    ensures Surface(false, policies, who, database).masked == {}
  {
  }

  /** With one, a query that names no table is refused, whatever the policies allow. */
  lemma NothingNamed(policies: seq<Policy>, who: Principal, database: string, referenced: set<string>)
    ensures var d := Decide(true, policies, who, database, [], referenced);
      !d.allowed && d.reason == NoTable && d.policyIds == []
  {
  }
}
