/** Policy evaluation of `services/policy_engine.py`: the decision on a query, and the schema surface
    shown to a principal, which is meant to mirror it. */
module Policies {
  import opened Wrappers
  import opened Identifiers
  import opened Sequences
  import opened Dicts

  datatype Policy = Policy(
    id: string,
    effect: string,
    orgId: Option<string>,
    principalId: Option<string>,
    roles: set<string>,
    databaseId: Option<string>,
    table: Option<string>,
    columns: set<string>,
    maskedColumns: set<string>,
    rowScope: Dict,
    action: string)
  {
    predicate Valid() { IsDict(rowScope) }

    function Scope(): map<string, string> { ToMap(rowScope) }
  }

  predicate AllValid(policies: seq<Policy>) {
    forall p | p in policies :: p.Valid()
  }

  /** An attribute may be present with the value None. */
  datatype Principal = Principal(userId: string, orgId: string, roles: set<string>,
                                 attributes: map<string, Option<string>>) {
    /** `getattr(principal, name, None)` is not None: a member of the class hides the attribute. */
    predicate Answers(name: string) {
      name in MEMBERS || (name in attributes && attributes[name].Some?)
    }
  }

  /** The public members of the principal's class. */
  const MEMBERS: set<string> := {"user_id", "email", "org_id", "roles", "attributes", "role", "has_role",
                                 "has_any_role"}

  datatype Reason =
    | NotConfigured | NoTable | DeniedByPolicy | NoAllowPolicy | TableNotAllowed | ColumnNotAllowed
    | AttributeAbsent(attribute: string)
    | AllowedByPolicy

  datatype Decision = Decision(allowed: bool, reason: Reason, policyIds: seq<string>, rowRestrictions: Dict,
                               masked: set<string>)

  function Refuse(reason: Reason, ids: seq<string>): Decision {
    Decision(false, reason, ids, [], {})
  }

  datatype Access = Access(tables: set<string>, columns: set<string>, masked: set<string>, unrestricted: bool) {
    predicate TableAccessible(table: string) {
      unrestricted || Normalize(table) in tables
    }

    predicate ColumnAccessible(table: string, column: string) {
      TableAccessible(table) && (unrestricted || columns == {} || Normalize(column) in columns)
    }
  }

  // ---- Matching ----

  /** Everything a policy matches on but the table. */
  predicate Applies(p: Policy, who: Principal, database: string) {
    && (p.orgId.None? || p.orgId.value == who.orgId)
    && (p.principalId.None? || p.principalId.value == who.userId)
    && (p.roles == {} || p.roles * who.roles != {})
    && (p.databaseId.None? || p.databaseId.value == database)
    && (p.action in {"select", "*"} || p.action == Fold("select"))
  }

  /** `_matches` for the action `select`. */
  predicate Matches(p: Policy, who: Principal, database: string, table: string) {
    Applies(p, who, database) && (p.table.None? || p.table.value == Fold(table))
  }

  predicate MatchesAny(p: Policy, who: Principal, database: string, tables: seq<string>) {
    exists t | t in tables :: Matches(p, who, database, t)
  }

  // ---- The decision ----

  predicate IsDeny(p: Policy, who: Principal, database: string, tables: seq<string>) {
    MatchesAny(p, who, database, tables) && p.effect == "deny"
  }

  predicate IsGrant(p: Policy, who: Principal, database: string, tables: seq<string>) {
    MatchesAny(p, who, database, tables) && p.effect == "allow" && p.table.Some?
  }

  function Denies(policies: seq<Policy>, who: Principal, database: string, tables: seq<string>): seq<Policy> {
    Filter((p: Policy) => IsDeny(p, who, database, tables), policies)
  }

  function Grants(policies: seq<Policy>, who: Principal, database: string, tables: seq<string>): seq<Policy> {
    Filter((p: Policy) => IsGrant(p, who, database, tables), policies)
  }

  function Ids(policies: seq<Policy>): seq<string> {
    Map((p: Policy) => p.id, policies)
  }

  function GrantedTables(grants: seq<Policy>): set<string> {
    set p | p in grants && p.table.Some? :: p.table.value
  }

  function ListedColumns(grants: seq<Policy>): set<string> {
    set p, c | p in grants && c in p.columns :: c
  }

  function MaskedColumns(grants: seq<Policy>): set<string> {
    set p, c | p in grants && c in p.maskedColumns :: c
  }

  /** `row_restrictions.update(policy.row_scope)`, policy by policy. */
  function MergedScopes(grants: seq<Policy>): Dict {
    if grants == [] then [] else Update(MergedScopes(grants[..|grants| - 1]), grants[|grants| - 1].rowScope)
  }

  /** One turn of the merging loop. */
  lemma MergeOne(grants: seq<Policy>, i: nat)
    requires i < |grants|
    ensures MergedScopes(grants[..i + 1]) == Update(MergedScopes(grants[..i]), grants[i].rowScope)
    ensures MaskedColumns(grants[..i + 1]) == MaskedColumns(grants[..i]) + grants[i].maskedColumns
  {
    assert grants[..i + 1][..i] == grants[..i];
    assert grants[..i + 1] == grants[..i] + [grants[i]];
  }

  predicate Absent(attribute: string, who: Principal) {
    attribute !in who.attributes || !who.Answers(attribute)
  }

  /** The first restriction, in order, whose attribute is absent. */
  function FirstAbsent(restrictions: Dict, who: Principal): (a: Option<string>)
    ensures a.None? <==> forall r | r in restrictions :: !Absent(r.1, who)
  {
    if restrictions == [] then None
    else if Absent(restrictions[0].1, who) then Some(restrictions[0].1)
    else
      assert restrictions == [restrictions[0]] + restrictions[1..];
      FirstAbsent(restrictions[1..], who)
  }

  predicate AllGranted(grants: seq<Policy>, tables: seq<string>) {
    forall t | t in tables :: Fold(t) in GrantedTables(grants)
  }

  /** No matching deny, and an allow policy for every table. */
  predicate TableGate(policies: seq<Policy>, who: Principal, database: string, tables: seq<string>) {
    var grants := Grants(policies, who, database, tables);
    Denies(policies, who, database, tables) == [] && grants != [] && AllGranted(grants, tables)
  }

  /** A column list on any granted table confines the referenced columns. */
  predicate ColumnGate(grants: seq<Policy>, referenced: set<string>) {
    referenced == {} || ListedColumns(grants) == {} || referenced <= ListedColumns(grants)
  }

  /** The decision, given the matching denies and table grants. */
  function Judge(denies: seq<Policy>, grants: seq<Policy>, who: Principal, tables: seq<string>,
                 referenced: set<string>): Decision {
    if denies != [] then Refuse(DeniedByPolicy, Ids(denies))
    else if grants == [] then Refuse(NoAllowPolicy, [])
    else if !AllGranted(grants, tables) then Refuse(TableNotAllowed, [])
    else if !ColumnGate(grants, referenced) then Refuse(ColumnNotAllowed, [])
    else if FirstAbsent(MergedScopes(grants), who).Some? then
      Refuse(AttributeAbsent(FirstAbsent(MergedScopes(grants), who).value), [])
    else Decision(true, AllowedByPolicy, Ids(grants), MergedScopes(grants), MaskedColumns(grants))
  }

  function Decide(enabled: bool, policies: seq<Policy>, who: Principal, database: string, tables: seq<string>,
                  referenced: set<string>): Decision {
    if !enabled then Decision(true, NotConfigured, [], [], {})
    else if tables == [] then Refuse(NoTable, [])
    else Judge(Denies(policies, who, database, tables), Grants(policies, who, database, tables), who, tables,
               referenced)
  }

  // ---- The display ----

  /** `_matches` against the policy's own table. */
  predicate Considered(p: Policy, who: Principal, database: string) {
    Matches(p, who, database, if p.table.Some? then p.table.value else "")
  }

  predicate DeniesAll(policies: seq<Policy>, who: Principal, database: string) {
    exists p | p in policies :: Considered(p, who, database) && p.effect == "deny" && p.table.None?
  }

  function DeniedTables(policies: seq<Policy>, who: Principal, database: string): set<string> {
    set p | p in policies && Considered(p, who, database) && p.effect == "deny" && p.table.Some? :: p.table.value
  }

  /** The policies filed in `allow_by_table`: any effect but deny. */
  predicate IsShown(p: Policy, who: Principal, database: string) {
    Considered(p, who, database) && p.effect != "deny" && p.table.Some?
  }

  function Shown(policies: seq<Policy>, who: Principal, database: string): seq<Policy> {
    Filter((p: Policy) => IsShown(p, who, database), policies)
  }

  function Surface(enabled: bool, policies: seq<Policy>, who: Principal, database: string): Access {
    if !enabled then Access({}, {}, {}, true)
    else
      var shown := Shown(policies, who, database);
      Access(if DeniesAll(policies, who, database) then {}
             else GrantedTables(shown) - DeniedTables(policies, who, database),
             ListedColumns(shown), MaskedColumns(shown), false)
  }

  // ---- The evaluator ----

  class PolicyEvaluator {
    const policies: seq<Policy>
    const enabled: bool

    constructor (policies: seq<Policy>, enabled: bool)
      ensures this.policies == policies && this.enabled == enabled
    {
      this.policies, this.enabled := policies, enabled;
    }

    /** The loop that merges row scopes and masked columns. */
    static method MergeGrants(grants: seq<Policy>) returns (rowRestrictions: Dict, masked: set<string>)
      ensures rowRestrictions == MergedScopes(grants) && masked == MaskedColumns(grants)
    {
      rowRestrictions, masked := [], {};
      for i := 0 to |grants|
        invariant rowRestrictions == MergedScopes(grants[..i])
        invariant masked == MaskedColumns(grants[..i])
      {
        MergeOne(grants, i);
        rowRestrictions := Update(rowRestrictions, grants[i].rowScope);
        masked := masked + grants[i].maskedColumns;
      }
      assert grants[..|grants|] == grants;
    }

    static method Weigh(denies: seq<Policy>, grants: seq<Policy>, who: Principal, tables: seq<string>,
                        referenced: set<string>)
      returns (d: Decision)
      ensures d == Judge(denies, grants, who, tables, referenced)
    {
      if denies != [] {
        return Refuse(DeniedByPolicy, Ids(denies));
      }
      if grants == [] {
        return Refuse(NoAllowPolicy, []);
      }
      var allowedTables := GrantedTables(grants);
      if exists t | t in tables :: Fold(t) !in allowedTables {
        return Refuse(TableNotAllowed, []);
      }
      HasList(grants);
      if referenced != {} && (exists p | p in grants :: p.columns != {}) && !(referenced <= ListedColumns(grants)) {
        return Refuse(ColumnNotAllowed, []);
      }
      var rowRestrictions, masked := MergeGrants(grants);
      for i := 0 to |rowRestrictions|
        invariant FirstAbsent(rowRestrictions, who) == FirstAbsent(rowRestrictions[i..], who)
      {
        assert rowRestrictions[i..][1..] == rowRestrictions[i + 1..];
        if Absent(rowRestrictions[i].1, who) {
          return Refuse(AttributeAbsent(rowRestrictions[i].1), []);
        }
      }
      return Decision(true, AllowedByPolicy, Ids(grants), rowRestrictions, masked);
    }

    method Evaluate(who: Principal, database: string, tables: seq<string>,
                    referenced: set<string>) returns (d: Decision)
      ensures d == Decide(enabled, policies, who, database, tables, referenced)
    {
      if !enabled {
        return Decision(true, NotConfigured, [], [], {});
      }
      if tables == [] {
        return Refuse(NoTable, []);
      }
      var denies := Denies(policies, who, database, tables);
      var tablePolicies := Grants(policies, who, database, tables);
      d := Weigh(denies, tablePolicies, who, tables, referenced);
    }

    method EffectiveAccess(who: Principal, database: string) returns (a: Access)
      ensures a == Surface(enabled, policies, who, database)
    {
      if !enabled {
        return Access({}, {}, {}, true);
      }
      var denyAll := false;
      var deniedTables: set<string> := {};
      var allowByTable: map<string, seq<Policy>> := map[];
      for i := 0 to |policies|
        invariant denyAll == DeniesAll(policies[..i], who, database)
        invariant deniedTables == DeniedTables(policies[..i], who, database)
        invariant FiledAs(allowByTable, policies[..i], who, database)
      {
        var p := policies[i];
        assert policies[..i + 1] == policies[..i] + [p];
        FileOne(allowByTable, policies[..i], p, who, database);
        if Considered(p, who, database) {
          if p.effect == "deny" {
            if p.table.None? {
              denyAll := true;
            } else {
              deniedTables := deniedTables + {p.table.value};
            }
          } else if p.table.Some? {
            var filed := if p.table.value in allowByTable then allowByTable[p.table.value] else [];
            allowByTable := allowByTable[p.table.value := filed + [p]];
          }
        }
      }
      assert policies[..|policies|] == policies;
      var accessible := allowByTable.Keys - deniedTables;
      if denyAll {
        accessible := {};
      }
      var allowedColumns := set t, p, c | t in allowByTable && p in allowByTable[t] && c in p.columns :: c;
      var maskedColumns := set t, p, c | t in allowByTable && p in allowByTable[t] && c in p.maskedColumns :: c;
      FiledShown(allowByTable, policies, who, database);
      return Access(accessible, allowedColumns, maskedColumns, false);
    }
  }

  lemma HasList(grants: seq<Policy>)
    ensures ListedColumns(grants) != {} <==> exists p | p in grants :: p.columns != {}
  {
    if p :| p in grants && p.columns != {} {
      var c :| c in p.columns;
      assert c in ListedColumns(grants);
    }
  }

  /** `allow_by_table` holds, under each table, the shown policies of that table. */
  ghost predicate FiledAs(filed: map<string, seq<Policy>>, policies: seq<Policy>, who: Principal, database: string) {
    && (forall p | p in policies && IsShown(p, who, database) :: p.table.value in filed && p in filed[p.table.value])
    && (forall t | t in filed ::
          && filed[t] != []
          && forall p | p in filed[t] :: p in policies && IsShown(p, who, database) && p.table.value == t)
  }

  lemma FileOne(filed: map<string, seq<Policy>>, policies: seq<Policy>, p: Policy, who: Principal, database: string)
    requires FiledAs(filed, policies, who, database)
    ensures if IsShown(p, who, database)
      then FiledAs(filed[p.table.value := (if p.table.value in filed then filed[p.table.value] else []) + [p]],
                   policies + [p], who, database)
      else FiledAs(filed, policies + [p], who, database)
  {
  }

  lemma FiledShown(filed: map<string, seq<Policy>>, policies: seq<Policy>, who: Principal, database: string)
    requires FiledAs(filed, policies, who, database)
    ensures filed.Keys == GrantedTables(Shown(policies, who, database))
    ensures (set t, p, c | t in filed && p in filed[t] && c in p.columns :: c)
         == ListedColumns(Shown(policies, who, database))
    ensures (set t, p, c | t in filed && p in filed[t] && c in p.maskedColumns :: c)
         == MaskedColumns(Shown(policies, who, database))
  {
    ShownMembers(policies, who, database);
    var shown := Shown(policies, who, database);
    forall t | t in filed ensures t in GrantedTables(shown) {
      assert filed[t][0] in filed[t];
    }
    forall p | p in shown ensures p.table.value in filed && p in filed[p.table.value] {}
  }

  lemma {:induction false} FilterMembers(keep: Policy -> bool, policies: seq<Policy>)
    ensures forall p :: p in Filter(keep, policies) <==> p in policies && keep(p)
  {
    if policies != [] {
      FilterMembers(keep, policies[1..]);
      assert policies == [policies[0]] + policies[1..];
    }
  }

  lemma ShownMembers(policies: seq<Policy>, who: Principal, database: string)
    ensures forall p :: p in Shown(policies, who, database) <==> p in policies && IsShown(p, who, database)
  {
    FilterMembers((p: Policy) => IsShown(p, who, database), policies);
  }
}
