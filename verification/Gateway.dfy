/** The decision and the pipeline together: what a query that policies allow can depend on. */
module Gateway {
  import opened Wrappers
  import opened Identifiers
  import opened SqlAst
  import opened SqlSemantics
  import opened RewriteFacts
  import opened Fragment
  import opened StaticJudgements
  import opened TablesRead
  import opened ResultMasking
  import opened Policies
  import opened PolicyTheorems
  import opened GovernedQuery

  datatype Refusal = NotAllowed(reason: Reason) | AttributeMissing(attribute: string)

  /** What stands outside the statement: the policies, the caller, what the text-based fallbacks and the alias
      tracing make of the statement's text, and the repository's configuration. */
  datatype Request = Request(policies: seq<Policy>, who: Principal, database: string,
                             textTables: seq<string>, textColumns: set<string>, aliases: map<string, set<string>>,
                             repository: Repository)

  /** `tables_touched`. */
  function Touched(q: Query, textTables: seq<string>): seq<string> {
    var tables := FirstOfEach(PhysicalNames(FindAll(q, Tables), CteNames(q)));
    if tables != [] then tables else textTables
  }

  /** `referenced_columns`. */
  function ReferencedColumns(q: Query, textColumns: set<string>): set<string> {
    var columns := if StarAtRoot(q) then {"*"} else ColumnNames(q) - {""};
    if columns != {} then columns else textColumns
  }

  function DecisionOn(r: Request, q: Query): Decision {
    Decide(true, r.policies, r.who, r.database, Touched(q, r.textTables), ReferencedColumns(q, r.textColumns))
  }

  /** Decide, then scope, mask, run and mask again. */
  function Answered(r: Request, q: Query, db: Database): Result<seq<Record>, Refusal> {
    var d := DecisionOn(r, q);
    if !d.allowed then Err(NotAllowed(d.reason))
    else
      match Execute(q, d.rowRestrictions, r.who.attributes, d.masked, r.repository, r.aliases, db)
      case Err(attribute) => Err(AttributeMissing(attribute))
      case Ok(records) => Ok(records)
  }

  /** The tables some policy allows the caller and none denies. */
  function Granted(r: Request): set<string> {
    set p | p in r.policies && p.table.Some? && GrantsFor(p, r.who, r.database, p.table.value)
         && !(exists d | d in r.policies :: DeniedFor(d, r.who, r.database, p.table.value)) :: p.table.value
  }

  lemma TouchedMeans(q: Query, textTables: seq<string>)
    requires Extracted(q) != {}
    ensures forall t :: t in Touched(q, textTables) <==> t in Extracted(q)
    ensures forall t | t in Extracted(q) :: Fold(t) == t
  {
    PhysicalMeans(FindAll(q, Tables), CteNames(q));
    FirstOfEachMeans(PhysicalNames(FindAll(q, Tables), CteNames(q)));
    forall t | t in Extracted(q) ensures Fold(t) == t {
      var node :| node in FindAll(q, Tables) && node.TableNode? && Fold(node.table) == t;
      FoldTwice(node.table);
    }
    var t :| t in Extracted(q);
    assert t in FirstOfEach(PhysicalNames(FindAll(q, Tables), CteNames(q)));
  }

  /** Tables a statement reads that the analysis takes for CTEs of the statement. */
  function Shadowed(q: Query): set<string> {
    QueryReads(q, {}) * (CteNames(q) + {""})
  }

  /** An allowed statement reads granted tables only exactly when those tables are granted that it reads under
      the name of one of its CTEs: every other table it reads is decided on. */
  lemma AllowedReadsGranted(r: Request, q: Query)
    requires DecisionOn(r, q).allowed
    ensures QueryReads(q, {}) <= Granted(r) <==> Shadowed(q) <= Granted(r)
  {
    QueryNamed(q, {});
    AllowedExactly(r.policies, r.who, r.database, Touched(q, r.textTables), ReferencedColumns(q, r.textColumns));
    forall t | t in QueryReads(q, {}) && t !in Shadowed(q) ensures t in Granted(r) {
      assert t in Extracted(q);
      TouchedMeans(q, r.textTables);
      assert t in Touched(q, r.textTables) && Fold(t) == t;
      var p :| p in r.policies && GrantsFor(p, r.who, r.database, t);
      assert p.table == Some(t);
    }
  }

  /** The whole way: the answer depends on no table that the policies do not grant, no row out of the caller's
      scope, and no masked column. */
  lemma AnswerDependsOnGranted(r: Request, q: Query, left: Database, right: Database)
    requires DecisionOn(r, q).allowed ==> Shadowed(q) <= Granted(r)
    requires var d := DecisionOn(r, q);
      && SubjectSees(Some(Granted(r)), ScopeOf(d.rowRestrictions, r.who.attributes), FoldAll(d.masked), left, right)
      && Disjoint(ScopeOf(d.rowRestrictions, r.who.attributes), FoldAll(d.masked))
      && QueryOk(q, Rules(false, d.masked != {}, None), {})
      && (StarFree(q) || (Nameable(FoldAll(d.masked)) && FiltersPublicly(r.repository, FoldAll(d.masked))))
    ensures Answered(r, q, left) == Answered(r, q, right)
  {
    var d := DecisionOn(r, q);
    if d.allowed {
      AllowedReadsGranted(r, q);
      QueryKeepsTo(q, Rules(false, d.masked != {}, Some(Granted(r))), {});
      GatewayHidesTheRest(q, d.rowRestrictions, r.who.attributes, d.masked, r.repository, r.aliases, Some(Granted(r)),
                          left, right);
    }
  }

  // ---- A statement that reads more than was decided on ----

  /** `WITH hidden AS (SELECT * FROM hidden) SELECT * FROM open, hidden` */
  function Reopened(open: string, hidden: string): Query {
    With(hidden, Whole(hidden),
         Select(false, Star(NoItem),
                Join(Join(NoFrom, Inner, Table(open, None), Always), Inner, Table(hidden, None), Always),
                Always, NoExpr, Always, NoExpr, [], None, false, false))
  }

  lemma ReopenedReads(open: string, hidden: string)
    requires Fold(open) != Fold(hidden)
    ensures QueryReads(Reopened(open, hidden), {}) == {Fold(open), Fold(hidden)}
  {
    var main, ctes := Reopened(open, hidden).main, {Fold(hidden)};
    WholeReads(hidden, {});
    assert {} + ctes == ctes;
    assert FromReads(NoFrom, ctes) == {} && ItemsRead(NoItem, ctes) == {} && ItemsRead(Star(NoItem), ctes) == {};
    assert SourceReads(Table(open, None), ctes) == {Fold(open)} && SourceReads(Table(hidden, None), ctes) == {};
    assert FromReads(main.from.left, ctes) == {Fold(open)};
    assert CondReads(Always, ctes) == {} && ExprsRead(NoExpr, ctes) == {};
    assert FromReads(main.from, ctes) == {Fold(open)};
    assert QueryReads(main, ctes) == {Fold(open)};
    assert QueryReads(Reopened(open, hidden), {}) == QueryReads(Whole(hidden), {}) + QueryReads(main, ctes);
  }

  lemma JoinedNodes(left: From, table: string, k: Kind)
    ensures InFrom(Join(left, Inner, Table(table, None), Always), k)
         == InFrom(left, k) + Emit(k, TableNode(table, None))
  {
    assert InCond(Always, k) == [] && InSource(Table(table, None), k) == Emit(k, TableNode(table, None));
  }

  lemma StarNodes(f: From, k: Kind)
    ensures FindAll(Select(false, Star(NoItem), f, Always, NoExpr, Always, NoExpr, [], None, false, false), k)
         == InFrom(f, k)
  {
    assert InItems(NoItem, k) == [] && InItems(Star(NoItem), k) == [] && InCond(Always, k) == [];
    assert InExprs(NoExpr, k) == [];
  }

  /** The nodes of one kind, in order. */
  lemma ReopenedNodes(open: string, hidden: string, k: Kind)
    requires k == Tables || k == Ctes
    ensures FindAll(Reopened(open, hidden), k)
         == Emit(k, CteNode(hidden)) + Emit(k, TableNode(hidden, None))
             + (Emit(k, TableNode(open, None)) + Emit(k, TableNode(hidden, None)))
  {
    var main := Reopened(open, hidden).main;
    WholeReads(hidden, {});
    assert InFrom(NoFrom, k) == [] && [] + Emit(k, TableNode(open, None)) == Emit(k, TableNode(open, None));
    JoinedNodes(NoFrom, open, k);
    JoinedNodes(main.from.left, hidden, k);
    StarNodes(main.from, k);
  }

  /** The decision is on the first table alone. */
  lemma ReopenedTouched(open: string, hidden: string, textTables: seq<string>)
    requires Fold(open) == open != "" && Fold(hidden) == hidden != open
    ensures forall t :: t in Touched(Reopened(open, hidden), textTables) <==> t == open
  {
    var q := Reopened(open, hidden);
    ReopenedNodes(open, hidden, Tables);
    ReopenedNodes(open, hidden, Ctes);
    assert FindAll(q, Tables) == [TableNode(hidden, None), TableNode(open, None), TableNode(hidden, None)];
    assert FindAll(q, Ctes) == [CteNode(hidden)];
    assert TableNode(open, None) in FindAll(q, Tables) && CteNode(hidden) in FindAll(q, Ctes);
    assert forall t :: t in Extracted(q) <==> t == open;
    assert open in Extracted(q);
    TouchedMeans(q, textTables);
  }

  /** With one allow policy, on the first table, the decision allows it and the second table is read ungranted. */
  lemma AllowedReadsMore(r: Request, allow: Policy, open: string, hidden: string)
    requires Fold(open) == open != "" && Fold(hidden) == hidden != open
    requires r.policies == [allow] && Applies(allow, r.who, r.database) && allow.effect == "allow"
    requires allow.table == Some(open)
    requires allow.columns == {} && allow.rowScope == []
    ensures DecisionOn(r, Reopened(open, hidden)).allowed
    ensures hidden in QueryReads(Reopened(open, hidden), {}) && hidden !in Granted(r)
  {
    var q := Reopened(open, hidden);
    ReopenedReads(open, hidden);
    ReopenedTouched(open, hidden, r.textTables);
    OneAllows(r, allow, open, Touched(q, r.textTables), ReferencedColumns(q, r.textColumns));
  }

  lemma OneAllows(r: Request, allow: Policy, table: string, tables: seq<string>, referenced: set<string>)
    requires Fold(table) == table && forall t :: t in tables <==> t == table
    requires r.policies == [allow] && Applies(allow, r.who, r.database) && allow.effect == "allow"
    requires allow.table == Some(table)
    requires allow.columns == {} && allow.rowScope == []
    ensures Decide(true, r.policies, r.who, r.database, tables, referenced).allowed
  {
    assert table in tables && allow in r.policies && GrantsFor(allow, r.who, r.database, table);
    NoScopes(r.policies, r.who, r.database, tables);
    AllowedExactly(r.policies, r.who, r.database, tables, referenced);
  }

  lemma NoScopes(policies: seq<Policy>, who: Principal, database: string, tables: seq<string>)
    requires |policies| == 1 && policies[0].rowScope == []
    ensures MergedScopes(Grants(policies, who, database, tables)) == []
  {
    var grants := Grants(policies, who, database, tables);
    if grants != [] {
      assert grants == [policies[0]];
      assert MergedScopes(grants[..0]) == [];
    }
  }
}
