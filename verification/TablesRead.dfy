/** Which tables of the database a statement reads, against the tables the static analysis finds in it. */
module TablesRead {
  import opened Wrappers
  import opened Identifiers
  import opened SqlAst
  import opened Fragment
  import opened StaticJudgements

  // ---- Table references that are not CTE references ----

  function QueryReads(q: Query, ctes: set<string>): set<string> {
    match q
    case Select(_, items, from, where, groupBy, having, orderBy, _, _, _, _) =>
      ItemsRead(items, ctes) + FromReads(from, ctes) + CondReads(where, ctes)
      + ExprsRead(groupBy, ctes) + CondReads(having, ctes) + ExprsRead(orderBy, ctes)
    case SetOp(_, left, right) => QueryReads(left, ctes) + QueryReads(right, ctes)
    case With(name, body, main) => QueryReads(body, ctes) + QueryReads(main, ctes + {Fold(name)})
    case Mutation(_) => {}
  }

  function ItemsRead(items: Items, ctes: set<string>): set<string> {
    match items
    case NoItem => {}
    case Star(rest) => ItemsRead(rest, ctes)
    case TableStar(_, rest) => ItemsRead(rest, ctes)
    case Item(e, _, rest) => ExprReads(e, ctes) + ItemsRead(rest, ctes)
  }

  function FromReads(f: From, ctes: set<string>): set<string> {
    match f
    case NoFrom => {}
    case Join(left, _, source, on) => FromReads(left, ctes) + SourceReads(source, ctes) + CondReads(on, ctes)
  }

  /** A name in scope of a CTE of that name means the CTE. */
  function SourceReads(source: Source, ctes: set<string>): set<string> {
    match source
    case Table(name, _) => if Fold(name) in ctes then {} else {Fold(name)}
    case Derived(q, _) => QueryReads(q, ctes)
  }

  function CondReads(c: Cond, ctes: set<string>): set<string> {
    match c
    case Always => {}
    case If(e) => ExprReads(e, ctes)
  }

  function ExprReads(e: Expr, ctes: set<string>): set<string> {
    match e
    case Const(_) => {}
    case Col(_, _) => {}
    case Binary(_, l, r) => ExprReads(l, ctes) + ExprReads(r, ctes)
    case Not(a) => ExprReads(a, ctes)
    case IsNull(a) => ExprReads(a, ctes)
    case Paren(a) => ExprReads(a, ctes)
    case Cast(a, _) => ExprReads(a, ctes)
    case Case(tests, results, otherwise) =>
      ExprsRead(tests, ctes) + ExprsRead(results, ctes) + ExprReads(otherwise, ctes)
    case Call(_, args) => ExprsRead(args, ctes)
    case Aggregate(_, arg) => ExprReads(arg, ctes)
    case Scalar(q) => QueryReads(q, ctes)
    case Exists(q) => QueryReads(q, ctes)
    case In(a, q) => ExprReads(a, ctes) + QueryReads(q, ctes)
  }

  function ExprsRead(es: Exprs, ctes: set<string>): set<string> {
    match es
    case NoExpr => {}
    case More(head, tail) => ExprReads(head, ctes) + ExprsRead(tail, ctes)
  }

  // ---- A statement keeps to the tables it reads ----

  lemma {:induction false} QueryKeepsTo(q: Query, rules: Rules, ctes: set<string>)
    requires QueryOk(q, rules.(only := None), ctes) && rules.only.Some? && QueryReads(q, ctes) <= rules.only.value
    ensures QueryOk(q, rules, ctes)
  {
    match q
    case Select(_, items, from, where, groupBy, having, orderBy, _, _, _, _) =>
      ItemsKeepTo(items, rules, ctes); FromKeepsTo(from, rules, ctes); CondKeepsTo(where, rules, ctes);
      ExprsKeepTo(groupBy, rules, ctes); CondKeepsTo(having, rules, ctes); ExprsKeepTo(orderBy, rules, ctes);
    case SetOp(_, left, right) => QueryKeepsTo(left, rules, ctes); QueryKeepsTo(right, rules, ctes);
    case With(name, body, main) => QueryKeepsTo(body, rules, ctes); QueryKeepsTo(main, rules, ctes + {Fold(name)});
    case Mutation(_) =>
  }

  lemma {:induction false} ItemsKeepTo(items: Items, rules: Rules, ctes: set<string>)
    requires ItemsOk(items, rules.(only := None), ctes) && rules.only.Some?
    requires ItemsRead(items, ctes) <= rules.only.value
    ensures ItemsOk(items, rules, ctes)
  {
    match items
    case NoItem =>
    case Star(rest) => ItemsKeepTo(rest, rules, ctes);
    case TableStar(_, rest) => ItemsKeepTo(rest, rules, ctes);
    case Item(e, _, rest) => ExprKeepsTo(e, rules, ctes); ItemsKeepTo(rest, rules, ctes);
  }

  lemma {:induction false} FromKeepsTo(f: From, rules: Rules, ctes: set<string>)
    requires FromOk(f, rules.(only := None), ctes) && rules.only.Some? && FromReads(f, ctes) <= rules.only.value
    ensures FromOk(f, rules, ctes)
  {
    match f
    case NoFrom =>
    case Join(left, _, source, on) =>
      FromKeepsTo(left, rules, ctes);
      if source.Derived? { QueryKeepsTo(source.q, rules, ctes); }
      CondKeepsTo(on, rules, ctes);
  }

  lemma {:induction false} CondKeepsTo(c: Cond, rules: Rules, ctes: set<string>)
    requires CondOk(c, rules.(only := None), ctes) && rules.only.Some? && CondReads(c, ctes) <= rules.only.value
    ensures CondOk(c, rules, ctes)
  {
    if c.If? { ExprKeepsTo(c.e, rules, ctes); }
  }

  lemma {:induction false} ExprKeepsTo(e: Expr, rules: Rules, ctes: set<string>)
    requires ExprOk(e, rules.(only := None), ctes) && rules.only.Some? && ExprReads(e, ctes) <= rules.only.value
    ensures ExprOk(e, rules, ctes)
  {
    match e
    case Const(_) =>
    case Col(_, _) =>
    case Binary(_, l, r) => ExprKeepsTo(l, rules, ctes); ExprKeepsTo(r, rules, ctes);
    case Not(a) => ExprKeepsTo(a, rules, ctes);
    case IsNull(a) => ExprKeepsTo(a, rules, ctes);
    case Paren(a) => ExprKeepsTo(a, rules, ctes);
    case Cast(a, _) => ExprKeepsTo(a, rules, ctes);
    case Case(tests, results, otherwise) =>
      ExprsKeepTo(tests, rules, ctes); ExprsKeepTo(results, rules, ctes); ExprKeepsTo(otherwise, rules, ctes);
    case Call(_, args) => ExprsKeepTo(args, rules, ctes);
    case Aggregate(_, arg) => ExprKeepsTo(arg, rules, ctes);
    case Scalar(q) => QueryKeepsTo(q, rules, ctes);
    case Exists(q) => QueryKeepsTo(q, rules, ctes);
    case In(a, q) => ExprKeepsTo(a, rules, ctes); QueryKeepsTo(q, rules, ctes);
  }

  lemma {:induction false} ExprsKeepTo(es: Exprs, rules: Rules, ctes: set<string>)
    requires ExprsOk(es, rules.(only := None), ctes) && rules.only.Some? && ExprsRead(es, ctes) <= rules.only.value
    ensures ExprsOk(es, rules, ctes)
  {
    if es.More? { ExprKeepsTo(es.head, rules, ctes); ExprsKeepTo(es.tail, rules, ctes); }
  }

  // ---- The analysis finds every name ----

  function Named(nodes: seq<Node>): set<string> {
    set node | node in nodes && node.TableNode? :: Fold(node.table)
  }

  lemma NamedTogether(a: seq<Node>, b: seq<Node>)
    ensures Named(a + b) == Named(a) + Named(b)
  {
  }

  lemma {:induction false} QueryNamed(q: Query, ctes: set<string>)
    ensures QueryReads(q, ctes) <= Named(FindAll(q, Tables))
  {
    match q
    case Select(_, items, from, where, groupBy, having, orderBy, _, _, _, _) =>
      ItemsNamed(items, ctes); FromNamed(from, ctes); CondNamed(where, ctes);
      ExprsNamed(groupBy, ctes); CondNamed(having, ctes); ExprsNamed(orderBy, ctes);
      SelectNamed(q);
    case SetOp(_, left, right) =>
      QueryNamed(left, ctes); QueryNamed(right, ctes);
      NamedTogether(FindAll(left, Tables), FindAll(right, Tables));
    case With(name, body, main) =>
      QueryNamed(body, ctes); QueryNamed(main, ctes + {Fold(name)});
      NamedTogether(Emit(Tables, CteNode(name)), FindAll(body, Tables));
      NamedTogether(Emit(Tables, CteNode(name)) + FindAll(body, Tables), FindAll(main, Tables));
    case Mutation(_) =>
  }

  lemma SelectNamed(q: Query)
    requires q.Select?
    ensures Named(FindAll(q, Tables))
         == Named(InItems(q.items, Tables)) + Named(InFrom(q.from, Tables)) + Named(InCond(q.where, Tables))
      + Named(InExprs(q.groupBy, Tables)) + Named(InCond(q.having, Tables)) + Named(InExprs(q.orderBy, Tables))
  {
    var a, b, c := InItems(q.items, Tables), InFrom(q.from, Tables), InCond(q.where, Tables);
    var d, e, f := InExprs(q.groupBy, Tables), InCond(q.having, Tables), InExprs(q.orderBy, Tables);
    NamedTogether(a, b);
    NamedTogether(a + b, c);
    NamedTogether(a + b + c, d);
    NamedTogether(a + b + c + d, e);
    NamedTogether(a + b + c + d + e, f);
    assert Emit(Tables, MutationNode) == [] && Emit(Tables, LockNode) == [];
    assert FindAll(q, Tables) == a + b + c + d + e + f;
  }

  lemma {:induction false} ItemsNamed(items: Items, ctes: set<string>)
    ensures ItemsRead(items, ctes) <= Named(InItems(items, Tables))
  {
    match items
    case NoItem =>
    case Star(rest) => ItemsNamed(rest, ctes);
    case TableStar(a, rest) =>
      ItemsNamed(rest, ctes); NamedTogether(Emit(Tables, ColumnNode(Some(a), "*")), InItems(rest, Tables));
    case Item(e, _, rest) =>
      ExprNamed(e, ctes); ItemsNamed(rest, ctes); NamedTogether(InExpr(e, Tables), InItems(rest, Tables));
  }

  lemma {:induction false} FromNamed(f: From, ctes: set<string>)
    ensures FromReads(f, ctes) <= Named(InFrom(f, Tables))
  {
    match f
    case NoFrom =>
    case Join(left, _, source, on) =>
      FromNamed(left, ctes); CondNamed(on, ctes);
      if source.Derived? {
        QueryNamed(source.q, ctes);
        NamedTogether(Emit(Tables, SubqueryNode(source.given)), FindAll(source.q, Tables));
      } else {
        assert InSource(source, Tables) == [TableNode(source.name, source.alias)];
        assert InSource(source, Tables)[0] in InSource(source, Tables);
      }
      NamedTogether(InFrom(left, Tables), InSource(source, Tables));
      NamedTogether(InFrom(left, Tables) + InSource(source, Tables), InCond(on, Tables));
  }

  lemma {:induction false} CondNamed(c: Cond, ctes: set<string>)
    ensures CondReads(c, ctes) <= Named(InCond(c, Tables))
  {
    if c.If? { ExprNamed(c.e, ctes); }
  }

  lemma {:induction false} ExprNamed(e: Expr, ctes: set<string>)
    ensures ExprReads(e, ctes) <= Named(InExpr(e, Tables))
  {
    match e
    case Const(_) =>
    case Col(_, _) =>
    case Binary(_, l, r) => ExprNamed(l, ctes); ExprNamed(r, ctes); NamedTogether(InExpr(l, Tables), InExpr(r, Tables));
    case Not(a) => ExprNamed(a, ctes);
    case IsNull(a) => ExprNamed(a, ctes);
    case Paren(a) => ExprNamed(a, ctes);
    case Cast(a, _) => ExprNamed(a, ctes);
    case Case(tests, results, otherwise) =>
      ExprsNamed(tests, ctes); ExprsNamed(results, ctes); ExprNamed(otherwise, ctes);
      NamedTogether(InExprs(tests, Tables), InExprs(results, Tables));
      NamedTogether(InExprs(tests, Tables) + InExprs(results, Tables), InExpr(otherwise, Tables));
    case Call(fn, args) => ExprsNamed(args, ctes); NamedTogether(Emit(Tables, FunctionNode(fn)), InExprs(args, Tables));
    case Aggregate(fn, arg) => ExprNamed(arg, ctes); NamedTogether(Emit(Tables, FunctionNode(fn)), InExpr(arg, Tables));
    case Scalar(q) => QueryNamed(q, ctes);
    case Exists(q) => QueryNamed(q, ctes);
    case In(a, q) => ExprNamed(a, ctes); QueryNamed(q, ctes); NamedTogether(InExpr(a, Tables), FindAll(q, Tables));
  }

  lemma {:induction false} ExprsNamed(es: Exprs, ctes: set<string>)
    ensures ExprsRead(es, ctes) <= Named(InExprs(es, Tables))
  {
    if es.More? {
      ExprNamed(es.head, ctes); ExprsNamed(es.tail, ctes);
      NamedTogether(InExpr(es.head, Tables), InExprs(es.tail, Tables));
    }
  }

  // ---- What the analysis reports ----

  /** The tables `extract_tables` lists. */
  function Extracted(q: Query): set<string> {
    TableNames(q) - CteNames(q) - {""}
  }

  /** The analysis reports every table a statement reads exactly when no such table bears the name of a CTE
      of the statement. */
  lemma ReadsReported(q: Query)
    ensures QueryReads(q, {}) <= Extracted(q) <==> QueryReads(q, {}) !! CteNames(q) + {""}
  {
    QueryNamed(q, {});
  }

  /** SELECT * FROM t */
  function Whole(t: string): Query {
    Select(false, Star(NoItem), Join(NoFrom, Inner, Table(t, None), Always), Always, NoExpr, Always, NoExpr, [], None,
           false, false)
  }

  lemma WholeReads(t: string, ctes: set<string>)
    ensures QueryReads(Whole(t), ctes) == (if Fold(t) in ctes then {} else {Fold(t)})
    ensures FindAll(Whole(t), Tables) == [TableNode(t, None)] && FindAll(Whole(t), Ctes) == []
  {
    assert ItemsRead(NoItem, ctes) == {} && FromReads(NoFrom, ctes) == {} && CondReads(Always, ctes) == {};
    assert ExprsRead(NoExpr, ctes) == {};
    assert FromReads(Whole(t).from, ctes) == SourceReads(Table(t, None), ctes);
    assert ItemsRead(Star(NoItem), ctes) == {};
    forall k | k == Tables || k == Ctes ensures FindAll(Whole(t), k) == Emit(k, TableNode(t, None)) {
      assert InItems(NoItem, k) == [] && InItems(Star(NoItem), k) == [] && InFrom(NoFrom, k) == [];
      assert InCond(Always, k) == [] && InExprs(NoExpr, k) == [];
      assert InFrom(Whole(t).from, k) == InSource(Table(t, None), k);
    }
  }

  /** `WITH t AS (SELECT * FROM t) SELECT * FROM t` reads t and reports no table. */
  lemma ShadowedTable(t: string)
    ensures var q := With(t, Whole(t), Whole(t)); QueryReads(q, {}) == {Fold(t)} && Extracted(q) == {}
  {
    var q := With(t, Whole(t), Whole(t));
    WholeReads(t, {});
    WholeReads(t, {Fold(t)});
    assert Emit(Tables, CteNode(t)) == [] && Emit(Ctes, CteNode(t)) == [CteNode(t)];
    assert FindAll(q, Tables) == [TableNode(t, None), TableNode(t, None)] && FindAll(q, Ctes) == [CteNode(t)];
    assert CteNode(t) in FindAll(q, Ctes);
  }
}
