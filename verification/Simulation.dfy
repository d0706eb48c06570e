/** One induction over statements from which every theorem about the rewrites follows.

    A setting fixes a scope, a set of secret columns and two databases whose in-scope rows agree in the
    public columns, in all tables or in those a statement may read. A statement rewritten for scope and secrets then
    returns agreeing rows from both.
    With `exact` the right-hand statement is not scoped at all, but its database holds in-scope rows only. */
module Simulation {
  import opened Wrappers
  import opened Identifiers
  import opened Sequences
  import opened SqlAst
  import opened SqlSemantics
  import opened Rewrites
  import opened RewriteFacts
  import opened JoinAlgebra
  import opened ScopedRows
  import opened Pairing
  import opened Agreement
  import opened Fragment

  // ---- Cutting a database to the scope ----

  predicate OwnRow(scope: Scope, cols: seq<string>, row: Row, engine: Engine) {
    forall r | r in scope :: Passes(r, None, Tag("", cols), row, engine)
  }

  function OwnTest(scope: Scope, cols: seq<string>, engine: Engine): Row -> bool {
    row => OwnRow(scope, cols, row, engine)
  }

  /** The rows of a table that equal the subject's value in every scope column. */
  function CutRelation(r: Relation, scope: Scope, engine: Engine): Relation {
    Relation(r.cols, Filter(OwnTest(scope, r.cols, engine), r.rows))
  }

  function Cut(db: Database, scope: Scope): Database {
    Database(map t | t in db.tables :: CutRelation(db.tables[t], scope, db.engine), db.engine)
  }

  predicate WellFormed(db: Database) {
    forall t | t in db.tables :: Rectangular(db.tables[t])
  }

  /** A qualified reference to a table's own column reads that column. */
  lemma OwnColumn(alias: string, cols: seq<string>, row: Row, name: string)
    ensures Read(Tag(alias, cols), row, Some(alias), name) == Read(Tag("", cols), row, None, name)
  {
    var a, b := Tag(alias, cols), Tag("", cols);
    assert forall i | 0 <= i < |cols| :: Denotes(a[i], Some(alias), name) == Denotes(b[i], None, name);
    assert Find(a, Some(alias), name) == Find(b, None, name);
  }

  lemma ScopeIsCut(scope: Scope, alias: string, r: Relation, engine: Engine)
    ensures Filter(ScopeTest(scope, [alias], Tag(alias, r.cols), engine), r.rows) == CutRelation(r, scope, engine).rows
  {
    forall row | row in r.rows
      ensures ScopeTest(scope, [alias], Tag(alias, r.cols), engine)(row) == OwnTest(scope, r.cols, engine)(row)
    {
      InScopeMeans(scope, [alias], Tag(alias, r.cols), row, engine);
      forall x | x in scope
        ensures Passes(x, Some(alias), Tag(alias, r.cols), row, engine) == Passes(x, None, Tag("", r.cols), row, engine)
      {
        OwnColumn(alias, r.cols, row, x.column);
      }
      assert alias in [alias];
    }
    FilterSame(ScopeTest(scope, [alias], Tag(alias, r.cols), engine), OwnTest(scope, r.cols, engine), r.rows);
  }

  // ---- Settings ----

  datatype Setting = Setting(scope: Scope, secret: set<string>, exact: bool, only: Option<set<string>>, left: Database,
                             right: Database) {
    function RightScope(): Scope { if exact then [] else scope }

    function Rules(): Rules { Fragment.Rules.Rules(exact, secret != {}, only) }

    predicate Readable(table: string) { Rules().Readable(table) }

    ghost predicate Valid() {
      && Disjoint(scope, secret)
      && left.engine == right.engine
      && (forall t | Readable(t) :: t in left.tables <==> t in right.tables)
      && WellFormed(left) && WellFormed(right)
      && (forall t | Readable(t) && t in left.tables ::
            RelationsAgree(secret, CutRelation(left.tables[t], scope, left.engine),
                           CutRelation(right.tables[t], scope, left.engine)))
      && (exact ==> forall t | Readable(t) && t in right.tables ::
            CutRelation(right.tables[t], scope, right.engine) == right.tables[t])
    }

    /** The output columns of rewritten items: a masked column behind parentheses, say, loses its name. */
    function Names(items: Items, fields: seq<Field>): seq<string> { ItemNames(MaskItems(items, secret), fields) }

    function LQuery(q: Query): Query { MaskQuery(ScopeQuery(q, scope), secret) }
    function RQuery(q: Query): Query { MaskQuery(ScopeQuery(q, RightScope()), secret) }
    function LItems(items: Items): Items { MaskItems(ScopeItems(items, scope), secret) }
    function RItems(items: Items): Items { MaskItems(ScopeItems(items, RightScope()), secret) }
    function LFrom(f: From): From { MaskFrom(ScopeFrom(f, scope), secret) }
    function RFrom(f: From): From { MaskFrom(ScopeFrom(f, RightScope()), secret) }
    function LSource(x: Source): Source { MaskSource(ScopeSource(x, scope), secret) }
    function RSource(x: Source): Source { MaskSource(ScopeSource(x, RightScope()), secret) }
    function LCond(c: Cond): Cond { MaskCond(ScopeCond(c, scope), secret) }
    function RCond(c: Cond): Cond { MaskCond(ScopeCond(c, RightScope()), secret) }
    function LExpr(e: Expr): Expr { MaskExpr(ScopeExpr(e, scope), secret) }
    function RExpr(e: Expr): Expr { MaskExpr(ScopeExpr(e, RightScope()), secret) }
    function LExprs(es: Exprs): Exprs { MaskExprs(ScopeExprs(es, scope), secret) }
    function RExprs(es: Exprs): Exprs { MaskExprs(ScopeExprs(es, RightScope()), secret) }
  }

  /** The two executions see the setting's databases and agreeing CTEs. */
  ghost predicate SitesAgree(s: Setting, m: Site, n: Site) {
    m.db == s.left && n.db == s.right && CtesAgree(s.secret, m.ctes, n.ctes)
  }

  ghost predicate UnitsAgree(secret: set<string>, u: seq<Env>, w: seq<Env>) {
    Paired(EnvsAgreeing(secret), u, w)
  }

  // ---- What is shown of each kind of node ----

  ghost predicate ExprSim(s: Setting, e: Expr, m: Site, n: Site) {
    forall x, y, u, w | EnvAgree(s.secret, x, y) && UnitsAgree(s.secret, u, w) ::
      EvalExpr(s.LExpr(e), m, x, u) == EvalExpr(s.RExpr(e), n, y, w)
  }

  ghost predicate CondSim(s: Setting, c: Cond, m: Site, n: Site) {
    forall x, y, u, w | EnvAgree(s.secret, x, y) && UnitsAgree(s.secret, u, w) ::
      Holds(s.LCond(c), m, x, u) == Holds(s.RCond(c), n, y, w)
  }

  ghost predicate ExprsSim(s: Setting, es: Exprs, m: Site, n: Site) {
    forall x, y, u, w | EnvAgree(s.secret, x, y) && UnitsAgree(s.secret, u, w) ::
      EvalExprs(s.LExprs(es), m, x, u) == EvalExprs(s.RExprs(es), n, y, w)
  }

  /** The output columns that keys point at by number are equal. */
  predicate OrdinalsAgree(keys: Exprs, a: Row, b: Row)
    requires |a| == |b|
  {
    match keys
    case NoExpr => true
    case More(head, tail) =>
      (IsOrdinal(Bare(head), |a|) ==> a[Bare(head).v.n - 1] == b[Bare(head).v.n - 1]) && OrdinalsAgree(tail, a, b)
  }

  ghost predicate KeysSim(s: Setting, es: Exprs, m: Site, n: Site) {
    forall x, y, u, w, cols, a, b, grouping |
      EnvAgree(s.secret, x, y) && UnitsAgree(s.secret, u, w) && RowAgree(s.secret, cols, a, b)
          && OrdinalsAgree(es, a, b) ::
      KeyValues(s.LExprs(es), grouping, m, cols, a, x, u) == KeyValues(s.RExprs(es), grouping, n, cols, b, y, w)
  }

  ghost predicate ItemsSim(s: Setting, items: Items, m: Site, n: Site) {
    forall x, y, u, w | EnvAgree(s.secret, x, y) && x.Inside? && UnitsAgree(s.secret, u, w) ::
      ItemsAgree(s, items, m, n, x, y, u, w)
  }

  ghost predicate ItemsAgree(s: Setting, items: Items, m: Site, n: Site, x: Env, y: Env, u: seq<Env>, w: seq<Env>)
    requires x.Inside? && y.Inside?
  {
    var a, b := EvalItems(s.LItems(items), m, x, u), EvalItems(s.RItems(items), n, y, w);
    && RowAgree(s.secret, s.Names(items, x.shape.fields), a, b)
    && Leading(items) <= |a| && a[..Leading(items)] == b[..Leading(items)]
    && (StarFreeItems(items) ==> a == b)
  }

  ghost predicate QueryAgree(s: Setting, q: Query, m: Site, n: Site, x: Env, y: Env) {
    var a, b := Eval(s.LQuery(q), m, x), Eval(s.RQuery(q), n, y);
    RelationsAgree(s.secret, a, b) && (s.secret == {} || StarFree(q) ==> a == b)
  }

  ghost predicate QuerySim(s: Setting, q: Query, m: Site, n: Site) {
    forall x, y | EnvAgree(s.secret, x, y) :: QueryAgree(s, q, m, n, x, y)
  }

  /** Joined rows of both sides that agree once cut to the scope. */
  ghost predicate JoinedAgree(s: Setting, qs: seq<string>, aliases: set<string>, a: Joined, b: Joined) {
    var test := ScopeTest(s.scope, qs, a.shape.fields, s.left.engine);
    && a.shape == b.shape && a.shape.aliases == aliases && Declared(a.shape)
    && Width(a.rows, |a.shape.fields|) && Width(b.rows, |a.shape.fields|)
    && Paired(Agreeing(s.secret, FieldNames(a.shape.fields)), Filter(test, a.rows), Filter(test, b.rows))
    && (s.exact ==> Filter(test, b.rows) == b.rows)
  }

  ghost predicate FromAgree(s: Setting, f: From, m: Site, n: Site, x: Env, y: Env) {
    JoinedAgree(s, TableQualifiers(f), Aliases(f), EvalFrom(s.LFrom(f), m, x), EvalFrom(s.RFrom(f), n, y))
  }

  ghost predicate FromSim(s: Setting, f: From, m: Site, n: Site) {
    forall x, y | EnvAgree(s.secret, x, y) :: FromAgree(s, f, m, n, x, y)
  }

  /** One source of both sides that agrees once cut to the scope, if it is a table. */
  ghost predicate SourcesAgree(s: Setting, alias: string, table: bool, a: Relation, b: Relation) {
    var test := ScopeTest(s.scope, if table then [alias] else [], Tag(alias, a.cols), s.left.engine);
    && a.cols == b.cols && Rectangular(a) && Rectangular(b)
    && Paired(Agreeing(s.secret, a.cols), Filter(test, a.rows), Filter(test, b.rows))
    && (s.exact ==> Filter(test, b.rows) == b.rows)
  }

  ghost predicate SourceAgree(s: Setting, source: Source, m: Site, n: Site, x: Env, y: Env) {
    SourcesAgree(s, source.Qualifier(), source.Table?, EvalSource(s.LSource(source), m, x),
                 EvalSource(s.RSource(source), n, y))
  }

  ghost predicate SourceSim(s: Setting, source: Source, m: Site, n: Site) {
    forall x, y | EnvAgree(s.secret, x, y) :: SourceAgree(s, source, m, n, x, y)
  }

  // ---- Sources ----

  lemma AgreeingWidth(secret: set<string>, x: Relation, y: Relation)
    requires RelationsAgree(secret, x, y)
    ensures Rectangular(x) && Rectangular(y)
  {
    forall row | row in x.rows ensures |row| == |x.cols| {
      var i :| 0 <= i < |x.rows| && x.rows[i] == row;
      assert Agreeing(secret, x.cols)(x.rows[i], y.rows[i]);
    }
    forall row | row in y.rows ensures |row| == |y.cols| {
      var i :| 0 <= i < |y.rows| && y.rows[i] == row;
      assert Agreeing(secret, x.cols)(x.rows[i], y.rows[i]);
    }
  }

  /** Cutting agreeing relations to the scope leaves agreeing relations. */
  lemma ScopedAgree(s: Setting, qs: seq<string>, alias: string, x: Relation, y: Relation)
    requires s.Valid() && RelationsAgree(s.secret, x, y)
    ensures var test := ScopeTest(s.scope, qs, Tag(alias, x.cols), s.left.engine);
      Paired(Agreeing(s.secret, x.cols), Filter(test, x.rows), Filter(test, y.rows))
  {
    var test := ScopeTest(s.scope, qs, Tag(alias, x.cols), s.left.engine);
    TagNames(alias, x.cols);
    forall a, b | Agreeing(s.secret, x.cols)(a, b) ensures test(a) == test(b) {
      InScopeAgree(s.secret, s.scope, qs, Tag(alias, x.cols), a, b, s.left.engine);
    }
    PairedFilter(Agreeing(s.secret, x.cols), test, test, x.rows, y.rows);
  }

  lemma TableSim(s: Setting, source: Source, m: Site, n: Site)
    requires s.Valid() && SitesAgree(s, m, n) && source.Table? && SourceOk(source, s.Rules(), m.ctes.Keys)
    ensures SourceSim(s, source, m, n)
  {
    var a, b := Fetch(source.name, m), Fetch(source.name, n);
    var alias, k := source.Qualifier(), Fold(source.name);
    var test := ScopeTest(s.scope, [alias], Tag(alias, a.cols), s.left.engine);
    if k in m.ctes {
      assert RelationsAgree(s.secret, a, b);
      AgreeingWidth(s.secret, a, b);
      ScopedAgree(s, [alias], alias, a, b);
    } else if k in s.left.tables {
      ScopeIsCut(s.scope, alias, a, s.left.engine);
      ScopeIsCut(s.scope, alias, b, s.left.engine);
      assert RelationsAgree(s.secret, CutRelation(a, s.scope, s.left.engine), CutRelation(b, s.scope, s.left.engine));
    }
    forall x, y | EnvAgree(s.secret, x, y) ensures SourceAgree(s, source, m, n, x, y) {
      assert EvalSource(s.LSource(source), m, x) == a && EvalSource(s.RSource(source), n, y) == b;
    }
  }

  lemma DerivedSim(s: Setting, source: Source, m: Site, n: Site)
    requires s.Valid() && source.Derived? && QuerySim(s, source.q, m, n)
    ensures SourceSim(s, source, m, n)
  {
    forall x, y | EnvAgree(s.secret, x, y) ensures SourceAgree(s, source, m, n, x, y) {
      assert QueryAgree(s, source.q, m, n, x, y);
      var a, b := Eval(s.LQuery(source.q), m, x), Eval(s.RQuery(source.q), n, y);
      assert EvalSource(s.LSource(source), m, x) == a && EvalSource(s.RSource(source), n, y) == b;
      AgreeingWidth(s.secret, a, b);
      ScopedAgree(s, [], source.Qualifier(), a, b);
      forall row | row in b.rows ensures InScope(s.scope, [], Tag(source.Qualifier(), a.cols), row, s.left.engine) {
        InScopeTrivially(s.scope, [], Tag(source.Qualifier(), a.cols), row, s.left.engine);
      }
      FilterAll(ScopeTest(s.scope, [], Tag(source.Qualifier(), a.cols), s.left.engine), b.rows);
    }
  }
}
