/** The rewrites keep every static judgement: they add no node but predicates over declared tables, and
    remove no node but masked columns. */
module RewrittenJudgements {
  import opened Wrappers
  import opened Identifiers
  import opened SqlAst
  import opened Rewrites
  import opened RewriteFacts
  import opened StaticJudgements
  import opened Headers

  /** A scope and masked columns; `*` is not a column name. */
  datatype Passes = Passes(scope: Scope, masked: set<string>) {
    predicate Valid() { Disjoint(scope, masked) && "*" !in masked }
    function Query(q: Query): Query { MaskQuery(ScopeQuery(q, scope), masked) }
    function Items(items: Items): Items { MaskItems(ScopeItems(items, scope), masked) }
    function From(f: From): From { MaskFrom(ScopeFrom(f, scope), masked) }
    function Source(x: Source): Source { MaskSource(ScopeSource(x, scope), masked) }
    function Cond(c: Cond): Cond { MaskCond(ScopeCond(c, scope), masked) }
    function Expr(e: Expr): Expr { MaskExpr(ScopeExpr(e, scope), masked) }
    function Exprs(es: Exprs): Exprs { MaskExprs(ScopeExprs(es, scope), masked) }
  }

  /** The column of an inserted predicate: a scope column, qualified as one of the tables is. */
  predicate Inserted(c: Node, scope: Scope, tables: seq<Node>) {
    && c.ColumnNode? && c.qualifier.Some?
    && (exists r | r in scope :: r.column == c.name)
    && (exists t | t in tables :: t.TableNode? && c.qualifier.value == Table(t.table, t.alias).Qualifier())
  }

  predicate Masked(c: Node, masked: set<string>) {
    c.ColumnNode? && Fold(c.name) in masked
  }

  /** `after` are the nodes of a rewritten tree of kind k, `before` those of the original, `tables` its tables. */
  predicate Kept(p: Passes, k: Kind, after: seq<Node>, before: seq<Node>, tables: seq<Node>) {
    if k != Columns then after == before
    else
      && (forall c | c in after :: !Masked(c, p.masked) && (c in before || Inserted(c, p.scope, tables)))
      && (forall c | c in before && !Masked(c, p.masked) :: c in after)
  }

  lemma KeptTogether(p: Passes, k: Kind, a1: seq<Node>, b1: seq<Node>, t1: seq<Node>, a2: seq<Node>, b2: seq<Node>,
                     t2: seq<Node>)
    requires Kept(p, k, a1, b1, t1) && Kept(p, k, a2, b2, t2)
    ensures Kept(p, k, a1 + a2, b1 + b2, t1 + t2)
  {
    if k == Columns {
      forall c | c in a1 + a2 && c !in b1 + b2 ensures Inserted(c, p.scope, t1 + t2) {
        InsertedMore(c, p.scope, t1, t2);
      }
    }
  }

  lemma InsertedMore(c: Node, scope: Scope, t1: seq<Node>, t2: seq<Node>)
    requires Inserted(c, scope, t1) || Inserted(c, scope, t2)
    ensures Inserted(c, scope, t1 + t2)
  {
    if Inserted(c, scope, t1) {
      var t :| t in t1 && t.TableNode? && c.qualifier.value == Table(t.table, t.alias).Qualifier();
      assert t in t1 + t2;
    } else {
      var t :| t in t2 && t.TableNode? && c.qualifier.value == Table(t.table, t.alias).Qualifier();
      assert t in t1 + t2;
    }
  }

  lemma KeptMore(p: Passes, k: Kind, a: seq<Node>, b: seq<Node>, t1: seq<Node>, t2: seq<Node>)
    requires Kept(p, k, a, b, t2)
    ensures Kept(p, k, a, b, t1 + t2)
  {
    if k == Columns {
      forall c | c in a && c !in b ensures Inserted(c, p.scope, t1 + t2) {
        InsertedMore(c, p.scope, t1, t2);
      }
    }
  }

  lemma KeptPlain(p: Passes, k: Kind, nodes: seq<Node>)
    requires forall c | c in nodes :: !Masked(c, p.masked)
    ensures Kept(p, k, nodes, nodes, [])
  {
  }

  // ---- The inserted predicates ----

  lemma {:induction false} QualifierOfTableNode(f: From, q: string)
    requires q in TableQualifiers(f)
    ensures exists t | t in InFrom(f, Tables) :: t.TableNode? && q == Table(t.table, t.alias).Qualifier()
  {
    match f
    case NoFrom =>
    case Join(left, _, source, on) =>
      if q in TableQualifiers(left) {
        QualifierOfTableNode(left, q);
        var t :| t in InFrom(left, Tables) && t.TableNode? && q == Table(t.table, t.alias).Qualifier();
        assert t in InFrom(f, Tables);
      } else {
        assert InSource(source, Tables) == [TableNode(source.name, source.alias)];
        assert InSource(source, Tables)[0] in InFrom(f, Tables);
      }
  }

  lemma {:induction false} ConjoinNodes(c: Cond, ps: seq<Expr>, k: Kind)
    ensures forall node ::
      node in InCond(ConjoinAll(c, ps), k) <==> node in InCond(c, k) || exists p | p in ps :: node in InExpr(p, k)
    ensures (forall p | p in ps :: InExpr(p, k) == []) ==> InCond(ConjoinAll(c, ps), k) == InCond(c, k)
  {
    if ps != [] {
      var init, p := ps[..|ps| - 1], ps[|ps| - 1];
      ConjoinNodes(c, init, k);
      ConjoinNode(ConjoinAll(c, init), p, k);
      assert forall x :: x in ps <==> x in init || x == p;
    }
  }

  lemma ConjoinNode(c: Cond, p: Expr, k: Kind)
    ensures InCond(Conjoin(c, p), k) == InCond(c, k) + InExpr(p, k)
  {
    if c.If? {
      assert InExpr(Enclosed(c.e), k) == InExpr(c.e, k);
    }
  }

  lemma {:induction false} PredicateNodes(scope: Scope, qs: seq<string>, p: Expr)
    requires p in ScopePredicates(scope, qs)
    ensures exists r, q | r in scope && q in qs :: p == ScopePredicate(r, q)
  {
    if p in ScopePredicates(scope[..|scope| - 1], qs) {
      PredicateNodes(scope[..|scope| - 1], qs, p);
    } else {
      var column := ColumnPredicates(scope[|scope| - 1], qs);
      var i :| 0 <= i < |column| && column[i] == p;
      assert qs[i] in qs && scope[|scope| - 1] in scope;
    }
  }

  lemma PredicateColumns(r: Restriction, q: string, k: Kind)
    ensures InExpr(ScopePredicate(r, q), k) == Emit(k, ColumnNode(Some(q), r.column))
  {
    var p := ScopePredicate(r, q);
    assert p == Binary(Eq, Col(Some(q), r.column), Const(Str(r.value)));
    assert InExpr(p.l, k) == Emit(k, ColumnNode(Some(q), r.column)) && InExpr(p.r, k) == [];
  }

  /** The rewritten WHERE against the original one. */
  lemma WhereKept(p: Passes, where: Cond, f: From, k: Kind, tables: seq<Node>)
    requires p.Valid() && Kept(p, k, InCond(p.Cond(where), k), InCond(where, k), tables)
    ensures Kept(p, k, InCond(MaskCond(ScopedWhere(ScopeCond(where, p.scope), f, p.scope), p.masked), k),
                 InCond(where, k),
                 InFrom(f, Tables) + tables)
  {
    WhereMasked(ScopeCond(where, p.scope), f, p.scope, p.masked);
    var qs := SortedSet(TableQualifiers(f));
    var ps := ScopePredicates(p.scope, qs);
    ConjoinNodes(p.Cond(where), ps, k);
    KeptMore(p, k, InCond(p.Cond(where), k), InCond(where, k), InFrom(f, Tables), tables);
    forall e | e in ps
      ensures k != Columns ==> InExpr(e, k) == []
      ensures forall c | c in InExpr(e, k) :: Inserted(c, p.scope, InFrom(f, Tables) + tables) && !Masked(c, p.masked)
    {
      PredicateNodes(p.scope, qs, e);
      var r, q :| r in p.scope && q in qs && e == ScopePredicate(r, q);
      PredicateColumns(r, q, k);
      if k == Columns {
        QualifierOfTableNode(f, q);
        InsertedMore(ColumnNode(Some(q), r.column), p.scope, InFrom(f, Tables), tables);
      }
    }
  }

  // ---- Every node ----

  ghost predicate QueryKept(p: Passes, q: Query, k: Kind) {
    Kept(p, k, FindAll(p.Query(q), k), FindAll(q, k), FindAll(q, Tables))
  }
  ghost predicate ItemsKept(p: Passes, x: Items, k: Kind) {
    Kept(p, k, InItems(p.Items(x), k), InItems(x, k), InItems(x, Tables))
  }
  ghost predicate FromKept(p: Passes, f: From, k: Kind) {
    Kept(p, k, InFrom(p.From(f), k), InFrom(f, k), InFrom(f, Tables))
  }
  ghost predicate CondKept(p: Passes, c: Cond, k: Kind) {
    Kept(p, k, InCond(p.Cond(c), k), InCond(c, k), InCond(c, Tables))
  }
  ghost predicate ExprKept(p: Passes, e: Expr, k: Kind) {
    Kept(p, k, InExpr(p.Expr(e), k), InExpr(e, k), InExpr(e, Tables))
  }
  ghost predicate ExprsKept(p: Passes, x: Exprs, k: Kind) {
    Kept(p, k, InExprs(p.Exprs(x), k), InExprs(x, k), InExprs(x, Tables))
  }

  lemma {:induction false} QueryKeeps(p: Passes, q: Query, k: Kind)
    requires p.Valid()
    ensures QueryKept(p, q, k)
  {
    match q
    case Select(_, items, from, where, groupBy, having, orderBy, _, _, _, _) =>
      ItemsKeep(p, items, k); FromKeeps(p, from, k); CondKeeps(p, where, k);
      ExprsKeep(p, groupBy, k); CondKeeps(p, having, k); ExprsKeep(p, orderBy, k);
      SelectKeeps(p, q, k);
    case SetOp(op, left, right) =>
      QueryKeeps(p, left, k); QueryKeeps(p, right, k);
      KeptTogether(p, k, FindAll(p.Query(left), k), FindAll(left, k), FindAll(left, Tables),
                   FindAll(p.Query(right), k), FindAll(right, k), FindAll(right, Tables));
      assert p.Query(q) == SetOp(op, p.Query(left), p.Query(right));
    case With(name, body, main) =>
      QueryKeeps(p, body, k); QueryKeeps(p, main, k);
      var cte := Emit(k, CteNode(name));
      KeptPlain(p, k, cte);
      KeptTogether(p, k, cte, cte, [], FindAll(p.Query(body), k), FindAll(body, k), FindAll(body, Tables));
      KeptTogether(p, k, cte + FindAll(p.Query(body), k), cte + FindAll(body, k), [] + FindAll(body, Tables),
                   FindAll(p.Query(main), k), FindAll(main, k), FindAll(main, Tables));
      assert p.Query(q) == With(name, p.Query(body), p.Query(main));
      assert [] + FindAll(body, Tables) == FindAll(body, Tables);
      assert Emit(Tables, CteNode(name)) == [];
    case Mutation(_) =>
      assert p.Query(q) == q;
      KeptPlain(p, k, FindAll(q, k));
  }

  /** Permuting the tables of a part does not matter. */
  lemma KeptAs(p: Passes, k: Kind, a: seq<Node>, b: seq<Node>, t: seq<Node>, u: seq<Node>)
    requires Kept(p, k, a, b, t) && forall x | x in t :: x in u
    ensures Kept(p, k, a, b, u)
  {
    if k == Columns {
      forall c | c in a && c !in b ensures Inserted(c, p.scope, u) {
        var t' :| t' in t && t'.TableNode? && c.qualifier.value == Table(t'.table, t'.alias).Qualifier();
        assert t' in u;
      }
    }
  }

  lemma SelectKeeps(p: Passes, q: Query, k: Kind)
    requires p.Valid() && q.Select?
    requires ItemsKept(p, q.items, k) && FromKept(p, q.from, k) && CondKept(p, q.where, k)
    requires ExprsKept(p, q.groupBy, k) && CondKept(p, q.having, k) && ExprsKept(p, q.orderBy, k)
    ensures QueryKept(p, q, k)
  {
    var all := FindAll(q, Tables);
    var r := p.Query(q);
    WhereKept(p, q.where, q.from, k, InCond(q.where, Tables));
    KeptAs(p, k, InItems(r.items, k), InItems(q.items, k), InItems(q.items, Tables), all);
    KeptAs(p, k, InFrom(r.from, k), InFrom(q.from, k), InFrom(q.from, Tables), all);
    KeptAs(p, k, InCond(r.where, k), InCond(q.where, k), InFrom(q.from, Tables) + InCond(q.where, Tables), all);
    KeptAs(p, k, InExprs(r.groupBy, k), InExprs(q.groupBy, k), InExprs(q.groupBy, Tables), all);
    KeptAs(p, k, InCond(r.having, k), InCond(q.having, k), InCond(q.having, Tables), all);
    KeptAs(p, k, InExprs(r.orderBy, k), InExprs(q.orderBy, k), InExprs(q.orderBy, Tables), all);
  }

  lemma {:induction false} ItemsKeep(p: Passes, items: Items, k: Kind)
    requires p.Valid()
    ensures ItemsKept(p, items, k)
  {
    match items
    case NoItem =>
    case Star(rest) => ItemsKeep(p, rest, k);
    case TableStar(a, rest) =>
      ItemsKeep(p, rest, k);
      var star := Emit(k, ColumnNode(Some(a), "*"));
      assert Fold("*") == "*";
      KeptPlain(p, k, star);
      KeptTogether(p, k, star, star, [], InItems(p.Items(rest), k), InItems(rest, k), InItems(rest, Tables));
      assert p.Items(items) == TableStar(a, p.Items(rest));
      assert [] + InItems(rest, Tables) == InItems(rest, Tables) == InItems(items, Tables);
    case Item(e, alias, rest) =>
      ItemsKeep(p, rest, k);
      ExprKeeps(p, e, k);
      KeptTogether(p, k, InExpr(p.Expr(e), k), InExpr(e, k), InExpr(e, Tables),
                   InItems(p.Items(rest), k), InItems(rest, k), InItems(rest, Tables));
      assert InItems(p.Items(items), k) == InExpr(p.Expr(e), k) + InItems(p.Items(rest), k);
  }

  lemma {:induction false} FromKeeps(p: Passes, f: From, k: Kind)
    requires p.Valid()
    ensures FromKept(p, f, k)
  {
    match f
    case NoFrom =>
    case Join(left, kind, source, on) =>
      FromKeeps(p, left, k);
      CondKeeps(p, on, k);
      if source.Derived? {
        QueryKeeps(p, source.q, k);
      }
      SourceKeeps(p, source, k);
      KeptTogether(p, k, InFrom(p.From(left), k), InFrom(left, k), InFrom(left, Tables),
                   InSource(p.Source(source), k), InSource(source, k), InSource(source, Tables));
      KeptTogether(p, k, InFrom(p.From(left), k) + InSource(p.Source(source), k), InFrom(left, k) + InSource(source, k),
                   InFrom(left, Tables) + InSource(source, Tables), InCond(p.Cond(on), k), InCond(on, k), InCond(on,
                          Tables));
      assert p.From(f) == Join(p.From(left), kind, p.Source(source), p.Cond(on));
  }

  lemma SourceKeeps(p: Passes, source: Source, k: Kind)
    requires source.Derived? ==> QueryKept(p, source.q, k)
    ensures Kept(p, k, InSource(p.Source(source), k), InSource(source, k), InSource(source, Tables))
  {
    match source
    case Table(_, _) => assert p.Source(source) == source;
    case Derived(q, given) =>
      var node := Emit(k, SubqueryNode(given));
      KeptPlain(p, k, node);
      KeptTogether(p, k, node, node, [], FindAll(p.Query(q), k), FindAll(q, k), FindAll(q, Tables));
      assert p.Source(source) == Derived(p.Query(q), given);
  }

  lemma {:induction false} CondKeeps(p: Passes, c: Cond, k: Kind)
    requires p.Valid()
    ensures CondKept(p, c, k)
  {
    match c
    case Always => assert p.Cond(c) == c;
    case If(e) =>
      ExprKeeps(p, e, k);
      assert p.Cond(c) == If(p.Expr(e));
  }

  lemma {:induction false} ExprKeeps(p: Passes, e: Expr, k: Kind)
    requires p.Valid()
    ensures ExprKept(p, e, k)
  {
    match e
    case Const(_) => assert p.Expr(e) == e;
    case Col(_, _) => ColKeeps(p, e, k);
    case Binary(op, l, r) =>
      ExprKeeps(p, l, k); ExprKeeps(p, r, k);
      BinaryKeeps(p, e, k);
    case Not(a) => ExprKeeps(p, a, k); assert p.Expr(e) == Not(p.Expr(a));
    case IsNull(a) => ExprKeeps(p, a, k); assert p.Expr(e) == IsNull(p.Expr(a));
    case Paren(a) => ExprKeeps(p, a, k); assert p.Expr(e) == Paren(p.Expr(a));
    case Cast(a, target) => ExprKeeps(p, a, k); assert p.Expr(e) == Cast(p.Expr(a), target);
    case Case(tests, results, otherwise) =>
      ExprsKeep(p, tests, k); ExprsKeep(p, results, k); ExprKeeps(p, otherwise, k);
      CaseKeeps(p, e, k);
    case Call(fn, args) =>
      ExprsKeep(p, args, k);
      assert p.Expr(e) == Call(fn, p.Exprs(args));
      FunctionKeeps(p, fn, k, InExprs(p.Exprs(args), k), InExprs(args, k), InExprs(args, Tables));
    case Aggregate(fn, arg) =>
      ExprKeeps(p, arg, k);
      assert p.Expr(e) == Aggregate(fn, p.Expr(arg));
      FunctionKeeps(p, fn, k, InExpr(p.Expr(arg), k), InExpr(arg, k), InExpr(arg, Tables));
    case Scalar(q) => QueryKeeps(p, q, k); assert p.Expr(e) == Scalar(p.Query(q));
    case Exists(q) => QueryKeeps(p, q, k); assert p.Expr(e) == Exists(p.Query(q));
    case In(a, q) =>
      ExprKeeps(p, a, k); QueryKeeps(p, q, k);
      InKeeps(p, e, k);
  }

  lemma BinaryKeeps(p: Passes, e: Expr, k: Kind)
    requires e.Binary? && ExprKept(p, e.l, k) && ExprKept(p, e.r, k)
    ensures ExprKept(p, e, k)
  {
    KeptTogether(p, k, InExpr(p.Expr(e.l), k), InExpr(e.l, k), InExpr(e.l, Tables), InExpr(p.Expr(e.r), k),
                 InExpr(e.r, k), InExpr(e.r, Tables));
    assert p.Expr(e) == Binary(e.op, p.Expr(e.l), p.Expr(e.r));
  }

  lemma InKeeps(p: Passes, e: Expr, k: Kind)
    requires e.In? && ExprKept(p, e.e, k) && QueryKept(p, e.q, k)
    ensures ExprKept(p, e, k)
  {
    KeptTogether(p, k, InExpr(p.Expr(e.e), k), InExpr(e.e, k), InExpr(e.e, Tables), FindAll(p.Query(e.q), k),
                 FindAll(e.q, k), FindAll(e.q, Tables));
    assert p.Expr(e) == In(p.Expr(e.e), p.Query(e.q));
  }

  lemma CaseKeeps(p: Passes, e: Expr, k: Kind)
    requires e.Case? && ExprsKept(p, e.tests, k) && ExprsKept(p, e.results, k) && ExprKept(p, e.otherwise, k)
    ensures ExprKept(p, e, k)
  {
    KeptTogether(p, k, InExprs(p.Exprs(e.tests), k), InExprs(e.tests, k), InExprs(e.tests, Tables),
                 InExprs(p.Exprs(e.results), k), InExprs(e.results, k), InExprs(e.results, Tables));
    KeptTogether(p, k, InExprs(p.Exprs(e.tests), k) + InExprs(p.Exprs(e.results), k),
                 InExprs(e.tests, k) + InExprs(e.results, k), InExprs(e.tests, Tables) + InExprs(e.results, Tables),
                 InExpr(p.Expr(e.otherwise), k), InExpr(e.otherwise, k), InExpr(e.otherwise, Tables));
    assert p.Expr(e) == Case(p.Exprs(e.tests), p.Exprs(e.results), p.Expr(e.otherwise));
  }

  lemma ColKeeps(p: Passes, e: Expr, k: Kind)
    requires e.Col?
    ensures ExprKept(p, e, k)
  {
  }

  lemma FunctionKeeps(p: Passes, fn: string, k: Kind, after: seq<Node>, before: seq<Node>, tables: seq<Node>)
    requires Kept(p, k, after, before, tables)
    ensures Kept(p, k, Emit(k, FunctionNode(fn)) + after, Emit(k, FunctionNode(fn)) + before,
                 Emit(Tables, FunctionNode(fn)) + tables)
  {
    var node := Emit(k, FunctionNode(fn));
    KeptPlain(p, k, node);
    KeptTogether(p, k, node, node, [], after, before, tables);
  }

  lemma {:induction false} ExprsKeep(p: Passes, es: Exprs, k: Kind)
    requires p.Valid()
    ensures ExprsKept(p, es, k)
  {
    match es
    case NoExpr => assert p.Exprs(es) == es;
    case More(head, tail) =>
      ExprKeeps(p, head, k); ExprsKeep(p, tail, k);
      KeptTogether(p, k, InExpr(p.Expr(head), k), InExpr(head, k), InExpr(head, Tables),
                   InExprs(p.Exprs(tail), k), InExprs(tail, k), InExprs(tail, Tables));
      assert p.Exprs(es) == More(p.Expr(head), p.Exprs(tail));
  }

  // ---- The judgements ----

  /** One rewrite after the other, whether or not a scope column is masked. */
  lemma BothKeep(q: Query, scope: Scope, masked: set<string>, k: Kind)
    requires "*" !in masked
    ensures var mid := ScopeQuery(q, scope);
      && Kept(Passes.Passes(scope, {}), k, FindAll(mid, k), FindAll(q, k), FindAll(q, Tables))
      && Kept(Passes.Passes([], masked), k, FindAll(MaskQuery(mid, masked), k), FindAll(mid, k), FindAll(mid, Tables))
  {
    var mid := ScopeQuery(q, scope);
    QueryKeeps(Passes.Passes(scope, {}), q, k);
    MaskNothing(mid);
    QueryKeeps(Passes.Passes([], masked), mid, k);
    ScopeNothing(mid);
  }

  /** The columns of a rewritten statement. */
  lemma ColumnsKept(q: Query, scope: Scope, masked: set<string>, c: Node)
    requires "*" !in masked
    ensures var before, after := FindAll(q, Columns), FindAll(MaskQuery(ScopeQuery(q, scope), masked), Columns);
      && (c in after ==> !Masked(c, masked) && (c in before || Inserted(c, scope, FindAll(q, Tables))))
      && (c in before && !Masked(c, masked) ==> c in after)
  {
    BothKeep(q, scope, masked, Columns);
  }

  /** A rewritten statement is strictly read-only exactly when the original is. */
  lemma StaysReadOnly(q: Query, scope: Scope, masked: set<string>)
    requires "*" !in masked
    ensures IsStrictlyReadOnly([MaskQuery(ScopeQuery(q, scope), masked)]) <==> IsStrictlyReadOnly([q])
  {
    BothKeep(q, scope, masked, Guarded);
  }

  /** The rewrites touch the same physical tables, so the audited tables are those decided on. */
  lemma SameTables(q: Query, scope: Scope, masked: set<string>)
    requires "*" !in masked
    ensures TableNames(MaskQuery(ScopeQuery(q, scope), masked)) == TableNames(q)
    ensures CteNames(MaskQuery(ScopeQuery(q, scope), masked)) == CteNames(q)
  {
    BothKeep(q, scope, masked, Tables);
    BothKeep(q, scope, masked, Ctes);
  }

  /** The columns of a rewritten statement: the unmasked ones of the original, and scope columns. */
  lemma ColumnsRewritten(q: Query, scope: Scope, masked: set<string>)
    requires "*" !in masked
    ensures ColumnNames(MaskQuery(ScopeQuery(q, scope), masked)) !! masked
    ensures ColumnNames(q) - masked <= ColumnNames(MaskQuery(ScopeQuery(q, scope), masked))
    ensures ColumnNames(MaskQuery(ScopeQuery(q, scope), masked)) <= ColumnNames(q)
        + (set r | r in scope :: Fold(r.column))
  {
    var r := MaskQuery(ScopeQuery(q, scope), masked);
    var before, after := FindAll(q, Columns), FindAll(r, Columns);
    forall n | n in ColumnNames(q) - masked ensures n in ColumnNames(r) {
      var c :| c in before && c.ColumnNode? && Fold(c.name) == n;
      ColumnsKept(q, scope, masked, c);
      assert c in after;
    }
    forall n | n in ColumnNames(r)
      ensures n !in masked && (n in ColumnNames(q) || n in set r | r in scope :: Fold(r.column))
    {
      var c :| c in after && c.ColumnNode? && Fold(c.name) == n;
      ColumnsKept(q, scope, masked, c);
      if c !in before {
        var r :| r in scope && r.column == c.name;
      }
    }
  }

  /** Table qualifiers are single identifiers, nonempty and without a dot. */
  predicate PlainQualifiers(q: Query) {
    forall t | t in FindAll(q, Tables) && t.TableNode? ::
      var a := Table(t.table, t.alias).Qualifier(); a != "" && LastComponent(a) == a
  }

  lemma SameDeclared(q: Query, scope: Scope, masked: set<string>)
    requires "*" !in masked
    ensures Declared(MaskQuery(ScopeQuery(q, scope), masked)) == Declared(q)
  {
    BothKeep(q, scope, masked, Tables);
    BothKeep(q, scope, masked, Ctes);
    BothKeep(q, scope, masked, Subqueries);
  }

  /** The alias check complains of a rewritten statement only where it complains of the original. */
  lemma NoNewUnresolvedAlias(q: Query, scope: Scope, masked: set<string>)
    requires "*" !in masked && PlainQualifiers(q)
    ensures var r := MaskQuery(ScopeQuery(q, scope), masked); Referenced(r) - Declared(r) <= Referenced(q) - Declared(q)
  {
    var r := MaskQuery(ScopeQuery(q, scope), masked);
    SameDeclared(q, scope, masked);
    var before, after := FindAll(q, Columns), FindAll(r, Columns);
    forall n | n in Referenced(r) && n !in Declared(q) ensures n in Referenced(q) {
      var c :| c in after && c.ColumnNode? && c.qualifier.Some? && c.qualifier.value != ""
          && Fold(LastComponent(c.qualifier.value)) == n;
      ColumnsKept(q, scope, masked, c);
      assert c in before || Inserted(c, scope, FindAll(q, Tables));
    }
  }
}
