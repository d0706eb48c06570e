/** Lexical scoping of qualifiers: every qualified column belongs to a source of its own or an enclosing
    SELECT. The rewrites keep it, and the alias check accepts every well-scoped statement. */
module LexicalScope {
  import opened Wrappers
  import opened Identifiers
  import opened SqlAst
  import opened Rewrites
  import opened RewriteFacts
  import opened Fragment
  import opened StaticJudgements
  import opened RewrittenJudgements
  import opened Headers

  /** `visible` are the folded qualifiers of the enclosing SELECTs. */
  predicate Scoped(q: Query, visible: set<string>) {
    match q
    case Select(_, items, from, where, groupBy, having, orderBy, _, _, _, _) =>
      var inside := visible + Aliases(from);
      && FromScoped(from, visible, inside)
      && ItemsScoped(items, inside) && CondScoped(where, inside) && ExprsScoped(groupBy, inside)
      && CondScoped(having, inside) && ExprsScoped(orderBy, inside)
    case SetOp(_, left, right) => Scoped(left, visible) && Scoped(right, visible)
    case With(_, body, main) => Scoped(body, visible) && Scoped(main, visible)
    case Mutation(_) => true
  }

  /** A derived table sees the enclosing SELECTs only; ON conditions see the sources too. */
  predicate FromScoped(f: From, visible: set<string>, inside: set<string>) {
    match f
    case NoFrom => true
    case Join(left, _, source, on) =>
      && FromScoped(left, visible, inside) && CondScoped(on, inside)
      && (source.Derived? ==> Scoped(source.q, visible))
  }

  predicate ItemsScoped(items: Items, inside: set<string>) {
    match items
    case NoItem => true
    case Star(rest) => ItemsScoped(rest, inside)
    case TableStar(a, rest) => Fold(a) in inside && ItemsScoped(rest, inside)
    case Item(e, _, rest) => ExprScoped(e, inside) && ItemsScoped(rest, inside)
  }

  predicate CondScoped(c: Cond, inside: set<string>) {
    c.If? ==> ExprScoped(c.e, inside)
  }

  predicate ExprScoped(e: Expr, inside: set<string>) {
    match e
    case Const(_) => true
    case Col(qualifier, _) => qualifier.Some? ==> Fold(qualifier.value) in inside
    case Binary(_, l, r) => ExprScoped(l, inside) && ExprScoped(r, inside)
    case Not(a) => ExprScoped(a, inside)
    case IsNull(a) => ExprScoped(a, inside)
    case Paren(a) => ExprScoped(a, inside)
    case Cast(a, _) => ExprScoped(a, inside)
    case Case(tests, results, otherwise) =>
      ExprsScoped(tests, inside) && ExprsScoped(results, inside) && ExprScoped(otherwise, inside)
    case Call(_, args) => ExprsScoped(args, inside)
    case Aggregate(_, arg) => ExprScoped(arg, inside)
    case Scalar(q) => Scoped(q, inside)
    case Exists(q) => Scoped(q, inside)
    case In(a, q) => ExprScoped(a, inside) && Scoped(q, inside)
  }

  predicate ExprsScoped(es: Exprs, inside: set<string>) {
    es.More? ==> ExprScoped(es.head, inside) && ExprsScoped(es.tail, inside)
  }

  // ---- A well-scoped statement only uses declared qualifiers ----

  /** A name is visible or is the qualifier of a source among the nodes. */
  predicate Known(n: string, visible: set<string>, tables: seq<Node>, subqueries: seq<Node>) {
    || n in visible
    || (exists t | t in tables :: t.TableNode? && n == Fold(Table(t.table, t.alias).Qualifier()))
    || (exists d | d in subqueries :: d.SubqueryNode? && n == Fold(d.given))
  }

  predicate Resolved(columns: seq<Node>, visible: set<string>, tables: seq<Node>, subqueries: seq<Node>) {
    forall c | c in columns && c.ColumnNode? && c.qualifier.Some? ::
        Known(Fold(c.qualifier.value), visible, tables, subqueries)
  }

  lemma ResolvedMore(c: seq<Node>, v: set<string>, t: seq<Node>, d: seq<Node>, w: set<string>, u: seq<Node>,
                     e: seq<Node>)
    requires Resolved(c, v, t, d) && forall x | x in t :: x in u
    requires forall x | x in d :: x in e
    requires forall n | n in v :: Known(n, w, u, e)
    ensures Resolved(c, w, u, e)
  {
    forall x | x in c && x.ColumnNode? && x.qualifier.Some? ensures Known(Fold(x.qualifier.value), w, u, e) {
      var n := Fold(x.qualifier.value);
      assert Known(n, v, t, d);
      if y :| y in t && y.TableNode? && n == Fold(Table(y.table, y.alias).Qualifier()) {
        assert y in u;
      } else if y :| y in d && y.SubqueryNode? && n == Fold(y.given) {
        assert y in e;
      }
    }
  }

  lemma {:induction false} AliasesKnown(f: From, n: string)
    requires n in Aliases(f)
    ensures Known(n, {}, InFrom(f, Tables), InFrom(f, Subqueries))
  {
    match f
    case NoFrom =>
    case Join(left, _, source, on) =>
      if n in Aliases(left) {
        AliasesKnown(left, n);
        if t :| t in InFrom(left, Tables) && t.TableNode? && n == Fold(Table(t.table, t.alias).Qualifier()) {
          assert t in InFrom(f, Tables);
        } else {
          var d :| d in InFrom(left, Subqueries) && d.SubqueryNode? && n == Fold(d.given);
          assert d in InFrom(f, Subqueries);
        }
      } else if source.Table? {
        assert InSource(source, Tables)[0] in InFrom(f, Tables);
      } else {
        assert InSource(source, Subqueries)[0] == SubqueryNode(source.given);
        assert InSource(source, Subqueries)[0] in InFrom(f, Subqueries);
      }
  }

  ghost predicate QueryResolved(q: Query, v: set<string>) {
    Resolved(FindAll(q, Columns), v, FindAll(q, Tables), FindAll(q, Subqueries))
  }
  ghost predicate ItemsResolved(x: Items, v: set<string>) {
    Resolved(InItems(x, Columns), v, InItems(x, Tables), InItems(x, Subqueries))
  }
  ghost predicate FromResolved(f: From, v: set<string>) {
    Resolved(InFrom(f, Columns), v, InFrom(f, Tables), InFrom(f, Subqueries))
  }
  ghost predicate CondResolved(c: Cond, v: set<string>) {
    Resolved(InCond(c, Columns), v, InCond(c, Tables), InCond(c, Subqueries))
  }
  ghost predicate ExprResolved(e: Expr, v: set<string>) {
    Resolved(InExpr(e, Columns), v, InExpr(e, Tables), InExpr(e, Subqueries))
  }
  ghost predicate ExprsResolved(x: Exprs, v: set<string>) {
    Resolved(InExprs(x, Columns), v, InExprs(x, Tables), InExprs(x, Subqueries))
  }

  lemma Both(c1: seq<Node>, t1: seq<Node>, d1: seq<Node>, c2: seq<Node>, t2: seq<Node>, d2: seq<Node>, v: set<string>)
    requires Resolved(c1, v, t1, d1) && Resolved(c2, v, t2, d2)
    ensures Resolved(c1 + c2, v, t1 + t2, d1 + d2)
  {
    ResolvedMore(c1, v, t1, d1, v, t1 + t2, d1 + d2);
    ResolvedMore(c2, v, t2, d2, v, t1 + t2, d1 + d2);
  }

  lemma {:induction false} QueryResolves(q: Query, v: set<string>)
    requires Scoped(q, v)
    ensures QueryResolved(q, v)
  {
    match q
    case Select(_, items, from, where, groupBy, having, orderBy, _, _, _, _) =>
      var inside := v + Aliases(from);
      ItemsResolve(items, inside); FromResolves(from, v, inside); CondResolves(where, inside);
      ExprsResolve(groupBy, inside); CondResolves(having, inside); ExprsResolve(orderBy, inside);
      SelectResolves(q, v);
    case SetOp(_, left, right) =>
      QueryResolves(left, v); QueryResolves(right, v);
      Both(FindAll(left, Columns), FindAll(left, Tables), FindAll(left, Subqueries),
           FindAll(right, Columns), FindAll(right, Tables), FindAll(right, Subqueries), v);
    case With(_, body, main) =>
      QueryResolves(body, v); QueryResolves(main, v);
      ResolvedMore(FindAll(body, Columns), v, FindAll(body, Tables), FindAll(body, Subqueries), v, FindAll(q, Tables),
                   FindAll(q, Subqueries));
      ResolvedMore(FindAll(main, Columns), v, FindAll(main, Tables), FindAll(main, Subqueries), v, FindAll(q, Tables),
                   FindAll(q, Subqueries));
    case Mutation(_) =>
  }

  lemma KnownMore(n: string, v: set<string>, t: seq<Node>, d: seq<Node>, w: set<string>, u: seq<Node>, e: seq<Node>)
    requires Known(n, v, t, d) && v <= w && (forall x | x in t :: x in u) && forall x | x in d :: x in e
    ensures Known(n, w, u, e)
  {
  }

  /** Every name visible inside a SELECT is known outside, or declared in its FROM clause. */
  ghost predicate KnownInside(v: set<string>, f: From, t: seq<Node>, d: seq<Node>) {
    forall n | n in v + Aliases(f) :: Known(n, v, t, d)
  }

  lemma InsideKnown(v: set<string>, f: From, t: seq<Node>, d: seq<Node>)
    requires (forall x | x in InFrom(f, Tables) :: x in t) && forall x | x in InFrom(f, Subqueries) :: x in d
    ensures KnownInside(v, f, t, d)
  {
    forall n | n in v + Aliases(f) ensures Known(n, v, t, d) {
      if n !in v {
        AliasesKnown(f, n);
        KnownMore(n, {}, InFrom(f, Tables), InFrom(f, Subqueries), v, t, d);
      }
    }
  }

  lemma PartResolves(c: seq<Node>, v: set<string>, f: From, t: seq<Node>, d: seq<Node>, u: seq<Node>, e: seq<Node>)
    requires Resolved(c, v + Aliases(f), t, d) && KnownInside(v, f, u, e)
    requires (forall x | x in t :: x in u) && forall x | x in d :: x in e
    ensures Resolved(c, v, u, e)
  {
    ResolvedMore(c, v + Aliases(f), t, d, v, u, e);
  }

  lemma SelectResolves(q: Query, v: set<string>)
    requires q.Select?
    requires var inside := v + Aliases(q.from);
      && ItemsResolved(q.items, inside) && FromResolved(q.from, inside) && CondResolved(q.where, inside)
      && ExprsResolved(q.groupBy, inside) && CondResolved(q.having, inside) && ExprsResolved(q.orderBy, inside)
    ensures QueryResolved(q, v)
  {
    var f, t, d := q.from, FindAll(q, Tables), FindAll(q, Subqueries);
    PartsFound(q, Tables);
    PartsFound(q, Subqueries);
    InsideKnown(v, f, t, d);
    var items, where, having := InItems(q.items, Columns), InCond(q.where, Columns), InCond(q.having, Columns);
    var from, groupBy, orderBy := InFrom(f, Columns), InExprs(q.groupBy, Columns), InExprs(q.orderBy, Columns);
    PartResolves(items, v, f, InItems(q.items, Tables), InItems(q.items, Subqueries), t, d);
    PartResolves(from, v, f, InFrom(f, Tables), InFrom(f, Subqueries), t, d);
    PartResolves(where, v, f, InCond(q.where, Tables), InCond(q.where, Subqueries), t, d);
    PartResolves(groupBy, v, f, InExprs(q.groupBy, Tables), InExprs(q.groupBy, Subqueries), t, d);
    PartResolves(having, v, f, InCond(q.having, Tables), InCond(q.having, Subqueries), t, d);
    PartResolves(orderBy, v, f, InExprs(q.orderBy, Tables), InExprs(q.orderBy, Subqueries), t, d);
    assert FindAll(q, Columns) == items + from + where + groupBy + having + orderBy + [] + [];
    forall c | c in FindAll(q, Columns) && c.ColumnNode? && c.qualifier.Some?
      ensures Known(Fold(c.qualifier.value), v, t, d)
    {
      assert c in items || c in from || c in where || c in groupBy || c in having || c in orderBy;
    }
  }

  /** The nodes of every part of a SELECT are among its nodes. */
  lemma PartsFound(q: Query, k: Kind)
    requires q.Select?
    ensures forall x | x in InItems(q.items, k) || x in InFrom(q.from, k) || x in InCond(q.where, k) ::
      x in FindAll(q, k)
    ensures forall x | x in InExprs(q.groupBy, k) || x in InCond(q.having, k) || x in InExprs(q.orderBy, k) ::
      x in FindAll(q, k)
  {
  }

  lemma {:induction false} FromResolves(f: From, v: set<string>, inside: set<string>)
    requires FromScoped(f, v, inside) && v <= inside
    ensures FromResolved(f, inside)
  {
    match f
    case NoFrom =>
    case Join(left, _, source, on) =>
      FromResolves(left, v, inside);
      CondResolves(on, inside);
      if source.Derived? {
        QueryResolves(source.q, v);
        ResolvedMore(FindAll(source.q, Columns), v, FindAll(source.q, Tables), FindAll(source.q, Subqueries),
                     inside, InSource(source, Tables), InSource(source, Subqueries));
      }
      Both(InFrom(left, Columns), InFrom(left, Tables), InFrom(left, Subqueries),
           InSource(source, Columns), InSource(source, Tables), InSource(source, Subqueries), inside);
      Both(InFrom(left, Columns) + InSource(source, Columns), InFrom(left, Tables) + InSource(source, Tables),
           InFrom(left, Subqueries) + InSource(source, Subqueries),
           InCond(on, Columns), InCond(on, Tables), InCond(on, Subqueries), inside);
  }

  lemma {:induction false} ItemsResolve(items: Items, v: set<string>)
    requires ItemsScoped(items, v)
    ensures ItemsResolved(items, v)
  {
    match items
    case NoItem =>
    case Star(rest) => ItemsResolve(rest, v);
    case TableStar(_, rest) => ItemsResolve(rest, v);
    case Item(e, _, rest) =>
      ExprResolves(e, v); ItemsResolve(rest, v);
      Both(InExpr(e, Columns), InExpr(e, Tables), InExpr(e, Subqueries),
           InItems(rest, Columns), InItems(rest, Tables), InItems(rest, Subqueries), v);
  }

  lemma {:induction false} CondResolves(c: Cond, v: set<string>)
    requires CondScoped(c, v)
    ensures CondResolved(c, v)
  {
    if c.If? { ExprResolves(c.e, v); }
  }

  lemma {:induction false} ExprResolves(e: Expr, v: set<string>)
    requires ExprScoped(e, v)
    ensures ExprResolved(e, v)
  {
    match e
    case Const(_) =>
    case Col(_, _) =>
    case Binary(_, l, r) =>
      ExprResolves(l, v); ExprResolves(r, v);
      Both(InExpr(l, Columns), InExpr(l, Tables), InExpr(l, Subqueries), InExpr(r, Columns), InExpr(r, Tables),
           InExpr(r, Subqueries), v);
    case Not(a) => ExprResolves(a, v);
    case IsNull(a) => ExprResolves(a, v);
    case Paren(a) => ExprResolves(a, v);
    case Cast(a, _) => ExprResolves(a, v);
    case Case(tests, results, otherwise) =>
      ExprsResolve(tests, v); ExprsResolve(results, v); ExprResolves(otherwise, v);
      Both(InExprs(tests, Columns), InExprs(tests, Tables), InExprs(tests, Subqueries),
           InExprs(results, Columns), InExprs(results, Tables), InExprs(results, Subqueries), v);
      Both(InExprs(tests, Columns) + InExprs(results, Columns), InExprs(tests, Tables) + InExprs(results, Tables),
           InExprs(tests, Subqueries) + InExprs(results, Subqueries),
           InExpr(otherwise, Columns), InExpr(otherwise, Tables), InExpr(otherwise, Subqueries), v);
    case Call(_, args) => ExprsResolve(args, v);
    case Aggregate(_, arg) => ExprResolves(arg, v);
    case Scalar(q) => QueryResolves(q, v);
    case Exists(q) => QueryResolves(q, v);
    case In(a, q) =>
      ExprResolves(a, v); QueryResolves(q, v);
      Both(InExpr(a, Columns), InExpr(a, Tables), InExpr(a, Subqueries), FindAll(q, Columns), FindAll(q, Tables),
           FindAll(q, Subqueries), v);
  }

  lemma {:induction false} ExprsResolve(es: Exprs, v: set<string>)
    requires ExprsScoped(es, v)
    ensures ExprsResolved(es, v)
  {
    if es.More? {
      ExprResolves(es.head, v); ExprsResolve(es.tail, v);
      Both(InExpr(es.head, Columns), InExpr(es.head, Tables), InExpr(es.head, Subqueries),
           InExprs(es.tail, Columns), InExprs(es.tail, Tables), InExprs(es.tail, Subqueries), v);
    }
  }

  /** Qualifiers are single identifiers: nonempty and without a dot. */
  predicate PlainNames(q: Query) {
    && PlainQualifiers(q)
    && (forall d | d in FindAll(q, Subqueries) && d.SubqueryNode? :: d.given != "")
    && forall c | c in FindAll(q, Columns) && c.ColumnNode? && c.qualifier.Some? ::
         LastComponent(c.qualifier.value) == c.qualifier.value
  }

  /** The alias check never complains of a well-scoped statement. */
  lemma WellScopedAccepted(q: Query)
    requires Scoped(q, {}) && PlainNames(q)
    ensures Referenced(q) <= Declared(q)
  {
    QueryResolves(q, {});
    forall n | n in Referenced(q) ensures n in Declared(q) {
      var c :| c in FindAll(q, Columns) && c.ColumnNode? && c.qualifier.Some? && c.qualifier.value != ""
          && Fold(LastComponent(c.qualifier.value)) == n;
      assert Known(n, {}, FindAll(q, Tables), FindAll(q, Subqueries));
      if t :| t in FindAll(q, Tables) && t.TableNode? && n == Fold(Table(t.table, t.alias).Qualifier()) {
        assert n in DeclaredByTables(q);
      }
    }
  }

  // ---- The rewrites keep lexical scoping ----

  lemma {:induction false} QueryStaysScoped(p: Passes, q: Query, v: set<string>)
    requires Disjoint(p.scope, p.masked) && Scoped(q, v)
    ensures Scoped(p.Query(q), v)
  {
    match q
    case Select(_, items, from, where, groupBy, having, orderBy, _, _, _, _) =>
      var inside := v + Aliases(from);
      AliasesKept(p, from);
      FromStaysScoped(p, from, v, inside); ItemsStayScoped(p, items, inside); CondStaysScoped(p, where, inside);
      ExprsStayScoped(p, groupBy, inside); CondStaysScoped(p, having, inside); ExprsStayScoped(p, orderBy, inside);
      WhereStaysScoped(p, where, from, inside);
    case SetOp(_, left, right) => QueryStaysScoped(p, left, v); QueryStaysScoped(p, right, v);
    case With(_, body, main) => QueryStaysScoped(p, body, v); QueryStaysScoped(p, main, v);
    case Mutation(_) =>
  }

  lemma {:induction false} AliasesKept(p: Passes, f: From)
    ensures Aliases(p.From(f)) == Aliases(f)
  {
    match f
    case NoFrom =>
    case Join(left, kind, source, on) =>
      AliasesKept(p, left);
      assert p.Source(source).Qualifier() == source.Qualifier();
      assert p.From(f) == Join(p.From(left), kind, p.Source(source), p.Cond(on));
  }

  lemma {:induction false} ConjoinScoped(c: Cond, ps: seq<Expr>, inside: set<string>)
    requires CondScoped(c, inside) && forall p | p in ps :: ExprScoped(p, inside)
    ensures CondScoped(ConjoinAll(c, ps), inside)
  {
    if ps != [] {
      ConjoinScoped(c, ps[..|ps| - 1], inside);
      assert ExprScoped(ps[|ps| - 1], inside);
    }
  }

  lemma WhereStaysScoped(p: Passes, where: Cond, f: From, inside: set<string>)
    requires Disjoint(p.scope, p.masked) && CondScoped(p.Cond(where), inside) && Aliases(f) <= inside
    ensures CondScoped(MaskCond(ScopedWhere(ScopeCond(where, p.scope), f, p.scope), p.masked), inside)
  {
    WhereMasked(ScopeCond(where, p.scope), f, p.scope, p.masked);
    QualifiersDeclared(f);
    var qs := SortedSet(TableQualifiers(f));
    forall e | e in ScopePredicates(p.scope, qs) ensures ExprScoped(e, inside) {
      PredicateNodes(p.scope, qs, e);
      var r, q :| r in p.scope && q in qs && e == ScopePredicate(r, q);
      assert e.l == Col(Some(q), r.column) && ExprScoped(e.l, inside) && ExprScoped(e.r, inside);
    }
    ConjoinScoped(p.Cond(where), ScopePredicates(p.scope, qs), inside);
  }

  lemma {:induction false} FromStaysScoped(p: Passes, f: From, v: set<string>, inside: set<string>)
    requires Disjoint(p.scope, p.masked) && FromScoped(f, v, inside)
    ensures FromScoped(p.From(f), v, inside)
  {
    match f
    case NoFrom =>
    case Join(left, kind, source, on) =>
      FromStaysScoped(p, left, v, inside);
      CondStaysScoped(p, on, inside);
      if source.Derived? {
        QueryStaysScoped(p, source.q, v);
        assert p.Source(source) == Derived(p.Query(source.q), source.given);
      }
      assert p.From(f) == Join(p.From(left), kind, p.Source(source), p.Cond(on));
  }

  lemma {:induction false} ItemsStayScoped(p: Passes, items: Items, inside: set<string>)
    requires Disjoint(p.scope, p.masked) && ItemsScoped(items, inside)
    ensures ItemsScoped(p.Items(items), inside)
  {
    match items
    case NoItem =>
    case Star(rest) => ItemsStayScoped(p, rest, inside);
    case TableStar(_, rest) => ItemsStayScoped(p, rest, inside);
    case Item(e, _, rest) => ItemsStayScoped(p, rest, inside); ExprStaysScoped(p, e, inside);
  }

  lemma {:induction false} CondStaysScoped(p: Passes, c: Cond, inside: set<string>)
    requires Disjoint(p.scope, p.masked) && CondScoped(c, inside)
    ensures CondScoped(p.Cond(c), inside)
  {
    if c.If? { ExprStaysScoped(p, c.e, inside); }
  }

  lemma {:induction false} ExprStaysScoped(p: Passes, e: Expr, inside: set<string>)
    requires Disjoint(p.scope, p.masked) && ExprScoped(e, inside)
    ensures ExprScoped(p.Expr(e), inside)
  {
    match e
    case Const(_) =>
    case Col(_, _) =>
    case Binary(_, l, r) => ExprStaysScoped(p, l, inside); ExprStaysScoped(p, r, inside);
    case Not(a) => ExprStaysScoped(p, a, inside);
    case IsNull(a) => ExprStaysScoped(p, a, inside);
    case Paren(a) => ExprStaysScoped(p, a, inside);
    case Cast(a, _) => ExprStaysScoped(p, a, inside);
    case Case(tests, results, otherwise) =>
      ExprsStayScoped(p, tests, inside); ExprsStayScoped(p, results, inside); ExprStaysScoped(p, otherwise, inside);
    case Call(_, args) => ExprsStayScoped(p, args, inside);
    case Aggregate(_, arg) => ExprStaysScoped(p, arg, inside);
    case Scalar(q) => QueryStaysScoped(p, q, inside);
    case Exists(q) => QueryStaysScoped(p, q, inside);
    case In(a, q) => ExprStaysScoped(p, a, inside); QueryStaysScoped(p, q, inside);
  }

  lemma {:induction false} ExprsStayScoped(p: Passes, es: Exprs, inside: set<string>)
    requires Disjoint(p.scope, p.masked) && ExprsScoped(es, inside)
    ensures ExprsScoped(p.Exprs(es), inside)
  {
    if es.More? { ExprStaysScoped(p, es.head, inside); ExprsStayScoped(p, es.tail, inside); }
  }

  /** A well-scoped statement stays well-scoped under both rewrites. */
  lemma StaysWellScoped(q: Query, scope: Scope, masked: set<string>)
    requires Scoped(q, {})
    ensures Scoped(MaskQuery(ScopeQuery(q, scope), masked), {})
  {
    var mid := ScopeQuery(q, scope);
    QueryStaysScoped(Passes.Passes(scope, {}), q, {});
    MaskNothing(mid);
    QueryStaysScoped(Passes.Passes([], masked), mid, {});
    ScopeNothing(mid);
  }
}
