/** What the rewrites leave alone: output names, aggregation, qualifiers; and how they combine. */
module RewriteFacts {
  import opened Identifiers
  import opened SqlAst
  import opened SqlSemantics
  import opened Rewrites

  // ---- Output names ----

  /** The header of an unaliased item changes under masking: a masked column names it from behind
      parentheses, a cast or an ELSE, or from inside a scalar subquery. */
  predicate HeaderChanges(e: Expr, masked: set<string>)
    decreases e, 1
  {
    match NamingPart(e)
    case Col(_, name) => !e.Col? && Fold(name) in masked && name != FallbackName(e)
    case Scalar(q) => FirstHeaderChanges(q, masked)
    case _ => false
  }

  predicate FirstHeaderChanges(q: Query, masked: set<string>)
    decreases q, 0
  {
    match q
    case Select(_, items, _, _, _, _, _, _, _, _, _) =>
      items.Item? && items.alias.None? && HeaderChanges(items.e, masked)
    case SetOp(_, left, _) => FirstHeaderChanges(left, masked)
    case With(_, _, main) => FirstHeaderChanges(main, masked)
    case Mutation(_) => false
  }

  lemma {:induction false} NamingMasked(e: Expr, masked: set<string>)
    ensures NamingPart(MaskExpr(e, masked)) == MaskExpr(NamingPart(e), masked)
    ensures FallbackName(MaskExpr(e, masked)) == FallbackName(e)
  {
    match e
    case Paren(a) => NamingMasked(a, masked);
    case Cast(a, _) => NamingMasked(a, masked);
    case Case(_, _, otherwise) => NamingMasked(otherwise, masked);
    case _ =>
  }

  lemma {:induction false} DefaultNameMasked(e: Expr, masked: set<string>)
    requires !IsMasked(e, masked)
    ensures DefaultName(MaskExpr(e, masked)) != DefaultName(e) <==> HeaderChanges(e, masked)
    decreases e, 1
  {
    NamingMasked(e, masked);
    var part := NamingPart(e);
    if part.Scalar? {
      FirstNameMasked(part.q, masked);
    }
  }

  lemma {:induction false} FirstNameMasked(q: Query, masked: set<string>)
    ensures FirstName(MaskQuery(q, masked)) != FirstName(q) <==> FirstHeaderChanges(q, masked)
    decreases q, 0
  {
    match q
    case Select(_, items, _, _, _, _, _, _, _, _, _) =>
      if items.Item? && items.alias.None? {
        if IsMasked(items.e, masked) {
          assert NamingPart(items.e) == items.e && DefaultName(items.e) == items.e.name;
        } else {
          DefaultNameMasked(items.e, masked);
        }
      }
    case SetOp(_, left, _) => FirstNameMasked(left, masked);
    case With(_, _, main) => FirstNameMasked(main, masked);
    case Mutation(_) =>
  }

  /** Masking changes the name of an item only so. */
  lemma ItemNameMasked(items: Items, masked: set<string>)
    requires items.Item?
    ensures ItemName(MaskItems(items, masked)) != ItemName(items)
       <==> items.alias.None? && HeaderChanges(items.e, masked)
  {
    if items.alias.None? {
      if IsMasked(items.e, masked) {
        assert NamingPart(items.e) == items.e && DefaultName(items.e) == items.e.name;
      } else {
        DefaultNameMasked(items.e, masked);
      }
    }
  }

  lemma {:induction false} NamingScoped(e: Expr, s: Scope)
    ensures NamingPart(ScopeExpr(e, s)) == ScopeExpr(NamingPart(e), s)
    ensures FallbackName(ScopeExpr(e, s)) == FallbackName(e)
  {
    match e
    case Paren(a) => NamingScoped(a, s);
    case Cast(a, _) => NamingScoped(a, s);
    case Case(_, _, otherwise) => NamingScoped(otherwise, s);
    case _ =>
  }

  /** Scoping changes no name, nor whether masking does. */
  lemma {:induction false} DefaultNameScoped(e: Expr, s: Scope, masked: set<string>)
    ensures DefaultName(ScopeExpr(e, s)) == DefaultName(e)
    ensures HeaderChanges(ScopeExpr(e, s), masked) == HeaderChanges(e, masked)
    decreases e, 1
  {
    NamingScoped(e, s);
    var part := NamingPart(e);
    if part.Scalar? {
      FirstNameScoped(part.q, s, masked);
    }
  }

  lemma {:induction false} FirstNameScoped(q: Query, s: Scope, masked: set<string>)
    ensures FirstName(ScopeQuery(q, s)) == FirstName(q)
    ensures FirstHeaderChanges(ScopeQuery(q, s), masked) == FirstHeaderChanges(q, masked)
    decreases q, 0
  {
    match q
    case Select(_, items, _, _, _, _, _, _, _, _, _) =>
      if items.Item? {
        DefaultNameScoped(items.e, s, masked);
      }
    case SetOp(_, left, _) => FirstNameScoped(left, s, masked);
    case With(_, _, main) => FirstNameScoped(main, s, masked);
    case Mutation(_) =>
  }

  lemma {:induction false} ItemNamesScoped(items: Items, s: Scope, fields: seq<Field>)
    ensures ItemNames(ScopeItems(items, s), fields) == ItemNames(items, fields)
  {
    match items
    case NoItem =>
    case Star(rest) => ItemNamesScoped(rest, s, fields);
    case TableStar(_, rest) => ItemNamesScoped(rest, s, fields);
    case Item(e, _, rest) =>
      ItemNamesScoped(rest, s, fields);
      DefaultNameScoped(e, s, {});
  }

  // ---- Aggregation ----

  lemma {:induction false} AggregateMasked(e: Expr, masked: set<string>)
    ensures HasAggregate(MaskExpr(e, masked)) == HasAggregate(e)
  {
    match e
    case Binary(_, l, r) => AggregateMasked(l, masked); AggregateMasked(r, masked);
    case Not(a) => AggregateMasked(a, masked);
    case IsNull(a) => AggregateMasked(a, masked);
    case Paren(a) => AggregateMasked(a, masked);
    case Cast(a, _) => AggregateMasked(a, masked);
    case Case(tests, results, otherwise) =>
      AnyAggregateMasked(tests, masked); AnyAggregateMasked(results, masked); AggregateMasked(otherwise, masked);
    case Call(_, args) => AnyAggregateMasked(args, masked);
    case In(a, _) => AggregateMasked(a, masked);
    case _ =>
  }

  lemma {:induction false} AnyAggregateMasked(es: Exprs, masked: set<string>)
    ensures AnyAggregate(MaskExprs(es, masked)) == AnyAggregate(es)
  {
    if es.More? {
      AggregateMasked(es.head, masked);
      AnyAggregateMasked(es.tail, masked);
    }
  }

  lemma {:induction false} ItemsAggregateMasked(items: Items, masked: set<string>)
    ensures ItemsAggregate(MaskItems(items, masked)) == ItemsAggregate(items)
  {
    match items
    case NoItem =>
    case Star(rest) => ItemsAggregateMasked(rest, masked);
    case TableStar(_, rest) => ItemsAggregateMasked(rest, masked);
    case Item(e, _, rest) => ItemsAggregateMasked(rest, masked); AggregateMasked(e, masked);
  }

  lemma {:induction false} AggregateScoped(e: Expr, s: Scope)
    ensures HasAggregate(ScopeExpr(e, s)) == HasAggregate(e)
  {
    match e
    case Binary(_, l, r) => AggregateScoped(l, s); AggregateScoped(r, s);
    case Not(a) => AggregateScoped(a, s);
    case IsNull(a) => AggregateScoped(a, s);
    case Paren(a) => AggregateScoped(a, s);
    case Cast(a, _) => AggregateScoped(a, s);
    case Case(tests, results, otherwise) =>
      AnyAggregateScoped(tests, s); AnyAggregateScoped(results, s); AggregateScoped(otherwise, s);
    case Call(_, args) => AnyAggregateScoped(args, s);
    case In(a, _) => AggregateScoped(a, s);
    case _ =>
  }

  lemma {:induction false} AnyAggregateScoped(es: Exprs, s: Scope)
    ensures AnyAggregate(ScopeExprs(es, s)) == AnyAggregate(es)
  {
    if es.More? {
      AggregateScoped(es.head, s);
      AnyAggregateScoped(es.tail, s);
    }
  }

  lemma {:induction false} ItemsAggregateScoped(items: Items, s: Scope)
    ensures ItemsAggregate(ScopeItems(items, s)) == ItemsAggregate(items)
  {
    match items
    case NoItem =>
    case Star(rest) => ItemsAggregateScoped(rest, s);
    case TableStar(_, rest) => ItemsAggregateScoped(rest, s);
    case Item(e, _, rest) => ItemsAggregateScoped(rest, s); AggregateScoped(e, s);
  }

  /** Neither rewrite turns a plain SELECT into a grouped one or back. */
  lemma GroupingKept(groupBy: Exprs, items: Items, having: Cond, orderBy: Exprs, s: Scope, masked: set<string>)
    ensures IsGrouped(MaskExprs(ScopeExprs(groupBy, s), masked), MaskItems(ScopeItems(items, s), masked),
                      MaskCond(ScopeCond(having, s), masked), MaskExprs(ScopeExprs(orderBy, s), masked))
         == IsGrouped(groupBy, items, having, orderBy)
  {
    ItemsAggregateScoped(items, s);
    ItemsAggregateMasked(ScopeItems(items, s), masked);
    AnyAggregateScoped(orderBy, s);
    AnyAggregateMasked(ScopeExprs(orderBy, s), masked);
  }

  // ---- The rewrites together ----

  /** No restricted column is masked. */
  predicate Disjoint(s: Scope, masked: set<string>) {
    forall r | r in s :: Fold(r.column) !in masked
  }

  lemma {:induction false} QualifiersMasked(f: From, masked: set<string>)
    ensures TableQualifiers(MaskFrom(f, masked)) == TableQualifiers(f)
  {
    if f.Join? {
      QualifiersMasked(f.left, masked);
    }
  }

  lemma {:induction false} PredicatesUnmasked(s: Scope, qs: seq<string>, masked: set<string>)
    requires Disjoint(s, masked)
    ensures forall p | p in ScopePredicates(s, qs) :: MaskExpr(p, masked) == p
  {
    if s != [] {
      PredicatesUnmasked(s[..|s| - 1], qs, masked);
      assert s[|s| - 1] in s;
      forall p | p in ColumnPredicates(s[|s| - 1], qs) ensures MaskExpr(p, masked) == p {
        assert p.Binary? && p.l.Col? && p.l.name == s[|s| - 1].column;
      }
    }
  }

  lemma ConjunctMasked(c: Cond, p: Expr, masked: set<string>)
    requires MaskExpr(p, masked) == p
    ensures MaskCond(Conjoin(c, p), masked) == Conjoin(MaskCond(c, masked), p)
  {
    if c.If? {
      assert MaskExpr(Enclosed(c.e), masked) == Enclosed(MaskExpr(c.e, masked));
      assert MaskCond(Conjoin(c, p), masked) == If(Binary(And, MaskExpr(Enclosed(c.e), masked), MaskExpr(p, masked)));
    }
  }

  lemma {:induction false} ConjoinMasked(c: Cond, ps: seq<Expr>, masked: set<string>)
    requires forall p | p in ps :: MaskExpr(p, masked) == p
    ensures MaskCond(ConjoinAll(c, ps), masked) == ConjoinAll(MaskCond(c, masked), ps)
  {
    if ps != [] {
      ConjoinMasked(c, ps[..|ps| - 1], masked);
      assert ps[|ps| - 1] in ps;
      ConjunctMasked(ConjoinAll(c, ps[..|ps| - 1]), ps[|ps| - 1], masked);
    }
  }

  lemma WhereMasked(where: Cond, f: From, s: Scope, masked: set<string>)
    requires Disjoint(s, masked)
    ensures MaskCond(ScopedWhere(where, f, s), masked) == ScopedWhere(MaskCond(where, masked), f, s)
  {
    var qs := SortedSet(TableQualifiers(f));
    PredicatesUnmasked(s, qs, masked);
    ConjoinMasked(where, ScopePredicates(s, qs), masked);
  }

  /** The two rewrites commute when no scope column is masked. */
  lemma {:induction false} RewritesCommute(q: Query, s: Scope, masked: set<string>)
    requires Disjoint(s, masked)
    ensures MaskQuery(ScopeQuery(q, s), masked) == ScopeQuery(MaskQuery(q, masked), s)
  {
    match q
    case Select(_, items, from, where, groupBy, having, orderBy, _, _, _, _) =>
      ItemsCommute(items, s, masked);
      FromCommutes(from, s, masked);
      CondCommutes(where, s, masked);
      WhereMasked(ScopeCond(where, s), from, s, masked);
      QualifiersMasked(from, masked);
      ExprsCommute(groupBy, s, masked);
      CondCommutes(having, s, masked);
      ExprsCommute(orderBy, s, masked);
    case SetOp(_, left, right) => RewritesCommute(left, s, masked); RewritesCommute(right, s, masked);
    case With(_, body, main) => RewritesCommute(body, s, masked); RewritesCommute(main, s, masked);
    case Mutation(_) =>
  }

  lemma {:induction false} ItemsCommute(items: Items, s: Scope, masked: set<string>)
    requires Disjoint(s, masked)
    ensures MaskItems(ScopeItems(items, s), masked) == ScopeItems(MaskItems(items, masked), s)
  {
    match items
    case NoItem =>
    case Star(rest) => ItemsCommute(rest, s, masked);
    case TableStar(_, rest) => ItemsCommute(rest, s, masked);
    case Item(e, _, rest) => ItemsCommute(rest, s, masked); ExprCommutes(e, s, masked);
  }

  lemma {:induction false} FromCommutes(f: From, s: Scope, masked: set<string>)
    requires Disjoint(s, masked)
    ensures MaskFrom(ScopeFrom(f, s), masked) == ScopeFrom(MaskFrom(f, masked), s)
  {
    match f
    case NoFrom =>
    case Join(left, _, source, on) =>
      FromCommutes(left, s, masked);
      if source.Derived? {
        RewritesCommute(source.q, s, masked);
      }
      CondCommutes(on, s, masked);
  }

  lemma {:induction false} CondCommutes(c: Cond, s: Scope, masked: set<string>)
    requires Disjoint(s, masked)
    ensures MaskCond(ScopeCond(c, s), masked) == ScopeCond(MaskCond(c, masked), s)
  {
    if c.If? {
      ExprCommutes(c.e, s, masked);
    }
  }

  lemma {:induction false} ExprCommutes(e: Expr, s: Scope, masked: set<string>)
    requires Disjoint(s, masked)
    ensures MaskExpr(ScopeExpr(e, s), masked) == ScopeExpr(MaskExpr(e, masked), s)
  {
    match e
    case Const(_) =>
    case Col(_, _) =>
    case Binary(_, l, r) => ExprCommutes(l, s, masked); ExprCommutes(r, s, masked);
    case Not(a) => ExprCommutes(a, s, masked);
    case IsNull(a) => ExprCommutes(a, s, masked);
    case Paren(a) => ExprCommutes(a, s, masked);
    case Cast(a, _) => ExprCommutes(a, s, masked);
    case Case(tests, results, otherwise) =>
      ExprsCommute(tests, s, masked); ExprsCommute(results, s, masked); ExprCommutes(otherwise, s, masked);
    case Call(_, args) => ExprsCommute(args, s, masked);
    case Aggregate(_, arg) => ExprCommutes(arg, s, masked);
    case Scalar(q) => RewritesCommute(q, s, masked);
    case Exists(q) => RewritesCommute(q, s, masked);
    case In(a, q) => ExprCommutes(a, s, masked); RewritesCommute(q, s, masked);
  }

  lemma {:induction false} ExprsCommute(es: Exprs, s: Scope, masked: set<string>)
    requires Disjoint(s, masked)
    ensures MaskExprs(ScopeExprs(es, s), masked) == ScopeExprs(MaskExprs(es, masked), s)
  {
    if es.More? {
      ExprCommutes(es.head, s, masked);
      ExprsCommute(es.tail, s, masked);
    }
  }

  // ---- Precedence ----

  predicate Junction(e: Expr, op: BinaryOp) {
    e.Binary? && e.op == op
  }

  /** Written out, the expression reads back as itself: OR does not stand bare under AND, neither under NOT or a
      comparison, and a chain of either nests to the left. */
  predicate ReadsBack(e: Expr) {
    match e
    case Binary(And, l, r) =>
      !Junction(l, Or) && !Junction(r, Or) && !Junction(r, And) && ReadsBack(l) && ReadsBack(r)
    case Binary(Or, l, r) => !Junction(r, Or) && ReadsBack(l) && ReadsBack(r)
    case Binary(_, l, r) => Tight(l) && Tight(r) && ReadsBack(l) && ReadsBack(r)
    case Not(a) => Tight(a) && ReadsBack(a)
    case Paren(a) => ReadsBack(a)
    case _ => true
  }

  predicate Tight(e: Expr) {
    !Junction(e, And) && !Junction(e, Or)
  }

  /** Conjoining the scope's predicates does not change what the WHERE says when written out. */
  lemma {:induction false} ConjoinedReadsBack(c: Cond, ps: seq<Expr>)
    requires (c.If? ==> ReadsBack(c.e)) && forall p | p in ps :: Tight(p) && ReadsBack(p)
    ensures var merged := ConjoinAll(c, ps); merged.If? ==> ReadsBack(merged.e)
  {
    if ps != [] {
      ConjoinedReadsBack(c, ps[..|ps| - 1]);
      assert ps[|ps| - 1] in ps;
    }
  }

  lemma {:induction false} ScopeReadsBack(s: Scope, qs: seq<string>)
    ensures forall p | p in ScopePredicates(s, qs) :: Tight(p) && ReadsBack(p)
  {
    if s != [] {
      ScopeReadsBack(s[..|s| - 1], qs);
      forall p | p in ColumnPredicates(s[|s| - 1], qs) ensures Tight(p) && ReadsBack(p) {
      }
    }
  }

  lemma ScopedReadsBack(where: Cond, f: From, s: Scope)
    requires where.If? ==> ReadsBack(where.e)
    ensures var scoped := ScopedWhere(where, f, s); scoped.If? ==> ReadsBack(scoped.e)
  {
    ScopeReadsBack(s, SortedSet(TableQualifiers(f)));
    ConjoinedReadsBack(where, ScopePredicates(s, SortedSet(TableQualifiers(f))));
  }
}
