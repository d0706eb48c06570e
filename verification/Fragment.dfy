/** Which statements the theorems about the rewrites speak of. Every condition is a syntactic check. */
module Fragment {
  import opened Wrappers
  import opened Identifiers
  import opened SqlAst
  import opened Rewrites

  /** `preserving`: no join pads a directly named table with NULLs, and no FROM clause names a CTE.
      `hiding`: no `*` or `t.*` feeds DISTINCT, a set operation, IN or a scalar subquery, and no key of
      ORDER BY or GROUP BY points by number at a column at or behind one.
      `only`: if given, the statement reads no other tables.
      In all cases the qualifiers of one FROM clause must differ, as databases demand. */
  datatype Rules = Rules(preserving: bool, hiding: bool, only: Option<set<string>>) {
    /** The table may be read, if tables are limited at all. */
    predicate Readable(table: string) { only.None? || table in only.value }
  }

  predicate StarFreeItems(items: Items) {
    match items
    case NoItem => true
    case Star(_) => false
    case TableStar(_, _) => false
    case Item(_, _, rest) => StarFreeItems(rest)
  }

  /** The statement's own output columns are all listed one by one. */
  predicate StarFree(q: Query) {
    match q
    case Select(_, items, _, _, _, _, _, _, _, _, _) => StarFreeItems(items)
    case SetOp(_, left, right) => StarFree(left) && StarFree(right)
    case With(_, _, main) => StarFree(main)
    case Mutation(_) => true
  }

  /** How many output columns are listed before the first star. */
  function Leading(items: Items): nat {
    match items
    case Item(_, _, rest) => 1 + Leading(rest)
    case _ => 0
  }

  /** Every ordinal among the keys is at most n. */
  predicate OrdinalsWithin(keys: Exprs, n: nat) {
    match keys
    case NoExpr => true
    case More(head, tail) =>
      var key := Bare(head);
      (key.Const? && key.v.Int? ==> key.v.n <= n) && OrdinalsWithin(tail, n)
  }

  predicate OrdinalsOk(keys: Exprs, items: Items) {
    StarFreeItems(items) || OrdinalsWithin(keys, Leading(items))
  }

  function Aliases(f: From): set<string> {
    match f
    case NoFrom => {}
    case Join(left, _, source, _) => Aliases(left) + {Fold(source.Qualifier())}
  }

  lemma {:induction false} QualifiersDeclared(f: From)
    ensures forall q | q in TableQualifiers(f) :: Fold(q) in Aliases(f)
  {
    match f
    case NoFrom =>
    case Join(left, _, source, _) =>
      QualifiersDeclared(left);
      forall q | q in TableQualifiers(f) ensures Fold(q) in Aliases(f) {
        assert q in TableQualifiers(left) || q == source.Qualifier();
      }
  }

  predicate QueryOk(q: Query, rules: Rules, ctes: set<string>) {
    match q
    case Select(distinct, items, from, where, groupBy, having, orderBy, _, _, _, _) =>
      && ItemsOk(items, rules, ctes) && FromOk(from, rules, ctes) && CondOk(where, rules, ctes)
      && ExprsOk(groupBy, rules, ctes) && CondOk(having, rules, ctes) && ExprsOk(orderBy, rules, ctes)
      && (rules.hiding && distinct ==> StarFreeItems(items))
      && (rules.hiding ==> OrdinalsOk(groupBy, items) && OrdinalsOk(orderBy, items))
    case SetOp(_, left, right) =>
      && QueryOk(left, rules, ctes) && QueryOk(right, rules, ctes)
      && (rules.hiding ==> StarFree(left) && StarFree(right))
    case With(name, body, main) => QueryOk(body, rules, ctes) && QueryOk(main, rules, ctes + {Fold(name)})
    case Mutation(_) => true
  }

  predicate ItemsOk(items: Items, rules: Rules, ctes: set<string>) {
    match items
    case NoItem => true
    case Star(rest) => ItemsOk(rest, rules, ctes)
    case TableStar(_, rest) => ItemsOk(rest, rules, ctes)
    case Item(e, _, rest) => ExprOk(e, rules, ctes) && ItemsOk(rest, rules, ctes)
  }

  predicate FromOk(f: From, rules: Rules, ctes: set<string>) {
    match f
    case NoFrom => true
    case Join(left, kind, source, on) =>
      && FromOk(left, rules, ctes) && SourceOk(source, rules, ctes) && CondOk(on, rules, ctes)
      && Fold(source.Qualifier()) !in Aliases(left)
      && (rules.preserving && kind.KeepsLeft() ==> !source.Table?)
      && (rules.preserving && kind.KeepsRight() ==> TableQualifiers(left) == [])
  }

  predicate SourceOk(source: Source, rules: Rules, ctes: set<string>) {
    match source
    case Table(name, _) =>
      (rules.preserving ==> Fold(name) !in ctes) && (Fold(name) in ctes || rules.Readable(Fold(name)))
    case Derived(q, _) => QueryOk(q, rules, ctes)
  }

  predicate CondOk(c: Cond, rules: Rules, ctes: set<string>) {
    match c
    case Always => true
    case If(e) => ExprOk(e, rules, ctes)
  }

  predicate ExprOk(e: Expr, rules: Rules, ctes: set<string>) {
    match e
    case Const(_) => true
    case Col(_, _) => true
    case Binary(_, l, r) => ExprOk(l, rules, ctes) && ExprOk(r, rules, ctes)
    case Not(a) => ExprOk(a, rules, ctes)
    case IsNull(a) => ExprOk(a, rules, ctes)
    case Paren(a) => ExprOk(a, rules, ctes)
    case Cast(a, _) => ExprOk(a, rules, ctes)
    case Case(tests, results, otherwise) =>
      ExprsOk(tests, rules, ctes) && ExprsOk(results, rules, ctes) && ExprOk(otherwise, rules, ctes)
    case Call(_, args) => ExprsOk(args, rules, ctes)
    case Aggregate(_, arg) => ExprOk(arg, rules, ctes)
    case Scalar(q) => QueryOk(q, rules, ctes) && (rules.hiding ==> StarFree(q))
    case Exists(q) => QueryOk(q, rules, ctes)
    case In(a, q) => ExprOk(a, rules, ctes) && QueryOk(q, rules, ctes) && (rules.hiding ==> StarFree(q))
  }

  predicate ExprsOk(es: Exprs, rules: Rules, ctes: set<string>) {
    match es
    case NoExpr => true
    case More(head, tail) => ExprOk(head, rules, ctes) && ExprsOk(tail, rules, ctes)
  }
}
