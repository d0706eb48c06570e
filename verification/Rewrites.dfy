/** The two rewrites of `services/policy_engine.py` as functions on trees, and the loops inside them. */
module Rewrites {
  import opened Wrappers
  import opened Identifiers
  import opened SqlAst

  /** A row-scope column, lower-cased, and the text of the subject's value for it. */
  datatype Restriction = Restriction(column: string, value: string)

  type Scope = seq<Restriction>

  // ---- Resolving the restrictions against the subject ----

  /** `resolved[column] = value` on an insertion-ordered dict. */
  function Put(scope: Scope, r: Restriction): (s: Scope)
    ensures r in s
    ensures forall x: Restriction | x.column != r.column :: x in s <==> x in scope
  {
    if scope == [] then [r]
    else if scope[0].column == r.column then [r] + scope[1..]
    else [scope[0]] + Put(scope[1..], r)
  }

  /** `restrictions` lists (column, subject attribute) in insertion order; an attribute of the subject
      may be present and None. The error names the attribute that is absent. */
  function ResolveScope(restrictions: seq<(string, string)>,
                        attributes: map<string, Option<string>>): Result<Scope, string> {
    if restrictions == [] then Ok([])
    else
      var (column, attribute) := restrictions[|restrictions| - 1];
      match ResolveScope(restrictions[..|restrictions| - 1], attributes)
      case Err(a) => Err(a)
      case Ok(scope) =>
        if attribute !in attributes || attributes[attribute].None? then Err(attribute)
        else Ok(Put(scope, Restriction(Fold(column), attributes[attribute].value)))
  }

  method Resolve(restrictions: seq<(string, string)>, attributes: map<string, Option<string>>)
    returns (r: Result<Scope, string>)
    ensures r == ResolveScope(restrictions, attributes)
  {
    var resolved: Scope := [];
    for i := 0 to |restrictions|
      invariant ResolveScope(restrictions[..i], attributes) == Ok(resolved)
    {
      var (column, attribute) := restrictions[i];
      assert restrictions[..i + 1][..i] == restrictions[..i];
      if attribute !in attributes || attributes[attribute].None? {
        ResolveFails(restrictions, attributes, i, attribute);
        return Err(attribute);
      }
      resolved := Put(resolved, Restriction(Fold(column), attributes[attribute].value));
    }
    assert restrictions[..|restrictions|] == restrictions;
    return Ok(resolved);
  }

  /** The first restriction that cannot be resolved decides the error. */
  lemma {:induction false} ResolveFails(restrictions: seq<(string, string)>, attributes: map<string, Option<string>>,
                                        i: nat, attribute: string)
    requires i < |restrictions|
    requires ResolveScope(restrictions[..i + 1], attributes) == Err(attribute)
    ensures ResolveScope(restrictions, attributes) == Err(attribute)
    decreases |restrictions|
  {
    if i + 1 == |restrictions| {
      assert restrictions[..i + 1] == restrictions;
    } else {
      var shorter := restrictions[..|restrictions| - 1];
      assert shorter[..i + 1] == restrictions[..i + 1];
      ResolveFails(shorter, attributes, i, attribute);
    }
  }

  // ---- The qualifiers of one SELECT ----

  /** The qualifiers under which a FROM clause names tables directly, in order. */
  function TableQualifiers(f: From): seq<string> {
    match f
    case NoFrom => []
    case Join(left, _, source, _) =>
      TableQualifiers(left) + (if source.Table? then [source.Qualifier()] else [])
  }

  /** The FROM source, then the joined ones. */
  function Sources(f: From): seq<Source> {
    match f
    case NoFrom => []
    case Join(left, _, source, _) => Sources(left) + [source]
  }

  /** `scan`: file a table's qualifier under its name. */
  function Scan(aliases: map<string, seq<string>>, source: Source): map<string, seq<string>> {
    if !source.Table? then aliases
    else
      var name := Fold(Strip(source.name));
      aliases[name := (if name in aliases then aliases[name] else []) + [source.Qualifier()]]
  }

  function ScanAll(sources: seq<Source>): map<string, seq<string>> {
    if sources == [] then map[] else Scan(ScanAll(sources[..|sources| - 1]), sources[|sources| - 1])
  }

  predicate Filed(aliases: map<string, seq<string>>, q: string) {
    exists t | t in aliases :: q in aliases[t]
  }

  predicate FiledUnder(aliases: map<string, seq<string>>, t: string, q: string) {
    t in aliases && q in aliases[t]
  }

  /** The source names table t directly, under the qualifier q. */
  predicate Names(x: Source, t: string, q: string) {
    x.Table? && Fold(Strip(x.name)) == t && x.Qualifier() == q
  }

  lemma {:induction false} SourcesFiled(sources: seq<Source>, t: string, q: string)
    ensures FiledUnder(ScanAll(sources), t, q) <==> exists x | x in sources :: Names(x, t, q)
  {
    if sources != [] {
      var init, last := sources[..|sources| - 1], sources[|sources| - 1];
      SourcesFiled(init, t, q);
      assert sources == init + [last];
      assert last in sources && forall x :: x in sources <==> x in init || x == last;
    }
  }

  lemma ScanFiles(aliases: map<string, seq<string>>, source: Source, q: string)
    ensures Filed(Scan(aliases, source), q) <==> Filed(aliases, q) || (source.Table? && q == source.Qualifier())
  {
    var after := Scan(aliases, source);
    forall t | t in aliases && q in aliases[t] ensures Filed(after, q) {
      assert q in after[t];
    }
    if source.Table? {
      assert source.Qualifier() in after[Fold(Strip(source.name))];
    }
  }

  /** Grouping by table loses no qualifier and invents none. */
  lemma {:induction false} QualifiersGrouped(f: From, q: string)
    ensures Filed(ScanAll(Sources(f)), q) <==> q in TableQualifiers(f)
  {
    match f {
      case NoFrom =>
      case Join(left, _, source, _) =>
        assert Sources(f)[..|Sources(f)| - 1] == Sources(left);
        ScanFiles(ScanAll(Sources(left)), source, q);
        QualifiersGrouped(left, q);
    }
  }

  /** `_row_scope_from_tables`: a qualifier is filed under a name exactly when FROM or JOIN names that table
      directly under that qualifier, and so the qualifiers are exactly those of the FROM clause. */
  method RowScopeFromTables(f: From) returns (aliases: map<string, seq<string>>)
    ensures forall t, q :: FiledUnder(aliases, t, q) <==> exists x | x in Sources(f) :: Names(x, t, q)
    ensures forall q :: Filed(aliases, q) <==> q in TableQualifiers(f)
  {
    aliases := map[];
    var sources := Sources(f);
    for i := 0 to |sources|
      invariant aliases == ScanAll(sources[..i])
    {
      assert sources[..i + 1][..i] == sources[..i];
      aliases := Scan(aliases, sources[i]);
    }
    assert sources[..|sources|] == sources;
    forall t, q ensures FiledUnder(aliases, t, q) <==> exists x | x in sources :: Names(x, t, q) {
      SourcesFiled(sources, t, q);
    }
    forall q ensures Filed(aliases, q) <==> q in TableQualifiers(f) {
      QualifiersGrouped(f, q);
    }
  }

  // ---- The predicates added to one WHERE ----

  function ScopePredicate(r: Restriction, qualifier: string): Expr {
    Binary(Eq, Col(Some(qualifier), r.column), Const(Str(r.value)))
  }

  function ColumnPredicates(r: Restriction, qualifiers: seq<string>): seq<Expr> {
    seq(|qualifiers|, i requires 0 <= i < |qualifiers| => ScopePredicate(r, qualifiers[i]))
  }

  function ScopePredicates(scope: Scope, qualifiers: seq<string>): seq<Expr> {
    if scope == [] then []
    else ScopePredicates(scope[..|scope| - 1], qualifiers) + ColumnPredicates(scope[|scope| - 1], qualifiers)
  }

  /** A conjunction or disjunction in parentheses. */
  function Enclosed(e: Expr): Expr {
    if e.Binary? && e.op in {And, Or} then Paren(e) else e
  }

  function Conjoin(c: Cond, p: Expr): Cond {
    match c
    case Always => If(p)
    case If(e) => If(Binary(And, Enclosed(e), p))
  }

  function ConjoinAll(c: Cond, ps: seq<Expr>): Cond {
    if ps == [] then c else Conjoin(ConjoinAll(c, ps[..|ps| - 1]), ps[|ps| - 1])
  }

  function ScopedWhere(where: Cond, f: From, scope: Scope): Cond {
    ConjoinAll(where, ScopePredicates(scope, SortedSet(TableQualifiers(f))))
  }

  lemma {:induction false} ConjoinAppend(c: Cond, ps: seq<Expr>, qs: seq<Expr>)
    ensures ConjoinAll(ConjoinAll(c, ps), qs) == ConjoinAll(c, ps + qs)
    decreases |qs|
  {
    if qs == [] {
      assert ps + qs == ps;
    } else {
      ConjoinAppend(c, ps, qs[..|qs| - 1]);
      assert (ps + qs)[..|ps + qs| - 1] == ps + qs[..|qs| - 1];
    }
  }

  /** The two nested loops that merge every predicate into the WHERE of one SELECT. */
  method AddScope(where: Cond, qualifiers: seq<string>, scope: Scope) returns (merged: Cond)
    ensures merged == ConjoinAll(where, ScopePredicates(scope, qualifiers))
  {
    merged := where;
    for i := 0 to |scope|
      invariant merged == ConjoinAll(where, ScopePredicates(scope[..i], qualifiers))
    {
      ghost var before, column := merged, ColumnPredicates(scope[i], qualifiers);
      for j := 0 to |qualifiers|
        invariant merged == ConjoinAll(before, column[..j])
      {
        assert column[..j + 1][..j] == column[..j];
        merged := Conjoin(merged, ScopePredicate(scope[i], qualifiers[j]));
      }
      assert column[..|qualifiers|] == column;
      assert scope[..i + 1][..i] == scope[..i];
      ConjoinAppend(where, ScopePredicates(scope[..i], qualifiers), column);
    }
    assert scope[..|scope|] == scope;
  }

  // ---- apply_row_restrictions ----

  function ScopeQuery(q: Query, s: Scope): Query {
    match q
    case Select(distinct, items, from, where, groupBy, having, orderBy, descending, limit, into, locks) =>
      Select(distinct, ScopeItems(items, s), ScopeFrom(from, s), ScopedWhere(ScopeCond(where, s), from, s),
             ScopeExprs(groupBy, s), ScopeCond(having, s), ScopeExprs(orderBy, s), descending, limit, into, locks)
    case SetOp(op, left, right) => SetOp(op, ScopeQuery(left, s), ScopeQuery(right, s))
    case With(name, body, main) => With(name, ScopeQuery(body, s), ScopeQuery(main, s))
    case Mutation(_) => q
  }

  function ScopeItems(items: Items, s: Scope): Items {
    match items
    case NoItem => NoItem
    case Star(rest) => Star(ScopeItems(rest, s))
    case TableStar(a, rest) => TableStar(a, ScopeItems(rest, s))
    case Item(e, alias, rest) => Item(ScopeExpr(e, s), alias, ScopeItems(rest, s))
  }

  function ScopeFrom(f: From, s: Scope): From {
    match f
    case NoFrom => NoFrom
    case Join(left, kind, source, on) => Join(ScopeFrom(left, s), kind, ScopeSource(source, s), ScopeCond(on, s))
  }

  function ScopeSource(source: Source, s: Scope): Source {
    match source
    case Table(_, _) => source
    case Derived(q, given) => Derived(ScopeQuery(q, s), given)
  }

  function ScopeCond(c: Cond, s: Scope): Cond {
    match c
    case Always => Always
    case If(e) => If(ScopeExpr(e, s))
  }

  function ScopeExpr(e: Expr, s: Scope): Expr {
    match e
    case Const(_) => e
    case Col(_, _) => e
    case Binary(op, l, r) => Binary(op, ScopeExpr(l, s), ScopeExpr(r, s))
    case Not(a) => Not(ScopeExpr(a, s))
    case IsNull(a) => IsNull(ScopeExpr(a, s))
    case Paren(a) => Paren(ScopeExpr(a, s))
    case Cast(a, target) => Cast(ScopeExpr(a, s), target)
    case Case(tests, results, otherwise) => Case(ScopeExprs(tests, s), ScopeExprs(results, s), ScopeExpr(otherwise, s))
    case Call(fn, args) => Call(fn, ScopeExprs(args, s))
    case Aggregate(fn, arg) => Aggregate(fn, ScopeExpr(arg, s))
    case Scalar(q) => Scalar(ScopeQuery(q, s))
    case Exists(q) => Exists(ScopeQuery(q, s))
    case In(a, q) => In(ScopeExpr(a, s), ScopeQuery(q, s))
  }

  function ScopeExprs(es: Exprs, s: Scope): Exprs {
    match es
    case NoExpr => NoExpr
    case More(head, tail) => More(ScopeExpr(head, s), ScopeExprs(tail, s))
  }

  /** `apply_row_restrictions`: no restriction leaves the statement alone, an absent attribute refuses. */
  function ApplyRowRestrictions(q: Query, restrictions: seq<(string, string)>,
                                attributes: map<string, Option<string>>): Result<Query, string> {
    if restrictions == [] then Ok(q)
    else
      match ResolveScope(restrictions, attributes)
      case Err(a) => Err(a)
      case Ok(scope) => Ok(ScopeQuery(q, scope))
  }

  // ---- rewrite_masked_columns ----

  predicate IsMasked(e: Expr, masked: set<string>) {
    e.Col? && Fold(e.name) in masked
  }

  function MaskQuery(q: Query, masked: set<string>): Query {
    match q
    case Select(distinct, items, from, where, groupBy, having, orderBy, descending, limit, into, locks) =>
      Select(distinct, MaskItems(items, masked), MaskFrom(from, masked), MaskCond(where, masked),
             MaskExprs(groupBy, masked), MaskCond(having, masked), MaskExprs(orderBy, masked), descending, limit,
             into, locks)
    case SetOp(op, left, right) => SetOp(op, MaskQuery(left, masked), MaskQuery(right, masked))
    case With(name, body, main) => With(name, MaskQuery(body, masked), MaskQuery(main, masked))
    case Mutation(_) => q
  }

  /** A masked column that is itself a projection keeps its header. */
  function MaskItems(items: Items, masked: set<string>): Items {
    match items
    case NoItem => NoItem
    case Star(rest) => Star(MaskItems(rest, masked))
    case TableStar(a, rest) => TableStar(a, MaskItems(rest, masked))
    case Item(e, alias, rest) =>
      if IsMasked(e, masked) && alias.None? then Item(Const(Null), Some(e.name), MaskItems(rest, masked))
      else Item(MaskExpr(e, masked), alias, MaskItems(rest, masked))
  }

  function MaskFrom(f: From, masked: set<string>): From {
    match f
    case NoFrom => NoFrom
    case Join(left, kind, source, on) =>
      Join(MaskFrom(left, masked), kind, MaskSource(source, masked), MaskCond(on, masked))
  }

  function MaskSource(source: Source, masked: set<string>): Source {
    match source
    case Table(_, _) => source
    case Derived(q, given) => Derived(MaskQuery(q, masked), given)
  }

  function MaskCond(c: Cond, masked: set<string>): Cond {
    match c
    case Always => Always
    case If(e) => If(MaskExpr(e, masked))
  }

  function MaskExpr(e: Expr, masked: set<string>): Expr {
    match e
    case Const(_) => e
    case Col(_, _) => if IsMasked(e, masked) then Const(Null) else e
    case Binary(op, l, r) => Binary(op, MaskExpr(l, masked), MaskExpr(r, masked))
    case Not(a) => Not(MaskExpr(a, masked))
    case IsNull(a) => IsNull(MaskExpr(a, masked))
    case Paren(a) => Paren(MaskExpr(a, masked))
    case Cast(a, target) => Cast(MaskExpr(a, masked), target)
    case Case(tests, results, otherwise) =>
      Case(MaskExprs(tests, masked), MaskExprs(results, masked), MaskExpr(otherwise, masked))
    case Call(fn, args) => Call(fn, MaskExprs(args, masked))
    case Aggregate(fn, arg) => Aggregate(fn, MaskExpr(arg, masked))
    case Scalar(q) => Scalar(MaskQuery(q, masked))
    case Exists(q) => Exists(MaskQuery(q, masked))
    case In(a, q) => In(MaskExpr(a, masked), MaskQuery(q, masked))
  }

  function MaskExprs(es: Exprs, masked: set<string>): Exprs {
    match es
    case NoExpr => NoExpr
    case More(head, tail) => More(MaskExpr(head, masked), MaskExprs(tail, masked))
  }

  /** `rewrite_masked_columns`. */
  function RewriteMaskedColumns(q: Query, columns: set<string>): Query {
    if columns == {} then q else MaskQuery(q, FoldAll(columns))
  }
}
