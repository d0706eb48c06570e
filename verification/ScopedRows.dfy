/** What the inserted WHERE predicates do to rows, without any tree rewriting: which joined rows they
    keep, and that they can be applied to the sources of a join before joining instead of after. */
module ScopedRows {
  import opened Wrappers
  import opened Identifiers
  import opened Sequences
  import opened SqlAst
  import opened SqlSemantics
  import opened Rewrites
  import opened JoinAlgebra

  predicate Passes(r: Restriction, qualifier: Option<string>, fields: seq<Field>, row: Row, engine: Engine) {
    Truth(Eq, Read(fields, row, qualifier, r.column), Str(r.value), engine) == Bool(true)
  }

  predicate ColumnInScope(r: Restriction, qs: seq<string>, fields: seq<Field>, row: Row, engine: Engine) {
    qs == [] || (Passes(r, Some(qs[0]), fields, row, engine) && ColumnInScope(r, qs[1..], fields, row, engine))
  }

  /** The row equals the subject's value in every scope column of every table the FROM clause names. */
  predicate InScope(scope: Scope, qs: seq<string>, fields: seq<Field>, row: Row, engine: Engine) {
    scope == []
    || (ColumnInScope(scope[0], qs, fields, row, engine) && InScope(scope[1..], qs, fields, row, engine))
  }

  lemma {:induction false} ColumnInScopeMeans(r: Restriction, qs: seq<string>, fields: seq<Field>, row: Row,
                                              engine: Engine)
    ensures ColumnInScope(r, qs, fields, row, engine) <==> forall q | q in qs :: Passes(r, Some(q), fields, row, engine)
  {
    if qs != [] {
      ColumnInScopeMeans(r, qs[1..], fields, row, engine);
      assert qs == [qs[0]] + qs[1..];
    }
  }

  lemma {:induction false} InScopeMeans(scope: Scope, qs: seq<string>, fields: seq<Field>, row: Row, engine: Engine)
    ensures InScope(scope, qs, fields, row, engine)
       <==> forall r, q | r in scope && q in qs :: Passes(r, Some(q), fields, row, engine)
  {
    if scope != [] {
      InScopeMeans(scope[1..], qs, fields, row, engine);
      ColumnInScopeMeans(scope[0], qs, fields, row, engine);
      assert scope[0] in scope && forall r | r in scope[1..] :: r in scope;
      assert forall r | r in scope :: r == scope[0] || r in scope[1..];
      assert (forall r, q | r in scope && q in qs :: Passes(r, Some(q), fields, row, engine))
        <==> (forall q | q in qs :: Passes(scope[0], Some(q), fields, row, engine))
             && (forall r, q | r in scope[1..] && q in qs :: Passes(r, Some(q), fields, row, engine));
    }
  }

  lemma InScopeTrivially(scope: Scope, qs: seq<string>, fields: seq<Field>, row: Row, engine: Engine)
    requires scope == [] || qs == []
    ensures InScope(scope, qs, fields, row, engine)
  {
    InScopeMeans(scope, qs, fields, row, engine);
  }

  function ScopeTest(scope: Scope, qs: seq<string>, fields: seq<Field>, engine: Engine): Row -> bool {
    row => InScope(scope, qs, fields, row, engine)
  }

  // ---- The predicates, evaluated ----

  lemma PredicateHolds(r: Restriction, q: string, m: Site, shape: Shape, row: Row, outer: Env)
    requires Fold(q) in shape.aliases
    ensures EvalExpr(ScopePredicate(r, q), m, Inside(shape, row, outer), []) == Bool(true)
       <==> Passes(r, Some(q), shape.fields, row, m.db.engine)
  {
    assert ScopePredicate(r, q).l == Col(Some(q), r.column);
  }

  lemma {:induction false} PredicatesListed(scope: Scope, qs: seq<string>)
    ensures forall p ::
      p in ScopePredicates(scope, qs) <==> exists r, q | r in scope && q in qs :: p == ScopePredicate(r, q)
  {
    if scope != [] {
      var init, r := scope[..|scope| - 1], scope[|scope| - 1];
      PredicatesListed(init, qs);
      assert scope == init + [r];
      var column := ColumnPredicates(r, qs);
      forall q | q in qs ensures ScopePredicate(r, q) in column {
        var i :| 0 <= i < |qs| && qs[i] == q;
        assert column[i] == ScopePredicate(r, q);
      }
    }
  }

  lemma PredicatesHold(scope: Scope, qs: seq<string>, m: Site, shape: Shape, row: Row, outer: Env)
    requires forall q | q in qs :: Fold(q) in shape.aliases
    ensures AllTrue(ScopePredicates(scope, qs), m, Inside(shape, row, outer))
       <==> forall r, q | r in scope && q in qs :: Passes(r, Some(q), shape.fields, row, m.db.engine)
  {
    PredicatesListed(scope, qs);
    forall r, q | r in scope && q in qs
      ensures ScopePredicate(r, q) in ScopePredicates(scope, qs)
      ensures EvalExpr(ScopePredicate(r, q), m, Inside(shape, row, outer), []) == Bool(true)
         <==> Passes(r, Some(q), shape.fields, row, m.db.engine)
    {
      PredicateHolds(r, q, m, shape, row, outer);
    }
  }

  predicate AllTrue(ps: seq<Expr>, m: Site, env: Env) {
    forall p | p in ps :: EvalExpr(p, m, env, []) == Bool(true)
  }

  lemma ConjunctHolds(c: Cond, p: Expr, m: Site, env: Env)
    ensures Holds(Conjoin(c, p), m, env, []) <==> Holds(c, m, env, []) && EvalExpr(p, m, env, []) == Bool(true)
  {
    if c.If? {
      assert EvalExpr(Enclosed(c.e), m, env, []) == EvalExpr(c.e, m, env, []);
    }
  }

  lemma AllTrueLast(ps: seq<Expr>, m: Site, env: Env)
    requires ps != []
    ensures AllTrue(ps, m, env) <==> AllTrue(ps[..|ps| - 1], m, env) && EvalExpr(ps[|ps| - 1], m, env, []) == Bool(true)
  {
    assert ps == ps[..|ps| - 1] + [ps[|ps| - 1]];
  }

  lemma {:induction false} ConjunctionHolds(c: Cond, ps: seq<Expr>, m: Site, env: Env)
    ensures Holds(ConjoinAll(c, ps), m, env, []) <==> Holds(c, m, env, []) && AllTrue(ps, m, env)
    decreases |ps|
  {
    if ps != [] {
      var init, p := ps[..|ps| - 1], ps[|ps| - 1];
      ConjunctionHolds(c, init, m, env);
      AllTrueLast(ps, m, env);
      ConjunctHolds(ConjoinAll(c, init), p, m, env);
    }
  }

  /** The inserted predicates hold of a row exactly when it is in scope. */
  lemma WhereHolds(where: Cond, f: From, scope: Scope, m: Site, shape: Shape, row: Row, env: Env)
    requires forall q | q in TableQualifiers(f) :: Fold(q) in shape.aliases
    ensures Holds(ScopedWhere(where, f, scope), m, Inside(shape, row, env), [])
       <==> Holds(where, m, Inside(shape, row, env), [])
            && InScope(scope, TableQualifiers(f), shape.fields, row, m.db.engine)
  {
    var qs := SortedSet(TableQualifiers(f));
    ConjunctionHolds(where, ScopePredicates(scope, qs), m, Inside(shape, row, env));
    PredicatesHold(scope, qs, m, shape, row, env);
    InScopeMeans(scope, TableQualifiers(f), shape.fields, row, m.db.engine);
  }

  /** The rewritten WHERE keeps what the original WHERE keeps of the in-scope rows. */
  lemma KeptScoped(where: Cond, f: From, scope: Scope, m: Site, shape: Shape, rows: seq<Row>, env: Env)
    requires forall q | q in TableQualifiers(f) :: Fold(q) in shape.aliases
    ensures Filter(RowTest(ScopedWhere(where, f, scope), m, shape, env), rows)
         == Filter(RowTest(where, m, shape, env),
                   Filter(ScopeTest(scope, TableQualifiers(f), shape.fields, m.db.engine), rows))
  {
    var both := RowTest(ScopedWhere(where, f, scope), m, shape, env);
    var first := ScopeTest(scope, TableQualifiers(f), shape.fields, m.db.engine);
    var second := RowTest(where, m, shape, env);
    forall row | row in rows ensures both(row) == (first(row) && second(row)) {
      WhereHolds(where, f, scope, m, shape, row, env);
    }
    FilterBoth(both, first, second, rows);
  }

  // ---- Scope of a joined row ----

  /** Every field belongs to one of the declared sources. */
  predicate Declared(shape: Shape) {
    forall i | 0 <= i < |shape.fields| :: Fold(shape.fields[i].alias) in shape.aliases
  }

  /** The first denoted field of a concatenation is decided by the side the qualifier belongs to. */
  lemma FindLeft(a: seq<Field>, b: seq<Field>, q: string, n: string)
    requires forall i | 0 <= i < |b| :: Fold(b[i].alias) != Fold(q)
    ensures Find(a, Some(q), n) < |a| ==> Find(a + b, Some(q), n) == Find(a, Some(q), n)
    ensures Find(a, Some(q), n) == |a| ==> Find(a + b, Some(q), n) == |a + b|
  {
    var i, k := Find(a, Some(q), n), Find(a + b, Some(q), n);
    assert forall j | 0 <= j < |a| :: (a + b)[j] == a[j];
    assert forall j | |a| <= j < |a + b| :: (a + b)[j] == b[j - |a|];
  }

  lemma FindRight(a: seq<Field>, b: seq<Field>, q: string, n: string)
    requires forall i | 0 <= i < |a| :: Fold(a[i].alias) != Fold(q)
    ensures Find(a + b, Some(q), n) == |a| + Find(b, Some(q), n)
  {
    var i, k := Find(b, Some(q), n), Find(a + b, Some(q), n);
    assert forall j | 0 <= j < |a| :: (a + b)[j] == a[j];
    assert forall j | 0 <= j < |b| :: (a + b)[|a| + j] == b[j];
  }

  lemma ReadLeft(a: seq<Field>, b: seq<Field>, l: Row, r: Row, q: string, n: string)
    requires |l| == |a| && forall i | 0 <= i < |b| :: Fold(b[i].alias) != Fold(q)
    ensures Read(a + b, l + r, Some(q), n) == Read(a, l, Some(q), n)
  {
    FindLeft(a, b, q, n);
  }

  lemma ReadRight(a: seq<Field>, b: seq<Field>, l: Row, r: Row, q: string, n: string)
    requires |l| == |a| && |r| == |b| && forall i | 0 <= i < |a| :: Fold(a[i].alias) != Fold(q)
    ensures Read(a + b, l + r, Some(q), n) == Read(b, r, Some(q), n)
  {
    FindRight(a, b, q, n);
  }

  /** One source joined to a FROM clause: its alias, its columns, and its alias again if it is a table. */
  datatype Step = Step(scope: Scope, lqs: seq<string>, lshape: Shape, alias: string, cols: seq<string>, table: bool) {
    function RightFields(): seq<Field> { Tag(alias, cols) }

    function RightQs(): seq<string> { if table then [alias] else [] }

    function JoinedShape(): Shape { JoinShape(lshape, alias, cols) }

    function Qs(): seq<string> { lqs + RightQs() }

    /** Aliases are distinct, and every table qualifier on the left is declared there. */
    predicate Valid() {
      && Declared(lshape)
      && Fold(alias) !in lshape.aliases
      && forall q | q in lqs :: Fold(q) in lshape.aliases
    }

    predicate LeftIn(l: Row, engine: Engine) { InScope(scope, lqs, lshape.fields, l, engine) }

    predicate RightIn(r: Row, engine: Engine) { InScope(scope, RightQs(), RightFields(), r, engine) }

    predicate In(row: Row, engine: Engine) { InScope(scope, Qs(), JoinedShape().fields, row, engine) }
  }

  /** A joined row is in scope exactly when both of its parts are. */
  lemma InScopeJoined(st: Step, l: Row, r: Row, engine: Engine)
    requires st.Valid() && |l| == |st.lshape.fields| && |r| == |st.cols|
    ensures st.In(l + r, engine) <==> st.LeftIn(l, engine) && st.RightIn(r, engine)
  {
    var a, b := st.lshape.fields, st.RightFields();
    InScopeMeans(st.scope, st.Qs(), a + b, l + r, engine);
    InScopeMeans(st.scope, st.lqs, a, l, engine);
    InScopeMeans(st.scope, st.RightQs(), b, r, engine);
    forall x, q | x in st.scope && q in st.lqs
      ensures Passes(x, Some(q), a + b, l + r, engine) == Passes(x, Some(q), a, l, engine)
    {
      ReadLeft(a, b, l, r, q, x.column);
    }
    forall x, q | x in st.scope && q in st.RightQs()
      ensures Passes(x, Some(q), a + b, l + r, engine) == Passes(x, Some(q), b, r, engine)
    {
      ReadRight(a, b, l, r, q, x.column);
    }
  }

  /** NULL padding is never in scope: `NULL = value` is unknown. */
  lemma NullsOutOfScope(scope: Scope, qs: seq<string>, fields: seq<Field>, n: nat, engine: Engine)
    requires scope != [] && qs != []
    ensures !InScope(scope, qs, fields, Nulls(n), engine)
  {
    InScopeMeans(scope, qs, fields, Nulls(n), engine);
    assert scope[0] in scope && qs[0] in qs;
    assert Read(fields, Nulls(n), Some(qs[0]), scope[0].column) == Null;
    assert !Passes(scope[0], Some(qs[0]), fields, Nulls(n), engine);
  }

  /** For every kind of join: scoping the result is scoping the result of joining the scoped inputs. */
  lemma JoinScoped(st: Step, on: Row -> bool, kind: JoinKind, ls: seq<Row>, rs: seq<Row>, engine: Engine)
    requires st.Valid() && Width(ls, |st.lshape.fields|) && Width(rs, |st.cols|)
    ensures var test := ScopeTest(st.scope, st.Qs(), st.JoinedShape().fields, engine);
      Filter(test, JoinRows(on, kind, |st.lshape.fields|, |st.cols|, ls, rs))
      == Filter(test, JoinRows(on, kind, |st.lshape.fields|, |st.cols|,
           Filter(ScopeTest(st.scope, st.lqs, st.lshape.fields, engine), ls),
           Filter(ScopeTest(st.scope, st.RightQs(), st.RightFields(), engine), rs)))
  {
    var parts := Parts(|st.lshape.fields|, |st.cols|,
      ScopeTest(st.scope, st.Qs(), st.JoinedShape().fields, engine),
      ScopeTest(st.scope, st.lqs, st.lshape.fields, engine),
      ScopeTest(st.scope, st.RightQs(), st.RightFields(), engine));
    PartsValid(st, engine);
    JoinFiltered(parts, on, kind, ls, rs);
  }

  lemma PartsValid(st: Step, engine: Engine)
    requires st.Valid()
    ensures Parts(|st.lshape.fields|, |st.cols|,
      ScopeTest(st.scope, st.Qs(), st.JoinedShape().fields, engine),
      ScopeTest(st.scope, st.lqs, st.lshape.fields, engine),
      ScopeTest(st.scope, st.RightQs(), st.RightFields(), engine)).Valid()
  {
    forall l: Row, r: Row | |l| == |st.lshape.fields| && |r| == |st.cols|
      ensures st.In(l + r, engine) <==> st.LeftIn(l, engine) && st.RightIn(r, engine)
    {
      InScopeJoined(st, l, r, engine);
    }
    SideTotal(st.scope, st.lqs, st.lshape.fields, |st.lshape.fields|, engine);
    SideTotal(st.scope, st.RightQs(), st.RightFields(), |st.cols|, engine);
  }

  lemma SideTotal(scope: Scope, qs: seq<string>, fields: seq<Field>, width: nat, engine: Engine)
    ensures var test := ScopeTest(scope, qs, fields, engine); (forall l :: test(l)) || !test(Nulls(width))
  {
    var test := ScopeTest(scope, qs, fields, engine);
    if scope == [] || qs == [] {
      forall l: Row ensures test(l) {
        InScopeTrivially(scope, qs, fields, l, engine);
      }
    } else {
      NullsOutOfScope(scope, qs, fields, width, engine);
    }
  }

  /** A join that never pads a table with NULLs joins in-scope rows to in-scope rows. */
  lemma JoinIn(st: Step, on: Row -> bool, kind: JoinKind, ls: seq<Row>, rs: seq<Row>, engine: Engine)
    requires st.Valid() && Width(ls, |st.lshape.fields|) && Width(rs, |st.cols|)
    requires forall l | l in ls :: st.LeftIn(l, engine)
    requires forall r | r in rs :: st.RightIn(r, engine)
    requires kind.KeepsLeft() ==> !st.table
    requires kind.KeepsRight() ==> st.lqs == []
    ensures forall row | row in JoinRows(on, kind, |st.lshape.fields|, |st.cols|, ls, rs) :: st.In(row, engine)
  {
    PartsValid(st, engine);
    var parts := Parts(|st.lshape.fields|, |st.cols|,
      ScopeTest(st.scope, st.Qs(), st.JoinedShape().fields, engine),
      ScopeTest(st.scope, st.lqs, st.lshape.fields, engine),
      ScopeTest(st.scope, st.RightQs(), st.RightFields(), engine));
    if kind.KeepsLeft() {
      InScopeTrivially(st.scope, st.RightQs(), st.RightFields(), Nulls(|st.cols|), engine);
    }
    if kind.KeepsRight() {
      InScopeTrivially(st.scope, st.lqs, st.lshape.fields, Nulls(|st.lshape.fields|), engine);
    }
    JoinPasses(parts, on, kind, ls, rs);
    forall row | row in JoinRows(on, kind, |st.lshape.fields|, |st.cols|, ls, rs) ensures st.In(row, engine) {
      assert parts.both(row);
    }
  }
}
