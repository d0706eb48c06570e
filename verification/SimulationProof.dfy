/** The induction itself: joins, SELECT blocks, and then every kind of node. */
module SimulationProof {
  import opened Wrappers
  import opened Identifiers
  import opened Sequences
  import opened SqlAst
  import opened SqlSemantics
  import opened Rewrites
  import opened RewriteFacts
  import opened JoinAlgebra
  import opened ScopedRows
  import opened Pairing
  import opened Agreement
  import opened Fragment
  import opened Simulation

  // ---- FROM ----

  lemma JoinWidth(on: Row -> bool, kind: JoinKind, lw: nat, rw: nat, ls: seq<Row>, rs: seq<Row>)
    requires Width(ls, lw) && Width(rs, rw)
    ensures Width(JoinRows(on, kind, lw, rw, ls, rs), lw + rw)
  {
    var p := Parts(lw, rw, (row: Row) => |row| == lw + rw, (l: Row) => true, (r: Row) => true);
    JoinPasses(p, on, kind, ls, rs);
    forall row | row in JoinRows(on, kind, lw, rw, ls, rs) ensures |row| == lw + rw {
      assert p.both(row);
    }
  }

  lemma EmptyFromSim(s: Setting, m: Site, n: Site)
    requires s.Valid() && SitesAgree(s, m, n)
    ensures FromSim(s, NoFrom, m, n)
  {
    forall x, y | EnvAgree(s.secret, x, y) ensures FromAgree(s, NoFrom, m, n, x, y) {
      var rows: seq<Row> := [[]];
      var test := ScopeTest(s.scope, [], [], s.left.engine);
      forall row | row in rows ensures test(row) {
        InScopeTrivially(s.scope, [], [], row, s.left.engine);
      }
      FilterAll(test, rows);
      assert Agreeing(s.secret, [])([], []);
    }
  }

  lemma JointValid(secret: set<string>, fields: seq<Field>, cols: seq<string>, alias: string)
    ensures Joint(|fields|, |cols|, Agreeing(secret, FieldNames(fields)), Agreeing(secret, cols),
                  Agreeing(secret, FieldNames(fields + Tag(alias, cols)))).Valid()
  {
    var names, names' := FieldNames(fields), FieldNames(fields + Tag(alias, cols));
    assert names' == names + cols;
    forall l1: Row, l2: Row, r1: Row, r2: Row | RowAgree(secret, names, l1, l2) && RowAgree(secret, cols, r1, r2)
      ensures RowAgree(secret, names', l1 + r1, l2 + r2)
    {
      RowAgreeJoined(secret, names, cols, l1, r1, l2, r2);
    }
  }

  /** One join step: agreeing rows join to agreeing rows. */
  lemma JoinStep(secret: set<string>, engine: Engine, st: Step, kind: JoinKind, on1: Row -> bool, on2: Row -> bool,
                 ls1: seq<Row>, ls2: seq<Row>, rs1: seq<Row>, rs2: seq<Row>)
    requires Disjoint(st.scope, secret) && st.Valid()
    requires Width(ls1, |st.lshape.fields|) && Width(ls2, |st.lshape.fields|)
    requires Width(rs1, |st.cols|) && Width(rs2, |st.cols|)
    requires var left := ScopeTest(st.scope, st.lqs, st.lshape.fields, engine);
      Paired(Agreeing(secret, FieldNames(st.lshape.fields)), Filter(left, ls1), Filter(left, ls2))
    requires var right := ScopeTest(st.scope, st.RightQs(), st.RightFields(), engine);
      Paired(Agreeing(secret, st.cols), Filter(right, rs1), Filter(right, rs2))
    requires forall a, b | Agreeing(secret, FieldNames(st.JoinedShape().fields))(a, b) :: on1(a) == on2(b)
    ensures var lw, rw := |st.lshape.fields|, |st.cols|;
      var test := ScopeTest(st.scope, st.Qs(), st.JoinedShape().fields, engine);
      Paired(Agreeing(secret, FieldNames(st.JoinedShape().fields)),
             Filter(test, JoinRows(on1, kind, lw, rw, ls1, rs1)), Filter(test, JoinRows(on2, kind, lw, rw, ls2, rs2)))
  {
    var lw, rw := |st.lshape.fields|, |st.cols|;
    var left, right := ScopeTest(st.scope, st.lqs, st.lshape.fields, engine), ScopeTest(st.scope, st.RightQs(),
        st.RightFields(), engine);
    var test := ScopeTest(st.scope, st.Qs(), st.JoinedShape().fields, engine);
    var rel := Agreeing(secret, FieldNames(st.JoinedShape().fields));
    var joined1 := JoinRows(on1, kind, lw, rw, Filter(left, ls1), Filter(right, rs1));
    var joined2 := JoinRows(on2, kind, lw, rw, Filter(left, ls2), Filter(right, rs2));
    assert Paired(rel, joined1, joined2) by {
      JointValid(secret, st.lshape.fields, st.cols, st.alias);
      var joint := Joint(lw, rw, Agreeing(secret, FieldNames(st.lshape.fields)), Agreeing(secret, st.cols), rel);
      PairedJoin(joint, on1, on2, kind, Filter(left, ls1), Filter(left, ls2), Filter(right, rs1), Filter(right, rs2));
    }
    assert Paired(rel, Filter(test, joined1), Filter(test, joined2)) by {
      forall a, b | rel(a, b) ensures test(a) == test(b) {
        InScopeAgree(secret, st.scope, st.Qs(), st.JoinedShape().fields, a, b, engine);
      }
      PairedFilter(rel, test, test, joined1, joined2);
    }
    JoinScoped(st, on1, kind, ls1, rs1, engine);
    JoinScoped(st, on2, kind, ls2, rs2, engine);
  }

  /** Agreeing rows are accepted alike by an ON condition of both sides. */
  lemma OnSim(s: Setting, on: Cond, m: Site, n: Site, shape: Shape, x: Env, y: Env)
    requires EnvAgree(s.secret, x, y) && CondSim(s, on, m, n)
    ensures forall a, b | Agreeing(s.secret, FieldNames(shape.fields))(a, b) ::
      RowTest(s.LCond(on), m, shape, x)(a) == RowTest(s.RCond(on), n, shape, y)(b)
  {
    forall a, b | Agreeing(s.secret, FieldNames(shape.fields))(a, b)
      ensures RowTest(s.LCond(on), m, shape, x)(a) == RowTest(s.RCond(on), n, shape, y)(b)
    {
      assert EnvAgree(s.secret, Inside(shape, a, x), Inside(shape, b, y));
      assert UnitsAgree(s.secret, [], []);
    }
  }

  lemma JoinedShapeOk(st: Step)
    requires st.Valid()
    ensures Declared(st.JoinedShape()) && |st.JoinedShape().fields| == |st.lshape.fields| + |st.cols|
  {
  }

  /** Joining agreeing sides, whatever they were evaluated from. */
  lemma JoinedStep(s: Setting, st: Step, aliases: set<string>, kind: JoinKind, on1: Row -> bool, on2: Row -> bool,
                   j: Joined, k: Joined, a: Relation, b: Relation)
    requires Disjoint(s.scope, s.secret) && st.Valid() && st.scope == s.scope && st.lshape == j.shape
    requires st.cols == a.cols
    requires JoinedAgree(s, st.lqs, aliases, j, k) && SourcesAgree(s, st.alias, st.table, a, b)
    requires forall p, q | Agreeing(s.secret, FieldNames(st.JoinedShape().fields))(p, q) :: on1(p) == on2(q)
    requires s.exact ==> (kind.KeepsLeft() ==> !st.table) && (kind.KeepsRight() ==> st.lqs == [])
    ensures var shape, lw, rw := st.JoinedShape(), |j.shape.fields|, |a.cols|;
      JoinedAgree(s, st.Qs(), aliases + {Fold(st.alias)}, Joined(shape, JoinRows(on1, kind, lw, rw, j.rows, a.rows)),
                  Joined(shape, JoinRows(on2, kind, lw, rw, k.rows, b.rows)))
  {
    var lw, rw := |j.shape.fields|, |a.cols|;
    JoinStep(s.secret, s.left.engine, st, kind, on1, on2, j.rows, k.rows, a.rows, b.rows);
    JoinWidth(on1, kind, lw, rw, j.rows, a.rows);
    JoinWidth(on2, kind, lw, rw, k.rows, b.rows);
    JoinedShapeOk(st);
    if s.exact {
      ExactJoin(s, st, kind, on2, k.rows, b.rows);
    }
  }

  lemma JoinSim(s: Setting, f: From, m: Site, n: Site, x: Env, y: Env)
    requires Disjoint(s.scope, s.secret) && f.Join? && EnvAgree(s.secret, x, y)
    requires FromOk(f, s.Rules(), m.ctes.Keys)
    requires FromAgree(s, f.left, m, n, x, y) && SourceAgree(s, f.source, m, n, x, y) && CondSim(s, f.on, m, n)
    ensures FromAgree(s, f, m, n, x, y)
  {
    var j, k := EvalFrom(s.LFrom(f.left), m, x), EvalFrom(s.RFrom(f.left), n, y);
    var a, b := EvalSource(s.LSource(f.source), m, x), EvalSource(s.RSource(f.source), n, y);
    var st := Step(s.scope, TableQualifiers(f.left), j.shape, f.source.Qualifier(), a.cols, f.source.Table?);
    QualifiersDeclared(f.left);
    var on1, on2 := RowTest(s.LCond(f.on), m, st.JoinedShape(), x), RowTest(s.RCond(f.on), n, st.JoinedShape(), y);
    OnSim(s, f.on, m, n, st.JoinedShape(), x, y);
    JoinedStep(s, st, Aliases(f.left), f.kind, on1, on2, j, k, a, b);
    JoinUnfolded(s, f, m, n, x, y);
    assert TableQualifiers(f) == st.Qs();
  }

  lemma JoinUnfolded(s: Setting, f: From, m: Site, n: Site, x: Env, y: Env)
    requires f.Join?
    ensures var j, a := EvalFrom(s.LFrom(f.left), m, x), EvalSource(s.LSource(f.source), m, x);
      var shape := JoinShape(j.shape, f.source.Qualifier(), a.cols);
      EvalFrom(s.LFrom(f), m, x)
      == Joined(shape, JoinRows(RowTest(s.LCond(f.on), m, shape, x), f.kind, |j.shape.fields|, |a.cols|, j.rows,
                                a.rows))
    ensures var k, b := EvalFrom(s.RFrom(f.left), n, y), EvalSource(s.RSource(f.source), n, y);
      var shape := JoinShape(k.shape, f.source.Qualifier(), b.cols);
      EvalFrom(s.RFrom(f), n, y)
      == Joined(shape, JoinRows(RowTest(s.RCond(f.on), n, shape, y), f.kind, |k.shape.fields|, |b.cols|, k.rows,
                                b.rows))
  {
    assert s.LSource(f.source).Qualifier() == f.source.Qualifier() == s.RSource(f.source).Qualifier();
    assert s.LFrom(f) == Join(s.LFrom(f.left), f.kind, s.LSource(f.source), s.LCond(f.on));
    assert s.RFrom(f) == Join(s.RFrom(f.left), f.kind, s.RSource(f.source), s.RCond(f.on));
  }

  lemma ExactJoin(s: Setting, st: Step, kind: JoinKind, on: Row -> bool, ls: seq<Row>, rs: seq<Row>)
    requires st.Valid() && Width(ls, |st.lshape.fields|) && Width(rs, |st.cols|)
    requires Filter(ScopeTest(st.scope, st.lqs, st.lshape.fields, s.left.engine), ls) == ls
    requires Filter(ScopeTest(st.scope, st.RightQs(), st.RightFields(), s.left.engine), rs) == rs
    requires (kind.KeepsLeft() ==> !st.table) && (kind.KeepsRight() ==> st.lqs == [])
    ensures var test := ScopeTest(st.scope, st.Qs(), st.JoinedShape().fields, s.left.engine);
      var rows := JoinRows(on, kind, |st.lshape.fields|, |st.cols|, ls, rs);
      Filter(test, rows) == rows
  {
    var engine := s.left.engine;
    var left, right := ScopeTest(st.scope, st.lqs, st.lshape.fields, engine), ScopeTest(st.scope, st.RightQs(),
        st.RightFields(), engine);
    forall l | l in ls ensures st.LeftIn(l, engine) { assert left(l); }
    forall r | r in rs ensures st.RightIn(r, engine) { assert right(r); }
    JoinIn(st, on, kind, ls, rs, engine);
    FilterAll(ScopeTest(st.scope, st.Qs(), st.JoinedShape().fields, engine),
              JoinRows(on, kind, |st.lshape.fields|, |st.cols|, ls, rs));
  }

  // ---- SELECT ----

  ghost function SameValue<T>(): (T, T) -> bool {
    (a, b) => a == b
  }

  lemma PairedSame<T(!new)>(a: seq<T>, b: seq<T>)
    requires Paired(SameValue<T>(), a, b)
    ensures a == b
  {
    forall i | 0 <= i < |a| ensures a[i] == b[i] {
      assert SameValue<T>()(a[i], b[i]);
    }
  }

  lemma ScopeTestTrivial(qs: seq<string>, fields: seq<Field>, rows: seq<Row>, engine: Engine)
    ensures Filter(ScopeTest([], qs, fields, engine), rows) == rows
  {
    forall row | row in rows ensures InScope([], qs, fields, row, engine) {
      InScopeTrivially([], qs, fields, row, engine);
    }
    FilterAll(ScopeTest([], qs, fields, engine), rows);
  }

  /** The rewritten WHERE of one side is its unscoped WHERE on the in-scope rows. */
  lemma WhereKept(s: Setting, scope: Scope, where: Cond, f: From, m: Site, shape: Shape, rows: seq<Row>, env: Env)
    requires Disjoint(scope, s.secret) && forall q | q in TableQualifiers(f) :: Fold(q) in shape.aliases
    ensures Filter(RowTest(MaskCond(ScopedWhere(ScopeCond(where, scope), f, scope), s.secret), m, shape, env), rows)
         == Filter(RowTest(MaskCond(ScopeCond(where, scope), s.secret), m, shape, env),
                   Filter(ScopeTest(scope, TableQualifiers(f), shape.fields, m.db.engine), rows))
  {
    WhereMasked(ScopeCond(where, scope), f, scope, s.secret);
    KeptScoped(MaskCond(ScopeCond(where, scope), s.secret), f, scope, m, shape, rows, env);
  }

  /** WHERE: the kept rows of both sides agree. */
  lemma WhereSim(s: Setting, where: Cond, f: From, m: Site, n: Site, x: Env, y: Env)
    requires s.Valid() && SitesAgree(s, m, n) && EnvAgree(s.secret, x, y)
    requires FromAgree(s, f, m, n, x, y) && CondSim(s, where, m, n)
    ensures var j, k := EvalFrom(s.LFrom(f), m, x), EvalFrom(s.RFrom(f), n, y);
      Paired(Agreeing(s.secret, FieldNames(j.shape.fields)),
        Filter(RowTest(MaskCond(ScopedWhere(ScopeCond(where, s.scope), f, s.scope), s.secret), m, j.shape, x), j.rows),
        Filter(RowTest(MaskCond(ScopedWhere(ScopeCond(where, s.RightScope()), f, s.RightScope()), s.secret), n, j.shape,
                       y), k.rows))
  {
    var j, k := EvalFrom(s.LFrom(f), m, x), EvalFrom(s.RFrom(f), n, y);
    var shape := j.shape;
    QualifiersDeclared(f);
    WhereKept(s, s.scope, where, f, m, shape, j.rows, x);
    WhereKept(s, s.RightScope(), where, f, n, shape, k.rows, y);
    var test := ScopeTest(s.scope, TableQualifiers(f), shape.fields, s.left.engine);
    if s.exact {
      ScopeTestTrivial(TableQualifiers(f), shape.fields, k.rows, n.db.engine);
    }
    var keep1, keep2 := RowTest(s.LCond(where), m, shape, x), RowTest(s.RCond(where), n, shape, y);
    OnSim(s, where, m, n, shape, x, y);
    PairedFilter(Agreeing(s.secret, FieldNames(shape.fields)), keep1, keep2, Filter(test, j.rows),
                 Filter(test, k.rows));
  }

  lemma {:induction false} OrdinalsWithinAgree(keys: Exprs, n: nat, a: Row, b: Row)
    requires |a| == |b| && n <= |a| && a[..n] == b[..n] && (OrdinalsWithin(keys, n) || a == b)
    ensures OrdinalsAgree(keys, a, b)
  {
    if keys.More? {
      OrdinalsWithinAgree(keys.tail, n, a, b);
      var key := Bare(keys.head);
      if IsOrdinal(key, |a|) && a != b {
        assert a[key.v.n - 1] == a[..n][key.v.n - 1];
      }
    }
  }

  /** One unit projects to agreeing rows, to equal rows without a star, and to equal columns wherever the
      keys may point. */
  lemma OutAgree(s: Setting, items: Items, keys: Exprs, m: Site, n: Site, shape: Shape, cols: seq<string>,
                 u: seq<Row>, w: seq<Row>, x: Env, y: Env)
    requires EnvAgree(s.secret, x, y) && ItemsSim(s, items, m, n) && (s.secret != {} ==> OrdinalsOk(keys, items))
    requires Paired(Agreeing(s.secret, FieldNames(shape.fields)), u, w) && cols == s.Names(items, shape.fields)
    ensures var a, b := OutRow(s.LItems(items), m, shape, x)(u), OutRow(s.RItems(items), n, shape, y)(w);
      RowAgree(s.secret, cols, a, b) && (s.secret == {} || StarFreeItems(items) ==> a == b) && OrdinalsAgree(keys, a, b)
  {
    UnitEnvsAgree(s.secret, shape, u, w, x, y);
    var e1, e2 := UnitEnv(shape, u, x), UnitEnv(shape, w, y);
    assert ItemsAgree(s, items, m, n, e1, e2, UnitEnvs(shape, u, x), UnitEnvs(shape, w, y));
    var a, b := OutRow(s.LItems(items), m, shape, x)(u), OutRow(s.RItems(items), n, shape, y)(w);
    assert RowAgree(s.secret, cols, a, b);
    if s.secret == {} {
      NothingSecret(cols, a, b);
    }
    OrdinalsWithinAgree(keys, Leading(items), a, b);
  }

  /** One row has one key on both sides. */
  lemma GroupKeySim(s: Setting, items: Items, groupBy: Exprs, m: Site, n: Site, shape: Shape, cols: seq<string>,
                    p: Row, q: Row, x: Env, y: Env)
    requires EnvAgree(s.secret, x, y) && KeysSim(s, groupBy, m, n) && ItemsSim(s, items, m, n)
    requires s.secret != {} ==> OrdinalsOk(groupBy, items)
    requires RowAgree(s.secret, FieldNames(shape.fields), p, q) && cols == s.Names(items, shape.fields)
    ensures GroupKey(s.LExprs(groupBy), OutRow(s.LItems(items), m, shape, x), m, cols, shape, x)(p).key
         == GroupKey(s.RExprs(groupBy), OutRow(s.RItems(items), n, shape, y), n, cols, shape, y)(q).key
  {
    OutAgree(s, items, groupBy, m, n, shape, cols, [p], [q], x, y);
    assert EnvAgree(s.secret, Inside(shape, p, x), Inside(shape, q, y));
    assert UnitsAgree(s.secret, [], []);
  }

  /** GROUP BY: the units of projection agree. */
  lemma GroupSim(s: Setting, items: Items, groupBy: Exprs, grouped: bool, m: Site, n: Site, shape: Shape,
                 cols: seq<string>,
                 rows1: seq<Row>, rows2: seq<Row>, x: Env, y: Env)
    requires EnvAgree(s.secret, x, y) && KeysSim(s, groupBy, m, n) && ItemsSim(s, items, m, n)
    requires (s.secret != {} ==> OrdinalsOk(groupBy, items)) && cols == s.Names(items, shape.fields)
    requires Paired(Agreeing(s.secret, FieldNames(shape.fields)), rows1, rows2)
    ensures Paired(UnitRel(Agreeing(s.secret, FieldNames(shape.fields))),
      Units(s.LExprs(groupBy), grouped, OutRow(s.LItems(items), m, shape, x), m, cols, shape, rows1, x),
      Units(s.RExprs(groupBy), grouped, OutRow(s.RItems(items), n, shape, y), n, cols, shape, rows2, y))
  {
    var rel := Agreeing(s.secret, FieldNames(shape.fields));
    if !grouped {
      forall p, q | rel(p, q) ensures UnitRel(rel)(Singleton()(p), Singleton()(q)) {}
      PairedMap(rel, UnitRel(rel), Singleton(), Singleton(), rows1, rows2);
    } else if groupBy.More? {
      var f := GroupKey(s.LExprs(groupBy), OutRow(s.LItems(items), m, shape, x), m, cols, shape, x);
      var g := GroupKey(s.RExprs(groupBy), OutRow(s.RItems(items), n, shape, y), n, cols, shape, y);
      forall p, q | rel(p, q) ensures SameKey(rel)(f(p), g(q)) {
        GroupKeySim(s, items, groupBy, m, n, shape, cols, p, q, x, y);
      }
      PairedMap(rel, SameKey(rel), f, g, rows1, rows2);
      PairedGroups(rel, Map(f, rows1), Map(g, rows2));
    } else {
      assert UnitRel(rel)(rows1, rows2);
    }
  }

  /** HAVING: the kept units agree. */
  lemma HavingSim(s: Setting, having: Cond, m: Site, n: Site, shape: Shape, us: seq<seq<Row>>, ws: seq<seq<Row>>,
                  x: Env, y: Env)
    requires EnvAgree(s.secret, x, y) && CondSim(s, having, m, n)
    requires Paired(UnitRel(Agreeing(s.secret, FieldNames(shape.fields))), us, ws)
    ensures Paired(UnitRel(Agreeing(s.secret, FieldNames(shape.fields))),
      Filter(UnitTest(s.LCond(having), m, shape, x), us), Filter(UnitTest(s.RCond(having), n, shape, y), ws))
  {
    var rel := Agreeing(s.secret, FieldNames(shape.fields));
    var keep1, keep2 := UnitTest(s.LCond(having), m, shape, x), UnitTest(s.RCond(having), n, shape, y);
    forall u, w | UnitRel(rel)(u, w) ensures keep1(u) == keep2(w) {
      UnitEnvsAgree(s.secret, shape, u, w, x, y);
      assert UnitsAgree(s.secret, UnitEnvs(shape, u, x), UnitEnvs(shape, w, y));
    }
    PairedFilter(UnitRel(rel), keep1, keep2, us, ws);
  }

  /** One unit projects to agreeing rows under equal sort keys, and to equal rows without a star. */
  lemma OutSim(s: Setting, items: Items, orderBy: Exprs, m: Site, n: Site, shape: Shape, cols: seq<string>,
               u: seq<Row>, w: seq<Row>, x: Env, y: Env)
    requires EnvAgree(s.secret, x, y) && ItemsSim(s, items, m, n) && KeysSim(s, orderBy, m, n)
    requires (s.secret != {} ==> OrdinalsOk(orderBy, items)) && cols == s.Names(items, shape.fields)
    requires Paired(Agreeing(s.secret, FieldNames(shape.fields)), u, w)
    ensures var a := OutKeyed(s.LExprs(orderBy), OutRow(s.LItems(items), m, shape, x), m, cols, shape, x)(u);
      var b := OutKeyed(s.RExprs(orderBy), OutRow(s.RItems(items), n, shape, y), n, cols, shape, y)(w);
      SameKey(Agreeing(s.secret, cols))(a, b) && (s.secret == {} || StarFreeItems(items) ==> a == b)
  {
    UnitEnvsAgree(s.secret, shape, u, w, x, y);
    OutAgree(s, items, orderBy, m, n, shape, cols, u, w, x, y);
    assert UnitsAgree(s.secret, UnitEnvs(shape, u, x), UnitEnvs(shape, w, y));
  }

  /** Projection and sort keys of all units. */
  lemma ProjectSim(s: Setting, items: Items, orderBy: Exprs, m: Site, n: Site, shape: Shape, cols: seq<string>,
                   us: seq<seq<Row>>, ws: seq<seq<Row>>, x: Env, y: Env)
    requires EnvAgree(s.secret, x, y) && ItemsSim(s, items, m, n) && KeysSim(s, orderBy, m, n)
    requires (s.secret != {} ==> OrdinalsOk(orderBy, items)) && cols == s.Names(items, shape.fields)
    requires Paired(UnitRel(Agreeing(s.secret, FieldNames(shape.fields))), us, ws)
    ensures var a := Map(OutKeyed(s.LExprs(orderBy), OutRow(s.LItems(items), m, shape, x), m, cols, shape, x), us);
      var b := Map(OutKeyed(s.RExprs(orderBy), OutRow(s.RItems(items), n, shape, y), n, cols, shape, y), ws);
      Paired(SameKey(Agreeing(s.secret, cols)), a, b) && (s.secret == {} || StarFreeItems(items) ==> a == b)
  {
    var rel := Agreeing(s.secret, FieldNames(shape.fields));
    var out1 := OutKeyed(s.LExprs(orderBy), OutRow(s.LItems(items), m, shape, x), m, cols, shape, x);
    var out2 := OutKeyed(s.RExprs(orderBy), OutRow(s.RItems(items), n, shape, y), n, cols, shape, y);
    forall u, w | UnitRel(rel)(u, w)
      ensures SameKey(Agreeing(s.secret, cols))(out1(u), out2(w))
      ensures s.secret == {} || StarFreeItems(items) ==> SameValue<Keyed>()(out1(u), out2(w))
    {
      OutSim(s, items, orderBy, m, n, shape, cols, u, w, x, y);
    }
    PairedMap(UnitRel(rel), SameKey(Agreeing(s.secret, cols)), out1, out2, us, ws);
    if s.secret == {} || StarFreeItems(items) {
      PairedMap(UnitRel(rel), SameValue<Keyed>(), out1, out2, us, ws);
      PairedSame(Map(out1, us), Map(out2, ws));
    }
  }

  /** A SELECT block, given the kept rows and the grouping it has in its original form. */
  function Block(items: Items, groupBy: Exprs, grouped: bool, having: Cond, orderBy: Exprs, m: Site, shape: Shape,
                 cols: seq<string>, kept: seq<Row>, env: Env): seq<Keyed> {
    var out := OutRow(items, m, shape, env);
    Map(OutKeyed(orderBy, out, m, cols, shape, env),
        Filter(UnitTest(having, m, shape, env), Units(groupBy, grouped, out, m, cols, shape, kept, env)))
  }

  lemma SelectUnfolded(q: Query, m: Site, env: Env)
    requires q.Select?
    ensures var j := EvalFrom(q.from, m, env);
      var cols := ItemNames(q.items, j.shape.fields);
      Eval(q, m, env) == Relation(cols, Finish(
        Block(q.items, q.groupBy, IsGrouped(q.groupBy, q.items, q.having, q.orderBy), q.having, q.orderBy, m, j.shape,
              cols,
              Filter(RowTest(q.where, m, j.shape, env), j.rows), env),
        q.distinct, q.orderBy.More?, q.descending, q.limit, m.db.engine))
  {
  }

  /** What the rules ask of the ordinals of a SELECT. */
  predicate KeysOk(s: Setting, q: Query)
    requires q.Select?
  {
    s.secret != {} ==> OrdinalsOk(q.groupBy, q.items) && OrdinalsOk(q.orderBy, q.items)
  }

  lemma BlockSim(s: Setting, q: Query, m: Site, n: Site, shape: Shape, kept1: seq<Row>, kept2: seq<Row>, x: Env, y: Env)
    requires q.Select? && EnvAgree(s.secret, x, y) && KeysOk(s, q)
    requires KeysSim(s, q.groupBy, m, n) && CondSim(s, q.having, m, n) && ItemsSim(s, q.items, m, n)
    requires KeysSim(s, q.orderBy, m, n)
    requires Paired(Agreeing(s.secret, FieldNames(shape.fields)), kept1, kept2)
    ensures var cols, grouped := s.Names(q.items, shape.fields), IsGrouped(q.groupBy, q.items, q.having, q.orderBy);
      var a := Block(s.LItems(q.items), s.LExprs(q.groupBy), grouped, s.LCond(q.having), s.LExprs(q.orderBy), m, shape,
                     cols, kept1, x);
      var b := Block(s.RItems(q.items), s.RExprs(q.groupBy), grouped, s.RCond(q.having), s.RExprs(q.orderBy), n, shape,
                     cols, kept2, y);
      Paired(SameKey(Agreeing(s.secret, cols)), a, b) && (s.secret == {} || StarFreeItems(q.items) ==> a == b)
  {
    var cols, grouped := s.Names(q.items, shape.fields), IsGrouped(q.groupBy, q.items, q.having, q.orderBy);
    GroupSim(s, q.items, q.groupBy, grouped, m, n, shape, cols, kept1, kept2, x, y);
    var us := Units(s.LExprs(q.groupBy), grouped, OutRow(s.LItems(q.items), m, shape, x), m, cols, shape, kept1, x);
    var ws := Units(s.RExprs(q.groupBy), grouped, OutRow(s.RItems(q.items), n, shape, y), n, cols, shape, kept2, y);
    HavingSim(s, q.having, m, n, shape, us, ws, x, y);
    ProjectSim(s, q.items, q.orderBy, m, n, shape, cols,
               Filter(UnitTest(s.LCond(q.having), m, shape, x), us), Filter(UnitTest(s.RCond(q.having), n, shape, y),
                      ws), x, y);
  }

  /** The rewritten block has the same names on both sides, and the grouping of the original. */
  lemma BlockKept(s: Setting, q: Query, fields: seq<Field>)
    requires q.Select? && Disjoint(s.scope, s.secret)
    ensures ItemNames(s.LItems(q.items), fields) == s.Names(q.items, fields) == ItemNames(s.RItems(q.items), fields)
    ensures IsGrouped(s.LExprs(q.groupBy), s.LItems(q.items), s.LCond(q.having), s.LExprs(q.orderBy))
         == IsGrouped(q.groupBy, q.items, q.having, q.orderBy)
    ensures IsGrouped(s.RExprs(q.groupBy), s.RItems(q.items), s.RCond(q.having), s.RExprs(q.orderBy))
         == IsGrouped(q.groupBy, q.items, q.having, q.orderBy)
  {
    ItemsCommute(q.items, s.scope, s.secret);
    ItemsCommute(q.items, s.RightScope(), s.secret);
    ItemNamesScoped(MaskItems(q.items, s.secret), s.scope, fields);
    ItemNamesScoped(MaskItems(q.items, s.secret), s.RightScope(), fields);
    GroupingKept(q.groupBy, q.items, q.having, q.orderBy, s.scope, s.secret);
    GroupingKept(q.groupBy, q.items, q.having, q.orderBy, s.RightScope(), s.secret);
  }

  /** The rewritten SELECT of one side, from the rows its rewritten WHERE keeps. */
  lemma RewrittenSelect(s: Setting, scope: Scope, q: Query, m: Site, env: Env)
    requires q.Select? && Disjoint(s.scope, s.secret) && (scope == s.scope || scope == s.RightScope())
    ensures var r := MaskQuery(ScopeQuery(q, scope), s.secret);
      var j := EvalFrom(r.from, m, env);
      var cols := s.Names(q.items, j.shape.fields);
      Eval(r, m, env) == Relation(cols, Finish(
        Block(r.items, r.groupBy, IsGrouped(q.groupBy, q.items, q.having, q.orderBy), r.having, r.orderBy, m, j.shape,
              cols,
              Filter(RowTest(r.where, m, j.shape, env), j.rows), env),
        q.distinct, q.orderBy.More?, q.descending, q.limit, m.db.engine))
  {
    var r := MaskQuery(ScopeQuery(q, scope), s.secret);
    BlockKept(s, q, EvalFrom(r.from, m, env).shape.fields);
    SelectUnfolded(r, m, env);
  }

  lemma SelectSim(s: Setting, q: Query, m: Site, n: Site, x: Env, y: Env)
    requires s.Valid() && SitesAgree(s, m, n) && q.Select? && EnvAgree(s.secret, x, y)
    requires (s.secret != {} && q.distinct ==> StarFreeItems(q.items)) && KeysOk(s, q)
    requires FromAgree(s, q.from, m, n, x, y) && CondSim(s, q.where, m, n) && KeysSim(s, q.groupBy, m, n)
    requires CondSim(s, q.having, m, n) && ItemsSim(s, q.items, m, n) && KeysSim(s, q.orderBy, m, n)
    ensures QueryAgree(s, q, m, n, x, y)
  {
    var j, k := EvalFrom(s.LFrom(q.from), m, x), EvalFrom(s.RFrom(q.from), n, y);
    var shape, l, r := j.shape, s.LQuery(q), s.RQuery(q);
    var cols, grouped := s.Names(q.items, shape.fields), IsGrouped(q.groupBy, q.items, q.having, q.orderBy);
    WhereSim(s, q.where, q.from, m, n, x, y);
    var kept1, kept2 := Filter(RowTest(l.where, m, shape, x), j.rows), Filter(RowTest(r.where, n, shape, y), k.rows);
    BlockSim(s, q, m, n, shape, kept1, kept2, x, y);
    FinishSim(s, q, cols,
      Block(s.LItems(q.items), s.LExprs(q.groupBy), grouped, s.LCond(q.having), s.LExprs(q.orderBy), m, shape, cols,
            kept1, x),
      Block(s.RItems(q.items), s.RExprs(q.groupBy), grouped, s.RCond(q.having), s.RExprs(q.orderBy), n, shape, cols,
            kept2, y));
    RewrittenSelect(s, s.scope, q, m, x);
    RewrittenSelect(s, s.RightScope(), q, n, y);
  }

  lemma FinishSim(s: Setting, q: Query, cols: seq<string>, a: seq<Keyed>, b: seq<Keyed>)
    requires q.Select? && Paired(SameKey(Agreeing(s.secret, cols)), a, b) && (q.distinct ==> a == b)
    ensures Paired(Agreeing(s.secret, cols),
                   Finish(a, q.distinct, q.orderBy.More?, q.descending, q.limit, s.left.engine),
                   Finish(b, q.distinct, q.orderBy.More?, q.descending, q.limit, s.left.engine))
  {
    if q.distinct {
      forall k | k in a ensures Agreeing(s.secret, cols)(k.row, k.row) {
        var i :| 0 <= i < |a| && a[i] == k;
        assert SameKey(Agreeing(s.secret, cols))(a[i], b[i]);
      }
    }
    PairedFinish(Agreeing(s.secret, cols), a, b, q.distinct, q.orderBy.More?, q.descending, q.limit, s.left.engine);
  }

  // ---- Every node ----

  lemma {:induction false} QuerySimulates(s: Setting, q: Query, m: Site, n: Site)
    requires s.Valid() && SitesAgree(s, m, n) && QueryOk(q, s.Rules(), m.ctes.Keys)
    ensures QuerySim(s, q, m, n)
  {
    match q
    case Select(_, items, from, where, groupBy, having, orderBy, _, _, _, _) =>
      FromSimulates(s, from, m, n);
      CondSimulates(s, where, m, n);
      ExprsSimulate(s, groupBy, m, n);
      CondSimulates(s, having, m, n);
      ItemsSimulate(s, items, m, n);
      ExprsSimulate(s, orderBy, m, n);
      forall x, y | EnvAgree(s.secret, x, y) ensures QueryAgree(s, q, m, n, x, y) {
        assert FromAgree(s, from, m, n, x, y);
        SelectSim(s, q, m, n, x, y);
      }
    case SetOp(op, left, right) =>
      QuerySimulates(s, left, m, n);
      QuerySimulates(s, right, m, n);
      SetOpSim(s, q, m, n);
    case With(name, body, main) =>
      QuerySimulates(s, body, m, n);
      forall x, y | EnvAgree(s.secret, x, y) ensures QueryAgree(s, q, m, n, x, y) {
        assert QueryAgree(s, body, m, n, x, y);
        var m' := m.(ctes := m.ctes[Fold(name) := Eval(s.LQuery(body), m, x)]);
        var n' := n.(ctes := n.ctes[Fold(name) := Eval(s.RQuery(body), n, y)]);
        assert m'.ctes.Keys == m.ctes.Keys + {Fold(name)};
        QuerySimulates(s, main, m', n');
        assert QueryAgree(s, main, m', n', x, y);
        WithUnfolded(s, q, m, n, x, y);
      }
    case Mutation(_) =>
      forall x, y | EnvAgree(s.secret, x, y) ensures QueryAgree(s, q, m, n, x, y) {
        assert s.LQuery(q) == q == s.RQuery(q);
      }
  }

  lemma WithUnfolded(s: Setting, q: Query, m: Site, n: Site, x: Env, y: Env)
    requires q.With?
    ensures Eval(s.LQuery(q), m, x)
         == Eval(s.LQuery(q.main), m.(ctes := m.ctes[Fold(q.name) := Eval(s.LQuery(q.body), m, x)]), x)
    ensures Eval(s.RQuery(q), n, y)
         == Eval(s.RQuery(q.main), n.(ctes := n.ctes[Fold(q.name) := Eval(s.RQuery(q.body), n, y)]), y)
  {
    assert s.LQuery(q) == With(q.name, s.LQuery(q.body), s.LQuery(q.main));
    assert s.RQuery(q) == With(q.name, s.RQuery(q.body), s.RQuery(q.main));
  }

  lemma SetOpSim(s: Setting, q: Query, m: Site, n: Site)
    requires q.SetOp? && QuerySim(s, q.left, m, n) && QuerySim(s, q.right, m, n)
    requires s.secret != {} ==> StarFree(q.left) && StarFree(q.right)
    ensures QuerySim(s, q, m, n)
  {
    assert s.LQuery(q) == SetOp(q.op, s.LQuery(q.left), s.LQuery(q.right));
    assert s.RQuery(q) == SetOp(q.op, s.RQuery(q.left), s.RQuery(q.right));
    forall x, y | EnvAgree(s.secret, x, y) ensures QueryAgree(s, q, m, n, x, y) {
      assert QueryAgree(s, q.left, m, n, x, y) && QueryAgree(s, q.right, m, n, x, y);
      var a, b := Eval(s.LQuery(q.left), m, x), Eval(s.LQuery(q.right), m, x);
      CombineRectangular(q.op, a, b);
      SelfAgree(s.secret, Combine(q.op, a, b));
    }
  }

  lemma {:induction false} FromSimulates(s: Setting, f: From, m: Site, n: Site)
    requires s.Valid() && SitesAgree(s, m, n) && FromOk(f, s.Rules(), m.ctes.Keys)
    ensures FromSim(s, f, m, n)
  {
    match f
    case NoFrom => EmptyFromSim(s, m, n);
    case Join(left, _, source, on) =>
      FromSimulates(s, left, m, n);
      if source.Table? {
        TableSim(s, source, m, n);
      } else {
        QuerySimulates(s, source.q, m, n);
        DerivedSim(s, source, m, n);
      }
      CondSimulates(s, on, m, n);
      forall x, y | EnvAgree(s.secret, x, y) ensures FromAgree(s, f, m, n, x, y) {
        assert FromAgree(s, left, m, n, x, y) && SourceAgree(s, source, m, n, x, y);
        JoinSim(s, f, m, n, x, y);
      }
  }

  lemma {:induction false} CondSimulates(s: Setting, c: Cond, m: Site, n: Site)
    requires s.Valid() && SitesAgree(s, m, n) && CondOk(c, s.Rules(), m.ctes.Keys)
    ensures CondSim(s, c, m, n)
  {
    if c.If? {
      ExprSimulates(s, c.e, m, n);
      assert s.LCond(c) == If(s.LExpr(c.e)) && s.RCond(c) == If(s.RExpr(c.e));
    } else {
      assert s.LCond(c) == Always && s.RCond(c) == Always;
    }
  }

  lemma {:induction false} ExprSimulates(s: Setting, e: Expr, m: Site, n: Site)
    requires s.Valid() && SitesAgree(s, m, n) && ExprOk(e, s.Rules(), m.ctes.Keys)
    ensures ExprSim(s, e, m, n)
  {
    match e
    case Const(_) => ConstSim(s, e, m, n);
    case Col(_, _) => ColSim(s, e, m, n);
    case Binary(_, l, r) => ExprSimulates(s, l, m, n); ExprSimulates(s, r, m, n); BinarySim(s, e, m, n);
    case Not(a) => ExprSimulates(s, a, m, n); NotSim(s, e, m, n);
    case IsNull(a) => ExprSimulates(s, a, m, n); IsNullSim(s, e, m, n);
    case Paren(a) => ExprSimulates(s, a, m, n); ParenSim(s, e, m, n);
    case Cast(a, _) => ExprSimulates(s, a, m, n); CastSim(s, e, m, n);
    case Case(tests, results, otherwise) =>
      ExprsSimulate(s, tests, m, n); ExprsSimulate(s, results, m, n); ExprSimulates(s, otherwise, m, n); CaseSim(s, e,
                    m, n);
    case Call(_, args) => ExprsSimulate(s, args, m, n); CallSim(s, e, m, n);
    case Aggregate(_, arg) => ExprSimulates(s, arg, m, n); AggregateSim(s, e, m, n);
    case Scalar(q) => QuerySimulates(s, q, m, n); ScalarSim(s, e, m, n);
    case Exists(q) => QuerySimulates(s, q, m, n); ExistsSim(s, e, m, n);
    case In(a, q) => ExprSimulates(s, a, m, n); QuerySimulates(s, q, m, n); InSim(s, e, m, n);
  }

  lemma ConstSim(s: Setting, e: Expr, m: Site, n: Site)
    requires e.Const?
    ensures ExprSim(s, e, m, n)
  {
  }

  lemma ColSim(s: Setting, e: Expr, m: Site, n: Site)
    requires e.Col?
    ensures ExprSim(s, e, m, n)
  {
    if Fold(e.name) !in s.secret {
      forall x, y, u, w | EnvAgree(s.secret, x, y) && UnitsAgree(s.secret, u, w)
        ensures EvalExpr(s.LExpr(e), m, x, u) == EvalExpr(s.RExpr(e), n, y, w)
      {
        LookupAgree(s.secret, x, y, e.qualifier, e.name);
      }
    }
  }

  lemma NotSim(s: Setting, e: Expr, m: Site, n: Site)
    requires e.Not? && ExprSim(s, e.e, m, n)
    ensures ExprSim(s, e, m, n)
  {
    assert s.LExpr(e) == Not(s.LExpr(e.e)) && s.RExpr(e) == Not(s.RExpr(e.e));
  }

  lemma IsNullSim(s: Setting, e: Expr, m: Site, n: Site)
    requires e.IsNull? && ExprSim(s, e.e, m, n)
    ensures ExprSim(s, e, m, n)
  {
    assert s.LExpr(e) == IsNull(s.LExpr(e.e)) && s.RExpr(e) == IsNull(s.RExpr(e.e));
  }

  lemma ParenSim(s: Setting, e: Expr, m: Site, n: Site)
    requires e.Paren? && ExprSim(s, e.e, m, n)
    ensures ExprSim(s, e, m, n)
  {
    assert s.LExpr(e) == Paren(s.LExpr(e.e)) && s.RExpr(e) == Paren(s.RExpr(e.e));
  }

  lemma CastSim(s: Setting, e: Expr, m: Site, n: Site)
    requires s.left.engine == s.right.engine && SitesAgree(s, m, n) && e.Cast? && ExprSim(s, e.e, m, n)
    ensures ExprSim(s, e, m, n)
  {
    assert s.LExpr(e) == Cast(s.LExpr(e.e), e.target) && s.RExpr(e) == Cast(s.RExpr(e.e), e.target);
  }

  lemma CaseSim(s: Setting, e: Expr, m: Site, n: Site)
    requires e.Case? && ExprsSim(s, e.tests, m, n) && ExprsSim(s, e.results, m, n) && ExprSim(s, e.otherwise, m, n)
    ensures ExprSim(s, e, m, n)
  {
    assert s.LExpr(e) == Case(s.LExprs(e.tests), s.LExprs(e.results), s.LExpr(e.otherwise));
    assert s.RExpr(e) == Case(s.RExprs(e.tests), s.RExprs(e.results), s.RExpr(e.otherwise));
    forall x, y, u, w | EnvAgree(s.secret, x, y) && UnitsAgree(s.secret, u, w)
      ensures EvalExpr(s.LExpr(e), m, x, u) == EvalExpr(s.RExpr(e), n, y, w)
    {
      assert EvalExprs(s.LExprs(e.tests), m, x, u) == EvalExprs(s.RExprs(e.tests), n, y, w);
      assert EvalExprs(s.LExprs(e.results), m, x, u) == EvalExprs(s.RExprs(e.results), n, y, w);
      assert EvalExpr(s.LExpr(e.otherwise), m, x, u) == EvalExpr(s.RExpr(e.otherwise), n, y, w);
    }
  }

  lemma CallSim(s: Setting, e: Expr, m: Site, n: Site)
    requires s.left.engine == s.right.engine && SitesAgree(s, m, n) && e.Call? && ExprsSim(s, e.args, m, n)
    ensures ExprSim(s, e, m, n)
  {
    assert s.LExpr(e) == Call(e.fn, s.LExprs(e.args)) && s.RExpr(e) == Call(e.fn, s.RExprs(e.args));
  }

  /** A scalar subquery: the same first row. */
  lemma ScalarSim(s: Setting, e: Expr, m: Site, n: Site)
    requires e.Scalar? && QuerySim(s, e.q, m, n) && (s.secret == {} || StarFree(e.q))
    ensures ExprSim(s, e, m, n)
  {
    assert s.LExpr(e) == Scalar(s.LQuery(e.q)) && s.RExpr(e) == Scalar(s.RQuery(e.q));
    forall x, y, u, w | EnvAgree(s.secret, x, y) && UnitsAgree(s.secret, u, w)
      ensures EvalExpr(s.LExpr(e), m, x, u) == EvalExpr(s.RExpr(e), n, y, w)
    {
      assert QueryAgree(s, e.q, m, n, x, y);
    }
  }

  /** EXISTS only sees whether there are rows, so a star may stand inside it. */
  lemma ExistsSim(s: Setting, e: Expr, m: Site, n: Site)
    requires e.Exists? && QuerySim(s, e.q, m, n)
    ensures ExprSim(s, e, m, n)
  {
    assert s.LExpr(e) == Exists(s.LQuery(e.q)) && s.RExpr(e) == Exists(s.RQuery(e.q));
    forall x, y, u, w | EnvAgree(s.secret, x, y) && UnitsAgree(s.secret, u, w)
      ensures EvalExpr(s.LExpr(e), m, x, u) == EvalExpr(s.RExpr(e), n, y, w)
    {
      assert QueryAgree(s, e.q, m, n, x, y);
    }
  }

  lemma InSim(s: Setting, e: Expr, m: Site, n: Site)
    requires s.left.engine == s.right.engine && SitesAgree(s, m, n) && e.In?
    requires ExprSim(s, e.e, m, n) && QuerySim(s, e.q, m, n) && (s.secret == {} || StarFree(e.q))
    ensures ExprSim(s, e, m, n)
  {
    assert s.LExpr(e) == In(s.LExpr(e.e), s.LQuery(e.q)) && s.RExpr(e) == In(s.RExpr(e.e), s.RQuery(e.q));
    forall x, y, u, w | EnvAgree(s.secret, x, y) && UnitsAgree(s.secret, u, w)
      ensures EvalExpr(s.LExpr(e), m, x, u) == EvalExpr(s.RExpr(e), n, y, w)
    {
      assert QueryAgree(s, e.q, m, n, x, y);
    }
  }

  lemma BinarySim(s: Setting, e: Expr, m: Site, n: Site)
    requires s.left.engine == s.right.engine && SitesAgree(s, m, n) && e.Binary?
    requires ExprSim(s, e.l, m, n) && ExprSim(s, e.r, m, n)
    ensures ExprSim(s, e, m, n)
  {
    assert s.LExpr(e) == Binary(e.op, s.LExpr(e.l), s.LExpr(e.r));
    assert s.RExpr(e) == Binary(e.op, s.RExpr(e.l), s.RExpr(e.r));
    forall x, y, u, w | EnvAgree(s.secret, x, y) && UnitsAgree(s.secret, u, w)
      ensures EvalExpr(s.LExpr(e), m, x, u) == EvalExpr(s.RExpr(e), n, y, w)
    {
      assert EvalExpr(s.LExpr(e.l), m, x, u) == EvalExpr(s.RExpr(e.l), n, y, w);
      assert EvalExpr(s.LExpr(e.r), m, x, u) == EvalExpr(s.RExpr(e.r), n, y, w);
    }
  }

  lemma AggregateSim(s: Setting, e: Expr, m: Site, n: Site)
    requires s.left.engine == s.right.engine && SitesAgree(s, m, n) && e.Aggregate? && ExprSim(s, e.arg, m, n)
    ensures ExprSim(s, e, m, n)
  {
    assert s.LExpr(e) == Aggregate(e.fn, s.LExpr(e.arg)) && s.RExpr(e) == Aggregate(e.fn, s.RExpr(e.arg));
    forall x, y, u, w | EnvAgree(s.secret, x, y) && UnitsAgree(s.secret, u, w)
      ensures EvalExpr(s.LExpr(e), m, x, u) == EvalExpr(s.RExpr(e), n, y, w)
    {
      var f, g := OnEach(s.LExpr(e.arg), m), OnEach(s.RExpr(e.arg), n);
      forall p, q | EnvsAgreeing(s.secret)(p, q) ensures SameValue<Value>()(f(p), g(q)) {
        assert UnitsAgree(s.secret, [], []);
      }
      PairedMap(EnvsAgreeing(s.secret), SameValue<Value>(), f, g, u, w);
      PairedSame(Map(f, u), Map(g, w));
    }
  }

  lemma {:induction false} ExprsSimulate(s: Setting, es: Exprs, m: Site, n: Site)
    requires s.Valid() && SitesAgree(s, m, n) && ExprsOk(es, s.Rules(), m.ctes.Keys)
    ensures ExprsSim(s, es, m, n) && KeysSim(s, es, m, n)
  {
    if es.More? {
      ExprSimulates(s, es.head, m, n);
      ExprsSimulate(s, es.tail, m, n);
      assert s.LExprs(es) == More(s.LExpr(es.head), s.LExprs(es.tail));
      assert s.RExprs(es) == More(s.RExpr(es.head), s.RExprs(es.tail));
      KeysStep(s, es, m, n);
    }
  }

  lemma {:induction false} BareRewritten(s: Setting, e: Expr)
    ensures Bare(s.LExpr(e)) == s.LExpr(Bare(e)) && Bare(s.RExpr(e)) == s.RExpr(Bare(e))
  {
    if e.Paren? {
      BareRewritten(s, e.e);
      assert s.LExpr(e) == Paren(s.LExpr(e.e)) && s.RExpr(e) == Paren(s.RExpr(e.e));
    }
  }

  /** A key that names an output column reads the same of both sides. */
  lemma OutputNameSim(s: Setting, e: Expr, cols: seq<string>, a: Row, b: Row)
    requires RowAgree(s.secret, cols, a, b)
    ensures var h, k := s.LExpr(e), s.RExpr(e);
      && (IsOutputName(h, cols) <==> IsOutputName(k, cols))
      && (IsOutputName(h, cols) ==>
            h == k && Read(Tag("", cols), a, None, h.name) == Read(Tag("", cols), b, None, k.name))
  {
    if e.Col? && Fold(e.name) !in s.secret {
      TagNames("", cols);
      ReadAgree(s.secret, Tag("", cols), a, b, None, e.name);
    }
  }

  lemma KeySim(s: Setting, e: Expr, grouping: bool, m: Site, n: Site, cols: seq<string>, a: Row, b: Row, x: Env,
               y: Env, u: seq<Env>, w: seq<Env>)
    requires ExprSim(s, e, m, n) && EnvAgree(s.secret, x, y) && UnitsAgree(s.secret, u, w)
    requires RowAgree(s.secret, cols, a, b)
    requires IsOrdinal(Bare(e), |a|) ==> a[Bare(e).v.n - 1] == b[Bare(e).v.n - 1]
    ensures KeyValue(s.LExpr(e), grouping, m, cols, a, x, u) == KeyValue(s.RExpr(e), grouping, n, cols, b, y, w)
  {
    BareRewritten(s, e);
    OutputNameSim(s, Bare(e), cols, a, b);
    OrdinalRewritten(s, Bare(e), |a|);
    assert EvalExpr(s.LExpr(e), m, x, u) == EvalExpr(s.RExpr(e), n, y, w);
    assert forall name :: IsInputName(name, x) == IsInputName(name, y);
    KeyCases(s.LExpr(e), s.LExpr(Bare(e)), grouping, m, cols, a, x, u);
    KeyCases(s.RExpr(e), s.RExpr(Bare(e)), grouping, n, cols, b, y, w);
  }

  lemma KeyCases(e: Expr, key: Expr, grouping: bool, m: Site, cols: seq<string>, out: Row, env: Env, unit: seq<Env>)
    requires key == Bare(e)
    ensures IsOrdinal(key, |out|) ==> KeyValue(e, grouping, m, cols, out, env, unit) == out[key.v.n - 1]
    ensures !IsOrdinal(key, |out|) && IsOutputName(key, cols) && !(grouping && IsInputName(key.name, env)) ==>
      KeyValue(e, grouping, m, cols, out, env, unit) == Read(Tag("", cols), out, None, key.name)
    ensures !IsOrdinal(key, |out|) && !(IsOutputName(key, cols) && !(grouping && IsInputName(key.name, env))) ==>
      KeyValue(e, grouping, m, cols, out, env, unit) == EvalExpr(e, m, env, unit)
  {
  }

  lemma OrdinalRewritten(s: Setting, e: Expr, width: nat)
    ensures IsOrdinal(s.LExpr(e), width) <==> IsOrdinal(e, width)
    ensures IsOrdinal(s.RExpr(e), width) <==> IsOrdinal(e, width)
    ensures IsOrdinal(e, width) ==> s.LExpr(e) == e == s.RExpr(e)
  {
  }

  lemma KeysStep(s: Setting, es: Exprs, m: Site, n: Site)
    requires es.More? && ExprSim(s, es.head, m, n) && KeysSim(s, es.tail, m, n)
    ensures KeysSim(s, es, m, n)
  {
    assert s.LExprs(es) == More(s.LExpr(es.head), s.LExprs(es.tail));
    assert s.RExprs(es) == More(s.RExpr(es.head), s.RExprs(es.tail));
    forall x, y, u, w, cols, a, b, grouping |
      EnvAgree(s.secret, x, y) && UnitsAgree(s.secret, u, w) && RowAgree(s.secret, cols, a, b)
          && OrdinalsAgree(es, a, b)
      ensures KeyValues(s.LExprs(es), grouping, m, cols, a, x, u) == KeyValues(s.RExprs(es), grouping, n, cols, b, y, w)
    {
      KeySim(s, es.head, grouping, m, n, cols, a, b, x, y, u, w);
      assert KeyValues(s.LExprs(es.tail), grouping, m, cols, a, x, u)
           == KeyValues(s.RExprs(es.tail), grouping, n, cols, b, y, w);
    }
  }

  lemma {:induction false} ItemsSimulate(s: Setting, items: Items, m: Site, n: Site)
    requires s.Valid() && SitesAgree(s, m, n) && ItemsOk(items, s.Rules(), m.ctes.Keys)
    ensures ItemsSim(s, items, m, n)
  {
    match items
    case NoItem =>
    case Star(rest) => ItemsSimulate(s, rest, m, n); StarSim(s, items, m, n);
    case TableStar(_, rest) => ItemsSimulate(s, rest, m, n); TableStarSim(s, items, m, n);
    case Item(e, _, rest) => ItemsSimulate(s, rest, m, n); ExprSimulates(s, e, m, n); ItemSim(s, items, m, n);
  }

  lemma StarSim(s: Setting, items: Items, m: Site, n: Site)
    requires items.Star? && ItemsSim(s, items.rest, m, n)
    ensures ItemsSim(s, items, m, n)
  {
    assert s.LItems(items) == Star(s.LItems(items.rest)) && s.RItems(items) == Star(s.RItems(items.rest));
    forall x, y, u, w | EnvAgree(s.secret, x, y) && x.Inside? && UnitsAgree(s.secret, u, w)
      ensures ItemsAgree(s, items, m, n, x, y, u, w)
    {
      assert ItemsAgree(s, items.rest, m, n, x, y, u, w);
      var fields := x.shape.fields;
      RowAgreeJoined(s.secret, FieldNames(fields), s.Names(items.rest, fields), x.row,
                     EvalItems(s.LItems(items.rest), m, x, u),
                     y.row, EvalItems(s.RItems(items.rest), n, y, w));
    }
  }

  lemma TableStarSim(s: Setting, items: Items, m: Site, n: Site)
    requires items.TableStar? && ItemsSim(s, items.rest, m, n)
    ensures ItemsSim(s, items, m, n)
  {
    var q := items.qualifier;
    assert s.LItems(items) == TableStar(q, s.LItems(items.rest));
    assert s.RItems(items) == TableStar(q, s.RItems(items.rest));
    forall x, y, u, w | EnvAgree(s.secret, x, y) && x.Inside? && UnitsAgree(s.secret, u, w)
      ensures ItemsAgree(s, items, m, n, x, y, u, w)
    {
      assert ItemsAgree(s, items.rest, m, n, x, y, u, w);
      var fields := x.shape.fields;
      PickAgree(s.secret, fields, x.row, y.row, q);
      RowAgreeJoined(s.secret, PickNames(fields, q), s.Names(items.rest, fields),
                     PickValues(fields, x.row, q), EvalItems(s.LItems(items.rest), m, x, u),
                     PickValues(fields, y.row, q), EvalItems(s.RItems(items.rest), n, y, w));
    }
  }

  /** Agreement of rows after one more equal cell in front. */
  lemma OneCellMore(secret: set<string>, name: string, names: seq<string>, v: Value, a: Row, b: Row, lead: nat)
    requires RowAgree(secret, names, a, b) && lead <= |a| && a[..lead] == b[..lead]
    ensures RowAgree(secret, [name] + names, [v] + a, [v] + b)
    ensures lead + 1 <= |[v] + a| && ([v] + a)[..lead + 1] == ([v] + b)[..lead + 1]
  {
    RowAgreeJoined(secret, [name], names, [v], a, [v], b);
    assert ([v] + a)[..lead + 1] == [v] + a[..lead] && ([v] + b)[..lead + 1] == [v] + b[..lead];
  }

  lemma ItemSim(s: Setting, items: Items, m: Site, n: Site)
    requires items.Item? && ItemsSim(s, items.rest, m, n) && ExprSim(s, items.e, m, n)
    ensures ItemsSim(s, items, m, n)
  {
    var e, rest := items.e, items.rest;
    forall x, y, u, w | EnvAgree(s.secret, x, y) && x.Inside? && UnitsAgree(s.secret, u, w)
      ensures ItemsAgree(s, items, m, n, x, y, u, w)
    {
      assert ItemsAgree(s, rest, m, n, x, y, u, w);
      var v := EvalExpr(s.LExpr(e), m, x, u);
      assert v == EvalExpr(s.RExpr(e), n, y, w);
      var a, b := EvalItems(s.LItems(rest), m, x, u), EvalItems(s.RItems(rest), n, y, w);
      ItemUnfolded(s, items, m, x, u, s.scope);
      ItemUnfolded(s, items, n, y, w, s.RightScope());
      OneCellMore(s.secret, ItemName(MaskItems(items, s.secret)), s.Names(rest, x.shape.fields), v, a, b,
                  Leading(rest));
      assert s.Names(items, x.shape.fields) == [ItemName(MaskItems(items, s.secret))] + s.Names(rest, x.shape.fields);
    }
  }

  lemma ItemUnfolded(s: Setting, items: Items, m: Site, env: Env, unit: seq<Env>, scope: Scope)
    requires items.Item? && env.Inside?
    ensures EvalItems(MaskItems(ScopeItems(items, scope), s.secret), m, env, unit)
         == [EvalExpr(MaskExpr(ScopeExpr(items.e, scope), s.secret), m, env, unit)]
            + EvalItems(MaskItems(ScopeItems(items.rest, scope), s.secret), m, env, unit)
  {
    var e := ScopeExpr(items.e, scope);
    if IsMasked(e, s.secret) {
      assert MaskExpr(e, s.secret) == Const(Null);
    }
  }
}
