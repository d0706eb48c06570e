/** The induction over statements behind `Redaction`: without masked values in the database, masking changes nothing. */
module RedactionProof {
  import opened Wrappers
  import opened Identifiers
  import opened Sequences
  import opened SqlAst
  import opened SqlSemantics
  import opened Rewrites
  import opened RewriteFacts
  import opened Fragment
  import opened Agreement
  import opened SimulationProof
  import opened Redaction

  // ---- Names ----

  lemma {:induction false} NamesHonest(items: Items, masked: set<string>, fields: seq<Field>)
    requires HonestItems(items, masked)
    ensures ItemNames(MaskItems(items, masked), fields) == ItemNames(items, fields)
  {
    match items
    case NoItem =>
    case Star(rest) => NamesHonest(rest, masked, fields);
    case TableStar(_, rest) => NamesHonest(rest, masked, fields);
    case Item(_, _, rest) =>
      NamesHonest(rest, masked, fields);
      ItemNameMasked(items, masked);
  }

  lemma {:induction false} ListedNames(items: Items, fields: seq<Field>)
    requires StarFreeItems(items)
    ensures ItemNames(items, fields) == Listed(items)
  {
    if items.Item? {
      ListedNames(items.rest, fields);
    }
  }

  lemma {:induction false} OutputNamed(q: Query, m: Site, env: Env)
    requires StarFree(q)
    ensures Eval(q, m, env).cols == OutputNames(q)
  {
    match q
    case Select(_, items, from, _, _, _, _, _, _, _, _) => ListedNames(items, EvalFrom(from, m, env).shape.fields);
    case SetOp(_, left, _) => OutputNamed(left, m, env);
    case With(name, body, main) => OutputNamed(main, m.(ctes := m.ctes[Fold(name) := Eval(body, m, env)]), env);
    case Mutation(_) =>
  }

  // ---- Rows that are moved about ----

  lemma MapSame<S, T>(f: S -> T, g: S -> T, s: seq<S>)
    requires forall x | x in s :: f(x) == g(x)
    ensures Map(f, s) == Map(g, s)
  {
  }

  lemma {:induction false} KeyRows(key: seq<Value>, ks: seq<Keyed>, row: Row)
    ensures row in WithKey(key, ks) ==> exists k | k in ks :: k.row == row
    ensures forall k | k in WithoutKey(key, ks) :: k in ks
  {
    if ks != [] {
      KeyRows(key, ks[1..], row);
      assert ks == [ks[0]] + ks[1..];
    }
  }

  /** Every row of a group is one of the grouped rows. */
  lemma {:induction false} GroupRows(ks: seq<Keyed>, unit: seq<Row>, row: Row)
    requires unit in Groups(ks) && row in unit
    ensures exists k | k in ks :: k.row == row
    decreases |ks|
  {
    if ks != [] {
      KeyRows(ks[0].key, ks[1..], row);
      assert ks == [ks[0]] + ks[1..];
      if unit != [ks[0].row] + WithKey(ks[0].key, ks[1..]) {
        GroupRows(WithoutKey(ks[0].key, ks[1..]), unit, row);
      }
    }
  }

  lemma {:induction false} InsertKeeps(k: Keyed, ks: seq<Keyed>, descending: seq<bool>, engine: Engine)
    ensures forall x | x in Insert(k, ks, descending, engine) :: x == k || x in ks
  {
    if ks != [] {
      InsertKeeps(k, ks[..|ks| - 1], descending, engine);
    }
  }

  lemma {:induction false} SortKeeps(ks: seq<Keyed>, descending: seq<bool>, engine: Engine)
    ensures forall x | x in Sort(ks, descending, engine) :: x in ks
  {
    if ks != [] {
      SortKeeps(ks[..|ks| - 1], descending, engine);
      InsertKeeps(ks[|ks| - 1], Sort(ks[..|ks| - 1], descending, engine), descending, engine);
    }
  }

  lemma {:induction false} DistinctKeeps(ks: seq<Keyed>)
    ensures forall x | x in DistinctKeyed(ks) :: x in ks
  {
    if ks != [] {
      DistinctKeeps(ks[..|ks| - 1]);
    }
  }

  lemma FinishCleared(masked: set<string>, cols: seq<string>, ks: seq<Keyed>, distinct: bool, ordered: bool,
                      descending: seq<bool>, limit: Option<nat>, engine: Engine)
    requires forall k | k in ks :: Cleared(masked, cols, k.row)
    ensures ClearedAll(masked, cols, Finish(ks, distinct, ordered, descending, limit, engine))
  {
    var unique := if distinct then DistinctKeyed(ks) else ks;
    DistinctKeeps(ks);
    SortKeeps(unique, descending, engine);
    var sorted := if ordered then Sort(unique, descending, engine) else unique;
    forall row | row in RowsOf(sorted) ensures Cleared(masked, cols, row) {
      var i :| 0 <= i < |sorted| && sorted[i].row == row;
      assert sorted[i] in ks;
    }
  }

  lemma CombineCleared(masked: set<string>, op: SetOperator, l: Relation, r: Relation)
    requires ClearedRelation(masked, l) && ClearedRelation(masked, r) && Aligned(l.cols, r.cols, masked)
    ensures ClearedRelation(masked, Combine(op, l, r))
  {
    var left, right := Fit(l.rows, |l.cols|), Fit(r.rows, |l.cols|);
    FitCleared(masked, l.cols, l);
    FitCleared(masked, l.cols, r);
    DistinctRowsFrom(left + right);
    SharedFrom(left, right, true);
    SharedFrom(left, right, false);
    DistinctRowsFrom(Shared(left, right, true));
    DistinctRowsFrom(Shared(left, right, false));
  }

  lemma FitCleared(masked: set<string>, cols: seq<string>, r: Relation)
    requires ClearedRelation(masked, r) && Aligned(cols, r.cols, masked)
    ensures ClearedAll(masked, cols, Fit(r.rows, |cols|))
  {
    forall row | row in Fit(r.rows, |cols|) ensures Cleared(masked, cols, row) {
      var i :| 0 <= i < |r.rows| && Fit(r.rows, |cols|)[i] == row;
      assert r.rows[i] in r.rows;
    }
  }

  // ---- SELECT, given its parts ----

  lemma UnitCleared(masked: set<string>, shape: Shape, unit: seq<Row>, env: Env)
    requires ClearedEnv(masked, env) && ClearedAll(masked, FieldNames(shape.fields), unit)
    ensures ClearedEnv(masked, UnitEnv(shape, unit, env)) && ClearedEnvs(masked, UnitEnvs(shape, unit, env))
  {
    forall i | 0 <= i < |unit| ensures ClearedEnv(masked, UnitEnvs(shape, unit, env)[i]) {
      assert unit[i] in unit;
    }
  }

  lemma UnitsCleared(masked: set<string>, groupBy: Exprs, grouped: bool, out: seq<Row> -> Row, m: Site,
                     cols: seq<string>, shape: Shape, rows: seq<Row>, env: Env)
    requires ClearedAll(masked, FieldNames(shape.fields), rows)
    ensures forall unit | unit in Units(groupBy, grouped, out, m, cols, shape, rows, env) ::
      ClearedAll(masked, FieldNames(shape.fields), unit)
  {
    forall unit | unit in Units(groupBy, grouped, out, m, cols, shape, rows, env)
      ensures ClearedAll(masked, FieldNames(shape.fields), unit)
    {
      if grouped && groupBy.More? {
        var ks := Map(GroupKey(groupBy, out, m, cols, shape, env), rows);
        forall row | row in unit ensures row in rows {
          GroupRows(ks, unit, row);
        }
      }
    }
  }

  // ---- Every node ----

  lemma {:induction false} QueryKept(q: Query, masked: set<string>, m: Site, env: Env)
    requires Honest(q, masked) && ClearedSite(masked, m) && ClearedEnv(masked, env)
    ensures Eval(MaskQuery(q, masked), m, env) == Eval(q, m, env)
    ensures ClearedRelation(masked, Eval(q, m, env))
    decreases q, 5
  {
    match q
    case Select(_, _, _, _, _, _, _, _, _, _, _) => SelectKept(q, masked, m, env);
    case SetOp(op, left, right) =>
      QueryKept(left, masked, m, env);
      QueryKept(right, masked, m, env);
      OutputNamed(left, m, env);
      OutputNamed(right, m, env);
      CombineCleared(masked, op, Eval(left, m, env), Eval(right, m, env));
    case With(name, body, main) =>
      QueryKept(body, masked, m, env);
      QueryKept(main, masked, m.(ctes := m.ctes[Fold(name) := Eval(body, m, env)]), env);
    case Mutation(_) =>
  }

  lemma {:induction false} SelectKept(q: Query, masked: set<string>, m: Site, env: Env)
    requires q.Select? && Honest(q, masked) && ClearedSite(masked, m) && ClearedEnv(masked, env)
    ensures Eval(MaskQuery(q, masked), m, env) == Eval(q, m, env)
    ensures ClearedRelation(masked, Eval(q, m, env))
    decreases q, 4
  {
    var l := MaskQuery(q, masked);
    FromKept(q.from, masked, m, env);
    var j := EvalFrom(q.from, m, env);
    var kept := Filter(RowTest(q.where, m, j.shape, env), j.rows);
    var cols := ItemNames(q.items, j.shape.fields);
    WhereKept(q.where, masked, m, j.shape, j.rows, env);
    BlockKept(q, masked, m, j.shape, kept, env);
    SameGrouping(q, masked);
    NamesHonest(q.items, masked, j.shape.fields);
    SelectUnfolded(l, m, env);
    SelectUnfolded(q, m, env);
    var grouped := IsGrouped(q.groupBy, q.items, q.having, q.orderBy);
    FinishCleared(masked, cols, Block(q.items, q.groupBy, grouped, q.having, q.orderBy, m, j.shape, cols, kept, env),
                  q.distinct, q.orderBy.More?, q.descending, q.limit, m.db.engine);
  }

  lemma SameGrouping(q: Query, masked: set<string>)
    requires q.Select?
    ensures IsGrouped(MaskExprs(q.groupBy, masked), MaskItems(q.items, masked), MaskCond(q.having, masked),
                      MaskExprs(q.orderBy, masked))
         == IsGrouped(q.groupBy, q.items, q.having, q.orderBy)
  {
    ItemsAggregateMasked(q.items, masked);
    AnyAggregateMasked(q.orderBy, masked);
  }

  lemma {:induction false} WhereKept(c: Cond, masked: set<string>, m: Site, shape: Shape, rows: seq<Row>, env: Env)
    requires HonestCond(c, masked) && ClearedSite(masked, m) && ClearedEnv(masked, env)
    requires ClearedAll(masked, FieldNames(shape.fields), rows)
    ensures Filter(RowTest(MaskCond(c, masked), m, shape, env), rows) == Filter(RowTest(c, m, shape, env), rows)
    decreases c, 1
  {
    forall row | row in rows
      ensures RowTest(MaskCond(c, masked), m, shape, env)(row) == RowTest(c, m, shape, env)(row)
    {
      CondKept(c, masked, m, Inside(shape, row, env), []);
    }
    FilterSame(RowTest(MaskCond(c, masked), m, shape, env), RowTest(c, m, shape, env), rows);
  }

  /** The projected row of a unit. */
  lemma {:induction false} OutKept(items: Items, masked: set<string>, m: Site, shape: Shape, unit: seq<Row>, env: Env)
    requires HonestItems(items, masked) && ClearedSite(masked, m) && ClearedEnv(masked, env)
    requires ClearedAll(masked, FieldNames(shape.fields), unit)
    ensures OutRow(MaskItems(items, masked), m, shape, env)(unit) == OutRow(items, m, shape, env)(unit)
    ensures Cleared(masked, ItemNames(items, shape.fields), OutRow(items, m, shape, env)(unit))
    decreases items, 1
  {
    UnitCleared(masked, shape, unit, env);
    ItemsKept(items, masked, m, UnitEnv(shape, unit, env), UnitEnvs(shape, unit, env));
  }

  lemma {:induction false} GroupKeyKept(q: Query, masked: set<string>, m: Site, shape: Shape, row: Row, env: Env)
    requires q.Select? && Honest(q, masked) && ClearedSite(masked, m) && ClearedEnv(masked, env)
    requires Cleared(masked, FieldNames(shape.fields), row)
    ensures var cols := ItemNames(q.items, shape.fields);
      GroupKey(MaskExprs(q.groupBy, masked), OutRow(MaskItems(q.items, masked), m, shape, env), m, cols, shape,
               env)(row)
      == GroupKey(q.groupBy, OutRow(q.items, m, shape, env), m, cols, shape, env)(row)
    decreases q, 1
  {
    OutKept(q.items, masked, m, shape, [row], env);
    KeysKept(q.groupBy, true, masked, m, ItemNames(q.items, shape.fields), OutRow(q.items, m, shape, env)([row]),
             Inside(shape, row, env), []);
  }

  lemma {:induction false} OutKeyedKept(q: Query, masked: set<string>, m: Site, shape: Shape, unit: seq<Row>, env: Env)
    requires q.Select? && Honest(q, masked) && ClearedSite(masked, m) && ClearedEnv(masked, env)
    requires ClearedAll(masked, FieldNames(shape.fields), unit)
    ensures var cols := ItemNames(q.items, shape.fields);
      var keyed := OutKeyed(q.orderBy, OutRow(q.items, m, shape, env), m, cols, shape, env)(unit);
      && OutKeyed(MaskExprs(q.orderBy, masked), OutRow(MaskItems(q.items, masked), m, shape, env), m, cols, shape,
                  env)(unit) == keyed
      && Cleared(masked, cols, keyed.row)
    decreases q, 1
  {
    OutKept(q.items, masked, m, shape, unit, env);
    UnitCleared(masked, shape, unit, env);
    KeysKept(q.orderBy, false, masked, m, ItemNames(q.items, shape.fields), OutRow(q.items, m, shape, env)(unit),
             UnitEnv(shape, unit, env), UnitEnvs(shape, unit, env));
  }

  lemma {:induction false} UnitsKept(q: Query, masked: set<string>, m: Site, shape: Shape, rows: seq<Row>, env: Env)
    requires q.Select? && Honest(q, masked) && ClearedSite(masked, m) && ClearedEnv(masked, env)
    requires ClearedAll(masked, FieldNames(shape.fields), rows)
    ensures var cols, grouped := ItemNames(q.items, shape.fields), IsGrouped(q.groupBy, q.items, q.having, q.orderBy);
      Units(MaskExprs(q.groupBy, masked), grouped, OutRow(MaskItems(q.items, masked), m, shape, env), m, cols, shape,
            rows, env)
      == Units(q.groupBy, grouped, OutRow(q.items, m, shape, env), m, cols, shape, rows, env)
    decreases q, 2
  {
    if q.groupBy.More? {
      var cols := ItemNames(q.items, shape.fields);
      var f := GroupKey(MaskExprs(q.groupBy, masked), OutRow(MaskItems(q.items, masked), m, shape, env), m, cols, shape,
                        env);
      var g := GroupKey(q.groupBy, OutRow(q.items, m, shape, env), m, cols, shape, env);
      forall row | row in rows ensures f(row) == g(row) {
        GroupKeyKept(q, masked, m, shape, row, env);
      }
      MapSame(f, g, rows);
    }
  }

  lemma {:induction false} HavingKept(c: Cond, masked: set<string>, m: Site, shape: Shape, units: seq<seq<Row>>,
                                      env: Env)
    requires HonestCond(c, masked) && ClearedSite(masked, m) && ClearedEnv(masked, env)
    requires forall unit | unit in units :: ClearedAll(masked, FieldNames(shape.fields), unit)
    ensures Filter(UnitTest(MaskCond(c, masked), m, shape, env), units) == Filter(UnitTest(c, m, shape, env), units)
    decreases c, 1
  {
    forall unit | unit in units
      ensures UnitTest(MaskCond(c, masked), m, shape, env)(unit) == UnitTest(c, m, shape, env)(unit)
    {
      UnitCleared(masked, shape, unit, env);
      CondKept(c, masked, m, UnitEnv(shape, unit, env), UnitEnvs(shape, unit, env));
    }
    FilterSame(UnitTest(MaskCond(c, masked), m, shape, env), UnitTest(c, m, shape, env), units);
  }

  lemma {:induction false} BlockKept(q: Query, masked: set<string>, m: Site, shape: Shape, kept: seq<Row>, env: Env)
    requires q.Select? && Honest(q, masked) && ClearedSite(masked, m) && ClearedEnv(masked, env)
    requires ClearedAll(masked, FieldNames(shape.fields), kept)
    ensures var cols, grouped := ItemNames(q.items, shape.fields), IsGrouped(q.groupBy, q.items, q.having, q.orderBy);
      var block := Block(q.items, q.groupBy, grouped, q.having, q.orderBy, m, shape, cols, kept, env);
      && Block(MaskItems(q.items, masked), MaskExprs(q.groupBy, masked), grouped, MaskCond(q.having, masked),
               MaskExprs(q.orderBy, masked), m, shape, cols, kept, env) == block
      && forall k | k in block :: Cleared(masked, cols, k.row)
    decreases q, 3
  {
    var cols, grouped := ItemNames(q.items, shape.fields), IsGrouped(q.groupBy, q.items, q.having, q.orderBy);
    var out := OutRow(q.items, m, shape, env);
    var units := Units(q.groupBy, grouped, out, m, cols, shape, kept, env);
    UnitsKept(q, masked, m, shape, kept, env);
    UnitsCleared(masked, q.groupBy, grouped, out, m, cols, shape, kept, env);
    HavingKept(q.having, masked, m, shape, units, env);
    var having := Filter(UnitTest(q.having, m, shape, env), units);
    var f := OutKeyed(MaskExprs(q.orderBy, masked), OutRow(MaskItems(q.items, masked), m, shape, env), m, cols, shape,
                      env);
    var g := OutKeyed(q.orderBy, out, m, cols, shape, env);
    forall unit | unit in having ensures f(unit) == g(unit) && Cleared(masked, cols, g(unit).row) {
      OutKeyedKept(q, masked, m, shape, unit, env);
    }
    MapSame(f, g, having);
    forall k: Keyed | k in Map(g, having) ensures Cleared(masked, cols, k.row) {
      var i :| 0 <= i < |having| && Map(g, having)[i] == k;
      assert having[i] in having;
    }
  }

  lemma {:induction false} FromKept(f: From, masked: set<string>, m: Site, env: Env)
    requires HonestFrom(f, masked) && ClearedSite(masked, m) && ClearedEnv(masked, env)
    ensures EvalFrom(MaskFrom(f, masked), m, env) == EvalFrom(f, m, env)
    ensures var j := EvalFrom(f, m, env); ClearedAll(masked, FieldNames(j.shape.fields), j.rows)
    decreases f, 0
  {
    match f
    case NoFrom =>
    case Join(left, kind, source, on) =>
      FromKept(left, masked, m, env);
      if source.Derived? {
        QueryKept(source.q, masked, m, env);
      }
      var j, r := EvalFrom(left, m, env), EvalSource(source, m, env);
      var shape := JoinShape(j.shape, source.Qualifier(), r.cols);
      var on1, on2 := RowTest(MaskCond(on, masked), m, shape, env), RowTest(on, m, shape, env);
      forall row | Cleared(masked, FieldNames(shape.fields), row) ensures on1(row) == on2(row) {
        CondKept(on, masked, m, Inside(shape, row, env), []);
      }
      JoinCleared(masked, j.shape.fields, source.Qualifier(), r.cols, kind, on1, on2, j.rows, r.rows);
      assert MaskFrom(f, masked)
           == Join(MaskFrom(left, masked), kind, MaskSource(source, masked), MaskCond(on, masked));
  }

  lemma {:induction false} CondKept(c: Cond, masked: set<string>, m: Site, env: Env, unit: seq<Env>)
    requires HonestCond(c, masked) && ClearedSite(masked, m) && ClearedEnv(masked, env) && ClearedEnvs(masked, unit)
    ensures Holds(MaskCond(c, masked), m, env, unit) == Holds(c, m, env, unit)
    decreases c, 0
  {
    if c.If? {
      ExprKept(c.e, masked, m, env, unit);
    }
  }

  lemma {:induction false} ExprKept(e: Expr, masked: set<string>, m: Site, env: Env, unit: seq<Env>)
    requires HonestExpr(e, masked) && ClearedSite(masked, m) && ClearedEnv(masked, env) && ClearedEnvs(masked, unit)
    ensures EvalExpr(MaskExpr(e, masked), m, env, unit) == EvalExpr(e, m, env, unit)
    decreases e, 0
  {
    match e
    case Const(_) =>
    case Col(qualifier, name) =>
      if Fold(name) in masked {
        LookupCleared(masked, env, qualifier, name);
      }
    case Binary(_, l, r) => ExprKept(l, masked, m, env, unit); ExprKept(r, masked, m, env, unit);
    case Not(a) => ExprKept(a, masked, m, env, unit);
    case IsNull(a) => ExprKept(a, masked, m, env, unit);
    case Paren(a) => ExprKept(a, masked, m, env, unit);
    case Cast(a, _) => ExprKept(a, masked, m, env, unit);
    case Case(tests, results, otherwise) =>
      ExprsKept(tests, masked, m, env, unit);
      ExprsKept(results, masked, m, env, unit);
      ExprKept(otherwise, masked, m, env, unit);
    case Call(_, args) => ExprsKept(args, masked, m, env, unit);
    case Aggregate(_, arg) =>
      forall x | x in unit ensures OnEach(MaskExpr(arg, masked), m)(x) == OnEach(arg, m)(x) {
        ExprKept(arg, masked, m, x, []);
      }
      MapSame(OnEach(MaskExpr(arg, masked), m), OnEach(arg, m), unit);
    case Scalar(q) => QueryKept(q, masked, m, env);
    case Exists(q) => QueryKept(q, masked, m, env);
    case In(a, q) => ExprKept(a, masked, m, env, unit); QueryKept(q, masked, m, env);
  }

  lemma {:induction false} ExprsKept(es: Exprs, masked: set<string>, m: Site, env: Env, unit: seq<Env>)
    requires HonestExprs(es, masked) && ClearedSite(masked, m) && ClearedEnv(masked, env) && ClearedEnvs(masked, unit)
    ensures EvalExprs(MaskExprs(es, masked), m, env, unit) == EvalExprs(es, m, env, unit)
    decreases es, 0
  {
    if es.More? {
      ExprKept(es.head, masked, m, env, unit);
      ExprsKept(es.tail, masked, m, env, unit);
    }
  }

  lemma {:induction false} BareMasked(e: Expr, masked: set<string>)
    ensures Bare(MaskExpr(e, masked)) == MaskExpr(Bare(e), masked)
  {
    if e.Paren? {
      BareMasked(e.e, masked);
    }
  }

  /** In parentheses or not. */
  lemma {:induction false} BareValue(e: Expr, m: Site, env: Env, unit: seq<Env>)
    ensures EvalExpr(e, m, env, unit) == EvalExpr(Bare(e), m, env, unit)
  {
    if e.Paren? {
      BareValue(e.e, m, env, unit);
    }
  }

  lemma {:induction false} KeyKept(e: Expr, grouping: bool, masked: set<string>, m: Site, cols: seq<string>, out: Row,
                                   env: Env, unit: seq<Env>)
    requires HonestExpr(e, masked) && ClearedSite(masked, m) && ClearedEnv(masked, env) && ClearedEnvs(masked, unit)
    requires Cleared(masked, cols, out)
    ensures KeyValue(MaskExpr(e, masked), grouping, m, cols, out, env, unit)
         == KeyValue(e, grouping, m, cols, out, env, unit)
    decreases e, 1
  {
    ExprKept(e, masked, m, env, unit);
    BareMasked(e, masked);
    var key := Bare(e);
    KeyCases(e, key, grouping, m, cols, out, env, unit);
    KeyCases(MaskExpr(e, masked), MaskExpr(key, masked), grouping, m, cols, out, env, unit);
    if IsMasked(key, masked) {
      TagNames("", cols);
      ReadCleared(masked, Tag("", cols), out, None, key.name);
      BareValue(MaskExpr(e, masked), m, env, unit);
    }
  }

  lemma {:induction false} KeysKept(keys: Exprs, grouping: bool, masked: set<string>, m: Site, cols: seq<string>,
                                    out: Row, env: Env, unit: seq<Env>)
    requires HonestExprs(keys, masked) && ClearedSite(masked, m) && ClearedEnv(masked, env) && ClearedEnvs(masked, unit)
    requires Cleared(masked, cols, out)
    ensures KeyValues(MaskExprs(keys, masked), grouping, m, cols, out, env, unit)
         == KeyValues(keys, grouping, m, cols, out, env, unit)
    decreases keys, 0
  {
    if keys.More? {
      KeyKept(keys.head, grouping, masked, m, cols, out, env, unit);
      KeysKept(keys.tail, grouping, masked, m, cols, out, env, unit);
    }
  }

  lemma {:induction false} ItemsKept(items: Items, masked: set<string>, m: Site, env: Env, unit: seq<Env>)
    requires HonestItems(items, masked) && ClearedSite(masked, m) && ClearedEnv(masked, env) && env.Inside?
    requires ClearedEnvs(masked, unit)
    ensures EvalItems(MaskItems(items, masked), m, env, unit) == EvalItems(items, m, env, unit)
    ensures Cleared(masked, ItemNames(items, env.shape.fields), EvalItems(items, m, env, unit))
    decreases items, 0
  {
    match items
    case NoItem =>
    case Star(rest) =>
      ItemsKept(rest, masked, m, env, unit);
      ClearedJoined(masked, FieldNames(env.shape.fields), ItemNames(rest, env.shape.fields), env.row,
                    EvalItems(rest, m, env, unit));
    case TableStar(a, rest) =>
      ItemsKept(rest, masked, m, env, unit);
      PickCleared(masked, env.shape.fields, env.row, a);
      ClearedJoined(masked, PickNames(env.shape.fields, a), ItemNames(rest, env.shape.fields),
                    PickValues(env.shape.fields, env.row, a), EvalItems(rest, m, env, unit));
    case Item(e, _, rest) =>
      ItemsKept(rest, masked, m, env, unit);
      ItemKept(items, masked, m, env, unit);
      ClearedJoined(masked, [ItemName(items)], ItemNames(rest, env.shape.fields), [EvalExpr(e, m, env, unit)],
                    EvalItems(rest, m, env, unit));
  }

  lemma {:induction false} ItemKept(items: Items, masked: set<string>, m: Site, env: Env, unit: seq<Env>)
    requires items.Item? && HonestItems(items, masked) && ClearedSite(masked, m) && ClearedEnv(masked, env)
    requires ClearedEnvs(masked, unit)
    ensures EvalExpr(MaskExpr(items.e, masked), m, env, unit) == EvalExpr(items.e, m, env, unit)
    ensures Cleared(masked, [ItemName(items)], [EvalExpr(items.e, m, env, unit)])
    decreases items.e, 1
  {
    ExprKept(items.e, masked, m, env, unit);
    if Fold(ItemName(items)) in masked {
      BareValue(items.e, m, env, unit);
      LookupCleared(masked, env, Bare(items.e).qualifier, Bare(items.e).name);
    }
  }
}
