/** `SELECT items FROM sources WHERE condition`, without grouping, duplicates, order or limit. */
module PlainSelects {
  import opened Wrappers
  import opened Sequences
  import opened SqlAst
  import opened SqlSemantics
  import opened Rewrites
  import opened Agreement
  import opened Identifiers
  import opened Fragment
  import opened SimulationProof

  function Plain(items: Items, from: From, where: Cond): Query {
    Select(false, items, from, where, NoExpr, Always, NoExpr, [], None, false, false)
  }

  function Only(source: Source): From {
    Join(NoFrom, Inner, source, Always)
  }

  /** The projected row of a row. */
  function RowOut(items: Items, m: Site, shape: Shape, env: Env): Row -> Row {
    row => EvalItems(items, m, Inside(shape, row, env), [Inside(shape, row, env)])
  }

  lemma SingleUnit(items: Items, m: Site, shape: Shape, env: Env, row: Row)
    ensures OutRow(items, m, shape, env)([row]) == RowOut(items, m, shape, env)(row)
  {
    assert UnitEnv(shape, [row], env) == Inside(shape, row, env);
    assert UnitEnvs(shape, [row], env) == [Inside(shape, row, env)];
  }

  lemma PlainBlock(items: Items, m: Site, shape: Shape, cols: seq<string>, kept: seq<Row>, env: Env)
    ensures RowsOf(Block(items, NoExpr, false, Always, NoExpr, m, shape, cols, kept, env))
         == Map(RowOut(items, m, shape, env), kept)
  {
    FilterAll(UnitTest(Always, m, shape, env), Map(Singleton(), kept));
    forall i | 0 <= i < |kept|
      ensures OutRow(items, m, shape, env)([kept[i]]) == RowOut(items, m, shape, env)(kept[i])
    {
      SingleUnit(items, m, shape, env, kept[i]);
    }
  }

  lemma PlainMeans(items: Items, from: From, where: Cond, m: Site, env: Env)
    requires !ItemsAggregate(items)
    ensures var j := EvalFrom(from, m, env);
      Eval(Plain(items, from, where), m, env)
      == Relation(ItemNames(items, j.shape.fields),
                  Map(RowOut(items, m, j.shape, env), Filter(RowTest(where, m, j.shape, env), j.rows)))
  {
    var q, j := Plain(items, from, where), EvalFrom(from, m, env);
    SelectUnfolded(q, m, env);
    PlainBlock(items, m, j.shape, ItemNames(items, j.shape.fields), Filter(RowTest(where, m, j.shape, env), j.rows),
               env);
  }

  lemma StarNames(fields: seq<Field>)
    ensures ItemNames(Star(NoItem), fields) == FieldNames(fields)
  {
    assert ItemNames(NoItem, fields) == [];
  }

  lemma StarOut(m: Site, shape: Shape, env: Env, rows: seq<Row>)
    ensures Map(RowOut(Star(NoItem), m, shape, env), rows) == rows
  {
    forall i | 0 <= i < |rows| ensures RowOut(Star(NoItem), m, shape, env)(rows[i]) == rows[i] {
      var inside := Inside(shape, rows[i], env);
      assert EvalItems(NoItem, m, inside, [inside]) == [];
      assert EvalItems(Star(NoItem), m, inside, [inside]) == rows[i] + [];
    }
  }

  /** SELECT * returns the kept rows. */
  lemma StarMeans(from: From, where: Cond, m: Site, env: Env)
    ensures var j := EvalFrom(from, m, env);
      Eval(Plain(Star(NoItem), from, where), m, env)
      == Relation(FieldNames(j.shape.fields), Filter(RowTest(where, m, j.shape, env), j.rows))
  {
    var j := EvalFrom(from, m, env);
    assert !ItemsAggregate(Star(NoItem));
    PlainMeans(Star(NoItem), from, where, m, env);
    StarNames(j.shape.fields);
    StarOut(m, j.shape, env, Filter(RowTest(where, m, j.shape, env), j.rows));
  }

  // ---- One source ----

  function OneShape(alias: string, cols: seq<string>): Shape {
    JoinShape(Shape({}, []), alias, cols)
  }

  lemma OneFields(alias: string, cols: seq<string>)
    ensures OneShape(alias, cols).fields == Tag(alias, cols) && FieldNames(OneShape(alias, cols).fields) == cols
  {
    TagNames(alias, cols);
  }

  lemma {:induction false} UnitJoin(on: Row -> bool, rs: seq<Row>)
    requires forall r | r in rs :: on(r)
    ensures Matches(on, [], rs) == rs
  {
    if rs != [] {
      assert [] + rs[0] == rs[0];
      UnitJoin(on, rs[1..]);
    }
  }

  lemma OneSource(source: Source, m: Site, env: Env)
    ensures var r := EvalSource(source, m, env);
      EvalFrom(Only(source), m, env) == Joined(OneShape(source.Qualifier(), r.cols), r.rows)
  {
    var r := EvalSource(source, m, env);
    assert EvalFrom(NoFrom, m, env) == Joined(Shape({}, []), [[]]);
    var on := RowTest(Always, m, OneShape(source.Qualifier(), r.cols), env);
    UnitJoin(on, r.rows);
    var unit: seq<Row> := [[]];
    assert unit[1..] == [];
    assert LeftPart(on, false, |r.cols|, unit, r.rows) == LeftHead(on, false, |r.cols|, [], r.rows) + [];
  }

  lemma OnlyFacts(source: Source, s: Scope)
    requires source.Table?
    ensures TableQualifiers(Only(source)) == [source.Qualifier()] && Aliases(Only(source)) == {Fold(source.Qualifier())}
    ensures ScopeFrom(Only(source), s) == Only(source)
  {
    assert TableQualifiers(NoFrom) == [] && Aliases(NoFrom) == {} && ScopeFrom(NoFrom, s) == NoFrom;
    assert ScopeSource(source, s) == source && ScopeCond(Always, s) == Always;
  }

  lemma OnlyOk(source: Source, rules: Rules)
    requires source.Table? && rules.only.None?
    ensures FromOk(Only(source), rules, {})
  {
    assert FromOk(NoFrom, rules, {}) && Aliases(NoFrom) == {} && TableQualifiers(NoFrom) == [];
    assert SourceOk(source, rules, {}) && CondOk(Always, rules, {});
  }

  /** A SELECT of one column. */
  function OneItem(e: Expr, name: string): Items {
    Item(e, Some(name), NoItem)
  }

  lemma OneItemMeans(e: Expr, name: string, m: Site, shape: Shape, env: Env, row: Row)
    ensures ItemNames(OneItem(e, name), shape.fields) == [name]
    ensures RowOut(OneItem(e, name), m, shape, env)(row)
         == [EvalExpr(e, m, Inside(shape, row, env), [Inside(shape, row, env)])]
    ensures ItemsAggregate(OneItem(e, name)) <==> HasAggregate(e)
  {
    var inside := Inside(shape, row, env);
    assert ItemNames(NoItem, shape.fields) == [] && !ItemsAggregate(NoItem);
    assert EvalItems(NoItem, m, inside, [inside]) == [];
    assert EvalItems(OneItem(e, name), m, inside, [inside]) == [EvalExpr(e, m, inside, [inside])] + [];
  }

  // ---- Rewriting ----

  lemma PlainScoped(items: Items, from: From, where: Cond, s: Scope)
    ensures ScopeQuery(Plain(items, from, where), s)
         == Plain(ScopeItems(items, s), ScopeFrom(from, s), ScopedWhere(ScopeCond(where, s), from, s))
  {
    assert ScopeExprs(NoExpr, s) == NoExpr && ScopeCond(Always, s) == Always;
  }

  lemma PlainMasked(items: Items, from: From, where: Cond, masked: set<string>)
    ensures MaskQuery(Plain(items, from, where), masked)
         == Plain(MaskItems(items, masked), MaskFrom(from, masked), MaskCond(where, masked))
  {
    assert MaskExprs(NoExpr, masked) == NoExpr && MaskCond(Always, masked) == Always;
  }
}
