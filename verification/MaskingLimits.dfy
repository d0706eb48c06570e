/** Where masking relies on `mask_rows`, and where neither suffices: the rewrite does not expand a star, so a
    star that feeds DISTINCT, GROUP BY, ORDER BY, a set operation, IN or a scalar subquery hands masked
    columns on. Each case has two databases that differ in a masked column only and give different records. */
module MaskingLimits {
  import opened Wrappers
  import opened Identifiers
  import opened Sequences
  import opened SqlAst
  import opened SqlSemantics
  import opened Rewrites
  import opened Agreement
  import opened SimulationProof
  import opened RewriteFacts
  import opened PlainSelects
  import opened ResultMasking
  import opened GovernedQuery

  /** SELECT [DISTINCT] * FROM table */
  function AllOf(table: string, distinct: bool): Query {
    Select(distinct, Star(NoItem), Only(Table(table, None)), Always, NoExpr, Always, NoExpr, [], None, false, false)
  }

  /** The masking rewrite leaves a star alone. */
  lemma StarUnmasked(table: string, masked: set<string>)
    ensures MaskItems(Star(NoItem), masked) == Star(NoItem)
    ensures MaskFrom(Only(Table(table, None)), masked) == Only(Table(table, None))
  {
    assert MaskFrom(NoFrom, masked) == NoFrom && MaskItems(NoItem, masked) == NoItem;
    assert MaskSource(Table(table, None), masked) == Table(table, None) && MaskCond(Always, masked) == Always;
  }

  lemma {:induction false} DistinctRowsOf(ks: seq<Keyed>)
    ensures RowsOf(DistinctKeyed(ks)) == DistinctRows(RowsOf(ks))
  {
    if ks != [] {
      var n := |ks| - 1;
      DistinctRowsOf(ks[..n]);
      assert RowsOf(ks)[..n] == RowsOf(ks[..n]);
      var before := DistinctKeyed(ks[..n]);
      var row := ks[n].row;
      assert HasRow(before, row) <==> row in RowsOf(before) by {
        if HasRow(before, row) {
          var i :| 0 <= i < |before| && before[i].row == row;
          assert RowsOf(before)[i] == row;
        }
      }
      assert RowsOf(before + [ks[n]]) == RowsOf(before) + [row];
      assert RowsOf(ks)[n] == row;
    }
  }

  /** The rows a star over one table keeps. */
  lemma TableRows(table: string, m: Site, env: Env)
    ensures var r := Fetch(table, m);
      && EvalFrom(Only(Table(table, None)), m, env) == Joined(OneShape(table, r.cols), r.rows)
      && Filter(RowTest(Always, m, OneShape(table, r.cols), env), r.rows) == r.rows
      && ItemNames(Star(NoItem), OneShape(table, r.cols).fields) == r.cols
  {
    var r := Fetch(table, m);
    assert Table(table, None).Qualifier() == table;
    OneSource(Table(table, None), m, env);
    OneFields(table, r.cols);
    StarNames(OneShape(table, r.cols).fields);
    FilterAll(RowTest(Always, m, OneShape(table, r.cols), env), r.rows);
  }

  /** A masked `SELECT [DISTINCT] *` returns the table, masked columns included; DISTINCT compares them too. */
  lemma StarReturnsTable(table: string, distinct: bool, masked: set<string>, m: Site, env: Env)
    ensures var r := Fetch(table, m);
      Eval(MaskQuery(AllOf(table, distinct), masked), m, env)
          == Relation(r.cols, if distinct then DistinctRows(r.rows) else r.rows)
  {
    var q, r := AllOf(table, distinct), Fetch(table, m);
    var shape := OneShape(table, r.cols);
    StarUnmasked(table, masked);
    assert MaskQuery(q, masked) == q;
    TableRows(table, m, env);
    SelectUnfolded(q, m, env);
    assert !IsGrouped(NoExpr, q.items, Always, NoExpr);
    StarFinished(distinct, m, shape, r, env);
  }

  lemma StarFinished(distinct: bool, m: Site, shape: Shape, r: Relation, env: Env)
    ensures Finish(Block(Star(NoItem), NoExpr, false, Always, NoExpr, m, shape, r.cols, r.rows, env), distinct, false,
                   [], None, m.db.engine)
         == if distinct then DistinctRows(r.rows) else r.rows
  {
    PlainBlock(Star(NoItem), m, shape, r.cols, r.rows, env);
    StarOut(m, shape, env, r.rows);
    DistinctRowsOf(Block(Star(NoItem), NoExpr, false, Always, NoExpr, m, shape, r.cols, r.rows, env));
  }

  lemma ScalarMasked(q: Query, masked: set<string>, m: Site, env: Env, unit: seq<Env>, r: Relation)
    requires Eval(MaskQuery(q, masked), m, env) == r
    ensures EvalExpr(MaskExpr(Scalar(q), masked), m, env, unit) == FirstCell(r)
  {
    assert MaskExpr(Scalar(q), masked) == Scalar(MaskQuery(q, masked));
  }

  lemma InMeans(a: Expr, q: Query, m: Site, env: Env, unit: seq<Env>, r: Relation)
    requires Eval(q, m, env) == r
    ensures EvalExpr(In(a, q), m, env, unit) == Member(EvalExpr(a, m, env, unit), r.rows, m.db.engine)
  {
  }

  lemma InMasked(v: Value, q: Query, masked: set<string>, m: Site, env: Env, unit: seq<Env>, r: Relation)
    requires Eval(MaskQuery(q, masked), m, env) == r
    ensures EvalExpr(MaskExpr(In(Const(v), q), masked), m, env, unit) == Member(v, r.rows, m.db.engine)
  {
    assert MaskExpr(In(Const(v), q), masked) == In(MaskExpr(Const(v), masked), MaskQuery(q, masked));
    InMeans(Const(v), MaskQuery(q, masked), m, env, unit, r);
  }

  /** `(SELECT * FROM t)` as a value shows the column of t, masked or not. */
  lemma ScalarStarShows(table: string, masked: set<string>, m: Site, env: Env, unit: seq<Env>)
    requires |Fetch(table, m).cols| == 1 && Fetch(table, m).rows != []
    ensures EvalExpr(MaskExpr(Scalar(AllOf(table, false)), masked), m, env, unit) == FirstOf(Fetch(table, m).rows[0])
  {
    StarReturnsTable(table, false, masked, m, env);
    ScalarMasked(AllOf(table, false), masked, m, env, unit, Relation(Fetch(table, m).cols, Fetch(table, m).rows));
  }

  /** `v IN (SELECT * FROM t)` tests membership in the column of t, masked or not. */
  lemma InStarShows(v: Value, table: string, masked: set<string>, m: Site, env: Env, unit: seq<Env>)
    requires |Fetch(table, m).cols| == 1
    ensures EvalExpr(MaskExpr(In(Const(v), AllOf(table, false)), masked), m, env, unit)
         == Member(v, Fetch(table, m).rows, m.db.engine)
  {
    StarReturnsTable(table, false, masked, m, env);
    InMasked(v, AllOf(table, false), masked, m, env, unit, Relation(Fetch(table, m).cols, Fetch(table, m).rows));
  }

  // ---- Databases that differ in a masked column only ----

  const SALARY: set<string> := {"salary"}

  function Staff(rows: seq<Row>, engine: Engine): Database {
    Database(map["pay" := Relation(["name", "salary"], rows)], engine)
  }

  function Salaries(rows: seq<Row>, engine: Engine): Database {
    Database(map["pay" := Relation(["salary"], rows)], engine)
  }

  lemma Folds()
    ensures Fold("salary") == "salary" && Fold("name") == "name" && Fold("pay") == "pay" && FoldAll(SALARY) == SALARY
  {
    var s, n, p := Fold("salary"), Fold("name"), Fold("pay");
    assert s == "salary" && n == "name" && p == "pay";
    assert forall c :: c in FoldAll(SALARY) <==> c == "salary";
  }

  lemma StaffAlike(a: seq<Row>, b: seq<Row>, engine: Engine)
    requires |a| == |b| && forall i | 0 <= i < |a| :: |a[i]| == 2 && |b[i]| == 2 && a[i][0] == b[i][0]
    ensures SubjectSeesTheSame([], SALARY, Staff(a, engine), Staff(b, engine))
  {
    Folds();
    var x, y := Staff(a, engine).tables["pay"], Staff(b, engine).tables["pay"];
    CutByNothing(x, engine);
    CutByNothing(y, engine);
    forall i | 0 <= i < |a| ensures Agreeing(SALARY, x.cols)(x.rows[i], y.rows[i]) {}
  }

  lemma SalariesAlike(a: seq<Row>, b: seq<Row>, engine: Engine)
    requires |a| == |b| && forall i | 0 <= i < |a| :: |a[i]| == 1 && |b[i]| == 1
    ensures SubjectSeesTheSame([], SALARY, Salaries(a, engine), Salaries(b, engine))
  {
    Folds();
    var x, y := Salaries(a, engine).tables["pay"], Salaries(b, engine).tables["pay"];
    CutByNothing(x, engine);
    CutByNothing(y, engine);
    forall i | 0 <= i < |a| ensures Agreeing(SALARY, x.cols)(x.rows[i], y.rows[i]) {}
  }

  /** The gateway's answer to a statement without restrictions, with salaries masked. */
  function Answer(q: Query, aliases: map<string, set<string>>, db: Database): Result<seq<Record>, string> {
    Execute(q, [], map[], SALARY, UNFILTERED, aliases, db)
  }

  lemma AnswerMeans(q: Query, aliases: map<string, set<string>>, db: Database)
    ensures Answer(q, aliases, db) == Ok(Records(Run(MaskQuery(q, SALARY), db), UNFILTERED, SALARY, aliases))
  {
    Folds();
  }

  /** A column that `mask_rows` does not know to hide survives it. */
  lemma CellShown(answer: Relation, i: nat, j: nat, aliases: map<string, set<string>>)
    requires i < |answer.rows| && |answer.rows[i]| == |answer.cols| && j < |answer.cols|
    requires !ShouldMask(answer.cols[j], SALARY, aliases)
    requires forall k | j < k < |answer.cols| :: answer.cols[k] != answer.cols[j]
    ensures var record := Records(answer, UNFILTERED, SALARY, aliases)[i];
      answer.cols[j] in record && record[answer.cols[j]] == answer.rows[i][j]
  {
    Folds();
    UnfilteredRecords(answer, SALARY, aliases);
    RecordHolds(answer.cols, answer.rows[i], j);
  }

  lemma {:induction false} RecordHolds(cols: seq<string>, row: Row, j: nat)
    requires |row| == |cols| && j < |cols| && forall k | j < k < |cols| :: cols[k] != cols[j]
    ensures cols[j] in ToRecord(cols, row) && ToRecord(cols, row)[cols[j]] == row[j]
  {
    if j < |cols| - 1 {
      RecordHolds(cols[..|cols| - 1], row[..|row| - 1], j);
    }
  }

  // ---- DISTINCT ----

  lemma CountsDiffer(q: Query, aliases: map<string, set<string>>, left: Database, right: Database)
    requires |Run(MaskQuery(q, SALARY), left).rows| != |Run(MaskQuery(q, SALARY), right).rows|
    ensures Answer(q, aliases, left) != Answer(q, aliases, right)
  {
    AnswerMeans(q, aliases, left);
    AnswerMeans(q, aliases, right);
    RecordCount(Run(MaskQuery(q, SALARY), left), aliases);
    RecordCount(Run(MaskQuery(q, SALARY), right), aliases);
  }

  lemma RecordCount(answer: Relation, aliases: map<string, set<string>>)
    ensures |Records(answer, UNFILTERED, SALARY, aliases)| == |answer.rows|
  {
    UnfilteredRecords(answer, SALARY, aliases);
  }

  lemma DistinctStaff(a: Row, b: Row, engine: Engine)
    ensures |Run(MaskQuery(AllOf("pay", true), SALARY), Staff([a, b], engine)).rows| == if a == b then 1 else 2
  {
    Folds();
    StarReturnsTable("pay", true, SALARY, Site(Staff([a, b], engine), map[]), Top);
    TwoDistinct(a, b);
  }

  /** Two rows of one name, and how they may differ. */
  lemma SameName(engine: Engine) returns (left: Database, right: Database)
    ensures SubjectSeesTheSame([], SALARY, left, right)
    ensures left == Staff([[Str("Ann"), Int(1)], [Str("Ann"), Int(2)]], engine)
    ensures right == Staff([[Str("Ann"), Int(1)], [Str("Ann"), Int(1)]], engine)
  {
    var ann := Str("Ann");
    left, right := Staff([[ann, Int(1)], [ann, Int(2)]], engine), Staff([[ann, Int(1)], [ann, Int(1)]], engine);
    StaffAlike([[ann, Int(1)], [ann, Int(2)]], [[ann, Int(1)], [ann, Int(1)]], engine);
  }

  /** `SELECT DISTINCT * FROM pay`: the number of records depends on the salaries. */
  lemma DistinctStarLeaks(aliases: map<string, set<string>>, engine: Engine) returns (left: Database, right: Database)
    ensures SubjectSeesTheSame([], SALARY, left, right)
    ensures Answer(AllOf("pay", true), aliases, left) != Answer(AllOf("pay", true), aliases, right)
  {
    left, right := SameName(engine);
    DistinctStaff([Str("Ann"), Int(1)], [Str("Ann"), Int(2)], engine);
    DistinctStaff([Str("Ann"), Int(1)], [Str("Ann"), Int(1)], engine);
    assert [Str("Ann"), Int(1)][1] != [Str("Ann"), Int(2)][1];
    CountsDiffer(AllOf("pay", true), aliases, left, right);
  }

  lemma TwoDistinct(a: Row, b: Row)
    ensures DistinctRows([a, b]) == if a == b then [a] else [a, b]
  {
    assert [a, b][..1] == [a] && [a][..0] == [];
    assert DistinctRows([]) == [] && DistinctRows([a]) == [a];
  }

  // ---- A scalar subquery and IN ----

  /** `SELECT e AS header` */
  function Value1(e: Expr, header: string): Query {
    Plain(OneItem(e, header), NoFrom, Always)
  }

  lemma Value1Means(e: Expr, header: string, db: Database, v: Value)
    requires !HasAggregate(e) && !e.Col?
    requires forall env, unit :: EvalExpr(MaskExpr(e, SALARY), Site(db, map[]), env, unit) == v
    ensures Run(MaskQuery(Value1(e, header), SALARY), db) == Relation([header], [[v]])
  {
    var m, shape := Site(db, map[]), Shape({}, []);
    var masked := MaskExpr(e, SALARY);
    AggregateMasked(e, SALARY);
    PlainMasked(OneItem(e, header), NoFrom, Always, SALARY);
    assert MaskItems(NoItem, SALARY) == NoItem && MaskFrom(NoFrom, SALARY) == NoFrom;
    assert MaskItems(OneItem(e, header), SALARY) == OneItem(masked, header);
    OneItemMeans(masked, header, m, shape, Top, []);
    PlainMeans(OneItem(masked, header), NoFrom, Always, m, Top);
    var unit: seq<Row> := [[]];
    FilterAll(RowTest(Always, m, shape, Top), unit);
    assert EvalFrom(NoFrom, m, Top) == Joined(shape, unit);
  }

  /** `SELECT (SELECT * FROM pay) AS top`: the record shows the salary, if the alias is not traced. */
  lemma ScalarStarLeaks(aliases: map<string, set<string>>, engine: Engine) returns (left: Database, right: Database)
    requires !ShouldMask("top", SALARY, aliases)
    ensures SubjectSeesTheSame([], SALARY, left, right)
    ensures var q := Value1(Scalar(AllOf("pay", false)), "top"); Answer(q, aliases, left) != Answer(q, aliases, right)
  {
    var q := Value1(Scalar(AllOf("pay", false)), "top");
    left, right := Salaries([[Int(1)]], engine), Salaries([[Int(2)]], engine);
    SalariesAlike([[Int(1)]], [[Int(2)]], engine);
    ScalarShown(left, Int(1));
    ScalarShown(right, Int(2));
    ShownDiffer(q, "top", Int(1), Int(2), aliases, left, right);
  }

  lemma ScalarShown(db: Database, v: Value)
    requires db == Salaries([[v]], db.engine)
    ensures Run(MaskQuery(Value1(Scalar(AllOf("pay", false)), "top"), SALARY), db) == Relation(["top"], [[v]])
  {
    Folds();
    forall env, unit ensures EvalExpr(MaskExpr(Scalar(AllOf("pay", false)), SALARY), Site(db, map[]), env, unit) == v {
      ScalarStarShows("pay", SALARY, Site(db, map[]), env, unit);
    }
    Value1Means(Scalar(AllOf("pay", false)), "top", db, v);
  }

  lemma ShownDiffer(q: Query, header: string, a: Value, b: Value, aliases: map<string, set<string>>, left: Database,
                    right: Database)
    requires !ShouldMask(header, SALARY, aliases) && a != b
    requires Run(MaskQuery(q, SALARY), left) == Relation([header], [[a]])
    requires Run(MaskQuery(q, SALARY), right) == Relation([header], [[b]])
    ensures Answer(q, aliases, left) != Answer(q, aliases, right)
  {
    AnswerMeans(q, aliases, left);
    AnswerMeans(q, aliases, right);
    CellShown(Relation([header], [[a]]), 0, 0, aliases);
    CellShown(Relation([header], [[b]]), 0, 0, aliases);
  }

  /** `SELECT 1 IN (SELECT * FROM pay) AS hit`: the record tells whether someone earns 1. */
  lemma InStarLeaks(aliases: map<string, set<string>>, engine: Engine) returns (left: Database, right: Database)
    requires !ShouldMask("hit", SALARY, aliases) && engine.equal(Int(1), Int(1)) && !engine.equal(Int(1), Int(2))
    ensures SubjectSeesTheSame([], SALARY, left, right)
    ensures var q := Value1(In(Const(Int(1)), AllOf("pay", false)), "hit");
      Answer(q, aliases, left) != Answer(q, aliases, right)
  {
    var q := Value1(In(Const(Int(1)), AllOf("pay", false)), "hit");
    left, right := Salaries([[Int(1)]], engine), Salaries([[Int(2)]], engine);
    SalariesAlike([[Int(1)]], [[Int(2)]], engine);
    InShown(left, Int(1));
    InShown(right, Int(2));
    ShownDiffer(q, "hit", Bool(true), Bool(false), aliases, left, right);
  }

  lemma InShown(db: Database, v: Value)
    requires db == Salaries([[v]], db.engine) && v.Int?
    ensures Run(MaskQuery(Value1(In(Const(Int(1)), AllOf("pay", false)), "hit"), SALARY), db)
         == Relation(["hit"], [[Bool(db.engine.equal(Int(1), v))]])
  {
    Folds();
    var e, rows := In(Const(Int(1)), AllOf("pay", false)), [[v]];
    assert rows[1..] == [] && FirstOf(rows[0]) == v;
    assert Member(Int(1), rows[1..], db.engine) == Bool(false);
    forall env, unit
      ensures EvalExpr(MaskExpr(e, SALARY), Site(db, map[]), env, unit) == Bool(db.engine.equal(Int(1), v))
    {
      InStarShows(Int(1), "pay", SALARY, Site(db, map[]), env, unit);
    }
    Value1Means(e, "hit", db, Bool(db.engine.equal(Int(1), v)));
  }

  // ---- Set operations ----

  /** `SELECT 0 AS id UNION ALL SELECT * FROM pay`: the salaries stand under the name of the left branch. */
  lemma UnionStarLeaks(aliases: map<string, set<string>>, engine: Engine) returns (left: Database, right: Database)
    requires !ShouldMask("id", SALARY, aliases)
    ensures SubjectSeesTheSame([], SALARY, left, right)
    ensures var q := SetOp(UnionAll, Value1(Const(Int(0)), "id"), AllOf("pay", false));
      Answer(q, aliases, left) != Answer(q, aliases, right)
  {
    var q := SetOp(UnionAll, Value1(Const(Int(0)), "id"), AllOf("pay", false));
    left, right := Salaries([[Int(1)]], engine), Salaries([[Int(2)]], engine);
    SalariesAlike([[Int(1)]], [[Int(2)]], engine);
    UnionShown(left, Int(1));
    UnionShown(right, Int(2));
    AnswerMeans(q, aliases, left);
    AnswerMeans(q, aliases, right);
    CellShown(Relation(["id"], [[Int(0)], [Int(1)]]), 1, 0, aliases);
    CellShown(Relation(["id"], [[Int(0)], [Int(2)]]), 1, 0, aliases);
  }

  lemma UnionShown(db: Database, v: Value)
    requires db == Salaries([[v]], db.engine)
    ensures Run(MaskQuery(SetOp(UnionAll, Value1(Const(Int(0)), "id"), AllOf("pay", false)), SALARY), db)
         == Relation(["id"], [[Int(0)], [v]])
  {
    Folds();
    Value1Means(Const(Int(0)), "id", db, Int(0));
    StarReturnsTable("pay", false, SALARY, Site(db, map[]), Top);
    UnionMeans(Value1(Const(Int(0)), "id"), AllOf("pay", false), db, [Int(0)], [v]);
  }

  lemma UnionMeans(l: Query, r: Query, db: Database, a: Row, b: Row)
    requires |a| == |b| == 1 && Run(MaskQuery(l, SALARY), db) == Relation(["id"], [a])
    requires Run(MaskQuery(r, SALARY), db).rows == [b]
    ensures Run(MaskQuery(SetOp(UnionAll, l, r), SALARY), db) == Relation(["id"], [a, b])
  {
    assert MaskQuery(SetOp(UnionAll, l, r), SALARY) == SetOp(UnionAll, MaskQuery(l, SALARY), MaskQuery(r, SALARY));
    FitsAlready([a], 1);
    FitsAlready([b], 1);
    assert [a] + [b] == [a, b];
  }

  lemma FitsAlready(rows: seq<Row>, width: nat)
    requires forall i | 0 <= i < |rows| :: |rows[i]| == width
    ensures Fit(rows, width) == rows
  {
    forall i | 0 <= i < |rows| ensures Fit(rows, width)[i] == rows[i] {
      assert rows[i] + Nulls(0) == rows[i];
    }
  }

  // ---- Ordinals ----

  /** `SELECT * FROM pay [GROUP BY groupBy] [ORDER BY orderBy] [LIMIT limit]` */
  function Keyed2(groupBy: Exprs, orderBy: Exprs, limit: Option<nat>): Query {
    Select(false, Star(NoItem), Only(Table("pay", None)), Always, groupBy, Always, orderBy, [false], limit, false,
           false)
  }

  function Place(k: int, rest: Exprs): Exprs {
    More(Const(Int(k)), rest)
  }

  lemma OrdinalsUnmasked(groupBy: Exprs, orderBy: Exprs, limit: Option<nat>)
    requires MaskExprs(groupBy, SALARY) == groupBy && MaskExprs(orderBy, SALARY) == orderBy
    ensures MaskQuery(Keyed2(groupBy, orderBy, limit), SALARY) == Keyed2(groupBy, orderBy, limit)
  {
    StarUnmasked("pay", SALARY);
    assert MaskCond(Always, SALARY) == Always;
  }

  lemma PlaceUnmasked(k: int, rest: Exprs)
    requires MaskExprs(rest, SALARY) == rest
    ensures MaskExprs(Place(k, rest), SALARY) == Place(k, rest)
  {
    assert MaskExpr(Const(Int(k)), SALARY) == Const(Int(k));
  }

  lemma PlaceValue(k: int, rest: Exprs, grouping: bool, m: Site, cols: seq<string>, out: Row, env: Env, unit: seq<Env>)
    requires 1 <= k <= |out|
    ensures KeyValues(Place(k, rest), grouping, m, cols, out, env, unit)
         == [out[k - 1]] + KeyValues(rest, grouping, m, cols, out, env, unit)
  {
    assert Bare(Const(Int(k))) == Const(Int(k));
  }

  lemma StarRow(m: Site, shape: Shape, row: Row)
    ensures OutRow(Star(NoItem), m, shape, Top)([row]) == row
  {
    SingleUnit(Star(NoItem), m, shape, Top, row);
    StarOut(m, shape, Top, [row]);
    assert Map(RowOut(Star(NoItem), m, shape, Top), [row])[0] == row;
  }

  /** The answer before DISTINCT, ORDER BY and LIMIT. */
  lemma KeyedUnfolded(groupBy: Exprs, orderBy: Exprs, limit: Option<nat>, rows: seq<Row>, engine: Engine)
    requires !AnyAggregate(orderBy)
    ensures var m, shape := Site(Staff(rows, engine), map[]), OneShape("pay", ["name", "salary"]);
      Run(Keyed2(groupBy, orderBy, limit), Staff(rows, engine))
      == Relation(["name", "salary"],
           Finish(Block(Star(NoItem), groupBy, groupBy.More?, Always, orderBy, m, shape, ["name", "salary"], rows, Top),
                  false, orderBy.More?, [false], limit, engine))
  {
    Folds();
    TableRows("pay", Site(Staff(rows, engine), map[]), Top);
    SelectUnfolded(Keyed2(groupBy, orderBy, limit), Site(Staff(rows, engine), map[]), Top);
    assert !ItemsAggregate(Star(NoItem));
  }

  lemma TwoSorted(x: Keyed, y: Keyed, descending: seq<bool>, engine: Engine)
    ensures Sort([x, y], descending, engine) == if engine.before(descending, y.key, x.key) then [y, x] else [x, y]
  {
    assert [x, y][..1] == [x] && [x][..0] == [];
    assert Sort([], descending, engine) == [] && Sort([x], descending, engine) == [x];
    assert Insert(y, [], descending, engine) == [y];
  }

  /** `SELECT * FROM pay ORDER BY 2 LIMIT 1` of two rows: the row with the lower salary. */
  lemma LowestShown(a: Row, b: Row, engine: Engine)
    requires |a| == 2 && |b| == 2
    ensures Run(MaskQuery(Keyed2(NoExpr, Place(2, NoExpr), Some(1)), SALARY), Staff([a, b], engine))
         == Relation(["name", "salary"], [if engine.before([false], [b[1]], [a[1]]) then b else a])
  {
    PlaceUnmasked(2, NoExpr);
    OrdinalsUnmasked(NoExpr, Place(2, NoExpr), Some(1));
    assert !HasAggregate(Const(Int(2))) && !AnyAggregate(NoExpr);
    KeyedUnfolded(NoExpr, Place(2, NoExpr), Some(1), [a, b], engine);
    SortBlock(a, b, Site(Staff([a, b], engine), map[]));
    FirstOfTwo(Keyed([a[1]], a), Keyed([b[1]], b), engine);
  }

  lemma FirstOfTwo(x: Keyed, y: Keyed, engine: Engine)
    ensures Finish([x, y], false, true, [false], Some(1), engine)
         == [if engine.before([false], y.key, x.key) then y.row else x.row]
  {
    TwoSorted(x, y, [false], engine);
    var rows := RowsOf(Sort([x, y], [false], engine));
    assert rows[..1] == [rows[0]];
  }

  lemma SortBlock(a: Row, b: Row, m: Site)
    requires |a| == 2 && |b| == 2
    ensures Block(Star(NoItem), NoExpr, false, Always, Place(2, NoExpr), m, OneShape("pay", ["name", "salary"]),
                  ["name", "salary"], [a, b], Top)
         == [Keyed([a[1]], a), Keyed([b[1]], b)]
  {
    var shape, cols := OneShape("pay", ["name", "salary"]), ["name", "salary"];
    FilterAll(UnitTest(Always, m, shape, Top), Map(Singleton(), [a, b]));
    var out := OutKeyed(Place(2, NoExpr), OutRow(Star(NoItem), m, shape, Top), m, cols, shape, Top);
    SortedRow(a, m);
    SortedRow(b, m);
    assert Map(Singleton(), [a, b]) == [[a], [b]];
    assert Map(out, [[a], [b]]) == [out([a]), out([b])];
  }

  lemma SortedRow(row: Row, m: Site)
    requires |row| == 2
    ensures var shape := OneShape("pay", ["name", "salary"]);
      OutKeyed(Place(2, NoExpr), OutRow(Star(NoItem), m, shape, Top), m, ["name", "salary"], shape, Top)([row])
          == Keyed([row[1]], row)
  {
    var shape := OneShape("pay", ["name", "salary"]);
    StarRow(m, shape, row);
    PlaceValue(2, NoExpr, false, m, ["name", "salary"], row, UnitEnv(shape, [row], Top), UnitEnvs(shape, [row], Top));
  }

  /** `SELECT * FROM pay ORDER BY 2 LIMIT 1`: the record shows who earns least. */
  lemma OrdinalSortLeaks(aliases: map<string, set<string>>, engine: Engine) returns (left: Database, right: Database)
    requires !ShouldMask("name", SALARY, aliases)
    requires engine.before([false], [Int(1)], [Int(2)]) && !engine.before([false], [Int(2)], [Int(1)])
    ensures SubjectSeesTheSame([], SALARY, left, right)
    ensures var q := Keyed2(NoExpr, Place(2, NoExpr), Some(1)); Answer(q, aliases, left) != Answer(q, aliases, right)
  {
    var q, ann, bob := Keyed2(NoExpr, Place(2, NoExpr), Some(1)), Str("Ann"), Str("Bob");
    left, right := Staff([[ann, Int(1)], [bob, Int(2)]], engine), Staff([[ann, Int(2)], [bob, Int(1)]], engine);
    StaffAlike([[ann, Int(1)], [bob, Int(2)]], [[ann, Int(2)], [bob, Int(1)]], engine);
    LowestShown([ann, Int(1)], [bob, Int(2)], engine);
    LowestShown([ann, Int(2)], [bob, Int(1)], engine);
    FirstCellsDiffer(q, [ann, Int(1)], [bob, Int(1)], aliases, left, right);
  }

  lemma FirstCellsDiffer(q: Query, a: Row, b: Row, aliases: map<string, set<string>>, left: Database, right: Database)
    requires |a| == |b| == 2 && a[0] != b[0] && !ShouldMask("name", SALARY, aliases)
    requires Run(MaskQuery(q, SALARY), left) == Relation(["name", "salary"], [a])
    requires Run(MaskQuery(q, SALARY), right) == Relation(["name", "salary"], [b])
    ensures Answer(q, aliases, left) != Answer(q, aliases, right)
  {
    AnswerMeans(q, aliases, left);
    AnswerMeans(q, aliases, right);
    CellShown(Relation(["name", "salary"], [a]), 0, 0, aliases);
    CellShown(Relation(["name", "salary"], [b]), 0, 0, aliases);
  }

  lemma TwoGroups(x: Keyed, y: Keyed)
    ensures |Groups([x, y])| == if x.key == y.key then 1 else 2
  {
    assert [x, y][1..] == [y] && [y][1..] == [];
    assert WithoutKey(x.key, []) == [] && WithoutKey(x.key, [y]) == if x.key == y.key then [] else [y];
    assert Groups([]) == [] && |Groups([y])| == 1;
  }

  lemma GroupedRow(row: Row, m: Site)
    requires |row| == 2
    ensures var shape := OneShape("pay", ["name", "salary"]);
      GroupKey(Place(1, Place(2, NoExpr)), OutRow(Star(NoItem), m, shape, Top), m, ["name", "salary"], shape, Top)(row)
          == Keyed(row, row)
  {
    var shape, cols := OneShape("pay", ["name", "salary"]), ["name", "salary"];
    StarRow(m, shape, row);
    PlaceValue(1, Place(2, NoExpr), true, m, cols, row, Inside(shape, row, Top), []);
    PlaceValue(2, NoExpr, true, m, cols, row, Inside(shape, row, Top), []);
    assert [row[0]] + ([row[1]] + []) == row;
  }

  lemma GroupBlock(a: Row, b: Row, m: Site)
    requires |a| == 2 && |b| == 2
    ensures |Block(Star(NoItem), Place(1, Place(2, NoExpr)), true, Always, NoExpr, m,
                   OneShape("pay", ["name", "salary"]), ["name", "salary"], [a, b], Top)|
         == if a == b then 1 else 2
  {
    var keys, cols, shape := Place(1, Place(2, NoExpr)), ["name", "salary"], OneShape("pay", ["name", "salary"]);
    var key := GroupKey(keys, OutRow(Star(NoItem), m, shape, Top), m, cols, shape, Top);
    GroupedRow(a, m);
    GroupedRow(b, m);
    assert Map(key, [a, b]) == [Keyed(a, a), Keyed(b, b)];
    TwoGroups(Keyed(a, a), Keyed(b, b));
    FilterAll(UnitTest(Always, m, shape, Top),
              Units(keys, true, OutRow(Star(NoItem), m, shape, Top), m, cols, shape, [a, b], Top));
  }

  /** `SELECT * FROM pay GROUP BY 1, 2` of two rows: as many as are distinct. */
  lemma GroupedStaff(a: Row, b: Row, engine: Engine)
    requires |a| == 2 && |b| == 2
    ensures |Run(MaskQuery(Keyed2(Place(1, Place(2, NoExpr)), NoExpr, None), SALARY), Staff([a, b], engine)).rows|
         == if a == b then 1 else 2
  {
    PlaceUnmasked(2, NoExpr);
    PlaceUnmasked(1, Place(2, NoExpr));
    OrdinalsUnmasked(Place(1, Place(2, NoExpr)), NoExpr, None);
    assert !AnyAggregate(NoExpr);
    KeyedUnfolded(Place(1, Place(2, NoExpr)), NoExpr, None, [a, b], engine);
    GroupBlock(a, b, Site(Staff([a, b], engine), map[]));
  }

  /** `SELECT * FROM pay GROUP BY 1, 2` is DISTINCT by another name. */
  lemma OrdinalGroupLeaks(aliases: map<string, set<string>>, engine: Engine) returns (left: Database, right: Database)
    ensures SubjectSeesTheSame([], SALARY, left, right)
    ensures var q := Keyed2(Place(1, Place(2, NoExpr)), NoExpr, None);
      Answer(q, aliases, left) != Answer(q, aliases, right)
  {
    left, right := SameName(engine);
    GroupedStaff([Str("Ann"), Int(1)], [Str("Ann"), Int(2)], engine);
    GroupedStaff([Str("Ann"), Int(1)], [Str("Ann"), Int(1)], engine);
    assert [Str("Ann"), Int(1)][1] != [Str("Ann"), Int(2)][1];
    CountsDiffer(Keyed2(Place(1, Place(2, NoExpr)), NoExpr, None), aliases, left, right);
  }

  // ---- The row filter ----

  /** `SELECT * FROM pay` through a row filter on the salary, which sees the rows before they are masked. */
  lemma RowFilterLeaks(aliases: map<string, set<string>>, sensitive: set<string>,
                       engine: Engine) returns (left: Database, right: Database)
    ensures SubjectSeesTheSame([], SALARY, left, right)
    ensures var repository := Repository(Some(ColumnFilter("salary", "low")), sensitive);
      Execute(AllOf("pay", false), [], map[], SALARY, repository, aliases, left)
      != Execute(AllOf("pay", false), [], map[], SALARY, repository, aliases, right)
  {
    left, right := Salaries([[Str("low")]], engine), Salaries([[Str("high")]], engine);
    SalariesAlike([[Str("low")]], [[Str("high")]], engine);
    FilteredCount(aliases, sensitive, left, "low");
    FilteredCount(aliases, sensitive, right, "high");
  }

  lemma FilteredCount(aliases: map<string, set<string>>, sensitive: set<string>, db: Database, text: string)
    requires db == Salaries([[Str(text)]], db.engine)
    ensures var repository := Repository(Some(ColumnFilter("salary", "low")), sensitive);
      var answer := Execute(AllOf("pay", false), [], map[], SALARY, repository, aliases, db);
      answer.Ok? && |answer.value| == if text == "low" then 1 else 0
  {
    Folds();
    StarReturnsTable("pay", false, SALARY, Site(db, map[]), Top);
    ExecutedAs(AllOf("pay", false), Repository(Some(ColumnFilter("salary", "low")), sensitive), aliases, db,
               Relation(["salary"], [[Str(text)]]));
    FilteredRecords(aliases, sensitive, text);
  }

  lemma ExecutedAs(q: Query, repository: Repository, aliases: map<string, set<string>>, db: Database, answer: Relation)
    requires Run(MaskQuery(q, SALARY), db) == answer
    ensures Execute(q, [], map[], SALARY, repository, aliases, db) == Ok(Records(answer, repository, SALARY, aliases))
  {
    Folds();
  }

  lemma FilteredRecords(aliases: map<string, set<string>>, sensitive: set<string>, text: string)
    ensures |Records(Relation(["salary"], [[Str(text)]]), Repository(Some(ColumnFilter("salary", "low")), sensitive),
                     SALARY, aliases)|
         == if text == "low" then 1 else 0
  {
    var answer := Relation(["salary"], [[Str(text)]]);
    RecordHolds(["salary"], [Str(text)], 0);
    assert Fetched(answer) == [ToRecord(["salary"], [Str(text)])];
    FilterOne(ColumnFilter("salary", "low"), Fetched(answer)[0]);
  }

  lemma FilterOne(keep: Record -> bool, record: Record)
    ensures Filter(keep, [record]) == if keep(record) then [record] else []
  {
    assert [record][1..] == [];
  }
}
