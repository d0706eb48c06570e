/** What a statement of the fragment returns: an environment-passing evaluator over sequences of rows
    with three-valued logic (NULL is unknown; subclause 8.2 of ISO/IEC 9075-2).

    The evaluator is total. A column name that resolves to nothing reads as NULL, a scalar subquery
    takes its first row, and a set operation fits its right branch to the width of its left one; these
    choices only matter for statements a database would reject. Everything that differs from engine
    to engine (equality of non-NULL values, scalar functions, casts, aggregates, sort order) is a parameter. */
module SqlSemantics {
  import opened Wrappers
  import opened Identifiers
  import opened Sequences
  import opened SqlAst

  type Row = seq<Value>

  datatype Relation = Relation(cols: seq<string>, rows: seq<Row>)

  datatype Field = Field(alias: string, name: string)

  /** The columns a FROM clause brings into scope, and the folded qualifiers of its sources. */
  datatype Shape = Shape(aliases: set<string>, fields: seq<Field>)

  datatype Joined = Joined(shape: Shape, rows: seq<Row>)

  /** Scopes from the innermost out. */
  datatype Env = Top | Inside(shape: Shape, row: Row, outer: Env)

  datatype Engine = Engine(
    equal: (Value, Value) -> bool,
    less: (Value, Value) -> bool,
    call: (string, seq<Value>) -> Value,
    cast: (string, Value) -> Value,
    aggregate: (string, seq<Value>) -> Value,
    before: (seq<bool>, seq<Value>, seq<Value>) -> bool)

  datatype Database = Database(tables: map<string, Relation>, engine: Engine)

  /** A database together with the CTEs in scope. */
  datatype Site = Site(db: Database, ctes: map<string, Relation>)

  datatype Keyed = Keyed(key: seq<Value>, row: Row)

  // ---- Names and rows ----

  predicate Denotes(f: Field, qualifier: Option<string>, name: string) {
    Fold(f.name) == Fold(name) && (qualifier.None? || Fold(f.alias) == Fold(qualifier.value))
  }

  /** The first field a reference denotes, or the number of fields. */
  function Find(fields: seq<Field>, qualifier: Option<string>, name: string): (i: nat)
    ensures i <= |fields|
    ensures i < |fields| ==> Denotes(fields[i], qualifier, name)
    ensures forall j | 0 <= j < i :: !Denotes(fields[j], qualifier, name)
  {
    if fields == [] then 0
    else if Denotes(fields[0], qualifier, name) then 0
    else 1 + Find(fields[1..], qualifier, name)
  }

  function Read(fields: seq<Field>, row: Row, qualifier: Option<string>, name: string): Value {
    var i := Find(fields, qualifier, name);
    if i < |fields| && i < |row| then row[i] else Null
  }

  /** A qualified reference belongs to the innermost scope that declares the qualifier, a bare one to
      the innermost scope that has the column. */
  function Lookup(env: Env, qualifier: Option<string>, name: string): Value {
    match env
    case Top => Null
    case Inside(shape, row, outer) =>
      if (if qualifier.Some? then Fold(qualifier.value) in shape.aliases
          else Find(shape.fields, qualifier, name) < |shape.fields|)
      then Read(shape.fields, row, qualifier, name)
      else Lookup(outer, qualifier, name)
  }

  function Tag(alias: string, cols: seq<string>): (fields: seq<Field>)
    ensures |fields| == |cols|
  {
    seq(|cols|, i requires 0 <= i < |cols| => Field(alias, cols[i]))
  }

  function Nulls(n: nat): Row {
    seq(n, _ => Null)
  }

  function Fit(rows: seq<Row>, width: nat): (r: seq<Row>)
    ensures |r| == |rows|
  {
    seq(|rows|, i requires 0 <= i < |rows| =>
      if |rows[i]| <= width then rows[i] + Nulls(width - |rows[i]|) else rows[i][..width])
  }

  // ---- Three-valued logic ----

  function Truth(op: BinaryOp, a: Value, b: Value, engine: Engine): Value {
    match op
    case Eq => if a.Null? || b.Null? then Null else Bool(engine.equal(a, b))
    case Less => if a.Null? || b.Null? then Null else Bool(engine.less(a, b))
    case And =>
      if a == Bool(false) || b == Bool(false) then Bool(false)
      else if a == Bool(true) && b == Bool(true) then Bool(true) else Null
    case Or =>
      if a == Bool(true) || b == Bool(true) then Bool(true)
      else if a == Bool(false) && b == Bool(false) then Bool(false) else Null
  }

  function Negation(a: Value): Value {
    match a
    case Bool(b) => Bool(!b)
    case _ => Null
  }

  function FirstOf(row: Row): Value {
    if row == [] then Null else row[0]
  }

  function FirstCell(r: Relation): Value {
    if r.rows == [] then Null else FirstOf(r.rows[0])
  }

  /** The result of the first test that is true. */
  function Choose(tests: seq<Value>, results: seq<Value>, otherwise: Value): Value {
    if tests == [] || results == [] then otherwise
    else if tests[0] == Bool(true) then results[0]
    else Choose(tests[1..], results[1..], otherwise)
  }

  function Member(v: Value, rows: seq<Row>, engine: Engine): Value {
    if rows == [] then Bool(false)
    else Truth(Or, Truth(Eq, v, FirstOf(rows[0]), engine), Member(v, rows[1..], engine), engine)
  }

  // ---- Grouping, duplicates and order ----

  function WithKey(key: seq<Value>, ks: seq<Keyed>): seq<Row> {
    if ks == [] then []
    else (if ks[0].key == key then [ks[0].row] else []) + WithKey(key, ks[1..])
  }

  function WithoutKey(key: seq<Value>, ks: seq<Keyed>): (r: seq<Keyed>)
    ensures |r| <= |ks|
  {
    if ks == [] then []
    else (if ks[0].key == key then [] else [ks[0]]) + WithoutKey(key, ks[1..])
  }

  function Groups(ks: seq<Keyed>): seq<seq<Row>>
    decreases |ks|
  {
    if ks == [] then []
    else [[ks[0].row] + WithKey(ks[0].key, ks[1..])] + Groups(WithoutKey(ks[0].key, ks[1..]))
  }

  function Singleton(): Row -> seq<Row> {
    row => [row]
  }

  predicate HasRow(ks: seq<Keyed>, row: Row) {
    exists i | 0 <= i < |ks| :: ks[i].row == row
  }

  function DistinctKeyed(ks: seq<Keyed>): seq<Keyed> {
    if ks == [] then []
    else
      var before := DistinctKeyed(ks[..|ks| - 1]);
      if HasRow(before, ks[|ks| - 1].row) then before else before + [ks[|ks| - 1]]
  }

  function Insert(k: Keyed, ks: seq<Keyed>, descending: seq<bool>, engine: Engine): seq<Keyed> {
    if ks == [] || !engine.before(descending, k.key, ks[|ks| - 1].key) then ks + [k]
    else Insert(k, ks[..|ks| - 1], descending, engine) + [ks[|ks| - 1]]
  }

  function Sort(ks: seq<Keyed>, descending: seq<bool>, engine: Engine): seq<Keyed> {
    if ks == [] then []
    else Insert(ks[|ks| - 1], Sort(ks[..|ks| - 1], descending, engine), descending, engine)
  }

  function RowsOf(ks: seq<Keyed>): (r: seq<Row>)
    ensures |r| == |ks|
  {
    seq(|ks|, i requires 0 <= i < |ks| => ks[i].row)
  }

  /** DISTINCT, ORDER BY and LIMIT over the projected rows. */
  function Finish(ks: seq<Keyed>, distinct: bool, ordered: bool, descending: seq<bool>, limit: Option<nat>,
                  engine: Engine): seq<Row> {
    var unique := if distinct then DistinctKeyed(ks) else ks;
    var rows := RowsOf(if ordered then Sort(unique, descending, engine) else unique);
    if limit.Some? && limit.value < |rows| then rows[..limit.value] else rows
  }

  function DistinctRows(rows: seq<Row>): seq<Row> {
    if rows == [] then []
    else
      var before := DistinctRows(rows[..|rows| - 1]);
      if rows[|rows| - 1] in before then before else before + [rows[|rows| - 1]]
  }

  function Shared(rows: seq<Row>, other: seq<Row>, wanted: bool): seq<Row> {
    if rows == [] then []
    else (if (rows[0] in other) == wanted then [rows[0]] else []) + Shared(rows[1..], other, wanted)
  }

  function Combine(op: SetOperator, l: Relation, r: Relation): Relation {
    var left, right := Fit(l.rows, |l.cols|), Fit(r.rows, |l.cols|);
    Relation(l.cols,
      match op
      case UnionAll => left + right
      case Union => DistinctRows(left + right)
      case Intersect => DistinctRows(Shared(left, right, true))
      case Except => DistinctRows(Shared(left, right, false)))
  }

  // ---- Output columns ----

  function FieldNames(fields: seq<Field>): (r: seq<string>)
    ensures |r| == |fields|
  {
    seq(|fields|, i requires 0 <= i < |fields| => fields[i].name)
  }

  function PickNames(fields: seq<Field>, qualifier: string): seq<string> {
    if fields == [] then []
    else (if Fold(fields[0].alias) == Fold(qualifier) then [fields[0].name] else []) + PickNames(fields[1..], qualifier)
  }

  function PickValues(fields: seq<Field>, row: Row, qualifier: string): Row {
    if fields == [] || row == [] then []
    else
      var first := if Fold(fields[0].alias) == Fold(qualifier) then [row[0]] else [];
      first + PickValues(fields[1..], row[1..], qualifier)
  }

  function ItemName(items: Items): string
    requires items.Item?
  {
    if items.alias.Some? then items.alias.value else DefaultName(items.e)
  }

  function ItemNames(items: Items, fields: seq<Field>): seq<string> {
    match items
    case NoItem => []
    case Star(rest) => FieldNames(fields) + ItemNames(rest, fields)
    case TableStar(a, rest) => PickNames(fields, a) + ItemNames(rest, fields)
    case Item(_, _, rest) => [ItemName(items)] + ItemNames(rest, fields)
  }

  /** An integer literal as a key of ORDER BY or GROUP BY means the output column at that place. */
  predicate IsOrdinal(e: Expr, width: nat) {
    e.Const? && e.v.Int? && 1 <= e.v.n <= width
  }

  /** An unqualified key may name an output column. */
  predicate IsOutputName(e: Expr, cols: seq<string>) {
    e.Col? && e.qualifier.None? && Find(Tag("", cols), None, e.name) < |cols|
  }

  /** The name is a column of the SELECT's own sources. */
  predicate IsInputName(name: string, env: Env) {
    env.Inside? && Find(env.shape.fields, None, name) < |env.shape.fields|
  }

  // ---- Joins ----

  function Matches(on: Row -> bool, l: Row, rs: seq<Row>): seq<Row> {
    if rs == [] then []
    else (if on(l + rs[0]) then [l + rs[0]] else []) + Matches(on, l, rs[1..])
  }

  /** The rows one left row contributes. */
  function LeftHead(on: Row -> bool, keep: bool, width: nat, l: Row, rs: seq<Row>): seq<Row> {
    var found := Matches(on, l, rs);
    if found == [] && keep then [l + Nulls(width)] else found
  }

  function LeftPart(on: Row -> bool, keep: bool, width: nat, ls: seq<Row>, rs: seq<Row>): seq<Row> {
    if ls == [] then []
    else LeftHead(on, keep, width, ls[0], rs) + LeftPart(on, keep, width, ls[1..], rs)
  }

  predicate AnyMatch(on: Row -> bool, ls: seq<Row>, r: Row) {
    ls != [] && (on(ls[0] + r) || AnyMatch(on, ls[1..], r))
  }

  /** A right row that no left row matches, padded. */
  function RightHead(on: Row -> bool, width: nat, ls: seq<Row>, r: Row): seq<Row> {
    if AnyMatch(on, ls, r) then [] else [Nulls(width) + r]
  }

  function RightPart(on: Row -> bool, width: nat, ls: seq<Row>, rs: seq<Row>): seq<Row> {
    if rs == [] then [] else RightHead(on, width, ls, rs[0]) + RightPart(on, width, ls, rs[1..])
  }

  function JoinRows(on: Row -> bool, kind: JoinKind, lwidth: nat, rwidth: nat, ls: seq<Row>, rs: seq<Row>): seq<Row> {
    LeftPart(on, kind.KeepsLeft(), rwidth, ls, rs)
    + (if kind.KeepsRight() then RightPart(on, lwidth, ls, rs) else [])
  }

  function JoinShape(left: Shape, alias: string, cols: seq<string>): Shape {
    Shape(left.aliases + {Fold(alias)}, left.fields + Tag(alias, cols))
  }

  // ---- Evaluation ----

  function EvalExpr(e: Expr, m: Site, env: Env, unit: seq<Env>): Value
    decreases e, 0
  {
    match e
    case Const(v) => v
    case Col(qualifier, name) => Lookup(env, qualifier, name)
    case Binary(op, l, r) => Truth(op, EvalExpr(l, m, env, unit), EvalExpr(r, m, env, unit), m.db.engine)
    case Not(a) => Negation(EvalExpr(a, m, env, unit))
    case IsNull(a) => Bool(EvalExpr(a, m, env, unit).Null?)
    case Paren(a) => EvalExpr(a, m, env, unit)
    case Cast(a, target) => m.db.engine.cast(target, EvalExpr(a, m, env, unit))
    case Case(tests, results, otherwise) =>
      Choose(EvalExprs(tests, m, env, unit), EvalExprs(results, m, env, unit), EvalExpr(otherwise, m, env, unit))
    case Call(fn, args) => m.db.engine.call(fn, EvalExprs(args, m, env, unit))
    case Aggregate(fn, arg) => m.db.engine.aggregate(fn, Map(OnEach(arg, m), unit))
    case Scalar(q) => FirstCell(Eval(q, m, env))
    case Exists(q) => Bool(Eval(q, m, env).rows != [])
    case In(a, q) => Member(EvalExpr(a, m, env, unit), Eval(q, m, env).rows, m.db.engine)
  }

  /** The argument of an aggregate, as a function of the member of the group. */
  function OnEach(e: Expr, m: Site): Env -> Value
    decreases e, 1
  {
    env => EvalExpr(e, m, env, [])
  }

  function EvalExprs(es: Exprs, m: Site, env: Env, unit: seq<Env>): seq<Value>
    decreases es, 0
  {
    match es
    case NoExpr => []
    case More(head, tail) => [EvalExpr(head, m, env, unit)] + EvalExprs(tail, m, env, unit)
  }

  /** A condition holds when it is true: unknown does not hold. */
  predicate Holds(c: Cond, m: Site, env: Env, unit: seq<Env>)
    decreases c, 0
  {
    match c
    case Always => true
    case If(e) => EvalExpr(e, m, env, unit) == Bool(true)
  }

  /** An ON or WHERE condition as a test on joined rows. */
  function RowTest(c: Cond, m: Site, shape: Shape, env: Env): Row -> bool
    decreases c, 1
  {
    row => Holds(c, m, Inside(shape, row, env), [])
  }

  function Fetch(name: string, m: Site): Relation {
    if Fold(name) in m.ctes then m.ctes[Fold(name)]
    else if Fold(name) in m.db.tables then m.db.tables[Fold(name)]
    else Relation([], [])
  }

  function EvalSource(s: Source, m: Site, env: Env): Relation
    decreases s, 0
  {
    match s
    case Table(name, _) => Fetch(name, m)
    case Derived(q, _) => Eval(q, m, env)
  }

  function EvalFrom(f: From, m: Site, env: Env): Joined
    decreases f, 0
  {
    match f
    case NoFrom => Joined(Shape({}, []), [[]])
    case Join(left, kind, source, on) =>
      var j := EvalFrom(left, m, env);
      var r := EvalSource(source, m, env);
      var shape := JoinShape(j.shape, source.Qualifier(), r.cols);
      Joined(shape, JoinRows(RowTest(on, m, shape, env), kind, |j.shape.fields|, |r.cols|, j.rows, r.rows))
  }

  /** One key of ORDER BY or GROUP BY, given the projected row: an ordinal, an output name, or an expression.
      ORDER BY prefers output names over input names and GROUP BY the other way round. */
  function KeyValue(e: Expr, grouping: bool, m: Site, cols: seq<string>, out: Row, env: Env, unit: seq<Env>): Value
    decreases e, 1
  {
    var key := Bare(e);
    if IsOrdinal(key, |out|) then out[key.v.n - 1]
    else if IsOutputName(key, cols) && !(grouping && IsInputName(key.name, env)) then
      Read(Tag("", cols), out, None, key.name)
    else EvalExpr(e, m, env, unit)
  }

  function KeyValues(keys: Exprs, grouping: bool, m: Site, cols: seq<string>, out: Row, env: Env,
                     unit: seq<Env>): seq<Value>
    decreases keys, 0
  {
    match keys
    case NoExpr => []
    case More(head, tail) =>
      [KeyValue(head, grouping, m, cols, out, env, unit)] + KeyValues(tail, grouping, m, cols, out, env, unit)
  }

  /** GROUP BY keys as a function of the row. */
  function GroupKey(keys: Exprs, out: seq<Row> -> Row, m: Site, cols: seq<string>, shape: Shape, env: Env): Row -> Keyed
    decreases keys, 1
  {
    row => Keyed(KeyValues(keys, true, m, cols, out([row]), Inside(shape, row, env), []), row)
  }

  /** The units of projection: single rows, or groups. */
  function Units(groupBy: Exprs, grouped: bool, out: seq<Row> -> Row, m: Site, cols: seq<string>, shape: Shape,
                 rows: seq<Row>, env: Env): seq<seq<Row>>
    decreases groupBy, 2
  {
    if !grouped then Map(Singleton(), rows)
    else if groupBy.NoExpr? then [rows]
    else Groups(Map(GroupKey(groupBy, out, m, cols, shape, env), rows))
  }

  function UnitEnvs(shape: Shape, unit: seq<Row>, env: Env): (r: seq<Env>)
    ensures |r| == |unit|
  {
    seq(|unit|, i requires 0 <= i < |unit| => Inside(shape, unit[i], env))
  }

  /** The scope in which a unit is projected. */
  function UnitEnv(shape: Shape, unit: seq<Row>, env: Env): (r: Env)
    ensures r.Inside? && r.shape == shape && r.outer == env
  {
    Inside(shape, if unit == [] then Nulls(|shape.fields|) else unit[0], env)
  }

  function UnitTest(c: Cond, m: Site, shape: Shape, env: Env): seq<Row> -> bool
    decreases c, 1
  {
    unit => Holds(c, m, UnitEnv(shape, unit, env), UnitEnvs(shape, unit, env))
  }

  function EvalItems(items: Items, m: Site, env: Env, unit: seq<Env>): Row
    requires env.Inside?
    decreases items, 0
  {
    match items
    case NoItem => []
    case Star(rest) => env.row + EvalItems(rest, m, env, unit)
    case TableStar(a, rest) => PickValues(env.shape.fields, env.row, a) + EvalItems(rest, m, env, unit)
    case Item(e, _, rest) => [EvalExpr(e, m, env, unit)] + EvalItems(rest, m, env, unit)
  }

  /** The projected row of a unit. */
  function OutRow(items: Items, m: Site, shape: Shape, env: Env): seq<Row> -> Row
    decreases items, 1
  {
    unit => EvalItems(items, m, UnitEnv(shape, unit, env), UnitEnvs(shape, unit, env))
  }

  /** The projected row of a unit with its sort key. */
  function OutKeyed(keys: Exprs, out: seq<Row> -> Row, m: Site, cols: seq<string>, shape: Shape,
                    env: Env): seq<Row> -> Keyed
    decreases keys, 1
  {
    unit => Keyed(KeyValues(keys, false, m, cols, out(unit), UnitEnv(shape, unit, env), UnitEnvs(shape, unit, env)),
                  out(unit))
  }

  function Eval(q: Query, m: Site, env: Env): Relation
    decreases q, 0
  {
    match q
    case Select(distinct, items, from, where, groupBy, having, orderBy, descending, limit, _, _) =>
      var j := EvalFrom(from, m, env);
      var cols := ItemNames(items, j.shape.fields);
      var kept := Filter(RowTest(where, m, j.shape, env), j.rows);
      var out := OutRow(items, m, j.shape, env);
      var units := Filter(UnitTest(having, m, j.shape, env),
        Units(groupBy, IsGrouped(groupBy, items, having, orderBy), out, m, cols, j.shape, kept, env));
      var keyed := Map(OutKeyed(orderBy, out, m, cols, j.shape, env), units);
      Relation(cols, Finish(keyed, distinct, orderBy.More?, descending, limit, m.db.engine))
    case SetOp(op, left, right) => Combine(op, Eval(left, m, env), Eval(right, m, env))
    case With(name, body, main) => Eval(main, m.(ctes := m.ctes[Fold(name) := Eval(body, m, env)]), env)
    case Mutation(_) => Relation([], [])
  }
}
