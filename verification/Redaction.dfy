/** Masking as a view: on a database whose masked columns are all NULL, a statement that does not call other values
    by a masked name means the same before and after masking. */
module Redaction {
  import opened Wrappers
  import opened Identifiers
  import opened Sequences
  import opened SqlAst
  import opened SqlSemantics
  import opened Rewrites
  import opened RewriteFacts
  import opened JoinAlgebra
  import opened Pairing
  import opened Agreement
  import opened Fragment
  import opened Headers
  import opened SimulationProof

  // ---- Statements that call nothing else by a masked name ----

  /** The names of the items that are listed. */
  function Listed(items: Items): seq<string> {
    match items
    case NoItem => []
    case Star(rest) => Listed(rest)
    case TableStar(_, rest) => Listed(rest)
    case Item(_, _, rest) => [ItemName(items)] + Listed(rest)
  }

  function OutputNames(q: Query): seq<string> {
    match q
    case Select(_, items, _, _, _, _, _, _, _, _, _) => Listed(items)
    case SetOp(_, left, _) => OutputNames(left)
    case With(_, _, main) => OutputNames(main)
    case Mutation(_) => []
  }

  /** Where the left branch has a masked name, so has the right. */
  predicate Aligned(left: seq<string>, right: seq<string>, masked: set<string>) {
    forall i | 0 <= i < |left| && i < |right| :: Fold(left[i]) in masked ==> Fold(right[i]) in masked
  }

  predicate Honest(q: Query, masked: set<string>) {
    match q
    case Select(_, items, from, where, groupBy, having, orderBy, _, _, _, _) =>
      && HonestItems(items, masked) && HonestFrom(from, masked) && HonestCond(where, masked)
      && HonestExprs(groupBy, masked) && HonestCond(having, masked) && HonestExprs(orderBy, masked)
    case SetOp(_, left, right) =>
      && Honest(left, masked) && Honest(right, masked) && StarFree(left) && StarFree(right)
      && Aligned(OutputNames(left), OutputNames(right), masked)
    case With(_, body, main) => Honest(body, masked) && Honest(main, masked)
    case Mutation(_) => true
  }

  /** A listed item has a masked name only if it is the masked column, and masking does not rename it. */
  predicate HonestItems(items: Items, masked: set<string>) {
    match items
    case NoItem => true
    case Star(rest) => HonestItems(rest, masked)
    case TableStar(_, rest) => HonestItems(rest, masked)
    case Item(e, alias, rest) =>
      && HonestExpr(e, masked) && HonestItems(rest, masked)
      && (alias.None? ==> !HeaderChanges(e, masked))
      && (Fold(ItemName(items)) in masked ==> IsMasked(Bare(e), masked))
  }

  predicate HonestFrom(f: From, masked: set<string>) {
    match f
    case NoFrom => true
    case Join(left, _, source, on) =>
      && HonestFrom(left, masked) && HonestCond(on, masked) && (source.Derived? ==> Honest(source.q, masked))
  }

  predicate HonestCond(c: Cond, masked: set<string>) {
    match c
    case Always => true
    case If(e) => HonestExpr(e, masked)
  }

  predicate HonestExpr(e: Expr, masked: set<string>) {
    match e
    case Const(_) => true
    case Col(_, _) => true
    case Binary(_, l, r) => HonestExpr(l, masked) && HonestExpr(r, masked)
    case Not(a) => HonestExpr(a, masked)
    case IsNull(a) => HonestExpr(a, masked)
    case Paren(a) => HonestExpr(a, masked)
    case Cast(a, _) => HonestExpr(a, masked)
    case Case(tests, results, otherwise) =>
      HonestExprs(tests, masked) && HonestExprs(results, masked) && HonestExpr(otherwise, masked)
    case Call(_, args) => HonestExprs(args, masked)
    case Aggregate(_, arg) => HonestExpr(arg, masked)
    case Scalar(q) => Honest(q, masked)
    case Exists(q) => Honest(q, masked)
    case In(a, q) => HonestExpr(a, masked) && Honest(q, masked)
  }

  predicate HonestExprs(es: Exprs, masked: set<string>) {
    match es
    case NoExpr => true
    case More(head, tail) => HonestExpr(head, masked) && HonestExprs(tail, masked)
  }

  // ---- Rows without masked values ----

  /** The masked columns of the row are NULL. */
  predicate Cleared(masked: set<string>, names: seq<string>, row: Row) {
    |row| == |names| && forall i | 0 <= i < |names| && Fold(names[i]) in masked :: row[i] == Null
  }

  predicate ClearedAll(masked: set<string>, names: seq<string>, rows: seq<Row>) {
    forall row | row in rows :: Cleared(masked, names, row)
  }

  predicate ClearedRelation(masked: set<string>, r: Relation) {
    ClearedAll(masked, r.cols, r.rows)
  }

  predicate ClearedSite(masked: set<string>, m: Site) {
    && (forall t | t in m.db.tables :: ClearedRelation(masked, m.db.tables[t]))
    && forall t | t in m.ctes :: ClearedRelation(masked, m.ctes[t])
  }

  predicate ClearedEnv(masked: set<string>, env: Env) {
    match env
    case Top => true
    case Inside(shape, row, outer) => Cleared(masked, FieldNames(shape.fields), row) && ClearedEnv(masked, outer)
  }

  predicate ClearedEnvs(masked: set<string>, unit: seq<Env>) {
    forall i | 0 <= i < |unit| :: ClearedEnv(masked, unit[i])
  }

  lemma ClearedJoined(masked: set<string>, n1: seq<string>, n2: seq<string>, a: Row, b: Row)
    requires Cleared(masked, n1, a) && Cleared(masked, n2, b)
    ensures Cleared(masked, n1 + n2, a + b)
  {
  }

  lemma ReadCleared(masked: set<string>, fields: seq<Field>, row: Row, qualifier: Option<string>, name: string)
    requires Cleared(masked, FieldNames(fields), row) && Fold(name) in masked
    ensures Read(fields, row, qualifier, name) == Null
  {
    var i := Find(fields, qualifier, name);
    if i < |fields| {
      assert Fold(FieldNames(fields)[i]) == Fold(name);
    }
  }

  /** A masked name reads as NULL in every scope. */
  lemma {:induction false} LookupCleared(masked: set<string>, env: Env, qualifier: Option<string>, name: string)
    requires ClearedEnv(masked, env) && Fold(name) in masked
    ensures Lookup(env, qualifier, name) == Null
  {
    if env.Inside? {
      ReadCleared(masked, env.shape.fields, env.row, qualifier, name);
      LookupCleared(masked, env.outer, qualifier, name);
    }
  }

  lemma {:induction false} PickCleared(masked: set<string>, fields: seq<Field>, row: Row, qualifier: string)
    requires Cleared(masked, FieldNames(fields), row)
    ensures Cleared(masked, PickNames(fields, qualifier), PickValues(fields, row, qualifier))
  {
    if fields != [] {
      var names := FieldNames(fields);
      assert FieldNames(fields[1..]) == names[1..] && names[0] == fields[0].name;
      PickCleared(masked, fields[1..], row[1..], qualifier);
      if Fold(fields[0].alias) == Fold(qualifier) {
        ClearedJoined(masked, [fields[0].name], PickNames(fields[1..], qualifier), [row[0]],
                      PickValues(fields[1..], row[1..], qualifier));
      } else {
        ClearedJoined(masked, [], PickNames(fields[1..], qualifier), [], PickValues(fields[1..], row[1..], qualifier));
      }
    }
  }

  // ---- Joins ----

  ghost function SameCleared(masked: set<string>, names: seq<string>): (Row, Row) -> bool {
    (a, b) => a == b && Cleared(masked, names, a)
  }

  lemma PairedCleared(masked: set<string>, names: seq<string>, a: seq<Row>, b: seq<Row>)
    ensures Paired(SameCleared(masked, names), a, b) <==> a == b && ClearedAll(masked, names, a)
  {
    if a == b && ClearedAll(masked, names, a) {
      forall i | 0 <= i < |a| ensures SameCleared(masked, names)(a[i], b[i]) {
        assert a[i] in a;
      }
    }
    if Paired(SameCleared(masked, names), a, b) {
      forall i | 0 <= i < |a| ensures a[i] == b[i] && Cleared(masked, names, a[i]) {
        assert SameCleared(masked, names)(a[i], b[i]);
      }
    }
  }

  /** Rows without masked values join to such rows, and alike under two conditions that accept the same of them. */
  lemma JoinCleared(masked: set<string>, fields: seq<Field>, alias: string, cols: seq<string>, kind: JoinKind,
                    on1: Row -> bool, on2: Row -> bool, ls: seq<Row>, rs: seq<Row>)
    requires ClearedAll(masked, FieldNames(fields), ls) && ClearedAll(masked, cols, rs)
    requires forall row | Cleared(masked, FieldNames(fields + Tag(alias, cols)), row) :: on1(row) == on2(row)
    ensures JoinRows(on1, kind, |fields|, |cols|, ls, rs) == JoinRows(on2, kind, |fields|, |cols|, ls, rs)
    ensures ClearedAll(masked, FieldNames(fields + Tag(alias, cols)), JoinRows(on2, kind, |fields|, |cols|, ls, rs))
  {
    var names, names' := FieldNames(fields), FieldNames(fields + Tag(alias, cols));
    assert names' == names + cols;
    var joint := Joint(|fields|, |cols|, SameCleared(masked, names), SameCleared(masked, cols),
                       SameCleared(masked, names'));
    assert joint.Valid() by {
      forall l: Row, r: Row | Cleared(masked, names, l) && Cleared(masked, cols, r)
        ensures Cleared(masked, names', l + r)
      {
        ClearedJoined(masked, names, cols, l, r);
      }
    }
    PairedCleared(masked, names, ls, ls);
    PairedCleared(masked, cols, rs, rs);
    PairedJoin(joint, on1, on2, kind, ls, ls, rs, rs);
    PairedCleared(masked, names', JoinRows(on1, kind, |fields|, |cols|, ls, rs),
                  JoinRows(on2, kind, |fields|, |cols|, ls, rs));
  }
}
