/** Two executions that may differ only in secret columns: what it means for rows, tables and scopes
    to agree, and that reading a public column gives the same value on both sides. */
module Agreement {
  import opened Wrappers
  import opened Identifiers
  import opened SqlAst
  import opened SqlSemantics
  import opened Rewrites
  import opened ScopedRows
  import opened Pairing

  /** Rows over the same columns that are equal in every column whose name is not secret. */
  ghost predicate RowAgree(secret: set<string>, names: seq<string>, a: Row, b: Row) {
    && |a| == |names| && |b| == |names|
    && forall i | 0 <= i < |names| :: Fold(names[i]) !in secret ==> a[i] == b[i]
  }

  ghost function Agreeing(secret: set<string>, names: seq<string>): (Row, Row) -> bool {
    (a, b) => RowAgree(secret, names, a, b)
  }

  ghost predicate RelationsAgree(secret: set<string>, x: Relation, y: Relation) {
    x.cols == y.cols && Paired(Agreeing(secret, x.cols), x.rows, y.rows)
  }

  ghost predicate CtesAgree(secret: set<string>, x: map<string, Relation>, y: map<string, Relation>) {
    x.Keys == y.Keys && forall k | k in x :: RelationsAgree(secret, x[k], y[k])
  }

  ghost predicate EnvAgree(secret: set<string>, x: Env, y: Env) {
    match (x, y)
    case (Top, Top) => true
    case (Inside(s, a, o), Inside(t, b, p)) =>
      s == t && RowAgree(secret, FieldNames(s.fields), a, b) && EnvAgree(secret, o, p)
    case _ => false
  }

  ghost function EnvsAgreeing(secret: set<string>): (Env, Env) -> bool {
    (x, y) => EnvAgree(secret, x, y)
  }

  lemma NothingSecret(names: seq<string>, a: Row, b: Row)
    requires RowAgree({}, names, a, b)
    ensures a == b
  {
  }

  lemma ReadAgree(secret: set<string>, fields: seq<Field>, a: Row, b: Row, qualifier: Option<string>, name: string)
    requires RowAgree(secret, FieldNames(fields), a, b) && Fold(name) !in secret
    ensures Read(fields, a, qualifier, name) == Read(fields, b, qualifier, name)
  {
    var i := Find(fields, qualifier, name);
    if i < |fields| {
      assert Fold(FieldNames(fields)[i]) == Fold(name);
    }
  }

  /** A public name means the same value in agreeing scopes. */
  lemma {:induction false} LookupAgree(secret: set<string>, x: Env, y: Env, qualifier: Option<string>, name: string)
    requires EnvAgree(secret, x, y) && Fold(name) !in secret
    ensures Lookup(x, qualifier, name) == Lookup(y, qualifier, name)
  {
    if x.Inside? {
      ReadAgree(secret, x.shape.fields, x.row, y.row, qualifier, name);
      LookupAgree(secret, x.outer, y.outer, qualifier, name);
    }
  }

  lemma RowAgreeJoined(secret: set<string>, n1: seq<string>, n2: seq<string>, a1: Row, a2: Row, b1: Row, b2: Row)
    requires RowAgree(secret, n1, a1, b1) && RowAgree(secret, n2, a2, b2)
    ensures RowAgree(secret, n1 + n2, a1 + a2, b1 + b2)
  {
  }

  lemma {:induction false} PickAgree(secret: set<string>, fields: seq<Field>, a: Row, b: Row, qualifier: string)
    requires RowAgree(secret, FieldNames(fields), a, b)
    ensures RowAgree(secret, PickNames(fields, qualifier), PickValues(fields, a, qualifier),
                     PickValues(fields, b, qualifier))
  {
    if fields != [] {
      var names := FieldNames(fields);
      assert names[0] == fields[0].name;
      assert FieldNames(fields[1..]) == names[1..];
      PickAgree(secret, fields[1..], a[1..], b[1..], qualifier);
      if Fold(fields[0].alias) == Fold(qualifier) {
        RowAgreeJoined(secret, [fields[0].name], PickNames(fields[1..], qualifier), [a[0]],
                       PickValues(fields[1..], a[1..], qualifier), [b[0]], PickValues(fields[1..], b[1..], qualifier));
      } else {
        RowAgreeJoined(secret, [], PickNames(fields[1..], qualifier), [],
                       PickValues(fields[1..], a[1..], qualifier), [], PickValues(fields[1..], b[1..], qualifier));
      }
    }
  }

  lemma UnitEnvsAgree(secret: set<string>, shape: Shape, a: seq<Row>, b: seq<Row>, x: Env, y: Env)
    requires Paired(Agreeing(secret, FieldNames(shape.fields)), a, b) && EnvAgree(secret, x, y)
    ensures EnvAgree(secret, UnitEnv(shape, a, x), UnitEnv(shape, b, y))
    ensures Paired(EnvsAgreeing(secret), UnitEnvs(shape, a, x), UnitEnvs(shape, b, y))
  {
    forall i | 0 <= i < |a| ensures EnvAgree(secret, UnitEnvs(shape, a, x)[i], UnitEnvs(shape, b, y)[i]) {
      assert Agreeing(secret, FieldNames(shape.fields))(a[i], b[i]);
    }
    if a != [] {
      assert Agreeing(secret, FieldNames(shape.fields))(a[0], b[0]);
    }
  }

  lemma TagNames(alias: string, cols: seq<string>)
    ensures FieldNames(Tag(alias, cols)) == cols
  {
  }

  /** Whether a row is in scope depends on public columns only. */
  lemma InScopeAgree(secret: set<string>, scope: Scope, qs: seq<string>, fields: seq<Field>, a: Row, b: Row,
                     engine: Engine)
    requires RowAgree(secret, FieldNames(fields), a, b) && forall r | r in scope :: Fold(r.column) !in secret
    ensures InScope(scope, qs, fields, a, engine) == InScope(scope, qs, fields, b, engine)
  {
    InScopeMeans(scope, qs, fields, a, engine);
    InScopeMeans(scope, qs, fields, b, engine);
    forall r, q | r in scope && q in qs
      ensures Passes(r, Some(q), fields, a, engine) == Passes(r, Some(q), fields, b, engine)
    {
      ReadAgree(secret, fields, a, b, Some(q), r.column);
    }
  }

  // ---- Relations that agree with themselves ----

  predicate Rectangular(r: Relation) {
    forall row | row in r.rows :: |row| == |r.cols|
  }

  lemma SelfAgree(secret: set<string>, r: Relation)
    requires Rectangular(r)
    ensures RelationsAgree(secret, r, r)
  {
    forall i | 0 <= i < |r.rows| ensures Agreeing(secret, r.cols)(r.rows[i], r.rows[i]) {
      assert r.rows[i] in r.rows;
    }
  }

  lemma {:induction false} DistinctRowsFrom(rows: seq<Row>)
    ensures forall row | row in DistinctRows(rows) :: row in rows
  {
    if rows != [] {
      DistinctRowsFrom(rows[..|rows| - 1]);
    }
  }

  lemma {:induction false} SharedFrom(rows: seq<Row>, other: seq<Row>, wanted: bool)
    ensures forall row | row in Shared(rows, other, wanted) :: row in rows
  {
    if rows != [] {
      SharedFrom(rows[1..], other, wanted);
    }
  }

  lemma CombineRectangular(op: SetOperator, l: Relation, r: Relation)
    ensures Rectangular(Combine(op, l, r))
  {
    var left, right := Fit(l.rows, |l.cols|), Fit(r.rows, |l.cols|);
    DistinctRowsFrom(left + right);
    SharedFrom(left, right, true);
    SharedFrom(left, right, false);
    DistinctRowsFrom(Shared(left, right, true));
    DistinctRowsFrom(Shared(left, right, false));
  }
}
