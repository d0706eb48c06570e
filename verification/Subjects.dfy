/** Row scoping from the restrictions and the subject's attributes themselves: which values the inserted
    predicates carry, and what the gateway answers on the rows that are the subject's own. */
module Subjects {
  import opened Wrappers
  import opened Identifiers
  import opened Sequences
  import opened SqlAst
  import opened SqlSemantics
  import opened Rewrites
  import opened RewriteFacts
  import opened ScopedRows
  import opened Agreement
  import opened Fragment
  import opened Simulation
  import opened ResultMasking
  import opened GovernedQuery
  import opened Headers
  import opened PolicyTheorems

  type Restrictions = seq<(string, string)>
  type Attributes = map<string, Option<string>>

  // ---- Which values a resolved scope carries ----

  /** No later restriction is on the same column. */
  predicate LastOn(restrictions: Restrictions, i: nat)
    requires i < |restrictions|
  {
    forall j | i < j < |restrictions| :: Fold(restrictions[j].0) != Fold(restrictions[i].0)
  }

  /** The restriction at i is the last on its column, and its attribute has the value. */
  predicate Carries(restrictions: Restrictions, attributes: Attributes, i: nat, column: string, value: string)
    requires i < |restrictions|
  {
    && LastOn(restrictions, i) && Fold(restrictions[i].0) == column
    && restrictions[i].1 in attributes && attributes[restrictions[i].1] == Some(value)
  }

  predicate CarriedBySome(restrictions: Restrictions, attributes: Attributes, column: string, value: string) {
    exists i | 0 <= i < |restrictions| :: Carries(restrictions, attributes, i, column, value)
  }

  lemma {:induction false} PutReplaces(scope: Scope, r: Restriction)
    requires forall x, y | x in scope && y in scope && x.column == y.column :: x == y
    requires forall i, j | 0 <= i < j < |scope| :: scope[i].column != scope[j].column
    ensures forall x :: x in Put(scope, r) <==> x == r || (x in scope && x.column != r.column)
    ensures forall i, j | 0 <= i < j < |Put(scope, r)| :: Put(scope, r)[i].column != Put(scope, r)[j].column
  {
    if scope != [] {
      var first, rest := scope[0], scope[1..];
      assert scope == [first] + rest && forall x :: x in scope <==> x == first || x in rest;
      forall x | x in rest ensures x.column != first.column {
        var i :| 0 <= i < |rest| && rest[i] == x;
        assert scope[i + 1] == x;
      }
      if first.column == r.column {
        assert forall x :: x in [r] + rest <==> x == r || x in rest;
      } else {
        PutReplaces(rest, r);
        var put := Put(rest, r);
        assert forall x :: x in [first] + put <==> x == first || x in put;
        forall j | 0 <= j < |put| ensures put[j].column != first.column {
          assert put[j] in put;
        }
      }
    }
  }

  /** One column twice is one restriction. */
  predicate OncePerColumn(scope: Scope) {
    forall i, j | 0 <= i < j < |scope| :: scope[i].column != scope[j].column
  }

  lemma OnceMeans(scope: Scope)
    requires OncePerColumn(scope)
    ensures forall x, y | x in scope && y in scope && x.column == y.column :: x == y
  {
  }

  /** How one more restriction changes what is carried. */
  lemma CarriedNext(restrictions: Restrictions, attributes: Attributes, column: string, value: string)
    requires restrictions != []
    ensures var (c, a) := restrictions[|restrictions| - 1];
      CarriedBySome(restrictions, attributes, column, value)
      <==> if Fold(c) == column then a in attributes && attributes[a] == Some(value)
           else CarriedBySome(restrictions[..|restrictions| - 1], attributes, column, value)
  {
    var init, n := restrictions[..|restrictions| - 1], |restrictions| - 1;
    var (c, a) := restrictions[n];
    if Fold(c) == column {
      if i :| 0 <= i < |restrictions| && Carries(restrictions, attributes, i, column, value) {
        assert i == n;
      }
      if a in attributes && attributes[a] == Some(value) {
        assert Carries(restrictions, attributes, n, column, value);
      }
    } else {
      if i :| 0 <= i < |restrictions| && Carries(restrictions, attributes, i, column, value) {
        assert i < n && Carries(init, attributes, i, column, value);
      }
      if i :| 0 <= i < |init| && Carries(init, attributes, i, column, value) {
        assert Carries(restrictions, attributes, i, column, value);
      }
    }
  }

  /** When resolution succeeds, the scope holds a column with a value exactly when the last restriction on that
      column names an attribute of the subject with that value. */
  lemma {:induction false} ResolvedScope(restrictions: Restrictions, attributes: Attributes)
    requires ResolveScope(restrictions, attributes).Ok?
    ensures var scope := ResolveScope(restrictions, attributes).value;
      && OncePerColumn(scope)
      && forall r: Restriction :: r in scope <==> CarriedBySome(restrictions, attributes, r.column, r.value)
  {
    if restrictions != [] {
      var init := restrictions[..|restrictions| - 1];
      ResolvedScope(init, attributes);
      var (c, a) := restrictions[|restrictions| - 1];
      var before, scope := ResolveScope(init, attributes).value, ResolveScope(restrictions, attributes).value;
      OnceMeans(before);
      PutReplaces(before, Restriction(Fold(c), attributes[a].value));
      forall r: Restriction ensures r in scope <==> CarriedBySome(restrictions, attributes, r.column, r.value) {
        CarriedNext(restrictions, attributes, r.column, r.value);
      }
    }
  }

  // ---- The subject's own rows ----

  predicate FirstNamed(cols: seq<string>, k: nat, column: string)
    requires k < |cols|
  {
    Fold(cols[k]) == Fold(column) && forall j | 0 <= j < k :: Fold(cols[j]) != Fold(column)
  }

  /** The cell in the column of that name is not NULL and equals the text. */
  predicate CellIs(cols: seq<string>, row: Row, column: string, text: string, engine: Engine) {
    exists k | 0 <= k < |cols| && k < |row| :: FirstNamed(cols, k, column) && !row[k].Null?
        && engine.equal(row[k], Str(text))
  }

  lemma PassesMeans(r: Restriction, cols: seq<string>, row: Row, engine: Engine)
    ensures Passes(r, None, Tag("", cols), row, engine) <==> CellIs(cols, row, r.column, r.value, engine)
  {
    var fields := Tag("", cols);
    var k := Find(fields, None, r.column);
    assert forall j | 0 <= j < |cols| :: Denotes(fields[j], None, r.column) <==> Fold(cols[j]) == Fold(r.column);
    if k < |cols| {
      assert FirstNamed(cols, k, r.column);
    }
  }

  /** The row is the subject's: for every restricted column it has the value of the attribute that the last
      restriction on that column names. */
  predicate SubjectsOwn(restrictions: Restrictions, attributes: Attributes, cols: seq<string>, row: Row,
                        engine: Engine) {
    forall i | 0 <= i < |restrictions| && LastOn(restrictions, i) ::
      && restrictions[i].1 in attributes && attributes[restrictions[i].1].Some?
      && CellIs(cols, row, restrictions[i].0, attributes[restrictions[i].1].value, engine)
  }

  lemma CellFolded(cols: seq<string>, row: Row, column: string, text: string, engine: Engine)
    ensures CellIs(cols, row, Fold(column), text, engine) <==> CellIs(cols, row, column, text, engine)
  {
    FoldTwice(column);
    assert forall k | 0 <= k < |cols| :: FirstNamed(cols, k, Fold(column)) <==> FirstNamed(cols, k, column);
  }

  lemma OwnMeans(restrictions: Restrictions, attributes: Attributes, cols: seq<string>, row: Row, engine: Engine)
    requires ResolveScope(restrictions, attributes).Ok?
    ensures OwnRow(ResolveScope(restrictions, attributes).value, cols, row, engine)
       <==> SubjectsOwn(restrictions, attributes, cols, row, engine)
  {
    var scope := ResolveScope(restrictions, attributes).value;
    ResolvedScope(restrictions, attributes);
    ResolveMeans(restrictions, attributes);
    if OwnRow(scope, cols, row, engine) {
      forall i | 0 <= i < |restrictions| && LastOn(restrictions, i)
        ensures restrictions[i].1 in attributes && attributes[restrictions[i].1].Some?
        ensures CellIs(cols, row, restrictions[i].0, attributes[restrictions[i].1].value, engine)
      {
        var (c, a) := restrictions[i];
        assert restrictions[i] in restrictions && Resolves(restrictions[i], attributes);
        var r := Restriction(Fold(c), attributes[a].value);
        assert Carries(restrictions, attributes, i, r.column, r.value);
        assert r in scope;
        PassesMeans(r, cols, row, engine);
        CellFolded(cols, row, c, r.value, engine);
      }
    }
    if SubjectsOwn(restrictions, attributes, cols, row, engine) {
      forall r | r in scope ensures Passes(r, None, Tag("", cols), row, engine) {
        var i :| 0 <= i < |restrictions| && Carries(restrictions, attributes, i, r.column, r.value);
        PassesMeans(r, cols, row, engine);
        CellFolded(cols, row, restrictions[i].0, r.value, engine);
      }
    }
  }

  function SubjectsTest(restrictions: Restrictions, attributes: Attributes, cols: seq<string>,
                        engine: Engine): Row -> bool {
    row => SubjectsOwn(restrictions, attributes, cols, row, engine)
  }

  function SubjectsRelation(r: Relation, restrictions: Restrictions, attributes: Attributes, engine: Engine): Relation {
    Relation(r.cols, Filter(SubjectsTest(restrictions, attributes, r.cols, engine), r.rows))
  }

  /** Every table cut to the subject's own rows. */
  function SubjectsDatabase(db: Database, restrictions: Restrictions, attributes: Attributes): Database {
    Database(map t | t in db.tables :: SubjectsRelation(db.tables[t], restrictions, attributes, db.engine), db.engine)
  }

  lemma RelationIsCut(r: Relation, restrictions: Restrictions, attributes: Attributes, engine: Engine)
    requires ResolveScope(restrictions, attributes).Ok?
    ensures SubjectsRelation(r, restrictions, attributes, engine)
         == CutRelation(r, ScopeOf(restrictions, attributes), engine)
  {
    var scope := ScopeOf(restrictions, attributes);
    forall row | row in r.rows
      ensures SubjectsTest(restrictions, attributes, r.cols, engine)(row) == OwnTest(scope, r.cols, engine)(row)
    {
      OwnMeans(restrictions, attributes, r.cols, row, engine);
    }
    FilterSame(SubjectsTest(restrictions, attributes, r.cols, engine), OwnTest(scope, r.cols, engine), r.rows);
  }

  lemma DatabaseIsCut(db: Database, restrictions: Restrictions, attributes: Attributes)
    requires ResolveScope(restrictions, attributes).Ok?
    ensures SubjectsDatabase(db, restrictions, attributes) == Cut(db, ScopeOf(restrictions, attributes))
  {
    var own, cut := SubjectsDatabase(db, restrictions, attributes), Cut(db, ScopeOf(restrictions, attributes));
    forall t | t in db.tables ensures own.tables[t] == cut.tables[t] {
      RelationIsCut(db.tables[t], restrictions, attributes, db.engine);
    }
    assert own.tables.Keys == db.tables.Keys == cut.tables.Keys;
    assert own.tables == cut.tables;
  }

  /** No restriction is on a masked column. */
  predicate NoneMasked(restrictions: Restrictions, columns: set<string>) {
    forall r, c | r in restrictions && c in columns :: Fold(r.0) != Fold(c)
  }

  lemma NoneMaskedMeans(restrictions: Restrictions, attributes: Attributes, columns: set<string>)
    requires NoneMasked(restrictions, columns)
    ensures Disjoint(ScopeOf(restrictions, attributes), FoldAll(columns))
  {
    if ResolveScope(restrictions, attributes).Ok? {
      ResolvedScope(restrictions, attributes);
      forall r | r in ScopeOf(restrictions, attributes) ensures Fold(r.column) !in FoldAll(columns) {
        var i :| 0 <= i < |restrictions| && Carries(restrictions, attributes, i, r.column, r.value);
        FoldTwice(restrictions[i].0);
        assert restrictions[i] in restrictions;
      }
    }
  }

  /** Every restriction names an attribute that the subject has. */
  predicate AllAnswered(restrictions: Restrictions, attributes: Attributes) {
    forall r | r in restrictions :: r.1 in attributes && attributes[r.1].Some?
  }

  /** The gateway refuses for the lack of an attribute exactly when one is lacking. */
  lemma RefusedExactly(q: Query, restrictions: Restrictions, attributes: Attributes, columns: set<string>,
                       repository: Repository, aliases: map<string, set<string>>, db: Database)
    ensures Execute(q, restrictions, attributes, columns, repository, aliases, db).Err?
       <==> !AllAnswered(restrictions, attributes)
  {
    ResolveMeans(restrictions, attributes);
    assert AllAnswered(restrictions, attributes) <==> forall r | r in restrictions :: Resolves(r, attributes);
  }

  /** What the gateway returns: the masked statement's answer on the subject's own rows, masked once more. Without
      masked columns that is the answer to the statement itself. */
  lemma AnswersOwnRows(q: Query, restrictions: Restrictions, attributes: Attributes, columns: set<string>,
                       repository: Repository, aliases: map<string, set<string>>, db: Database)
    requires WellFormed(db) && AllAnswered(restrictions, attributes) && NoneMasked(restrictions, columns)
    requires QueryOk(MaskQuery(q, FoldAll(columns)), Rules(true, false, None), {})
    ensures var answer := Run(MaskQuery(q, FoldAll(columns)), SubjectsDatabase(db, restrictions, attributes));
      Execute(q, restrictions, attributes, columns, repository, aliases, db)
          == Ok(Records(answer, repository, columns, aliases))
    ensures columns == {} ==> MaskQuery(q, FoldAll(columns)) == q
  {
    RefusedExactly(q, restrictions, attributes, columns, repository, aliases, db);
    ResolveMeans(restrictions, attributes);
    assert forall r | r in restrictions :: Resolves(r, attributes);
    NoneMaskedMeans(restrictions, attributes, columns);
    ExecutedQuery(q, restrictions, attributes, columns, repository, aliases, db);
    DatabaseIsCut(db, restrictions, attributes);
    MaskedOnCutDatabase(q, ScopeOf(restrictions, attributes), FoldAll(columns), db);
    if columns == {} {
      assert FoldAll(columns) == {};
      MaskNothing(q);
    }
  }

  /** The two databases hold the same rows of the subject in the given tables, up to masked columns. */
  ghost predicate SameOwnRows(only: Option<set<string>>, restrictions: Restrictions, attributes: Attributes,
                              columns: set<string>, left: Database, right: Database) {
    && WellFormed(left) && WellFormed(right) && left.engine == right.engine
    && forall t | only.None? || t in only.value ::
         && (t in left.tables <==> t in right.tables)
         && (t in left.tables ==>
               RelationsAgree(FoldAll(columns), SubjectsRelation(left.tables[t], restrictions, attributes, left.engine),
                              SubjectsRelation(right.tables[t], restrictions, attributes, left.engine)))
  }

  /** In the wide fragment: the gateway's answer depends on the subject's own rows and unmasked columns only. */
  lemma DependsOnOwnRows(q: Query, restrictions: Restrictions, attributes: Attributes, columns: set<string>,
                         repository: Repository, aliases: map<string, set<string>>, only: Option<set<string>>,
                         left: Database, right: Database)
    requires SameOwnRows(only, restrictions, attributes, columns, left, right) && NoneMasked(restrictions, columns)
    requires QueryOk(q, Rules(false, columns != {}, only), {})
    requires StarFree(q) || (Nameable(FoldAll(columns)) && FiltersPublicly(repository, FoldAll(columns)))
    ensures Execute(q, restrictions, attributes, columns, repository, aliases, left)
         == Execute(q, restrictions, attributes, columns, repository, aliases, right)
  {
    if ResolveScope(restrictions, attributes).Ok? {
      NoneMaskedMeans(restrictions, attributes, columns);
      var scope := ScopeOf(restrictions, attributes);
      forall t | (only.None? || t in only.value) && t in left.tables
        ensures RelationsAgree(FoldAll(columns), CutRelation(left.tables[t], scope, left.engine),
                               CutRelation(right.tables[t], scope, left.engine))
      {
        RelationIsCut(left.tables[t], restrictions, attributes, left.engine);
        RelationIsCut(right.tables[t], restrictions, attributes, left.engine);
      }
      GatewayHidesTheRest(q, restrictions, attributes, columns, repository, aliases, only, left, right);
    }
  }
}
