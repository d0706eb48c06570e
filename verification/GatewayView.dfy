/** The gateway as a view of the database: a governed query means the original statement on the subject's own rows
    with the masked columns cleared. */
module GatewayView {
  import opened Wrappers
  import opened Identifiers
  import opened Sequences
  import opened SqlAst
  import opened SqlSemantics
  import opened Rewrites
  import opened RewriteFacts
  import opened ScopedRows
  import opened Pairing
  import opened Agreement
  import opened Fragment
  import opened Simulation
  import opened Headers
  import opened ResultMasking
  import opened GovernedQuery
  import opened PolicyTheorems
  import opened Policies
  import opened Subjects
  import opened Redaction
  import opened RedactionProof
  import Gateway

  // ---- Clearing the masked columns of a database ----

  /** The name is that of a masked column, in any spelling of its letters. */
  predicate NamedLike(columns: set<string>, name: string) {
    exists c | c in columns :: Fold(c) == Fold(name)
  }

  lemma NamedLikeMeans(columns: set<string>, name: string)
    ensures NamedLike(columns, name) <==> Fold(name) in FoldAll(columns)
  {
  }

  function ClearRow(columns: set<string>, cols: seq<string>, row: Row): Row {
    seq(|row|, i requires 0 <= i < |row| => if i < |cols| && NamedLike(columns, cols[i]) then Null else row[i])
  }

  function ClearRows(columns: set<string>, cols: seq<string>): Row -> Row {
    row => ClearRow(columns, cols, row)
  }

  function ClearRelation(columns: set<string>, r: Relation): Relation {
    Relation(r.cols, Map(ClearRows(columns, r.cols), r.rows))
  }

  /** The database with NULL in every masked column. */
  function Clear(columns: set<string>, db: Database): Database {
    Database(map t | t in db.tables :: ClearRelation(columns, db.tables[t]), db.engine)
  }

  lemma RowClears(columns: set<string>, cols: seq<string>, row: Row)
    requires |row| == |cols|
    ensures Cleared(FoldAll(columns), cols, ClearRow(columns, cols, row))
    ensures RowAgree(FoldAll(columns), cols, row, ClearRow(columns, cols, row))
  {
    forall i | 0 <= i < |cols| ensures NamedLike(columns, cols[i]) <==> Fold(cols[i]) in FoldAll(columns) {
      NamedLikeMeans(columns, cols[i]);
    }
  }

  lemma RelationClears(columns: set<string>, r: Relation)
    requires Rectangular(r)
    ensures ClearedRelation(FoldAll(columns), ClearRelation(columns, r))
    ensures RelationsAgree(FoldAll(columns), r, ClearRelation(columns, r))
    ensures Rectangular(ClearRelation(columns, r))
  {
    var cleared := ClearRelation(columns, r);
    forall i | 0 <= i < |r.rows|
      ensures Cleared(FoldAll(columns), r.cols, cleared.rows[i])
      ensures Agreeing(FoldAll(columns), r.cols)(r.rows[i], cleared.rows[i])
    {
      assert r.rows[i] in r.rows;
      RowClears(columns, r.cols, r.rows[i]);
    }
    forall row | row in cleared.rows ensures Cleared(FoldAll(columns), r.cols, row) {
      var i :| 0 <= i < |r.rows| && cleared.rows[i] == row;
    }
  }

  lemma DatabaseClears(columns: set<string>, db: Database)
    requires WellFormed(db)
    ensures ClearedSite(FoldAll(columns), Site(Clear(columns, db), map[]))
    ensures DatabasesAgree(FoldAll(columns), db, Clear(columns, db))
  {
    forall t | t in db.tables
      ensures ClearedRelation(FoldAll(columns), Clear(columns, db).tables[t])
      ensures RelationsAgree(FoldAll(columns), db.tables[t], Clear(columns, db).tables[t])
    {
      RelationClears(columns, db.tables[t]);
    }
  }

  // ---- Masking alone ----

  lemma RewrittenMasked(q: Query, columns: set<string>)
    ensures RewriteMaskedColumns(q, columns) == MaskQuery(q, FoldAll(columns))
  {
    if columns == {} {
      assert FoldAll(columns) == {};
      MaskNothing(q);
    }
  }

  /** A masked statement means the original one on the cleared database, if it calls nothing else by a masked name: the
      answers agree in every column not named like a masked one, and are equal if the statement lists its columns. */
  lemma MaskingIsView(q: Query, columns: set<string>, db: Database)
    requires WellFormed(db) && QueryOk(q, Rules(false, columns != {}, None), {}) && Honest(q, FoldAll(columns))
    ensures RelationsAgree(FoldAll(columns), Run(RewriteMaskedColumns(q, columns), db), Run(q, Clear(columns, db)))
    ensures StarFree(q) ==> Run(RewriteMaskedColumns(q, columns), db) == Run(q, Clear(columns, db))
  {
    FoldAllEmpty(columns);
    RewrittenMasked(q, columns);
    DatabaseClears(columns, db);
    MaskingHidesColumns(q, FoldAll(columns), db, Clear(columns, db));
    QueryKept(q, FoldAll(columns), Site(Clear(columns, db), map[]), Top);
  }

  // ---- Masking and scoping ----

  lemma ClearedOwn(scope: Scope, columns: set<string>, cols: seq<string>, row: Row, engine: Engine)
    requires Disjoint(scope, FoldAll(columns)) && |row| == |cols|
    ensures OwnRow(scope, cols, ClearRow(columns, cols, row), engine) == OwnRow(scope, cols, row, engine)
  {
    var cleared := ClearRow(columns, cols, row);
    RowClears(columns, cols, row);
    TagNames("", cols);
    forall r | r in scope
      ensures Passes(r, None, Tag("", cols), cleared, engine) == Passes(r, None, Tag("", cols), row, engine)
    {
      ReadAgree(FoldAll(columns), Tag("", cols), row, cleared, None, r.column);
    }
  }

  /** Clearing a cut relation leaves it cut. */
  lemma ClearedCut(scope: Scope, columns: set<string>, r: Relation, engine: Engine)
    requires Disjoint(scope, FoldAll(columns)) && Rectangular(r)
    ensures var own := ClearRelation(columns, CutRelation(r, scope, engine)); CutRelation(own, scope, engine) == own
  {
    var cut := CutRelation(r, scope, engine);
    var own := ClearRelation(columns, cut);
    forall row | row in own.rows ensures OwnTest(scope, r.cols, engine)(row) {
      var i :| 0 <= i < |cut.rows| && own.rows[i] == row;
      assert cut.rows[i] in cut.rows;
      ClearedOwn(scope, columns, r.cols, cut.rows[i], engine);
    }
    FilterAll(OwnTest(scope, r.cols, engine), own.rows);
  }

  lemma ViewSetting(scope: Scope, columns: set<string>, db: Database)
    requires WellFormed(db) && Disjoint(scope, FoldAll(columns))
    ensures Setting(scope, FoldAll(columns), true, None, db, Clear(columns, Cut(db, scope))).Valid()
    ensures WellFormed(Cut(db, scope))
  {
    CutWellFormed(db, scope);
    var view := Clear(columns, Cut(db, scope));
    forall t | t in db.tables
      ensures Rectangular(view.tables[t]) && CutRelation(view.tables[t], scope, db.engine) == view.tables[t]
      ensures RelationsAgree(FoldAll(columns), CutRelation(db.tables[t], scope, db.engine),
                             CutRelation(view.tables[t], scope, db.engine))
    {
      RelationClears(columns, CutRelation(db.tables[t], scope, db.engine));
      ClearedCut(scope, columns, db.tables[t], db.engine);
    }
  }

  /** What `execute` runs, on the whole database, is the original statement on the view. */
  lemma ExecutedIsView(q: Query, scope: Scope, columns: set<string>, db: Database)
    requires WellFormed(db) && Disjoint(scope, FoldAll(columns))
    requires QueryOk(q, Rules(true, columns != {}, None), {}) && Honest(q, FoldAll(columns))
    ensures var executed, view := MaskQuery(ScopeQuery(q, scope), FoldAll(columns)), Clear(columns, Cut(db, scope));
      && RelationsAgree(FoldAll(columns), Run(executed, db), Run(q, view))
      && (StarFree(q) || columns == {} ==> Run(executed, db) == Run(q, view))
  {
    FoldAllEmpty(columns);
    ViewSetting(scope, columns, db);
    DatabaseClears(columns, Cut(db, scope));
    var view := Clear(columns, Cut(db, scope));
    RunsAgree(Setting(scope, FoldAll(columns), true, None, db, view), q);
    ScopeNothing(q);
    QueryKept(q, FoldAll(columns), Site(view, map[]), Top);
  }

  /** The database as the subject sees it: its own rows, with NULL in every masked column. */
  function View(db: Database, restrictions: Restrictions, attributes: Attributes, columns: set<string>): Database {
    Clear(columns, SubjectsDatabase(db, restrictions, attributes))
  }

  /** End to end: the gateway returns the records of the original statement's answer on the subject's view. */
  lemma GatewayIsView(q: Query, restrictions: Restrictions, attributes: Attributes, columns: set<string>,
                      repository: Repository, aliases: map<string, set<string>>, db: Database)
    requires WellFormed(db) && AllAnswered(restrictions, attributes) && NoneMasked(restrictions, columns)
    requires QueryOk(q, Rules(true, columns != {}, None), {}) && Honest(q, FoldAll(columns))
    requires StarFree(q) || (Nameable(FoldAll(columns)) && FiltersPublicly(repository, FoldAll(columns)))
    ensures var answer := Run(q, View(db, restrictions, attributes, columns));
      Execute(q, restrictions, attributes, columns, repository, aliases, db)
        == Ok(Records(answer, repository, columns, aliases))
  {
    RefusedExactly(q, restrictions, attributes, columns, repository, aliases, db);
    ResolveMeans(restrictions, attributes);
    assert forall r | r in restrictions :: Resolves(r, attributes);
    var scope := ScopeOf(restrictions, attributes);
    NoneMaskedMeans(restrictions, attributes, columns);
    ExecutedQuery(q, restrictions, attributes, columns, repository, aliases, db);
    DatabaseIsCut(db, restrictions, attributes);
    ExecutedIsView(q, scope, columns, db);
    var executed := MaskQuery(ScopeQuery(q, scope), FoldAll(columns));
    if !StarFree(q) {
      RecordsEqual(columns, repository, aliases, Run(executed, db), Run(q, Clear(columns, Cut(db, scope))));
    }
  }

  /** And so it answers every query that the policies allow. */
  lemma AllowedIsView(r: Gateway.Request, q: Query, db: Database)
    requires Gateway.DecisionOn(r, q).allowed && WellFormed(db)
    requires var d := Gateway.DecisionOn(r, q);
      && AllAnswered(d.rowRestrictions, r.who.attributes) && NoneMasked(d.rowRestrictions, d.masked)
      && QueryOk(q, Rules(true, d.masked != {}, None), {}) && Honest(q, FoldAll(d.masked))
      && (StarFree(q) || (Nameable(FoldAll(d.masked)) && FiltersPublicly(r.repository, FoldAll(d.masked))))
    ensures var d := Gateway.DecisionOn(r, q);
      var answer := Run(q, View(db, d.rowRestrictions, r.who.attributes, d.masked));
      Gateway.Answered(r, q, db) == Ok(Records(answer, r.repository, d.masked, r.aliases))
  {
    var d := Gateway.DecisionOn(r, q);
    GatewayIsView(q, d.rowRestrictions, r.who.attributes, d.masked, r.repository, r.aliases, db);
  }
}
