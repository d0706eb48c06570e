/** The theorems about governed queries: what the rewrites of `services/query_gateway.py` guarantee. */
module GovernedQuery {
  import opened Wrappers
  import opened Identifiers
  import opened Sequences
  import opened SqlAst
  import opened SqlSemantics
  import opened Rewrites
  import opened RewriteFacts
  import opened ScopedRows
  import opened Agreement
  import opened Fragment
  import opened Simulation
  import opened SimulationProof
  import opened Headers
  import opened ResultMasking

  function Run(q: Query, db: Database): Relation {
    Eval(q, Site(db, map[]), Top)
  }

  // ---- Row scoping ----

  lemma CutTwice(db: Database, scope: Scope)
    ensures forall t | t in Cut(db, scope).tables ::
      CutRelation(Cut(db, scope).tables[t], scope, db.engine) == Cut(db, scope).tables[t]
  {
    forall t | t in db.tables
      ensures CutRelation(CutRelation(db.tables[t], scope, db.engine), scope, db.engine)
           == CutRelation(db.tables[t], scope, db.engine)
    {
      FilterAll(OwnTest(scope, db.tables[t].cols, db.engine), CutRelation(db.tables[t], scope, db.engine).rows);
    }
  }

  lemma CutSelfAgree(db: Database, scope: Scope)
    requires WellFormed(db)
    ensures forall t | t in db.tables ::
      RelationsAgree({}, CutRelation(db.tables[t], scope, db.engine), CutRelation(db.tables[t], scope, db.engine))
  {
    forall t | t in db.tables
      ensures RelationsAgree({}, CutRelation(db.tables[t], scope, db.engine),
                             CutRelation(db.tables[t], scope, db.engine))
    {
      SelfAgree({}, CutRelation(db.tables[t], scope, db.engine));
    }
  }

  /** Both executions of one rewritten statement, from the setting's two databases. */
  lemma RunsAgree(s: Setting, q: Query)
    requires s.Valid() && QueryOk(q, s.Rules(), {})
    ensures RelationsAgree(s.secret, Run(s.LQuery(q), s.left), Run(s.RQuery(q), s.right))
    ensures s.secret == {} || StarFree(q) ==> Run(s.LQuery(q), s.left) == Run(s.RQuery(q), s.right)
  {
    var m, n := Site(s.left, map[]), Site(s.right, map[]);
    assert m.ctes.Keys == {};
    QuerySimulates(s, q, m, n);
    assert QueryAgree(s, q, m, n, Top, Top);
  }

  /** A database on the left and its cut on the right. */
  lemma CutSetting(db: Database, scope: Scope)
    requires WellFormed(db)
    ensures Setting(scope, {}, true, None, db, Cut(db, scope)).Valid()
  {
    CutTwice(db, scope);
    CutSelfAgree(db, scope);
  }

  /** Row scoping preserves meaning: the scoped statement means the original statement on the database
      cut to the subject's rows. */
  lemma ScopingPreservesMeaning(q: Query, scope: Scope, db: Database)
    requires WellFormed(db) && QueryOk(q, Rules(true, false, None), {})
    ensures Run(ScopeQuery(q, scope), db) == Run(q, Cut(db, scope))
  {
    CutSetting(db, scope);
    RunsAgree(Setting(scope, {}, true, None, db, Cut(db, scope)), q);
    MaskNothing(ScopeQuery(q, scope));
    ScopeNothing(q);
    MaskNothing(q);
  }

  /** With outer joins and CTEs too, a scoped statement cannot tell two databases apart that hold the
      same in-scope rows. */
  lemma ScopingHidesRows(q: Query, scope: Scope, left: Database, right: Database)
    requires WellFormed(left) && WellFormed(right) && QueryOk(q, Rules(false, false, None), {})
    requires Cut(left, scope) == Cut(right, scope)
    ensures Run(ScopeQuery(q, scope), left) == Run(ScopeQuery(q, scope), right)
  {
    CutsEqual(left, right, scope);
    CutSelfAgree(left, scope);
    RunsAgree(Setting(scope, {}, false, None, left, right), q);
    MaskNothing(ScopeQuery(q, scope));
  }

  /** In particular it answers as on the cut database. */
  lemma ScopedOnCutDatabase(q: Query, scope: Scope, db: Database)
    requires WellFormed(db) && QueryOk(q, Rules(false, false, None), {})
    ensures Run(ScopeQuery(q, scope), db) == Run(ScopeQuery(q, scope), Cut(db, scope))
  {
    CutIdempotent(db, scope);
    ScopingHidesRows(q, scope, db, Cut(db, scope));
  }

  lemma CutIdempotent(db: Database, scope: Scope)
    requires WellFormed(db)
    ensures WellFormed(Cut(db, scope)) && Cut(Cut(db, scope), scope) == Cut(db, scope)
  {
    CutTwice(db, scope);
    var own := Cut(db, scope);
    assert Cut(own, scope).tables.Keys == own.tables.Keys;
    assert forall t | t in own.tables :: Cut(own, scope).tables[t] == own.tables[t];
    assert Cut(own, scope).tables == own.tables;
    CutWellFormed(db, scope);
  }

  lemma CutWellFormed(db: Database, scope: Scope)
    requires WellFormed(db)
    ensures WellFormed(Cut(db, scope))
  {
    forall t | t in db.tables ensures Rectangular(CutRelation(db.tables[t], scope, db.engine)) {}
  }

  lemma CutsEqual(left: Database, right: Database, scope: Scope)
    requires Cut(left, scope) == Cut(right, scope)
    ensures left.engine == right.engine && left.tables.Keys == right.tables.Keys
    ensures forall t | t in left.tables ::
      CutRelation(left.tables[t], scope, left.engine) == CutRelation(right.tables[t], scope, right.engine)
  {
    assert left.tables.Keys == Cut(left, scope).tables.Keys;
    assert right.tables.Keys == Cut(right, scope).tables.Keys;
    forall t | t in left.tables
      ensures CutRelation(left.tables[t], scope, left.engine) == CutRelation(right.tables[t], scope, right.engine)
    {
      assert Cut(left, scope).tables[t] == Cut(right, scope).tables[t];
    }
  }

  // ---- Masking ----

  ghost predicate DatabasesAgree(secret: set<string>, left: Database, right: Database) {
    && left.engine == right.engine && left.tables.Keys == right.tables.Keys
    && forall t | t in left.tables :: RelationsAgree(secret, left.tables[t], right.tables[t])
  }

  lemma CutByNothing(r: Relation, engine: Engine)
    ensures CutRelation(r, [], engine) == r
  {
    FilterAll(OwnTest([], r.cols, engine), r.rows);
  }

  lemma MaskingSetting(masked: set<string>, left: Database, right: Database)
    requires DatabasesAgree(masked, left, right)
    ensures Setting([], masked, false, None, left, right).Valid()
  {
    forall t | t in left.tables
      ensures Rectangular(left.tables[t]) && Rectangular(right.tables[t])
      ensures RelationsAgree(masked, CutRelation(left.tables[t], [], left.engine),
                             CutRelation(right.tables[t], [], left.engine))
    {
      AgreeingWidth(masked, left.tables[t], right.tables[t]);
      CutByNothing(left.tables[t], left.engine);
      CutByNothing(right.tables[t], left.engine);
    }
  }

  /** A masked statement cannot tell two databases apart that differ in masked columns only: the answers
      agree in every column not named like a masked one, and are equal if the statement lists its columns. */
  lemma MaskingHidesColumns(q: Query, masked: set<string>, left: Database, right: Database)
    requires DatabasesAgree(masked, left, right) && QueryOk(q, Rules(false, masked != {}, None), {})
    ensures RelationsAgree(masked, Run(MaskQuery(q, masked), left), Run(MaskQuery(q, masked), right))
    ensures StarFree(q) ==> Run(MaskQuery(q, masked), left) == Run(MaskQuery(q, masked), right)
  {
    MaskingSetting(masked, left, right);
    RunsAgree(Setting([], masked, false, None, left, right), q);
    ScopeNothing(q);
  }

  /** The rewrites keep the output column names exactly when no masked column names one from behind
      parentheses, a cast or an ELSE, looking through stars, derived tables and CTEs. */
  lemma HeadersKept(q: Query, scope: Scope, masked: set<string>, db: Database)
    ensures Run(MaskQuery(ScopeQuery(q, scope), masked), db).cols == Run(q, db).cols <==> HeaderSafe(q, masked, {})
  {
    HeaderExact(q, scope, masked, {}, Site(db, map[]), Site(db, map[]), Top, Top);
  }

  // ---- Masking and scoping together ----

  /** With no restricted column masked, masking after scoping is masking on the cut database. */
  lemma MaskedOnCutDatabase(q: Query, scope: Scope, masked: set<string>, db: Database)
    requires WellFormed(db) && Disjoint(scope, masked) && QueryOk(MaskQuery(q, masked), Rules(true, false, None), {})
    ensures Run(MaskQuery(ScopeQuery(q, scope), masked), db) == Run(MaskQuery(q, masked), Cut(db, scope))
  {
    RewritesCommute(q, scope, masked);
    ScopingPreservesMeaning(MaskQuery(q, masked), scope, db);
  }

  lemma {:induction false} UnknownConjunct(c: Cond, ps: seq<Expr>, masked: set<string>, p: Expr, m: Site, env: Env)
    requires p in ps && EvalExpr(MaskExpr(p, masked), m, env, []) != Bool(true)
    ensures !Holds(MaskCond(ConjoinAll(c, ps), masked), m, env, [])
  {
    var init, last := ps[..|ps| - 1], ps[|ps| - 1];
    if p != last {
      assert ps == init + [last];
      UnknownConjunct(c, init, masked, p, m, env);
    }
    ConjunctUnknown(ConjoinAll(c, init), masked, last, m, env);
  }

  /** A conjunction holds only if both parts do. */
  lemma ConjunctUnknown(c: Cond, masked: set<string>, p: Expr, m: Site, env: Env)
    requires !Holds(MaskCond(c, masked), m, env, []) || EvalExpr(MaskExpr(p, masked), m, env, []) != Bool(true)
    ensures !Holds(MaskCond(Conjoin(c, p), masked), m, env, [])
  {
    match c
    case Always => assert MaskCond(Conjoin(c, p), masked) == If(MaskExpr(p, masked));
    case If(e) =>
      assert MaskExpr(Enclosed(e), masked) == Enclosed(MaskExpr(e, masked));
      assert MaskCond(Conjoin(c, p), masked) == Conjoin(MaskCond(c, masked), MaskExpr(p, masked));
      ConjunctHolds(MaskCond(c, masked), MaskExpr(p, masked), m, env);
  }

  lemma MaskedPredicate(r: Restriction, qualifier: string, masked: set<string>, m: Site, env: Env)
    requires Fold(r.column) in masked
    ensures EvalExpr(MaskExpr(ScopePredicate(r, qualifier), masked), m, env, []) == Null
  {
    var p := ScopePredicate(r, qualifier);
    assert p.l == Col(Some(qualifier), r.column) && MaskExpr(p.l, masked) == Const(Null);
    assert MaskExpr(p, masked) == Binary(Eq, Const(Null), MaskExpr(p.r, masked));
  }

  /** When a restricted column is itself masked, a SELECT that names a table keeps no row at all: the
      inserted predicate has become `NULL = value`. */
  lemma MaskedScopeColumn(where: Cond, f: From, scope: Scope, masked: set<string>, r: Restriction,
                          m: Site, shape: Shape, rows: seq<Row>, env: Env)
    requires r in scope && Fold(r.column) in masked && TableQualifiers(f) != []
    ensures Filter(RowTest(MaskCond(ScopedWhere(where, f, scope), masked), m, shape, env), rows) == []
  {
    var qs := SortedSet(TableQualifiers(f));
    assert TableQualifiers(f)[0] in qs;
    var ps, p := ScopePredicates(scope, qs), ScopePredicate(r, qs[0]);
    assert p in ps by { PredicatesListed(scope, qs); }
    var test := RowTest(MaskCond(ConjoinAll(where, ps), masked), m, shape, env);
    forall row | row in rows ensures !test(row) {
      MaskedPredicate(r, qs[0], masked, m, Inside(shape, row, env));
      UnknownConjunct(where, ps, masked, p, m, Inside(shape, row, env));
    }
    FilterNone(test, rows);
  }

  /** So such a SELECT returns nothing; if it is one group without GROUP BY, because it aggregates or has a
      HAVING, it returns at most the row of the empty group. */
  lemma MaskedScopeColumnEmpties(q: Query, scope: Scope, masked: set<string>, r: Restriction, m: Site, env: Env)
    requires q.Select? && r in scope && Fold(r.column) in masked && TableQualifiers(q.from) != []
    ensures |Eval(MaskQuery(ScopeQuery(q, scope), masked), m, env).rows|
         <= if q.groupBy.More? || !IsGrouped(q.groupBy, q.items, q.having, q.orderBy) then 0 else 1
  {
    var l := MaskQuery(ScopeQuery(q, scope), masked);
    GroupingKept(q.groupBy, q.items, q.having, q.orderBy, scope, masked);
    var j := EvalFrom(l.from, m, env);
    MaskedScopeColumn(ScopeCond(q.where, scope), q.from, scope, masked, r, m, j.shape, j.rows, env);
    var grouped := IsGrouped(l.groupBy, l.items, l.having, l.orderBy);
    var cols := ItemNames(l.items, j.shape.fields);
    SelectUnfolded(l, m, env);
    var block := Block(l.items, l.groupBy, grouped, l.having, l.orderBy, m, j.shape, cols, [], env);
    EmptyBlock(l.items, l.groupBy, grouped, l.having, l.orderBy, m, j.shape, cols, env);
    FinishNoMore(block, l.distinct, l.orderBy.More?, l.descending, l.limit, m.db.engine);
  }

  lemma EmptyBlock(items: Items, groupBy: Exprs, grouped: bool, having: Cond, orderBy: Exprs, m: Site, shape: Shape,
                   cols: seq<string>, env: Env)
    ensures |Block(items, groupBy, grouped, having, orderBy, m, shape, cols, [], env)|
         <= if groupBy.More? || !grouped then 0 else 1
  {
    var units := Units(groupBy, grouped, OutRow(items, m, shape, env), m, cols, shape, [], env);
    assert |units| <= if groupBy.More? || !grouped then 0 else 1;
  }

  lemma {:induction false} DistinctNoMore(ks: seq<Keyed>)
    ensures |DistinctKeyed(ks)| <= |ks|
  {
    if ks != [] {
      DistinctNoMore(ks[..|ks| - 1]);
    }
  }

  lemma {:induction false} InsertOneMore(k: Keyed, ks: seq<Keyed>, descending: seq<bool>, engine: Engine)
    ensures |Insert(k, ks, descending, engine)| == |ks| + 1
  {
    if ks != [] {
      InsertOneMore(k, ks[..|ks| - 1], descending, engine);
    }
  }

  lemma {:induction false} SortNoMore(ks: seq<Keyed>, descending: seq<bool>, engine: Engine)
    ensures |Sort(ks, descending, engine)| == |ks|
  {
    if ks != [] {
      SortNoMore(ks[..|ks| - 1], descending, engine);
      InsertOneMore(ks[|ks| - 1], Sort(ks[..|ks| - 1], descending, engine), descending, engine);
    }
  }

  lemma FinishNoMore(ks: seq<Keyed>, distinct: bool, ordered: bool, descending: seq<bool>, limit: Option<nat>,
                     engine: Engine)
    ensures |Finish(ks, distinct, ordered, descending, limit, engine)| <= |ks|
  {
    DistinctNoMore(ks);
    SortNoMore(ks, descending, engine);
    SortNoMore(DistinctKeyed(ks), descending, engine);
  }

  // ---- The pipeline ----

  /** `execute` after an allowing decision: scope, then mask, then run, filter and hide in the repository, and
      then mask the result rows. */
  function Execute(q: Query, restrictions: seq<(string, string)>, attributes: map<string, Option<string>>,
                   columns: set<string>, repository: Repository, aliases: map<string, set<string>>, db: Database)
    : Result<seq<Record>, string>
  {
    match ApplyRowRestrictions(q, restrictions, attributes)
    case Err(a) => Err(a)
    case Ok(restricted) => Ok(Records(Run(RewriteMaskedColumns(restricted, columns), db), repository, columns, aliases))
  }

  function ScopeOf(restrictions: seq<(string, string)>, attributes: map<string, Option<string>>): Scope {
    match ResolveScope(restrictions, attributes)
    case Err(_) => []
    case Ok(scope) => scope
  }

  /** The two databases agree on the in-scope rows and public columns of the given tables, or of all tables. */
  ghost predicate SubjectSees(only: Option<set<string>>, scope: Scope, secret: set<string>, left: Database,
                              right: Database) {
    && WellFormed(left) && WellFormed(right) && left.engine == right.engine
    && forall t | only.None? || t in only.value ::
         && (t in left.tables <==> t in right.tables)
         && (t in left.tables ==>
               RelationsAgree(secret, CutRelation(left.tables[t], scope, left.engine),
                              CutRelation(right.tables[t], scope, left.engine)))
  }

  ghost predicate SubjectSeesTheSame(scope: Scope, secret: set<string>, left: Database, right: Database) {
    SubjectSees(None, scope, secret, left, right)
  }

  /** What `execute` runs is the statement scoped and masked, whichever of the two is empty. */
  lemma ExecutedQuery(q: Query, restrictions: seq<(string, string)>, attributes: map<string, Option<string>>,
                      columns: set<string>, repository: Repository, aliases: map<string, set<string>>, db: Database)
    requires ResolveScope(restrictions, attributes).Ok?
    ensures var executed := MaskQuery(ScopeQuery(q, ScopeOf(restrictions, attributes)), FoldAll(columns));
      Execute(q, restrictions, attributes, columns, repository, aliases, db)
      == Ok(Records(Run(executed, db), repository, columns, aliases))
  {
    ScopeNothing(q);
    if columns == {} {
      assert FoldAll(columns) == {};
      MaskNothing(ScopeQuery(q, ScopeOf(restrictions, attributes)));
    }
  }

  /** End to end: two databases that agree on the in-scope rows and unmasked columns of the tables a statement
      may read are indistinguishable through the gateway. */
  lemma GatewayHidesTheRest(q: Query, restrictions: seq<(string, string)>, attributes: map<string, Option<string>>,
                            columns: set<string>, repository: Repository, aliases: map<string, set<string>>,
                            only: Option<set<string>>, left: Database, right: Database)
    requires SubjectSees(only, ScopeOf(restrictions, attributes), FoldAll(columns), left, right)
    requires Disjoint(ScopeOf(restrictions, attributes), FoldAll(columns))
    requires QueryOk(q, Rules(false, columns != {}, only), {})
    requires StarFree(q) || (Nameable(FoldAll(columns)) && FiltersPublicly(repository, FoldAll(columns)))
    ensures Execute(q, restrictions, attributes, columns, repository, aliases, left)
         == Execute(q, restrictions, attributes, columns, repository, aliases, right)
  {
    if ResolveScope(restrictions, attributes).Ok? {
      var scope, secret := ScopeOf(restrictions, attributes), FoldAll(columns);
      FoldAllEmpty(columns);
      SettingAnswers(scope, secret, only, left, right, q);
      ExecutedQuery(q, restrictions, attributes, columns, repository, aliases, left);
      ExecutedQuery(q, restrictions, attributes, columns, repository, aliases, right);
      if !StarFree(q) {
        var x, y := Run(MaskQuery(ScopeQuery(q, scope), secret), left), Run(MaskQuery(ScopeQuery(q, scope), secret),
            right);
        RecordsEqual(columns, repository, aliases, x, y);
      }
    }
  }

  /** The rewritten statement on two such databases, before `mask_rows`. */
  lemma SettingAnswers(scope: Scope, secret: set<string>, only: Option<set<string>>, left: Database, right: Database,
                       q: Query)
    requires SubjectSees(only, scope, secret, left, right) && Disjoint(scope, secret)
    requires QueryOk(q, Rules(false, secret != {}, only), {})
    ensures var l, r := Run(MaskQuery(ScopeQuery(q, scope), secret), left),
        Run(MaskQuery(ScopeQuery(q, scope), secret), right);
      RelationsAgree(secret, l, r) && (secret == {} || StarFree(q) ==> l == r)
  {
    RunsAgree(Setting(scope, secret, false, only, left, right), q);
  }
}
