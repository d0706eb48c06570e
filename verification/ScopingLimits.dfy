/** Where row scoping stops preserving meaning: exactly which answers change when the scoped SELECT pads a
    table in an outer join, or names a CTE. */
module ScopingLimits {
  import opened Wrappers
  import opened Identifiers
  import opened Sequences
  import opened SqlAst
  import opened SqlSemantics
  import opened Rewrites
  import opened JoinAlgebra
  import opened ScopedRows
  import opened Pairing
  import opened Agreement
  import opened Fragment
  import opened Simulation
  import opened SimulationProof
  import opened PlainSelects
  import opened GovernedQuery
  import opened Headers

  const PRESERVING := Rules.Rules(true, false, None)

  /** A further test changes nothing exactly when every row that passes the first passes it too. */
  lemma {:induction false} FilterBothExact<T>(first: T -> bool, second: T -> bool, s: seq<T>)
    ensures |Filter(first, Filter(second, s))| <= |Filter(first, s)|
    ensures Filter(first, Filter(second, s)) == Filter(first, s) <==> forall x | x in s && first(x) :: second(x)
  {
    if s != [] {
      FilterBothExact(first, second, s[1..]);
      var kept, all := Filter(first, Filter(second, s[1..])), Filter(first, s[1..]);
      assert s == [s[0]] + s[1..] && forall x :: x in s <==> x == s[0] || x in s[1..];
      if second(s[0]) {
        FilterCons(first, s[0], Filter(second, s[1..]));
        assert ([s[0]] + kept)[1..] == kept && ([s[0]] + all)[1..] == all;
      } else {
        assert [] + Filter(second, s[1..]) == Filter(second, s[1..]);
      }
    }
  }

  lemma EqualRows(names: seq<string>, a: seq<Row>, b: seq<Row>)
    requires Paired(Agreeing({}, names), a, b)
    ensures a == b
  {
    forall i | 0 <= i < |a| ensures a[i] == b[i] {
      assert Agreeing({}, names)(a[i], b[i]);
      NothingSecret(names, a[i], b[i]);
    }
  }

  /** On the rows of one shape, both sides of a setting without secrets test alike. */
  lemma SameKept(s: Setting, c: Cond, m: Site, n: Site, shape: Shape, rows: seq<Row>)
    requires s.secret == {} && CondSim(s, c, m, n) && Width(rows, |shape.fields|)
    ensures Filter(RowTest(s.LCond(c), m, shape, Top), rows) == Filter(RowTest(s.RCond(c), n, shape, Top), rows)
  {
    OnSim(s, c, m, n, shape, Top, Top);
    forall row | row in rows
      ensures RowTest(s.LCond(c), m, shape, Top)(row) == RowTest(s.RCond(c), n, shape, Top)(row)
    {
      assert Agreeing({}, FieldNames(shape.fields))(row, row);
    }
    FilterSame(RowTest(s.LCond(c), m, shape, Top), RowTest(s.RCond(c), n, shape, Top), rows);
  }

  lemma RightIsOriginal(s: Setting, f: From, c: Cond)
    requires s.exact && s.secret == {}
    ensures s.RFrom(f) == f && s.RCond(c) == c
    ensures s.LFrom(f) == ScopeFrom(f, s.scope) && s.LCond(c) == ScopeCond(c, s.scope)
  {
    ScopeNoFrom(f);
    ScopeNoCond(c);
    MaskNoFrom(f);
    MaskNoCond(c);
    MaskNoFrom(ScopeFrom(f, s.scope));
    MaskNoCond(ScopeCond(c, s.scope));
  }

  /** A scoped SELECT *, from the rows its FROM clause joins. */
  lemma ScopedStar(f: From, where: Cond, scope: Scope, m: Site)
    ensures var j := EvalFrom(ScopeFrom(f, scope), m, Top);
      Eval(ScopeQuery(Plain(Star(NoItem), f, where), scope), m, Top)
      == Relation(FieldNames(j.shape.fields),
                  Filter(RowTest(ScopedWhere(ScopeCond(where, scope), f, scope), m, j.shape, Top), j.rows))
  {
    PlainScoped(Star(NoItem), f, where, scope);
    assert ScopeItems(Star(NoItem), scope) == Star(NoItem);
    StarMeans(ScopeFrom(f, scope), ScopedWhere(ScopeCond(where, scope), f, scope), m, Top);
  }

  // ---- Outer joins ----

  /** Some right row joins to the left row, or the padded left row fails the WHERE. */
  predicate MatchedOrDropped(on: Row -> bool, where: Row -> bool, l: Row, rs: seq<Row>, width: nat) {
    (exists r | r in rs :: on(l + r)) || !where(l + Nulls(width))
  }

  /** Some left row joins to the right row, or the padded right row fails the WHERE. */
  predicate RightMatchedOrDropped(on: Row -> bool, where: Row -> bool, r: Row, ls: seq<Row>, width: nat) {
    (exists l | l in ls :: on(l + r)) || !where(Nulls(width) + r)
  }

  /** No row survives that a join of this kind pads in the place of a table: `leftNamed` and `rightNamed` tell
      whether that side names tables directly. */
  predicate NothingPadded(kind: JoinKind, leftNamed: bool, rightNamed: bool, on: Row -> bool, where: Row -> bool,
                          ls: seq<Row>, lwidth: nat, rs: seq<Row>, rwidth: nat) {
    && (kind.KeepsLeft() && rightNamed ==> forall l | l in ls :: MatchedOrDropped(on, where, l, rs, rwidth))
    && (kind.KeepsRight() && leftNamed ==> forall r | r in rs :: RightMatchedOrDropped(on, where, r, ls, lwidth))
  }

  predicate AllPass(rows: seq<Row>, keep: Row -> bool, both: Row -> bool) {
    forall row | row in rows && keep(row) :: both(row)
  }

  lemma AllPassAppend(a: seq<Row>, b: seq<Row>, keep: Row -> bool, both: Row -> bool)
    ensures AllPass(a + b, keep, both) <==> AllPass(a, keep, both) && AllPass(b, keep, both)
  {
    assert forall row :: row in a + b <==> row in a || row in b;
  }

  lemma {:induction false} MatchExists(on: Row -> bool, l: Row, rs: seq<Row>)
    ensures Matches(on, l, rs) != [] <==> exists r | r in rs :: on(l + r)
  {
    if rs != [] {
      MatchExists(on, l, rs[1..]);
      assert rs == [rs[0]] + rs[1..];
    }
  }

  lemma {:induction false} AnyMatchExists(on: Row -> bool, ls: seq<Row>, r: Row)
    ensures AnyMatch(on, ls, r) <==> exists l | l in ls :: on(l + r)
  {
    if ls != [] {
      AnyMatchExists(on, ls[1..], r);
      assert ls == [ls[0]] + ls[1..];
    }
  }

  /** The rows one left row contributes pass when it has a match, or its padded row is dropped. */
  lemma PaddedHead(p: Parts, on: Row -> bool, keep: Row -> bool, l: Row, rs: seq<Row>)
    requires p.Valid() && |l| == p.lwidth && Width(rs, p.rwidth) && !p.right(Nulls(p.rwidth))
    requires p.left(l) && forall r | r in rs :: p.right(r)
    ensures AllPass(LeftHead(on, true, p.rwidth, l, rs), keep, p.both) <==> MatchedOrDropped(on, keep, l, rs, p.rwidth)
  {
    MatchExists(on, l, rs);
    MatchesFiltered(p, on, l, rs);
    FilterAll(p.right, rs);
    assert p.both(l + Nulls(p.rwidth)) == (p.left(l) && p.right(Nulls(p.rwidth)));
    if Matches(on, l, rs) == [] {
      assert LeftHead(on, true, p.rwidth, l, rs) == [l + Nulls(p.rwidth)];
    }
  }

  lemma {:induction false} PaddedLeft(p: Parts, on: Row -> bool, keep: Row -> bool, ls: seq<Row>, rs: seq<Row>)
    requires p.Valid() && Width(ls, p.lwidth) && Width(rs, p.rwidth) && !p.right(Nulls(p.rwidth))
    requires (forall l | l in ls :: p.left(l)) && forall r | r in rs :: p.right(r)
    ensures AllPass(LeftPart(on, true, p.rwidth, ls, rs), keep, p.both)
       <==> forall l | l in ls :: MatchedOrDropped(on, keep, l, rs, p.rwidth)
  {
    if ls != [] {
      PaddedLeft(p, on, keep, ls[1..], rs);
      PaddedHead(p, on, keep, ls[0], rs);
      AllPassAppend(LeftHead(on, true, p.rwidth, ls[0], rs), LeftPart(on, true, p.rwidth, ls[1..], rs), keep, p.both);
      assert forall l :: l in ls <==> l == ls[0] || l in ls[1..];
    }
  }

  lemma PaddedRightHead(p: Parts, on: Row -> bool, keep: Row -> bool, ls: seq<Row>, r: Row)
    requires p.Valid() && |r| == p.rwidth && p.right(r) && !p.left(Nulls(p.lwidth))
    ensures AllPass(RightHead(on, p.lwidth, ls, r), keep, p.both) <==> RightMatchedOrDropped(on, keep, r, ls, p.lwidth)
  {
    AnyMatchExists(on, ls, r);
    assert p.both(Nulls(p.lwidth) + r) == (p.left(Nulls(p.lwidth)) && p.right(r));
    assert AnyMatch(on, ls, r) || RightHead(on, p.lwidth, ls, r) == [Nulls(p.lwidth) + r];
  }

  lemma {:induction false} PaddedRight(p: Parts, on: Row -> bool, keep: Row -> bool, ls: seq<Row>, rs: seq<Row>)
    requires p.Valid() && Width(rs, p.rwidth) && !p.left(Nulls(p.lwidth)) && forall r | r in rs :: p.right(r)
    ensures AllPass(RightPart(on, p.lwidth, ls, rs), keep, p.both)
       <==> forall r | r in rs :: RightMatchedOrDropped(on, keep, r, ls, p.lwidth)
  {
    if rs != [] {
      PaddedRight(p, on, keep, ls, rs[1..]);
      PaddedRightHead(p, on, keep, ls, rs[0]);
      AllPassAppend(RightHead(on, p.lwidth, ls, rs[0]), RightPart(on, p.lwidth, ls, rs[1..]), keep, p.both);
      assert forall r :: r in rs <==> r == rs[0] || r in rs[1..];
    }
  }

  /** For every kind of join of rows that pass: the joined rows that are kept pass exactly when nothing
      padded is kept. */
  lemma JoinPadded(p: Parts, kind: JoinKind, on: Row -> bool, keep: Row -> bool, ls: seq<Row>, rs: seq<Row>)
    requires p.Valid() && Width(ls, p.lwidth) && Width(rs, p.rwidth)
    requires (forall l | l in ls :: p.left(l)) && forall r | r in rs :: p.right(r)
    ensures AllPass(JoinRows(on, kind, p.lwidth, p.rwidth, ls, rs), keep, p.both)
       <==> NothingPadded(kind, !p.left(Nulls(p.lwidth)), !p.right(Nulls(p.rwidth)), on, keep, ls, p.lwidth, rs,
                          p.rwidth)
  {
    var left := LeftPart(on, kind.KeepsLeft(), p.rwidth, ls, rs);
    var right := if kind.KeepsRight() then RightPart(on, p.lwidth, ls, rs) else [];
    AllPassAppend(left, right, keep, p.both);
    if kind.KeepsLeft() && !p.right(Nulls(p.rwidth)) {
      PaddedLeft(p, on, keep, ls, rs);
    } else {
      LeftPartPasses(p, on, kind.KeepsLeft(), ls, rs);
    }
    if kind.KeepsRight() {
      if p.left(Nulls(p.lwidth)) {
        RightPartPasses(p, on, ls, rs);
      } else {
        PaddedRight(p, on, keep, ls, rs);
      }
    }
  }

  /** The join of both sides: the scoped one on the database and the original one on its cut. */
  lemma OuterJoinSim(s: Setting, f: From, m: Site, n: Site)
    requires s.Valid() && s.secret == {} && SitesAgree(s, m, n) && f.Join? && JoinOk(s, f, m)
    ensures JoinedAgree(s.(exact := false), TableQualifiers(f), Aliases(f), EvalFrom(s.LFrom(f), m, Top),
                        EvalFrom(s.RFrom(f), n, Top))
    ensures FromAgree(s, f.left, m, n, Top, Top) && SourceAgree(s, f.source, m, n, Top, Top)
  {
    SidesSim(s, f, m, n);
    var j, k := EvalFrom(s.LFrom(f.left), m, Top), EvalFrom(s.RFrom(f.left), n, Top);
    var a, b := EvalSource(s.LSource(f.source), m, Top), EvalSource(s.RSource(f.source), n, Top);
    var st := Step(s.scope, TableQualifiers(f.left), j.shape, f.source.Qualifier(), a.cols, f.source.Table?);
    QualifiersDeclared(f.left);
    OnSim(s, f.on, m, n, st.JoinedShape(), Top, Top);
    JoinedStep(s.(exact := false), st, Aliases(f.left), f.kind, RowTest(s.LCond(f.on), m, st.JoinedShape(), Top),
               RowTest(s.RCond(f.on), n, st.JoinedShape(), Top), j, k, a, b);
    JoinUnfolded(s, f, m, n, Top, Top);
    assert TableQualifiers(f) == st.Qs();
  }

  /** The sides and the condition of a join are in the fragment, and the alias is new; the kind is free. */
  predicate JoinOk(s: Setting, f: From, m: Site)
    requires f.Join?
  {
    && FromOk(f.left, s.Rules(), m.ctes.Keys) && SourceOk(f.source, s.Rules(), m.ctes.Keys)
    && CondOk(f.on, s.Rules(), m.ctes.Keys) && Fold(f.source.Qualifier()) !in Aliases(f.left)
  }

  lemma SidesSim(s: Setting, f: From, m: Site, n: Site)
    requires s.Valid() && s.secret == {} && SitesAgree(s, m, n) && f.Join? && JoinOk(s, f, m)
    ensures FromAgree(s, f.left, m, n, Top, Top) && SourceAgree(s, f.source, m, n, Top, Top) && CondSim(s, f.on, m, n)
  {
    FromSimulates(s, f.left, m, n);
    if f.source.Table? {
      TableSim(s, f.source, m, n);
    } else {
      QuerySimulates(s, f.source.q, m, n);
      DerivedSim(s, f.source, m, n);
    }
    CondSimulates(s, f.on, m, n);
    assert EnvAgree(s.secret, Top, Top);
  }

  /** What a join of in-scope rows keeps of the joined rows in scope. */
  lemma StepPadded(st: Step, kind: JoinKind, on: Row -> bool, keep: Row -> bool, ls: seq<Row>, rs: seq<Row>,
                   engine: Engine)
    requires st.Valid() && st.scope != [] && Width(ls, |st.lshape.fields|) && Width(rs, |st.cols|)
    requires Filter(ScopeTest(st.scope, st.lqs, st.lshape.fields, engine), ls) == ls
    requires Filter(ScopeTest(st.scope, st.RightQs(), st.RightFields(), engine), rs) == rs
    ensures AllPass(JoinRows(on, kind, |st.lshape.fields|, |st.cols|, ls, rs), keep,
                    ScopeTest(st.scope, st.Qs(), st.JoinedShape().fields, engine))
       <==> NothingPadded(kind, st.lqs != [], st.table, on, keep, ls, |st.lshape.fields|, rs, |st.cols|)
  {
    PartsValid(st, engine);
    NullsMeans(st.scope, st.lqs, st.lshape.fields, |st.lshape.fields|, engine);
    NullsMeans(st.scope, st.RightQs(), st.RightFields(), |st.cols|, engine);
    var p := Parts(|st.lshape.fields|, |st.cols|, ScopeTest(st.scope, st.Qs(), st.JoinedShape().fields, engine),
                   ScopeTest(st.scope, st.lqs, st.lshape.fields, engine), ScopeTest(st.scope, st.RightQs(),
                             st.RightFields(), engine));
    JoinPadded(p, kind, on, keep, ls, rs);
  }

  /** Padding is in scope exactly when it stands for no table. */
  lemma NullsMeans(scope: Scope, qs: seq<string>, fields: seq<Field>, n: nat, engine: Engine)
    requires scope != []
    ensures ScopeTest(scope, qs, fields, engine)(Nulls(n)) <==> qs == []
  {
    if qs == [] {
      InScopeTrivially(scope, qs, fields, Nulls(n), engine);
    } else {
      NullsOutOfScope(scope, qs, fields, n, engine);
    }
  }

  lemma PaddedInScope(s: Setting, f: From, m: Site, n: Site, keep: Row -> bool)
    requires s.scope != [] && s.exact && f.Join? && Fold(f.source.Qualifier()) !in Aliases(f.left)
    requires FromAgree(s, f.left, m, n, Top, Top) && SourceAgree(s, f.source, m, n, Top, Top)
    ensures var k, b := EvalFrom(s.RFrom(f.left), n, Top), EvalSource(s.RSource(f.source), n, Top);
      var joined := EvalFrom(s.RFrom(f), n, Top);
      AllPass(joined.rows, keep, ScopeTest(s.scope, TableQualifiers(f), joined.shape.fields, s.left.engine))
      <==> NothingPadded(f.kind, TableQualifiers(f.left) != [], f.source.Table?,
                         RowTest(s.RCond(f.on), n, joined.shape, Top),
                         keep, k.rows, |k.shape.fields|, b.rows, |b.cols|)
  {
    var k, b := EvalFrom(s.RFrom(f.left), n, Top), EvalSource(s.RSource(f.source), n, Top);
    var st := Step(s.scope, TableQualifiers(f.left), k.shape, f.source.Qualifier(), b.cols, f.source.Table?);
    QualifiersDeclared(f.left);
    StepPadded(st, f.kind, RowTest(s.RCond(f.on), n, st.JoinedShape(), Top), keep, k.rows, b.rows, s.left.engine);
    JoinUnfolded(s, f, n, n, Top, Top);
    assert TableQualifiers(f) == st.Qs();
  }

  /** The answers of both sides differ by the padded rows. */
  lemma JoinAnswers(s: Setting, f: From, where: Cond, m: Site, n: Site)
    requires s.Valid() && s.secret == {} && s.exact && SitesAgree(s, m, n) && f.Join? && JoinOk(s, f, m)
    requires CondOk(where, s.Rules(), m.ctes.Keys)
    ensures var joined := EvalFrom(f, n, Top);
      var keep := RowTest(where, n, joined.shape, Top);
      var inScope := ScopeTest(s.scope, TableQualifiers(f), joined.shape.fields, s.left.engine);
      && Eval(ScopeQuery(Plain(Star(NoItem), f, where), s.scope), m, Top)
         == Relation(FieldNames(joined.shape.fields), Filter(keep, Filter(inScope, joined.rows)))
      && Eval(Plain(Star(NoItem), f, where), n, Top)
           == Relation(FieldNames(joined.shape.fields), Filter(keep, joined.rows))
  {
    OuterJoinSim(s, f, m, n);
    CondSimulates(s, where, m, n);
    RightIsOriginal(s, f, where);
    var a, b := EvalFrom(s.LFrom(f), m, Top), EvalFrom(f, n, Top);
    var shape, inScope := b.shape, ScopeTest(s.scope, TableQualifiers(f), b.shape.fields, s.left.engine);
    EqualRows(FieldNames(shape.fields), Filter(inScope, a.rows), Filter(inScope, b.rows));
    QualifiersDeclared(f);
    ScopedStar(f, where, s.scope, m);
    StarMeans(f, where, n, Top);
    KeptScoped(ScopeCond(where, s.scope), f, s.scope, m, shape, a.rows, Top);
    SameKept(s, where, m, n, shape, Filter(inScope, b.rows));
  }

  /** The padded rows that a join keeps, from its two sides on one database. */
  predicate NothingPaddedBy(f: From, where: Cond, n: Site)
    requires f.Join?
  {
    var joined, left, right := EvalFrom(f, n, Top), EvalFrom(f.left, n, Top), EvalSource(f.source, n, Top);
    NothingPadded(f.kind, TableQualifiers(f.left) != [], f.source.Table?, RowTest(f.on, n, joined.shape, Top),
                  RowTest(where, n, joined.shape, Top), left.rows, |left.shape.fields|, right.rows, |right.cols|)
  }

  /** The original answer keeps all and only the in-scope answer's rows exactly when no padded row passes. */
  lemma JoinSides(s: Setting, f: From, where: Cond, m: Site, n: Site)
    requires s.Valid() && s.secret == {} && s.exact && s.scope != [] && SitesAgree(s, m, n) && f.Join?
    requires JoinOk(s, f, m)
    ensures var joined := EvalFrom(f, n, Top);
      var keep := RowTest(where, n, joined.shape, Top);
      var inScope := ScopeTest(s.scope, TableQualifiers(f), joined.shape.fields, s.left.engine);
      Filter(keep, Filter(inScope, joined.rows)) == Filter(keep, joined.rows) <==> NothingPaddedBy(f, where, n)
  {
    OuterJoinSim(s, f, m, n);
    RightIsOriginal(s, f, f.on);
    RightIsOriginal(s, f.left, f.on);
    assert s.RFrom(f) == Join(s.RFrom(f.left), f.kind, s.RSource(f.source), s.RCond(f.on));
    assert s.RSource(f.source) == f.source;
    var joined := EvalFrom(f, n, Top);
    var keep := RowTest(where, n, joined.shape, Top);
    FilterBothExact(keep, ScopeTest(s.scope, TableQualifiers(f), joined.shape.fields, s.left.engine), joined.rows);
    PaddedInScope(s, f, m, n, keep);
  }

  /** `SELECT * FROM f WHERE w`, where f ends in a join of any kind with a table or a derived table, keeps its
      meaning under scoping exactly when, on the cut database, every row that the join pads in the place of a
      directly named table fails w. */
  lemma OuterJoinExact(f: From, where: Cond, scope: Scope, db: Database)
    requires WellFormed(db) && scope != [] && f.Join? && FromOk(f.left, PRESERVING, {})
    requires SourceOk(f.source, PRESERVING, {})
    requires CondOk(f.on, PRESERVING, {}) && CondOk(where, PRESERVING, {})
    requires Fold(f.source.Qualifier()) !in Aliases(f.left)
    ensures var q, own := Plain(Star(NoItem), f, where), Cut(db, scope);
      Run(ScopeQuery(q, scope), db) == Run(q, own) <==> NothingPaddedBy(f, where, Site(own, map[]))
  {
    var s, m, n := Setting(scope, {}, true, None, db, Cut(db, scope)), Site(db, map[]), Site(Cut(db, scope), map[]);
    CutSetting(db, scope);
    assert m.ctes.Keys == {};
    JoinAnswers(s, f, where, m, n);
    JoinSides(s, f, where, m, n);
  }

  // ---- Two tables ----

  function TwoTables(a: string, kind: JoinKind, b: string, on: Cond): From {
    Join(Only(Table(a, None)), kind, Table(b, None), on)
  }

  /** Every row of the side or sides that are kept has a match on the other. */
  predicate AllMatched(kind: JoinKind, test: Row -> bool, ls: seq<Row>, rs: seq<Row>) {
    && (kind.KeepsLeft() ==> forall l | l in ls :: exists r | r in rs :: test(l + r))
    && (kind.KeepsRight() ==> forall r | r in rs :: exists l | l in ls :: test(l + r))
  }

  lemma NothingDropped(kind: JoinKind, test: Row -> bool, keep: Row -> bool, ls: seq<Row>, lwidth: nat, rs: seq<Row>,
                       rwidth: nat)
    requires forall row :: keep(row)
    ensures NothingPadded(kind, true, true, test, keep, ls, lwidth, rs, rwidth) <==> AllMatched(kind, test, ls, rs)
  {
  }

  /** The ON condition of the two tables, on a database. */
  function OnTables(a: string, b: string, on: Cond, n: Site): Row -> bool {
    RowTest(on, n, JoinShape(OneShape(a, Fetch(a, n).cols), b, Fetch(b, n).cols), Top)
  }

  lemma TablesPadded(a: string, kind: JoinKind, b: string, on: Cond, n: Site)
    ensures var left, right := Fetch(a, n), Fetch(b, n);
      var shape := JoinShape(OneShape(a, left.cols), b, right.cols);
      NothingPaddedBy(TwoTables(a, kind, b, on), Always, n)
      <==> NothingPadded(kind, true, true, OnTables(a, b, on, n), RowTest(Always, n, shape, Top),
                         left.rows, |OneShape(a, left.cols).fields|, right.rows, |right.cols|)
  {
    assert Table(a, None).Qualifier() == a && Table(b, None).Qualifier() == b;
    OneSource(Table(a, None), n, Top);
    OnlyFacts(Table(a, None), []);
  }

  /** `SELECT * FROM a LEFT JOIN b ON c`, and RIGHT and FULL JOIN: exactly when every in-scope row of the side or
      sides that are kept has an in-scope match on the other. */
  lemma OuterJoinOfTables(a: string, kind: JoinKind, b: string, on: Cond, scope: Scope, db: Database)
    requires WellFormed(db) && scope != [] && CondOk(on, PRESERVING, {}) && Fold(a) != Fold(b)
    ensures var q, own := Plain(Star(NoItem), TwoTables(a, kind, b, on), Always), Cut(db, scope);
      Run(ScopeQuery(q, scope), db) == Run(q, own)
      <==> AllMatched(kind, OnTables(a, b, on, Site(own, map[])), Fetch(a, Site(own, map[])).rows,
                      Fetch(b, Site(own, map[])).rows)
  {
    OnlyOk(Table(a, None), PRESERVING);
    OnlyFacts(Table(a, None), scope);
    assert Table(a, None).Qualifier() == a && Table(b, None).Qualifier() == b;
    OuterJoinExact(TwoTables(a, kind, b, on), Always, scope, db);
    var n := Site(Cut(db, scope), map[]);
    var left, right := Fetch(a, n), Fetch(b, n);
    var shape := JoinShape(OneShape(a, left.cols), b, right.cols);
    TablesPadded(a, kind, b, on, n);
    NothingDropped(kind, OnTables(a, b, on, n), RowTest(Always, n, shape, Top), left.rows,
                   |OneShape(a, left.cols).fields|,
                   right.rows, |right.cols|);
  }

  // ---- CTE references ----

  lemma CteSites(s: Setting, name: string, r: Relation)
    requires s.secret == {} && Rectangular(r)
    ensures SitesAgree(s, Site(s.left, map[Fold(name) := r]), Site(s.right, map[Fold(name) := r]))
  {
    SelfAgree({}, r);
  }

  lemma CteScoped(name: string, alias: Option<string>, where: Cond, scope: Scope, r: Relation, m: Site)
    requires Fold(name) in m.ctes && m.ctes[Fold(name)] == r
    ensures var source := Table(name, alias);
      Eval(ScopeQuery(Plain(Star(NoItem), Only(source), where), scope), m, Top)
      == Relation(r.cols, Filter(RowTest(ScopeCond(where, scope), m, OneShape(source.Qualifier(), r.cols), Top),
                                 Filter(OwnTest(scope, r.cols, m.db.engine), r.rows)))
  {
    var source := Table(name, alias);
    var q, shape := source.Qualifier(), OneShape(source.Qualifier(), r.cols);
    OneSource(source, m, Top);
    OneFields(q, r.cols);
    OnlyFacts(source, scope);
    ScopedStar(Only(source), where, scope, m);
    KeptScoped(ScopeCond(where, scope), Only(source), scope, m, shape, r.rows, Top);
    ScopeIsCut(scope, q, r, m.db.engine);
  }

  lemma CteUnscoped(name: string, alias: Option<string>, where: Cond, r: Relation, n: Site)
    requires Fold(name) in n.ctes && n.ctes[Fold(name)] == r
    ensures var source := Table(name, alias);
      Eval(Plain(Star(NoItem), Only(source), where), n, Top)
      == Relation(r.cols, Filter(RowTest(where, n, OneShape(source.Qualifier(), r.cols), Top), r.rows))
  {
    OneSource(Table(name, alias), n, Top);
    OneFields(Table(name, alias).Qualifier(), r.cols);
    StarMeans(Only(Table(name, alias)), where, n, Top);
  }

  /** The WHERE of both sides, where a CTE holds r. */
  lemma CteWhere(s: Setting, name: string, where: Cond, r: Relation, alias: string)
    requires s.Valid() && s.secret == {} && s.exact && Rectangular(r) && CondOk(where, s.Rules(), {Fold(name)})
    ensures var m, n := Site(s.left, map[Fold(name) := r]), Site(s.right, map[Fold(name) := r]);
      var own, shape := Filter(OwnTest(s.scope, r.cols, s.left.engine), r.rows), OneShape(alias, r.cols);
      Filter(RowTest(ScopeCond(where, s.scope), m, shape, Top), own) == Filter(RowTest(where, n, shape, Top), own)
  {
    var m, n := Site(s.left, map[Fold(name) := r]), Site(s.right, map[Fold(name) := r]);
    assert m.ctes.Keys == {Fold(name)};
    CteSites(s, name, r);
    CondSimulates(s, where, m, n);
    RightIsOriginal(s, NoFrom, where);
    OneFields(alias, r.cols);
    SameKept(s, where, m, n, OneShape(alias, r.cols), Filter(OwnTest(s.scope, r.cols, s.left.engine), r.rows));
  }

  /** The scoped run, from what the CTE holds. */
  lemma CteRun(name: string, body: Query, alias: Option<string>, where: Cond, scope: Scope, db: Database)
    requires WellFormed(db) && QueryOk(body, PRESERVING, {})
    ensures var source, r := Table(name, alias), Run(body, Cut(db, scope));
      Run(ScopeQuery(With(name, body, Plain(Star(NoItem), Only(source), where)), scope), db)
      == Relation(r.cols, Filter(RowTest(ScopeCond(where, scope), Site(db, map[Fold(name) := r]),
                                         OneShape(source.Qualifier(), r.cols), Top),
                                 Filter(OwnTest(scope, r.cols, db.engine), r.rows)))
  {
    var r, main := Run(body, Cut(db, scope)), Plain(Star(NoItem), Only(Table(name, alias)), where);
    ScopingPreservesMeaning(body, scope, db);
    CteScoped(name, alias, where, scope, r, Site(db, map[Fold(name) := r]));
    WithRun(name, ScopeQuery(body, scope), ScopeQuery(main, scope), db);
    assert ScopeQuery(With(name, body, main), scope) == With(name, ScopeQuery(body, scope), ScopeQuery(main, scope));
  }

  /** `WITH c AS (body) SELECT * FROM c WHERE w` keeps its meaning under scoping exactly when every row of the
      CTE that passes w equals the subject's values in the CTE's own columns of those names. */
  lemma CteExact(name: string, body: Query, alias: Option<string>, where: Cond, scope: Scope, db: Database)
    requires WellFormed(db) && QueryOk(body, PRESERVING, {}) && CondOk(where, PRESERVING, {Fold(name)})
    ensures var source := Table(name, alias);
      var q, own := With(name, body, Plain(Star(NoItem), Only(source), where)), Cut(db, scope);
      var r := Run(body, own);
      var keep := RowTest(where, Site(own, map[Fold(name) := r]), OneShape(source.Qualifier(), r.cols), Top);
      Run(ScopeQuery(q, scope), db) == Run(q, own)
      <==> forall row | row in r.rows && keep(row) :: OwnRow(scope, r.cols, row, db.engine)
  {
    var source, own := Table(name, alias), Cut(db, scope);
    var s, r := Setting(scope, {}, true, None, db, own), Run(body, own);
    CutSetting(db, scope);
    BodyRectangular(s, body);
    CteRun(name, body, alias, where, scope, db);
    WithRun(name, body, Plain(Star(NoItem), Only(source), where), own);
    CteUnscoped(name, alias, where, r, Site(own, map[Fold(name) := r]));
    CteWhere(s, name, where, r, source.Qualifier());
    var keep := RowTest(where, Site(own, map[Fold(name) := r]), OneShape(source.Qualifier(), r.cols), Top);
    FilterBothExact(keep, OwnTest(scope, r.cols, db.engine), r.rows);
  }

  function WholeCte(name: string, body: Query): Query {
    With(name, body, Plain(Star(NoItem), Only(Table(name, None)), Always))
  }

  /** Without a WHERE: exactly when every row of the CTE does. */
  lemma WholeCteExact(name: string, body: Query, scope: Scope, db: Database)
    requires WellFormed(db) && QueryOk(body, PRESERVING, {})
    ensures var own := Cut(db, scope);
      Run(ScopeQuery(WholeCte(name, body), scope), db) == Run(WholeCte(name, body), own)
      <==> forall row | row in Run(body, own).rows :: OwnRow(scope, Run(body, own).cols, row, db.engine)
  {
    CteExact(name, body, None, Always, scope, db);
  }

  lemma WithRun(name: string, body: Query, main: Query, db: Database)
    ensures Run(With(name, body, main), db) == Eval(main, Site(db, map[Fold(name) := Run(body, db)]), Top)
  {
    assert map[][Fold(name) := Run(body, db)] == map[Fold(name) := Run(body, db)];
  }

  lemma BodyRectangular(s: Setting, body: Query)
    requires s.Valid() && s.exact && s.secret == {} && QueryOk(body, s.Rules(), {})
    ensures Rectangular(Run(body, s.right))
  {
    RunsAgree(s, body);
    AgreeingWidth({}, Run(s.LQuery(body), s.left), Run(s.RQuery(body), s.right));
    ScopeNothing(body);
    MaskNothing(body);
  }

  /** `SELECT other AS column FROM t`. */
  function Renamed(table: string, other: string, column: string): Query {
    Plain(OneItem(Col(None, other), column), Only(Table(table, None)), Always)
  }

  /** An unqualified name reads the same whatever the columns are tagged with. */
  lemma ReadUnqualified(alias: string, cols: seq<string>, row: Row, name: string)
    ensures Read(Tag(alias, cols), row, None, name) == Read(Tag("", cols), row, None, name)
  {
    var a, b := Tag(alias, cols), Tag("", cols);
    assert forall i | 0 <= i < |cols| :: Denotes(a[i], None, name) == Denotes(b[i], None, name);
    assert Find(a, None, name) == Find(b, None, name);
  }

  lemma RenamedRow(table: string, cols: seq<string>, other: string, column: string, m: Site, row: Row)
    ensures RowOut(OneItem(Col(None, other), column), m, OneShape(table, cols), Top)(row)
         == [Read(Tag("", cols), row, None, other)]
  {
    var shape := OneShape(table, cols);
    OneItemMeans(Col(None, other), column, m, shape, Top, row);
    OneFields(table, cols);
    ReadUnqualified(table, cols, row, other);
    assert Lookup(Inside(shape, row, Top), None, other) == Read(shape.fields, row, None, other);
  }

  lemma RenamedMeans(table: string, other: string, column: string, db: Database)
    ensures var t := Fetch(table, Site(db, map[]));
      var r := Run(Renamed(table, other, column), db);
      && r.cols == [column] && |r.rows| == |t.rows|
      && forall i | 0 <= i < |t.rows| :: r.rows[i] == [Read(Tag("", t.cols), t.rows[i], None, other)]
  {
    var m, items := Site(db, map[]), OneItem(Col(None, other), column);
    var t := Fetch(table, m);
    OneSource(Table(table, None), m, Top);
    OneItemMeans(Col(None, other), column, m, OneShape(table, t.cols), Top, []);
    PlainMeans(items, Only(Table(table, None)), Always, m, Top);
    FilterAll(RowTest(Always, m, OneShape(table, t.cols), Top), t.rows);
    forall i | 0 <= i < |t.rows|
      ensures RowOut(items, m, OneShape(table, t.cols), Top)(t.rows[i])
           == [Read(Tag("", t.cols), t.rows[i], None, other)]
    {
      RenamedRow(table, t.cols, other, column, m, t.rows[i]);
    }
  }

  lemma RenamedOk(table: string, other: string, column: string)
    ensures QueryOk(Renamed(table, other, column), PRESERVING, {})
  {
    OnlyOk(Table(table, None), PRESERVING);
    assert ItemsOk(NoItem, PRESERVING, {}) && ItemsOk(OneItem(Col(None, other), column), PRESERVING, {});
  }

  /** The single value of a row equals the subject's. */
  predicate Equals(r: Restriction, v: Value, engine: Engine) {
    Truth(Eq, v, Str(r.value), engine) == Bool(true)
  }

  lemma OwnValue(r: Restriction, v: Value, engine: Engine)
    ensures OwnRow([r], [r.column], [v], engine) <==> Equals(r, v, engine)
  {
    var fields := Tag("", [r.column]);
    assert Denotes(fields[0], None, r.column) && Find(fields, None, r.column) == 0;
    assert Read(fields, [v], None, r.column) == v;
    assert OwnRow([r], [r.column], [v], engine) <==> Passes(r, None, fields, [v], engine);
  }

  lemma OwnValues(r: Restriction, rows: seq<Row>, vs: seq<Value>, engine: Engine)
    requires |rows| == |vs| && forall i | 0 <= i < |vs| :: rows[i] == [vs[i]]
    ensures (forall row | row in rows :: OwnRow([r], [r.column], row, engine))
       <==> forall i | 0 <= i < |vs| :: Equals(r, vs[i], engine)
  {
    forall i | 0 <= i < |vs| ensures OwnRow([r], [r.column], rows[i], engine) <==> Equals(r, vs[i], engine) {
      OwnValue(r, vs[i], engine);
    }
  }

  /** A CTE that exports another column under the scope column's name:
      `WITH c AS (SELECT other AS column FROM t) SELECT * FROM c` keeps its meaning exactly when every in-scope
      row of t has the subject's value in that other column too. */
  lemma CteRenames(name: string, table: string, other: string, r: Restriction, db: Database)
    requires WellFormed(db)
    ensures var q, own := WholeCte(name, Renamed(table, other, r.column)), Cut(db, [r]);
      var t := Fetch(table, Site(own, map[]));
      Run(ScopeQuery(q, [r]), db) == Run(q, own)
      <==> forall i | 0 <= i < |t.rows| :: Equals(r, Read(Tag("", t.cols), t.rows[i], None, other), db.engine)
  {
    RenamedOk(table, other, r.column);
    WholeCteExact(name, Renamed(table, other, r.column), [r], db);
    RenamedOwn(table, other, r, Cut(db, [r]));
  }

  lemma RenamedOwn(table: string, other: string, r: Restriction, own: Database)
    ensures var t, out := Fetch(table, Site(own, map[])), Run(Renamed(table, other, r.column), own);
      (forall row | row in out.rows :: OwnRow([r], out.cols, row, own.engine))
      <==> forall i | 0 <= i < |t.rows| :: Equals(r, Read(Tag("", t.cols), t.rows[i], None, other), own.engine)
  {
    var t, out := Fetch(table, Site(own, map[])), Run(Renamed(table, other, r.column), own);
    RenamedMeans(table, other, r.column, own);
    OwnValues(r, out.rows,
              seq(|t.rows|, i requires 0 <= i < |t.rows| => Read(Tag("", t.cols), t.rows[i], None, other)), own.engine);
  }
}
