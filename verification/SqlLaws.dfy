/** What the operators of the evaluator mean, row by row. */
module SqlLaws {
  import opened Wrappers
  import opened SqlAst
  import opened SqlSemantics

  // ---- Joins ----

  lemma {:induction false} MatchesHold(on: Row -> bool, l: Row, rs: seq<Row>, row: Row)
    ensures row in Matches(on, l, rs) <==> exists r | r in rs :: row == l + r && on(row)
  {
    if rs != [] {
      MatchesHold(on, l, rs[1..], row);
      assert rs == [rs[0]] + rs[1..];
      if r :| r in rs && row == l + r && on(row) {
        assert r == rs[0] || r in rs[1..];
      }
    }
  }

  predicate MatchesSome(on: Row -> bool, l: Row, rs: seq<Row>) {
    exists r | r in rs :: on(l + r)
  }

  lemma {:induction false} NoMatch(on: Row -> bool, l: Row, rs: seq<Row>)
    requires !MatchesSome(on, l, rs)
    ensures Matches(on, l, rs) == []
  {
    if rs != [] {
      assert rs[0] in rs && forall r | r in rs[1..] :: r in rs;
      NoMatch(on, l, rs[1..]);
    }
  }

  lemma LeftHeadHolds(on: Row -> bool, keep: bool, width: nat, l: Row, rs: seq<Row>, row: Row)
    ensures row in LeftHead(on, keep, width, l, rs)
       <==> || (exists r | r in rs :: row == l + r && on(row))
            || (keep && row == l + Nulls(width) && !MatchesSome(on, l, rs))
  {
    var found := Matches(on, l, rs);
    MatchesHold(on, l, rs, row);
    if MatchesSome(on, l, rs) {
      var r :| r in rs && on(l + r);
      MatchesHold(on, l, rs, l + r);
    } else {
      NoMatch(on, l, rs);
    }
  }

  lemma {:induction false} LeftPartHolds(on: Row -> bool, keep: bool, width: nat, ls: seq<Row>, rs: seq<Row>, row: Row)
    ensures row in LeftPart(on, keep, width, ls, rs)
       <==> exists l | l in ls :: row in LeftHead(on, keep, width, l, rs)
  {
    if ls != [] {
      LeftPartHolds(on, keep, width, ls[1..], rs, row);
      assert ls == [ls[0]] + ls[1..];
    }
  }

  lemma {:induction false} AnyMatchMeans(on: Row -> bool, ls: seq<Row>, r: Row)
    ensures AnyMatch(on, ls, r) <==> exists l | l in ls :: on(l + r)
  {
    if ls != [] {
      AnyMatchMeans(on, ls[1..], r);
      assert ls == [ls[0]] + ls[1..];
    }
  }

  lemma {:induction false} RightPartHolds(on: Row -> bool, width: nat, ls: seq<Row>, rs: seq<Row>, row: Row)
    ensures row in RightPart(on, width, ls, rs)
       <==> exists r | r in rs :: row == Nulls(width) + r && !AnyMatch(on, ls, r)
  {
    if rs != [] {
      RightPartHolds(on, width, ls, rs[1..], row);
      assert rs == [rs[0]] + rs[1..];
    }
  }

  predicate Joined(on: Row -> bool, ls: seq<Row>, rs: seq<Row>, row: Row) {
    exists l, r | l in ls && r in rs :: row == l + r && on(row)
  }

  /** A joined row is a pair of rows that meets the condition, or an unmatched row of a side that the join keeps, padded
      with NULLs. */
  lemma JoinHolds(on: Row -> bool, kind: JoinKind, lwidth: nat, rwidth: nat, ls: seq<Row>, rs: seq<Row>, row: Row)
    ensures row in JoinRows(on, kind, lwidth, rwidth, ls, rs)
       <==> || Joined(on, ls, rs, row)
            || (kind in {LeftOuter, FullOuter}
                && exists l | l in ls :: row == l + Nulls(rwidth) && forall r | r in rs :: !on(l + r))
            || (kind in {RightOuter, FullOuter}
                && exists r | r in rs :: row == Nulls(lwidth) + r && forall l | l in ls :: !on(l + r))
  {
    LeftPartHolds(on, kind.KeepsLeft(), rwidth, ls, rs, row);
    RightPartHolds(on, lwidth, ls, rs, row);
    forall l | l in ls
      ensures row in LeftHead(on, kind.KeepsLeft(), rwidth, l, rs)
        <==> || (exists r | r in rs :: row == l + r && on(row))
             || (kind.KeepsLeft() && row == l + Nulls(rwidth) && forall r | r in rs :: !on(l + r))
    {
      LeftHeadHolds(on, kind.KeepsLeft(), rwidth, l, rs, row);
    }
    forall r | r in rs ensures AnyMatch(on, ls, r) <==> exists l | l in ls :: on(l + r) {
      AnyMatchMeans(on, ls, r);
    }
  }

  // ---- Membership ----

  predicate Equals(v: Value, row: Row, engine: Engine) {
    !v.Null? && !FirstOf(row).Null? && engine.equal(v, FirstOf(row))
  }

  predicate Unknown(v: Value, row: Row) {
    v.Null? || FirstOf(row).Null?
  }

  /** IN is true when some row is equal, unknown when none is but some comparison is with NULL, and false otherwise. */
  lemma {:induction false} MemberMeans(v: Value, rows: seq<Row>, engine: Engine)
    ensures Member(v, rows, engine) ==
      if exists row | row in rows :: Equals(v, row, engine) then Bool(true)
      else if exists row | row in rows :: Unknown(v, row) then Null
      else Bool(false)
  {
    if rows != [] {
      MemberMeans(v, rows[1..], engine);
      assert rows == [rows[0]] + rows[1..];
      assert rows[0] in rows && forall row | row in rows[1..] :: row in rows;
      if exists row | row in rows :: Equals(v, row, engine) {
        var row :| row in rows && Equals(v, row, engine);
        assert row == rows[0] || row in rows[1..];
      } else if exists row | row in rows :: Unknown(v, row) {
        var row :| row in rows && Unknown(v, row);
        assert row == rows[0] || row in rows[1..];
      }
    }
  }

  // ---- Duplicates and set operations ----

  predicate NoneTwice<T(==)>(s: seq<T>) {
    forall i, j | 0 <= i < j < |s| :: s[i] != s[j]
  }

  /** DISTINCT keeps the same rows, each once. */
  lemma {:induction false} DistinctMeans(rows: seq<Row>)
    ensures forall row :: row in DistinctRows(rows) <==> row in rows
    ensures NoneTwice(DistinctRows(rows))
  {
    if rows != [] {
      DistinctMeans(rows[..|rows| - 1]);
      assert rows == rows[..|rows| - 1] + [rows[|rows| - 1]];
    }
  }

  lemma {:induction false} SharedMeans(rows: seq<Row>, other: seq<Row>, wanted: bool)
    ensures forall row :: row in Shared(rows, other, wanted) <==> row in rows && (row in other) == wanted
  {
    if rows != [] {
      SharedMeans(rows[1..], other, wanted);
      assert rows == [rows[0]] + rows[1..];
    }
  }

  lemma FitsAlready(rows: seq<Row>, width: nat)
    requires forall row | row in rows :: |row| == width
    ensures Fit(rows, width) == rows
  {
    forall i | 0 <= i < |rows| ensures Fit(rows, width)[i] == rows[i] {
      assert rows[i] in rows && rows[i] + Nulls(0) == rows[i];
    }
  }

  /** Set operations on branches of one width. */
  lemma SetOperationMeans(op: SetOperator, l: Relation, r: Relation)
    requires (forall row | row in l.rows :: |row| == |l.cols|) && forall row | row in r.rows :: |row| == |l.cols|
    ensures var rows := Combine(op, l, r).rows;
      match op
      case UnionAll => rows == l.rows + r.rows
      case Union => NoneTwice(rows) && forall row :: row in rows <==> row in l.rows || row in r.rows
      case Intersect => NoneTwice(rows) && forall row :: row in rows <==> row in l.rows && row in r.rows
      case Except => NoneTwice(rows) && forall row :: row in rows <==> row in l.rows && row !in r.rows
  {
    FitsAlready(l.rows, |l.cols|);
    FitsAlready(r.rows, |l.cols|);
    DistinctMeans(l.rows + r.rows);
    SharedMeans(l.rows, r.rows, true);
    SharedMeans(l.rows, r.rows, false);
    DistinctMeans(Shared(l.rows, r.rows, true));
    DistinctMeans(Shared(l.rows, r.rows, false));
  }

  // ---- Order ----

  lemma {:induction false} InsertKeepsAll(k: Keyed, ks: seq<Keyed>, descending: seq<bool>, engine: Engine)
    ensures multiset(Insert(k, ks, descending, engine)) == multiset(ks) + multiset{k}
  {
    if ks != [] {
      var init, last := ks[..|ks| - 1], ks[|ks| - 1];
      assert ks == init + [last];
      InsertKeepsAll(k, init, descending, engine);
    }
  }

  /** ORDER BY permutes the rows. */
  lemma {:induction false} SortPermutes(ks: seq<Keyed>, descending: seq<bool>, engine: Engine)
    ensures multiset(Sort(ks, descending, engine)) == multiset(ks)
  {
    if ks != [] {
      var init, last := ks[..|ks| - 1], ks[|ks| - 1];
      assert ks == init + [last];
      SortPermutes(init, descending, engine);
      InsertKeepsAll(last, Sort(init, descending, engine), descending, engine);
    }
  }

  /** The engine orders keys, up to ties. */
  ghost predicate Orders(engine: Engine, descending: seq<bool>) {
    && (forall a, b | engine.before(descending, a, b) :: !engine.before(descending, b, a))
    && forall a, b, c {:trigger engine.before(descending, a, b), engine.before(descending, b, c)} |
         !engine.before(descending, a, b) && !engine.before(descending, b, c) :: !engine.before(descending, a, c)
  }

  /** No row comes before an earlier one. */
  predicate Ordered(ks: seq<Keyed>, descending: seq<bool>, engine: Engine) {
    forall i, j | 0 <= i < j < |ks| :: !engine.before(descending, ks[j].key, ks[i].key)
  }

  lemma {:induction false} InsertOrders(k: Keyed, ks: seq<Keyed>, descending: seq<bool>, engine: Engine)
    requires Orders(engine, descending) && Ordered(ks, descending, engine)
    ensures Ordered(Insert(k, ks, descending, engine), descending, engine)
    ensures forall x | x in Insert(k, ks, descending, engine) :: x == k || x in ks
  {
    if ks != [] {
      var n := |ks| - 1;
      if engine.before(descending, k.key, ks[n].key) {
        InsertOrders(k, ks[..n], descending, engine);
        var inserted := Insert(k, ks[..n], descending, engine);
        forall i | 0 <= i < |inserted| ensures !engine.before(descending, ks[n].key, inserted[i].key) {
          assert inserted[i] in inserted;
        }
      } else {
        forall i | 0 <= i < n ensures !engine.before(descending, k.key, ks[i].key) {
          assert !engine.before(descending, ks[n].key, ks[i].key);
        }
      }
    }
  }

  lemma {:induction false} SortOrders(ks: seq<Keyed>, descending: seq<bool>, engine: Engine)
    requires Orders(engine, descending)
    ensures Ordered(Sort(ks, descending, engine), descending, engine)
  {
    if ks != [] {
      SortOrders(ks[..|ks| - 1], descending, engine);
      InsertOrders(ks[|ks| - 1], Sort(ks[..|ks| - 1], descending, engine), descending, engine);
    }
  }

  /** LIMIT takes that many rows from the front. */
  lemma LimitMeans(ks: seq<Keyed>, distinct: bool, ordered: bool, descending: seq<bool>, n: nat, engine: Engine)
    ensures var all := Finish(ks, distinct, ordered, descending, None, engine);
      Finish(ks, distinct, ordered, descending, Some(n), engine) == if n < |all| then all[..n] else all
  {
  }

  // ---- Groups ----

  /** The rows of one key, in their order. */
  function OfKey(key: seq<Value>, ks: seq<Keyed>): seq<Row> {
    if ks == [] then []
    else OfKey(key, ks[..|ks| - 1]) + (if ks[|ks| - 1].key == key then [ks[|ks| - 1].row] else [])
  }

  lemma {:induction false} OfKeyCons(key: seq<Value>, k: Keyed, ks: seq<Keyed>)
    ensures OfKey(key, [k] + ks) == (if k.key == key then [k.row] else []) + OfKey(key, ks)
  {
    if ks == [] {
      assert ([k] + ks)[..0] == [];
    } else {
      OfKeyCons(key, k, ks[..|ks| - 1]);
      assert ([k] + ks)[..|ks|] == [k] + ks[..|ks| - 1];
    }
  }

  lemma {:induction false} WithKeyIs(key: seq<Value>, ks: seq<Keyed>)
    ensures WithKey(key, ks) == OfKey(key, ks)
  {
    if ks != [] {
      WithKeyIs(key, ks[1..]);
      OfKeyCons(key, ks[0], ks[1..]);
      assert ks == [ks[0]] + ks[1..];
    }
  }

  lemma {:induction false} OthersKept(key: seq<Value>, other: seq<Value>, ks: seq<Keyed>)
    ensures OfKey(other, WithoutKey(key, ks)) == if other == key then [] else OfKey(other, ks)
    ensures forall k :: k in WithoutKey(key, ks) <==> k in ks && k.key != key
  {
    if ks != [] {
      OthersKept(key, other, ks[1..]);
      OfKeyCons(other, ks[0], ks[1..]);
      assert ks == [ks[0]] + ks[1..];
      if ks[0].key != key {
        OfKeyCons(other, ks[0], WithoutKey(key, ks[1..]));
        assert WithoutKey(key, ks) == [ks[0]] + WithoutKey(key, ks[1..]);
      } else {
        assert WithoutKey(key, ks) == WithoutKey(key, ks[1..]);
      }
    }
  }

  /** GROUP BY makes one group of each key that occurs: the rows of that key, in their order. */
  lemma {:induction false} GroupsMean(ks: seq<Keyed>, unit: seq<Row>)
    ensures unit in Groups(ks) <==> exists k | k in ks :: unit == OfKey(k.key, ks)
    decreases |ks|
  {
    if ks != [] {
      var key, rest := ks[0].key, WithoutKey(ks[0].key, ks[1..]);
      var first := [ks[0].row] + WithKey(key, ks[1..]);
      GroupsMean(rest, unit);
      assert ks == [ks[0]] + ks[1..];
      FirstGroup(ks);
      forall k | k in rest ensures OfKey(k.key, rest) == OfKey(k.key, ks) && k in ks {
        OthersKept(key, k.key, ks[1..]);
        OfKeyCons(k.key, ks[0], ks[1..]);
      }
      forall k | k in ks && k.key != key ensures k in rest {
        OthersKept(key, key, ks[1..]);
      }
    }
  }

  lemma FirstGroup(ks: seq<Keyed>)
    requires ks != []
    ensures [ks[0].row] + WithKey(ks[0].key, ks[1..]) == OfKey(ks[0].key, ks)
  {
    WithKeyIs(ks[0].key, ks[1..]);
    OfKeyCons(ks[0].key, ks[0], ks[1..]);
    assert ks == [ks[0]] + ks[1..];
  }
}
