/** Two evaluations side by side: relations between corresponding rows survive filtering, joining,
    grouping, sorting and projecting when both sides use corresponding tests and functions. */
module Pairing {
  import opened Sequences
  import opened SqlAst
  import opened SqlSemantics
  import opened Wrappers

  ghost predicate Paired<T(!new)>(rel: (T, T) -> bool, a: seq<T>, b: seq<T>) {
    |a| == |b| && forall i | 0 <= i < |a| :: rel(a[i], b[i])
  }

  lemma {:induction false} PairedFilter<T(!new)>(rel: (T, T) -> bool, p: T -> bool, q: T -> bool, a: seq<T>, b: seq<T>)
    requires Paired(rel, a, b) && forall x, y | rel(x, y) :: p(x) == q(y)
    ensures Paired(rel, Filter(p, a), Filter(q, b))
  {
    if a != [] {
      assert rel(a[0], b[0]);
      PairedFilter(rel, p, q, a[1..], b[1..]);
    }
  }

  lemma PairedMap<S(!new), T(!new)>(rel: (S, S) -> bool, out: (T, T) -> bool, f: S -> T, g: S -> T, a: seq<S>,
                    b: seq<S>)
    requires Paired(rel, a, b) && forall x, y | rel(x, y) :: out(f(x), g(y))
    ensures Paired(out, Map(f, a), Map(g, b))
  {
    forall i | 0 <= i < |a| ensures out(Map(f, a)[i], Map(g, b)[i]) {
      assert rel(a[i], b[i]);
    }
  }

  // ---- Joins ----

  /** Relations on left, right and joined rows that fit together. */
  datatype Joint = Joint(lwidth: nat, rwidth: nat, left: (Row, Row) -> bool, right: (Row, Row) -> bool,
                         both: (Row, Row) -> bool) {
    ghost predicate Valid() {
      && (forall l1, l2, r1, r2 {:trigger both(l1 + r1, l2 + r2)} | left(l1, l2) && right(r1, r2) ::
          both(l1 + r1, l2 + r2))
      && left(Nulls(lwidth), Nulls(lwidth))
      && right(Nulls(rwidth), Nulls(rwidth))
    }
  }

  lemma {:induction false} PairedMatches(j: Joint, on1: Row -> bool, on2: Row -> bool, l1: Row, l2: Row,
                                         rs1: seq<Row>, rs2: seq<Row>)
    requires j.Valid() && j.left(l1, l2) && Paired(j.right, rs1, rs2)
    requires forall x, y | j.both(x, y) :: on1(x) == on2(y)
    ensures Paired(j.both, Matches(on1, l1, rs1), Matches(on2, l2, rs2))
  {
    if rs1 != [] {
      assert j.right(rs1[0], rs2[0]);
      assert j.both(l1 + rs1[0], l2 + rs2[0]);
      PairedMatches(j, on1, on2, l1, l2, rs1[1..], rs2[1..]);
    }
  }

  lemma PairedLeftHead(j: Joint, on1: Row -> bool, on2: Row -> bool, keep: bool, l1: Row, l2: Row, rs1: seq<Row>,
                       rs2: seq<Row>)
    requires j.Valid() && j.left(l1, l2) && Paired(j.right, rs1, rs2)
    requires forall x, y | j.both(x, y) :: on1(x) == on2(y)
    ensures Paired(j.both, LeftHead(on1, keep, j.rwidth, l1, rs1), LeftHead(on2, keep, j.rwidth, l2, rs2))
  {
    PairedMatches(j, on1, on2, l1, l2, rs1, rs2);
    assert j.both(l1 + Nulls(j.rwidth), l2 + Nulls(j.rwidth));
  }

  lemma {:induction false} PairedLeftPart(j: Joint, on1: Row -> bool, on2: Row -> bool, keep: bool,
                                          ls1: seq<Row>, ls2: seq<Row>, rs1: seq<Row>, rs2: seq<Row>)
    requires j.Valid() && Paired(j.left, ls1, ls2) && Paired(j.right, rs1, rs2)
    requires forall x, y | j.both(x, y) :: on1(x) == on2(y)
    ensures Paired(j.both, LeftPart(on1, keep, j.rwidth, ls1, rs1), LeftPart(on2, keep, j.rwidth, ls2, rs2))
  {
    if ls1 != [] {
      assert j.left(ls1[0], ls2[0]);
      PairedLeftHead(j, on1, on2, keep, ls1[0], ls2[0], rs1, rs2);
      PairedLeftPart(j, on1, on2, keep, ls1[1..], ls2[1..], rs1, rs2);
    }
  }

  lemma {:induction false} PairedAnyMatch(j: Joint, on1: Row -> bool, on2: Row -> bool, ls1: seq<Row>, ls2: seq<Row>,
                                          r1: Row, r2: Row)
    requires j.Valid() && Paired(j.left, ls1, ls2) && j.right(r1, r2)
    requires forall x, y | j.both(x, y) :: on1(x) == on2(y)
    ensures AnyMatch(on1, ls1, r1) == AnyMatch(on2, ls2, r2)
  {
    if ls1 != [] {
      assert j.left(ls1[0], ls2[0]);
      assert j.both(ls1[0] + r1, ls2[0] + r2);
      PairedAnyMatch(j, on1, on2, ls1[1..], ls2[1..], r1, r2);
    }
  }

  lemma {:induction false} PairedRightPart(j: Joint, on1: Row -> bool, on2: Row -> bool,
                                           ls1: seq<Row>, ls2: seq<Row>, rs1: seq<Row>, rs2: seq<Row>)
    requires j.Valid() && Paired(j.left, ls1, ls2) && Paired(j.right, rs1, rs2)
    requires forall x, y | j.both(x, y) :: on1(x) == on2(y)
    ensures Paired(j.both, RightPart(on1, j.lwidth, ls1, rs1), RightPart(on2, j.lwidth, ls2, rs2))
  {
    if rs1 != [] {
      assert j.right(rs1[0], rs2[0]);
      PairedAnyMatch(j, on1, on2, ls1, ls2, rs1[0], rs2[0]);
      assert j.both(Nulls(j.lwidth) + rs1[0], Nulls(j.lwidth) + rs2[0]);
      PairedRightPart(j, on1, on2, ls1, ls2, rs1[1..], rs2[1..]);
    }
  }

  lemma PairedJoin(j: Joint, on1: Row -> bool, on2: Row -> bool, kind: JoinKind,
                   ls1: seq<Row>, ls2: seq<Row>, rs1: seq<Row>, rs2: seq<Row>)
    requires j.Valid() && Paired(j.left, ls1, ls2) && Paired(j.right, rs1, rs2)
    requires forall x, y | j.both(x, y) :: on1(x) == on2(y)
    ensures Paired(j.both, JoinRows(on1, kind, j.lwidth, j.rwidth, ls1, rs1),
                   JoinRows(on2, kind, j.lwidth, j.rwidth, ls2, rs2))
  {
    PairedLeftPart(j, on1, on2, kind.KeepsLeft(), ls1, ls2, rs1, rs2);
    PairedRightPart(j, on1, on2, ls1, ls2, rs1, rs2);
  }

  // ---- Groups ----

  ghost function SameKey(rel: (Row, Row) -> bool): (Keyed, Keyed) -> bool {
    (a: Keyed, b: Keyed) => a.key == b.key && rel(a.row, b.row)
  }

  ghost function UnitRel(rel: (Row, Row) -> bool): (seq<Row>, seq<Row>) -> bool {
    (a: seq<Row>, b: seq<Row>) => Paired(rel, a, b)
  }

  lemma {:induction false} PairedWithKey(rel: (Row, Row) -> bool, key: seq<Value>, a: seq<Keyed>, b: seq<Keyed>)
    requires Paired(SameKey(rel), a, b)
    ensures Paired(rel, WithKey(key, a), WithKey(key, b))
    ensures Paired(SameKey(rel), WithoutKey(key, a), WithoutKey(key, b))
  {
    if a != [] {
      assert SameKey(rel)(a[0], b[0]);
      PairedWithKey(rel, key, a[1..], b[1..]);
    }
  }

  lemma {:induction false} PairedGroups(rel: (Row, Row) -> bool, a: seq<Keyed>, b: seq<Keyed>)
    requires Paired(SameKey(rel), a, b)
    ensures Paired(UnitRel(rel), Groups(a), Groups(b))
    decreases |a|
  {
    if a != [] {
      assert SameKey(rel)(a[0], b[0]);
      PairedWithKey(rel, a[0].key, a[1..], b[1..]);
      PairedGroups(rel, WithoutKey(a[0].key, a[1..]), WithoutKey(a[0].key, b[1..]));
      assert UnitRel(rel)([a[0].row] + WithKey(a[0].key, a[1..]), [b[0].row] + WithKey(a[0].key, b[1..]));
    }
  }

  // ---- Order ----

  lemma {:induction false} PairedInsert(rel: (Row, Row) -> bool, x: Keyed, y: Keyed, a: seq<Keyed>, b: seq<Keyed>,
                                        descending: seq<bool>, engine: Engine)
    requires Paired(SameKey(rel), a, b) && SameKey(rel)(x, y)
    ensures Paired(SameKey(rel), Insert(x, a, descending, engine), Insert(y, b, descending, engine))
  {
    if a != [] {
      var n := |a| - 1;
      assert SameKey(rel)(a[n], b[n]);
      PairedInsert(rel, x, y, a[..n], b[..n], descending, engine);
    }
  }

  lemma {:induction false} PairedSort(rel: (Row, Row) -> bool, a: seq<Keyed>, b: seq<Keyed>, descending: seq<bool>,
                                      engine: Engine)
    requires Paired(SameKey(rel), a, b)
    ensures Paired(SameKey(rel), Sort(a, descending, engine), Sort(b, descending, engine))
  {
    if a != [] {
      var n := |a| - 1;
      assert SameKey(rel)(a[n], b[n]);
      PairedSort(rel, a[..n], b[..n], descending, engine);
      PairedInsert(rel, a[n], b[n], Sort(a[..n], descending, engine), Sort(b[..n], descending, engine), descending,
                   engine);
    }
  }

  /** Removing duplicates compares whole rows, so it needs equal rows. */
  lemma PairedFinish(rel: (Row, Row) -> bool, a: seq<Keyed>, b: seq<Keyed>, distinct: bool, ordered: bool,
                     descending: seq<bool>, limit: Option<nat>, engine: Engine)
    requires Paired(SameKey(rel), a, b) && (distinct ==> a == b)
    requires forall k | k in a :: distinct ==> rel(k.row, k.row)
    ensures Paired(rel, Finish(a, distinct, ordered, descending, limit, engine),
                   Finish(b, distinct, ordered, descending, limit, engine))
  {
    var a', b' := if distinct then DistinctKeyed(a) else a, if distinct then DistinctKeyed(b) else b;
    if distinct {
      DistinctFrom(a);
      forall i | 0 <= i < |a'| ensures SameKey(rel)(a'[i], b'[i]) {
        assert a'[i] in a;
      }
    }
    PairedSort(rel, a', b', descending, engine);
    var s, t := if ordered then Sort(a', descending, engine) else a', if ordered then Sort(b', descending,
        engine) else b';
    forall i | 0 <= i < |s| ensures rel(RowsOf(s)[i], RowsOf(t)[i]) {
      assert SameKey(rel)(s[i], t[i]);
    }
  }

  lemma {:induction false} DistinctFrom(ks: seq<Keyed>)
    ensures forall k | k in DistinctKeyed(ks) :: k in ks
  {
    if ks != [] {
      DistinctFrom(ks[..|ks| - 1]);
    }
  }
}
