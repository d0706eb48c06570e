/** Filtering commutes with every kind of join, for row tests that split over the two sides. */
module JoinAlgebra {
  import opened Sequences
  import opened SqlAst
  import opened SqlSemantics

  predicate Width(rows: seq<Row>, n: nat) {
    forall row | row in rows :: |row| == n
  }

  /** A test of joined rows that is the conjunction of a test of each side, where a side's test either
      accepts everything or rejects the NULL padding of an outer join. */
  datatype Parts = Parts(lwidth: nat, rwidth: nat, both: Row -> bool, left: Row -> bool, right: Row -> bool) {
    ghost predicate Valid() {
      && (forall l, r {:trigger both(l + r)} | |l| == lwidth && |r| == rwidth :: both(l + r) == (left(l) && right(r)))
      && ((forall l :: left(l)) || !left(Nulls(lwidth)))
      && ((forall r :: right(r)) || !right(Nulls(rwidth)))
    }
  }

  lemma {:induction false} MatchesFiltered(p: Parts, on: Row -> bool, l: Row, rs: seq<Row>)
    requires p.Valid() && |l| == p.lwidth && Width(rs, p.rwidth)
    ensures Filter(p.both, Matches(on, l, rs)) == if p.left(l) then Matches(on, l, Filter(p.right, rs)) else []
  {
    if rs != [] {
      MatchesFiltered(p, on, l, rs[1..]);
      var tail, kept := Matches(on, l, rs[1..]), Filter(p.right, rs[1..]);
      assert p.both(l + rs[0]) == (p.left(l) && p.right(rs[0]));
      MatchesCons(on, l, rs[0], kept);
      if on(l + rs[0]) {
        FilterCons(p.both, l + rs[0], tail);
      } else {
        assert [] + tail == tail;
      }
      if !p.right(rs[0]) {
        assert [] + kept == kept;
      }
    }
  }

  lemma MatchesCons(on: Row -> bool, l: Row, r: Row, rs: seq<Row>)
    ensures Matches(on, l, [r] + rs) == (if on(l + r) then [l + r] else []) + Matches(on, l, rs)
  {
    assert ([r] + rs)[1..] == rs;
  }

  lemma LeftHeadFiltered(p: Parts, on: Row -> bool, keep: bool, l: Row, rs: seq<Row>)
    requires p.Valid() && |l| == p.lwidth && Width(rs, p.rwidth)
    ensures Filter(p.both, LeftHead(on, keep, p.rwidth, l, rs))
         == if p.left(l) then Filter(p.both, LeftHead(on, keep, p.rwidth, l, Filter(p.right, rs))) else []
  {
    var kept := Filter(p.right, rs);
    MatchesFiltered(p, on, l, rs);
    MatchesFiltered(p, on, l, kept);
    FilterAll(p.right, kept);
    assert p.both(l + Nulls(p.rwidth)) == (p.left(l) && p.right(Nulls(p.rwidth)));
    if forall r :: p.right(r) {
      FilterAll(p.right, rs);
    }
  }

  lemma {:induction false} LeftPartFiltered(p: Parts, on: Row -> bool, keep: bool, ls: seq<Row>, rs: seq<Row>)
    requires p.Valid() && Width(ls, p.lwidth) && Width(rs, p.rwidth)
    ensures Filter(p.both, LeftPart(on, keep, p.rwidth, ls, rs))
         == Filter(p.both, LeftPart(on, keep, p.rwidth, Filter(p.left, ls), Filter(p.right, rs)))
  {
    if ls != [] {
      var kept, rest := Filter(p.right, rs), Filter(p.left, ls[1..]);
      LeftPartFiltered(p, on, keep, ls[1..], rs);
      LeftHeadFiltered(p, on, keep, ls[0], rs);
      FilterAppend(p.both, LeftHead(on, keep, p.rwidth, ls[0], rs), LeftPart(on, keep, p.rwidth, ls[1..], rs));
      if p.left(ls[0]) {
        LeftPartCons(on, keep, p.rwidth, ls[0], rest, kept);
        FilterAppend(p.both, LeftHead(on, keep, p.rwidth, ls[0], kept), LeftPart(on, keep, p.rwidth, rest, kept));
      } else {
        assert [] + rest == rest;
      }
    }
  }

  lemma LeftPartCons(on: Row -> bool, keep: bool, width: nat, l: Row, ls: seq<Row>, rs: seq<Row>)
    ensures LeftPart(on, keep, width, [l] + ls, rs)
         == LeftHead(on, keep, width, l, rs) + LeftPart(on, keep, width, ls, rs)
  {
    assert ([l] + ls)[1..] == ls;
  }

  lemma {:induction false} RightPartRejected(p: Parts, on: Row -> bool, ls: seq<Row>, rs: seq<Row>)
    requires p.Valid() && Width(rs, p.rwidth) && !p.left(Nulls(p.lwidth))
    ensures Filter(p.both, RightPart(on, p.lwidth, ls, rs)) == []
  {
    if rs != [] {
      RightPartRejected(p, on, ls, rs[1..]);
      var head := RightHead(on, p.lwidth, ls, rs[0]);
      FilterAppend(p.both, head, RightPart(on, p.lwidth, ls, rs[1..]));
      assert !p.both(Nulls(p.lwidth) + rs[0]);
      FilterNone(p.both, head);
    }
  }

  lemma RightHeadRejected(p: Parts, on: Row -> bool, ls: seq<Row>, r: Row)
    requires p.Valid() && |r| == p.rwidth && !p.right(r)
    ensures Filter(p.both, RightHead(on, p.lwidth, ls, r)) == []
  {
    assert p.both(Nulls(p.lwidth) + r) == (p.left(Nulls(p.lwidth)) && p.right(r));
    FilterNone(p.both, RightHead(on, p.lwidth, ls, r));
  }

  lemma {:induction false} RightPartFiltered(p: Parts, on: Row -> bool, ls: seq<Row>, rs: seq<Row>)
    requires p.Valid() && Width(rs, p.rwidth)
    ensures Filter(p.both, RightPart(on, p.lwidth, ls, rs))
         == Filter(p.both, RightPart(on, p.lwidth, ls, Filter(p.right, rs)))
  {
    if rs != [] {
      var r, tail := rs[0], rs[1..];
      var rest := Filter(p.right, tail);
      var head, after := RightHead(on, p.lwidth, ls, r), RightPart(on, p.lwidth, ls, tail);
      RightPartFiltered(p, on, ls, tail);
      assert rs == [r] + tail;
      RightPartCons(on, p.lwidth, ls, r, tail);
      FilterAppend(p.both, head, after);
      FilterCons(p.right, r, tail);
      if p.right(r) {
        RightPartCons(on, p.lwidth, ls, r, rest);
        FilterAppend(p.both, head, RightPart(on, p.lwidth, ls, rest));
      } else {
        RightHeadRejected(p, on, ls, r);
        assert [] + Filter(p.both, after) == Filter(p.both, after);
      }
    }
  }

  lemma RightPartCons(on: Row -> bool, width: nat, ls: seq<Row>, r: Row, rs: seq<Row>)
    ensures RightPart(on, width, ls, [r] + rs) == RightHead(on, width, ls, r) + RightPart(on, width, ls, rs)
  {
    assert ([r] + rs)[1..] == rs;
  }

  /** Filtering the join is filtering the join of the filtered sides. */
  lemma JoinFiltered(p: Parts, on: Row -> bool, kind: JoinKind, ls: seq<Row>, rs: seq<Row>)
    requires p.Valid() && Width(ls, p.lwidth) && Width(rs, p.rwidth)
    ensures Filter(p.both, JoinRows(on, kind, p.lwidth, p.rwidth, ls, rs))
         == Filter(p.both, JoinRows(on, kind, p.lwidth, p.rwidth, Filter(p.left, ls), Filter(p.right, rs)))
  {
    var ls', rs' := Filter(p.left, ls), Filter(p.right, rs);
    LeftPartFiltered(p, on, kind.KeepsLeft(), ls, rs);
    var left, left' := LeftPart(on, kind.KeepsLeft(), p.rwidth, ls, rs), LeftPart(on, kind.KeepsLeft(), p.rwidth, ls',
        rs');
    if kind.KeepsRight() {
      FilterAppend(p.both, left, RightPart(on, p.lwidth, ls, rs));
      FilterAppend(p.both, left', RightPart(on, p.lwidth, ls', rs'));
      if !p.left(Nulls(p.lwidth)) {
        RightPartRejected(p, on, ls, rs);
        RightPartRejected(p, on, ls', rs');
      } else {
        FilterAll(p.left, ls);
        RightPartFiltered(p, on, ls, rs);
      }
    } else {
      assert left + [] == left && left' + [] == left';
    }
  }

  lemma {:induction false} LeftPartPasses(p: Parts, on: Row -> bool, keep: bool, ls: seq<Row>, rs: seq<Row>)
    requires p.Valid() && Width(ls, p.lwidth) && Width(rs, p.rwidth)
    requires (forall l | l in ls :: p.left(l)) && (forall r | r in rs :: p.right(r))
    requires keep ==> p.right(Nulls(p.rwidth))
    ensures forall row | row in LeftPart(on, keep, p.rwidth, ls, rs) :: p.both(row)
  {
    if ls != [] {
      LeftPartPasses(p, on, keep, ls[1..], rs);
      MatchesFiltered(p, on, ls[0], rs);
      FilterAll(p.right, rs);
      assert p.both(ls[0] + Nulls(p.rwidth)) == (p.left(ls[0]) && p.right(Nulls(p.rwidth)));
    }
  }

  lemma {:induction false} RightPartPasses(p: Parts, on: Row -> bool, ls: seq<Row>, rs: seq<Row>)
    requires p.Valid() && Width(rs, p.rwidth)
    requires p.left(Nulls(p.lwidth)) && forall r | r in rs :: p.right(r)
    ensures forall row | row in RightPart(on, p.lwidth, ls, rs) :: p.both(row)
  {
    if rs != [] {
      RightPartPasses(p, on, ls, rs[1..]);
      assert p.both(Nulls(p.lwidth) + rs[0]) == (p.left(Nulls(p.lwidth)) && p.right(rs[0]));
    }
  }

  /** Sides that pass join to rows that pass, when no rejected padding is added. */
  lemma JoinPasses(p: Parts, on: Row -> bool, kind: JoinKind, ls: seq<Row>, rs: seq<Row>)
    requires p.Valid() && Width(ls, p.lwidth) && Width(rs, p.rwidth)
    requires (forall l | l in ls :: p.left(l)) && (forall r | r in rs :: p.right(r))
    requires kind.KeepsLeft() ==> p.right(Nulls(p.rwidth))
    requires kind.KeepsRight() ==> p.left(Nulls(p.lwidth))
    ensures forall row | row in JoinRows(on, kind, p.lwidth, p.rwidth, ls, rs) :: p.both(row)
  {
    LeftPartPasses(p, on, kind.KeepsLeft(), ls, rs);
    if kind.KeepsRight() {
      RightPartPasses(p, on, ls, rs);
    }
  }
}
