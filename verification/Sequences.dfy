/** Filtering and mapping of sequences. */
module Sequences {

  function Filter<T>(keep: T -> bool, s: seq<T>): (f: seq<T>)
    ensures |f| <= |s|
    ensures forall x | x in f :: x in s && keep(x)
  {
    if s == [] then [] else (if keep(s[0]) then [s[0]] else []) + Filter(keep, s[1..])
  }

  function Map<S, T>(f: S -> T, s: seq<S>): (r: seq<T>)
    ensures |r| == |s|
    ensures forall i | 0 <= i < |s| :: r[i] == f(s[i])
  {
    seq(|s|, i requires 0 <= i < |s| => f(s[i]))
  }

  lemma {:induction false} FilterAll<T>(keep: T -> bool, s: seq<T>)
    requires forall x | x in s :: keep(x)
    ensures Filter(keep, s) == s
  {
    if s != [] {
      FilterAll(keep, s[1..]);
    }
  }

  lemma {:induction false} FilterNone<T>(keep: T -> bool, s: seq<T>)
    requires forall x | x in s :: !keep(x)
    ensures Filter(keep, s) == []
  {
    if s != [] {
      FilterNone(keep, s[1..]);
    }
  }

  lemma FilterCons<T>(keep: T -> bool, x: T, s: seq<T>)
    ensures Filter(keep, [x] + s) == if keep(x) then [x] + Filter(keep, s) else Filter(keep, s)
  {
    assert ([x] + s)[1..] == s;
    assert [] + Filter(keep, s) == Filter(keep, s);
  }

  lemma {:induction false} FilterAppend<T>(keep: T -> bool, a: seq<T>, b: seq<T>)
    ensures Filter(keep, a + b) == Filter(keep, a) + Filter(keep, b)
  {
    if a == [] {
      assert a + b == b;
    } else {
      assert (a + b)[1..] == a[1..] + b;
      FilterAppend(keep, a[1..], b);
    }
  }

  lemma {:induction false} FilterSame<T>(keep: T -> bool, other: T -> bool, s: seq<T>)
    requires forall x | x in s :: keep(x) == other(x)
    ensures Filter(keep, s) == Filter(other, s)
  {
    if s != [] {
      FilterSame(keep, other, s[1..]);
    }
  }

  lemma {:induction false} FilterBoth<T>(both: T -> bool, first: T -> bool, second: T -> bool, s: seq<T>)
    requires forall x | x in s :: both(x) == (first(x) && second(x))
    ensures Filter(both, s) == Filter(second, Filter(first, s))
  {
    if s != [] {
      FilterBoth(both, first, second, s[1..]);
      if first(s[0]) {
        FilterCons(second, s[0], Filter(first, s[1..]));
      } else {
        assert [] + Filter(first, s[1..]) == Filter(first, s[1..]);
      }
    }
  }

  /** A test that holds of the second part only. */
  lemma FilterLater<T>(keep: T -> bool, a: seq<T>, b: seq<T>)
    requires (forall i | 0 <= i < |a| :: !keep(a[i])) && forall i | 0 <= i < |b| :: keep(b[i])
    ensures Filter(keep, a + b) == b
  {
    FilterNone(keep, a);
    FilterAll(keep, b);
    FilterAppend(keep, a, b);
  }

  /** A test that holds of one slice only. */
  lemma {:induction false} FilterSlice<T>(keep: T -> bool, s: seq<T>, i: nat, j: nat)
    requires i <= j <= |s| && forall k | 0 <= k < |s| :: keep(s[k]) <==> i <= k < j
    ensures Filter(keep, s) == s[i..j]
  {
    if i > 0 {
      FilterSlice(keep, s[1..], i - 1, j - 1);
    } else if j > 0 {
      FilterSlice(keep, s[1..], 0, j - 1);
    } else {
      FilterNone(keep, s);
    }
  }
}
