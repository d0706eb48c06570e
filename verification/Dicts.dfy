/** Insertion-ordered dictionaries as lists of their items. */
module Dicts {

  type Dict = seq<(string, string)>

  function Keys(d: Dict): set<string> {
    set x | x in d :: x.0
  }

  /** No key twice. */
  predicate IsDict(d: Dict) {
    d == [] || (d[0].0 !in Keys(d[1..]) && IsDict(d[1..]))
  }

  /** `d[k] = v`: an old key keeps its place. */
  function Assign(d: Dict, k: string, v: string): Dict {
    if d == [] then [(k, v)]
    else if d[0].0 == k then [(k, v)] + d[1..]
    else [d[0]] + Assign(d[1..], k, v)
  }

  /** `d.update(e)`. */
  function Update(d: Dict, e: Dict): Dict
    decreases |e|
  {
    if e == [] then d else Update(Assign(d, e[0].0, e[0].1), e[1..])
  }

  function ToMap(d: Dict): map<string, string> {
    if d == [] then map[] else ToMap(d[1..])[d[0].0 := d[0].1]
  }

  lemma FirstItem(d: Dict)
    requires d != []
    ensures forall x :: x in d <==> x == d[0] || x in d[1..]
    ensures Keys(d) == {d[0].0} + Keys(d[1..])
  {
    assert d == [d[0]] + d[1..];
  }

  /** The mapping has the items of the dictionary and no others. */
  lemma {:induction false} MapMeans(d: Dict)
    requires IsDict(d)
    ensures ToMap(d).Keys == Keys(d)
    ensures forall x | x in d :: x.0 in ToMap(d) && ToMap(d)[x.0] == x.1
  {
    if d != [] {
      MapMeans(d[1..]);
      FirstItem(d);
    }
  }

  lemma {:induction false} AssignKeys(d: Dict, k: string, v: string)
    requires IsDict(d)
    ensures IsDict(Assign(d, k, v)) && Keys(Assign(d, k, v)) == Keys(d) + {k}
  {
    if d != [] {
      AssignKeys(d[1..], k, v);
      var r := Assign(d, k, v);
      FirstItem(d);
      FirstItem(r);
      assert r[1..] == if d[0].0 == k then d[1..] else Assign(d[1..], k, v);
    }
  }

  lemma {:induction false} AssignMap(d: Dict, k: string, v: string)
    requires IsDict(d)
    ensures ToMap(Assign(d, k, v)) == ToMap(d)[k := v]
  {
    if d != [] {
      AssignMap(d[1..], k, v);
      var r := Assign(d, k, v);
      assert r[1..] == if d[0].0 == k then d[1..] else Assign(d[1..], k, v);
    }
  }

  lemma Shift(m: map<string, string>, n: map<string, string>, k: string, v: string)
    requires k !in n
    ensures m[k := v] + n == m + n[k := v]
  {
  }

  lemma {:induction false} UpdateMeans(d: Dict, e: Dict)
    requires IsDict(d) && IsDict(e)
    ensures IsDict(Update(d, e)) && ToMap(Update(d, e)) == ToMap(d) + ToMap(e)
    decreases |e|
  {
    if e == [] {
      assert ToMap(d) + map[] == ToMap(d);
    } else {
      var (k, v) := e[0];
      AssignKeys(d, k, v);
      AssignMap(d, k, v);
      UpdateMeans(Assign(d, k, v), e[1..]);
      MapMeans(e[1..]);
      Shift(ToMap(d), ToMap(e[1..]), k, v);
    }
  }
}
