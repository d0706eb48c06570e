/** Names as the gateway compares them: folded to lower case, stripped of blanks and quoting. */
module Identifiers {

  function LowerChar(c: char): char {
    if 'A' <= c <= 'Z' then (c as int + 32) as char else c
  }

  function Fold(s: string): (r: string)
    ensures |r| == |s|
  {
    seq(|s|, i requires 0 <= i < |s| => LowerChar(s[i]))
  }

  function FoldAll(names: set<string>): set<string> {
    set n | n in names :: Fold(n)
  }

  predicate Blank(c: char) {
    c == ' ' || 9 as char <= c <= 13 as char
  }

  predicate Quoting(c: char) {
    c == '`' || c == '"' || c == '[' || c == ']'
  }

  function DropWhile(s: string, drop: char -> bool): (r: string)
    ensures |r| <= |s|
  {
    if s != [] && drop(s[0]) then DropWhile(s[1..], drop) else s
  }

  function DropWhileBack(s: string, drop: char -> bool): (r: string)
    ensures |r| <= |s|
  {
    if s != [] && drop(s[|s| - 1]) then DropWhileBack(s[..|s| - 1], drop) else s
  }

  function StripOf(s: string, drop: char -> bool): string {
    DropWhileBack(DropWhile(s, drop), drop)
  }

  function Strip(s: string): string {
    StripOf(s, Blank)
  }

  /** The part after the last dot. */
  function LastComponent(s: string): string {
    DropWhileBackTo(s, |s|)
  }

  function DropWhileBackTo(s: string, n: nat): string
    requires n <= |s|
  {
    if n == 0 || s[n - 1] == '.' then s[n..] else DropWhileBackTo(s, n - 1)
  }

  /** `_normalize_identifier`: blanks off, lower case, quoting off, last dotted component. */
  function Normalize(s: string): string {
    LastComponent(StripOf(Fold(Strip(s)), Quoting))
  }

  lemma FoldTwice(s: string)
    ensures Fold(Fold(s)) == Fold(s)
  {
  }

  lemma {:induction false} DropFolded(s: string)
    ensures DropWhile(Fold(s), Blank) == Fold(DropWhile(s, Blank))
  {
    if s != [] {
      assert Fold(s)[1..] == Fold(s[1..]);
      DropFolded(s[1..]);
    }
  }

  lemma {:induction false} DropBackFolded(s: string)
    ensures DropWhileBack(Fold(s), Blank) == Fold(DropWhileBack(s, Blank))
  {
    if s != [] {
      assert Fold(s)[..|s| - 1] == Fold(s[..|s| - 1]);
      DropBackFolded(s[..|s| - 1]);
    }
  }

  lemma NormalizeFolded(key: string)
    ensures Normalize(Fold(key)) == Normalize(key)
  {
    DropFolded(key);
    DropBackFolded(DropWhile(key, Blank));
    assert Strip(Fold(key)) == Fold(Strip(key));
    FoldTwice(Strip(key));
  }

  /** Lexicographic order by character, as `sorted` compares strings. */
  predicate Precedes(a: string, b: string) {
    if b == [] then false
    else if a == [] then true
    else a[0] < b[0] || (a[0] == b[0] && Precedes(a[1..], b[1..]))
  }

  function InsertName(name: string, names: seq<string>): (r: seq<string>)
    ensures forall n :: n in r <==> n == name || n in names
  {
    if names == [] then [name]
    else if name == names[0] then names
    else if Precedes(name, names[0]) then [name] + names
    else [names[0]] + InsertName(name, names[1..])
  }

  /** `sorted(set(names))`. */
  function SortedSet(names: seq<string>): (r: seq<string>)
    ensures forall n :: n in r <==> n in names
  {
    if names == [] then [] else InsertName(names[0], SortedSet(names[1..]))
  }
}
