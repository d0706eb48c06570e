/** What protects a comma from `_split_sql_list`: the items by their quotes and brackets. */
module SqlListItems {
  import opened Wrappers
  import opened Identifiers
  import opened SqlList

  const QUOTES: set<char> := {'\'', '"', '`'}
  const OPENING: set<char> := {'(', '['}
  const CLOSING: set<char> := {')', ']'}

  // ---- Quoted and bracketed texts ----

  datatype Text =
    | End
    | Plain(c: char, rest: Text)
    | Quoted(quote: char, body: string, rest: Text)
    | Bracketed(open: char, inner: Text, close: char, rest: Text)

  function Show(t: Text): string {
    match t
    case End => ""
    case Plain(c, rest) => [c] + Show(rest)
    case Quoted(quote, body, rest) => [quote] + body + [quote] + Show(rest)
    case Bracketed(open, inner, close, rest) => [open] + Show(inner) + [close] + Show(rest)
  }

  /** Quotes end at the next of their kind, brackets close, and commas stand free only where they may. */
  predicate WellFormed(t: Text, commas: bool) {
    match t
    case End => true
    case Plain(c, rest) => c !in QUOTES + OPENING + CLOSING && (c == ',' ==> commas) && WellFormed(rest, commas)
    case Quoted(quote, body, rest) => quote in QUOTES && quote !in body && WellFormed(rest, commas)
    case Bracketed(open, inner, close, rest) =>
      open in OPENING && close in CLOSING && WellFormed(inner, true) && WellFormed(rest, commas)
  }

  lemma OneMore(before: string, c: char)
    ensures ModeAfter(before + [c]) == Advance(ModeAfter(before), c)
    ensures NoTopComma(before + [c]) <==> NoTopComma(before) && (c == ',' ==> ModeAfter(before) != OUTSIDE)
  {
    assert (before + [c])[..|before|] == before;
  }

  /** Inside a quote everything is text. */
  lemma {:induction false} InQuotes(before: string, body: string, quote: char)
    requires ModeAfter(before).quote == Some(quote) && quote !in body && NoTopComma(before)
    ensures ModeAfter(before + body) == ModeAfter(before) && NoTopComma(before + body)
  {
    if body == "" {
      assert before + body == before;
    } else {
      var init, c := body[..|body| - 1], body[|body| - 1];
      InQuotes(before, init, quote);
      assert before + body == (before + init) + [c];
      OneMore(before + init, c);
    }
  }

  /** The text leaves the scanner where it was, and shows it no comma outside. */
  predicate Passes(before: string, text: string) {
    ModeAfter(before + text) == ModeAfter(before) && NoTopComma(before + text)
  }

  lemma PassesBoth(before: string, a: string, b: string)
    requires Passes(before, a) && Passes(before + a, b)
    ensures Passes(before, a + b)
  {
    assert before + (a + b) == (before + a) + b;
  }

  lemma {:induction false} TextRead(before: string, t: Text, commas: bool)
    requires WellFormed(t, commas) && ModeAfter(before).quote == None && NoTopComma(before)
    requires commas ==> ModeAfter(before).depth > 0
    ensures Passes(before, Show(t))
    decreases t, 1
  {
    if t == End {
      assert before + Show(t) == before;
    } else {
      var first := First(t);
      FirstRead(before, t, commas);
      TextRead(before + first, t.rest, commas);
      PassesBoth(before, first, Show(t.rest));
    }
  }

  function First(t: Text): (first: string)
    requires t != End
    ensures Show(t) == first + Show(t.rest)
  {
    match t
    case Plain(c, _) => [c]
    case Quoted(quote, body, _) => [quote] + body + [quote]
    case Bracketed(open, inner, close, _) => [open] + Show(inner) + [close]
  }

  lemma {:induction false} FirstRead(before: string, t: Text, commas: bool)
    requires t != End && WellFormed(t, commas) && ModeAfter(before).quote == None && NoTopComma(before)
    requires commas ==> ModeAfter(before).depth > 0
    ensures Passes(before, First(t))
    decreases t, 0
  {
    match t
    case Plain(c, _) => OneMore(before, c);
    case Quoted(quote, body, _) =>
      QuotedRead(before, quote, body);
      Regroup(before, [quote], body, [quote]);
    case Bracketed(open, inner, close, _) =>
      BracketsRead(before, open, inner, close);
      Regroup(before, [open], Show(inner), [close]);
  }

  lemma Regroup(before: string, a: string, b: string, c: string)
    ensures before + (a + b + c) == before + a + b + c
  {
  }

  lemma {:induction false} BracketsRead(before: string, open: char, inner: Text, close: char)
    requires open in OPENING && close in CLOSING && WellFormed(inner, true)
    requires ModeAfter(before).quote == None && NoTopComma(before)
    ensures ModeAfter(before + [open] + Show(inner) + [close]) == ModeAfter(before)
    ensures NoTopComma(before + [open] + Show(inner) + [close])
    decreases inner, 2
  {
    OneMore(before, open);
    TextRead(before + [open], inner, true);
    OneMore(before + [open] + Show(inner), close);
  }

  lemma QuotedRead(before: string, quote: char, body: string)
    requires quote in QUOTES && quote !in body && ModeAfter(before).quote == None && NoTopComma(before)
    ensures ModeAfter(before + [quote] + body + [quote]) == ModeAfter(before)
    ensures NoTopComma(before + [quote] + body + [quote])
  {
    OneMore(before, quote);
    InQuotes(before + [quote], body, quote);
    OneMore(before + [quote] + body, quote);
  }

  lemma WellFormedClosed(t: Text)
    requires WellFormed(t, false)
    ensures Closed(Show(t))
  {
    TextRead("", t, false);
    assert "" + Show(t) == Show(t);
  }

  function Shown(items: seq<Text>): seq<string> {
    seq(|items|, i requires 0 <= i < |items| => Show(items[i]))
  }

  /** Items with any quotes and brackets, commas inside them included, come back one by one from the list they are
      joined to. */
  lemma ItemsSplit(items: seq<Text>)
    requires forall t | t in items :: WellFormed(t, false) && Show(t) != "" && Strip(Show(t)) == Show(t)
    ensures Split(Join(Shown(items))) == Shown(items)
  {
    forall x | x in Shown(items) ensures x != "" && Strip(x) == x && Closed(x) {
      var i :| 0 <= i < |items| && x == Show(items[i]);
      assert items[i] in items;
      WellFormedClosed(items[i]);
    }
    SplitJoin(Shown(items));
  }

  // ---- Depth by counting ----

  /** Opening brackets less closing ones. */
  function Balance(s: string): int {
    if s == "" then 0 else Balance(s[..|s| - 1]) + Weight(s[|s| - 1])
  }

  function Weight(c: char): int {
    if c in OPENING then 1 else if c in CLOSING then -1 else 0
  }

  lemma EndBalance(s: string, c: char, i: nat)
    requires i <= |s|
    ensures Balance((s + [c])[i..]) == Balance(s[i..]) + Weight(c)
  {
    assert (s + [c])[i..] == s[i..] + [c];
    assert (s[i..] + [c])[..|s[i..]|] == s[i..];
  }

  predicate QuoteFree(s: string) {
    forall c | c in s :: c !in QUOTES
  }

  /** Without quotes the depth is the largest balance of what the text ends with: brackets that close nothing do not
      count. */
  lemma {:induction false} DepthIsBalance(s: string)
    requires QuoteFree(s)
    ensures ModeAfter(s).quote == None
    ensures forall i | 0 <= i <= |s| :: Balance(s[i..]) <= ModeAfter(s).depth
    ensures exists i | 0 <= i <= |s| :: Balance(s[i..]) == ModeAfter(s).depth
  {
    if s == "" {
      assert Balance(s[0..]) == 0;
    } else {
      var n := |s| - 1;
      var init, c := s[..n], s[n];
      assert s == init + [c];
      DepthIsBalance(init);
      forall i | 0 <= i <= n
        ensures Balance(s[i..]) == Balance(init[i..]) + Weight(c)
      {
        EndBalance(init, c, i);
      }
      assert Balance(s[n + 1..]) == 0;
      var i :| 0 <= i <= n && Balance(init[i..]) == ModeAfter(init).depth;
      assert Balance(s[(if c in CLOSING && ModeAfter(init).depth == 0 then n + 1 else i)..]) == ModeAfter(s).depth;
    }
  }

  /** So a comma after quote-free text splits exactly when no end of the text has more brackets opened than closed. */
  lemma CommaSplits(s: string)
    requires QuoteFree(s)
    ensures ModeAfter(s) == OUTSIDE <==> forall i | 0 <= i <= |s| :: Balance(s[i..]) <= 0
  {
    DepthIsBalance(s);
  }
}
