/** `_split_sql_list` of `services/policy_engine.py`: splitting at commas outside quotes and brackets. */
module SqlList {
  import opened Wrappers
  import opened Identifiers
  import opened Sequences

  /** Bracket depth and open quote. */
  datatype Mode = Mode(depth: nat, quote: Option<char>)

  const OUTSIDE := Mode(0, None)

  function Advance(m: Mode, c: char): Mode {
    if m.quote.Some? then (if c == m.quote.value then m.(quote := None) else m)
    else if c in {'\'', '"', '`'} then m.(quote := Some(c))
    else if c in {'(', '['} then m.(depth := m.depth + 1)
    else if c in {')', ']'} then (if m.depth > 0 then m.(depth := m.depth - 1) else m)
    else m
  }

  /** The mode after reading a text outside quotes and brackets. */
  function ModeAfter(s: string): Mode {
    if s == "" then OUTSIDE else Advance(ModeAfter(s[..|s| - 1]), s[|s| - 1])
  }

  /** The scanner: the pieces cut so far, the buffer, and the mode. */
  datatype Scanner = Scanner(pieces: seq<string>, buffer: string, mode: Mode)

  function Read(s: Scanner, c: char): Scanner {
    if c == ',' && s.mode == OUTSIDE then Scanner(s.pieces + [s.buffer], "", OUTSIDE)
    else Scanner(s.pieces, s.buffer + [c], Advance(s.mode, c))
  }

  function Scan(value: string): Scanner {
    if value == "" then Scanner([], "", OUTSIDE) else Read(Scan(value[..|value| - 1]), value[|value| - 1])
  }

  /** The pieces between top-level commas, untrimmed. */
  function Cut(value: string): seq<string> {
    Scan(value).pieces + [Scan(value).buffer]
  }

  function Trimmed(): string -> string { s => Strip(s) }

  function Nonempty(): string -> bool { s => s != "" }

  /** Trim the pieces and drop the empty ones. */
  function Tidy(pieces: seq<string>): seq<string> {
    Filter(Nonempty(), Map(Trimmed(), pieces))
  }

  function Split(value: string): seq<string> {
    Tidy(Cut(value))
  }

  method SplitSqlList(value: string) returns (items: seq<string>)
    ensures items == Split(value)
  {
    items := [];
    var buffer, depth, quote := "", 0, None;
    for i := 0 to |value|
      invariant depth >= 0 && Scan(value[..i]) == Scanner(Scan(value[..i]).pieces, buffer, Mode(depth, quote))
      invariant items == Tidy(Scan(value[..i]).pieces)
    {
      var char_ := value[i];
      ghost var before := Scan(value[..i]);
      assert value[..i + 1][..i] == value[..i];
      if quote.Some? {
        buffer := buffer + [char_];
        if char_ == quote.value {
          quote := None;
        }
        continue;
      }
      if char_ in {'\'', '"', '`'} {
        quote := Some(char_);
        buffer := buffer + [char_];
        continue;
      }
      if char_ in {'(', '['} {
        depth := depth + 1;
        buffer := buffer + [char_];
        continue;
      }
      if char_ in {')', ']'} {
        if depth > 0 {
          depth := depth - 1;
        }
        buffer := buffer + [char_];
        continue;
      }
      if char_ == ',' && depth == 0 {
        TidyLast(before.pieces, buffer);
        var item := Strip(buffer);
        if item != "" {
          items := items + [item];
        }
        buffer := "";
        continue;
      }
      buffer := buffer + [char_];
    }
    assert value[..|value|] == value;
    TidyLast(Scan(value).pieces, buffer);
    var item := Strip(buffer);
    if item != "" {
      items := items + [item];
    }
  }

  lemma TidyLast(pieces: seq<string>, last: string)
    ensures Tidy(pieces + [last]) == Tidy(pieces) + (if Strip(last) == "" then [] else [Strip(last)])
  {
    assert Map(Trimmed(), pieces + [last]) == Map(Trimmed(), pieces) + [Strip(last)];
    FilterAppend(Nonempty(), Map(Trimmed(), pieces), [Strip(last)]);
    FilterCons(Nonempty(), Strip(last), []);
    assert [Strip(last)] + [] == [Strip(last)];
  }

  // ---- Cutting and joining ----

  /** The pieces with a comma between each two. */
  function Join(pieces: seq<string>): string {
    if pieces == [] then "" else if |pieces| == 1 then pieces[0]
    else Join(pieces[..|pieces| - 1]) + "," + pieces[|pieces| - 1]
  }

  /** Every comma stands inside quotes or brackets. */
  predicate NoTopComma(text: string) {
    text == ""
    || (NoTopComma(text[..|text| - 1]) && (text[|text| - 1] == ',' ==> ModeAfter(text[..|text| - 1]) != OUTSIDE))
  }

  /** A piece that ends outside quotes and brackets and has no comma there. */
  predicate Closed(piece: string) {
    ModeAfter(piece) == OUTSIDE && NoTopComma(piece)
  }

  lemma JoinLast(pieces: seq<string>, last: string)
    ensures Join(pieces + [last]) == if pieces == [] then last else Join(pieces) + "," + last
  {
    assert (pieces + [last])[..|pieces|] == pieces;
  }

  lemma ScanNext(value: string, c: char)
    ensures Scan(value + [c]) == Read(Scan(value), c)
  {
    assert (value + [c])[..|value|] == value;
  }

  /** Reading one character adds it to the joined pieces. */
  lemma JoinRead(s: Scanner, c: char)
    ensures Join(Read(s, c).pieces + [Read(s, c).buffer]) == Join(s.pieces + [s.buffer]) + [c]
  {
    JoinLast(s.pieces, s.buffer);
    if c == ',' && s.mode == OUTSIDE {
      JoinLast(s.pieces + [s.buffer], "");
      assert Join(s.pieces + [s.buffer]) + "," + "" == Join(s.pieces + [s.buffer]) + [c];
    } else {
      JoinLast(s.pieces, s.buffer + [c]);
      var front := if s.pieces == [] then "" else Join(s.pieces) + ",";
      assert front + (s.buffer + [c]) == (front + s.buffer) + [c];
    }
  }

  /** Joining undoes cutting: no character of the list is lost or moved. */
  lemma {:induction false} JoinCut(value: string)
    ensures Join(Cut(value)) == value
  {
    if value != "" {
      var init, c := value[..|value| - 1], value[|value| - 1];
      JoinCut(init);
      JoinRead(Scan(init), c);
      assert value == init + [c];
    }
  }

  /** Reading a text without top-level commas from the outside only fills the buffer. */
  lemma {:induction false} ScanText(before: string, text: string)
    requires NoTopComma(text) && Scan(before).mode == OUTSIDE
    ensures Scan(before + text) == Scanner(Scan(before).pieces, Scan(before).buffer + text, ModeAfter(text))
  {
    if text == "" {
      assert before + text == before;
      assert Scan(before).buffer + text == Scan(before).buffer;
    } else {
      var init, c := text[..|text| - 1], text[|text| - 1];
      ScanText(before, init);
      assert text == init + [c];
      assert before + text == (before + init) + [c];
      ScanNext(before + init, c);
      assert Scan(before).buffer + text == (Scan(before).buffer + init) + [c];
    }
  }

  /** Reading a whole closed piece. */
  lemma ScanWhole(before: string, piece: string)
    requires Closed(piece) && Scan(before).mode == OUTSIDE
    ensures Scan(before + piece) == Scanner(Scan(before).pieces, Scan(before).buffer + piece, OUTSIDE)
  {
    ScanText(before, piece);
  }

  /** Cutting undoes joining, for every nonempty list of closed pieces. */
  lemma {:induction false} CutJoin(pieces: seq<string>)
    requires pieces != [] && forall p | p in pieces :: Closed(p)
    ensures Scan(Join(pieces)) == Scanner(pieces[..|pieces| - 1], pieces[|pieces| - 1], OUTSIDE)
    ensures Cut(Join(pieces)) == pieces
    decreases |pieces|
  {
    var init, last := pieces[..|pieces| - 1], pieces[|pieces| - 1];
    assert pieces == init + [last];
    JoinLast(init, last);
    if init == [] {
      ScanWhole("", last);
      assert "" + last == last;
    } else {
      CutJoin(init);
      var comma := Join(init) + ",";
      ScanNext(Join(init), ',');
      ScanWhole(comma, last);
      assert "" + last == last;
    }
  }

  // ---- Splitting and joining ----

  lemma TidyAll(items: seq<string>)
    requires forall x | x in items :: x != "" && Strip(x) == x
    ensures Tidy(items) == items
  {
    assert Map(Trimmed(), items) == items;
    FilterAll(Nonempty(), items);
  }

  /** Splitting undoes joining: for every list of nonempty, trimmed, closed items. */
  lemma SplitJoin(items: seq<string>)
    requires forall x | x in items :: x != "" && Strip(x) == x && Closed(x)
    ensures Split(Join(items)) == items
  {
    if items == [] {
      assert Strip("") == "";
      TidyLast([], "");
      assert Cut("") == [] + [""] && Tidy([]) == [];
    } else {
      CutJoin(items);
      TidyAll(items);
    }
  }

  /** Blanks around the items do not matter: a list joined with any padding splits into the trimmed items. */
  lemma SplitPadded(pieces: seq<string>)
    requires pieces != [] && forall p | p in pieces :: Closed(p)
    ensures Split(Join(pieces)) == Tidy(pieces)
  {
    CutJoin(pieces);
  }
}
