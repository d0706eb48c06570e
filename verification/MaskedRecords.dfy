/** What the records of an answer hold, cell by cell: `mask_rows` nulls the cells it should and no others. */
module MaskedRecords {
  import opened Wrappers
  import opened Identifiers
  import opened Sequences
  import opened SqlAst
  import opened SqlSemantics
  import opened Agreement
  import opened ResultMasking

  /** No later column has the same name. */
  predicate LastNamed(cols: seq<string>, j: nat)
    requires j < |cols|
  {
    forall k | j < k < |cols| :: cols[k] != cols[j]
  }

  lemma {:induction false} RecordHolds(cols: seq<string>, row: Row)
    requires |cols| == |row|
    ensures forall k :: k in ToRecord(cols, row) <==> k in cols
    ensures forall j | 0 <= j < |cols| && LastNamed(cols, j) :: ToRecord(cols, row)[cols[j]] == row[j]
  {
    if cols != [] {
      var n := |cols| - 1;
      var init, last := cols[..n], cols[n];
      RecordHolds(init, row[..n]);
      assert cols == init + [last];
      forall j | 0 <= j < |cols| && LastNamed(cols, j) ensures ToRecord(cols, row)[cols[j]] == row[j] {
        if j < n {
          assert cols[n] != cols[j];
          assert forall k | j < k < n :: init[k] == cols[k];
          assert LastNamed(init, j) && init[j] == cols[j];
        }
      }
    }
  }

  /** The output name normalizes to a masked column, or is traced to one. */
  predicate Masks(columns: set<string>, aliases: map<string, set<string>>, key: string) {
    var name := Normalize(key);
    name != "" && exists c | c in columns :: Fold(c) == name || (name in aliases && Fold(c) in aliases[name])
  }

  lemma MasksMeans(columns: set<string>, aliases: map<string, set<string>>, key: string)
    ensures Masks(columns, aliases, key) <==> columns != {} && ShouldMask(key, FoldAll(columns), aliases)
  {
    var name := Normalize(key);
    if name in aliases && aliases[name] * FoldAll(columns) != {} {
      var c :| c in aliases[name] * FoldAll(columns);
      assert c in FoldAll(columns);
    }
    if c :| c in columns && name in aliases && Fold(c) in aliases[name] {
      assert Fold(c) in aliases[name] * FoldAll(columns);
    }
  }

  /** Some sensitive name is the key's, or its last dotted part, in lower case. */
  predicate Hides(sensitive: set<string>, key: string) {
    exists s | s in sensitive :: s == Fold(key) || s == LastComponent(Fold(key))
  }

  /** Without a row filter there is one record of each row, and under each name it holds NULL if the name is masked, the
      marker if it is sensitive, and the cell of the last column of that name otherwise. */
  lemma RecordsExactly(answer: Relation, sensitive: set<string>, columns: set<string>,
                       aliases: map<string, set<string>>,
                       i: nat)
    requires Rectangular(answer) && i < |answer.rows|
    ensures var records := Records(answer, Repository(None, sensitive), columns, aliases);
      && |records| == |answer.rows|
      && (forall k :: k in records[i] <==> k in answer.cols)
      && forall j | 0 <= j < |answer.cols| && LastNamed(answer.cols, j) ::
           records[i][answer.cols[j]] ==
             if Masks(columns, aliases, answer.cols[j]) then Null
             else if Hides(sensitive, answer.cols[j]) then Str("[MASKED]")
             else answer.rows[i][j]
  {
    assert answer.rows[i] in answer.rows;
    RecordHolds(answer.cols, answer.rows[i]);
    var fetched := Fetched(answer)[i];
    forall k | k in fetched
      ensures MaskRecord(HideRecord(fetched, sensitive), columns, aliases)[k] ==
        if Masks(columns, aliases, k) then Null else if Hides(sensitive, k) then Str("[MASKED]") else fetched[k]
    {
      MasksMeans(columns, aliases, k);
    }
  }

  // ---- The row filter ----

  lemma {:induction false} FilterMap<S, T>(f: S -> T, keep: T -> bool, keep': S -> bool, s: seq<S>)
    requires forall x | x in s :: keep'(x) == keep(f(x))
    ensures Filter(keep, Map(f, s)) == Map(f, Filter(keep', s))
  {
    if s != [] {
      assert Map(f, s)[1..] == Map(f, s[1..]);
      FilterMap(f, keep, keep', s[1..]);
    }
  }

  function AsRecord(cols: seq<string>): Row -> Record {
    row => if |row| == |cols| then ToRecord(cols, row) else map[]
  }

  function Passing(cols: seq<string>, keep: Record -> bool): Row -> bool {
    row => keep(AsRecord(cols)(row))
  }

  /** With a row filter, they are the records of the rows that pass it, in their order. */
  lemma FilteredRecords(answer: Relation, keep: Record -> bool, sensitive: set<string>, columns: set<string>,
                        aliases: map<string, set<string>>)
    ensures Records(answer, Repository(Some(keep), sensitive), columns, aliases)
         == Records(Relation(answer.cols, Filter(Passing(answer.cols, keep), answer.rows)), Repository(None, sensitive),
                    columns, aliases)
  {
    var passing := Passing(answer.cols, keep);
    var kept := Relation(answer.cols, Filter(passing, answer.rows));
    FilterMap(AsRecord(answer.cols), keep, passing, answer.rows);
    assert Fetched(answer) == Map(AsRecord(answer.cols), answer.rows);
    assert Fetched(kept) == Map(AsRecord(answer.cols), kept.rows);
  }
}
