/** What happens to the rows after execution: the repository's row filter and sensitive columns, and then
    `mask_rows`, which nulls result columns by name. */
module ResultMasking {
  import opened Wrappers
  import opened Identifiers
  import opened Sequences
  import opened SqlAst
  import opened SqlSemantics
  import opened Agreement
  import opened Pairing

  type Record = map<string, Value>

  /** `dict(row)`: of two columns with one name the later wins. */
  function ToRecord(cols: seq<string>, row: Row): Record
    requires |cols| == |row|
  {
    if cols == [] then map[]
    else ToRecord(cols[..|cols| - 1], row[..|row| - 1])[cols[|cols| - 1] := row[|row| - 1]]
  }

  /** `should_mask` against lower-cased masked names; `aliases` maps the statement's output names to the
      identifiers they are computed from. */
  predicate ShouldMask(key: string, masked: set<string>, aliases: map<string, set<string>>) {
    var name := Normalize(key);
    name != "" && (name in masked || (name in aliases && aliases[name] * masked != {}))
  }

  function NullMasked(record: Record, masked: set<string>, aliases: map<string, set<string>>): Record {
    map k | k in record :: if ShouldMask(k, masked, aliases) then Null else record[k]
  }

  function MaskRecord(record: Record, columns: set<string>, aliases: map<string, set<string>>): Record {
    if columns == {} then record else NullMasked(record, FoldAll(columns), aliases)
  }

  /** What the repository is configured to do with the rows it fetches. */
  datatype Repository = Repository(rowFilter: Option<Record -> bool>, sensitive: set<string>)

  const UNFILTERED := Repository(None, {})

  /** `_apply_row_filter`. */
  function FilterRows(rows: seq<Record>, repository: Repository): seq<Record> {
    match repository.rowFilter
    case None => rows
    case Some(keep) => Filter(keep, rows)
  }

  /** `_apply_sensitive_column_masking`, for one row. */
  function HideRecord(record: Record, sensitive: set<string>): Record {
    if sensitive == {} then record
    else map k | k in record :: if IsSensitive(k, sensitive) then Str("[MASKED]") else record[k]
  }

  predicate IsSensitive(key: string, sensitive: set<string>) {
    Fold(key) in sensitive || LastComponent(Fold(key)) in sensitive
  }

  function HideSensitive(sensitive: set<string>): Record -> Record {
    (record: Record) => HideRecord(record, sensitive)
  }

  function Masker(columns: set<string>, aliases: map<string, set<string>>): Record -> Record {
    (record: Record) => MaskRecord(record, columns, aliases)
  }

  /** The rows of an answer as records. */
  function Fetched(answer: Relation): (r: seq<Record>)
    ensures |r| == |answer.rows|
  {
    seq(|answer.rows|, i requires 0 <= i < |answer.rows| =>
      if |answer.rows[i]| == |answer.cols| then ToRecord(answer.cols, answer.rows[i]) else map[])
  }

  /** The records of an answer: filtered, hidden, and masked. */
  function Records(answer: Relation, repository: Repository, columns: set<string>,
                   aliases: map<string, set<string>>): seq<Record> {
    Map(Masker(columns, aliases), Map(HideSensitive(repository.sensitive), FilterRows(Fetched(answer), repository)))
  }

  // ---- Names ----

  /** Every masked name normalizes to a masked name, as plain SQL identifiers do. */
  predicate Nameable(masked: set<string>) {
    forall c | c in masked :: Normalize(c) != "" && Normalize(c) in masked
  }

  lemma SecretMasked(key: string, masked: set<string>, aliases: map<string, set<string>>)
    requires Fold(key) in masked && Nameable(masked)
    ensures ShouldMask(key, masked, aliases)
  {
    NormalizeFolded(key);
    assert Normalize(Fold(key)) in masked;
  }

  /** `mask_rows` nulls every result column named like a masked column, without help from the alias map,
      exactly when the masked names are nameable (a name with a dot in it, say, need not be). */
  lemma MaskRowsCovers(masked: set<string>)
    requires forall c | c in masked :: Fold(c) == c
    ensures (forall key | Fold(key) in masked :: ShouldMask(key, masked, map[])) <==> Nameable(masked)
  {
    if Nameable(masked) {
      forall key | Fold(key) in masked ensures ShouldMask(key, masked, map[]) {
        SecretMasked(key, masked, map[]);
      }
    }
    if forall key | Fold(key) in masked :: ShouldMask(key, masked, map[]) {
      forall c | c in masked ensures Normalize(c) != "" && Normalize(c) in masked {
        assert Fold(c) in masked;
        assert ShouldMask(c, masked, map[]);
      }
    }
  }

  lemma FoldAllEmpty(columns: set<string>)
    ensures FoldAll(columns) == {} <==> columns == {}
  {
    if columns != {} {
      var c :| c in columns;
      assert Fold(c) in FoldAll(columns);
    }
  }

  // ---- Records that differ in masked columns only ----

  lemma {:induction false} RecordsAgree(secret: set<string>, cols: seq<string>, a: Row, b: Row)
    requires RowAgree(secret, cols, a, b)
    ensures ToRecord(cols, a).Keys == ToRecord(cols, b).Keys
    ensures forall k | k in ToRecord(cols, a) && Fold(k) !in secret :: ToRecord(cols, a)[k] == ToRecord(cols, b)[k]
    decreases |cols|
  {
    if cols != [] {
      var n := |cols| - 1;
      assert RowAgree(secret, cols[..n], a[..n], b[..n]);
      RecordsAgree(secret, cols[..n], a[..n], b[..n]);
      assert Fold(cols[n]) !in secret ==> a[n] == b[n];
    }
  }

  lemma NullMaskedEqual(x: Record, y: Record, masked: set<string>, aliases: map<string, set<string>>)
    requires x.Keys == y.Keys && Nameable(masked)
    requires forall k | k in x && Fold(k) !in masked :: x[k] == y[k]
    ensures NullMasked(x, masked, aliases) == NullMasked(y, masked, aliases)
  {
    forall k | k in x ensures NullMasked(x, masked, aliases)[k] == NullMasked(y, masked, aliases)[k] {
      if Fold(k) in masked {
        SecretMasked(k, masked, aliases);
      }
    }
  }

  /** Records of the same keys that differ under masked names only. */
  ghost predicate Alike(masked: set<string>, x: Record, y: Record) {
    x.Keys == y.Keys && forall k | k in x && Fold(k) !in masked :: x[k] == y[k]
  }

  ghost function AreAlike(masked: set<string>): (Record, Record) -> bool {
    (x, y) => Alike(masked, x, y)
  }

  /** The row filter does not look at masked columns. */
  ghost predicate FiltersPublicly(repository: Repository, masked: set<string>) {
    repository.rowFilter.Some? ==>
      forall x, y | Alike(masked, x, y) :: repository.rowFilter.value(x) == repository.rowFilter.value(y)
  }

  /** The row filter of the configuration: one column equals one text. */
  function ColumnFilter(column: string, text: string): Record -> bool {
    (record: Record) => column in record && record[column] == Str(text)
  }

  /** Such a filter does not look at masked columns exactly when its column is not masked. */
  lemma ColumnFilterPublic(column: string, text: string, sensitive: set<string>, masked: set<string>)
    ensures FiltersPublicly(Repository(Some(ColumnFilter(column, text)), sensitive), masked)
       <==> Fold(column) !in masked
  {
    if Fold(column) in masked {
      var x, y: Record := map[column := Str(text)], map[column := Null];
      assert Alike(masked, x, y);
      assert ColumnFilter(column, text)(x) && !ColumnFilter(column, text)(y);
    }
  }

  lemma FetchedAlike(masked: set<string>, x: Relation, y: Relation)
    requires RelationsAgree(masked, x, y)
    ensures Paired(AreAlike(masked), Fetched(x), Fetched(y))
  {
    forall i | 0 <= i < |x.rows| ensures Alike(masked, Fetched(x)[i], Fetched(y)[i]) {
      assert Agreeing(masked, x.cols)(x.rows[i], y.rows[i]);
      RecordsAgree(masked, x.cols, x.rows[i], y.rows[i]);
    }
  }

  lemma HiddenAlike(masked: set<string>, sensitive: set<string>, a: seq<Record>, b: seq<Record>)
    requires Paired(AreAlike(masked), a, b)
    ensures Paired(AreAlike(masked), Map(HideSensitive(sensitive), a), Map(HideSensitive(sensitive), b))
  {
    var blank := HideSensitive(sensitive);
    forall x, y | Alike(masked, x, y) ensures Alike(masked, blank(x), blank(y)) {}
    PairedMap(AreAlike(masked), AreAlike(masked), blank, blank, a, b);
  }

  lemma MaskedEqual(columns: set<string>, aliases: map<string, set<string>>, x: Record, y: Record)
    requires Alike(FoldAll(columns), x, y) && Nameable(FoldAll(columns))
    ensures MaskRecord(x, columns, aliases) == MaskRecord(y, columns, aliases)
  {
    FoldAllEmpty(columns);
    if columns == {} {
      assert x == y;
    } else {
      NullMaskedEqual(x, y, FoldAll(columns), aliases);
    }
  }

  lemma FilteredAlike(masked: set<string>, repository: Repository, a: seq<Record>, b: seq<Record>)
    requires Paired(AreAlike(masked), a, b) && FiltersPublicly(repository, masked)
    ensures Paired(AreAlike(masked), FilterRows(a, repository), FilterRows(b, repository))
  {
    if repository.rowFilter.Some? {
      PairedFilter(AreAlike(masked), repository.rowFilter.value, repository.rowFilter.value, a, b);
    }
  }

  /** After `mask_rows`, answers that agree in the unmasked columns are the same. */
  lemma RecordsEqual(columns: set<string>, repository: Repository, aliases: map<string, set<string>>, x: Relation,
                     y: Relation)
    requires RelationsAgree(FoldAll(columns), x, y) && Nameable(FoldAll(columns))
    requires FiltersPublicly(repository, FoldAll(columns))
    ensures Records(x, repository, columns, aliases) == Records(y, repository, columns, aliases)
  {
    var masked := FoldAll(columns);
    FetchedAlike(masked, x, y);
    var a, b := FilterRows(Fetched(x), repository), FilterRows(Fetched(y), repository);
    FilteredAlike(masked, repository, Fetched(x), Fetched(y));
    HiddenAlike(masked, repository.sensitive, a, b);
    var c, d := Map(HideSensitive(repository.sensitive), a), Map(HideSensitive(repository.sensitive), b);
    forall i | 0 <= i < |c| ensures MaskRecord(c[i], columns, aliases) == MaskRecord(d[i], columns, aliases) {
      assert AreAlike(masked)(c[i], d[i]);
      MaskedEqual(columns, aliases, c[i], d[i]);
    }
  }

  /** Without a row filter and sensitive columns, there is a record for each row. */
  lemma UnfilteredRecords(answer: Relation, columns: set<string>, aliases: map<string, set<string>>)
    ensures |Records(answer, UNFILTERED, columns, aliases)| == |answer.rows|
    ensures forall i | 0 <= i < |answer.rows| ::
      Records(answer, UNFILTERED, columns, aliases)[i] == MaskRecord(Fetched(answer)[i], columns, aliases)
  {
  }
}
