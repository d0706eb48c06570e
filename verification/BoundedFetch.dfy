/** The fetch loop of `sql_query_repository.py`: batches of 256 rows, up to a row limit. */
module BoundedFetch {
  import opened Wrappers

  const BATCH := 256

  datatype FetchError = RowLimitExceeded(limit: nat)

  /** An open result: `fetchmany` hands out the rows in order. */
  class Cursor<T> {
    const rows: seq<T>
    var position: nat

    ghost predicate Valid()
      reads this
    {
      position <= |rows|
    }

    constructor (rows: seq<T>)
      ensures Valid() && this.rows == rows && position == 0
    {
      this.rows, position := rows, 0;
    }

    method FetchMany(n: nat) returns (batch: seq<T>)
      requires Valid()
      modifies this
      ensures Valid() && old(position) <= position <= old(position) + n
      ensures batch == rows[old(position)..position]
      ensures position < old(position) + n ==> position == |rows|
    {
      var end := if position + n <= |rows| then position + n else |rows|;
      batch := rows[position..end];
      position := end;
    }
  }

  /** All rows in order exactly when there are no more than the limit, and an error otherwise; the rows held
      never exceed the limit by more than one, and no batch is fetched after the end. */
  method FetchBounded<T>(cursor: Cursor<T>, limit: nat) returns (r: Result<seq<T>, FetchError>, ghost most: nat)
    requires cursor.Valid() && cursor.position == 0
    modifies cursor
    ensures r == if |cursor.rows| <= limit then Ok(cursor.rows) else Err(RowLimitExceeded(limit))
    ensures most <= limit + 1
    ensures cursor.position <= limit + BATCH
  {
    var results: seq<T> := [];
    most := 0;
    while |results| <= limit
      invariant cursor.Valid() && results == cursor.rows[..cursor.position] && |results| <= limit && most <= limit + 1
      decreases |cursor.rows| - cursor.position
    {
      var start := cursor.position;
      var batch := cursor.FetchMany(BATCH);
      if batch == [] {
        break;
      }
      for i := 0 to |batch|
        invariant results == cursor.rows[..start + i] && |results| <= limit && most <= limit + 1
      {
        results := results + [batch[i]];
        most := if |results| > most then |results| else most;
        assert results == cursor.rows[..start + i + 1];
        if |results| > limit {
          return Err(RowLimitExceeded(limit)), most;
        }
      }
    }
    assert cursor.rows[..|cursor.rows|] == cursor.rows;
    return Ok(results), most;
  }
}
