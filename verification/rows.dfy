/**
 * A CSV row as `csv.DictReader` yields it: the row's (column, value) pairs in
 * header order.  Order matters to the metadata builders, where a later column
 * overwrites an earlier one that maps to the same key.
 */
module Rows {
  import opened Exceptions

  type Row = seq<(string, string)>

  predicate Has(row: Row, column: string) {
    exists i :: 0 <= i < |row| && row[i].0 == column
  }

  /** Python's `row[column]`: the value stored under the column, or a `KeyError`. */
  function Get(row: Row, column: string): (r: Result<string>)
    ensures r.Ok? <==> Has(row, column)
    ensures r.Ok? ==> exists i :: 0 <= i < |row| && row[i] == (column, r.value)
    ensures r.Err? ==> r.error == KeyError(column)
    decreases |row|
  {
    if row == [] then Err(KeyError(column))
    else if row[|row| - 1].0 == column then Ok(row[|row| - 1].1)
    else
      var r := Get(row[..|row| - 1], column);
      assert Has(row, column) ==> Has(row[..|row| - 1], column) by {
        if Has(row, column) {
          var i :| 0 <= i < |row| && row[i].0 == column;
          assert row[..|row| - 1][i].0 == column;
        }
      }
      r
  }

  /**
   * Python's `row[column] or row[fallback]`: the column's own value when it is
   * non-empty, otherwise the fallback column, which is only looked up then.
   */
  function GetOr(row: Row, column: string, fallback: string): (r: Result<string>)
    ensures !Has(row, column) ==> r == Err(KeyError(column))
    ensures Has(row, column) && Get(row, column).value != "" ==> r == Get(row, column)
    ensures Has(row, column) && Get(row, column).value == "" ==> r == Get(row, fallback)
  {
    var own :- Get(row, column);
    if own != "" then Ok(own) else Get(row, fallback)
  }
}
