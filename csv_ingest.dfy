/**
 * The completion step of the `.csv` path: the quoting-aware CSV reader hands
 * over its grid of cells and its error list, and this step turns them into
 * row objects.
 */
module CsvIngest {
  import opened Wrappers
  import opened Lists
  import opened Records

  /** Some cell of the row is not the empty string. */
  predicate HasContent(row: seq<string>) {
    exists c :: c in row && c != ""
  }

  /** The header row: the grid's first row (an empty grid has none, and then no data row either). */
  function HeaderRow(grid: seq<seq<string>>): (headers: seq<string>) {
    if grid == [] then [] else grid[0]
  }

  /** The data rows that are kept: those after the header with at least one non-empty cell, in order. */
  function ContentRows(grid: seq<seq<string>>): (rows: seq<seq<string>>)
    ensures forall k :: 0 <= k < |rows| ==> HasContent(rows[k])
    ensures grid != [] ==> IsSubsequence(rows, grid[1..])
    ensures grid != [] ==> forall k :: 1 <= k < |grid| && HasContent(grid[k]) ==> grid[k] in rows
    ensures grid != [] ==> forall row :: multiset(rows)[row] == if HasContent(row) then multiset(grid[1..])[row] else 0
    ensures grid == [] ==> rows == []
  {
    var data := if grid == [] then [] else grid[1..];
    assert grid != [] ==> forall k :: 1 <= k < |grid| ==> grid[k] == data[k - 1];
    Filter(data, HasContent)
  }

  /**
   * The reader's result turned into row objects. Any reported error fails with
   * the first error's message and builds nothing; otherwise each kept data row
   * becomes the object for its position among the kept rows.
   */
  function PostProcess(grid: seq<seq<string>>, errors: seq<string>): (r: Result<Dataset, string>)
    ensures r.Failure? <==> errors != []
    ensures r.Failure? ==> r.error == errors[0]
    ensures r.Success? ==>
      && |r.value| == |ContentRows(grid)|
      && forall k :: 0 <= k < |r.value| ==> Conforms(r.value[k], HeaderRow(grid), ContentRows(grid)[k], k)
  {
    if errors != [] then Failure(errors[0])
    else Success(BuildDataset(HeaderRow(grid), ContentRows(grid)))
  }
}
