/**
 * The two table previews of the dashboard: the one under the upload area and
 * the data table of the analysis panel. Both take their columns from the
 * first row object, so both fail on an empty dataset.
 */
module Preview {
  import opened Wrappers
  import opened Text
  import opened Records
  import opened Schema

  /** Column headers and the displayed, truncated cell strings, row by row. */
  datatype Table = Table(headers: seq<string>, cells: seq<seq<string>>)

  function Min(a: nat, b: nat): (m: nat) {
    if a <= b then a else b
  }

  /** A property's value as displayed text; a missing property converts to the string "undefined". */
  function Show(r: Record, key: string): (text: string) {
    if key in r.fields then
      match r.fields[key]
      case Id(n) => DecimalString(n)
      case Cell(s) => s
    else "undefined"
  }

  /**
   * The first `maxRows` row objects under the first `maxCols` non-`id` keys of
   * the first row object, each cell truncated to `width` characters. `None`
   * when there is no first row object to take the keys from.
   */
  function PreviewTable(data: Dataset, maxRows: nat, maxCols: nat, width: nat): (t: Option<Table>)
    ensures t.None? <==> data == []
    ensures t.Some? ==>
      var keys := DataKeys(data[0]);
      && |t.value.headers| == Min(maxCols, |keys|)
      && t.value.headers == keys[..|t.value.headers|]
      && |t.value.cells| == Min(maxRows, |data|)
      && forall i :: 0 <= i < |t.value.cells| ==>
           && |t.value.cells[i]| == |t.value.headers|
           && forall j :: 0 <= j < |t.value.headers| ==>
                t.value.cells[i][j] == Truncate(Show(data[i], t.value.headers[j]), width)
  {
    if data == [] then None
    else
      var keys := DataKeys(data[0]);
      var headers := keys[..Min(maxCols, |keys|)];
      var rows := data[..Min(maxRows, |data|)];
      Some(Table(headers, seq(|rows|, i requires 0 <= i < |rows| =>
        seq(|headers|, j requires 0 <= j < |headers| => Truncate(Show(rows[i], headers[j]), width)))))
  }

  /** The upload preview: three rows, six columns, cells cut at twenty characters. */
  function UploadPreview(data: Dataset): (t: Option<Table>)
    ensures t.None? <==> data == []
    ensures t.Some? ==> |t.value.cells| <= 3 && |t.value.headers| <= 6
    ensures t.Some? ==> forall i, j :: 0 <= i < |t.value.cells| && 0 <= j < |t.value.cells[i]| ==> |t.value.cells[i][j]| <= 23
  {
    PreviewTable(data, 3, 6, 20)
  }

  /** The analysis panel's data table: five rows, eight columns, cells cut at thirty characters. */
  function DataTable(data: Dataset): (t: Option<Table>)
    ensures t.None? <==> data == []
    ensures t.Some? ==> |t.value.cells| <= 5 && |t.value.headers| <= 8
    ensures t.Some? ==> forall i, j :: 0 <= i < |t.value.cells| && 0 <= j < |t.value.cells[i]| ==> |t.value.cells[i][j]| <= 33
  {
    PreviewTable(data, 5, 8, 30)
  }
}
