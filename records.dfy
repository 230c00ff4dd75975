/**
 * The row objects both ingestion paths build: a synthetic `id` property set to
 * the row's index, then one property per header holding the row's cell at that
 * position, or the empty string when the row is shorter.
 */
module Records {

  /** A property value: the synthetic numeric id, or a cell string. */
  datatype Value = Id(index: nat) | Cell(text: string)

  /**
   * A row object: its property names in insertion order and their values.
   * Assigning an existing property keeps its place and replaces its value.
   */
  datatype Record = Record(keys: seq<string>, fields: map<string, Value>)

  /** What the dashboard calls `csvData`: the parsed rows, in file order. */
  type Dataset = seq<Record>

  const IdKey: string := "id"

  /** The key list names every property exactly once. */
  ghost predicate WellFormed(r: Record) {
    && (forall i, j :: 0 <= i < j < |r.keys| ==> r.keys[i] != r.keys[j])
    && (forall key :: key in r.fields <==> key in r.keys)
  }

  /** Property assignment: a new key is appended, an existing one keeps its place and takes the new value. */
  function Put(r: Record, key: string, v: Value): (r': Record)
    requires WellFormed(r)
    ensures WellFormed(r')
    ensures r'.fields == r.fields[key := v]
    ensures r.keys != [] ==> r'.keys != [] && r'.keys[0] == r.keys[0]
  {
    Record(if key in r.fields then r.keys else r.keys + [key], r.fields[key := v])
  }

  /** The cell at position `i`, or the empty string past the end of the row. */
  function CellAt(row: seq<string>, i: nat): (cell: string) {
    if i < |row| then row[i] else ""
  }

  /** Position `i` holds the last occurrence of its header, so its assignment is the one that survives. */
  predicate IsLastOf(headers: seq<string>, i: nat)
    requires i < |headers|
  {
    forall j :: i < j < |headers| ==> headers[j] != headers[i]
  }

  /**
   * The specification of the row object for data row `row` at position `index`:
   * it has the key `id` and a key for every header and no other, each header
   * holds the cell at the position of its last occurrence, and `id` holds the
   * index unless a header named `id` overwrote it.
   */
  ghost predicate Conforms(r: Record, headers: seq<string>, row: seq<string>, index: nat) {
    && WellFormed(r)
    && (forall key :: key in r.fields <==> key == IdKey || key in headers)
    && (forall i :: 0 <= i < |headers| && IsLastOf(headers, i) ==>
          headers[i] in r.fields && r.fields[headers[i]] == Cell(CellAt(row, i)))
    && (IdKey !in headers ==> IdKey in r.fields && r.fields[IdKey] == Id(index))
  }

  /** The object after assigning the first `n` headers in order. */
  function Fill(headers: seq<string>, row: seq<string>, index: nat, n: nat): (r: Record)
    requires n <= |headers|
    ensures Conforms(r, headers[..n], row, index)
    ensures r.keys != [] && r.keys[0] == IdKey
    decreases n
  {
    if n == 0 then Record([IdKey], map[IdKey := Id(index)])
    else
      var prev := Fill(headers, row, index, n - 1);
      FillStep(prev, headers, row, index, n);
      Put(prev, headers[n - 1], Cell(CellAt(row, n - 1)))
  }

  /** One assignment step, on the prefix of the headers seen so far. */
  lemma FillStep(prev: Record, headers: seq<string>, row: seq<string>, index: nat, n: nat)
    requires 0 < n <= |headers|
    requires Conforms(prev, headers[..n - 1], row, index)
    ensures Conforms(Put(prev, headers[n - 1], Cell(CellAt(row, n - 1))), headers[..n], row, index)
  {
    assert headers[..n] == headers[..n - 1] + [headers[n - 1]];
    PutConforms(prev, headers[..n - 1], headers[n - 1], row, index);
  }

  /** Assigning the next header's cell extends a conforming object to one more header. */
  lemma PutConforms(prev: Record, hs: seq<string>, h: string, row: seq<string>, index: nat)
    requires Conforms(prev, hs, row, index)
    ensures Conforms(Put(prev, h, Cell(CellAt(row, |hs|))), hs + [h], row, index)
  {
    var r := Put(prev, h, Cell(CellAt(row, |hs|)));
    PutKeys(prev, hs, h, r);
    PutValues(prev, hs, h, row, index, r);
  }

  lemma PutKeys(prev: Record, hs: seq<string>, h: string, r: Record)
    requires forall key :: key in prev.fields <==> key == IdKey || key in hs
    requires r.fields.Keys == prev.fields.Keys + {h}
    ensures forall key :: key in r.fields <==> key == IdKey || key in hs + [h]
  {
    forall key ensures key in hs + [h] <==> key in hs || key == h {
    }
  }

  lemma PutValues(prev: Record, hs: seq<string>, h: string, row: seq<string>, index: nat, r: Record)
    requires Conforms(prev, hs, row, index)
    requires r.fields == prev.fields[h := Cell(CellAt(row, |hs|))]
    ensures forall i :: 0 <= i < |hs + [h]| && IsLastOf(hs + [h], i) ==>
      (hs + [h])[i] in r.fields && r.fields[(hs + [h])[i]] == Cell(CellAt(row, i))
  {
    var hs' := hs + [h];
    forall i | 0 <= i < |hs'| && IsLastOf(hs', i)
      ensures hs'[i] in r.fields && r.fields[hs'[i]] == Cell(CellAt(row, i))
    {
      if i < |hs| {
        assert hs'[i] != h by { assert hs'[|hs|] == h; }
        assert IsLastOf(hs, i) by {
          forall j | i < j < |hs| ensures hs[j] != hs[i] { assert hs'[j] == hs[j]; }
        }
      }
    }
  }

  /** The row object for one data row: start from the id, then assign every header's cell in header order. */
  function BuildRecord(headers: seq<string>, row: seq<string>, index: nat): (r: Record)
    ensures Conforms(r, headers, row, index)
    ensures r.keys != [] && r.keys[0] == IdKey
  {
    assert headers[..|headers|] == headers;
    Fill(headers, row, index, |headers|)
  }

  /** One row object per data row, numbered from zero in file order. */
  function BuildDataset(headers: seq<string>, rows: seq<seq<string>>): (ds: Dataset)
    ensures |ds| == |rows|
    ensures forall k :: 0 <= k < |ds| ==> Conforms(ds[k], headers, rows[k], k)
  {
    seq(|rows|, k requires 0 <= k < |rows| => BuildRecord(headers, rows[k], k))
  }

  /** Every header that occurs has a last occurrence. */
  lemma {:induction false} LastOccurrenceExists(headers: seq<string>, key: string)
    requires key in headers
    ensures exists i :: 0 <= i < |headers| && headers[i] == key && IsLastOf(headers, i)
    decreases |headers|
  {
    if headers[|headers| - 1] == key {
      assert IsLastOf(headers, |headers| - 1);
    } else {
      var init := headers[..|headers| - 1];
      assert key in init;
      LastOccurrenceExists(init, key);
      var i :| 0 <= i < |init| && init[i] == key && IsLastOf(init, i);
      assert IsLastOf(headers, i);
    }
  }

  /** `Conforms` leaves no freedom in the properties: any two conforming objects have the same fields. */
  lemma ConformsDeterminesFields(a: Record, b: Record, headers: seq<string>, row: seq<string>, index: nat)
    requires Conforms(a, headers, row, index) && Conforms(b, headers, row, index)
    ensures a.fields == b.fields
  {
    forall key | key in a.fields ensures key in b.fields && a.fields[key] == b.fields[key] {
      if key in headers {
        LastOccurrenceExists(headers, key);
      }
    }
  }

  /** With distinct headers, the property for header `i` is the `i`-th cell and `id` is the row's index. */
  lemma DistinctHeaders(headers: seq<string>, row: seq<string>, index: nat, i: nat)
    requires forall p, q :: 0 <= p < q < |headers| ==> headers[p] != headers[q]
    requires IdKey !in headers
    requires i < |headers|
    ensures BuildRecord(headers, row, index).fields[headers[i]] == Cell(CellAt(row, i))
    ensures BuildRecord(headers, row, index).fields[IdKey] == Id(index)
  {
    assert IsLastOf(headers, i);
  }

  /**
   * Headers `a, b, c` over the line `1,2,` (a trailing empty field) or `1,2`
   * (a missing field): both give `c` the empty string.
   */
  lemma TrailingFieldExample(row: seq<string>)
    requires |row| >= 2 && row[0] == "1" && row[1] == "2" && CellAt(row, 2) == ""
    ensures var r := BuildRecord(["a", "b", "c"], row, 0);
      && r.fields["a"] == Cell("1") && r.fields["b"] == Cell("2") && r.fields["c"] == Cell("")
      && r.fields[IdKey] == Id(0)
  {
    var headers := ["a", "b", "c"];
    assert IdKey !in headers;
    DistinctHeaders(headers, row, 0, 0);
    DistinctHeaders(headers, row, 0, 1);
    DistinctHeaders(headers, row, 0, 2);
  }
}
