/** Numeric-column detection, which looks at the first row object only. */
module Schema {
  import opened Wrappers
  import opened Lists
  import opened Records

  /** The property names of a row object other than `id`, in key order. */
  function DataKeys(r: Record): (keys: seq<string>)
    ensures IdKey !in keys
    ensures forall k :: 0 <= k < |keys| ==> keys[k] in r.keys
    ensures forall k :: 0 <= k < |r.keys| && r.keys[k] != IdKey ==> r.keys[k] in keys
    ensures IsSubsequence(keys, r.keys)
  {
    Filter(r.keys, key => key != IdKey)
  }

  /**
   * The sample test: the value is non-empty and reads as a number. `isNumeric`
   * stands for "converting to a number does not give NaN"; the synthetic id is
   * a number already.
   */
  predicate LooksNumeric(v: Value, isNumeric: string -> bool) {
    match v
    case Id(_) => true
    case Cell(s) => s != "" && isNumeric(s)
  }

  /** The first row object's value for `key` passes the sample test. */
  predicate NumericInFirst(first: Record, key: string, isNumeric: string -> bool) {
    key in first.fields && LooksNumeric(first.fields[key], isNumeric)
  }

  /**
   * The keys treated as numeric columns: none for an absent or empty dataset;
   * otherwise those keys of the first row object, other than `id`, whose value
   * there passes the sample test, in key order.
   */
  function NumericKeys(data: Option<Dataset>, isNumeric: string -> bool): (keys: seq<string>)
    ensures data.None? || data.value == [] ==> keys == []
    ensures data.Some? && data.value != [] ==>
      var first := data.value[0];
      && IsSubsequence(keys, first.keys)
      && (forall k :: 0 <= k < |keys| ==> keys[k] != IdKey && keys[k] in first.keys && NumericInFirst(first, keys[k], isNumeric))
      && (forall k :: 0 <= k < |first.keys| && first.keys[k] != IdKey && NumericInFirst(first, first.keys[k], isNumeric) ==> first.keys[k] in keys)
  {
    if data.None? || data.value == [] then []
    else
      var first := data.value[0];
      Filter(first.keys, key => key != IdKey && NumericInFirst(first, key, isNumeric))
  }

  /** Rows after the first are never consulted. */
  lemma FirstRowDecides(a: Dataset, b: Dataset, isNumeric: string -> bool)
    requires a != [] && b != [] && a[0] == b[0]
    ensures NumericKeys(Some(a), isNumeric) == NumericKeys(Some(b), isNumeric)
  {
  }

  /**
   * Headers `name, age, id` over the row `Alice, 30, 0`: the header `id`
   * overwrites the synthetic id, is excluded by name, and only `age` is numeric.
   */
  lemma NumericKeysExample(isNumeric: string -> bool, rest: Dataset)
    requires isNumeric("30") && !isNumeric("Alice")
    ensures NumericKeys(Some([BuildRecord(ExampleHeaders, ExampleRow, 0)] + rest), isNumeric) == ["age"]
  {
    var r := ExampleRecord();
    var data := [r] + rest;
    assert data[0] == r;
    ExampleFilter(r, isNumeric);
  }

  lemma ExampleFilter(r: Record, isNumeric: string -> bool)
    requires isNumeric("30") && !isNumeric("Alice")
    requires r.keys == [IdKey, "name", "age"]
    requires "name" in r.fields && r.fields["name"] == Cell("Alice")
    requires "age" in r.fields && r.fields["age"] == Cell("30")
    ensures Filter(r.keys, key => key != IdKey && NumericInFirst(r, key, isNumeric)) == ["age"]
  {
    var p := key => key != IdKey && NumericInFirst(r, key, isNumeric);
    assert !p(IdKey) && !p("name") && p("age");
    var tail := ["age"];
    assert Filter(tail, p) == ["age"] by {
      assert tail[1..] == [];
    }
    assert Filter(["name", "age"], p) == ["age"] by {
      assert ["name", "age"][1..] == tail;
    }
    assert r.keys[1..] == ["name", "age"];
  }

  const ExampleHeaders: seq<string> := ["name", "age", "id"]
  const ExampleRow: seq<string> := ["Alice", "30", "0"]

  lemma ExampleRecord() returns (r: Record)
    ensures r == BuildRecord(ExampleHeaders, ExampleRow, 0)
    ensures r.keys == [IdKey, "name", "age"]
    ensures "name" in r.fields && r.fields["name"] == Cell("Alice")
    ensures "age" in r.fields && r.fields["age"] == Cell("30")
  {
    var r2 := ExampleFillTwo();
    assert |ExampleHeaders| == 3;
    assert ExampleHeaders[2] == IdKey && CellAt(ExampleRow, 2) == "0";
    r := Put(r2, IdKey, Cell("0"));
    assert IdKey in r2.fields;
  }

  lemma ExampleFillTwo() returns (r: Record)
    ensures r == Fill(ExampleHeaders, ExampleRow, 0, 2)
    ensures r == Record([IdKey, "name", "age"], map[IdKey := Id(0), "name" := Cell("Alice"), "age" := Cell("30")])
  {
    var r1 := ExampleFillOne();
    assert ExampleHeaders[1] == "age" && CellAt(ExampleRow, 1) == "30";
    r := Put(r1, "age", Cell("30"));
    assert "age" !in r1.fields;
  }

  lemma ExampleFillOne() returns (r: Record)
    ensures r == Fill(ExampleHeaders, ExampleRow, 0, 1)
    ensures r == Record([IdKey, "name"], map[IdKey := Id(0), "name" := Cell("Alice")])
  {
    var r0 := Record([IdKey], map[IdKey := Id(0)]);
    assert Fill(ExampleHeaders, ExampleRow, 0, 0) == r0;
    assert ExampleHeaders[0] == "name" && CellAt(ExampleRow, 0) == "Alice";
    r := Put(r0, "name", Cell("Alice"));
    assert "name" !in r0.fields;
  }
}
