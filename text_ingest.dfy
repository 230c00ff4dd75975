/** Parsing of a plain-text (`.txt`) table: lines, delimiter sniffing, header row, row objects. */
module TextIngest {
  import opened Wrappers
  import opened Lists
  import opened Text
  import opened Records

  /** The file's lines (split on line feed only), without those that are empty after trimming. */
  function NonBlankLines(text: string): (lines: seq<string>)
    ensures forall k :: 0 <= k < |lines| ==> !IsBlank(lines[k])
    ensures forall k :: 0 <= k < |lines| ==> lines[k] in Split(text, '\n')
    ensures forall l :: l in Split(text, '\n') && !IsBlank(l) ==> l in lines
    ensures IsSubsequence(lines, Split(text, '\n'))
    ensures forall l :: multiset(lines)[l] == if IsBlank(l) then 0 else multiset(Split(text, '\n'))[l]
  {
    Filter(Split(text, '\n'), line => !IsBlank(line))
  }

  /** The delimiter sniffed from the header line: tab, else semicolon, else comma. */
  function DetectDelimiter(firstLine: string): (d: char)
    ensures d == '\t' <==> '\t' in firstLine
    ensures d == ';' <==> '\t' !in firstLine && ';' in firstLine
    ensures d == ',' <==> '\t' !in firstLine && ';' !in firstLine
  {
    if '\t' in firstLine then '\t'
    else if ';' in firstLine then ';'
    else ','
  }

  /**
   * The row objects of a plain-text file, or `None` when it has no non-blank
   * line (the header line is then missing and reading its characters fails).
   * Every line, header included, is split on the delimiter sniffed from the
   * first non-blank line; each further line becomes one row object.
   */
  function ParseText(text: string): (r: Option<Dataset>)
    ensures r.None? <==> NonBlankLines(text) == []
    ensures r.Some? ==>
      var lines := NonBlankLines(text);
      var d := DetectDelimiter(lines[0]);
      && |r.value| == |lines| - 1
      && forall k :: 0 <= k < |r.value| ==> Conforms(r.value[k], Split(lines[0], d), Split(lines[k + 1], d), k)
  {
    var lines := NonBlankLines(text);
    if lines == [] then None
    else
      var d := DetectDelimiter(lines[0]);
      var data := seq(|lines|, i requires 0 <= i < |lines| => Split(lines[i], d));
      var ds := BuildDataset(data[0], data[1..]);
      ParsedRowsConform(lines, d, data, ds);
      Some(ds)
  }

  /** The row objects built from the split lines conform to the split header line and the split later lines. */
  lemma ParsedRowsConform(lines: seq<string>, d: char, data: seq<seq<string>>, ds: Dataset)
    requires |data| == |lines| >= 1
    requires forall i :: 0 <= i < |lines| ==> data[i] == Split(lines[i], d)
    requires ds == BuildDataset(data[0], data[1..])
    ensures |ds| == |lines| - 1
    ensures forall k :: 0 <= k < |ds| ==> Conforms(ds[k], Split(lines[0], d), Split(lines[k + 1], d), k)
  {
    forall k | 0 <= k < |ds| ensures Conforms(ds[k], Split(lines[0], d), Split(lines[k + 1], d), k) {
      assert data[1..][k] == data[k + 1];
    }
  }

  /** A file whose only non-blank line is the header parses to an empty dataset, not to a failure. */
  lemma HeaderOnlyGivesEmptyDataset(text: string)
    requires |NonBlankLines(text)| == 1
    ensures ParseText(text) == Some([])
  {
  }
}
