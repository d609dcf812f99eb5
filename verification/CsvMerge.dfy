/**
 Merging a new CSV export into the previous one (pkg/costmodel/csv_export.go). The two may have
 different columns; the merged file has all of them, and every row keeps its values under its own
 column names.
 */
module CsvMerge {
  import opened Results
  import opened Sorting

  /** A file, as far as the CSV reader can read it: without any record, or with a header that has a field. */
  datatype Csv = EmptyFile | Csv(header: seq<string>, rows: seq<seq<string>>)

  /** Every row has as many fields as the header, without which the reader fails. */
  ghost predicate Rectangular(f: Csv) {
    f.Csv? ==> forall i :: 0 <= i < |f.rows| ==> |f.rows[i]| == |f.header|
  }

  /* ---------- headers ---------- */

  /** The position of the first `x`, or -1. */
  method IndexOf(xs: seq<string>, x: string) returns (i: int)
    ensures if x in xs then 0 <= i < |xs| && xs[i] == x && x !in xs[..i] else i == -1
  {
    for k := 0 to |xs|
      invariant x !in xs[..k]
    {
      if xs[k] == x {
        return k;
      }
    }
    return -1;
  }

  method Contains(xs: seq<string>, x: string) returns (found: bool)
    ensures found <==> x in xs
  {
    for k := 0 to |xs|
      invariant x !in xs[..k]
    {
      if xs[k] == x {
        return true;
      }
    }
    assert xs[..|xs|] == xs;
    return false;
  }

  function AddColumn(acc: seq<string>, x: string): seq<string> { if x in acc then acc else acc + [x] }

  function AddColumns(acc: seq<string>, header: seq<string>): seq<string> {
    if header == [] then acc else AddColumn(AddColumns(acc, header[..|header| - 1]), header[|header| - 1])
  }

  /** All columns, each once, in the order in which they first appear. */
  function Union(headers: seq<seq<string>>): seq<string> {
    if headers == [] then [] else AddColumns(Union(headers[..|headers| - 1]), headers[|headers| - 1])
  }

  lemma {:induction false} AddColumnsProperties(acc: seq<string>, header: seq<string>)
    requires Distinct(acc)
    ensures Distinct(AddColumns(acc, header)) && acc <= AddColumns(acc, header)
    ensures forall x :: x in AddColumns(acc, header) <==> x in acc || x in header
  {
    if header != [] {
      var n := |header| - 1;
      AddColumnsProperties(acc, header[..n]);
      assert forall x :: x in header <==> x in header[..n] || x == header[n];
    }
  }

  /** The union header has no column twice, has exactly the columns of the inputs, and starts with
      the first input's columns. */
  lemma {:induction false} UnionProperties(headers: seq<seq<string>>)
    ensures Distinct(Union(headers))
    ensures forall x :: x in Union(headers) <==> exists i :: 0 <= i < |headers| && x in headers[i]
    ensures forall i :: 0 <= i < |headers| ==> Union(headers[..i]) <= Union(headers)
  {
    if headers != [] {
      var n := |headers| - 1;
      var before := headers[..n];
      UnionProperties(before);
      AddColumnsProperties(Union(before), headers[n]);
      forall x ensures x in Union(headers) <==> exists i :: 0 <= i < |headers| && x in headers[i] {
        if x in Union(before) {
          var i :| 0 <= i < n && x in before[i];
          assert x in headers[i];
        }
        if exists i :: 0 <= i < |headers| && x in headers[i] {
          var i :| 0 <= i < |headers| && x in headers[i];
          if i < n { assert x in before[i]; }
        }
      }
      forall i | 0 <= i < |headers| ensures Union(headers[..i]) <= Union(headers) {
        assert headers[..i] == before[..i];
        if i == n { assert before[..i] == before; }
      }
    }
  }

  /** mergeHeaders */
  method MergeHeaders(headers: seq<seq<string>>) returns (result: seq<string>)
    ensures result == Union(headers)
  {
    result := [];
    for i := 0 to |headers|
      invariant result == Union(headers[..i])
    {
      assert headers[..i + 1][..i] == headers[..i];
      var header := headers[i];
      for j := 0 to |header|
        invariant result == AddColumns(Union(headers[..i]), header[..j])
      {
        assert header[..j + 1][..j] == header[..j];
        var found := Contains(result, header[j]);
        if !found {
          result := result + [header[j]];
        }
      }
      assert header[..|header|] == header;
    }
    assert headers[..|headers|] == headers;
  }

  /** Where each column of an input goes. */
  ghost predicate Maps(m: map<int, int>, header: seq<string>, n: nat, result: seq<string>) {
    && n <= |header|
    && (forall j :: j in m <==> 0 <= j < n)
    && (forall j :: 0 <= j < n ==> 0 <= m[j] < |result| && result[m[j]] == header[j])
  }

  /** combineHeaders: the same header as mergeHeaders, and the place of every input column in it. */
  method CombineHeaders(headers: seq<seq<string>>) returns (indices: seq<map<int, int>>, result: seq<string>)
    ensures result == Union(headers)
    ensures |indices| == |headers| && forall i :: 0 <= i < |headers| ==>
              Maps(indices[i], headers[i], |headers[i]|, result)
  {
    hide Maps;
    result, indices := [], [];
    for i := 0 to |headers|
      invariant result == Union(headers[..i]) && |indices| == i
      invariant forall k :: 0 <= k < i ==> Maps(indices[k], headers[k], |headers[k]|, result)
    {
      assert headers[..i + 1][..i] == headers[..i];
      var m, wider := PlaceHeader(headers[i], result);
      forall k | 0 <= k < i ensures Maps(indices[k], headers[k], |headers[k]|, wider) {
        MapsWider(indices[k], headers[k], |headers[k]|, result, wider);
      }
      indices := indices + [m];
      result := wider;
    }
    assert headers[..|headers|] == headers;
  }

  method PlaceHeader(header: seq<string>, acc: seq<string>) returns (m: map<int, int>, result: seq<string>)
    ensures result == AddColumns(acc, header) && acc <= result
    ensures Maps(m, header, |header|, result)
  {
    m, result := map[], acc;
    for j := 0 to |header|
      invariant result == AddColumns(acc, header[..j]) && acc <= result
      invariant Maps(m, header, j, result)
    {
      assert header[..j + 1][..j] == header[..j];
      var found := Contains(result, header[j]);
      if !found {
        result := result + [header[j]];
        m := m[j := |result| - 1];
      } else {
        var k := IndexOf(result, header[j]);
        m := m[j := k];
      }
    }
    assert header[..|header|] == header;
  }

  lemma MapsWider(m: map<int, int>, header: seq<string>, n: nat, result: seq<string>, wider: seq<string>)
    requires Maps(m, header, n, result) && result <= wider
    ensures Maps(m, header, n, wider)
  {
  }

  /* ---------- rows ---------- */

  /** The line has the row's value under each of the row's column names, and is blank elsewhere. */
  ghost predicate Keeps(line: seq<string>, result: seq<string>, header: seq<string>, row: seq<string>)
    requires |row| == |header|
  {
    && |line| == |result|
    && (forall d, j :: 0 <= d < |result| && 0 <= j < |header| && result[d] == header[j] ==> line[d] == row[j])
    && (forall d :: 0 <= d < |result| && result[d] !in header ==> line[d] == "")
  }

  /** The first `n` rounds of filling a line. */
  function Fill(m: map<int, int>, row: seq<string>, n: nat, width: nat): (line: seq<string>)
    requires forall j :: j in m ==> 0 <= m[j] < width && 0 <= j < |row|
    ensures |line| == width
  {
    if n == 0 then seq(width, _ => "")
    else if n - 1 in m then Fill(m, row, n - 1, width)[m[n - 1] := row[n - 1]]
    else Fill(m, row, n - 1, width)
  }

  /** A header without repetitions is no longer than one that has all its columns. */
  lemma Pigeonhole(header: seq<string>, result: seq<string>)
    requires Distinct(header) && forall x :: x in header ==> x in result
    ensures |header| <= |result|
  {
    var hs, rs := set x | x in header, set x | x in result;
    DistinctSize(header);
    AtMostSize(result);
    assert hs <= rs;
    SubsetSize(hs, rs);
  }

  lemma {:induction false} DistinctSize(xs: seq<string>)
    requires Distinct(xs)
    ensures |set x | x in xs| == |xs|
  {
    if xs != [] {
      var n := |xs| - 1;
      DistinctSize(xs[..n]);
      assert (set x | x in xs) == (set x | x in xs[..n]) + {xs[n]};
      assert xs[n] !in xs[..n];
    }
  }

  lemma {:induction false} AtMostSize(xs: seq<string>)
    ensures |set x | x in xs| <= |xs|
  {
    if xs != [] {
      var n := |xs| - 1;
      AtMostSize(xs[..n]);
      assert (set x | x in xs) == (set x | x in xs[..n]) + {xs[n]};
    }
  }

  lemma {:induction false} FillSoFar(m: map<int, int>, header: seq<string>, row: seq<string>, n: nat,
                                     result: seq<string>)
    requires Maps(m, header, |header|, result) && |row| == |header| && Distinct(header) && Distinct(result)
    ensures forall d, j :: 0 <= d < |result| && 0 <= j < |header| && j < n && result[d] == header[j] ==>
              Fill(m, row, n, |result|)[d] == row[j]
    ensures forall d :: 0 <= d < |result| && result[d] !in header ==> Fill(m, row, n, |result|)[d] == ""
  {
    if n > 0 { FillSoFar(m, header, row, n - 1, result); }
  }

  /** Filling goes over as many columns as the merged header has; that this reaches every column of
      the input is the pigeonhole argument. */
  lemma FillKeeps(m: map<int, int>, header: seq<string>, row: seq<string>, result: seq<string>)
    requires Maps(m, header, |header|, result) && |row| == |header| && Distinct(header) && Distinct(result)
    ensures Keeps(Fill(m, row, |result|, |result|), result, header, row)
  {
    forall x | x in header ensures x in result {
      var j :| 0 <= j < |header| && header[j] == x;
      assert result[m[j]] == x;
    }
    Pigeonhole(header, result);
    FillSoFar(m, header, row, |result|, result);
  }

  /** Every row of an input keeps its values exactly when the input's header has no column twice. */
  lemma RowsKeptIff(m: map<int, int>, header: seq<string>, result: seq<string>)
    requires Maps(m, header, |header|, result) && Distinct(result)
    ensures (forall row :: |row| == |header| ==> Keeps(Fill(m, row, |result|, |result|), result, header, row)) <==>
              Distinct(header)
  {
    if Distinct(header) {
      forall row | |row| == |header| ensures Keeps(Fill(m, row, |result|, |result|), result, header, row) {
        FillKeeps(m, header, row, result);
      }
    } else {
      var i, j :| 0 <= i < j < |header| && header[i] == header[j];
      var row := seq(|header|, k => if k == i then "x" else "");
      assert row[i] != row[j];
      assert result[m[i]] == header[i];
      assert !Keeps(Fill(m, row, |result|, |result|), result, header, row);
    }
  }

  method MergeLine(m: map<int, int>, row: seq<string>, width: nat) returns (line: seq<string>)
    requires forall j :: j in m ==> 0 <= m[j] < width && 0 <= j < |row|
    ensures line == Fill(m, row, width, width)
  {
    var out := new string[width](_ => "");
    assert out[..] == seq(width, _ => "");
    for c := 0 to width
      invariant out[..] == Fill(m, row, c, width)
    {
      if c in m {
        out[m[c]] := row[c];
      }
    }
    line := out[..];
  }

  /* ---------- files ---------- */

  datatype Entry = Entry(header: seq<string>, row: seq<string>)

  function EntriesOf(f: Csv): seq<Entry> {
    if f.EmptyFile? then [] else seq(|f.rows|, i requires 0 <= i < |f.rows| => Entry(f.header, f.rows[i]))
  }

  /** The rows of all files, one file after the other, each with its own header. */
  function AllEntries(files: seq<Csv>): seq<Entry> {
    if files == [] then [] else AllEntries(files[..|files| - 1]) + EntriesOf(files[|files| - 1])
  }

  function Headers(files: seq<Csv>): seq<seq<string>> {
    if files == [] then []
    else Headers(files[..|files| - 1]) + if files[|files| - 1].Csv? then [files[|files| - 1].header] else []
  }

  ghost predicate Kept(rows: seq<seq<string>>, header: seq<string>, entries: seq<Entry>) {
    && |rows| == |entries|
    && forall i :: 0 <= i < |entries| ==>
         |entries[i].row| == |entries[i].header|
           && (Distinct(entries[i].header) ==> Keeps(rows[i], header, entries[i].header, entries[i].row))
  }

  ghost predicate AllRectangular(files: seq<Csv>) { forall i :: 0 <= i < |files| ==> Rectangular(files[i]) }

  /** The headers; a file without any record is ignored. */
  method OpenFiles(files: seq<Csv>) returns (readers: seq<Csv>, headers: seq<seq<string>>)
    ensures headers == Headers(files) && |readers| == |headers|
    ensures forall k :: 0 <= k < |readers| ==> readers[k].Csv? && readers[k].header == headers[k]
    ensures AllRectangular(readers) <==> AllRectangular(files)
    ensures AllEntries(readers) == AllEntries(files)
  {
    hide Rectangular, AllRectangular;
    readers, headers := [], [];
    EmptyIsRectangular();
    for i := 0 to |files|
      invariant headers == Headers(files[..i]) && |readers| == |headers|
      invariant forall k :: 0 <= k < |readers| ==> readers[k].Csv? && readers[k].header == headers[k]
      invariant AllRectangular(readers) <==> AllRectangular(files[..i])
      invariant AllEntries(readers) == AllEntries(files[..i])
    {
      assert files[..i + 1][..i] == files[..i];
      OneFileMore(files[..i], files[i], files[..i + 1]);
      if files[i].Csv? {
        headers := headers + [files[i].header];
        assert (readers + [files[i]])[..|readers|] == readers;
        OneFileMore(readers, files[i], readers + [files[i]]);
        readers := readers + [files[i]];
      }
    }
    assert files[..|files|] == files;
  }

  /** mergeCSV: the union header, and every row of every file in order; an error at a row that does not fit its header. */
  method MergeCsv(files: seq<Csv>) returns (r: Option<Csv>)
    ensures r.Some? <==> AllRectangular(files)
    ensures r.Some? ==>
              r.value.Csv? && r.value.header == Union(Headers(files))
                && Kept(r.value.rows, r.value.header, AllEntries(files))
  {
    hide Kept, Maps, Union, Rectangular, AllEntries, EntriesOf, Headers, Distinct;
    var readers, headers := OpenFiles(files);
    var mapping, combined := CombineHeaders(headers);
    var header := MergeHeaders(headers);
    UnionProperties(headers);
    var rows: seq<seq<string>> := [];
    KeptNone(header);
    EntriesStep(readers, 0);
    for i := 0 to |readers|
      invariant forall k :: 0 <= k < i ==> Rectangular(readers[k])
      invariant Kept(rows, header, AllEntries(readers[..i]))
    {
      EntriesStep(readers, i);
      var merged := MergeFile(readers[i], mapping[i], header, rows, AllEntries(readers[..i]));
      if merged.None? {
        return None;
      }
      rows := merged.value;
    }
    assert readers[..|readers|] == readers;
    return Some(Csv(header, rows));
  }

  lemma EntriesStep(files: seq<Csv>, i: nat)
    requires i <= |files|
    ensures AllEntries(files[..0]) == []
    ensures i < |files| ==> AllEntries(files[..i + 1]) == AllEntries(files[..i]) + EntriesOf(files[i])
  {
    if i < |files| { assert files[..i + 1][..i] == files[..i]; }
  }

  lemma EmptyIsRectangular()
    ensures Rectangular(EmptyFile) && AllRectangular([])
  {
  }

  lemma OneFileMore(files: seq<Csv>, f: Csv, more: seq<Csv>)
    requires more == files + [f]
    ensures AllRectangular(more) <==> AllRectangular(files) && Rectangular(f)
  {
    hide Rectangular;
    assert more[|files|] == f && forall i :: 0 <= i < |files| ==> more[i] == files[i];
  }

  lemma KeptNone(header: seq<string>)
    ensures Kept([], header, [])
  {
  }

  method MergeFile(f: Csv, m: map<int, int>, header: seq<string>, before: seq<seq<string>>, ghost entries: seq<Entry>)
    returns (rows: Option<seq<seq<string>>>)
    requires f.Csv? && Maps(m, f.header, |f.header|, header) && Distinct(header)
    requires Kept(before, header, entries)
    ensures rows.Some? <==> Rectangular(f)
    ensures rows.Some? ==> Kept(rows.value, header, entries + EntriesOf(f))
  {
    var lines := before;
    ghost var mine := EntriesOf(f);
    assert mine[..0] == [] && entries + mine[..0] == entries;
    for i := 0 to |f.rows|
      invariant forall k :: 0 <= k < i ==> |f.rows[k]| == |f.header|
      invariant Kept(lines, header, entries + mine[..i])
    {
      if |f.rows[i]| != |f.header| {
        return None;
      }
      var line := MergeLine(m, f.rows[i], |header|);
      if Distinct(f.header) { FillKeeps(m, f.header, f.rows[i], header); }
      assert mine[i] == Entry(f.header, f.rows[i]);
      assert entries + mine[..i + 1] == entries + mine[..i] + [mine[i]];
      KeptMore(lines, header, entries + mine[..i], line, mine[i]);
      lines := lines + [line];
    }
    assert mine[..|f.rows|] == mine;
    return Some(lines);
  }

  lemma KeptMore(rows: seq<seq<string>>, header: seq<string>, entries: seq<Entry>, line: seq<string>, e: Entry)
    requires Kept(rows, header, entries) && |e.row| == |e.header|
    requires Distinct(e.header) ==> Keeps(line, header, e.header, e.row)
    ensures Kept(rows + [line], header, entries + [e])
  {
    hide Keeps;
  }

  /* ---------- which dates are added ---------- */

  /** The column dates are read from: the first one named Date, else the first. */
  function DateColumn(header: seq<string>): (c: nat)
    ensures header != [] ==> c < |header|
    ensures "Date" in header ==> header[c] == "Date" && "Date" !in header[..c]
    ensures "Date" !in header ==> c == 0
  {
    var c := FirstDate(header);
    if c < |header| then c else 0
  }

  function FirstDate(header: seq<string>): (c: nat)
    ensures c <= |header| && (c < |header| ==> header[c] == "Date") && "Date" !in header[..c]
  {
    if header == [] || header[0] == "Date" then 0
    else
      var c := 1 + FirstDate(header[1..]);
      assert header[..c] == [header[0]] + header[1..][..c - 1];
      c
  }

  type Parser = string -> Option<nat>

  /** Every row of the file has a date. */
  ghost predicate Dated(f: Csv, parse: Parser) {
    f.Csv? && f.header != [] && Rectangular(f)
    && forall i :: 0 <= i < |f.rows| ==> parse(f.rows[i][DateColumn(f.header)]).Some?
  }

  ghost function DatesOf(f: Csv, parse: Parser): set<nat>
    requires Dated(f, parse)
  {
    set i | 0 <= i < |f.rows| :: parse(f.rows[i][DateColumn(f.header)]).value
  }

  /** loadDates */
  method LoadDates(f: Csv, parse: Parser) returns (dates: Option<set<nat>>)
    requires f.Csv? ==> f.header != []
    ensures dates.Some? <==> Dated(f, parse)
    ensures dates.Some? ==> dates.value == DatesOf(f, parse)
  {
    if f.EmptyFile? {
      return None;
    }
    var c := DateColumn(f.header);
    var ds: set<nat> := {};
    for i := 0 to |f.rows|
      invariant forall k :: 0 <= k < i ==> |f.rows[k]| == |f.header| && parse(f.rows[k][c]).Some?
      invariant ds == set k | 0 <= k < i :: parse(f.rows[k][c]).value
    {
      if |f.rows[i]| != |f.header| {
        return None;
      }
      var d := parse(f.rows[i][c]);
      if d.None? {
        return None;
      }
      ds := ds + {d.value};
    }
    return Some(ds);
  }

  predicate Before(a: nat, b: nat) { a < b }

  /** mapTimeToSlice: the dates in order. */
  method SortDates(dates: set<nat>) returns (order: seq<nat>)
    ensures Sorted(order, Before) && Distinct(order) && forall d :: d in order <==> d in dates
  {
    var list: seq<nat> := [];
    var todo := dates;
    while todo != {}
      invariant todo <= dates && Distinct(list)
      invariant forall d :: d in list <==> d in dates && d !in todo
      decreases todo
    {
      var d :| d in todo;
      assert d !in list;
      assert forall x :: x in list + [d] <==> x in list || x == d;
      list := list + [d];
      todo := todo - {d};
    }
    var a := new nat[|list|](i requires 0 <= i < |list| => list[i]);
    assert a[..] == list;
    SliceStable(a, Before);
    order := a[..];
    StableSortPermutes(list, Before);
    StableSortSorted(list, Before);
    DistinctPermutes(list, order);
    SameElements(list, order);
  }

  type Compute = nat -> Option<seq<seq<string>>>

  function RowsFor(compute: Compute, d: nat): seq<seq<string>> {
    if compute(d).Some? then compute(d).value else []
  }

  /** The rows of the given dates, in order; a date that cannot be computed is skipped. */
  function NewRows(compute: Compute, dates: seq<nat>): seq<seq<string>> {
    if dates == [] then [] else NewRows(compute, dates[..|dates| - 1]) + RowsFor(compute, dates[|dates| - 1])
  }

  method WriteNew(compute: Compute, dates: seq<nat>) returns (rows: seq<seq<string>>)
    ensures rows == NewRows(compute, dates)
  {
    rows := [];
    for i := 0 to |dates|
      invariant rows == NewRows(compute, dates[..i])
    {
      assert dates[..i + 1][..i] == dates[..i];
      var data := compute(dates[i]);
      if data.Some? {
        rows := rows + data.value;
      }
    }
    assert dates[..|dates|] == dates;
  }

  datatype Outcome = Updated(header: seq<string>, rows: seq<seq<string>>) | NoData | Failed

  /** A row that is in the new part comes from one of the dates written. */
  lemma {:induction false} NewRowsComeFrom(compute: Compute, dates: seq<nat>, row: seq<string>)
    ensures row in NewRows(compute, dates) <==> exists d :: d in dates && row in RowsFor(compute, d)
  {
    if dates != [] {
      var n := |dates| - 1;
      NewRowsComeFrom(compute, dates[..n], row);
      assert forall d :: d in dates <==> d in dates[..n] || d == dates[n];
    }
  }

  /** The rows of each date together, as they were computed, and the dates in their order. */
  lemma {:induction false} NewRowsInOrder(compute: Compute, a: seq<nat>, b: seq<nat>)
    ensures NewRows(compute, a + b) == NewRows(compute, a) + NewRows(compute, b)
    ensures forall d :: NewRows(compute, [d]) == if compute(d).Some? then compute(d).value else []
  {
    forall d ensures NewRows(compute, [d]) == if compute(d).Some? then compute(d).value else [] {
      assert [d][..0] == [] && NewRows(compute, []) + RowsFor(compute, d) == RowsFor(compute, d);
    }
    if b == [] {
      assert a + b == a;
    } else {
      var n := |b| - 1;
      assert (a + b)[..|a + b| - 1] == a + b[..n];
      NewRowsInOrder(compute, a, b[..n]);
    }
  }

  /** updateExportCSV: the previous rows first, then the rows of exactly those available dates that
      the previous file does not have, in date order. */
  method UpdateExport(previous: Csv, available: set<nat>, newHeader: seq<string>, compute: Compute, parse: Parser)
    returns (r: Outcome, ghost dates: seq<nat>)
    requires previous.Csv? ==> previous.header != []
    requires forall d, i :: 0 <= i < |RowsFor(compute, d)| ==> |RowsFor(compute, d)[i]| == |newHeader|
    ensures r.Failed? <==> !Dated(previous, parse)
    ensures !r.Failed? ==> Sorted(dates, Before) && Distinct(dates) && forall d ::
        d in dates <==> d in available && d !in DatesOf(previous, parse)
    ensures r.NoData? <==> Dated(previous, parse) && NewRows(compute, dates) == []
    ensures r.Updated? ==>
              && r.header == Union([previous.header, newHeader])
              && Kept(r.rows, r.header, EntriesOf(previous) + EntriesOf(Csv(newHeader, NewRows(compute, dates))))
    ensures r.Updated? && Distinct(previous.header) && Stamped(newHeader, compute, parse) ==>
              && (Dated(Csv(r.header, r.rows), parse) <==> "Date" in previous.header || previous.rows == [])
              && (Dated(Csv(r.header, r.rows), parse) ==>
                    DatesOf(Csv(r.header, r.rows), parse) == DatesOf(previous, parse) + set d | d in dates && RowsFor(compute, d) != [])
  {
    hide Kept, Dated, Union, DateColumn, Stamped;
    var previousDates := LoadDates(previous, parse);
    if previousDates.None? {
      dates := [];
      return Failed, dates;
    }
    var remaining := available - previousDates.value;
    var order := SortDates(remaining);
    dates := order;
    assert order != [] ==> order[0] in order;
    if remaining == {} {
      return NoData, dates;
    }
    var rows := WriteNew(compute, order);
    if |rows| == 0 {
      return NoData, dates;
    }
    var addition := Csv(newHeader, rows);
    NewRowsFit(compute, order, |newHeader|);
    assert previous.Csv? by { DatedIsFile(previous, parse); }
    assert AllRectangular([previous, addition]) by { DatedIsFile(previous, parse); }
    var merged := MergeCsv([previous, addition]);
    TwoFiles(previous, addition);
    r := Updated(merged.value.header, merged.value.rows);
    if Distinct(previous.header) && Stamped(newHeader, compute, parse) {
      UpdatedIsDatedIff(previous, addition, merged.value, parse, compute, order);
      StampedDates(compute, order, newHeader, parse);
    }
  }

  /** New rows carry their own date in the Date column; a blank is no date. */
  ghost predicate Stamped(newHeader: seq<string>, compute: Compute, parse: Parser) {
    && Distinct(newHeader) && "Date" in newHeader && parse("").None?
    && forall d: nat, row :: row in RowsFor(compute, d) ==>
      |row| == |newHeader| && parse(row[DateColumn(newHeader)]) == Some(d)
  }

  lemma {:induction false} StampedDates(compute: Compute, dates: seq<nat>, newHeader: seq<string>, parse: Parser)
    requires Stamped(newHeader, compute, parse)
    ensures Dated(Csv(newHeader, NewRows(compute, dates)), parse)
    ensures DatesOf(Csv(newHeader, NewRows(compute, dates)), parse) == set d | d in dates && RowsFor(compute, d) != []
  {
    hide RowsFor, DateColumn;
    var rows, c := NewRows(compute, dates), DateColumn(newHeader);
    forall i | 0 <= i < |rows| ensures |rows[i]| == |newHeader| && parse(rows[i][c]).Some?
      && parse(rows[i][c]).value in dates
                                      && RowsFor(compute, parse(rows[i][c]).value) != []
    {
      NewRowsComeFrom(compute, dates, rows[i]);
      var d :| d in dates && rows[i] in RowsFor(compute, d);
    }
    forall d | d in dates && RowsFor(compute, d) != []
      ensures exists i :: 0 <= i < |rows| && parse(rows[i][c]).value == d
    {
      var row := RowsFor(compute, d)[0];
      assert row in RowsFor(compute, d);
      NewRowsComeFrom(compute, dates, row);
      var i :| 0 <= i < |rows| && rows[i] == row;
    }
  }

  /** A merged row has the date of the row it was made from, or a blank if that had no Date column. */
  lemma MergedDate(line: seq<string>, header: seq<string>, e: Entry)
    requires |e.row| == |e.header| && Keeps(line, header, e.header, e.row) && "Date" in header && e.header != []
    ensures line[DateColumn(header)] == if "Date" in e.header then e.row[DateColumn(e.header)] else ""
  {
  }

  /** The merged file is one that the next update can read exactly when the previous one had a Date column or no
      rows: otherwise the previous rows, whose dates were read from the first column, now have a blank date. */
  lemma UpdatedIsDatedIff(previous: Csv, addition: Csv, result: Csv, parse: Parser, compute: Compute, dates: seq<nat>)
    requires Dated(previous, parse) && addition.Csv? && result.Csv? && Distinct(previous.header)
    requires Stamped(addition.header, compute, parse) && addition.rows == NewRows(compute, dates)
    requires result.header == Union([previous.header, addition.header])
    requires Kept(result.rows, result.header, EntriesOf(previous) + EntriesOf(addition))
    ensures Dated(result, parse) <==> "Date" in previous.header || previous.rows == []
    ensures Dated(result, parse) ==>
              Dated(addition, parse) && DatesOf(result, parse) == DatesOf(previous, parse) + DatesOf(addition, parse)
  {
    hide Union, DateColumn, Kept, Stamped;
    StampedDates(compute, dates, addition.header, parse);
    assert Distinct(addition.header) && "Date" in addition.header
           && parse("").None? by { StampedHeader(addition.header, compute, parse); }
    UnionProperties([previous.header, addition.header]);
    assert [previous.header, addition.header][1] == addition.header;
    MergedDates(previous, addition, result);
    if "Date" in previous.header || previous.rows == [] {
      DatesAddUp(previous, addition, result, parse);
    } else {
      assert result.rows[0][DateColumn(result.header)] == "";
    }
  }

  lemma StampedHeader(newHeader: seq<string>, compute: Compute, parse: Parser)
    requires Stamped(newHeader, compute, parse)
    ensures Distinct(newHeader) && "Date" in newHeader && parse("").None?
  {
  }

  /** The Date column of the merged file, row by row. */
  lemma MergedDates(f: Csv, g: Csv, result: Csv)
    requires f.Csv? && g.Csv? && result.Csv? && Distinct(f.header) && Distinct(g.header) && "Date" in result.header
    requires f.header != [] && g.header != [] && Rectangular(f) && Rectangular(g)
    requires Kept(result.rows, result.header, EntriesOf(f) + EntriesOf(g))
    ensures |result.rows| == |f.rows| + |g.rows| && Rectangular(result)
    ensures forall i :: 0 <= i < |f.rows| ==>
              result.rows[i][DateColumn(result.header)]
                == if "Date" in f.header then f.rows[i][DateColumn(f.header)] else ""
    ensures forall i :: |f.rows| <= i < |result.rows| ==>
              result.rows[i][DateColumn(result.header)]
                == if "Date" in g.header then g.rows[i - |f.rows|][DateColumn(g.header)] else ""
  {
    hide DateColumn, Keeps, Distinct;
    var entries, c, n := EntriesOf(f) + EntriesOf(g), DateColumn(result.header), |f.rows|;
    forall i | 0 <= i < |entries|
      ensures |result.rows[i]| == |result.header|
      ensures entries[i] == if i < n then Entry(f.header, f.rows[i]) else Entry(g.header, g.rows[i - n])
      ensures result.rows[i][c]
              == if "Date" in entries[i].header then entries[i].row[DateColumn(entries[i].header)] else ""
    {
      KeptLine(result.rows[i], result.header, entries[i]);
      MergedDate(result.rows[i], result.header, entries[i]);
    }
  }

  /** A previous file whose only column has dates but another name: after an update the next one fails on it. */
  lemma RenamedDateFails(day: string, date: string, result: Csv, parse: Parser)
    requires parse(day).Some? && parse("").None? && result.Csv? && result.header == Union([["Day"], ["Date"]])
    requires Kept(result.rows, result.header, EntriesOf(Csv(["Day"], [[day]])) + EntriesOf(Csv(["Date"], [[date]])))
    ensures Dated(Csv(["Day"], [[day]]), parse) && !Dated(result, parse)
  {
    hide Kept, Union;
    var previous, addition := Csv(["Day"], [[day]]), Csv(["Date"], [[date]]);
    assert ["Day"][0] != "Date" by { assert |"Day"| != |"Date"|; }
    UnionProperties([["Day"], ["Date"]]);
    assert [["Day"], ["Date"]][1] == ["Date"] && "Date" in ["Date"];
    assert "Date" in result.header;
    MergedDates(previous, addition, result);
    assert result.rows[0][DateColumn(result.header)] == "";
  }

  lemma KeptLine(line: seq<string>, header: seq<string>, e: Entry)
    requires |e.row| == |e.header| && Keeps(line, header, e.header, e.row)
    ensures |line| == |header|
  {
  }

  lemma DatesAddUp(f: Csv, g: Csv, result: Csv, parse: Parser)
    requires Dated(f, parse) && Dated(g, parse) && result.Csv? && result.header != []
             && |result.rows| == |f.rows| + |g.rows|
    requires forall i :: 0 <= i < |result.rows| ==> |result.rows[i]| == |result.header|
    requires forall i :: 0 <= i < |f.rows| ==>
               result.rows[i][DateColumn(result.header)] == f.rows[i][DateColumn(f.header)]
    requires forall i :: |f.rows| <= i < |result.rows| ==>
               result.rows[i][DateColumn(result.header)] == g.rows[i - |f.rows|][DateColumn(g.header)]
    ensures Dated(result, parse) && DatesOf(result, parse) == DatesOf(f, parse) + DatesOf(g, parse)
  {
    hide DateColumn;
    var n, c := |f.rows|, DateColumn(result.header);
    forall i | 0 <= i < |result.rows| ensures parse(result.rows[i][c]).Some? {}
    forall d | d in DatesOf(g, parse) ensures d in DatesOf(result, parse) {
      var i :| 0 <= i < |g.rows| && parse(g.rows[i][DateColumn(g.header)]).value == d;
      assert result.rows[n + i][c] == g.rows[i][DateColumn(g.header)];
    }
    forall d | d in DatesOf(f, parse) ensures d in DatesOf(result, parse) {
      var i :| 0 <= i < |f.rows| && parse(f.rows[i][DateColumn(f.header)]).value == d;
      assert result.rows[i][c] == f.rows[i][DateColumn(f.header)];
    }
  }

  lemma DatedIsFile(f: Csv, parse: Parser)
    requires Dated(f, parse)
    ensures f.Csv? && Rectangular(f)
  {
  }

  lemma {:induction false} NewRowsFit(compute: Compute, dates: seq<nat>, n: nat)
    requires forall d, i :: 0 <= i < |RowsFor(compute, d)| ==> |RowsFor(compute, d)[i]| == n
    ensures forall i :: 0 <= i < |NewRows(compute, dates)| ==> |NewRows(compute, dates)[i]| == n
  {
    hide RowsFor;
    if dates != [] { NewRowsFit(compute, dates[..|dates| - 1], n); }
  }

  lemma TwoFiles(f: Csv, g: Csv)
    requires f.Csv? && g.Csv?
    ensures Headers([f, g]) == [f.header, g.header]
    ensures AllEntries([f, g]) == EntriesOf(f) + EntriesOf(g)
  {
    var files := [f, g];
    assert files[..1] == [f] && [f][..0] == [];
    assert Headers([f]) == [f.header];
    assert AllEntries([f]) == [] + EntriesOf(f) == EntriesOf(f);
  }
}
