// The layout of the CSV report and its inverse. Cells are rendered text; a value that renders to
// the empty text and a missing one look the same in a report.
module CsvTable {
  import opened Subsequences

  datatype TaskResult = TaskResult(taskID: string, url: string, status: string, fields: map<string, string>,
                                   items: seq<map<string, string>>, error: string)

  const ITEM_INDEX := "item_index"
  const ITEM_PREFIX := "item."

  // fmt.Sprintf("%d", n)
  function Decimal(n: nat): string {
    if n < 10 then [DIGITS[n]] else Decimal(n / 10) + [DIGITS[n % 10]]
  }

  const DIGITS := "0123456789"

  lemma {:induction false} DecimalMarksFirst(n: nat)
    ensures Decimal(n) != "" && (Decimal(n) == "0" <==> n == 0)
  {
    if n >= 10 {
      DecimalMarksFirst(n / 10);
      assert |Decimal(n)| > 1;
    }
  }

  // text is n in decimal: digits only, and no zero in front of another digit.
  ghost predicate Numeral(text: string, n: nat) {
    && text != "" && (forall i :: 0 <= i < |text| ==> '0' <= text[i] <= '9')
    && (|text| > 1 ==> text[0] != '0')
    && ReadDigits(text) == n
  }

  function ReadDigits(text: string): int {
    if text == "" then 0 else 10 * ReadDigits(text[..|text| - 1]) + (text[|text| - 1] as int - '0' as int)
  }

  lemma {:induction false} DecimalIsNumeral(n: nat)
    ensures Numeral(Decimal(n), n) && (n > 0 ==> Decimal(n)[0] != '0')
  {
    assert forall d :: 0 <= d < 10 ==> DIGITS[d] as int == '0' as int + d;
    if n < 10 {
      assert [DIGITS[n]][..0] == "";
    } else {
      DecimalIsNumeral(n / 10);
      var front := Decimal(n / 10);
      assert (front + [DIGITS[n % 10]])[..|front|] == front;
    }
  }

  // ---- layout ----

  function Cells(m: map<string, string>, names: seq<string>): seq<string> {
    seq(|names|, i requires 0 <= i < |names| => if names[i] in m then m[names[i]] else "")
  }

  function Prefixed(names: seq<string>): seq<string> {
    seq(|names|, i requires 0 <= i < |names| => ITEM_PREFIX + names[i])
  }

  function Header(fields: seq<string>, items: seq<string>): seq<string> {
    ["task_id", "url", "status"] + fields + [ITEM_INDEX] + Prefixed(items) + ["error"]
  }

  function Line(r: TaskResult, fields: seq<string>, index: string, itemCells: seq<string>): seq<string> {
    [r.taskID, r.url, r.status] + Cells(r.fields, fields) + [index] + itemCells + [r.error]
  }

  // The first n lines of a result with items: one for each.
  function ItemLines(r: TaskResult, fields: seq<string>, items: seq<string>, n: nat): seq<seq<string>>
    requires n <= |r.items|
  {
    seq(n, i requires 0 <= i < n => Line(r, fields, Decimal(i), Cells(r.items[i], items)))
  }

  function Lines(r: TaskResult, fields: seq<string>, items: seq<string>): seq<seq<string>> {
    if |r.items| > 0 then ItemLines(r, fields, items, |r.items|) else [Line(r, fields, "", Cells(map[], items))]
  }

  function AllLines(results: seq<TaskResult>, fields: seq<string>, items: seq<string>): seq<seq<string>> {
    if results == [] then []
    else AllLines(results[..|results| - 1], fields, items) + Lines(results[|results| - 1], fields, items)
  }

  // ---- reading a report back ----

  datatype Record = Record(taskID: string, url: string, status: string, fields: map<string, string>,
                           items: seq<map<string, string>>, error: string)

  // The columns before "error" that carry the item prefix, counted from the right.
  function ItemColumns(header: seq<string>): (k: nat)
    ensures k <= |header|
  {
    if header == [] || !(ITEM_PREFIX <= header[|header| - 1]) then 0 else 1 + ItemColumns(header[..|header| - 1])
  }

  function FromCells(names: seq<string>, cells: seq<string>): map<string, string>
    requires |cells| == |names|
  {
    if names == [] then map[]
    else
      var n := |names| - 1;
      var rest := FromCells(names[..n], cells[..n]);
      if cells[n] == "" then rest else rest[names[n] := cells[n]]
  }

  // A line with index "" or "0" starts a record; any other adds an item to the last one.
  function ReadLines(lines: seq<seq<string>>, fields: seq<string>, items: seq<string>): seq<Record>
    requires forall i :: 0 <= i < |lines| ==> |lines[i]| == |fields| + |items| + 5
  {
    if lines == [] then []
    else
      var n := |lines| - 1;
      var line, w := lines[n], |fields|;
      var before := ReadLines(lines[..n], fields, items);
      var item := FromCells(items, line[w + 4..w + 4 + |items|]);
      var record := Record(line[0], line[1], line[2], FromCells(fields, line[3..w + 3]), [], line[w + 4 + |items|]);
      if line[w + 3] == "" then before + [record]
      else if line[w + 3] == "0" then before + [record.(items := [item])]
      else if before == [] then before
      else
        var last := before[|before| - 1];
        before[..|before| - 1] + [last.(items := last.items + [item])]
  }

  ghost predicate Rectangular(header: seq<string>, lines: seq<seq<string>>) {
    forall i :: 0 <= i < |lines| ==> |lines[i]| == |header|
  }

  function ItemWidth(header: seq<string>): nat {
    if header == [] then 0 else ItemColumns(header[..|header| - 1])
  }

  function FieldNames(header: seq<string>): seq<string> {
    if |header| < ItemWidth(header) + 5 then [] else header[3..|header| - ItemWidth(header) - 2]
  }

  function Unprefixed(name: string): string {
    if ITEM_PREFIX <= name then name[|ITEM_PREFIX|..] else name
  }

  function ItemNames(header: seq<string>): seq<string> {
    var k := ItemWidth(header);
    if |header| < k + 5 then [] else seq(k, i requires 0 <= i < k => Unprefixed(header[|header| - 1 - k + i]))
  }

  ghost function Read(header: seq<string>, lines: seq<seq<string>>): seq<Record>
    requires Rectangular(header, lines)
  {
    if |header| != |FieldNames(header)| + |ItemNames(header)| + 5 then []
    else ReadLines(lines, FieldNames(header), ItemNames(header))
  }

  // ---- what reading recovers ----

  ghost function NonEmpty(m: map<string, string>): map<string, string> {
    map k | k in m && m[k] != "" :: m[k]
  }

  ghost function Recovered(r: TaskResult): Record {
    Record(r.taskID, r.url, r.status, NonEmpty(r.fields), seq(|r.items|, i requires 0 <= i < |r.items| => NonEmpty(r.items[i])), r.error)
  }

  ghost function AllRecovered(results: seq<TaskResult>): seq<Record> {
    seq(|results|, i requires 0 <= i < |results| => Recovered(results[i]))
  }

  ghost predicate Covers(names: seq<string>, m: map<string, string>) { forall k :: k in m ==> k in names }

  ghost predicate CoversResult(fields: seq<string>, items: seq<string>, r: TaskResult) {
    Covers(fields, r.fields) && forall i :: 0 <= i < |r.items| ==> Covers(items, r.items[i])
  }

  lemma {:induction false} CellsRead(m: map<string, string>, names: seq<string>, k: string)
    requires Distinct(names)
    ensures var read := FromCells(names, Cells(m, names));
            && (k in read <==> k in m && k in names && m[k] != "")
            && (k in read ==> read[k] == m[k])
  {
    if names != [] {
      var n := |names| - 1;
      CellsRead(m, names[..n], k);
      assert Cells(m, names)[..n] == Cells(m, names[..n]);
      assert names == names[..n] + [names[n]];
    }
  }

  lemma CoveredCellsRead(m: map<string, string>, names: seq<string>)
    requires Distinct(names) && Covers(names, m)
    ensures FromCells(names, Cells(m, names)) == NonEmpty(m)
  {
    hide FromCells, Distinct;
    forall k
      ensures k in FromCells(names, Cells(m, names)) <==> k in NonEmpty(m)
      ensures k in NonEmpty(m) ==> FromCells(names, Cells(m, names))[k] == NonEmpty(m)[k]
    {
      CellsRead(m, names, k);
    }
  }

  // The parts of a line, by position.
  lemma LineParts(r: TaskResult, fields: seq<string>, index: string, items: seq<string>, itemCells: seq<string>)
    requires |itemCells| == |items|
    ensures var line, w := Line(r, fields, index, itemCells), |fields|;
            && |line| == w + |items| + 5
            && line[0] == r.taskID && line[1] == r.url && line[2] == r.status
            && line[3..w + 3] == Cells(r.fields, fields)
            && line[w + 3] == index
            && line[w + 4..w + 4 + |items|] == itemCells
            && line[w + 4 + |items|] == r.error
  {
  }

  lemma LinesAreWide(r: TaskResult, fields: seq<string>, items: seq<string>, line: seq<string>)
    requires line in Lines(r, fields, items)
    ensures |line| == |fields| + |items| + 5
  {
  }

  lemma {:induction false} AllLinesAreWide(results: seq<TaskResult>, fields: seq<string>, items: seq<string>)
    ensures forall i :: 0 <= i < |AllLines(results, fields, items)| ==> |AllLines(results, fields, items)[i]| == |fields| + |items| + 5
  {
    hide Lines;
    if results != [] {
      var n := |results| - 1;
      AllLinesAreWide(results[..n], fields, items);
      forall line | line in Lines(results[n], fields, items) ensures |line| == |fields| + |items| + 5 {
        LinesAreWide(results[n], fields, items, line);
      }
    }
  }

  // ---- round trips ----

  ghost predicate Wide(lines: seq<seq<string>>, width: nat) { forall i :: 0 <= i < |lines| ==> |lines[i]| == width }

  // What one line adds to what was read before it.
  lemma LineAdds(before: seq<seq<string>>, r: TaskResult, fields: seq<string>, items: seq<string>, index: string, item: map<string, string>)
    requires Wide(before, |fields| + |items| + 5) && Distinct(fields) && Distinct(items)
    requires Covers(fields, r.fields) && Covers(items, item)
    ensures var line := Line(r, fields, index, Cells(item, items));
            var record := Record(r.taskID, r.url, r.status, NonEmpty(r.fields), [], r.error);
            var records := ReadLines(before, fields, items);
            && Wide(before + [line], |fields| + |items| + 5)
            && ReadLines(before + [line], fields, items) ==
               if index == "" then records + [record]
               else if index == "0" then records + [record.(items := [NonEmpty(item)])]
               else if records == [] then records
               else var last := records[|records| - 1];
                    records[..|records| - 1] + [last.(items := last.items + [NonEmpty(item)])]
  {
    hide Line, FromCells, Cells, NonEmpty, Covers, Distinct;
    var cells := Cells(item, items);
    CellCount(item, items);
    var line := Line(r, fields, index, cells);
    LineParts(r, fields, index, items, cells);
    CoveredCellsRead(r.fields, fields);
    CoveredCellsRead(item, items);
    assert (before + [line])[..|before|] == before;
  }

  lemma CellCount(m: map<string, string>, names: seq<string>)
    ensures |Cells(m, names)| == |names|
  {
  }

  lemma {:induction false} ItemsRead(before: seq<seq<string>>, r: TaskResult, fields: seq<string>, items: seq<string>, n: nat)
    requires Wide(before, |fields| + |items| + 5) && Distinct(fields) && Distinct(items) && CoversResult(fields, items, r)
    requires 0 < n <= |r.items|
    ensures Wide(before + ItemLines(r, fields, items, n), |fields| + |items| + 5)
    ensures ReadLines(before + ItemLines(r, fields, items, n), fields, items) ==
            ReadLines(before, fields, items) + [Recovered(r.(items := r.items[..n]))]
  {
    hide Line, Cells, NonEmpty, Decimal, ReadLines, Covers, Distinct;
    var i := n - 1;
    var line := Line(r, fields, Decimal(i), Cells(r.items[i], items));
    DecimalMarksFirst(i);
    ItemsGrow(r, i);
    assert before + ItemLines(r, fields, items, n) == before + ItemLines(r, fields, items, i) + [line];
    if i == 0 {
      assert before + ItemLines(r, fields, items, 0) == before;
      assert Recovered(r.(items := r.items[..1])).items == [NonEmpty(r.items[0])];
      LineAdds(before, r, fields, items, Decimal(i), r.items[i]);
    } else {
      ItemsRead(before, r, fields, items, i);
      LineAdds(before + ItemLines(r, fields, items, i), r, fields, items, Decimal(i), r.items[i]);
    }
  }

  lemma ItemsGrow(r: TaskResult, i: nat)
    requires i < |r.items|
    ensures var a := Recovered(r.(items := r.items[..i]));
            Recovered(r.(items := r.items[..i + 1])) == a.(items := a.items + [NonEmpty(r.items[i])])
  {
  }

  lemma ResultRead(before: seq<seq<string>>, r: TaskResult, fields: seq<string>, items: seq<string>)
    requires Wide(before, |fields| + |items| + 5) && Distinct(fields) && Distinct(items) && CoversResult(fields, items, r)
    ensures Wide(before + Lines(r, fields, items), |fields| + |items| + 5)
    ensures ReadLines(before + Lines(r, fields, items), fields, items) == ReadLines(before, fields, items) + [Recovered(r)]
  {
    hide Line, Cells, NonEmpty, ReadLines, Distinct;
    if |r.items| > 0 {
      ItemsRead(before, r, fields, items, |r.items|);
      assert r.items[..|r.items|] == r.items;
    } else {
      assert Covers(items, map[]);
      LineAdds(before, r, fields, items, "", map[]);
      assert Lines(r, fields, items) == [Line(r, fields, "", Cells(map[], items))];
      assert Recovered(r).items == [];
    }
  }

  lemma {:induction false} AllLinesRead(results: seq<TaskResult>, fields: seq<string>, items: seq<string>)
    requires Distinct(fields) && Distinct(items)
    requires forall i :: 0 <= i < |results| ==> CoversResult(fields, items, results[i])
    ensures Wide(AllLines(results, fields, items), |fields| + |items| + 5)
    ensures ReadLines(AllLines(results, fields, items), fields, items) == AllRecovered(results)
  {
    hide Lines, CoversResult, Recovered, Distinct, ReadLines;
    if results == [] {
      assert ReadLines([], fields, items) == [] by { NothingRead(fields, items); }
    } else {
      var n := |results| - 1;
      AllLinesRead(results[..n], fields, items);
      ResultRead(AllLines(results[..n], fields, items), results[n], fields, items);
      assert AllRecovered(results) == AllRecovered(results[..n]) + [Recovered(results[n])];
    }
  }

  lemma NothingRead(fields: seq<string>, items: seq<string>)
    ensures ReadLines([], fields, items) == []
  {
  }

  // ---- the header alone gives the columns ----

  lemma {:induction false} TrailingItemColumns(prefix: seq<string>, items: seq<string>)
    ensures ItemColumns(prefix + [ITEM_INDEX] + Prefixed(items)) == |items|
  {
    var header := prefix + [ITEM_INDEX] + Prefixed(items);
    var n := |header| - 1;
    if items == [] {
      assert header[n] == ITEM_INDEX;
      assert ITEM_INDEX[4] != ITEM_PREFIX[4];
    } else {
      var m := |items| - 1;
      TrailingItemColumns(prefix, items[..m]);
      assert header[..n] == prefix + [ITEM_INDEX] + Prefixed(items[..m]);
      assert header[n] == ITEM_PREFIX + items[m];
    }
  }

  // Whatever the fields are called, also "item_index", "error" or "item.x": the header of a
  // report determines both lists of names.
  lemma HeaderNamesColumns(fields: seq<string>, items: seq<string>)
    ensures FieldNames(Header(fields, items)) == fields && ItemNames(Header(fields, items)) == items
  {
    hide ItemColumns;
    var header := Header(fields, items);
    var prefix := ["task_id", "url", "status"] + fields;
    assert header[..|header| - 1] == prefix + [ITEM_INDEX] + Prefixed(items);
    TrailingItemColumns(prefix, items);
    assert ItemWidth(header) == |items|;
    forall i | 0 <= i < |items| ensures ItemNames(header)[i] == items[i] {
      assert header[|header| - 1 - |items| + i] == ITEM_PREFIX + items[i];
      assert Unprefixed(ITEM_PREFIX + items[i]) == items[i];
    }
  }

  // Reading a report gives back every result, in order: its id, URL, status and error, its
  // non-empty page fields, and its items, each with its non-empty fields.
  lemma ReportIsRead(results: seq<TaskResult>, fields: seq<string>, items: seq<string>)
    requires Distinct(fields) && Distinct(items)
    requires forall i :: 0 <= i < |results| ==> CoversResult(fields, items, results[i])
    ensures var header, lines := Header(fields, items), AllLines(results, fields, items);
            Rectangular(header, lines) && Read(header, lines) == AllRecovered(results)
  {
    hide Distinct, CoversResult, ReadLines, AllLines, FieldNames, ItemNames;
    AllLinesRead(results, fields, items);
    HeaderNamesColumns(fields, items);
  }
}
