// The export worker: results of all tasks of a job, and the CSV report over them.
module CsvExport {
  import opened Options
  import opened Subsequences
  import opened TaskStatuses
  import opened CsvTable

  // ---- loading the results of the tasks ----

  datatype ExportTask = ExportTask(id: string, url: string, status: TaskStatus, statusText: string, resultKey: Option<string>)

  // The "items" of a result: elements that are not objects appear as None.
  datatype RawItems = NoItems | Elements(list: seq<Option<map<string, string>>>) | OtherValue

  datatype Stored = Unavailable(reason: string) | NotJSON(reason: string) | Output(fields: map<string, string>, items: RawItems)

  // The objects of a list, in order, and nothing else.
  function Objects(list: seq<Option<map<string, string>>>): seq<map<string, string>> {
    if list == [] then []
    else
      var n := |list| - 1;
      Objects(list[..n]) + if list[n].Some? then [list[n].value] else []
  }

  function ObjectsIn(raw: RawItems): seq<map<string, string>> {
    if raw.Elements? then Objects(raw.list) else []
  }

  method ParseResultItems(raw: RawItems) returns (items: seq<map<string, string>>)
    ensures items == ObjectsIn(raw)
    ensures if raw.Elements? then exists at :: KeptAt(at, items, raw.list) else items == []
  {
    items := [];
    match raw {
      case NoItems =>
      case OtherValue =>
      case Elements(list) =>
        for n := 0 to |list|
          invariant items == Objects(list[..n])
        {
          assert list[..n + 1][..n] == list[..n];
          if list[n].Some? {
            items := items + [list[n].value];
          }
        }
        assert list[..|list|] == list;
        var _ := ObjectsAreKept(list);
    }
  }

  // What comes through are exactly the positions that hold an object, in order.
  lemma {:induction false} ObjectsAreKept(list: seq<Option<map<string, string>>>) returns (at: seq<nat>)
    ensures KeptAt(at, Objects(list), list)
  {
    if list == [] {
      at := [];
    } else {
      var n := |list| - 1;
      var before := ObjectsAreKept(list[..n]);
      at := if list[n].Some? then before + [n] else before;
      KeptOneMore(before, Objects(list[..n]), list);
    }
  }

  lemma KeptOneMore(before: seq<nat>, items: seq<map<string, string>>, list: seq<Option<map<string, string>>>)
    requires list != [] && KeptAt(before, items, list[..|list| - 1])
    ensures var n := |list| - 1;
            if list[n].Some? then KeptAt(before + [n], items + [list[n].value], list) else KeptAt(before, items, list)
  {
    var n := |list| - 1;
    forall k | 0 <= k < |list| && list[k].Some? ensures k in before + [n] && (k < n ==> k in before) {
      if k < n {
        assert list[..n][k].Some?;
      } else {
        assert (before + [n])[|before|] == n;
      }
    }
  }

  ghost predicate KeptAt(at: seq<nat>, items: seq<map<string, string>>, list: seq<Option<map<string, string>>>) {
    && |at| == |items|
    && (forall i :: 0 <= i < |at| ==> at[i] < |list| && list[at[i]] == Some(items[i]))
    && (forall i, j :: 0 <= i < j < |at| ==> at[i] < at[j])
    && (forall k :: 0 <= k < |list| && list[k].Some? ==> k in at)
  }

  // A list of objects comes through whole.
  lemma {:induction false} ObjectsComeThrough(list: seq<Option<map<string, string>>>)
    ensures |Objects(list)| <= |list|
    ensures (forall i :: 0 <= i < |list| ==> list[i].Some?) <==> |Objects(list)| == |list|
    ensures |Objects(list)| == |list| ==> forall i :: 0 <= i < |list| ==> list[i] == Some(Objects(list)[i])
  {
    if list != [] {
      ObjectsComeThrough(list[..|list| - 1]);
    }
  }

  predicate HasResult(t: ExportTask) {
    (t.status.Completed? || t.status.Parsed?) && t.resultKey.Some? && t.resultKey.value != ""
  }

  // The result stands for the task: the output of a parsed or completed task with a result key
  // when that can be loaded and read, and otherwise no data, with the reason unless the task
  // simply has no result.
  ghost predicate StandsFor(r: TaskResult, t: ExportTask, store: string -> Stored) {
    && r.taskID == t.id && r.url == t.url && r.status == t.statusText
    && match t.resultKey
       case Some(key) =>
         if (t.status == Completed || t.status == Parsed) && key != "" then Loaded(r, store(key)) else HasNoResult(r, t)
       case None => HasNoResult(r, t)
  }

  ghost predicate Loaded(r: TaskResult, stored: Stored) {
    match stored
    case Output(fields, raw) =>
      r.fields == fields && r.error == "" && if raw.Elements? then exists at :: KeptAt(at, r.items, raw.list) else r.items == []
    case Unavailable(reason) => r.fields == map[] && r.items == [] && r.error == "failed to load result: " + reason
    case NotJSON(reason) => r.fields == map[] && r.items == [] && r.error == "failed to parse JSON: " + reason
  }

  predicate HasNoResult(r: TaskResult, t: ExportTask) {
    r.fields == map[] && r.items == [] && r.error == if t.status == Failed then "task failed during crawl/parse" else ""
  }

  method LoadTaskResults(tasks: seq<ExportTask>, store: string -> Stored) returns (results: seq<TaskResult>)
    ensures |results| == |tasks| && forall i :: 0 <= i < |tasks| ==> StandsFor(results[i], tasks[i], store)
  {
    results := [];
    for n := 0 to |tasks|
      invariant |results| == n && forall i :: 0 <= i < n ==> StandsFor(results[i], tasks[i], store)
    {
      var t := tasks[n];
      var result := TaskResult(t.id, t.url, t.statusText, map[], [], "");
      if HasResult(t) {
        match store(t.resultKey.value) {
          case Unavailable(reason) =>
            result := result.(error := "failed to load result: " + reason);
          case NotJSON(reason) =>
            result := result.(error := "failed to parse JSON: " + reason);
          case Output(fields, raw) =>
            var items := ParseResultItems(raw);
            result := result.(fields := fields, items := items);
        }
      } else if t.status.Failed? {
        result := result.(error := "task failed during crawl/parse");
      }
      results := results + [result];
    }
  }

  // ---- canonical columns ----

  // sort.Strings: by code point, a prefix first.
  predicate Before(a: string, b: string) {
    b != "" && (a == "" || a[0] < b[0] || (a[0] == b[0] && Before(a[1..], b[1..])))
  }

  // a is a proper start of b, or the smaller of the two where they first differ.
  ghost predicate Precedes(a: string, b: string) {
    exists k :: 0 <= k <= |a| && k < |b| && a[..k] == b[..k] && (k == |a| || a[k] < b[k])
  }

  lemma {:induction false} BeforePrecedes(a: string, b: string)
    ensures Before(a, b) <==> Precedes(a, b)
  {
    if a != "" && b != "" && a[0] == b[0] {
      BeforePrecedes(a[1..], b[1..]);
      if k :| 0 <= k <= |a[1..]| && k < |b[1..]| && a[1..][..k] == b[1..][..k] && (k == |a[1..]| || a[1..][k] < b[1..][k]) {
        assert a[..k + 1] == [a[0]] + a[1..][..k] && b[..k + 1] == [b[0]] + b[1..][..k];
        assert Precedes(a, b);
      }
      if k :| 0 <= k <= |a| && k < |b| && a[..k] == b[..k] && (k == |a| || a[k] < b[k]) {
        assert k > 0;
        assert a[1..][..k - 1] == a[..k][1..] && b[1..][..k - 1] == b[..k][1..];
        assert Precedes(a[1..], b[1..]);
      }
    } else if Before(a, b) {
      assert a[..0] == b[..0];
    }
  }

  lemma {:induction false} BeforeIsTransitive(a: string, b: string, c: string)
    requires Before(a, b) && Before(b, c)
    ensures Before(a, c)
  {
    if a != "" && a[0] == b[0] == c[0] {
      BeforeIsTransitive(a[1..], b[1..], c[1..]);
    }
  }

  lemma {:induction false} BeforeIsTotal(a: string, b: string)
    ensures a != b ==> (Before(a, b) <==> !Before(b, a))
    ensures !Before(a, a)
  {
    if a != "" {
      BeforeIsTotal(a[1..], a[1..]);
      if b != "" && a[0] == b[0] {
        BeforeIsTotal(a[1..], b[1..]);
        assert a == [a[0]] + a[1..] && b == [b[0]] + b[1..];
      }
    }
  }

  ghost predicate Sorted(names: seq<string>) {
    forall i, j :: 0 <= i < j < |names| ==> Before(names[i], names[j])
  }

  // The columns of a set of names: each once, sorted.
  ghost predicate Canonical(names: seq<string>, set0: set<string>) {
    Sorted(names) && forall name :: name in names <==> name in set0
  }

  lemma SortedIsDistinct(names: seq<string>)
    requires Sorted(names)
    ensures Distinct(names)
  {
    forall i, j | 0 <= i < j < |names| ensures names[i] != names[j] {
      BeforeIsTotal(names[i], names[i]);
    }
  }

  lemma SortedPrecede(names: seq<string>)
    requires Sorted(names)
    ensures forall i, j :: 0 <= i < j < |names| ==> Precedes(names[i], names[j])
  {
    hide Before, Precedes;
    forall i, j | 0 <= i < j < |names| ensures Precedes(names[i], names[j]) { BeforePrecedes(names[i], names[j]); }
  }

  // So the columns do not depend on the order in which maps are ranged over.
  lemma {:induction false} CanonicalIsUnique(a: seq<string>, b: seq<string>, names: set<string>)
    requires Canonical(a, names) && Canonical(b, names)
    ensures a == b
  {
    assert b != [] ==> b[0] in names;
    if a != [] {
      assert a[0] in b && b != [];
      FirstIsLeast(a, b);
      var rest := names - {a[0]};
      TailIsCanonical(a, names);
      TailIsCanonical(b, names);
      CanonicalIsUnique(a[1..], b[1..], rest);
      assert a == [a[0]] + a[1..] && b == [b[0]] + b[1..];
    }
  }

  lemma FirstIsLeast(a: seq<string>, b: seq<string>)
    requires a != [] && b != [] && Sorted(a) && Sorted(b) && a[0] in b && b[0] in a
    ensures a[0] == b[0]
  {
    var i :| 0 <= i < |b| && b[i] == a[0];
    var j :| 0 <= j < |a| && a[j] == b[0];
    BeforeIsTotal(a[0], b[0]);
  }

  lemma TailIsCanonical(a: seq<string>, names: set<string>)
    requires a != [] && Canonical(a, names)
    ensures Canonical(a[1..], names - {a[0]})
  {
    SortedIsDistinct(a);
    assert a == [a[0]] + a[1..];
  }

  // ---- collecting the names ----

  ghost function FieldsOf(results: seq<TaskResult>): set<string> {
    set i, name | 0 <= i < |results| && name in results[i].fields :: name
  }

  ghost function ItemFieldsOf(results: seq<TaskResult>): set<string> {
    set i, k, name | 0 <= i < |results| && 0 <= k < |results[i].items| && name in results[i].items[k] :: name
  }

  // Some result has a page field, or some item of one a field, of that name.
  ghost predicate IsField(name: string, results: seq<TaskResult>) {
    exists n :: 0 <= n < |results| && name in results[n].fields
  }

  ghost predicate IsItemField(name: string, results: seq<TaskResult>) {
    exists n, k :: 0 <= n < |results| && 0 <= k < |results[n].items| && name in results[n].items[k]
  }

  lemma FieldsAreCollected(names: seq<string>, results: seq<TaskResult>)
    requires Canonical(names, FieldsOf(results))
    ensures forall name :: name in names <==> IsField(name, results)
    ensures forall i, j :: 0 <= i < j < |names| ==> Precedes(names[i], names[j])
  {
    hide Precedes;
    SortedPrecede(names);
  }

  lemma ItemFieldsAreCollected(names: seq<string>, results: seq<TaskResult>)
    requires Canonical(names, ItemFieldsOf(results))
    ensures forall name :: name in names <==> IsItemField(name, results)
    ensures forall i, j :: 0 <= i < j < |names| ==> Precedes(names[i], names[j])
  {
    hide Precedes;
    SortedPrecede(names);
  }

  // The keys of a map are added one after the other, in whatever order it yields them.
  method AddKeys(before: set<string>, m: map<string, string>) returns (names: set<string>)
    ensures names == before + m.Keys
  {
    names := before;
    var todo := m.Keys;
    while todo != {}
      invariant todo <= m.Keys && names == before + (m.Keys - todo)
      decreases |todo|
    {
      var name :| name in todo;
      names := names + {name};
      todo := todo - {name};
    }
  }

  // sort.Strings over the keys of a set, in whatever order they come.
  method SortedNames(names: set<string>) returns (sorted: seq<string>)
    ensures Canonical(sorted, names)
  {
    sorted := [];
    var todo := names;
    while todo != {}
      invariant todo <= names && Canonical(sorted, names - todo)
      decreases |todo|
    {
      var name :| name in todo;
      sorted := Insert(sorted, name, names - todo);
      assert names - todo + {name} == names - (todo - {name});
      todo := todo - {name};
    }
    assert names - todo == names;
  }

  method Insert(sorted: seq<string>, name: string, ghost names: set<string>) returns (longer: seq<string>)
    requires Canonical(sorted, names) && name !in names
    ensures Canonical(longer, names + {name})
  {
    var k := |sorted|;
    while k > 0 && !Before(sorted[k - 1], name)
      invariant 0 <= k <= |sorted|
      invariant forall i :: k <= i < |sorted| ==> Before(name, sorted[i])
    {
      k := k - 1;
      BeforeIsTotal(name, sorted[k]);
    }
    longer := sorted[..k] + [name] + sorted[k..];
    forall i | 0 <= i < k ensures Before(sorted[i], name) {
      if i < k - 1 { BeforeIsTransitive(sorted[i], sorted[k - 1], name); }
    }
    assert sorted == sorted[..k] + sorted[k..];
  }

  method CollectFieldNames(results: seq<TaskResult>) returns (names: seq<string>)
    ensures Canonical(names, FieldsOf(results))
    ensures forall name :: name in names <==> IsField(name, results)
    ensures forall i, j :: 0 <= i < j < |names| ==> Precedes(names[i], names[j])
  {
    hide Precedes, IsField, IsItemField;
    var found: set<string> := {};
    for n := 0 to |results|
      invariant found == FieldsOf(results[..n])
    {
      found := AddKeys(found, results[n].fields);
      OneMoreResult(results, n);
    }
    assert results[..|results|] == results;
    names := SortedNames(found);
    FieldsAreCollected(names, results);
  }

  lemma OneMoreResult(results: seq<TaskResult>, n: nat)
    requires n < |results|
    ensures FieldsOf(results[..n + 1]) == FieldsOf(results[..n]) + results[n].fields.Keys
  {
  }

  ghost function ItemKeys(items: seq<map<string, string>>): set<string> {
    set k, name | 0 <= k < |items| && name in items[k] :: name
  }

  method CollectItemFieldNames(results: seq<TaskResult>) returns (names: seq<string>)
    ensures Canonical(names, ItemFieldsOf(results))
    ensures forall name :: name in names <==> IsItemField(name, results)
    ensures forall i, j :: 0 <= i < j < |names| ==> Precedes(names[i], names[j])
  {
    hide Precedes, IsField, IsItemField;
    var found: set<string> := {};
    for n := 0 to |results|
      invariant found == ItemFieldsOf(results[..n])
    {
      ghost var before := found;
      var items := results[n].items;
      for k := 0 to |items|
        invariant found == before + ItemKeys(items[..k])
      {
        found := AddKeys(found, items[k]);
        OneMoreItem(items, k);
      }
      assert items[..|items|] == items;
      OneMoreItemResult(results, n);
    }
    assert results[..|results|] == results;
    names := SortedNames(found);
    ItemFieldsAreCollected(names, results);
  }

  lemma OneMoreItem(items: seq<map<string, string>>, k: nat)
    requires k < |items|
    ensures ItemKeys(items[..k + 1]) == ItemKeys(items[..k]) + items[k].Keys
  {
  }

  lemma OneMoreItemResult(results: seq<TaskResult>, n: nat)
    requires n < |results|
    ensures ItemFieldsOf(results[..n + 1]) == ItemFieldsOf(results[..n]) + ItemKeys(results[n].items)
  {
  }

  // ---- the report ----

  ghost function LineCount(results: seq<TaskResult>): nat {
    if results == [] then 0
    else
      var items := |results[|results| - 1].items|;
      LineCount(results[..|results| - 1]) + if items > 1 then items else 1
  }

  lemma {:induction false} AllLinesCounted(results: seq<TaskResult>, fields: seq<string>, items: seq<string>)
    ensures |AllLines(results, fields, items)| == LineCount(results)
  {
    if results != [] {
      AllLinesCounted(results[..|results| - 1], fields, items);
    }
  }

  lemma ColumnsCover(results: seq<TaskResult>, fields: seq<string>, items: seq<string>)
    requires Canonical(fields, FieldsOf(results)) && Canonical(items, ItemFieldsOf(results))
    ensures Distinct(fields) && Distinct(items)
    ensures forall i :: 0 <= i < |results| ==> CoversResult(fields, items, results[i])
  {
    SortedIsDistinct(fields);
    SortedIsDistinct(items);
    forall i | 0 <= i < |results| ensures CoversResult(fields, items, results[i]) {
      forall k | k in results[i].fields ensures k in fields {
        assert k in FieldsOf(results);
      }
      forall n, k | 0 <= n < |results[i].items| && k in results[i].items[n] ensures k in items {
        assert k in ItemFieldsOf(results);
      }
    }
  }

  method CellsFor(m: map<string, string>, names: seq<string>) returns (cells: seq<string>)
    ensures cells == Cells(m, names)
  {
    cells := [];
    for k := 0 to |names|
      invariant cells == Cells(m, names[..k])
    {
      cells := cells + [if names[k] in m then m[names[k]] else ""];
    }
    assert names[..|names|] == names;
  }

  method LinesFor(r: TaskResult, fields: seq<string>, items: seq<string>) returns (lines: seq<seq<string>>)
    ensures lines == Lines(r, fields, items)
  {
    var fieldCells := CellsFor(r.fields, fields);
    var base := [r.taskID, r.url, r.status] + fieldCells;
    lines := [];
    if |r.items| > 0 {
      for k := 0 to |r.items|
        invariant lines == ItemLines(r, fields, items, k)
      {
        var itemCells := CellsFor(r.items[k], items);
        lines := lines + [base + [Decimal(k)] + itemCells + [r.error]];
      }
    } else {
      var itemCells := CellsFor(map[], items);
      lines := [base + [""] + itemCells + [r.error]];
    }
  }

  // Room for the fixed columns, and item columns that are marked as such.
  ghost predicate HasColumns(header: seq<string>, w: nat) {
    |header| >= w + 5 && forall i :: w + 4 <= i < |header| - 1 ==> "item." <= header[i]
  }

  // The header: id, URL and status, then the w page fields of any result, sorted, the item index,
  // the item fields of any item, sorted and marked as such, and the error.
  ghost predicate Heads(header: seq<string>, w: nat, results: seq<TaskResult>) {
    && HasColumns(header, w)
    && header[0] == "task_id" && header[1] == "url" && header[2] == "status"
    && header[w + 3] == "item_index" && header[|header| - 1] == "error"
    && (forall i, j :: 3 <= i < j < w + 3 ==> Precedes(header[i], header[j]))
    && (forall i :: 3 <= i < w + 3 ==> IsField(header[i], results))
    && (forall name :: IsField(name, results) ==> name in header[3..w + 3])
    && (forall i, j :: w + 4 <= i < j < |header| - 1 ==> Precedes(header[i][5..], header[j][5..]))
    && (forall i :: w + 4 <= i < |header| - 1 ==> IsItemField(header[i][5..], results))
    && (forall name :: IsItemField(name, results) ==> "item." + name in header[w + 4..|header| - 1])
  }

  // The line of item k of a result, or its only line when it has no items: every cell is what the
  // column it stands in is named for.
  ghost predicate Tells(line: seq<string>, header: seq<string>, w: nat, r: TaskResult, k: nat)
    requires HasColumns(header, w)
  {
    && |line| == |header|
    && line[0] == r.taskID && line[1] == r.url && line[2] == r.status && line[|line| - 1] == r.error
    && (forall i :: 3 <= i < w + 3 ==> line[i] == if header[i] in r.fields then r.fields[header[i]] else "")
    && (if k < |r.items| then Numeral(line[w + 3], k) else line[w + 3] == "")
    && (forall i :: w + 4 <= i < |line| - 1 ==>
          line[i] == if k < |r.items| && header[i][5..] in r.items[k] then r.items[k][header[i][5..]] else "")
  }

  // The lines of result n are those from starts[n] to starts[n + 1], one for each item, or one.
  ghost predicate ReportedAt(header: seq<string>, lines: seq<seq<string>>, results: seq<TaskResult>, w: nat, starts: seq<nat>) {
    && Heads(header, w, results)
    && |starts| == |results| + 1 && starts[0] == 0 && starts[|results|] == |lines|
    && (forall n :: 0 <= n < |results| ==> TellsAll(lines, starts[n], starts[n + 1], header, w, results[n]))
  }

  ghost predicate TellsAll(lines: seq<seq<string>>, start: nat, end: nat, header: seq<string>, w: nat, r: TaskResult)
    requires HasColumns(header, w)
  {
    && start <= end <= |lines| && end - start == (if r.items == [] then 1 else |r.items|)
    && forall i :: start <= i < end ==> Tells(lines[i], header, w, r, i - start)
  }

  ghost predicate Reported(header: seq<string>, lines: seq<seq<string>>, results: seq<TaskResult>) {
    if results == [] then header == ["task_id", "url", "status"] && lines == []
    else exists w, starts :: ReportedAt(header, lines, results, w, starts)
  }

  lemma HeaderParts(fields: seq<string>, items: seq<string>)
    ensures var header, w := Header(fields, items), |fields|;
            && |header| == w + |items| + 5
            && header[0] == "task_id" && header[1] == "url" && header[2] == "status"
            && header[w + 3] == "item_index" && header[|header| - 1] == "error"
            && header[3..w + 3] == fields && header[w + 4..|header| - 1] == Prefixed(items)
            && (forall i :: 3 <= i < w + 3 ==> header[i] == fields[i - 3])
            && (forall i :: w + 4 <= i < |header| - 1 ==> header[i] == "item." + items[i - w - 4])
  {
  }

  lemma PrefixedHas(items: seq<string>, name: string)
    requires name in items
    ensures "item." + name in Prefixed(items)
  {
    var i :| 0 <= i < |items| && items[i] == name;
    assert Prefixed(items)[i] == "item." + name;
  }

  lemma HeaderHeads(fields: seq<string>, items: seq<string>, results: seq<TaskResult>)
    requires Canonical(fields, FieldsOf(results)) && Canonical(items, ItemFieldsOf(results))
    ensures Heads(Header(fields, items), |fields|, results)
  {
    hide Precedes, Canonical, IsField, IsItemField, Header, Prefixed;
    var header, w := Header(fields, items), |fields|;
    FieldsAreCollected(fields, results);
    ItemFieldsAreCollected(items, results);
    HeaderParts(fields, items);
    forall i | w + 4 <= i < |header| - 1 ensures "item." <= header[i] && header[i][5..] == items[i - w - 4] {
    }
    forall name | IsItemField(name, results) ensures "item." + name in Prefixed(items) {
      PrefixedHas(items, name);
    }
  }

  lemma LineTells(r: TaskResult, fields: seq<string>, items: seq<string>, results: seq<TaskResult>, index: string, item: map<string, string>, k: nat)
    requires Heads(Header(fields, items), |fields|, results)
    requires if k < |r.items| then index == Decimal(k) && item == r.items[k] else index == "" && item == map[]
    ensures Tells(Line(r, fields, index, Cells(item, items)), Header(fields, items), |fields|, r, k)
  {
    hide Heads, Numeral;
    var header, w := Header(fields, items), |fields|;
    DecimalIsNumeral(k);
    forall i | w + 4 <= i < |header| - 1 ensures header[i][5..] == items[i - w - 4] {
    }
  }

  lemma LineNumber(r: TaskResult, fields: seq<string>, items: seq<string>)
    ensures |Lines(r, fields, items)| == if r.items == [] then 1 else |r.items|
  {
  }

  lemma LineAt(r: TaskResult, fields: seq<string>, items: seq<string>, k: nat)
    requires k < |Lines(r, fields, items)|
    ensures Lines(r, fields, items)[k] ==
            if k < |r.items| then Line(r, fields, Decimal(k), Cells(r.items[k], items)) else Line(r, fields, "", Cells(map[], items))
  {
    hide Line, Cells, Decimal;
  }

  lemma LinesTell(before: seq<seq<string>>, r: TaskResult, fields: seq<string>, items: seq<string>, results: seq<TaskResult>)
    requires Heads(Header(fields, items), |fields|, results)
    ensures var lines := before + Lines(r, fields, items);
            TellsAll(lines, |before|, |lines|, Header(fields, items), |fields|, r)
  {
    assert HasColumns(Header(fields, items), |fields|);
    hide Heads, HasColumns, Tells, Header, Line, Lines, Cells, Decimal;
    var lines := before + Lines(r, fields, items);
    LineNumber(r, fields, items);
    forall i | |before| <= i < |lines|
      ensures Tells(lines[i], Header(fields, items), |fields|, r, i - |before|)
    {
      var k := i - |before|;
      LineAt(r, fields, items, k);
      if r.items == [] {
        LineTells(r, fields, items, results, "", map[], k);
      } else {
        LineTells(r, fields, items, results, Decimal(k), r.items[k], k);
      }
    }
  }

  lemma LaterLinesTell(lines: seq<seq<string>>, more: seq<seq<string>>, start: nat, end: nat, header: seq<string>, w: nat, r: TaskResult)
    requires HasColumns(header, w)
    requires TellsAll(lines, start, end, header, w, r)
    ensures TellsAll(lines + more, start, end, header, w, r)
  {
    hide Tells, HasColumns;
  }

  lemma {:induction false} AllLinesTell(results: seq<TaskResult>, fields: seq<string>, items: seq<string>, all: seq<TaskResult>)
    returns (starts: seq<nat>)
    requires Heads(Header(fields, items), |fields|, all)
    ensures var lines, header, w := AllLines(results, fields, items), Header(fields, items), |fields|;
            && |starts| == |results| + 1 && starts[0] == 0 && starts[|results|] == |lines|
            && forall n :: 0 <= n < |results| ==> TellsAll(lines, starts[n], starts[n + 1], header, w, results[n])
  {
    assert HasColumns(Header(fields, items), |fields|);
    hide Heads, HasColumns, TellsAll, Lines, Header;
    if results == [] {
      starts := [0];
    } else {
      var m := |results| - 1;
      var header, w := Header(fields, items), |fields|;
      var before := AllLines(results[..m], fields, items);
      var earlier := AllLinesTell(results[..m], fields, items, all);
      starts := earlier + [|AllLines(results, fields, items)|];
      LinesTell(before, results[m], fields, items, all);
      forall n | 0 <= n < m ensures TellsAll(AllLines(results, fields, items), starts[n], starts[n + 1], header, w, results[n]) {
        assert results[..m][n] == results[n];
        LaterLinesTell(before, Lines(results[m], fields, items), earlier[n], earlier[n + 1], header, w, results[n]);
      }
    }
  }

  lemma TableIsReported(results: seq<TaskResult>, fields: seq<string>, items: seq<string>)
    requires results != [] && Canonical(fields, FieldsOf(results)) && Canonical(items, ItemFieldsOf(results))
    ensures Reported(Header(fields, items), AllLines(results, fields, items), results)
  {
    hide Heads, TellsAll, AllLines, Header, Canonical;
    HeaderHeads(fields, items, results);
    var starts := AllLinesTell(results, fields, items, results);
    assert ReportedAt(Header(fields, items), AllLines(results, fields, items), results, |fields|, starts);
  }

  // With results: canonical columns, as many cells in every line as in the header, one line for
  // each item and one for each result without items; and the report reads back as the results.
  method GenerateCSVReport(results: seq<TaskResult>) returns (header: seq<string>, lines: seq<seq<string>>)
    ensures results == [] ==> header == ["task_id", "url", "status"] && lines == []
    ensures results != [] ==>
              exists fields, items :: Canonical(fields, FieldsOf(results)) && Canonical(items, ItemFieldsOf(results)) && header == Header(fields, items)
    ensures |lines| == LineCount(results) && Reported(header, lines, results)
    ensures Rectangular(header, lines) && Read(header, lines) == AllRecovered(results)
  {
    hide Canonical, Lines, Distinct, CoversResult, Read, FieldNames, ItemNames, AllRecovered, Rectangular, Header, ReportedAt;
    lines := [];
    if |results| == 0 {
      header := ["task_id", "url", "status"];
      EmptyReportIsRead();
      return;
    }
    var fields := CollectFieldNames(results);
    var items := CollectItemFieldNames(results);
    header := Header(fields, items);
    for n := 0 to |results|
      invariant lines == AllLines(results[..n], fields, items)
    {
      var more := LinesFor(results[n], fields, items);
      lines := lines + more;
      assert results[..n + 1][..n] == results[..n];
    }
    assert results[..|results|] == results;
    AllLinesCounted(results, fields, items);
    ColumnsCover(results, fields, items);
    ReportIsRead(results, fields, items);
    TableIsReported(results, fields, items);
  }

  lemma EmptyReportIsRead()
    ensures var header := ["task_id", "url", "status"];
            Rectangular(header, []) && Read(header, []) == AllRecovered([])
  {
  }

  // Every task of the job appears in its report, in the order of the tasks, with what it stands for.
  method ProcessJob(tasks: seq<ExportTask>, store: string -> Stored) returns (header: seq<string>, lines: seq<seq<string>>)
    ensures exists results :: |results| == |tasks| && Reported(header, lines, results) && forall i :: 0 <= i < |tasks| ==> StandsFor(results[i], tasks[i], store)
    ensures Rectangular(header, lines) && |Read(header, lines)| == |tasks|
    ensures forall i :: 0 <= i < |tasks| ==>
              exists r :: StandsFor(r, tasks[i], store) && Read(header, lines)[i] == Recovered(r)
  {
    hide StandsFor, Rectangular, Read, Recovered, Canonical, Reported;
    var results := LoadTaskResults(tasks, store);
    header, lines := GenerateCSVReport(results);
    forall i | 0 <= i < |tasks| ensures exists r :: StandsFor(r, tasks[i], store) && Read(header, lines)[i] == Recovered(r) {
      assert StandsFor(results[i], tasks[i], store);
    }
  }
}
