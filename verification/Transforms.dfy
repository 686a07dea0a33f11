// Field extraction: collecting element values, choosing one by index, and the transform pipeline.
module Transforms {
  import opened Options
  import opened Subsequences
  import opened TextTransforms

  // A float is kept as the text it was parsed from.
  datatype Value = Nil | Text(text: string) | List(list: seq<string>) | Int(n: int) | Float(literal: string)

  // How the argument of limit came out of the configuration; texts and JSON numbers may not parse.
  datatype Arg = NoArg | Whole(n: int) | Truncated(n: int) | Parsed(parsed: Option<int>) | OtherArg

  datatype Op = Trim | Lower | Upper | CollapseSpace | HTMLToText | NormalizeURL | Unique | Limit
              | ParseInt | ParseFloat | ParsePrice | SHA256 | UnknownOp

  datatype Transform = Transform(op: Op, arg: Arg)

  // Library conversions; None where the library reports an error or finds nothing.
  datatype Library = Library(lower: string -> string, upper: string -> string, normalizeURL: string -> Option<string>,
                             parseInt: string -> Option<int>, parseFloat: string -> Option<string>,
                             findPrice: string -> Option<string>, sha256: string -> string)

  // ---- unique ----

  function UniqueOf(s: seq<string>): seq<string> {
    if s == [] then []
    else
      var n := |s| - 1;
      var u := UniqueOf(s[..n]);
      if s[n] in u then u else u + [s[n]]
  }

  // The seen-map loop.
  method UniqueStrings(s: seq<string>) returns (unique: seq<string>)
    ensures unique == UniqueOf(s)
  {
    var seen: set<string> := {};
    unique := [];
    for n := 0 to |s|
      invariant unique == UniqueOf(s[..n])
      invariant forall x :: x in seen <==> x in unique
    {
      assert s[..n + 1][..n] == s[..n];
      if s[n] !in seen {
        seen := seen + {s[n]};
        unique := unique + [s[n]];
      }
    }
    assert s[..|s|] == s;
  }

  predicate IsFirst(s: seq<string>, i: nat)
    requires i < |s|
  {
    forall k :: 0 <= k < i ==> s[k] != s[i]
  }

  // Nothing twice and nothing lost.
  lemma {:induction false} UniqueIsDistinct(s: seq<string>)
    ensures Distinct(UniqueOf(s)) && forall x :: x in s <==> x in UniqueOf(s)
  {
    if s != [] {
      UniqueIsDistinct(s[..|s| - 1]);
      assert s == s[..|s| - 1] + [s[|s| - 1]];
    }
  }

  // What is left are exactly the first occurrences, in order.
  lemma {:induction false} UniqueKeepsFirstOccurrences(s: seq<string>) returns (at: seq<nat>)
    ensures Selects(at, UniqueOf(s), s)
    ensures forall i :: 0 <= i < |s| ==> (i in at <==> IsFirst(s, i))
  {
    if s == [] {
      at := [];
    } else {
      hide Distinct;
      var n := |s| - 1;
      var before := UniqueKeepsFirstOccurrences(s[..n]);
      UniqueIsDistinct(s[..n]);
      assert forall i :: 0 <= i < n ==> IsFirst(s[..n], i) == IsFirst(s, i);
      LastIsFirst(s);
      at := if IsFirst(s, n) then before + [n] else before;
      assert n !in before by { assert forall k :: 0 <= k < |before| ==> before[k] < n; }
      assert Selects(at, UniqueOf(s), s) by { SelectsOneMore(before, UniqueOf(s[..n]), s, IsFirst(s, n)); }
    }
  }

  lemma LastIsFirst(s: seq<string>)
    requires s != []
    ensures IsFirst(s, |s| - 1) <==> s[|s| - 1] !in UniqueOf(s[..|s| - 1])
  {
    var n := |s| - 1;
    UniqueIsDistinct(s[..n]);
    assert forall k :: 0 <= k < n ==> s[k] == s[..n][k];
    assert IsFirst(s, n) <==> s[n] !in s[..n];
  }

  lemma {:induction false} DistinctIsFixed(s: seq<string>)
    requires Distinct(s)
    ensures UniqueOf(s) == s
  {
    if s != [] {
      DistinctIsFixed(s[..|s| - 1]);
      assert s == s[..|s| - 1] + [s[|s| - 1]];
    }
  }

  lemma {:induction false} UniqueOfPrefix(s: seq<string>, n: nat)
    requires n <= |s|
    ensures UniqueOf(s[..n]) <= UniqueOf(s)
  {
    if n < |s| {
      UniqueOfPrefix(s[..|s| - 1], n);
      assert s[..|s| - 1][..n] == s[..n];
    } else {
      assert s[..n] == s;
    }
  }

  // ---- one transform ----

  function LimitOf(arg: Arg): int {
    match arg
    case NoArg => -1
    case Whole(n) => n
    case Truncated(n) => n
    case Parsed(parsed) => if parsed.Some? then parsed.value else -1
    case OtherArg => -1
  }

  function OnList(t: Transform, l: seq<string>): seq<string> {
    if t.op.Unique? then UniqueOf(l)
    else if t.op.Limit? && 0 <= LimitOf(t.arg) < |l| then l[..LimitOf(t.arg)]
    else l
  }

  function OnText(lib: Library, op: Op, s: string): Value {
    match op
    case Trim => Text(TrimSpace(s))
    case Lower => Text(lib.lower(s))
    case Upper => Text(lib.upper(s))
    case CollapseSpace => Text(CollapseWS(s))
    case HTMLToText => Text(StripTags(s))
    case NormalizeURL => Text(if lib.normalizeURL(s).Some? then lib.normalizeURL(s).value else s)
    case ParseInt => if lib.parseInt(TrimSpace(s)).Some? then Int(lib.parseInt(TrimSpace(s)).value) else Text(s)
    case ParseFloat => if lib.parseFloat(TrimSpace(s)).Some? then Float(lib.parseFloat(TrimSpace(s)).value) else Text(s)
    case ParsePrice => if lib.findPrice(s).Some? then Float(lib.findPrice(s).value) else Text(s)
    case SHA256 => Text(lib.sha256(s))
    case _ => Text(s)
  }

  function Transformed(lib: Library, t: Transform, v: Value): Value {
    match v
    case Text(s) => OnText(lib, t.op, s)
    case List(l) => List(OnList(t, l))
    case _ => v
  }

  // What each transform makes of a text: where the library has no answer the text stays.
  ghost predicate TextTurns(lib: Library, op: Op, s: string, r: Value) {
    match op
    case Trim => r.Text? && TrimsTo(s, r.text)
    case CollapseSpace => r.Text? && exists t :: TrimsTo(s, t) && SqueezesTo(t, r.text)
    case HTMLToText => r.Text? && exists at :: Selects(at, r.text, s) && Outside(s, at)
    case Lower => r == Text(lib.lower(s))
    case Upper => r == Text(lib.upper(s))
    case SHA256 => r == Text(lib.sha256(s))
    case NormalizeURL => r == (match lib.normalizeURL(s) case Some(u) => Text(u) case None => Text(s))
    case ParseInt => exists t :: TrimsTo(s, t) && r == (match lib.parseInt(t) case Some(n) => Int(n) case None => Text(s))
    case ParseFloat => exists t :: TrimsTo(s, t) && r == (match lib.parseFloat(t) case Some(f) => Float(f) case None => Text(s))
    case ParsePrice => r == (match lib.findPrice(s) case Some(p) => Float(p) case None => Text(s))
    case _ => r == Text(s)
  }

  // And of a list: unique keeps the first occurrences, a limit within the list cuts it there.
  ghost predicate ListTurns(t: Transform, l: seq<string>, r: Value) {
    match t.op
    case Unique =>
      r.List? && exists at: seq<nat> :: Selects(at, r.list, l) && forall i :: 0 <= i < |l| ==> (i in at <==> l[i] !in l[..i])
    case Limit =>
      (match t.arg
       case Whole(n) => Cut(l, n, r)
       case Truncated(n) => Cut(l, n, r)
       case Parsed(Some(n)) => Cut(l, n, r)
       case _ => r == List(l))
    case _ => r == List(l)
  }

  ghost predicate Cut(l: seq<string>, n: int, r: Value) {
    if 0 <= n < |l| then r == List(l[..n]) else r == List(l)
  }

  // A transform only touches values of its own kind.
  ghost predicate Turns(lib: Library, t: Transform, v: Value, r: Value) {
    match v
    case Text(s) => TextTurns(lib, t.op, s, r)
    case List(l) => ListTurns(t, l, r)
    case _ => r == v
  }

  lemma TextIsTurned(lib: Library, op: Op, s: string)
    ensures TextTurns(lib, op, s, OnText(lib, op, s))
  {
    hide TrimSpace, CollapseWS, StripTags, TrimsTo, SqueezesTo, Selects, Outside;
    var _, _ := TrimSpaceIsSlice(s);
    CollapseWSKeepsTheRest(s);
    var at := StripTagsKeepsOutside(s);
  }

  lemma ListIsTurned(t: Transform, l: seq<string>)
    ensures ListTurns(t, l, List(OnList(t, l)))
  {
    hide Selects, UniqueOf;
    var at := UniqueKeepsFirstOccurrences(l);
    forall i | 0 <= i < |l| ensures IsFirst(l, i) <==> l[i] !in l[..i] {
      if l[i] in l[..i] {
        var k :| 0 <= k < i && l[..i][k] == l[i];
      } else {
        assert forall k :: 0 <= k < i ==> l[..i][k] == l[k];
      }
    }
  }

  method ApplyTransform(lib: Library, t: Transform, v: Value) returns (r: Value)
    ensures r == Transformed(lib, t, v) && Turns(lib, t, v, r)
  {
    hide TextTurns, ListTurns, UniqueOf;
    if v.Text? { TextIsTurned(lib, t.op, v.text); }
    if v.List? { ListIsTurned(t, v.list); }
    r := v;
    match t.op {
      case Unique =>
        if v.List? {
          var unique := UniqueStrings(v.list);
          r := List(unique);
        }
      case Limit =>
        if v.List? {
          var limit := LimitOf(t.arg);
          if limit >= 0 && limit < |v.list| {
            r := List(v.list[..limit]);
          }
        }
      case op =>
        if v.Text? {
          r := OnText(lib, op, v.text);
        }
    }
  }

  // ---- pipelines ----

  function Pipeline(lib: Library, ts: seq<Transform>, v: Value): Value {
    if ts == [] then v else Transformed(lib, ts[|ts| - 1], Pipeline(lib, ts[..|ts| - 1], v))
  }

  // One transform after the other, each on what the one before it gave.
  method ApplyTransforms(lib: Library, ts: seq<Transform>, v: Value) returns (r: Value, ghost stages: seq<Value>)
    ensures r == Pipeline(lib, ts, v)
    ensures |stages| == |ts| + 1 && stages[0] == v && stages[|ts|] == r
    ensures forall i :: 0 <= i < |ts| ==> Turns(lib, ts[i], stages[i], stages[i + 1])
  {
    hide Turns;
    r, stages := v, [v];
    for n := 0 to |ts|
      invariant r == Pipeline(lib, ts[..n], v)
      invariant |stages| == n + 1 && stages[0] == v && stages[n] == r
      invariant forall i :: 0 <= i < n ==> Turns(lib, ts[i], stages[i], stages[i + 1])
    {
      assert ts[..n + 1][..n] == ts[..n];
      r := ApplyTransform(lib, ts[n], r);
      stages := stages + [r];
    }
    assert ts[..|ts|] == ts;
  }

  lemma OnListSelects(t: Transform, l: seq<string>)
    ensures Subsequence(OnList(t, l), l)
    ensures Distinct(l) || t.op.Unique? ==> Distinct(OnList(t, l))
    ensures |OnList(t, l)| <= |l| && (t.op.Limit? && LimitOf(t.arg) >= 0 ==> |OnList(t, l)| <= LimitOf(t.arg))
  {
    if t.op.Unique? {
      var at := UniqueKeepsFirstOccurrences(l);
      UniqueIsDistinct(l);
      DistinctPositions(at, |l|);
    } else if t.op.Limit? && 0 <= LimitOf(t.arg) < |l| {
      PrefixIsSubsequence(l, LimitOf(t.arg));
    } else {
      SubsequenceOfItself(l);
    }
  }

  // Increasing positions below n are at most n many.
  lemma {:induction false} DistinctPositions(at: seq<nat>, n: nat)
    requires (forall i :: 0 <= i < |at| ==> at[i] < n) && (forall i, j :: 0 <= i < j < |at| ==> at[i] < at[j])
    ensures |at| <= n
  {
    if at != [] {
      DistinctPositions(at[..|at| - 1], at[|at| - 1]);
    }
  }

  lemma StillSelects(t: Transform, before: seq<string>, l: seq<string>)
    requires Subsequence(before, l)
    ensures Subsequence(OnList(t, before), l) && |OnList(t, before)| <= |before|
  {
    hide Subsequence, OnList;
    OnListSelects(t, before);
    SubsequenceIsTransitive(OnList(t, before), before, l);
  }

  // Whatever the transforms: a list stays a list, its elements keep their order and none is new.
  lemma {:induction false} ListsStayLists(lib: Library, ts: seq<Transform>, l: seq<string>)
    ensures var r := Pipeline(lib, ts, List(l)); r.List? && Subsequence(r.list, l) && |r.list| <= |l|
  {
    hide Subsequence, OnList, OnText;
    if ts == [] {
      SubsequenceOfItself(l);
    } else {
      var n := |ts| - 1;
      ListsStayLists(lib, ts[..n], l);
      StillSelects(ts[n], Pipeline(lib, ts[..n], List(l)).list, l);
    }
  }

  // One unique anywhere leaves no duplicates at the end, and one limit anywhere bounds the length.
  lemma {:induction false} EffectsLast(lib: Library, ts: seq<Transform>, l: seq<string>, k: nat)
    requires k < |ts|
    ensures var r := Pipeline(lib, ts, List(l));
            && r.List?
            && (ts[k].op.Unique? ==> Distinct(r.list))
            && (ts[k].op.Limit? && LimitOf(ts[k].arg) >= 0 ==> |r.list| <= LimitOf(ts[k].arg))
  {
    hide Subsequence, OnList, Distinct;
    var n := |ts| - 1;
    ListsStayLists(lib, ts[..n], l);
    OnListSelects(ts[n], Pipeline(lib, ts[..n], List(l)).list);
    if k < n {
      EffectsLast(lib, ts[..n], l, k);
    }
  }

  // Limit before unique gives the start of what unique before limit gives.
  lemma LimitThenUnique(lib: Library, l: seq<string>, n: nat)
    ensures var unique, limit := Transform(Unique, NoArg), Transform(Limit, Whole(n));
            var a, b := Pipeline(lib, [limit, unique], List(l)), Pipeline(lib, [unique, limit], List(l));
            a.List? && b.List? && a.list <= b.list
  {
    var unique, limit := Transform(Unique, NoArg), Transform(Limit, Whole(n));
    TwoTransforms(lib, limit, unique, List(l));
    TwoTransforms(lib, unique, limit, List(l));
    var m := if n < |l| then n else |l|;
    assert l[..|l|] == l;
    UniqueOfPrefix(l, m);
    OnListSelects(unique, l[..m]);
  }

  lemma TwoTransforms(lib: Library, t: Transform, u: Transform, v: Value)
    ensures Pipeline(lib, [t, u], v) == Transformed(lib, u, Transformed(lib, t, v))
  {
    assert [t, u][..1] == [t] && [t][..0] == [];
    assert Pipeline(lib, [t], v) == Transformed(lib, t, Pipeline(lib, [], v));
  }

  // A text pipeline that strips tags and then collapses leaves text that both leave alone.
  lemma StripAndCollapse(lib: Library, s: string)
    ensures var strip, collapse := Transform(HTMLToText, NoArg), Transform(CollapseSpace, NoArg);
            var r := Pipeline(lib, [strip, collapse], Text(s));
            r.Text? && Transformed(lib, strip, r) == r && Transformed(lib, collapse, r) == r
  {
    hide StripTags, CollapseWS;
    TwoTransforms(lib, Transform(HTMLToText, NoArg), Transform(CollapseSpace, NoArg), Text(s));
    StripThenCollapseIsClean(s);
  }

  // ---- choosing by index ----

  // The non-empty values of the matched elements, in order.
  function Filled(values: seq<string>): seq<string> {
    if values == [] then []
    else Filled(values[..|values| - 1]) + if values[|values| - 1] != "" then [values[|values| - 1]] else []
  }

  function Selected(results: seq<string>, index: Option<int>): Value {
    if index.None? then List(results)
    else
      var k := if index.value < 0 then |results| + index.value else index.value;
      if 0 <= k < |results| then Text(results[k]) else List(results)
  }

  // An extractor with multiple set; None is the missing index.
  method SelectMultiple(values: seq<string>, index: Option<int>) returns (r: Value)
    ensures r == Selected(Filled(values), index)
  {
    var results: seq<string> := [];
    for n := 0 to |values|
      invariant results == Filled(values[..n])
    {
      assert values[..n + 1][..n] == values[..n];
      if values[n] != "" {
        results := results + [values[n]];
      }
    }
    assert values[..|values|] == values;
    if index.Some? {
      var k := index.value;
      if k < 0 {
        k := |results| + k;
      }
      if 0 <= k < |results| {
        return Text(results[k]);
      }
    }
    r := List(results);
  }

  // An index chooses one value exactly when it lies within the list, counted from either end;
  // and then the non-negative and the negative index of a position choose the same. The
  // documentation calls any other index an error, but the whole list comes back.
  lemma SelectsExactlyInRange(results: seq<string>, k: int)
    ensures Selected(results, Some(k)).Text? <==> -|results| <= k < |results|
    ensures !(-|results| <= k < |results|) ==> Selected(results, Some(k)) == List(results)
    ensures 0 <= k < |results| ==>
              Selected(results, Some(k)) == Text(results[k]) && Selected(results, Some(k - |results|)) == Text(results[k])
  {
  }

  lemma OutOfRangeIsNoError()
    ensures Selected(["a", "b"], Some(2)) == List(["a", "b"]) && Selected(["a", "b"], Some(-3)) == List(["a", "b"])
  {
  }

  // What is kept are exactly the positions with a value, in order. So a chosen value is never
  // empty: it always reaches the transforms.
  lemma {:induction false} FilledKeepsTheRest(values: seq<string>) returns (at: seq<nat>)
    ensures Selects(at, Filled(values), values)
    ensures forall i :: 0 <= i < |values| ==> (i in at <==> values[i] != "")
  {
    if values == [] {
      at := [];
    } else {
      var n := |values| - 1;
      var before := FilledKeepsTheRest(values[..n]);
      assert Filled(values[..n]) + [] == Filled(values[..n]);
      at := if values[n] != "" then before + [n] else before;
      SelectsOneMore(before, Filled(values[..n]), values, values[n] != "");
      OneMoreFilled(before, values);
    }
  }

  lemma OneMoreFilled(before: seq<nat>, values: seq<string>)
    requires values != [] && forall k :: 0 <= k < |before| ==> before[k] < |values| - 1
    requires forall i :: 0 <= i < |values| - 1 ==> (i in before <==> values[..|values| - 1][i] != "")
    ensures var n := |values| - 1;
            var at := if values[n] != "" then before + [n] else before;
            forall i :: 0 <= i < |values| ==> (i in at <==> values[i] != "")
  {
    var n := |values| - 1;
    assert n !in before;
    assert forall i :: 0 <= i < n ==> values[..n][i] == values[i];
  }

  // extractField up to the conversion: nil and empty values skip the transforms.
  method ExtractField(lib: Library, raw: Value, ts: seq<Transform>) returns (r: Value, ghost stages: seq<Value>)
    ensures raw == Nil || raw == Text("") ==> r == Nil
    ensures raw != Nil && raw != Text("") ==> r == Pipeline(lib, ts, raw)
    ensures raw != Nil && raw != Text("") ==>
              && |stages| == |ts| + 1 && stages[0] == raw && stages[|ts|] == r
              && forall i :: 0 <= i < |ts| ==> Turns(lib, ts[i], stages[i], stages[i + 1])
    ensures raw.List? ==> r.List? && Subsequence(r.list, raw.list)
  {
    if raw == Nil || raw == Text("") {
      return Nil, [];
    }
    r, stages := ApplyTransforms(lib, ts, raw);
    if raw.List? {
      ListsStayLists(lib, ts, raw.list);
    }
  }
}
