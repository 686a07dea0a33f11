// The two regular-expression transforms on text.
module TextTransforms {
  import opened Subsequences

  // ---- html_to_text: <[^>]*> replaced by nothing, leftmost first ----

  // The position of the first c in s, or |s|.
  function IndexOf(s: string, c: char): (i: nat)
    ensures i <= |s|
  {
    if s == "" || s[0] == c then 0 else 1 + IndexOf(s[1..], c)
  }

  lemma {:induction false} IndexOfFinds(s: string, c: char)
    ensures var i := IndexOf(s, c); (forall k :: 0 <= k < i ==> s[k] != c) && (i < |s| ==> s[i] == c)
  {
    if s != "" && s[0] != c {
      IndexOfFinds(s[1..], c);
    }
  }

  function StripTags(s: string): string
    decreases |s|
  {
    var i := IndexOf(s, '<');
    var j := i + IndexOf(s[i..], '>');
    if j == |s| then s else s[..i] + StripTags(s[j + 1..])
  }

  lemma {:induction false} StripTagsByParts(s: string, i: nat, j: nat)
    requires i == IndexOf(s, '<') && j == i + IndexOf(s[i..], '>')
    ensures StripTags(s) == if j == |s| then s else s[..i] + StripTags(s[j + 1..])
  {
    hide IndexOf;
  }

  // No '<' is followed, anywhere later, by a '>'.
  ghost predicate TagFree(s: string) {
    forall i, j :: 0 <= i < j < |s| && s[i] == '<' ==> s[j] != '>'
  }

  lemma NoOpeningNoTag(a: string, b: string)
    requires (forall k :: 0 <= k < |a| ==> a[k] != '<') && TagFree(b)
    ensures TagFree(a + b)
  {
  }

  lemma NoClosingNoTag(s: string, i: nat)
    requires i <= |s| && (forall k :: 0 <= k < i ==> s[k] != '<') && (forall k :: 0 <= k < |s| - i ==> s[i..][k] != '>')
    ensures TagFree(s)
  {
    forall p, q | 0 <= p < q < |s| && s[p] == '<' ensures s[q] != '>' {
      assert s[q] == s[i..][q - i];
    }
  }

  lemma {:induction false} StripTagsLeavesNoTag(s: string)
    ensures TagFree(StripTags(s))
    decreases |s|
  {
    hide TagFree, IndexOf;
    var i := IndexOf(s, '<');
    var j := i + IndexOf(s[i..], '>');
    IndexOfFinds(s, '<');
    IndexOfFinds(s[i..], '>');
    StripTagsByParts(s, i, j);
    hide StripTags;
    if j == |s| {
      NoClosingNoTag(s, i);
    } else {
      StripTagsLeavesNoTag(s[j + 1..]);
      NoOpeningNoTag(s[..i], StripTags(s[j + 1..]));
    }
  }

  // Text is left alone exactly when it has no tag; hence stripping twice is stripping once.
  lemma StripTagsFixes(s: string)
    ensures StripTags(s) == s <==> TagFree(s)
    ensures StripTags(StripTags(s)) == StripTags(s)
  {
    StripTagsLeavesNoTag(s);
    TagFreeIsFixed(s);
    TagFreeIsFixed(StripTags(s));
  }

  lemma TagFreeIsFixed(s: string)
    ensures TagFree(s) ==> StripTags(s) == s
  {
    hide StripTags, IndexOf;
    var i := IndexOf(s, '<');
    var k := IndexOf(s[i..], '>');
    IndexOfFinds(s, '<');
    IndexOfFinds(s[i..], '>');
    StripTagsByParts(s, i, i + k);
    assert i + k < |s| ==> s[i..][k] == s[i + k] && s[i] == '<';
  }

  // What is around one tag survives, and the tag goes.
  lemma TagIsDropped(before: string, inside: string, after: string)
    requires '<' !in before && '>' !in inside
    ensures StripTags(before + "<" + inside + ">" + after) == before + StripTags(after)
  {
    var s := before + "<" + inside + ">" + after;
    FirstAt(s, '<', |before|);
    var rest := s[|before|..];
    assert rest == "<" + inside + ">" + after;
    FirstAt(rest, '>', 1 + |inside|);
    StripTagsByParts(s, |before|, |before| + 1 + |inside|);
    hide StripTags, IndexOf;
    assert s[..|before|] == before && s[|before| + 1 + |inside| + 1..] == after;
  }

  lemma FirstAt(s: string, c: char, i: nat)
    requires i < |s| && s[i] == c && forall k :: 0 <= k < i ==> s[k] != c
    ensures IndexOf(s, c) == i
  {
    IndexOfFinds(s, c);
  }

  // ---- collapse_ws: TrimSpace, then \s+ replaced by one blank ----

  // \s of the regular expressions.
  predicate IsBlank(c: char) { c == ' ' || c == '\t' || c == '\n' || c == '\r' || c == '\U{0C}' }

  // unicode.IsSpace: more than \s.
  predicate IsSpace(c: char) {
    IsBlank(c) || c == '\U{0B}' || c == '\U{85}' || c == '\U{A0}' || c == '\U{1680}' || '\U{2000}' <= c <= '\U{200A}'
    || c == '\U{2028}' || c == '\U{2029}' || c == '\U{202F}' || c == '\U{205F}' || c == '\U{3000}'
  }

  function TrimLeft(s: string): string {
    if s == "" || !IsSpace(s[0]) then s else TrimLeft(s[1..])
  }

  function TrimRight(s: string): string {
    if s == "" || !IsSpace(s[|s| - 1]) then s else TrimRight(s[..|s| - 1])
  }

  function TrimSpace(s: string): string { TrimRight(TrimLeft(s)) }

  // Scanning from the left: a run of blanks becomes one ' '.
  function Squeeze(s: string): string {
    if s == "" then ""
    else
      var n := |s| - 1;
      if !IsBlank(s[n]) then Squeeze(s[..n]) + [s[n]]
      else if n > 0 && IsBlank(s[n - 1]) then Squeeze(s[..n])
      else Squeeze(s[..n]) + " "
  }

  function CollapseWS(s: string): string { Squeeze(TrimSpace(s)) }

  predicate Trimmed(s: string) { s == "" || (!IsSpace(s[0]) && !IsSpace(s[|s| - 1])) }

  // The only blank is ' ', and never two in a row.
  predicate Squeezed(s: string) {
    (forall i :: 0 <= i < |s| && IsBlank(s[i]) ==> s[i] == ' ') && (forall i :: 0 < i < |s| ==> !(IsBlank(s[i - 1]) && IsBlank(s[i])))
  }

  // What the blanks separate.
  function Words(s: string): string {
    if s == "" then "" else Words(s[..|s| - 1]) + if IsBlank(s[|s| - 1]) then "" else [s[|s| - 1]]
  }

  lemma {:induction false} TrimLeftTrims(s: string)
    ensures TrimLeft(s) == "" || !IsSpace(TrimLeft(s)[0])
    ensures TrimLeft(s) != "" ==> TrimLeft(s)[|TrimLeft(s)| - 1] == s[|s| - 1]
  {
    if s != "" && IsSpace(s[0]) {
      TrimLeftTrims(s[1..]);
    }
  }

  lemma {:induction false} TrimRightTrims(s: string)
    ensures TrimRight(s) == "" || !IsSpace(TrimRight(s)[|TrimRight(s)| - 1])
    ensures TrimRight(s) != "" ==> TrimRight(s)[0] == s[0]
  {
    if s != "" && IsSpace(s[|s| - 1]) {
      TrimRightTrims(s[..|s| - 1]);
    }
  }

  lemma TrimSpaceTrims(s: string)
    ensures Trimmed(TrimSpace(s)) && (Trimmed(s) ==> TrimSpace(s) == s)
  {
    TrimLeftTrims(s);
    TrimRightTrims(TrimLeft(s));
  }

  // t is what stands between the spaces at the start and the end of s.
  ghost predicate TrimsTo(s: string, t: string) {
    exists i, j ::
      && 0 <= i <= j <= |s| && t == s[i..j]
      && (forall k :: 0 <= k < i || j <= k < |s| ==> IsSpace(s[k]))
      && (i < j ==> !IsSpace(s[i]) && !IsSpace(s[j - 1]))
  }

  // q keeps of s the characters that are no blanks and the first of each run of blanks, as ' '.
  ghost predicate SqueezesTo(s: string, q: string) {
    exists at: seq<nat> :: SqueezedAt(at, s, q)
  }

  ghost predicate SqueezedAt(at: seq<nat>, s: string, q: string) {
    && |at| == |q|
    && (forall k :: 0 <= k < |at| ==> at[k] < |s| && q[k] == if IsBlank(s[at[k]]) then ' ' else s[at[k]])
    && (forall k, l :: 0 <= k < l < |at| ==> at[k] < at[l])
    && (forall i :: 0 <= i < |s| ==> (i in at <==> LeadsRun(s, i)))
  }

  // The character is no blank, or the first of a run of blanks.
  predicate LeadsRun(s: string, i: int)
    requires 0 <= i < |s|
  {
    !IsBlank(s[i]) || i == 0 || !IsBlank(s[i - 1])
  }

  // The characters of s that are no spaces, in order.
  function NonSpaces(s: string): string {
    if s == "" then "" else NonSpaces(s[..|s| - 1]) + if IsSpace(s[|s| - 1]) then "" else [s[|s| - 1]]
  }

  lemma {:induction false} TrimLeftDrops(s: string) returns (i: nat)
    ensures i <= |s| && TrimLeft(s) == s[i..]
    ensures forall k :: 0 <= k < i ==> IsSpace(s[k])
  {
    if s == "" || !IsSpace(s[0]) {
      i := 0;
    } else {
      var n := TrimLeftDrops(s[1..]);
      i := n + 1;
      assert forall k :: 0 < k < i ==> s[k] == s[1..][k - 1];
    }
  }

  lemma {:induction false} TrimRightDrops(s: string) returns (j: nat)
    ensures j <= |s| && TrimRight(s) == s[..j]
    ensures forall k :: j <= k < |s| ==> IsSpace(s[k])
  {
    if s == "" || !IsSpace(s[|s| - 1]) {
      j := |s|;
      assert s[..j] == s;
    } else {
      j := TrimRightDrops(s[..|s| - 1]);
      assert s[..|s| - 1][..j] == s[..j];
      assert forall k :: j <= k < |s| - 1 ==> s[k] == s[..|s| - 1][k];
    }
  }

  // Trimming drops the spaces at both ends and nothing else.
  lemma TrimSpaceIsSlice(s: string) returns (i: nat, j: nat)
    ensures i <= j <= |s| && TrimSpace(s) == s[i..j]
    ensures forall k :: 0 <= k < i || j <= k < |s| ==> IsSpace(s[k])
    ensures i < j ==> !IsSpace(s[i]) && !IsSpace(s[j - 1])
    ensures TrimsTo(s, TrimSpace(s))
  {
    i := TrimLeftDrops(s);
    var n := TrimRightDrops(TrimLeft(s));
    j := i + n;
    assert s[i..][..n] == s[i..j];
    assert forall k :: j <= k < |s| ==> s[k] == s[i..][k - i];
    TrimSpaceTrims(s);
  }

  // A run of blanks leaves its first, as ' '; all other characters stay, in order.
  lemma {:induction false} SqueezeKeepsFirstBlanks(s: string) returns (at: seq<nat>)
    ensures SqueezedAt(at, s, Squeeze(s))
  {
    if s == "" {
      at := [];
    } else {
      var n := |s| - 1;
      var before := SqueezeKeepsFirstBlanks(s[..n]);
      var kept := LeadsRun(s, n);
      at := if kept then before + [n] else before;
      SqueezedOneMore(before, s, Squeeze(s[..n]), kept);
    }
  }

  lemma SqueezedOneMore(before: seq<nat>, s: string, q: string, kept: bool)
    requires s != "" && SqueezedAt(before, s[..|s| - 1], q) && kept == LeadsRun(s, |s| - 1)
    ensures var n := |s| - 1;
            if kept then SqueezedAt(before + [n], s, q + [if IsBlank(s[n]) then ' ' else s[n]]) else SqueezedAt(before, s, q)
  {
    hide IsBlank, LeadsRun;
    var n := |s| - 1;
    var at := if kept then before + [n] else before;
    assert n !in before;
    assert (before + [n])[|before|] == n;
    forall i | 0 <= i < |s| ensures i in at <==> LeadsRun(s, i) {
      if i < n { LeadsInFront(s, i); }
    }
  }

  lemma LeadsInFront(s: string, i: nat)
    requires i < |s| - 1
    ensures LeadsRun(s[..|s| - 1], i) == LeadsRun(s, i)
  {
  }

  lemma {:induction false} NonSpacesOfParts(a: string, b: string)
    ensures NonSpaces(a + b) == NonSpaces(a) + NonSpaces(b)
  {
    if b == "" {
      assert a + b == a;
    } else {
      NonSpacesOfParts(a, b[..|b| - 1]);
      assert (a + b)[..|a + b| - 1] == a + b[..|b| - 1];
    }
  }

  lemma {:induction false} OnlySpaces(s: string)
    requires forall k :: 0 <= k < |s| ==> IsSpace(s[k])
    ensures NonSpaces(s) == ""
  {
    if s != "" {
      OnlySpaces(s[..|s| - 1]);
    }
  }

  lemma TrimKeepsNonSpaces(s: string)
    ensures NonSpaces(TrimSpace(s)) == NonSpaces(s)
  {
    hide TrimSpace, IsSpace, TrimsTo;
    var i, j := TrimSpaceIsSlice(s);
    OnlySpaces(s[..i]);
    OnlySpaces(s[j..]);
    NonSpacesOfParts(s[..i], s[i..j]);
    NonSpacesOfParts(s[..i] + s[i..j], s[j..]);
    assert s[..i] + s[i..j] + s[j..] == s;
  }

  lemma {:induction false} SqueezeKeepsNonSpaces(s: string)
    ensures NonSpaces(Squeeze(s)) == NonSpaces(s)
  {
    if s != "" {
      var n := |s| - 1;
      SqueezeKeepsNonSpaces(s[..n]);
      var q := Squeeze(s[..n]);
      assert (q + [s[n]])[..|q|] == q && (q + " ")[..|q|] == q;
    }
  }

  // Collapsing trims, then squeezes; both say exactly which characters stay.
  lemma CollapseWSKeepsTheRest(s: string)
    ensures exists t :: TrimsTo(s, t) && SqueezesTo(t, CollapseWS(s))
    ensures NonSpaces(CollapseWS(s)) == NonSpaces(s)
  {
    hide TrimSpace, Squeeze, TrimsTo, SqueezedAt, NonSpaces;
    var i, j := TrimSpaceIsSlice(s);
    var at := SqueezeKeepsFirstBlanks(TrimSpace(s));
    SqueezeKeepsNonSpaces(TrimSpace(s));
    TrimKeepsNonSpaces(s);
  }

  // Squeezing keeps a first or last character that is no blank.
  lemma {:induction false} SqueezeKeepsEnds(s: string)
    requires s != ""
    ensures var q := Squeeze(s);
            && q != ""
            && (if IsBlank(s[|s| - 1]) then q[|q| - 1] == ' ' else q[|q| - 1] == s[|s| - 1])
            && (!IsBlank(s[0]) ==> q[0] == s[0])
  {
    if |s| > 1 {
      SqueezeKeepsEnds(s[..|s| - 1]);
    }
  }

  lemma {:induction false} SqueezeSqueezes(s: string)
    ensures Squeezed(Squeeze(s))
  {
    if s != "" {
      SqueezeSqueezes(s[..|s| - 1]);
      if |s| > 1 { SqueezeKeepsEnds(s[..|s| - 1]); }
    }
  }

  lemma {:induction false} SqueezedIsFixed(s: string)
    requires Squeezed(s)
    ensures Squeeze(s) == s
  {
    if s != "" {
      SqueezedIsFixed(s[..|s| - 1]);
      assert s == s[..|s| - 1] + [s[|s| - 1]];
    }
  }

  lemma {:induction false} SqueezeKeepsWords(s: string)
    ensures Words(Squeeze(s)) == Words(s)
  {
    if s != "" {
      var n := |s| - 1;
      SqueezeKeepsWords(s[..n]);
      var q := Squeeze(s[..n]);
      assert (q + [s[n]])[..|q|] == q && (q + " ")[..|q|] == q;
    }
  }

  // The result has no space at its ends and only single blanks inside, nothing else is lost, and
  // collapsing again changes nothing.
  lemma CollapseWSCollapses(s: string)
    ensures Trimmed(CollapseWS(s)) && Squeezed(CollapseWS(s))
    ensures Words(CollapseWS(s)) == Words(TrimSpace(s)) && NonSpaces(CollapseWS(s)) == NonSpaces(s)
    ensures CollapseWS(s) == s <==> Trimmed(s) && Squeezed(s)
    ensures CollapseWS(CollapseWS(s)) == CollapseWS(s)
  {
    hide TrimSpace, Squeeze, Squeezed, Words, NonSpaces, TrimsTo, SqueezesTo;
    CollapseWSKeepsTheRest(s);
    var t := TrimSpace(s);
    TrimSpaceTrims(s);
    SqueezeSqueezes(t);
    SqueezeKeepsWords(t);
    if t != "" { SqueezeKeepsEnds(t); } else { assert Squeeze("") == "" by { SqueezeNothing(); } }
    CleanIsFixed(CollapseWS(s));
    if Trimmed(s) && Squeezed(s) { CleanIsFixed(s); }
  }

  lemma SqueezeNothing()
    ensures Squeeze("") == ""
  {
  }

  lemma CleanIsFixed(s: string)
    requires Trimmed(s) && Squeezed(s)
    ensures CollapseWS(s) == s
  {
    TrimSpaceTrims(s);
    SqueezedIsFixed(s);
  }

  // ---- the two together ----

  // Text without tags gets none by collapsing.
  lemma {:induction false} SqueezeKeepsTagFree(s: string)
    requires TagFree(s)
    ensures TagFree(Squeeze(s)) && ('<' in Squeeze(s) ==> '<' in s)
  {
    if s != "" {
      SqueezeKeepsTagFree(s[..|s| - 1]);
    }
  }

  lemma {:induction false} TrimKeepsTagFree(s: string)
    requires TagFree(s)
    ensures TagFree(TrimLeft(s)) && TagFree(TrimRight(s))
  {
    if s != "" {
      TrimKeepsTagFree(s[1..]);
      TrimKeepsTagFree(s[..|s| - 1]);
    }
  }

  // Stripping first and collapsing then gives text that both leave alone.
  lemma StripThenCollapseIsClean(s: string)
    ensures var clean := CollapseWS(StripTags(s)); StripTags(clean) == clean && CollapseWS(clean) == clean
  {
    StripTagsLeavesNoTag(s);
    TrimKeepsTagFree(StripTags(s));
    TrimKeepsTagFree(TrimLeft(StripTags(s)));
    SqueezeKeepsTagFree(TrimSpace(StripTags(s)));
    StripTagsFixes(CollapseWS(StripTags(s)));
    CollapseWSCollapses(StripTags(s));
  }

  // ---- stripping after collapsing ----

  // The character at k belongs to a tag: a '<' opens at or before it, no '>' comes between, and
  // one comes at or after it.
  ghost predicate InTag(s: string, k: nat)
    requires k < |s|
  {
    && (exists i :: 0 <= i <= k && s[i] == '<' && '>' !in s[i..k])
    && '>' in s[k..]
  }

  // at lists the positions outside of tags.
  ghost predicate Outside(s: string, at: seq<nat>) { forall k :: 0 <= k < |s| ==> (k in at <==> !InTag(s, k)) }

  // The first tag of s goes from i to j.
  predicate FirstTag(s: string, i: nat, j: nat) {
    && i < j < |s| && s[i] == '<' && s[j] == '>'
    && (forall m :: 0 <= m < i ==> s[m] != '<') && (forall m :: i <= m < j ==> s[m] != '>')
  }

  lemma OutsideByParts(s: string, i: nat, j: nat, rest: seq<nat>)
    requires FirstTag(s, i, j) && Outside(s[j + 1..], rest)
    ensures Outside(s, Shifted(i, j + 1, rest))
  {
    hide InTag, Shifted;
    forall k | 0 <= k < |s| ensures k in Shifted(i, j + 1, rest) <==> !InTag(s, k) {
      InTagByParts(s, i, j, k);
      ShiftedHas(i, j + 1, rest, k);
    }
  }

  lemma TagFound(s: string, i: nat, j: nat)
    requires i == IndexOf(s, '<') && j == i + IndexOf(s[i..], '>') && j < |s|
    ensures FirstTag(s, i, j)
  {
    hide IndexOf;
    IndexOfFinds(s, '<');
    IndexOfFinds(s[i..], '>');
    assert s[i..][j - i] == s[j];
    assert forall m :: i <= m < j ==> s[m] == s[i..][m - i];
  }

  lemma AllOutside(s: string)
    requires var i := IndexOf(s, '<'); i + IndexOf(s[i..], '>') == |s|
    ensures Outside(s, Shifted(|s|, |s|, []))
  {
    hide IndexOf, InTag, Shifted;
    IndexOfFinds(s, '<');
    IndexOfFinds(s[IndexOf(s, '<')..], '>');
    forall k | 0 <= k < |s| ensures k in Shifted(|s|, |s|, []) && !InTag(s, k) {
      ShiftedHas(|s|, |s|, [], k);
      NoTagOutside(s, IndexOf(s, '<'), k);
    }
  }

  lemma InOrder(s: string, i: nat, j: nat)
    requires FirstTag(s, i, j)
    ensures i < j < |s|
  {
  }

  // Stripping keeps exactly the characters outside of tags, in order.
  lemma {:induction false} StripTagsKeepsOutside(s: string) returns (at: seq<nat>)
    ensures Selects(at, StripTags(s), s) && Outside(s, at)
    decreases |s|
  {
    hide IndexOf, Outside, Selects, FirstTag, Shifted, StripTags;
    var i := IndexOf(s, '<');
    var j := i + IndexOf(s[i..], '>');
    StripTagsByParts(s, i, j);
    if j == |s| {
      at := Shifted(|s|, |s|, []);
      SelectsAll(s);
      AllOutside(s);
    } else {
      TagFound(s, i, j);
      InOrder(s, i, j);
      var rest := StripTagsKeepsOutside(s[j + 1..]);
      at := Shifted(i, j + 1, rest);
      OutsideByParts(s, i, j, rest);
      KeptByParts(s, i, j, rest, StripTags(s[j + 1..]));
    }
  }

  lemma KeptByParts(s: string, i: nat, j: nat, rest: seq<nat>, r: string)
    requires i < j < |s| && Selects(rest, r, s[j + 1..])
    ensures Selects(Shifted(i, j + 1, rest), s[..i] + r, s)
  {
    hide Selects, Shifted;
    SelectsAroundGap(s[..i], s[i..j + 1], rest, r, s[j + 1..]);
    assert s == s[..i] + s[i..j + 1] + s[j + 1..];
  }

  lemma SelectsAll(s: string)
    ensures Selects(Shifted(|s|, |s|, []), s, s)
  {
  }

  lemma NoTagOutside(s: string, i: nat, k: nat)
    requires i <= |s| && k < |s| && (forall m :: 0 <= m < i ==> s[m] != '<') && (forall m :: 0 <= m < |s| - i ==> s[i..][m] != '>')
    ensures !InTag(s, k)
  {
    if m :| 0 <= m <= k && s[m] == '<' {
      assert forall n :: k <= n < |s| ==> s[n] == s[i..][n - i];
    }
  }

  lemma TagCloses(s: string, m: nat, j: nat, k: nat)
    requires m <= j < k <= |s| && s[j] == '>'
    ensures '>' in s[m..k]
  {
    assert s[m..k][j - m] == '>';
  }

  // With the first tag from i to j: nothing before it is in a tag, all of it is, and what follows
  // is as if it stood alone.
  lemma InTagByParts(s: string, i: nat, j: nat, k: nat)
    requires FirstTag(s, i, j) && k < |s|
    ensures InTag(s, k) <==> i <= k && (k > j ==> InTag(s[j + 1..], k - j - 1))
  {
    if i <= k <= j {
      assert s[i] == '<' && '>' !in s[i..k];
      assert s[k..][j - k] == '>';
    } else if k > j {
      var rest, n := s[j + 1..], k - j - 1;
      assert rest[n..] == s[k..];
      if m :| 0 <= m <= k && s[m] == '<' && '>' !in s[m..k] {
        if m <= j { TagCloses(s, m, j, k); }
        assert rest[m - j - 1] == '<' && rest[m - j - 1..n] == s[m..k];
      }
      if m :| 0 <= m <= n && rest[m] == '<' && '>' !in rest[m..n] {
        assert s[m + j + 1] == '<' && s[m + j + 1..k] == rest[m..n];
      }
    }
  }

  // i and j are neighbours once the tags are gone.
  ghost predicate Meet(t: string, i: nat, j: nat) {
    i < j < |t| && !InTag(t, i) && !InTag(t, j) && forall k :: i < k < j ==> InTag(t, k)
  }

  // Outside of tags no blanks meet, and no space comes first or last.
  ghost predicate TagsAreApart(t: string) {
    && (forall i, j :: 0 <= i < j && Meet(t, i, j) ==> !(IsBlank(t[i]) && IsBlank(t[j])))
    && (forall i :: 0 <= i < |t| && !InTag(t, i) && IsSpace(t[i]) ==>
          (exists k :: 0 <= k < i && !InTag(t, k)) && (exists k :: i < k < |t| && !InTag(t, k)))
  }

  lemma StrippedIsClean(t: string, at: seq<nat>, r: string)
    requires Squeezed(t) && Selects(at, r, t) && Outside(t, at)
    requires TagsAreApart(t)
    ensures Trimmed(r) && Squeezed(r)
  {
    hide InTag;
    forall n | 0 < n < |r| ensures !(IsBlank(r[n - 1]) && IsBlank(r[n])) {
      KeptNeighboursMeet(t, at, r, n);
    }
    if r != "" {
      NothingBeforeFirst(t, at, r);
    }
  }

  lemma KeptNeighboursMeet(t: string, at: seq<nat>, r: string, n: nat)
    requires Selects(at, r, t) && Outside(t, at) && 0 < n < |r|
    ensures Meet(t, at[n - 1], at[n])
  {
    hide InTag;
    assert at[n - 1] in at && at[n] in at;
    forall k | at[n - 1] < k < at[n] ensures InTag(t, k) {
      NotBetween(at, n, k);
    }
  }

  lemma NothingBeforeFirst(t: string, at: seq<nat>, r: string)
    requires Selects(at, r, t) && Outside(t, at) && r != "" && TagsAreApart(t)
    ensures !IsSpace(r[0]) && !IsSpace(r[|r| - 1])
  {
    hide InTag, IsSpace, Meet;
    var n := |at| - 1;
    assert at[0] in at && at[n] in at;
    assert forall k :: 0 <= k < at[0] ==> k !in at;
    assert forall k :: at[n] < k < |t| ==> k !in at;
  }

  lemma CleanIsApart(t: string, at: seq<nat>, r: string)
    requires Selects(at, r, t) && Outside(t, at)
    requires Trimmed(r) && Squeezed(r)
    ensures TagsAreApart(t)
  {
    hide InTag, IsSpace;
    forall i, j | 0 <= i < j && Meet(t, i, j) ensures !(IsBlank(t[i]) && IsBlank(t[j])) {
      var a :| 0 <= a < |at| && at[a] == i;
      var b :| 0 <= b < |at| && at[b] == j;
      Neighbours(at, a, b);
      assert r[b - 1] == t[i] && r[b] == t[j];
    }
    forall i | 0 <= i < |t| && !InTag(t, i) && IsSpace(t[i])
      ensures (exists k :: 0 <= k < i && !InTag(t, k)) && (exists k :: i < k < |t| && !InTag(t, k))
    {
      var a :| 0 <= a < |at| && at[a] == i;
      assert at[0] in at && at[|at| - 1] in at && r[0] == t[at[0]] && r[|at| - 1] == t[at[|at| - 1]];
      assert 0 < a < |at| - 1;
    }
  }

  // Stripping a collapsed text leaves it collapsed exactly when no two blanks meet where a tag was
  // and no space is left at an end.
  lemma CollapseThenStripIsClean(s: string)
    ensures var t := CollapseWS(s); CollapseWS(StripTags(t)) == StripTags(t) <==> TagsAreApart(t)
  {
    hide CollapseWS, StripTags, TagsAreApart, InTag, Trimmed, Squeezed;
    var t := CollapseWS(s);
    var r := StripTags(t);
    var at := StripTagsKeepsOutside(t);
    CollapseWSCollapses(s);
    CollapseWSCollapses(r);
    if TagsAreApart(t) { StrippedIsClean(t, at, r); }
    if Trimmed(r) && Squeezed(r) { CleanIsApart(t, at, r); }
  }

  // A tag between two blanks leaves both.
  lemma CollapseThenStripIsNotClean()
    ensures var s := StripTags(CollapseWS("x <> x")); s == "x  x" && CollapseWS(s) != s
  {
    hide TrimLeft, TrimRight, Squeeze, StripTags, IndexOf, Words;
    CleanIsFixed("x <> x");
    TagIsDropped("x ", "", " x");
    assert "x " + "<" + "" + ">" + " x" == "x <> x";
    TagFreeIsFixed(" x");
    var t := "x  x";
    assert IsBlank(t[1]) && IsBlank(t[2]);
    CollapseWSCollapses(t);
  }
}
