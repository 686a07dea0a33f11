module Subsequences {
  ghost predicate Distinct<T>(s: seq<T>) { forall i, j :: 0 <= i < j < |s| ==> s[i] != s[j] }

  // at lists, in increasing order, the positions of t that make up s.
  ghost predicate Selects<T>(at: seq<nat>, s: seq<T>, t: seq<T>) {
    && |at| == |s|
    && (forall i :: 0 <= i < |at| ==> at[i] < |t| && t[at[i]] == s[i])
    && (forall i, j :: 0 <= i < j < |at| ==> at[i] < at[j])
  }

  // s is t with some elements left out, the order kept.
  ghost predicate Subsequence<T>(s: seq<T>, t: seq<T>) {
    exists at :: Selects(at, s, t)
  }

  lemma SubsequenceGrows<T>(s: seq<T>, t: seq<T>, x: T)
    requires Subsequence(s, t)
    ensures Subsequence(s, t + [x]) && Subsequence(s + [x], t + [x])
  {
    var at: seq<nat> :| Selects(at, s, t);
    assert Selects(at, s, t + [x]);
    assert Selects(at + [|t|], s + [x], t + [x]);
  }

  lemma SelectsOneMore<T>(at: seq<nat>, u: seq<T>, s: seq<T>, last: bool)
    requires s != [] && Selects(at, u, s[..|s| - 1])
    ensures if last then Selects(at + [|s| - 1], u + [s[|s| - 1]], s) else Selects(at, u, s)
  {
  }

  // Whether k is among the positions, when the next one may be added to those before it.
  lemma OneMorePosition<T>(at: seq<nat>, u: seq<T>, s: seq<T>, last: bool, k: nat)
    requires s != [] && k < |s| && Selects(at, u, s[..|s| - 1])
    ensures k in (if last then at + [|s| - 1] else at) <==> if k < |s| - 1 then k in at else last
  {
    assert |s| - 1 !in at;
  }

  lemma SelectsNothing<T>(t: seq<T>)
    ensures Selects([], [], t)
  {
  }

  lemma EmptySubsequence<T>(t: seq<T>)
    ensures Subsequence([], t)
  {
    assert Selects([], [], t);
  }

  lemma SubsequenceOfItself<T>(t: seq<T>)
    ensures Subsequence(t, t)
  {
    assert Selects(seq(|t|, i => i), t, t);
  }

  lemma PrefixIsSubsequence<T>(t: seq<T>, n: nat)
    requires n <= |t|
    ensures Subsequence(t[..n], t)
  {
    assert Selects(seq(n, i => i), t[..n], t);
  }

  lemma SubsequenceIsTransitive<T>(r: seq<T>, s: seq<T>, t: seq<T>)
    requires Subsequence(r, s) && Subsequence(s, t)
    ensures Subsequence(r, t)
  {
    var a: seq<nat> :| Selects(a, r, s);
    var b: seq<nat> :| Selects(b, s, t);
    var at := seq(|a|, i requires 0 <= i < |a| => b[a[i]]);
    forall i, j | 0 <= i < j < |at| ensures at[i] < at[j] {
      assert a[i] < a[j];
    }
    assert Selects(at, r, t);
  }

  // The positions below n, then the given ones moved up by skip.
  function Shifted(n: nat, skip: nat, at: seq<nat>): seq<nat> {
    seq(n + |at|, i requires 0 <= i < n + |at| => if i < n then i else skip + at[i - n])
  }

  lemma ShiftedHas(n: nat, skip: nat, at: seq<nat>, k: nat)
    requires n <= skip
    ensures k in Shifted(n, skip, at) <==> k < n || (k >= skip && k - skip in at)
  {
    var all := Shifted(n, skip, at);
    if k < n { assert all[k] == k; }
    if k >= skip && k - skip in at {
      var i :| 0 <= i < |at| && at[i] == k - skip;
      assert all[n + i] == k;
    }
  }

  lemma SelectsAroundGap<T>(start: seq<T>, gap: seq<T>, at: seq<nat>, s: seq<T>, t: seq<T>)
    requires Selects(at, s, t)
    ensures Selects(Shifted(|start|, |start| + |gap|, at), start + s, start + gap + t)
  {
  }

  lemma NotBetween(at: seq<nat>, n: nat, k: nat)
    requires 0 < n < |at| && at[n - 1] < k < at[n] && forall i, j :: 0 <= i < j < |at| ==> at[i] < at[j]
    ensures k !in at
  {
  }

  lemma Neighbours(at: seq<nat>, a: nat, b: nat)
    requires a < b < |at| && forall i, j :: 0 <= i < j < |at| ==> at[i] < at[j]
    requires forall k :: at[a] < k < at[b] ==> k !in at
    ensures b == a + 1
  {
    var next := at[a + 1];
    assert next in at;
  }
}
