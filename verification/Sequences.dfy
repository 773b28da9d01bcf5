/** Facts about sequences that several components share: bytes, concatenation of
    chunks, the tail a bounded buffer keeps, and in-order subsequences. */
module Sequences {

  newtype byte = x: int | 0 <= x < 256

  datatype Option<+T> = None | Some(value: T)

  ghost function Pick<T>(s: set<T>): (p: T)
    requires s != {}
    ensures p in s
  {
    var q :| q in s; q
  }

  lemma HasInteger(s: set<int>)
    requires s != {}
    ensures exists x: int :: x in s
  {
    var q: int := Pick(s);
    assert q in s;
  }

  predicate Distinct<T(==)>(s: seq<T>) { forall i, j :: 0 <= i < j < |s| ==> s[i] != s[j] }

  /** All chunks put end to end, in order. */
  function Flatten<T>(chunks: seq<seq<T>>): seq<T> {
    if chunks == [] then [] else Flatten(chunks[..|chunks| - 1]) + chunks[|chunks| - 1]
  }

  lemma FlattenSnoc<T>(chunks: seq<seq<T>>, c: seq<T>)
    ensures Flatten(chunks + [c]) == Flatten(chunks) + c
  {
    assert (chunks + [c])[..|chunks|] == chunks;
  }

  lemma {:induction false} FlattenConcat<T>(a: seq<seq<T>>, b: seq<seq<T>>)
    ensures Flatten(a + b) == Flatten(a) + Flatten(b)
    decreases |b|
  {
    if b == [] {
      assert a + b == a;
    } else {
      var init, last := b[..|b| - 1], b[|b| - 1];
      FlattenConcat(a, init);
      assert (a + b)[..|a + b| - 1] == a + init;
      assert (Flatten(a) + Flatten(init)) + last == Flatten(a) + (Flatten(init) + last);
    }
  }

  /** The last `n` elements, or everything when there are fewer. */
  function LastN<T>(s: seq<T>, n: nat): (r: seq<T>)
    ensures |r| == if |s| <= n then |s| else n
  {
    if |s| <= n then s else s[|s| - n..]
  }

  /** Trimming before an append loses nothing that trimming after it would keep. */
  lemma LastNAppend<T>(s: seq<T>, p: seq<T>, n: nat)
    ensures LastN(LastN(s, n) + p, n) == LastN(s + p, n)
  {
    var t := LastN(s, n);
    var d := |s| - |t|;
    assert s + p == s[..d] + (t + p);
  }

  lemma LastNConcat<T>(a: seq<T>, b: seq<T>, n: nat)
    ensures var shown := LastN(a, n) + b;
      shown == LastN(a + b, |shown|) && |LastN(a + b, n)| <= |shown|
  {
    var d := |a| - |LastN(a, n)|;
    assert a + b == a[..d] + (LastN(a, n) + b);
  }

  /** `a` can be obtained from `b` by leaving elements out. */
  predicate IsSubsequence<T(==)>(a: seq<T>, b: seq<T>)
    decreases |b|
  {
    a == [] ||
    (b != [] &&
     (IsSubsequence(a, b[..|b| - 1]) ||
      (a[|a| - 1] == b[|b| - 1] && IsSubsequence(a[..|a| - 1], b[..|b| - 1]))))
  }

  lemma SubsequenceSnoc<T>(a: seq<T>, b: seq<T>, x: T)
    requires IsSubsequence(a, b)
    ensures IsSubsequence(a, b + [x])
    ensures IsSubsequence(a + [x], b + [x])
  {
    assert (b + [x])[..|b|] == b;
    assert (a + [x])[..|a|] == a;
  }

  lemma {:induction false} SubsequenceRefl<T>(a: seq<T>)
    ensures IsSubsequence(a, a)
    decreases |a|
  {
    if a != [] {
      SubsequenceRefl(a[..|a| - 1]);
    }
  }
}
