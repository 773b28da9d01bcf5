/** Reordering worktrees by hand: the drop in the browser (dropWorktree in web/app.js), the
    positions kept per path (internal/server/colors.go) and the listing that follows them
    (handleListWorktrees in internal/server/server.go). */
module Reorder {
  import opened Sequences

  datatype Meta = Meta(color: string, name: string, order: int)

  datatype Tree = Tree(path: string, isMain: bool, color: string, displayName: string, order: int)

  const UNSET := Meta("", "", 0)

  function MetaOf(m: map<string, Meta>, path: string): Meta { if path in m then m[path] else UNSET }

  function Paths(trees: seq<Tree>): (r: seq<string>)
    ensures |r| == |trees| && forall i :: 0 <= i < |trees| ==> r[i] == trees[i].path
  {
    seq(|trees|, i requires 0 <= i < |trees| => trees[i].path)
  }

  // --------------------------------------------------------------------- drop

  method FindPath(trees: seq<Tree>, path: string) returns (i: int)
    ensures -1 <= i < |trees|
    ensures i >= 0 ==> trees[i].path == path && path !in Paths(trees[..i])
    ensures i < 0 ==> path !in Paths(trees)
  {
    for k := 0 to |trees|
      invariant path !in Paths(trees[..k])
    {
      if trees[k].path == path {
        return k;
      }
      assert Paths(trees[..k + 1]) == Paths(trees[..k]) + [trees[k].path];
    }
    assert trees[..|trees|] == trees;
    return -1;
  }

  predicate FirstAt(trees: seq<Tree>, path: string, i: int) {
    0 <= i < |trees| && trees[i].path == path && path !in Paths(trees[..i])
  }

  /** splice(f, 1) and then splice(t, 0, moved). */
  function Spliced<T>(trees: seq<T>, f: nat, t: nat): seq<T>
    requires f < |trees| && t < |trees|
  {
    var rest := trees[..f] + trees[f + 1..];
    rest[..t] + [trees[f]] + rest[t..]
  }

  lemma SplicedMoves<T>(trees: seq<T>, f: nat, t: nat)
    requires f < |trees| && t < |trees|
    ensures var r := Spliced(trees, f, t);
      && |r| == |trees| && r[t] == trees[f]
      && r[..t] + r[t + 1..] == trees[..f] + trees[f + 1..]
      && multiset(r) == multiset(trees)
  {
    hide *;
    var a, x, b := trees[..f], trees[f], trees[f + 1..];
    var rest := a + b;
    var c, d := rest[..t], rest[t..];
    assert rest == c + d;
    assert trees == a + [x] + b;
    InsertedAt(a, x, b);
    InsertedAt(c, x, d);
    SplicedIs(trees, f, t);
  }

  lemma SplicedIs<T>(trees: seq<T>, f: nat, t: nat)
    requires f < |trees| && t < |trees|
    ensures var rest := trees[..f] + trees[f + 1..];
      Spliced(trees, f, t) == rest[..t] + [trees[f]] + rest[t..]
  {
  }

  lemma InsertedAt<T>(a: seq<T>, x: T, b: seq<T>)
    ensures var r := a + [x] + b;
      r[..|a|] == a && r[|a|] == x && r[|a| + 1..] == b
    ensures multiset(a + [x] + b) == multiset(a + b) + multiset{x}
  {
  }

  /** The dragged row ends up where the target row was, and the others keep their order.
      Nothing happens without a dragged row, on itself, or if either row is not there. */
  method DropWorktree(trees: seq<Tree>, from: string, to: string) returns (r: seq<Tree>, moved: bool)
    ensures moved <==> from != "" && from != to && from in Paths(trees) && to in Paths(trees)
    ensures !moved ==> r == trees
    ensures multiset(r) == multiset(trees)
    ensures moved ==> exists f, t :: (
      && FirstAt(trees, from, f) && FirstAt(trees, to, t)
      && r == Spliced(trees, f, t)
      && |r| == |trees| && r[t] == trees[f]
      && r[..t] + r[t + 1..] == trees[..f] + trees[f + 1..])
  {
    hide Spliced;
    r, moved := trees, false;
    if from == "" || from == to {
      return;
    }
    var fi := FindPath(trees, from);
    var ti := FindPath(trees, to);
    if fi < 0 || ti < 0 {
      return;
    }
    r, moved := Spliced(trees, fi, ti), true;
    SplicedMoves(trees, fi, ti);
    assert Paths(trees)[fi] == from && Paths(trees)[ti] == to;
    assert FirstAt(trees, from, fi) && FirstAt(trees, to, ti);
  }

  // -------------------------------------------------------------------- store

  function Ordered(m: map<string, Meta>, paths: seq<string>): map<string, Meta> {
    if paths == [] then m
    else
      var i := |paths| - 1;
      var before := Ordered(m, paths[..i]);
      Updated(before, paths[i], MetaOf(before, paths[i]).(order := i + 1))
  }

  /** Metadata that says nothing is not kept. */
  function Updated(m: map<string, Meta>, path: string, to: Meta): map<string, Meta> {
    if to == UNSET then m - {path} else m[path := to]
  }

  lemma {:induction false} OrderedMeta(m: map<string, Meta>, paths: seq<string>, p: string)
    ensures var got, was := MetaOf(Ordered(m, paths), p), MetaOf(m, p);
      && got.color == was.color && got.name == was.name
      && (p !in paths ==> got == was)
    decreases |paths|
  {
    if paths != [] {
      var init, last := paths[..|paths| - 1], paths[|paths| - 1];
      assert paths == init + [last];
      OrderedMeta(m, init, p);
    }
  }

  /** The last mention of a path gives its position. */
  lemma {:induction false} OrderedAt(m: map<string, Meta>, paths: seq<string>, i: nat)
    requires i < |paths| && forall j :: i < j < |paths| ==> paths[j] != paths[i]
    ensures MetaOf(Ordered(m, paths), paths[i]).order == i + 1
    decreases |paths|
  {
    if i < |paths| - 1 {
      OrderedAt(m, paths[..|paths| - 1], i);
    }
  }

  class MetaStore {
    var m: map<string, Meta>

    constructor (saved: map<string, Meta>)
      ensures m == saved
    {
      m := saved;
    }

    method Get(path: string) returns (color: string, name: string, order: int)
      ensures Meta(color, name, order) == MetaOf(m, path)
    {
      if path in m {
        return m[path].color, m[path].name, m[path].order;
      }
      return "", "", 0;
    }

    method Update(path: string, fn: Meta -> Meta)
      modifies this
      ensures m == Updated(old(m), path, fn(MetaOf(old(m), path)))
      ensures forall p :: MetaOf(m, p) == if p == path then fn(MetaOf(old(m), p)) else MetaOf(old(m), p)
    {
      var meta := if path in m then m[path] else Meta("", "", 0);
      meta := fn(meta);
      m := m[path := meta];
      if meta.color == "" && meta.name == "" && meta.order == 0 {
        m := m - {path};
      }
    }

    method SetOrder(paths: seq<string>)
      modifies this
      ensures m == Ordered(old(m), paths)
    {
      for i := 0 to |paths|
        invariant m == Ordered(old(m), paths[..i])
      {
        assert paths[..i + 1][..i] == paths[..i];
        Update(paths[i], (meta: Meta) => meta.(order := i + 1));
      }
      assert paths[..|paths|] == paths;
    }

    method AnnotateInPlace(trees: array<Tree>, repoName: string)
      modifies trees
      ensures trees[..] == Annotated(old(trees[..]), m, repoName)
    {
      for i := 0 to trees.Length
        invariant forall j :: 0 <= j < i ==> trees[j] == Annotate(old(trees[j]), m, repoName)
        invariant forall j :: i <= j < trees.Length ==> trees[j] == old(trees[j])
      {
        var color, name, order := Get(trees[i].path);
        trees[i] := trees[i].(color := color, displayName := name, order := order);
        if trees[i].isMain && trees[i].displayName == "" {
          trees[i] := trees[i].(displayName := repoName);
        }
      }
    }

    /** The annotating loop and the sort, both in place; the library's stable sort is
        represented by StableSorted, which StableSortIsUnique shows to be the only one. */
    method ListWorktrees(trees: array<Tree>, repoName: string)
      modifies trees
      ensures trees[..] == Listing(old(trees[..]), m, repoName)
    {
      AnnotateInPlace(trees, repoName);
      var sorted := StableSorted(trees[..]);
      SortLength(trees[..]);
      forall i | 0 <= i < trees.Length {
        trees[i] := sorted[i];
      }
      assert trees[..] == sorted;
    }
  }

  // ------------------------------------------------------------------ listing

  function Annotate(t: Tree, m: map<string, Meta>, repoName: string): Tree {
    var a := MetaOf(m, t.path);
    t.(color := a.color, order := a.order,
       displayName := if t.isMain && a.name == "" then repoName else a.name)
  }

  function Annotated(trees: seq<Tree>, m: map<string, Meta>, repoName: string): (r: seq<Tree>)
    ensures |r| == |trees|
    ensures forall i :: 0 <= i < |trees| ==> r[i] == Annotate(trees[i], m, repoName)
  {
    seq(|trees|, i requires 0 <= i < |trees| => Annotate(trees[i], m, repoName))
  }

  /** Ordered entries before unordered ones, and by position among themselves. */
  predicate Before(a: Tree, b: Tree) {
    if (a.order == 0) != (b.order == 0) then b.order == 0 else a.order < b.order
  }

  predicate InOrder(s: seq<Tree>) { forall i, j :: 0 <= i < j < |s| ==> !Before(s[j], s[i]) }

  /** The entries with one position, in the order they come. */
  function With(s: seq<Tree>, order: int): seq<Tree> {
    if s == [] then []
    else With(s[..|s| - 1], order) + if s[|s| - 1].order == order then [s[|s| - 1]] else []
  }

  /** Sorted, and entries that tie keep their order. */
  ghost predicate IsStableSort(s: seq<Tree>, r: seq<Tree>) {
    InOrder(r) && forall k :: With(r, k) == With(s, k)
  }

  function Inserted(s: seq<Tree>, t: Tree): seq<Tree> {
    if s == [] || !Before(t, s[|s| - 1]) then s + [t]
    else Inserted(s[..|s| - 1], t) + [s[|s| - 1]]
  }

  function StableSorted(s: seq<Tree>): seq<Tree> {
    if s == [] then [] else Inserted(StableSorted(s[..|s| - 1]), s[|s| - 1])
  }

  function Listing(git: seq<Tree>, m: map<string, Meta>, repoName: string): seq<Tree> {
    StableSorted(Annotated(git, m, repoName))
  }

  lemma WithSnoc(s: seq<Tree>, t: Tree, k: int)
    ensures With(s + [t], k) == With(s, k) + if t.order == k then [t] else []
  {
    assert (s + [t])[..|s|] == s;
  }

  lemma {:induction false} InsertedWith(s: seq<Tree>, t: Tree, k: int)
    requires InOrder(s)
    ensures With(Inserted(s, t), k) == With(s, k) + if t.order == k then [t] else []
    decreases |s|
  {
    hide With;
    if s == [] || !Before(t, s[|s| - 1]) {
      WithSnoc(s, t, k);
    } else {
      var init, last := s[..|s| - 1], s[|s| - 1];
      assert s == init + [last];
      InsertedWith(init, t, k);
      WithSnoc(Inserted(init, t), last, k);
      WithSnoc(init, last, k);
    }
  }

  lemma {:induction false} InsertedSame(s: seq<Tree>, t: Tree)
    ensures multiset(Inserted(s, t)) == multiset(s) + multiset{t}
    decreases |s|
  {
    hide Before;
    if s != [] && Before(t, s[|s| - 1]) {
      assert s == s[..|s| - 1] + [s[|s| - 1]];
      InsertedSame(s[..|s| - 1], t);
    }
  }

  lemma {:induction false} InsertedInOrder(s: seq<Tree>, t: Tree)
    requires InOrder(s)
    ensures InOrder(Inserted(s, t))
    decreases |s|
  {
    if s != [] && Before(t, s[|s| - 1]) {
      var init, last := s[..|s| - 1], s[|s| - 1];
      assert s == init + [last];
      InsertedInOrder(init, t);
      InsertedSame(init, t);
      var r := Inserted(init, t);
      forall i | 0 <= i < |r| ensures !Before(last, r[i]) {
        InsertedMember(init, t, r, i);
      }
    }
  }

  lemma InsertedMember(s: seq<Tree>, t: Tree, r: seq<Tree>, i: nat)
    requires i < |r| && multiset(r) == multiset(s) + multiset{t}
    ensures r[i] == t || r[i] in s
  {
    assert r[i] in multiset(r);
  }

  lemma {:induction false} StableSortedIsStable(s: seq<Tree>)
    ensures IsStableSort(s, StableSorted(s)) && multiset(StableSorted(s)) == multiset(s)
    decreases |s|
  {
    if s != [] {
      var init, last := s[..|s| - 1], s[|s| - 1];
      assert s == init + [last];
      StableSortedIsStable(init);
      InsertedInOrder(StableSorted(init), last);
      InsertedSame(StableSorted(init), last);
      forall k ensures With(StableSorted(s), k) == With(s, k) {
        InsertedWith(StableSorted(init), last, k);
        WithSnoc(init, last, k);
      }
    }
  }

  lemma SortLength(s: seq<Tree>)
    ensures |StableSorted(s)| == |s|
  {
    StableSortedIsStable(s);
    assert |multiset(StableSorted(s))| == |multiset(s)|;
  }

  lemma {:induction false} WithMember(s: seq<Tree>, t: Tree)
    ensures t in With(s, t.order) <==> t in s
    ensures forall k, x :: x in With(s, k) ==> x.order == k
    decreases |s|
  {
    if s != [] {
      WithMember(s[..|s| - 1], t);
      assert s == s[..|s| - 1] + [s[|s| - 1]];
    }
  }

  lemma SameMembers(s: seq<Tree>, a: seq<Tree>, b: seq<Tree>, t: Tree)
    requires IsStableSort(s, a) && IsStableSort(s, b)
    ensures t in a <==> t in b
  {
    hide With;
    WithMember(a, t);
    WithMember(b, t);
    assert With(a, t.order) == With(s, t.order) == With(b, t.order);
  }

  lemma SameLast(s: seq<Tree>, a: seq<Tree>, b: seq<Tree>)
    requires IsStableSort(s, a) && IsStableSort(s, b) && a != []
    ensures b != [] && a[|a| - 1] == b[|b| - 1]
  {
    hide With;
    var x := a[|a| - 1];
    SameMembers(s, a, b, x);
    var y := b[|b| - 1];
    SameMembers(s, a, b, y);
    LastIsGreatest(a, y);
    LastIsGreatest(b, x);
    assert With(a, x.order) == With(s, x.order) == With(b, y.order);
    LastOfWith(a);
    LastOfWith(b);
  }

  lemma LastOfWith(s: seq<Tree>)
    requires s != []
    ensures var x := s[|s| - 1];
      With(s, x.order) != [] && With(s, x.order)[|With(s, x.order)| - 1] == x
  {
  }

  lemma WithEmpty(k: int)
    ensures With([], k) == []
  {
  }

  lemma WithInit(s: seq<Tree>, k: int)
    requires s != []
    ensures With(s, k) == With(s[..|s| - 1], k) + if s[|s| - 1].order == k then [s[|s| - 1]] else []
  {
  }

  /** There is only one stable sort. */
  lemma {:induction false} StableSortIsUnique(s: seq<Tree>, a: seq<Tree>, b: seq<Tree>)
    requires IsStableSort(s, a) && IsStableSort(s, b)
    ensures a == b
    decreases |a|
  {
    hide With;
    if a != [] {
      SameLast(s, a, b);
      var a', b' := a[..|a| - 1], b[..|b| - 1];
      forall k ensures With(a', k) == With(b', k) {
        assert With(a, k) == With(s, k) == With(b, k);
        WithInit(a, k);
        WithInit(b, k);
        var x := if a[|a| - 1].order == k then [a[|a| - 1]] else [];
        assert With(a', k) == (With(a', k) + x)[..|With(a, k)| - |x|];
        assert With(b', k) == (With(b', k) + x)[..|With(b, k)| - |x|];
      }
      StableSortIsUnique(a', a', b');
      assert a == a' + [a[|a| - 1]] && b == b' + [b[|b| - 1]];
    } else if b != [] {
      SameMembers(s, a, b, b[0]);
    }
  }

  lemma LastIsGreatest(s: seq<Tree>, t: Tree)
    requires InOrder(s) && t in s
    ensures !Before(s[|s| - 1], t)
  {
  }

  // ----------------------------------------------------------------- theorems

  lemma EndsUnordered(s: seq<Tree>)
    requires 0 < |With(s, 0)| <= |s| && s[|s| - |With(s, 0)|..] == With(s, 0)
    ensures s[|s| - 1].order == 0
  {
    WithMember(s, s[|s| - 1]);
    assert s[|s| - 1] == With(s, 0)[|With(s, 0)| - 1];
  }

  lemma {:induction false} UnorderedTail(r: seq<Tree>)
    requires InOrder(r)
    ensures |With(r, 0)| <= |r| && r[|r| - |With(r, 0)|..] == With(r, 0)
    ensures forall i :: 0 <= i < |r| - |With(r, 0)| ==> r[i].order != 0
    decreases |r|
  {
    hide With;
    WithEmpty(0);
    if r != [] {
      var init, last := r[..|r| - 1], r[|r| - 1];
      UnorderedTail(init);
      WithInit(r, 0);
      var tail := With(init, 0);
      assert r == init + [last];
      if last.order == 0 {
        assert r[|r| - |tail| - 1..] == init[|init| - |tail|..] + [last];
      } else if tail != [] {
        EndsUnordered(init);
        assert false;
      }
    }
  }

  lemma {:induction false} WithOnly(s: seq<Tree>, i: nat)
    requires i < |s| && forall j :: 0 <= j < |s| && j != i ==> s[j].order != s[i].order
    ensures With(s, s[i].order) == [s[i]]
    decreases |s|
  {
    if i < |s| - 1 {
      WithOnly(s[..|s| - 1], i);
    } else {
      WithNone(s[..i], s[i].order);
    }
  }

  lemma {:induction false} WithNone(s: seq<Tree>, k: int)
    requires forall t :: t in s ==> t.order != k
    ensures With(s, k) == []
    decreases |s|
  {
    if s != [] {
      WithNone(s[..|s| - 1], k);
    }
  }

  lemma {:induction false} WithTwo(s: seq<Tree>, i: nat, j: nat)
    requires i < j < |s| && s[i].order == s[j].order
    ensures |With(s, s[i].order)| >= 2
    decreases |s|
  {
    var init := s[..|s| - 1];
    if j < |s| - 1 {
      WithTwo(init, i, j);
    } else {
      WithMember(init, init[i]);
    }
  }

  lemma {:induction false} DistinctSize(s: seq<string>)
    requires Distinct(s)
    ensures |set x | x in s| == |s|
    decreases |s|
  {
    if s != [] {
      var init, last := s[..|s| - 1], s[|s| - 1];
      DistinctSize(init);
      assert (set x | x in s) == (set x | x in init) + {last};
    }
  }

  /** Entries at the distinct positions 1 to n are sorted into those positions. */
  lemma SortedIntoPlace(s: seq<Tree>, r: seq<Tree>, i: nat)
    requires IsStableSort(s, r) && |r| == |s| && i < |r|
    requires forall j :: 0 <= j < |s| ==> 1 <= s[j].order <= |s|
    requires forall j, k :: 0 <= j < k < |s| ==> s[j].order != s[k].order
    ensures r[i] in s && r[i].order == i + 1
  {
    hide With;
    forall t | t in r ensures t in s {
      WithMember(r, t);
      WithMember(s, t);
      assert With(r, t.order) == With(s, t.order);
    }
    forall j, k | 0 <= j < k < |r| ensures r[j].order < r[k].order {
      assert r[j] in r && r[k] in r;
      if r[j].order == r[k].order {
        var x :| 0 <= x < |s| && s[x] == r[j];
        WithOnly(s, x);
        assert With(r, r[j].order) == With(s, r[j].order);
        WithTwo(r, j, k);
        assert false;
      }
      assert !Before(r[k], r[j]);
    }
    forall j | 0 <= j < |r| ensures 1 <= r[j].order <= |r| {
      assert r[j] in r;
    }
    assert r[i] in r;
    Increasing(r, i);
  }

  lemma {:induction false} Increasing(r: seq<Tree>, i: nat)
    requires i < |r| && forall j :: 0 <= j < |r| ==> 1 <= r[j].order <= |r|
    requires forall j, k :: 0 <= j < k < |r| ==> r[j].order < r[k].order
    ensures r[i].order == i + 1
  {
    AtLeast(r, i);
    AtMost(r, i);
  }

  lemma {:induction false} AtLeast(r: seq<Tree>, i: nat)
    requires i < |r| && forall j :: 0 <= j < |r| ==> 1 <= r[j].order
    requires forall j, k :: 0 <= j < k < |r| ==> r[j].order < r[k].order
    ensures r[i].order >= i + 1
  {
    if i > 0 {
      AtLeast(r, i - 1);
    }
  }

  lemma {:induction false} AtMost(r: seq<Tree>, i: nat)
    requires i < |r| && forall j :: 0 <= j < |r| ==> r[j].order <= |r|
    requires forall j, k :: 0 <= j < k < |r| ==> r[j].order < r[k].order
    ensures r[i].order <= i + 1
    decreases |r| - i
  {
    if i + 1 < |r| {
      AtMost(r, i + 1);
    }
  }

  /** The listing is a permutation of the annotated worktrees: positioned ones first, by
      position, and the rest behind them in git's order. */
  lemma ListingOrder(git: seq<Tree>, m: map<string, Meta>, repoName: string)
    ensures var s, r := Annotated(git, m, repoName), Listing(git, m, repoName);
      var rest := With(s, 0);
      && multiset(r) == multiset(s) && InOrder(r) && |rest| <= |r|
      && r[|r| - |rest|..] == rest
      && forall i :: 0 <= i < |r| - |rest| ==> r[i].order != 0
  {
    hide With, StableSorted;
    var s := Annotated(git, m, repoName);
    StableSortedIsStable(s);
    assert With(StableSorted(s), 0) == With(s, 0);
    UnorderedTail(StableSorted(s));
  }

  lemma PositionOf(m: map<string, Meta>, paths: seq<string>, p: string)
    requires Distinct(paths) && p in paths
    ensures var i := MetaOf(Ordered(m, paths), p).order;
      1 <= i <= |paths| && paths[i - 1] == p
  {
    var i :| 0 <= i < |paths| && paths[i] == p;
    OrderedAt(m, paths, i);
  }

  /** Once the paths of a displayed order have been posted, listing the same worktrees, in
      whatever order git gives them, shows exactly that order. */
  lemma ReorderRoundTrip(git: seq<Tree>, shown: seq<Tree>, m: map<string, Meta>, repoName: string)
    requires Distinct(Paths(shown)) && Distinct(Paths(git))
    requires forall p :: p in Paths(git) <==> p in Paths(shown)
    ensures Paths(Listing(git, Ordered(m, Paths(shown)), repoName)) == Paths(shown)
  {
    hide With, StableSorted, Ordered, Distinct;
    var paths := Paths(shown);
    var m' := Ordered(m, paths);
    var s := Annotated(git, m', repoName);
    var r := StableSorted(s);
    SameSize(paths, Paths(git));
    forall j | 0 <= j < |s|
      ensures 1 <= s[j].order <= |s| && s[j].path == Paths(git)[j] == paths[s[j].order - 1]
    {
      assert Paths(git)[j] in paths;
      PositionOf(m, paths, s[j].path);
    }
    PositionsApart(git, s, paths);
    StableSortedIsStable(s);
    SortLength(s);
    forall i | 0 <= i < |r| ensures r[i].path == paths[i] {
      SortedIntoPlace(s, r, i);
    }
  }

  lemma SameSize(a: seq<string>, b: seq<string>)
    requires Distinct(a) && Distinct(b) && forall p :: p in b <==> p in a
    ensures |a| == |b|
  {
    DistinctSize(a);
    DistinctSize(b);
    assert (set p | p in a) == (set p | p in b);
  }

  /** Distinct paths are at distinct positions. */
  lemma PositionsApart(git: seq<Tree>, s: seq<Tree>, paths: seq<string>)
    requires Distinct(Paths(git)) && |s| == |git| == |paths|
    requires forall j :: 0 <= j < |s| ==>
      1 <= s[j].order <= |s| && s[j].path == Paths(git)[j] == paths[s[j].order - 1]
    ensures forall j, k :: 0 <= j < k < |s| ==> s[j].order != s[k].order
  {
    forall j, k | 0 <= j < k < |s| ensures s[j].order != s[k].order {
      assert Paths(git)[j] != Paths(git)[k];
    }
  }

  lemma SplicedPaths(trees: seq<Tree>, f: nat, t: nat)
    requires f < |trees| && t < |trees|
    ensures Paths(Spliced(trees, f, t)) == Spliced(Paths(trees), f, t)
  {
    var rest := trees[..f] + trees[f + 1..];
    assert Paths(rest) == Paths(trees)[..f] + Paths(trees)[f + 1..];
    assert Paths(rest[..t] + [trees[f]] + rest[t..]) == Paths(rest)[..t] + [Paths(trees)[f]] + Paths(rest)[t..];
  }

  /** Distinctness and membership depend only on how often each element occurs. */
  lemma SameElements(a: seq<string>, b: seq<string>)
    requires multiset(a) == multiset(b)
    ensures Distinct(a) ==> Distinct(b)
    ensures forall p :: p in a <==> p in b
  {
    forall p ensures p in a <==> p in b {
      assert p in multiset(a) <==> p in multiset(b);
    }
    if Distinct(a) && !Distinct(b) {
      var i, j :| 0 <= i < j < |b| && b[i] == b[j];
      OccursTwice(b, i, j);
      OccursOnce(a, b[i]);
      assert false;
    }
  }

  lemma OccursTwice(s: seq<string>, i: nat, j: nat)
    requires i < j < |s| && s[i] == s[j]
    ensures multiset(s)[s[i]] >= 2
  {
    assert s == s[..i] + [s[i]] + s[i + 1..j] + [s[j]] + s[j + 1..];
  }

  lemma {:induction false} OccursOnce(s: seq<string>, p: string)
    requires Distinct(s)
    ensures multiset(s)[p] <= 1
    decreases |s|
  {
    if s != [] {
      var init, last := s[..|s| - 1], s[|s| - 1];
      assert s == init + [last];
      OccursOnce(init, p);
      if p == last {
        assert p !in init;
      }
    }
  }

  /** The whole loop: whatever was listed, dragging a row and posting the outcome makes the
      next listing show exactly the dropped order. */
  lemma DropPostList(git: seq<Tree>, shown: seq<Tree>, f: nat, t: nat, m: map<string, Meta>, repoName: string)
    requires f < |shown| && t < |shown|
    requires Distinct(Paths(shown)) && Distinct(Paths(git))
    requires forall p :: p in Paths(git) <==> p in Paths(shown)
    ensures var dropped := Spliced(shown, f, t);
      Paths(Listing(git, Ordered(m, Paths(dropped)), repoName)) == Paths(dropped)
  {
    hide Distinct, Spliced, Listing, Ordered;
    SplicedPaths(shown, f, t);
    SplicedMoves(Paths(shown), f, t);
    SameElements(Paths(shown), Spliced(Paths(shown), f, t));
    ReorderRoundTrip(git, Spliced(shown, f, t), m, repoName);
  }
}
