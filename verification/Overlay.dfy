/** Overlaying configured commands (mergeCommands in internal/config/config.go) and the
    name table the server keeps of the result (New in internal/server/server.go). */
module Overlay {
  import opened Sequences

  /** A launcher: its name, and the rest of what is configured for it. */
  datatype Command = Command(name: string, kind: string, icon: string, args: seq<string>)

  /** The last position of a name, or -1. */
  function LastIndex(s: seq<Command>, name: string): (i: int)
    ensures -1 <= i < |s|
    ensures i >= 0 ==> s[i].name == name
    ensures forall j :: i < j < |s| ==> s[j].name != name
  {
    if s == [] then -1
    else if s[|s| - 1].name == name then |s| - 1
    else LastIndex(s[..|s| - 1], name)
  }

  predicate Has(s: seq<Command>, name: string) { exists i :: 0 <= i < |s| && s[i].name == name }

  function Upsert(s: seq<Command>, c: Command): seq<Command> {
    var i := LastIndex(s, c.name);
    if i < 0 then s + [c] else s[i := c]
  }

  function Merged(base: seq<Command>, overrides: seq<Command>): seq<Command> {
    if overrides == [] then base
    else Upsert(Merged(base, overrides[..|overrides| - 1]), overrides[|overrides| - 1])
  }

  /** What a name stands for when later entries win. */
  function Lookup(s: seq<Command>, name: string): Option<Command> {
    var i := LastIndex(s, name);
    if i < 0 then None else Some(s[i])
  }

  method MergeCommands(base: seq<Command>, overrides: seq<Command>) returns (out: seq<Command>)
    ensures out == Merged(base, overrides)
  {
    var idx: map<string, int> := map[];
    out := base;
    for i := 0 to |out|
      invariant out == base
      invariant forall n :: n in idx <==> Has(out[..i], n)
      invariant forall n :: n in idx ==> idx[n] == LastIndex(out[..i], n)
    {
      assert out[..i + 1][..i] == out[..i];
      HasSnoc(out[..i], out[i]);
      assert out[..i + 1] == out[..i] + [out[i]];
      idx := idx[out[i].name := i];
    }
    assert out[..|out|] == out;
    for k := 0 to |overrides|
      invariant out == Merged(base, overrides[..k])
      invariant forall n :: n in idx <==> Has(out, n)
      invariant forall n :: n in idx ==> idx[n] == LastIndex(out, n)
    {
      var cmd := overrides[k];
      assert overrides[..k + 1][..k] == overrides[..k];
      UpsertIndex(out, cmd);
      if cmd.name in idx {
        out := out[idx[cmd.name] := cmd];
      } else {
        HasSnoc(out, cmd);
        idx := idx[cmd.name := |out|];
        out := out + [cmd];
      }
    }
    assert overrides[..|overrides|] == overrides;
  }

  lemma HasSnoc(s: seq<Command>, c: Command)
    ensures forall n :: Has(s + [c], n) <==> n == c.name || Has(s, n)
  {
    forall n | Has(s, n) ensures Has(s + [c], n) {
      var i :| 0 <= i < |s| && s[i].name == n;
      assert (s + [c])[i].name == n;
    }
    assert (s + [c])[|s|].name == c.name;
  }

  lemma LastIndexIs(s: seq<Command>, name: string, i: int)
    requires -1 <= i < |s|
    requires i >= 0 ==> s[i].name == name
    requires forall j :: i < j < |s| ==> s[j].name != name
    ensures LastIndex(s, name) == i
  {
  }

  lemma UpsertIndexOf(s: seq<Command>, c: Command, n: string)
    ensures LastIndex(Upsert(s, c), n) ==
      if n != c.name then LastIndex(s, n)
      else if LastIndex(s, n) < 0 then |s| else LastIndex(s, n)
  {
    hide LastIndex;
    var i, r := LastIndex(s, c.name), Upsert(s, c);
    if n != c.name {
      LastIndexIs(r, n, LastIndex(s, n));
    } else {
      LastIndexIs(r, n, if i < 0 then |s| else i);
    }
  }

  /** An upsert moves no name, and adds its own at the end if it is new. */
  lemma UpsertIndex(s: seq<Command>, c: Command)
    ensures var r := Upsert(s, c);
      && (Has(s, c.name) <==> LastIndex(s, c.name) >= 0)
      && (forall n :: n != c.name ==> LastIndex(r, n) == LastIndex(s, n))
      && LastIndex(r, c.name) == (if Has(s, c.name) then LastIndex(s, c.name) else |s|)
      && (forall n :: Has(r, n) <==> n == c.name || Has(s, n))
  {
    hide Has, LastIndex, Upsert;
    var r := Upsert(s, c);
    forall n ensures n != c.name ==> LastIndex(r, n) == LastIndex(s, n)
      ensures Has(r, n) <==> n == c.name || Has(s, n)
    {
      UpsertIndexOf(s, c, n);
      HasIff(r, n);
      HasIff(s, n);
    }
    HasIff(s, c.name);
    UpsertIndexOf(s, c, c.name);
  }

  lemma HasIff(s: seq<Command>, n: string)
    ensures Has(s, n) <==> LastIndex(s, n) >= 0
  {
  }

  lemma UpsertLookup(s: seq<Command>, c: Command, n: string)
    ensures Lookup(Upsert(s, c), n) == if n == c.name then Some(c) else Lookup(s, n)
  {
    UpsertIndex(s, c);
  }

  /** The overlay means the same as putting the overrides behind the base. */
  lemma {:induction false} MergeRefinesConcatenation(base: seq<Command>, overrides: seq<Command>, n: string)
    ensures Lookup(Merged(base, overrides), n) == Lookup(base + overrides, n)
    decreases |overrides|
  {
    if overrides == [] {
      assert base + overrides == base;
    } else {
      var init, c := overrides[..|overrides| - 1], overrides[|overrides| - 1];
      MergeRefinesConcatenation(base, init, n);
      UpsertLookup(Merged(base, init), c, n);
      assert (base + overrides)[..|base + overrides| - 1] == base + init;
    }
  }

  lemma {:induction false} MergeKeepsName(base: seq<Command>, overrides: seq<Command>, n: string)
    requires LastIndex(base, n) >= 0
    ensures |base| <= |Merged(base, overrides)|
    ensures LastIndex(Merged(base, overrides), n) == LastIndex(base, n)
    decreases |overrides|
  {
    hide LastIndex;
    if overrides != [] {
      MergeKeepsName(base, overrides[..|overrides| - 1], n);
      UpsertIndexOf(Merged(base, overrides[..|overrides| - 1]), overrides[|overrides| - 1], n);
    }
  }

  /** The base keeps its names and their order; each base entry stays as it is unless it is
      the last of its name and overridden, and then becomes the last override of it. */
  lemma {:induction false} MergeKeepsBaseOrder(base: seq<Command>, overrides: seq<Command>, i: nat)
    requires i < |base|
    ensures |base| <= |Merged(base, overrides)|
    ensures var n := base[i].name;
      Merged(base, overrides)[i] ==
        if LastIndex(base, n) == i && LastIndex(overrides, n) >= 0
        then overrides[LastIndex(overrides, n)] else base[i]
    decreases |overrides|
  {
    if overrides != [] {
      var init, c := overrides[..|overrides| - 1], overrides[|overrides| - 1];
      MergeKeepsBaseOrder(base, init, i);
      MergeKeepsName(base, init, base[i].name);
    }
  }

  lemma {:induction false} MergeHas(base: seq<Command>, overrides: seq<Command>, n: string)
    ensures Has(Merged(base, overrides), n) <==> Has(base, n) || Has(overrides, n)
    decreases |overrides|
  {
    hide Has, LastIndex, Upsert;
    if overrides == [] {
      HasIff(overrides, n);
    } else {
      var init, c := overrides[..|overrides| - 1], overrides[|overrides| - 1];
      MergeHas(base, init, n);
      UpsertIndex(Merged(base, init), c);
      assert overrides == init + [c];
      HasSnoc(init, c);
    }
  }

  /** No name is repeated that the base did not repeat, and exactly the names of both are
      there. */
  lemma {:induction false} MergeAddsNoDuplicates(base: seq<Command>, overrides: seq<Command>)
    ensures var r := Merged(base, overrides);
      && |base| <= |r|
      && (forall i, j :: 0 <= i < j < |r| && |base| <= j ==> r[i].name != r[j].name)
      && (forall n :: Has(r, n) <==> Has(base, n) || Has(overrides, n))
    decreases |overrides|
  {
    hide Has, LastIndex;
    if overrides != [] {
      MergeAddsNoDuplicates(base, overrides[..|overrides| - 1]);
    }
    forall n ensures Has(Merged(base, overrides), n) <==> Has(base, n) || Has(overrides, n) {
      MergeHas(base, overrides, n);
    }
  }

  lemma UpsertTwice(s: seq<Command>, x: Command, y: Command)
    requires x.name == y.name
    ensures Upsert(Upsert(s, x), y) == Upsert(s, y)
  {
    UpsertIndex(s, x);
    HasIff(s, x.name);
  }

  /** Upserts of different names commute if one of the names is already there. */
  lemma UpsertCommutes(s: seq<Command>, x: Command, y: Command)
    requires x.name != y.name && Has(s, y.name)
    ensures Upsert(Upsert(s, x), y) == Upsert(Upsert(s, y), x)
  {
    UpsertIndex(s, x);
    UpsertIndex(s, y);
    HasIff(s, x.name);
    HasIff(s, y.name);
  }

  lemma MergeSnoc(a: seq<Command>, b: seq<Command>, c: Command)
    ensures Merged(a, b + [c]) == Upsert(Merged(a, b), c)
  {
    assert (b + [c])[..|b|] == b;
  }

  lemma {:induction false} MergeUpsert(a: seq<Command>, b: seq<Command>, c: Command)
    ensures Merged(a, Upsert(b, c)) == Upsert(Merged(a, b), c)
    decreases |b|
  {
    hide LastIndex, Merged, Has;
    var i := LastIndex(b, c.name);
    if i < 0 {
      MergeSnoc(a, b, c);
    } else {
      var init, x := b[..|b| - 1], b[|b| - 1];
      assert b == init + [x];
      MergeSnoc(a, init, x);
      if i == |b| - 1 {
        assert b[i := c] == init + [c];
        MergeSnoc(a, init, c);
        UpsertTwice(Merged(a, init), x, c);
      } else {
        LastIndexIs(init, c.name, i);
        assert b[i := c] == Upsert(init, c) + [x];
        MergeSnoc(a, Upsert(init, c), x);
        MergeUpsert(a, init, c);
        MergeAddsNoDuplicates(a, init);
        HasIff(init, c.name);
        UpsertCommutes(Merged(a, init), x, c);
      }
    }
  }

  /** Global, project and local overlays can be folded in either way. */
  lemma {:induction false} MergeAssociative(a: seq<Command>, b: seq<Command>, c: seq<Command>)
    ensures Merged(Merged(a, b), c) == Merged(a, Merged(b, c))
    decreases |c|
  {
    if c != [] {
      var init, x := c[..|c| - 1], c[|c| - 1];
      MergeAssociative(a, b, init);
      MergeUpsert(a, Merged(b, init), x);
    }
  }

  /** The server's table of commands: later entries replace earlier ones. */
  method CommandTable(commands: seq<Command>) returns (t: map<string, Command>)
    ensures forall n :: (if n in t then Some(t[n]) else None) == Lookup(commands, n)
  {
    t := map[];
    for i := 0 to |commands|
      invariant forall n :: (if n in t then Some(t[n]) else None) == Lookup(commands[..i], n)
    {
      assert commands[..i + 1][..i] == commands[..i];
      t := t[commands[i].name := commands[i]];
    }
    assert commands[..|commands|] == commands;
  }
}
