/** Reading `git worktree list --porcelain` (List in internal/worktree/worktree.go): the
    line scanner, the parsing loop, and the printed form it is meant to undo. Text is a
    sequence of bytes; whether a directory can be reached is a parameter. */
module Porcelain {
  import opened Sequences

  // --------------------------------------------------------------- line scanner

  /** bufio.MaxScanTokenSize. */
  const MAX_TOKEN := 65536

  function LineEnd(text: string): (i: nat)
    ensures i <= |text| && '\n' !in text[..i]
    ensures i < |text| ==> text[i] == '\n'
  {
    if text == "" || text[0] == '\n' then 0 else 1 + LineEnd(text[1..])
  }

  function Chomp(line: string): string {
    if line != "" && line[|line| - 1] == '\r' then line[..|line| - 1] else line
  }

  /** The tokens of bufio.ScanLines; scanning stops at a line that overflows the buffer. */
  function ScanLines(text: string): seq<string> {
    if text == "" then []
    else
      var i := LineEnd(text);
      if i >= MAX_TOKEN then []
      else if i == |text| then [Chomp(text)]
      else [Chomp(text[..i])] + ScanLines(text[i + 1..])
  }

  // ------------------------------------------------------------------- records

  datatype Head = Bare | Detached(commit: string) | OnBranch(commit: string, ref: string)

  /** A worktree as git prints it; the options are the reasons given. */
  datatype Record = Record(path: string, head: Head, locked: Option<string>, prunable: Option<string>)

  datatype Worktree = Worktree(path: string, name: string, head: string, branch: string,
                               bare: bool, detached: bool, locked: bool, isMain: bool)

  const NOTHING := Worktree("", "", "", "", false, false, false, false)

  function TrimPrefix(s: string, prefix: string): string {
    if prefix <= s then s[|prefix|..] else s
  }

  function LastSlash(path: string): (i: int)
    ensures -1 <= i < |path|
    ensures '/' !in path[i + 1..] && (i >= 0 ==> path[i] == '/')
  {
    if path == "" then -1
    else if path[|path| - 1] == '/' then |path| - 1
    else LastSlash(path[..|path| - 1])
  }

  function TrimSlashes(path: string): string {
    if path != "" && path[|path| - 1] == '/' then TrimSlashes(path[..|path| - 1]) else path
  }

  /** filepath.Base. */
  function Base(path: string): (r: string)
    ensures r != "" && (r == "/" || '/' !in r)
  {
    if path == "" then "."
    else
      var p := TrimSlashes(path);
      if p == "" then "/"
      else
        BaseNotEmpty(path);
        p[LastSlash(p) + 1..]
  }

  lemma BaseNotEmpty(path: string)
    ensures var p := TrimSlashes(path); p == "" || (p[|p| - 1] != '/' && LastSlash(p) < |p| - 1)
  {
    var p := TrimSlashes(path);
    TrimSlashesEnd(path);
  }

  lemma {:induction false} TrimSlashesEnd(path: string)
    ensures var p := TrimSlashes(path); p == "" || p[|p| - 1] != '/'
    decreases |path|
  {
    if path != "" && path[|path| - 1] == '/' {
      TrimSlashesEnd(path[..|path| - 1]);
    }
  }

  // ------------------------------------------------------------------- parsing

  datatype State = State(trees: seq<Worktree>, cur: Worktree)

  function Flushed(s: State, reachable: string -> bool): State {
    State(if s.cur.path != "" && reachable(s.cur.path)
          then s.trees + [s.cur.(name := Base(s.cur.path))] else s.trees, NOTHING)
  }

  function Read(s: State, line: string, reachable: string -> bool): State {
    if line == "" then Flushed(s, reachable)
    else if "worktree " <= line then s.(cur := s.cur.(path := TrimPrefix(line, "worktree ")))
    else if "HEAD " <= line then s.(cur := s.cur.(head := TrimPrefix(line, "HEAD ")))
    else if "branch " <= line then
      s.(cur := s.cur.(branch := TrimPrefix(TrimPrefix(line, "branch "), "refs/heads/")))
    else if line == "detached" then s.(cur := s.cur.(detached := true))
    else if line == "bare" then s.(cur := s.cur.(bare := true))
    else if "locked" <= line then s.(cur := s.cur.(locked := true))
    else s
  }

  function ReadAll(s: State, lines: seq<string>, reachable: string -> bool): State {
    if lines == [] then s
    else Read(ReadAll(s, lines[..|lines| - 1], reachable), lines[|lines| - 1], reachable)
  }

  function Parsed(text: string, reachable: string -> bool): seq<Worktree> {
    var s := Flushed(ReadAll(State([], NOTHING), ScanLines(text), reachable), reachable);
    if s.trees == [] then [] else s.trees[0 := s.trees[0].(isMain := true)]
  }

  method Flush(trees: seq<Worktree>, cur: Worktree, reachable: string -> bool)
    returns (trees': seq<Worktree>, cur': Worktree)
    ensures State(trees', cur') == Flushed(State(trees, cur), reachable)
  {
    trees' := trees;
    if cur.path != "" && reachable(cur.path) {
      trees' := trees + [cur.(name := Base(cur.path))];
    }
    cur' := NOTHING;
  }

  method List(text: string, reachable: string -> bool) returns (trees: seq<Worktree>)
    ensures trees == Parsed(text, reachable)
  {
    trees := [];
    var cur := NOTHING;
    var lines := ScanLines(text);
    for i := 0 to |lines|
      invariant State(trees, cur) == ReadAll(State([], NOTHING), lines[..i], reachable)
    {
      assert lines[..i + 1][..i] == lines[..i];
      var line := lines[i];
      if line == "" {
        trees, cur := Flush(trees, cur, reachable);
      } else if "worktree " <= line {
        cur := cur.(path := TrimPrefix(line, "worktree "));
      } else if "HEAD " <= line {
        cur := cur.(head := TrimPrefix(line, "HEAD "));
      } else if "branch " <= line {
        cur := cur.(branch := TrimPrefix(TrimPrefix(line, "branch "), "refs/heads/"));
      } else if line == "detached" {
        cur := cur.(detached := true);
      } else if line == "bare" {
        cur := cur.(bare := true);
      } else if "locked" <= line {
        cur := cur.(locked := true);
      }
    }
    assert lines[..|lines|] == lines;
    trees, cur := Flush(trees, cur, reachable);
    if |trees| > 0 {
      trees := trees[0 := trees[0].(isMain := true)];
    }
  }

  // ------------------------------------------------------------------ printing

  function HeadLines(h: Head): seq<string> {
    match h
    case Bare => ["bare"]
    case Detached(commit) => ["HEAD " + commit, "detached"]
    case OnBranch(commit, ref) => ["HEAD " + commit, "branch " + ref]
  }

  function NoteLines(note: string, reason: Option<string>): seq<string> {
    match reason
    case None => []
    case Some(why) => [if why == "" then note else note + " " + why]
  }

  function RecordLines(r: Record): seq<string> {
    ["worktree " + r.path] + HeadLines(r.head)
      + NoteLines("locked", r.locked) + NoteLines("prunable", r.prunable)
  }

  /** Every record with the blank line that ends it. */
  function AllLines(rs: seq<Record>): seq<string> {
    if rs == [] then []
    else AllLines(rs[..|rs| - 1]) + RecordLines(rs[|rs| - 1]) + [""]
  }

  function Joined(lines: seq<string>): string {
    if lines == [] then "" else Joined(lines[..|lines| - 1]) + lines[|lines| - 1] + "\n"
  }

  function Printed(rs: seq<Record>): string { Joined(AllLines(rs)) }

  /** What a record says, once found reachable. */
  function View(r: Record): Worktree {
    var t := NOTHING.(path := r.path, locked := r.locked.Some?);
    match r.head
    case Bare => t.(bare := true)
    case Detached(commit) => t.(head := commit, detached := true)
    case OnBranch(commit, ref) => t.(head := commit, branch := TrimPrefix(ref, "refs/heads/"))
  }

  function Views(rs: seq<Record>, reachable: string -> bool): seq<Worktree> {
    if rs == [] then []
    else
      var r := rs[|rs| - 1];
      Views(rs[..|rs| - 1], reachable) +
        if reachable(r.path) then [View(r).(name := Base(r.path))] else []
  }

  /** A line the scanner gives back as it is. */
  predicate LineOk(s: string) {
    '\n' !in s && |s| < MAX_TOKEN && (s == "" || s[|s| - 1] != '\r')
  }

  predicate WellFormed(r: Record) {
    r.path != "" && forall l :: l in RecordLines(r) ==> LineOk(l)
  }

  // ---------------------------------------------------------------- round trip

  lemma {:induction false} LineEndAt(line: string, rest: string)
    requires '\n' !in line
    ensures LineEnd(line + "\n" + rest) == |line|
    decreases |line|
  {
    var text := line + "\n" + rest;
    if line != "" {
      assert line[0] in line && text[0] == line[0];
      assert text[1..] == line[1..] + "\n" + rest;
      LineEndAt(line[1..], rest);
    }
  }

  lemma {:induction false} JoinedCons(line: string, lines: seq<string>)
    ensures Joined([line] + lines) == line + "\n" + Joined(lines)
    decreases |lines|
  {
    if lines == [] {
      assert [line] + lines == [line];
      assert [line][..0] == [];
    } else {
      assert ([line] + lines)[..|lines|] == [line] + lines[..|lines| - 1];
      JoinedCons(line, lines[..|lines| - 1]);
    }
  }

  /** The scanner undoes joining. */
  lemma {:induction false} ScanJoined(lines: seq<string>)
    requires forall l :: l in lines ==> LineOk(l)
    ensures ScanLines(Joined(lines)) == lines
    decreases |lines|
  {
    if lines != [] {
      var line, rest := lines[0], lines[1..];
      assert lines == [line] + rest && line in lines;
      JoinedCons(line, rest);
      LineEndAt(line, Joined(rest));
      var text := Joined(lines);
      assert text[..|line|] == line && text[|line| + 1..] == Joined(rest);
      ScanJoined(rest);
    }
  }

  lemma {:induction false} ReadConcat(s: State, a: seq<string>, b: seq<string>, reachable: string -> bool)
    ensures ReadAll(s, a + b, reachable) == ReadAll(ReadAll(s, a, reachable), b, reachable)
    decreases |b|
  {
    if b == [] {
      assert a + b == a;
    } else {
      assert (a + b)[..|a + b| - 1] == a + b[..|b| - 1];
      ReadConcat(s, a, b[..|b| - 1], reachable);
    }
  }

  lemma ReadOne(s: State, line: string, reachable: string -> bool)
    ensures ReadAll(s, [line], reachable) == Read(s, line, reachable)
  {
    assert [line][..0] == [];
  }

  lemma ReadHead(s: State, h: Head, reachable: string -> bool)
    ensures ReadAll(s, HeadLines(h), reachable) ==
      match h
      case Bare => s.(cur := s.cur.(bare := true))
      case Detached(commit) => s.(cur := s.cur.(head := commit, detached := true))
      case OnBranch(commit, ref) =>
        s.(cur := s.cur.(head := commit, branch := TrimPrefix(ref, "refs/heads/")))
  {
    match h {
      case Bare => {
        ReadOne(s, "bare", reachable);
        FlagLines(s, reachable);
      }
      case Detached(commit) => {
        var l := "HEAD " + commit;
        ReadConcat(s, [l], ["detached"], reachable);
        ReadOne(s, l, reachable);
        HeadLine(s, commit, reachable);
        ReadOne(Read(s, l, reachable), "detached", reachable);
        FlagLines(Read(s, l, reachable), reachable);
        assert [l] + ["detached"] == [l, "detached"];
      }
      case OnBranch(commit, ref) => {
        var l, b := "HEAD " + commit, "branch " + ref;
        ReadConcat(s, [l], [b], reachable);
        assert [l] + [b] == [l, b];
        ReadOne(s, l, reachable);
        ReadOne(Read(s, l, reachable), b, reachable);
        HeadLine(s, commit, reachable);
        BranchLine(Read(s, l, reachable), ref, reachable);
      }
    }
  }

  lemma HeadLine(s: State, commit: string, reachable: string -> bool)
    ensures Read(s, "HEAD " + commit, reachable) == s.(cur := s.cur.(head := commit))
  {
    var l := "HEAD " + commit;
    assert l[0] == 'H' && l[|"HEAD "|..] == commit;
  }

  lemma FlagLines(s: State, reachable: string -> bool)
    ensures Read(s, "bare", reachable) == s.(cur := s.cur.(bare := true))
    ensures Read(s, "detached", reachable) == s.(cur := s.cur.(detached := true))
  {
    var b, d := "bare", "detached";
    assert b[0] == 'b' && |b| == 4 && d[0] == 'd' && |d| == 8;
  }

  lemma BranchLine(s: State, ref: string, reachable: string -> bool)
    ensures Read(s, "branch " + ref, reachable) ==
            s.(cur := s.cur.(branch := TrimPrefix(ref, "refs/heads/")))
  {
    var l := "branch " + ref;
    assert l[0] == 'b' && l[|"branch "|..] == ref;
  }

  lemma PathLine(s: State, path: string, reachable: string -> bool)
    ensures Read(s, "worktree " + path, reachable) == s.(cur := s.cur.(path := path))
  {
    var l := "worktree " + path;
    assert l[0] == 'w' && l[|"worktree "|..] == path;
  }

  lemma ReadNote(s: State, note: string, reason: Option<string>, reachable: string -> bool)
    requires note == "locked" || note == "prunable"
    ensures ReadAll(s, NoteLines(note, reason), reachable) ==
            if note == "locked" && reason.Some? then s.(cur := s.cur.(locked := true)) else s
  {
    if reason.Some? {
      var l := NoteLines(note, reason)[0];
      ReadOne(s, l, reachable);
      assert l[..|note|] == note && l[0] == note[0];
      if note == "locked" {
        assert l[0] == 'l';
      } else {
        assert l[0] == 'p';
      }
    }
  }

  /** The lines of a record are read as what it says. */
  lemma ReadRecord(s: State, r: Record, reachable: string -> bool)
    requires s.cur == NOTHING
    ensures ReadAll(s, RecordLines(r), reachable) == s.(cur := View(r))
  {
    hide ReadAll, Read, HeadLines, NoteLines;
    var a, b := ["worktree " + r.path], HeadLines(r.head);
    var c, d := NoteLines("locked", r.locked), NoteLines("prunable", r.prunable);
    ReadConcat(s, a + b + c, d, reachable);
    ReadConcat(s, a + b, c, reachable);
    ReadConcat(s, a, b, reachable);
    ReadOne(s, a[0], reachable);
    PathLine(s, r.path, reachable);
    var s1 := s.(cur := s.cur.(path := r.path));
    ReadHead(s1, r.head, reachable);
    ReadNote(ReadAll(s1, b, reachable), "locked", r.locked, reachable);
    ReadNote(ReadAll(ReadAll(s1, b, reachable), c, reachable), "prunable", r.prunable, reachable);
  }

  lemma {:induction false} ReadRecords(rs: seq<Record>, reachable: string -> bool)
    requires forall r :: r in rs ==> WellFormed(r)
    ensures ReadAll(State([], NOTHING), AllLines(rs), reachable) == State(Views(rs, reachable), NOTHING)
    decreases |rs|
  {
    hide ReadAll, RecordLines, WellFormed;
    if rs == [] {
      ReadNone(reachable);
    } else {
      var init, r := rs[..|rs| - 1], rs[|rs| - 1];
      ReadRecords(init, reachable);
      ReadLast(init, r, reachable);
      assert AllLines(rs) == AllLines(init) + RecordLines(r) + [""];
      var s := State(Views(init, reachable), View(r));
      ReadConcat(State([], NOTHING), AllLines(init) + RecordLines(r), [""], reachable);
      ReadOne(s, "", reachable);
      PathNotEmpty(r);
    }
  }

  lemma PathNotEmpty(r: Record)
    requires WellFormed(r)
    ensures r.path != "" && View(r).path == r.path
  {
  }

  lemma ReadNone(reachable: string -> bool)
    ensures ReadAll(State([], NOTHING), [], reachable) == State([], NOTHING)
  {
  }

  lemma ReadLast(init: seq<Record>, r: Record, reachable: string -> bool)
    requires ReadAll(State([], NOTHING), AllLines(init), reachable) == State(Views(init, reachable), NOTHING)
    ensures ReadAll(State([], NOTHING), AllLines(init) + RecordLines(r), reachable) ==
            State(Views(init, reachable), View(r))
  {
    hide ReadAll, RecordLines;
    ReadConcat(State([], NOTHING), AllLines(init), RecordLines(r), reachable);
    ReadRecord(State(Views(init, reachable), NOTHING), r, reachable);
  }

  lemma {:induction false} AllLinesOk(rs: seq<Record>)
    requires forall r :: r in rs ==> WellFormed(r)
    ensures forall l :: l in AllLines(rs) ==> LineOk(l)
    decreases |rs|
  {
    hide RecordLines, LineOk;
    if rs != [] {
      AllLinesOk(rs[..|rs| - 1]);
      BlankOk();
      assert WellFormed(rs[|rs| - 1]);
    }
  }

  lemma BlankOk()
    ensures LineOk("")
  {
  }

  /** Parsing gives back exactly the reachable records, in order, with the first of them
      marked as the main one, whether or not the last blank line is there. */
  lemma {:induction false} ParseInvertsPrint(rs: seq<Record>, reachable: string -> bool)
    requires forall r :: r in rs ==> WellFormed(r)
    ensures var kept := Views(rs, reachable);
      Parsed(Printed(rs), reachable) ==
        if kept == [] then [] else kept[0 := kept[0].(isMain := true)]
    ensures rs != [] ==>
      && Printed(rs) != "" && Printed(rs)[|Printed(rs)| - 1] == '\n'
      && Parsed(Printed(rs)[..|Printed(rs)| - 1], reachable) == Parsed(Printed(rs), reachable)
  {
    hide ReadAll, RecordLines, WellFormed, ScanLines, LineOk, Views;
    var lines := AllLines(rs);
    AllLinesOk(rs);
    ScanJoined(lines);
    ReadRecords(rs, reachable);
    if rs != [] {
      var init, r := rs[..|rs| - 1], rs[|rs| - 1];
      var cut := AllLines(init) + RecordLines(r);
      assert lines == cut + [""];
      assert lines[..|lines| - 1] == cut;
      assert Printed(rs) == Joined(cut) + "\n";
      assert Printed(rs)[..|Printed(rs)| - 1] == Joined(cut);
      forall l | l in cut ensures LineOk(l) {
        assert l in lines;
      }
      ScanJoined(cut);
      ReadRecords(init, reachable);
      ReadLast(init, r, reachable);
      PathNotEmpty(r);
      ViewsLast(init, r, reachable);
      assert rs == init + [r];
    }
  }

  lemma ViewsLast(init: seq<Record>, r: Record, reachable: string -> bool)
    ensures Views(init + [r], reachable) ==
      Views(init, reachable) + if reachable(r.path) then [View(r).(name := Base(r.path))] else []
  {
    assert (init + [r])[..|init|] == init;
  }

  /** Lines without a newline are given back exactly if each fits the scanner's buffer and
      does not end in a carriage return. */
  lemma {:induction false} ScanIffOk(lines: seq<string>)
    requires forall l :: l in lines ==> '\n' !in l
    ensures ScanLines(Joined(lines)) == lines <==> forall l :: l in lines ==> LineOk(l)
    decreases |lines|
  {
    hide LineEnd, Joined;
    if lines == [] {
      ScanJoined(lines);
    } else {
      var line, rest := lines[0], lines[1..];
      assert lines == [line] + rest && line in lines;
      ScanIffOk(rest);
      FirstLine(line, rest);
      if LineOk(line) {
        assert forall l :: l in lines <==> l == line || l in rest;
        assert ScanLines(Joined(lines)) == [line] + ScanLines(Joined(rest));
        assert ([line] + ScanLines(Joined(rest)))[1..] == ScanLines(Joined(rest));
      }
    }
  }

  /** What the scanner makes of the first line. */
  lemma FirstLine(line: string, rest: seq<string>)
    requires '\n' !in line
    ensures ScanLines(Joined([line] + rest)) ==
      if |line| >= MAX_TOKEN then [] else [Chomp(line)] + ScanLines(Joined(rest))
  {
    hide LineEnd, Joined, Chomp;
    JoinedCons(line, rest);
    LineEndAt(line, Joined(rest));
    var text := Joined([line] + rest);
    assert text[..|line|] == line && text[|line| + 1..] == Joined(rest);
  }

  /** Where a line is too long the scanner stops, without an error the caller looks at, and
      everything behind it is lost. */
  lemma {:induction false} ScanStops(lines: seq<string>, long: string, rest: string)
    requires forall l :: l in lines ==> LineOk(l)
    requires '\n' !in long && |long| >= MAX_TOKEN
    ensures ScanLines(Joined(lines) + long + "\n" + rest) == lines
    decreases |lines|
  {
    hide LineEnd, Joined;
    if lines == [] {
      assert Joined(lines) + long + "\n" + rest == long + "\n" + rest by {
        JoinedNone();
      }
      LineEndAt(long, rest);
    } else {
      var line, more := lines[0], lines[1..];
      assert lines == [line] + more && line in lines;
      JoinedCons(line, more);
      var tail := Joined(more) + long + "\n" + rest;
      var text := Joined(lines) + long + "\n" + rest;
      assert text == line + "\n" + tail;
      LineEndAt(line, tail);
      assert text[..|line|] == line && text[|line| + 1..] == tail;
      ScanStops(more, long, rest);
    }
  }

  lemma JoinedNone()
    ensures Joined([]) == ""
  {
  }
}
