/** Resolving op:// secret references: the loops of `op run` and `op inject` inside a worker
    (cmd/worker/shim.go), and the policy by which the device judges the calls they make
    (OpPolicy in internal/cmdrelay). The device's answer to `op read` is a function of the
    reference. */
module SecretResolve {
  import opened Sequences

  // ------------------------------------------------------------------- policy

  const DENIED: set<string> := {
    "run", "inject", "plugin", "signin", "signout", "account", "user", "group",
    "service-account", "connect", "vault"
  }

  datatype Verdict = Allowed | Separator | NoSubcommand | Denied(sub: string)

  /** A word that can be the subcommand: not empty and not a flag. */
  predicate Names(a: string) { a != "" && !("-" <= a) }

  /** The arguments are let through exactly if no separator occurs anywhere and the first
      word that is not empty and not a flag is there and is not a denied subcommand. */
  method OpPolicy(argv: seq<string>) returns (v: Verdict)
    ensures v == Separator <==> "--" in argv
    ensures v == NoSubcommand <==> "--" !in argv && forall a :: a in argv ==> !Names(a)
    ensures v.Denied? ==> v.sub in DENIED && exists i :: FirstWord(argv, i) && argv[i] == v.sub
    ensures v.Allowed? <==> Accepts(argv)
  {
    var sub := "";
    ghost var at := -1;
    for i := 0 to |argv|
      invariant "--" !in argv[..i]
      invariant sub == "" ==> forall a :: a in argv[..i] ==> !Names(a)
      invariant sub != "" ==> 0 <= at < i && FirstWord(argv, at) && argv[at] == sub
    {
      var a := argv[i];
      if a == "--" {
        return Separator;
      }
      if sub == "" && !("-" <= a) {
        sub := a;
        at := i;
      }
    }
    assert argv[..|argv|] == argv;
    if sub == "" {
      return NoSubcommand;
    }
    if sub in DENIED {
      return Denied(sub);
    }
    return Allowed;
  }

  predicate FirstWord(argv: seq<string>, i: int) {
    0 <= i < |argv| && Names(argv[i]) && forall j :: 0 <= j < i ==> !Names(argv[j])
  }

  /** The same judgement as a predicate, for reasoning about calls. */
  ghost predicate Accepts(argv: seq<string>) {
    "--" !in argv && exists i :: 0 <= i < |argv| && FirstWord(argv, i) && argv[i] !in DENIED
  }

  const REF_PREFIX := "op://"

  predicate IsRef(v: string) { REF_PREFIX <= v }

  function ReadCall(ref: string): seq<string> { ["read", ref] }

  /** Every call the resolver makes is one the device accepts. */
  lemma ReadsAreAccepted(ref: string)
    requires IsRef(ref)
    ensures Accepts(ReadCall(ref))
  {
    var argv, read := ReadCall(ref), "read";
    assert ref[0] == 'o' && read[0] == 'r' && |read| == 4;
    assert argv[0] == read && argv[1] == ref;
    assert FirstWord(argv, 0);
    NotDenied();
  }

  lemma NotDenied()
    ensures "read" !in DENIED
  {
    var read := "read";
    assert |read| == 4 && read[0] == 'r' && read[1] == 'e';
    assert "run"[1] == 'u' && "user"[0] == 'u';
  }

  // ------------------------------------------------------------------- op run

  type Nonzero = c: int | c != 0 witness 1

  /** What relaying `op read` gives: the output, or a failing exit code. */
  datatype Answer = Got(text: string) | Failed(code: Nonzero)

  type Device = string -> Answer

  function Resolved(v: string, read: Device): string {
    if IsRef(v) && read(v).Got? then read(v).text else v
  }

  /** What was read so far is what the cache holds, each reference once, except that a
      reference that failed is not kept and may have been read again. */
  ghost predicate CacheOk(cache: map<string, string>, asked: seq<string>, read: Device) {
    && (forall v :: v in cache ==> v in asked && read(v) == Got(cache[v]))
    && (forall v :: v in asked && read(v).Got? ==> v in cache)
    && OnceIfGot(asked, read)
  }

  ghost predicate OnceIfGot(asked: seq<string>, read: Device) {
    forall i, j :: 0 <= i < j < |asked| && asked[i] == asked[j] ==> read(asked[i]).Failed?
  }

  lemma EmptyCache(read: Device)
    ensures CacheOk(map[], [], read) && OnceIfGot([], read)
  {
  }

  /** As long as nothing failed nothing was read twice, and the first failure is new. */
  lemma FirstFailure(before: seq<string>, asked: seq<string>, ref: string, read: Device)
    requires OnceIfGot(before, read) && forall v :: v in before ==> read(v).Got?
    ensures Distinct(before)
    ensures asked == before + [ref] && read(ref).Failed? ==> Distinct(asked)
  {
  }

  /** Look a reference up, asking the device only if it is not cached. */
  method Fetch(ref: string, cache: map<string, string>, asked: seq<string>, read: Device)
    returns (answer: Answer, cache': map<string, string>, asked': seq<string>)
    requires CacheOk(cache, asked, read)
    ensures answer == read(ref)
    ensures CacheOk(cache', asked', read) && OnceIfGot(asked', read)
    ensures asked' == asked || asked' == asked + [ref]
    ensures forall v :: v in asked' <==> v in asked || v == ref
  {
    cache', asked' := cache, asked;
    if ref in cache {
      return Got(cache[ref]), cache', asked';
    }
    answer := read(ref);
    asked' := asked + [ref];
    if answer.Got? {
      cache' := cache[ref := answer.text];
    }
  }

  /** Every reference read is the value of some variable. */
  ghost predicate InUse(asked: seq<string>, env: map<string, string>) {
    forall v :: v in asked ==> IsRef(v) && v in env.Values
  }

  lemma NoneInUse(env: map<string, string>)
    ensures InUse([], env)
  {
  }

  lemma InUseSnoc(asked: seq<string>, env: map<string, string>, k: string)
    requires InUse(asked, env) && k in env && IsRef(env[k])
    ensures InUse(asked + [env[k]], env)
  {
  }

  /** The resolution loop over the environment, in whatever order Go visits it. On success
      the environment has the same keys and every reference in it is replaced by what the
      device holds, whatever that looks like; it fails exactly when some reference fails,
      with the code of one that did. Only references in use are read, none is read twice,
      and on success all are. */
  method ResolveEnv(env: map<string, string>, read: Device)
    returns (r: map<string, string>, code: int, asked: seq<string>)
    ensures code == 0 <==> forall k :: k in env && IsRef(env[k]) ==> read(env[k]).Got?
    ensures code == 0 ==> r == map k | k in env :: Resolved(env[k], read)
    ensures code != 0 ==> exists k :: k in env && IsRef(env[k]) && read(env[k]) == Failed(code)
    ensures Distinct(asked)
    ensures InUse(asked, env)
    ensures code == 0 ==> forall k :: k in env && IsRef(env[k]) ==> env[k] in asked
  {
    hide IsRef, CacheOk, OnceIfGot, Distinct, InUse;
    EmptyCache(read);
    NoneInUse(env);
    r, code, asked := env, 0, [];
    var cache: map<string, string> := map[];
    var todo := env.Keys;
    while todo != {}
      invariant todo <= env.Keys && code == 0
      invariant r.Keys == env.Keys && forall k :: k in env ==>
        r[k] == if k in todo then env[k] else Resolved(env[k], read)
      invariant CacheOk(cache, asked, read) && OnceIfGot(asked, read)
      invariant InUse(asked, env) && forall v :: v in asked ==> read(v).Got?
      invariant forall k :: k in env && k !in todo && IsRef(env[k]) ==>
        env[k] in asked && read(env[k]).Got?
      decreases |todo|
    {
      var k :| k in todo;
      todo := todo - {k};
      if IsRef(env[k]) {
        var answer;
        ghost var before := asked;
        answer, cache, asked := Fetch(r[k], cache, asked, read);
        FirstFailure(before, asked, r[k], read);
        InUseSnoc(before, env, k);
        if answer.Failed? {
          code := answer.code;
          return;
        }
        r := r[k := answer.text];
      }
    }
    FirstFailure(asked, asked, "", read);
  }

  // ---------------------------------------------------------------- op inject

  /** [A-Za-z0-9._\-/] */
  predicate RefChar(c: char) {
    'A' <= c <= 'Z' || 'a' <= c <= 'z' || '0' <= c <= '9' || c in "._-/"
  }

  function RunLength(text: string): (n: nat)
    ensures n <= |text|
  {
    if text == "" || !RefChar(text[0]) then 0 else 1 + RunLength(text[1..])
  }

  /** The length of the pattern's match at the start of a text, or 0. */
  function MatchLength(text: string): (n: nat)
    ensures n <= |text|
  {
    if IsRef(text) && RunLength(text[|REF_PREFIX|..]) > 0
    then |REF_PREFIX| + RunLength(text[|REF_PREFIX|..])
    else 0
  }

  /** The pattern matches the prefix op:// and as many characters of its class as follow,
      at least one. */
  lemma MatchIsLongest(text: string)
    ensures var n := MatchLength(text);
      && (n > 0 ==> n > |REF_PREFIX| && IsRef(text[..n]))
      && (n > 0 ==> forall i :: |REF_PREFIX| <= i < n ==> RefChar(text[i]))
      && (0 < n < |text| ==> !RefChar(text[n]))
      && (n == 0 && IsRef(text) && |text| > |REF_PREFIX| ==> !RefChar(text[|REF_PREFIX|]))
  {
    hide RefChar;
    var n := MatchLength(text);
    if IsRef(text) {
      var tail := text[|REF_PREFIX|..];
      RunIsLongest(tail);
      assert forall i :: |REF_PREFIX| <= i < |text| ==> text[i] == tail[i - |REF_PREFIX|];
      assert n > 0 ==> text[..n][..|REF_PREFIX|] == text[..|REF_PREFIX|];
    }
  }

  lemma {:induction false} RunIsLongest(text: string)
    ensures var n := RunLength(text);
      (forall i :: 0 <= i < n ==> RefChar(text[i])) && (n < |text| ==> !RefChar(text[n]))
    decreases |text|
  {
    hide RefChar;
    if text != "" && RefChar(text[0]) {
      var tail := text[1..];
      RunIsLongest(tail);
      assert forall i :: 1 <= i < |text| ==> text[i] == tail[i - 1];
    }
  }

  /** A template cut into plain characters and references. */
  datatype Piece = Plain(c: char) | Ref(ref: string)

  function Text(p: Piece): string { if p.Plain? then [p.c] else p.ref }

  function Joined(ps: seq<Piece>): string {
    if ps == [] then "" else Text(ps[0]) + Joined(ps[1..])
  }

  /** Leftmost and longest: a reference is exactly what the pattern matches there, and no
      match begins at a plain character. */
  ghost predicate Leftmost(ps: seq<Piece>) {
    ps == [] ||
    (MatchLength(Joined(ps)) == (if ps[0].Plain? then 0 else |ps[0].ref|) &&
     (ps[0].Ref? ==> ps[0].ref != "") && Leftmost(ps[1..]))
  }

  function Pieces(text: string): seq<Piece>
    decreases |text|
  {
    if text == "" then []
    else
      var n := MatchLength(text);
      if n > 0 then [Ref(text[..n])] + Pieces(text[n..])
      else [Plain(text[0])] + Pieces(text[1..])
  }

  lemma JoinedCons(p: Piece, ps: seq<Piece>)
    ensures Joined([p] + ps) == Text(p) + Joined(ps)
    ensures Leftmost([p] + ps) <==>
      && MatchLength(Text(p) + Joined(ps)) == (if p.Plain? then 0 else |p.ref|)
      && (p.Ref? ==> p.ref != "") && Leftmost(ps)
  {
    assert ([p] + ps)[1..] == ps;
  }

  /** The cut gives back the template, and is leftmost and longest. */
  lemma {:induction false} PiecesCut(text: string)
    ensures Joined(Pieces(text)) == text && Leftmost(Pieces(text))
    decreases |text|
  {
    hide MatchLength, Joined, Leftmost;
    if text == "" {
      EmptyCut();
    } else {
      var n := MatchLength(text);
      var m := if n > 0 then n else 1;
      var p := if n > 0 then Ref(text[..n]) else Plain(text[0]);
      PiecesCut(text[m..]);
      JoinedCons(p, Pieces(text[m..]));
      assert text == Text(p) + text[m..];
    }
  }

  lemma EmptyCut()
    ensures Joined([]) == "" && Leftmost([])
  {
  }

  /** There is no other cut of a template that is. */
  lemma {:induction false} PiecesUnique(ps: seq<Piece>)
    requires Leftmost(ps)
    ensures ps == Pieces(Joined(ps))
    decreases |ps|
  {
    hide MatchLength, Joined, Leftmost;
    if ps == [] {
      EmptyCut();
    } else {
      var p, rest := ps[0], ps[1..];
      assert ps == [p] + rest;
      JoinedCons(p, rest);
      PiecesUnique(rest);
      var text := Joined(ps);
      assert text[|Text(p)|..] == Joined(rest) && text[..|Text(p)|] == Text(p);
    }
  }

  function Substituted(p: Piece, read: Device): string {
    if p.Ref? && read(p.ref).Got? then read(p.ref).text else Text(p)
  }

  function Rendered(ps: seq<Piece>, read: Device): string {
    if ps == [] then "" else Rendered(ps[..|ps| - 1], read) + Substituted(ps[|ps| - 1], read)
  }

  lemma RenderedSnoc(ps: seq<Piece>, p: Piece, read: Device)
    ensures Rendered(ps + [p], read) == Rendered(ps, read) + Substituted(p, read)
    ensures Unresolved(ps + [p], read) <==> Unresolved(ps, read) || (p.Ref? && read(p.ref).Failed?)
  {
    hide Substituted;
    assert p in ps + [p];
    if Unresolved(ps, read) {
      var q :| q in ps && q.Ref? && read(q.ref).Failed?;
      assert q in ps + [p];
    }
    assert (ps + [p])[..|ps|] == ps;
  }

  lemma PiecesStep(text: string, i: nat)
    requires i < |text|
    ensures var rest := text[i..];
      var n := MatchLength(rest);
      Pieces(rest) ==
        if n > 0 then [Ref(rest[..n])] + Pieces(text[i + n..])
        else [Plain(text[i])] + Pieces(text[i + 1..])
  {
    hide MatchLength;
    var rest := text[i..];
    var n := MatchLength(rest);
    if n > 0 {
      assert rest[n..] == text[i + n..];
    } else {
      assert rest[1..] == text[i + 1..];
    }
  }

  ghost predicate Unresolved(ps: seq<Piece>, read: Device) {
    exists p :: p in ps && p.Ref? && read(p.ref).Failed?
  }

  /** The regular expression's replacement loop: the plain characters stay, every reference
      is replaced by what the device holds, and nothing is given out exactly when some
      reference fails. Only the template's references are read, and each of them; none
      twice unless it failed. */
  method Inject(template: string, read: Device)
    returns (rendered: string, failed: bool, asked: seq<string>)
    ensures failed <==> Unresolved(Pieces(template), read)
    ensures rendered == Rendered(Pieces(template), read)
    ensures OnceIfGot(asked, read)
    ensures forall v :: v in asked <==> Ref(v) in Pieces(template)
  {
    hide Pieces, MatchLength, Rendered, IsRef, CacheOk, OnceIfGot, Unresolved;
    EmptyCache(read);
    rendered, failed, asked := "", false, [];
    var cache: map<string, string> := map[];
    var i := 0;
    ghost var done: seq<Piece> := [];
    NothingRendered(read);
    while i < |template|
      invariant 0 <= i <= |template|
      invariant Pieces(template) == done + Pieces(template[i..])
      invariant rendered == Rendered(done, read)
      invariant failed <==> Unresolved(done, read)
      invariant CacheOk(cache, asked, read) && OnceIfGot(asked, read)
      invariant forall v :: v in asked <==> Ref(v) in done
    {
      PiecesStep(template, i);
      var n := MatchLength(template[i..]);
      if n > 0 {
        var ref, answer := template[i..][..n], Failed(1);
        answer, cache, asked := Fetch(ref, cache, asked, read);
        RenderedSnoc(done, Ref(ref), read);
        if answer.Got? {
          rendered := rendered + answer.text;
        } else {
          failed := true;
          rendered := rendered + ref;
        }
        done := done + [Ref(ref)];
        i := i + n;
      } else {
        RenderedSnoc(done, Plain(template[i]), read);
        rendered := rendered + [template[i]];
        done := done + [Plain(template[i])];
        i := i + 1;
      }
    }
    assert template[i..] == "";
    NoPieces();
    assert Pieces(template) == done;
  }

  lemma NothingRendered(read: Device)
    ensures Rendered([], read) == "" && !Unresolved([], read)
  {
  }

  lemma NoPieces()
    ensures Pieces("") == []
  {
  }

  /** So every call either loop makes is one the device's policy lets through. */
  lemma {:induction false} TemplateReadsAreAccepted(text: string, ref: string)
    requires Ref(ref) in Pieces(text)
    ensures IsRef(ref) && Accepts(ReadCall(ref))
    decreases |text|
  {
    hide MatchLength, IsRef, Accepts;
    var n := MatchLength(text);
    if n > 0 && ref == text[..n] {
      MatchIsLongest(text);
      ReadsAreAccepted(ref);
    } else {
      TemplateReadsAreAccepted(if n > 0 then text[n..] else text[1..], ref);
    }
  }
}
