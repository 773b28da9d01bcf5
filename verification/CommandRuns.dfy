/** One relayed command end to end (internal/cmdrelay/cmdrelay.go): Shim's stdin pump
    and render loop on one side, Serve's stdin goroutine and the running tool on the
    other, every interleaving. Each side writes a frame in two writes under its mutex,
    so the streams are modelled byte by byte. */
module CommandRuns {
  import opened Sequences
  import opened Framing
  import opened CommandRelay

  /** One direction of the link. `pending` is the payload whose head has been written,
      by whoever holds the frame mutex; `read` bytes have been consumed. `frames` and
      `taken` are history. */
  datatype Pipe = Pipe(
    bytes: seq<byte>, pending: Option<seq<byte>>, read: nat,
    frames: seq<Frame>, taken: nat)

  const NEW_PIPE := Pipe([], None, 0, [], 0)

  function Head(f: Frame): seq<byte> { [f.tag] + Be32(|f.payload|) }

  /** The first write of a frame, and the second if there is a payload. */
  function Begin(p: Pipe, f: Frame): Pipe {
    p.(bytes := p.bytes + Head(f),
       pending := if f.payload == [] then None else Some(f.payload),
       frames := p.frames + [f])
  }

  function Finish(p: Pipe): Pipe
    requires p.pending.Some?
  {
    p.(bytes := p.bytes + p.pending.value, pending := None)
  }

  /** The frame a reader gets next, once all its bytes are there. */
  function Next(p: Pipe): Read<Frame> {
    if p.read <= |p.bytes| then Decode(p.bytes[p.read..]) else Failed(Eof)
  }

  function Take(p: Pipe): Pipe
    requires Next(p).Got?
  {
    p.(read := |p.bytes| - |Next(p).rest|, taken := p.taken + 1)
  }

  /** Frames whose bytes are all on the wire. */
  function Whole(p: Pipe): seq<Frame> {
    if p.pending.Some? && p.frames != [] then p.frames[..|p.frames| - 1] else p.frames
  }

  function Partial(p: Pipe): seq<byte> {
    if p.pending.Some? && p.frames != [] then Head(p.frames[|p.frames| - 1]) else []
  }

  ghost predicate PipeOk(p: Pipe) {
    && Fits(p.frames)
    && p.taken <= |Whole(p)|
    && p.bytes == EncodeAll(Whole(p)) + Partial(p)
    && p.read == |EncodeAll(p.frames[..p.taken])|
    && (p.pending.Some? ==> p.frames != [] && p.pending.value == p.frames[|p.frames| - 1].payload &&
                            p.pending.value != [])
  }

  lemma EncodeIsHeadAndPayload(f: Frame)
    ensures Encode(f) == Head(f) + f.payload
  {
  }

  lemma EncodeAllSnoc(fs: seq<Frame>, f: Frame)
    ensures EncodeAll(fs + [f]) == EncodeAll(fs) + Encode(f)
  {
    EncodeAllConcat(fs, [f]);
    assert EncodeAll([f]) == Encode(f);
  }

  lemma PipeBegin(p: Pipe, f: Frame)
    requires PipeOk(p) && p.pending == None && |f.payload| <= MAX_FRAME
    ensures PipeOk(Begin(p, f))
  {
    var q := Begin(p, f);
    hide EncodeAll, Encode, Head;
    assert q.frames[..p.taken] == p.frames[..p.taken];
    assert q.frames[..|q.frames| - 1] == p.frames;
    EncodeAllSnoc(p.frames, f);
    EncodeIsHeadAndPayload(f);
    assert p.bytes == EncodeAll(p.frames);
    if f.payload == [] {
      assert Head(f) + f.payload == Head(f);
    }
  }

  lemma PipeFinish(p: Pipe)
    requires PipeOk(p) && p.pending.Some?
    ensures PipeOk(Finish(p))
  {
    hide EncodeAll, Encode, Head;
    var init, f := p.frames[..|p.frames| - 1], p.frames[|p.frames| - 1];
    EncodeAllSnoc(init, f);
    EncodeIsHeadAndPayload(f);
    assert p.frames == init + [f];
    assert Finish(p).bytes == EncodeAll(p.frames);
  }

  lemma Unread(p: Pipe)
    requires PipeOk(p)
    ensures p.read <= |p.bytes| && p.bytes[p.read..] == EncodeAll(Whole(p)[p.taken..]) + Partial(p)
  {
    hide EncodeAll, Head;
    SplitAt(Whole(p), p.taken);
    assert Whole(p)[..p.taken] == p.frames[..p.taken];
  }

  lemma NextFrame(p: Pipe)
    requires PipeOk(p) && p.taken < |Whole(p)|
    ensures Next(p) == Got(p.frames[p.taken], EncodeAll(Whole(p)[p.taken + 1..]) + Partial(p))
  {
    var f := Whole(p)[p.taken];
    var tail := EncodeAll(Whole(p)[p.taken + 1..]) + Partial(p);
    Unread(p);
    assert Whole(p)[p.taken..][1..] == Whole(p)[p.taken + 1..];
    assert p.bytes[p.read..] == Encode(f) + tail;
    FrameRoundTrip(f, tail);
    hide Encode, Decode;
  }

  /** Reading gets the frames in the order they were written, each one whole. */
  lemma PipeTake(p: Pipe)
    requires PipeOk(p) && Next(p).Got?
    ensures p.taken < |Whole(p)| && Next(p).value == p.frames[p.taken]
    ensures PipeOk(Take(p))
  {
    hide EncodeAll, Head, Decode;
    Unread(p);
    if p.taken == |Whole(p)| {
      NothingToEncode(Whole(p)[p.taken..]);
      assert p.bytes[p.read..] == Partial(p);
      NoPartialFrame(p);
    }
    NextFrame(p);
    var whole := Whole(p);
    SplitAt(whole, p.taken + 1);
    assert whole[..p.taken + 1] == p.frames[..p.taken + 1];
    hide PipeOk;
    TakeReads(p);
  }

  lemma NothingToEncode(fs: seq<Frame>)
    requires fs == []
    ensures EncodeAll(fs) == []
  {
  }

  lemma TakeReads(p: Pipe)
    requires PipeOk(p) && Next(p).Got? && p.taken < |Whole(p)|
    requires Next(p) == Got(p.frames[p.taken], EncodeAll(Whole(p)[p.taken + 1..]) + Partial(p))
    requires EncodeAll(Whole(p)) == EncodeAll(p.frames[..p.taken + 1]) + EncodeAll(Whole(p)[p.taken + 1..])
    ensures PipeOk(Take(p))
  {
    hide EncodeAll, Head, Decode;
  }

  lemma NoPartialFrame(p: Pipe)
    requires PipeOk(p)
    ensures Decode(Partial(p)).Failed?
  {
    if p.pending.Some? {
      var f := p.frames[|p.frames| - 1];
      CutFrame(f, Encode(f), 5);
      assert Encode(f)[..5] == Head(f);
    }
  }

  // ---------------------------------------------------------------------- world

  const PUMP_BUFFER := 32768

  /** `up` carries stdin from the shim, `down` the reply. `input` is everything the
      shim's stdin will yield and `pumped` how much was framed. `toolOut`, `toolErr` and
      `exitCode` are what the tool wrote and how it exited; `toolIn` what reached it. */
  datatype World = World(
    up: Pipe, down: Pipe,
    input: seq<byte>, pumped: nat, pumpDone: bool,
    toolIn: seq<byte>, stdinOpen: bool, sawEof: bool,
    toolOut: seq<byte>, toolErr: seq<byte>, exitCode: Option<int>,
    out: seq<byte>, err: seq<byte>, ending: Option<Ending>)

  function Start(input: seq<byte>): World {
    World(NEW_PIPE, NEW_PIPE, input, 0, false, [], true, false, [], [], None, [], [], None)
  }

  datatype Act =
    | PumpChunk(n: nat)
    | PumpEof
    | FinishUp
    | FeedTool(accepted: nat)
    | ToolWrites(toErr: bool, p: seq<byte>)
    | ToolExits(code: int)
    | FinishDown
    | ShimReads
    | LinkCut(error: ReadError)

  predicate Enabled(w: World, a: Act) {
    match a
    case PumpChunk(n) =>
      !w.pumpDone && w.up.pending == None && 1 <= n <= PUMP_BUFFER && w.pumped + n <= |w.input|
    case PumpEof => !w.pumpDone && w.up.pending == None && w.pumped == |w.input|
    case FinishUp => w.up.pending.Some?
    case FeedTool(accepted) => w.stdinOpen && Next(w.up).Got? && accepted <= |Next(w.up).value.payload|
    case ToolWrites(_, p) => w.exitCode == None && w.down.pending == None && |p| <= MAX_FRAME
    // cmd.Wait returns only after both output copies are done
    case ToolExits(_) => w.exitCode == None && w.down.pending == None
    case FinishDown => w.down.pending.Some?
    case ShimReads => w.ending == None && Next(w.down).Got?
    case LinkCut(_) => w.ending == None
  }

  function Apply(w: World, a: Act): World
    requires Enabled(w, a)
  {
    match a
    case PumpChunk(n) =>
      w.(up := Begin(w.up, Frame(STDIN, w.input[w.pumped..w.pumped + n])), pumped := w.pumped + n)
    case PumpEof => w.(up := Begin(w.up, Frame(STDIN_EOF, [])), pumpDone := true)
    case FinishUp => w.(up := Finish(w.up))
    case FeedTool(accepted) =>
      // a write to the tool's stdin that fails part-way ends the goroutine
      var f := Next(w.up).value;
      var v := w.(up := Take(w.up));
      if f.tag == STDIN then
        v.(toolIn := w.toolIn + f.payload[..accepted], stdinOpen := accepted == |f.payload|)
      else if f.tag == STDIN_EOF then v.(stdinOpen := false, sawEof := true)
      else v
    case ToolWrites(toErr, p) =>
      var v := w.(down := Begin(w.down, Frame(if toErr then STDERR else STDOUT, p)));
      if toErr then v.(toolErr := w.toolErr + p) else v.(toolOut := w.toolOut + p)
    case ToolExits(code) =>
      w.(down := Begin(w.down, Frame(EXIT, Be32(code))), exitCode := Some(code))
    case FinishDown => w.(down := Finish(w.down))
    case ShimReads =>
      var f := Next(w.down).value;
      var v := w.(down := Take(w.down));
      if f.tag == STDOUT then v.(out := w.out + f.payload)
      else if f.tag == STDERR then v.(err := w.err + f.payload)
      else if f.tag == EXIT then v.(ending := Some(Exited(ExitCode(f.payload))))
      else v
    case LinkCut(error) => w.(ending := Some(LinkClosed(error)))
  }

  /** All frames but the last are stdin data; the last says whether stdin ended. */
  ghost predicate UpOk(w: World) {
    && PipeOk(w.up)
    && w.pumped <= |w.input|
    && (w.pumpDone ==> w.pumped == |w.input|)
    && Payloads(STDIN, w.up.frames) == w.input[..w.pumped]
    && (forall i :: 0 <= i < |w.up.frames| ==>
          w.up.frames[i].tag == if w.pumpDone && i == |w.up.frames| - 1 then STDIN_EOF else STDIN)
    && (w.pumpDone ==> w.up.frames != [])
  }

  ghost predicate ToolInOk(w: World) {
    && w.up.taken <= |w.up.frames|
    && (w.stdinOpen ==> w.toolIn == Payloads(STDIN, w.up.frames[..w.up.taken]))
    && (w.stdinOpen ==> !w.sawEof)
    && (w.sawEof ==> w.toolIn == w.input)
    && w.toolIn <= w.input
  }

  ghost predicate DownOk(w: World) {
    && PipeOk(w.down)
    && Payloads(STDOUT, w.down.frames) == w.toolOut
    && Payloads(STDERR, w.down.frames) == w.toolErr
    && (w.exitCode == None ==> NoExit(w.down.frames))
    && (w.exitCode.Some? ==>
          && w.down.frames != []
          && w.down.frames[|w.down.frames| - 1] == Frame(EXIT, Be32(w.exitCode.value))
          && NoExit(w.down.frames[..|w.down.frames| - 1]))
  }

  ghost predicate ShimOk(w: World) {
    && w.down.taken <= |w.down.frames|
    && w.out == Payloads(STDOUT, w.down.frames[..w.down.taken])
    && w.err == Payloads(STDERR, w.down.frames[..w.down.taken])
    && (w.ending.Some? && w.ending.value.Exited? ==>
          && w.exitCode.Some? && w.down.taken == |w.down.frames|
          && w.ending.value.code == w.exitCode.value % TWO_32)
  }

  lemma UpStep(w: World, a: Act)
    requires UpOk(w) && Enabled(w, a)
    ensures UpOk(Apply(w, a))
  {
    hide PipeOk, Payloads, Begin, Decode;
    match a
    case PumpChunk(n) =>
      var f := Frame(STDIN, w.input[w.pumped..w.pumped + n]);
      PipeBegin(w.up, f);
      BeginFrames(w.up, f);
      PayloadsSnoc(STDIN, w.up.frames, f);
      assert w.input[..w.pumped + n] == w.input[..w.pumped] + f.payload;
    case PumpEof =>
      PipeBegin(w.up, Frame(STDIN_EOF, []));
      BeginFrames(w.up, Frame(STDIN_EOF, []));
      PayloadsSnoc(STDIN, w.up.frames, Frame(STDIN_EOF, []));
    case FinishUp => PipeFinish(w.up);
    case FeedTool(_) => PipeTake(w.up);
    case _ =>
  }

  lemma BeginFrames(p: Pipe, f: Frame)
    ensures Begin(p, f).frames == p.frames + [f] && Begin(p, f).taken == p.taken
  {
  }

  lemma PayloadsPrefix(tag: byte, fs: seq<Frame>, n: nat)
    requires n <= |fs|
    ensures Payloads(tag, fs[..n]) <= Payloads(tag, fs)
  {
    PayloadsConcat(tag, fs[..n], fs[n..]);
    assert fs == fs[..n] + fs[n..];
  }

  lemma TakenPayload(tag: byte, fs: seq<Frame>, n: nat)
    requires n < |fs|
    ensures Payloads(tag, fs[..n + 1]) ==
            Payloads(tag, fs[..n]) + if fs[n].tag == tag then fs[n].payload else []
  {
    PayloadsSnoc(tag, fs[..n], fs[n]);
    assert fs[..n + 1] == fs[..n] + [fs[n]];
  }

  lemma ToolInStep(w: World, a: Act)
    requires UpOk(w) && ToolInOk(w) && Enabled(w, a)
    ensures ToolInOk(Apply(w, a))
  {
    hide PipeOk, Payloads, Decode, Begin;
    match a
    case PumpChunk(n) =>
      BeginFrames(w.up, Frame(STDIN, w.input[w.pumped..w.pumped + n]));
      assert Apply(w, a).up.frames[..w.up.taken] == w.up.frames[..w.up.taken];
    case PumpEof =>
      BeginFrames(w.up, Frame(STDIN_EOF, []));
      assert Apply(w, a).up.frames[..w.up.taken] == w.up.frames[..w.up.taken];
    case FeedTool(accepted) =>
      PipeTake(w.up);
      var fs, n := w.up.frames, w.up.taken;
      TakenPayload(STDIN, fs, n);
      PayloadsPrefix(STDIN, fs, n + 1);
      PayloadsPrefix(STDIN, fs, n);
      assert fs[..|fs|] == fs;
      assert Payloads(STDIN, fs) <= w.input;
    case _ =>
  }

  lemma DownBegin(w: World, f: Frame)
    requires DownOk(w) && w.exitCode == None && w.down.pending == None && |f.payload| <= MAX_FRAME
    ensures var q := Begin(w.down, f);
      && PipeOk(q) && q.frames == w.down.frames + [f] && q.frames[..|q.frames| - 1] == w.down.frames
      && Payloads(STDOUT, q.frames) == w.toolOut + (if f.tag == STDOUT then f.payload else [])
      && Payloads(STDERR, q.frames) == w.toolErr + (if f.tag == STDERR then f.payload else [])
  {
    hide PipeOk, Payloads, Begin;
    PipeBegin(w.down, f);
    BeginFrames(w.down, f);
    PayloadsSnoc(STDOUT, w.down.frames, f);
    PayloadsSnoc(STDERR, w.down.frames, f);
  }

  lemma DownWrites(w: World, toErr: bool, p: seq<byte>)
    requires DownOk(w) && Enabled(w, ToolWrites(toErr, p))
    ensures DownOk(Apply(w, ToolWrites(toErr, p)))
  {
    hide PipeOk, Payloads, Begin, Next, Be32;
    assert w.toolOut + [] == w.toolOut && w.toolErr + [] == w.toolErr;
    DownBegin(w, Frame(if toErr then STDERR else STDOUT, p));
  }

  lemma DownExits(w: World, code: int)
    requires DownOk(w) && Enabled(w, ToolExits(code))
    ensures DownOk(Apply(w, ToolExits(code)))
  {
    hide PipeOk, Payloads, Begin, Next, Be32;
    assert w.toolOut + [] == w.toolOut && w.toolErr + [] == w.toolErr;
    DownBegin(w, Frame(EXIT, Be32(code)));
  }

  lemma DownStep(w: World, a: Act)
    requires DownOk(w) && Enabled(w, a)
    ensures DownOk(Apply(w, a))
  {
    hide PipeOk, Payloads, Begin, Be32, Decode;
    match a
    case ToolWrites(toErr, p) => DownWrites(w, toErr, p);
    case ToolExits(code) => DownExits(w, code);
    case FinishDown => PipeFinish(w.down);
    case ShimReads => PipeTake(w.down);
    case _ =>
  }

  lemma ShimReadStep(w: World)
    requires DownOk(w) && ShimOk(w) && Enabled(w, ShimReads)
    ensures ShimOk(Apply(w, ShimReads))
  {
    hide PipeOk, Payloads, Decode, Be32, FromBe32, EncodeAll;
    var n := w.down.taken;
    PipeTake(w.down);
    TakenPayload(STDOUT, w.down.frames, n);
    TakenPayload(STDERR, w.down.frames, n);
    assert w.out + [] == w.out && w.err + [] == w.err;
    if w.exitCode.Some? {
      Be32RoundTrip(w.exitCode.value);
    }
  }

  lemma ShimStep(w: World, a: Act)
    requires DownOk(w) && ShimOk(w) && Enabled(w, a)
    ensures ShimOk(Apply(w, a))
  {
    hide PipeOk, Payloads, Decode, Begin, Be32, FromBe32;
    var n := w.down.taken;
    match a
    case ToolWrites(toErr, p) =>
      BeginFrames(w.down, Frame(if toErr then STDERR else STDOUT, p));
      assert Apply(w, a).down.frames[..n] == w.down.frames[..n];
    case ToolExits(code) =>
      BeginFrames(w.down, Frame(EXIT, Be32(code)));
      assert Apply(w, a).down.frames[..n] == w.down.frames[..n];
    case ShimReads => ShimReadStep(w);
    case _ =>
  }

  ghost predicate Inv(w: World) { UpOk(w) && ToolInOk(w) && DownOk(w) && ShimOk(w) }

  /** `w` can be reached, from a shim whose stdin yields `input`, by `acts` in order. */
  ghost predicate Reached(input: seq<byte>, acts: seq<Act>, w: World) {
    if acts == [] then w == Start(input)
    else
      var before, last := acts[..|acts| - 1], acts[|acts| - 1];
      exists v :: Reached(input, before, v) && Leads(v, last, w)
  }

  ghost predicate Leads(v: World, a: Act, w: World) { Enabled(v, a) && w == Apply(v, a) }

  lemma StartInv(input: seq<byte>)
    ensures Inv(Start(input))
  {
    assert input[..0] == [];
  }

  lemma InvStep(w: World, a: Act)
    requires Inv(w) && Enabled(w, a)
    ensures Inv(Apply(w, a)) && Apply(w, a).input == w.input
  {
    hide UpOk, ToolInOk, DownOk, ShimOk, Begin, Finish, Take, Next;
    UpStep(w, a);
    ToolInStep(w, a);
    DownStep(w, a);
    ShimStep(w, a);
  }

  lemma {:induction false} ReachedInv(input: seq<byte>, acts: seq<Act>, w: World)
    requires Reached(input, acts, w)
    ensures Inv(w) && w.input == input
  {
    hide Inv, Apply, Enabled, Start;
    if acts == [] {
      StartInv(input);
      StartInput(input);
    } else {
      var before, last := acts[..|acts| - 1], acts[|acts| - 1];
      var v :| Reached(input, before, v) && Leads(v, last, w);
      ReachedInv(input, before, v);
      InvStep(v, last);
    }
  }

  lemma StartInput(input: seq<byte>)
    ensures Start(input).input == input
  {
  }

  /** Shim's outputs, given how far it has read. */
  lemma ShimOutputs(w: World)
    requires DownOk(w) && ShimOk(w)
    ensures w.out <= w.toolOut && w.err <= w.toolErr
    ensures w.down.taken == |w.down.frames| ==> w.out == w.toolOut && w.err == w.toolErr
  {
    hide Payloads, PipeOk;
    var fs := w.down.frames;
    PayloadsPrefix(STDOUT, fs, w.down.taken);
    PayloadsPrefix(STDERR, fs, w.down.taken);
    assert fs[..|fs|] == fs;
  }

  /** The relay end to end, in every reachable state: what Shim has written is a prefix
      of what the tool wrote, stream by stream; what reached the tool is a prefix of the
      shim's stdin, and all of it once the end-of-stdin frame was read; and when Shim
      returns the tool's code it has written everything. The code is the tool's exactly
      when that is a 32-bit unsigned number. */
  lemma RelayIsTransparent(input: seq<byte>, acts: seq<Act>, w: World)
    requires Reached(input, acts, w)
    ensures w.out <= w.toolOut && w.err <= w.toolErr
    ensures w.toolIn <= input && (w.sawEof ==> w.toolIn == input)
    ensures w.ending.Some? && w.ending.value.Exited? ==>
      && w.out == w.toolOut && w.err == w.toolErr
      && w.exitCode.Some?
      && w.ending.value.code == w.exitCode.value % TWO_32
      && (w.ending.value.code == w.exitCode.value <==> 0 <= w.exitCode.value < TWO_32)
  {
    hide Reached, UpOk, DownOk, Payloads;
    ReachedInv(input, acts, w);
    ShimOutputs(w);
  }
}
