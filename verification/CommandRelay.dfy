/** The two byte-stream ends of the command relay (internal/cmdrelay/cmdrelay.go): the
    frame writer, the frame reader, and the loop by which Shim renders a reply. */
module CommandRelay {
  import opened Sequences
  import opened Framing

  /** How Shim ends: with the tool's exit code, or because the link closed (code 1). */
  datatype Ending = Exited(code: int) | LinkClosed(error: ReadError)

  /** `return int(binary.BigEndian.Uint32(p))`, or 0 for a short payload. */
  function ExitCode(p: seq<byte>): int { if |p| >= 4 then FromBe32(p) else 0 }

  /** What Shim makes of a reply stream: its ending, and what it wrote where. */
  datatype Rendering = Rendering(ending: Ending, out: seq<byte>, err: seq<byte>)

  function Render(s: seq<byte>): Rendering
    decreases |s|
  {
    match Decode(s)
    case Failed(e) => Rendering(LinkClosed(e), [], [])
    case Got(f, rest) =>
      DecodeShrinks(s);
      if f.tag == EXIT then Rendering(Exited(ExitCode(f.payload)), [], [])
      else
        var r := Render(rest);
        if f.tag == STDOUT then r.(out := f.payload + r.out)
        else if f.tag == STDERR then r.(err := f.payload + r.err)
        else r
  }

  /** The payloads of one tag, end to end. */
  function Payloads(tag: byte, fs: seq<Frame>): seq<byte> {
    if fs == [] then []
    else Payloads(tag, fs[..|fs| - 1]) +
         (if fs[|fs| - 1].tag == tag then fs[|fs| - 1].payload else [])
  }

  class FrameWriter {
    var wire: seq<byte>

    constructor ()
      ensures wire == []
    {
      wire := [];
    }

    /** frame: the head and then, if there is one, the payload. */
    method WriteFrame(tag: byte, p: seq<byte>)
      modifies this
      ensures wire == old(wire) + Encode(Frame(tag, p))
    {
      wire := wire + [tag] + Be32(|p|);
      if |p| > 0 {
        wire := wire + p;
      }
    }

    method WriteExit(code: int)
      modifies this
      ensures wire == old(wire) + Encode(Frame(EXIT, Be32(code)))
    {
      WriteFrame(EXIT, Be32(code));
    }
  }

  class Reader {
    var data: seq<byte>

    constructor (data: seq<byte>)
      ensures this.data == data
    {
      this.data := data;
    }

    method Full(n: nat) returns (r: Read<seq<byte>>)
      modifies this
      ensures r == ReadFull(old(data), n)
      ensures r.Got? ==> data == r.rest
    {
      if n <= |data| {
        r := Got(data[..n], data[n..]);
        data := data[n..];
      } else {
        r := Failed(if data == [] then Eof else UnexpectedEof);
        data := [];
      }
    }

    method NextFrame() returns (r: Read<Frame>)
      modifies this
      ensures r == Decode(old(data))
      ensures r.Got? ==> data == r.rest
    {
      var head := Full(5);
      if head.Failed? {
        return Failed(head.error);
      }
      var h := head.value;
      var n := FromBe32(h[1..]);
      if n > MAX_FRAME {
        return Failed(TooLarge);
      }
      var body := Full(n);
      if body.Failed? {
        return Failed(body.error);
      }
      r := Got(Frame(h[0], body.value), body.rest);
    }
  }

  /** Shim's main loop, over everything the other end will ever have sent. */
  method ShimLoop(conn: Reader) returns (r: Rendering)
    modifies conn
    ensures r == Render(old(conn.data))
  {
    var out, err: seq<byte> := [], [];
    while true
      invariant Render(old(conn.data)) ==
        var rest := Render(conn.data); rest.(out := out + rest.out, err := err + rest.err)
      decreases |conn.data|
    {
      ghost var before := conn.data;
      DecodeShrinks(before);
      var f := conn.NextFrame();
      if f.Failed? {
        return Rendering(LinkClosed(f.error), out, err);
      }
      var tag, p := f.value.tag, f.value.payload;
      if tag == STDOUT {
        assert out + (p + Render(conn.data).out) == (out + p) + Render(conn.data).out;
        out := out + p;
      } else if tag == STDERR {
        assert err + (p + Render(conn.data).err) == (err + p) + Render(conn.data).err;
        err := err + p;
      } else if tag == EXIT {
        return Rendering(Exited(if |p| >= 4 then FromBe32(p) else 0), out, err);
      }
    }
  }

  // ------------------------------------------------------- transcripts

  predicate NoExit(fs: seq<Frame>) { forall i :: 0 <= i < |fs| ==> fs[i].tag != EXIT }

  lemma PayloadsSnoc(tag: byte, fs: seq<Frame>, f: Frame)
    ensures Payloads(tag, fs + [f]) == Payloads(tag, fs) + if f.tag == tag then f.payload else []
  {
    assert (fs + [f])[..|fs|] == fs;
  }

  lemma {:induction false} PayloadsCons(tag: byte, f: Frame, fs: seq<Frame>)
    ensures Payloads(tag, [f] + fs) == (if f.tag == tag then f.payload else []) + Payloads(tag, fs)
    decreases |fs|
  {
    var own := if f.tag == tag then f.payload else [];
    if fs == [] {
      assert [f] + fs == [] + [f];
      PayloadsSnoc(tag, [], f);
      assert own + Payloads(tag, fs) == own;
    } else {
      hide Payloads;
      var init, last := fs[..|fs| - 1], fs[|fs| - 1];
      assert fs == init + [last] && [f] + fs == ([f] + init) + [last];
      PayloadsCons(tag, f, init);
      PayloadsSnoc(tag, [f] + init, last);
      PayloadsSnoc(tag, init, last);
    }
  }

  lemma {:induction false} PayloadsConcat(tag: byte, a: seq<Frame>, b: seq<Frame>)
    ensures Payloads(tag, a + b) == Payloads(tag, a) + Payloads(tag, b)
    decreases |b|
  {
    if b == [] {
      assert a + b == a;
    } else {
      var init, last := b[..|b| - 1], b[|b| - 1];
      PayloadsConcat(tag, a, init);
      assert (a + b)[..|a + b| - 1] == a + init;
      var own := if last.tag == tag then last.payload else [];
      assert (Payloads(tag, a) + Payloads(tag, init)) + own == Payloads(tag, a) + (Payloads(tag, init) + own);
    }
  }

  lemma {:induction false} RenderStep(f: Frame, rest: seq<byte>)
    requires |f.payload| <= MAX_FRAME && f.tag != EXIT
    ensures var r := Render(rest);
      Render(Encode(f) + rest) ==
        r.(out := (if f.tag == STDOUT then f.payload else []) + r.out,
           err := (if f.tag == STDERR then f.payload else []) + r.err)
  {
    FrameRoundTrip(f, rest);
    assert [] + Render(rest).out == Render(rest).out && [] + Render(rest).err == Render(rest).err;
    hide Encode, Decode;
  }

  /** Frames that are not an exit are rendered in order; the rest of the stream decides
      how it ends. */
  lemma {:induction false} RenderFrames(fs: seq<Frame>, tail: seq<byte>)
    requires Fits(fs) && NoExit(fs)
    ensures Render(EncodeAll(fs) + tail) ==
            var r := Render(tail);
            r.(out := Payloads(STDOUT, fs) + r.out, err := Payloads(STDERR, fs) + r.err)
  {
    hide Render, Encode;
    var r := Render(tail);
    if fs == [] {
      assert EncodeAll(fs) + tail == tail;
      assert [] + r.out == r.out && [] + r.err == r.err;
    } else {
      var rest := EncodeAll(fs[1..]) + tail;
      assert EncodeAll(fs) + tail == Encode(fs[0]) + rest;
      RenderStep(fs[0], rest);
      RenderFrames(fs[1..], tail);
      assert fs == [fs[0]] + fs[1..];
      PayloadsCons(STDOUT, fs[0], fs[1..]);
      PayloadsCons(STDERR, fs[0], fs[1..]);
      hide *;
      RenderAssoc(STDOUT, fs[0], fs[1..], r.out);
      RenderAssoc(STDERR, fs[0], fs[1..], r.err);
    }
  }

  lemma RenderAssoc(tag: byte, f: Frame, fs: seq<Frame>, tail: seq<byte>)
    ensures var own := if f.tag == tag then f.payload else [];
      own + (Payloads(tag, fs) + tail) == (own + Payloads(tag, fs)) + tail
  {
  }

  /** A finished reply, however stdout and stderr were interleaved and whatever follows
      it: Shim's outputs are exactly the tool's, and the code it returns is the tool's
      exactly when that is a 32-bit unsigned number. */
  lemma {:induction false} ReplyIsRendered(fs: seq<Frame>, code: int, tail: seq<byte>)
    requires Fits(fs) && NoExit(fs)
    ensures var s := EncodeAll(fs) + (Encode(Frame(EXIT, Be32(code))) + tail);
      Render(s) == Rendering(Exited(code % TWO_32), Payloads(STDOUT, fs), Payloads(STDERR, fs))
    ensures code % TWO_32 == code <==> 0 <= code < TWO_32
  {
    var exit := Frame(EXIT, Be32(code));
    FrameRoundTrip(exit, tail);
    Be32RoundTrip(code);
    hide Encode, Decode, EncodeAll;
    RenderFrames(fs, Encode(exit) + tail);
  }

  /** A reply cut off before its exit frame: exactly the whole frames that arrived are
      rendered, and Shim reports the link closed. */
  lemma {:induction false} CutReplyIsRendered(fs: seq<Frame>, k: nat)
    requires Fits(fs) && NoExit(fs) && k <= |EncodeAll(fs)|
    ensures var r := Render(EncodeAll(fs)[..k]); var got := fs[..Complete(fs, k)];
      r.ending.LinkClosed? && r.out == Payloads(STDOUT, got) && r.err == Payloads(STDERR, got)
  {
    var n := Complete(fs, k);
    CompleteSplit(fs, k);
    var tail := EncodeAll(fs)[|EncodeAll(fs[..n])|..k];
    assert EncodeAll(fs)[..k] == EncodeAll(fs[..n]) + tail;
    RenderFrames(fs[..n], tail);
  }

  lemma CompleteSplit(fs: seq<Frame>, k: nat)
    requires Fits(fs) && k <= |EncodeAll(fs)|
    ensures var n := Complete(fs, k); var m := |EncodeAll(fs[..n])|;
      && m <= k && EncodeAll(fs[..n]) <= EncodeAll(fs)
      && Decode(EncodeAll(fs)[m..k]).Failed?
  {
    var n := Complete(fs, k);
    CompleteBytes(fs, k);
    SplitAt(fs, n);
    var m := |EncodeAll(fs[..n])|;
    assert EncodeAll(fs)[m..k] == EncodeAll(fs[n..])[..k - m];
    if n < |fs| {
      hide Complete, Decode, FromBe32, Be32;
      CutFrame(fs[n], EncodeAll(fs[n..]), k - m);
    } else {
      hide Complete, Encode, EncodeAll;
      assert EncodeAll(fs)[m..k] == [];
    }
  }

  lemma SplitAt(fs: seq<Frame>, n: nat)
    requires n <= |fs|
    ensures EncodeAll(fs) == EncodeAll(fs[..n]) + EncodeAll(fs[n..])
  {
    EncodeAllConcat(fs[..n], fs[n..]);
    assert fs == fs[..n] + fs[n..];
  }
}
