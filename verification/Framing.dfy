/** The command relay's framing (internal/cmdrelay/cmdrelay.go): a tag byte, a
    big-endian 32-bit length and a payload, behind a length-prefixed header. */
module Framing {
  import opened Sequences

  const MAX_FRAME := 1048576
  const TWO_32 := 0x1_0000_0000

  const STDIN: byte := 0
  const STDOUT: byte := 1
  const STDERR: byte := 2
  const EXIT: byte := 3
  const STDIN_EOF: byte := 9

  datatype Frame = Frame(tag: byte, payload: seq<byte>)

  /** io.ReadFull's failures, and the size check. */
  datatype ReadError = Eof | UnexpectedEof | TooLarge

  datatype Read<+T> = Got(value: T, rest: seq<byte>) | Failed(error: ReadError)

  /** binary.BigEndian.PutUint32(b, uint32(n)): the conversion keeps n modulo 2^32. */
  function Be32(n: int): (b: seq<byte>)
    ensures |b| == 4
  {
    var m := n % TWO_32;
    [(m / 0x100_0000) as byte, (m / 0x1_0000 % 0x100) as byte, (m / 0x100 % 0x100) as byte, (m % 0x100) as byte]
  }

  function FromBe32(b: seq<byte>): nat
    requires |b| >= 4
  {
    b[0] as nat * 0x100_0000 + b[1] as nat * 0x1_0000 + b[2] as nat * 0x100 + b[3] as nat
  }

  lemma Be32RoundTrip(n: int)
    ensures FromBe32(Be32(n)) == n % TWO_32
  {
    var m := n % TWO_32;
    assert m / 0x1_0000 == m / 0x100_0000 * 0x100 + m / 0x1_0000 % 0x100;
    assert m / 0x100 == m / 0x1_0000 * 0x100 + m / 0x100 % 0x100;
    assert m == m / 0x100 * 0x100 + m % 0x100;
  }

  function ReadFull(s: seq<byte>, n: nat): Read<seq<byte>> {
    if n <= |s| then Got(s[..n], s[n..])
    else Failed(if s == [] then Eof else UnexpectedEof)
  }

  function Encode(f: Frame): (r: seq<byte>)
    ensures |r| == 5 + |f.payload|
  {
    [f.tag] + Be32(|f.payload|) + f.payload
  }

  function Decode(s: seq<byte>): Read<Frame> {
    match ReadFull(s, 5)
    case Failed(e) => Failed(e)
    case Got(h, rest) =>
      var n := FromBe32(h[1..]);
      if n > MAX_FRAME then Failed(TooLarge)
      else
        match ReadFull(rest, n)
        case Failed(e) => Failed(e)
        case Got(p, rest') => Got(Frame(h[0], p), rest')
  }

  function EncodeAll(fs: seq<Frame>): seq<byte> {
    if fs == [] then [] else Encode(fs[0]) + EncodeAll(fs[1..])
  }

  /** Reading frames until a read fails. */
  function DecodeAll(s: seq<byte>): (seq<Frame>, ReadError)
    decreases |s|
  {
    match Decode(s)
    case Failed(e) => ([], e)
    case Got(f, rest) =>
      DecodeShrinks(s);
      var (fs, e) := DecodeAll(rest); ([f] + fs, e)
  }

  lemma DecodeShrinks(s: seq<byte>)
    ensures Decode(s).Got? ==> |Decode(s).rest| < |s|
  {
  }

  predicate Fits(fs: seq<Frame>) { forall i :: 0 <= i < |fs| ==> |fs[i].payload| <= MAX_FRAME }

  lemma {:induction false} HeaderRead(f: Frame, s: seq<byte>, k: nat)
    requires 5 <= k <= |s| && Encode(f) <= s
    ensures ReadFull(s[..k], 5) == Got(Encode(f)[..5], s[5..k])
    ensures Encode(f)[..5][0] == f.tag
    ensures FromBe32(Encode(f)[..5][1..]) == |f.payload| % TWO_32
  {
    assert Encode(f)[..5] == [f.tag] + Be32(|f.payload|);
    assert s[..5] == Encode(f)[..5];
    assert s[..k][..5] == s[..5] && s[..k][5..] == s[5..k];
    assert Encode(f)[..5][1..] == Be32(|f.payload|);
    Be32RoundTrip(|f.payload|);
  }

  /** A frame reads back exactly when its payload is within the limit. */
  lemma {:induction false} FrameRoundTrip(f: Frame, rest: seq<byte>)
    ensures Decode(Encode(f) + rest) == Got(f, rest) <==> |f.payload| <= MAX_FRAME
  {
    var s := Encode(f) + rest;
    assert s[..|s|] == s;
    HeaderRead(f, s, |s|);
    if |f.payload| <= MAX_FRAME {
      assert s[5..][..|f.payload|] == f.payload;
      assert s[5..][|f.payload|..] == rest;
    }
  }

  /** What a stream that ends inside a frame looks like to the reader. It is a plain
      end of file when nothing of the frame, or exactly its 5-byte head, arrived. */
  lemma CutFrame(f: Frame, s: seq<byte>, k: nat)
    requires |f.payload| <= MAX_FRAME && Encode(f) <= s && k < |Encode(f)|
    ensures Decode(s[..k]) == Failed(if k == 0 || k == 5 then Eof else UnexpectedEof)
  {
    if k >= 5 {
      HeaderRead(f, s, k);
    }
  }

  lemma DecodeAllStep(f: Frame, rest: seq<byte>)
    requires |f.payload| <= MAX_FRAME
    ensures DecodeAll(Encode(f) + rest) == ([f] + DecodeAll(rest).0, DecodeAll(rest).1)
  {
    FrameRoundTrip(f, rest);
  }

  lemma DecodeAllFailed(s: seq<byte>, e: ReadError)
    requires Decode(s) == Failed(e)
    ensures DecodeAll(s) == ([], e)
  {
  }

  lemma {:induction false} DecodeAllFrames(fs: seq<Frame>, tail: seq<byte>)
    requires Fits(fs)
    ensures DecodeAll(EncodeAll(fs) + tail) == (fs + DecodeAll(tail).0, DecodeAll(tail).1)
  {
    hide DecodeAll, Encode;
    if fs == [] {
      assert EncodeAll(fs) + tail == tail && fs + DecodeAll(tail).0 == DecodeAll(tail).0;
    } else {
      var rest := EncodeAll(fs[1..]) + tail;
      assert EncodeAll(fs) + tail == Encode(fs[0]) + rest;
      DecodeAllStep(fs[0], rest);
      DecodeAllFrames(fs[1..], tail);
      assert [fs[0]] + (fs[1..] + DecodeAll(tail).0) == fs + DecodeAll(tail).0;
    }
  }

  lemma {:induction false} EncodeAllConcat(a: seq<Frame>, b: seq<Frame>)
    ensures EncodeAll(a + b) == EncodeAll(a) + EncodeAll(b)
  {
    hide Encode, Be32;
    if a == [] {
      assert a + b == b;
    } else {
      EncodeAllConcat(a[1..], b);
      assert (a + b)[1..] == a[1..] + b;
    }
  }

  /** The frames wholly contained in the first `k` bytes. */
  function Complete(fs: seq<Frame>, k: nat): (n: nat)
    ensures n <= |fs|
  {
    if fs == [] || k < |Encode(fs[0])| then 0
    else 1 + Complete(fs[1..], k - |Encode(fs[0])|)
  }

  lemma {:induction false} CompleteBytes(fs: seq<Frame>, k: nat)
    requires k <= |EncodeAll(fs)|
    ensures var n := Complete(fs, k);
      |EncodeAll(fs[..n])| <= k && (n < |fs| ==> k < |EncodeAll(fs[..n])| + |Encode(fs[n])|)
    ensures Complete(fs, k) == |fs| ==> k == |EncodeAll(fs)|
  {
    if fs != [] && k >= |Encode(fs[0])| {
      CompleteBytes(fs[1..], k - |Encode(fs[0])|);
      var n := Complete(fs, k);
      assert fs[..n][1..] == fs[1..][..n - 1];
    }
  }

  /** A stream cut anywhere decodes to exactly the frames that arrived whole, then one
      error: never a frame that was not sent, and never "too large". */
  lemma {:induction false} AnyPrefixDecodes(fs: seq<Frame>, k: nat)
    requires Fits(fs) && k <= |EncodeAll(fs)|
    ensures var n := Complete(fs, k);
      && |EncodeAll(fs[..n])| <= k
      && var extra := k - |EncodeAll(fs[..n])|;
      DecodeAll(EncodeAll(fs)[..k]) == (fs[..n], if extra == 0 || extra == 5 then Eof else UnexpectedEof)
  {
    var s := EncodeAll(fs);
    hide DecodeAll, Encode, Decode;
    if fs == [] {
      assert s[..k] == [];
      NothingLeft();
    } else {
      var e, rest := Encode(fs[0]), EncodeAll(fs[1..]);
      if k < |e| {
        CutFrame(fs[0], s, k);
        DecodeAllFailed(s[..k], if k == 0 || k == 5 then Eof else UnexpectedEof);
        assert fs[..0] == [];
      } else {
        assert s[..k] == e + rest[..k - |e|];
        DecodeAllStep(fs[0], rest[..k - |e|]);
        AnyPrefixDecodes(fs[1..], k - |e|);
        var n := Complete(fs, k);
        assert fs[..n] == [fs[0]] + fs[1..][..n - 1];
        assert fs[..n][1..] == fs[1..][..n - 1];
      }
    }
  }

  // --------------------------------------------------------------------- header

  /** writeHeader, given the marshalled header. */
  function EncodeHeader(body: seq<byte>): seq<byte> { Be32(|body|) + body }

  function DecodeHeader(s: seq<byte>): Read<seq<byte>> {
    match ReadFull(s, 4)
    case Failed(e) => Failed(e)
    case Got(h, rest) =>
      var n := FromBe32(h);
      if n > MAX_FRAME then Failed(TooLarge) else ReadFull(rest, n)
  }

  /** The header reads back exactly when its body is within the limit. */
  lemma HeaderRoundTrip(body: seq<byte>, rest: seq<byte>)
    ensures DecodeHeader(EncodeHeader(body) + rest) == Got(body, rest) <==> |body| <= MAX_FRAME
  {
    var s := EncodeHeader(body) + rest;
    assert s[..4] == Be32(|body|);
    Be32RoundTrip(|body|);
    if |body| <= MAX_FRAME {
      assert s[4..][..|body|] == body && s[4..][|body|..] == rest;
    }
  }

  /** A whole request reads back: the header, then every frame, then end of file. */
  lemma {:induction false} RequestRoundTrip(body: seq<byte>, fs: seq<Frame>)
    requires Fits(fs) && |body| <= MAX_FRAME
    ensures DecodeHeader(EncodeHeader(body) + EncodeAll(fs)) == Got(body, EncodeAll(fs))
    ensures DecodeAll(EncodeAll(fs)) == (fs, Eof)
  {
    hide *;
    HeaderRoundTrip(body, EncodeAll(fs));
    DecodeAllFrames(fs, []);
    assert EncodeAll(fs) + [] == EncodeAll(fs);
    assert fs + [] == fs;
    NothingLeft();
  }

  lemma NothingLeft()
    ensures DecodeAll([]) == ([], Eof)
  {
  }

  /** Different requests have different encodings. */
  lemma UniquelyDecodable(body: seq<byte>, fs: seq<Frame>, body': seq<byte>, fs': seq<Frame>)
    requires Fits(fs) && Fits(fs') && |body| <= MAX_FRAME && |body'| <= MAX_FRAME
    requires EncodeHeader(body) + EncodeAll(fs) == EncodeHeader(body') + EncodeAll(fs')
    ensures body == body' && fs == fs'
  {
    RequestRoundTrip(body, fs);
    RequestRoundTrip(body', fs');
  }
}
