/** The scrollback ring (internal/session/ring.go). */
module Ring {
  import opened Sequences

  /** One write: append, then keep the newest `max` bytes. */
  function Written(data: seq<byte>, p: seq<byte>, max: nat): seq<byte> {
    LastN(data + p, max)
  }

  /** The contents after a whole history of chunks, starting empty. */
  function AfterChunks(chunks: seq<seq<byte>>, max: nat): seq<byte> {
    if chunks == [] then []
    else Written(AfterChunks(chunks[..|chunks| - 1], max), chunks[|chunks| - 1], max)
  }

  /** Whatever the chunking, the ring holds exactly the last `max` bytes written. */
  lemma {:induction false} RingIsTail(chunks: seq<seq<byte>>, max: nat)
    ensures AfterChunks(chunks, max) == LastN(Flatten(chunks), max)
  {
    if chunks != [] {
      var init, p := chunks[..|chunks| - 1], chunks[|chunks| - 1];
      RingIsTail(init, max);
      LastNAppend(Flatten(init), p, max);
    }
  }

  class RingBuffer {
    var data: seq<byte>
    const max: nat
    ghost var history: seq<seq<byte>>  // every chunk ever written

    ghost predicate Valid() reads this { data == AfterChunks(history, max) }

    constructor (max: nat)
      ensures Valid() && history == [] && this.max == max
    {
      data, history := [], [];
      this.max := max;
    }

    method Write(p: seq<byte>)
      requires Valid()
      modifies this
      ensures Valid() && history == old(history) + [p]
      ensures data == Written(old(data), p, max)
      ensures data == LastN(Flatten(history), max)
    {
      data := data + p;
      if |data| > max {
        data := data[|data| - max..];
      }
      history := history + [p];
      assert history[..|history| - 1] == old(history);
      RingIsTail(history, max);
    }

    method Snapshot() returns (bytes: seq<byte>)
      requires Valid()
      ensures bytes == LastN(Flatten(history), max)
    {
      RingIsTail(history, max);
      bytes := data;
    }
  }
}
