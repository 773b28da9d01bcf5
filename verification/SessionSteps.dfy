/** What each step of SessionMachine keeps: the channels, what attached clients have, and the
    clocks. */
module SessionSteps {
  import opened Sequences
  import opened Fanout
  import opened Session
  import opened SessionMachine

  // ------------------------------------------------------------------ lifecycle

  /** No send or close ever hits a closed channel, and exit is final. */
  ghost predicate LifeInv(w: World) {
    && w.f.table.Sound()
    && w.clients.Keys == w.f.table.chans.Keys
    && (w.f.life == Exited <==> w.reader == Returned)
    && (w.f.life == Exited ==> w.f.table.subs == {})
  }

  lemma LifeStep(w: World, a: Act)
    requires LifeInv(w) && Enabled(w, a)
    ensures LifeInv(Apply(w, a))
    ensures w.f.life == Exited ==> Apply(w, a).f.life == Exited
  {
    var t := w.f.table;
    match a
    case FanOut(_, _) => BroadcastSound(t, SUBSCRIBER_CAP, w.reader.chunk);
    case Exit(_) => CloseAllSound(t);
    case _ =>
  }

  // --------------------------------------------------------------------- attach

  /** How many chunks had been fanned out when the client stopped being served. */
  function Until(w: World, id: nat): nat
    requires id in w.clients
  {
    if w.clients[id].left.Some? then w.clients[id].left.value else w.fanned
  }

  /** The channel was offered `chunks`: it took all of them, or fewer after losing one. */
  ghost predicate Carries(sent: seq<seq<byte>>, lost: bool, chunks: seq<seq<byte>>) {
    && IsSubsequence(sent, chunks)
    && (!lost ==> sent == chunks)
    && (lost ==> |sent| < |chunks|)
  }

  lemma CarriesSend(ch: Chan<seq<byte>>, chunks: seq<seq<byte>>, chunk: seq<byte>)
    requires Carries(ch.sent, ch.lost, chunks) && !ch.closed
    ensures var r := TrySend(ch, SUBSCRIBER_CAP, chunk); Carries(r.sent, r.lost, chunks + [chunk])
  {
    SubsequenceSnoc(ch.sent, chunks, chunk);
  }

  ghost predicate StreamOk(w: World, id: nat)
    requires id in w.clients && id in w.f.table.chans
  {
    var c, ch := w.clients[id], w.f.table.chans[id];
    && c.joined <= Until(w, id) <= w.fanned <= |w.out|
    && Carries(ch.sent, ch.lost, w.out[c.joined..Until(w, id)])
    && (c.left.Some? ==> id !in w.f.table.subs)
    && (c.left.None? && w.f.life != Exited ==> id in w.f.table.subs)
  }

  ghost predicate SnapOk(w: World, id: nat)
    requires id in w.clients
  {
    var c := w.clients[id];
    c.snap.Some? ==>
      && c.joined <= c.snap.value.upto <= |w.out|
      && c.snap.value.bytes == LastN(Flatten(w.out[..c.snap.value.upto]), RING_BYTES)
  }

  ghost predicate AttachInv(w: World) {
    && LifeInv(w)
    && w.ring == LastN(Flatten(w.out), RING_BYTES)
    && |w.out| == w.fanned + (if w.reader.Wrote? then 1 else 0)
    && (w.reader.Wrote? ==> w.out[w.fanned] == w.reader.chunk)
    && forall id :: id in w.clients ==> StreamOk(w, id) && SnapOk(w, id)
  }

  lemma AttachRead(w: World, chunk: seq<byte>)
    requires AttachInv(w) && Enabled(w, Read(chunk))
    ensures AttachInv(Apply(w, Read(chunk)))
  {
    hide Carries, Flatten, LastN;
    var w' := Apply(w, Read(chunk));
    LifeStep(w, Read(chunk));
    FlattenSnoc(w.out, chunk);
    LastNAppend(Flatten(w.out), chunk, RING_BYTES);
    forall id | id in w'.clients
      ensures StreamOk(w', id) && SnapOk(w', id)
    {
      assert StreamOk(w, id) && SnapOk(w, id);
      var c := w.clients[id];
      assert w'.out[c.joined..Until(w', id)] == w.out[c.joined..Until(w, id)];
      if c.snap.Some? {
        assert w'.out[..c.snap.value.upto] == w.out[..c.snap.value.upto];
      }
    }
  }

  lemma StreamFanOut(w: World, at: int, alsoFailed: bool, id: nat)
    requires LifeInv(w) && Enabled(w, FanOut(at, alsoFailed)) && id in w.clients && StreamOk(w, id)
    requires |w.out| == w.fanned + 1 && w.out[w.fanned] == w.reader.chunk
    ensures id in Apply(w, FanOut(at, alsoFailed)).f.table.chans
    ensures StreamOk(Apply(w, FanOut(at, alsoFailed)), id)
  {
    hide IsSubsequence;
    var c := w.clients[id];
    var before := w.out[c.joined..Until(w, id)];
    if id in w.f.table.subs {
      CarriesSend(w.f.table.chans[id], before, w.reader.chunk);
      assert w.out[c.joined..w.fanned + 1] == before + [w.reader.chunk];
    }
  }

  lemma AttachFanOut(w: World, at: int, alsoFailed: bool)
    requires AttachInv(w) && Enabled(w, FanOut(at, alsoFailed))
    ensures AttachInv(Apply(w, FanOut(at, alsoFailed)))
  {
    var w' := Apply(w, FanOut(at, alsoFailed));
    LifeStep(w, FanOut(at, alsoFailed));
    forall id | id in w'.clients
      ensures StreamOk(w', id) && SnapOk(w', id)
    {
      assert StreamOk(w, id) && SnapOk(w, id);
      StreamFanOut(w, at, alsoFailed, id);
    }
  }

  lemma ClientOther(w: World, a: Act, id: nat)
    requires AttachInv(w) && Enabled(w, a) && !a.Read? && !a.FanOut? && id in w.clients
    ensures id in Apply(w, a).clients && id in Apply(w, a).f.table.chans
    ensures StreamOk(Apply(w, a), id) && SnapOk(Apply(w, a), id)
  {
    hide Carries, Flatten, LastN, Broadcast;
    assert StreamOk(w, id) && SnapOk(w, id);
    assert w.out[..|w.out|] == w.out;
    match a
    case TakeSnapshot(_) =>
    case ReceiveOne(_) =>
    case CancelSub(_) =>
    case Exit(_) =>
    case _ =>
  }

  lemma AttachOther(w: World, a: Act)
    requires AttachInv(w) && Enabled(w, a) && !a.Read? && !a.FanOut?
    ensures AttachInv(Apply(w, a))
  {
    var w' := Apply(w, a);
    LifeStep(w, a);
    forall id | id in w'.clients
      ensures StreamOk(w', id) && SnapOk(w', id)
    {
      if id in w.clients {
        ClientOther(w, a, id);
      } else {
        assert w.out[w.fanned..w.fanned] == [];
      }
    }
  }

  lemma AttachStep(w: World, a: Act)
    requires AttachInv(w) && Enabled(w, a)
    ensures AttachInv(Apply(w, a))
  {
    match a
    case Read(chunk) => AttachRead(w, chunk);
    case FanOut(at, alsoFailed) => AttachFanOut(w, at, alsoFailed);
    case _ => AttachOther(w, a);
  }

  // --------------------------------------------------------------------- timing

  /** Output counts as activity only outside every resize window opened before it. */
  ghost predicate Counts(log: seq<Stamp>, at: int) {
    forall i :: 0 <= i < |log| && log[i].ResizeAt? ==> at > log[i].at + RESIZE_QUIET
  }

  /** The time of the last output that counts, or of creation. */
  ghost function LastCounted(created: int, log: seq<Stamp>): int {
    if log == [] then created
    else
      var init, e := log[..|log| - 1], log[|log| - 1];
      if e.OutputAt? && Counts(init, e.at) then e.at else LastCounted(created, init)
  }

  lemma LastCountedSnoc(created: int, log: seq<Stamp>, e: Stamp)
    ensures LastCounted(created, log + [e]) ==
            if e.OutputAt? && Counts(log, e.at) then e.at else LastCounted(created, log)
  {
    assert (log + [e])[..|log|] == log;
  }

  ghost predicate TimeInv(w: World) {
    && w.f.table.Sound()
    && 0 < w.created <= w.f.lastOutput <= w.now
    && w.f.lastOutput == LastCounted(w.created, w.log)
    && w.f.runningSince <= w.now
    && w.tickLog <= |w.log|
    // suppressUntil is the end of the latest window, so it covers every earlier one
    && (forall i :: 0 <= i < |w.log| && w.log[i].ResizeAt? ==>
          w.log[i].at <= w.now && w.log[i].at + RESIZE_QUIET <= w.f.suppressUntil)
    && (w.f.suppressUntil == 0 ||
        (exists i :: 0 <= i < |w.log| && w.log[i] == ResizeAt(w.f.suppressUntil - RESIZE_QUIET)))
    && (w.lastTick.Some? ==> w.lastTick.value <= w.now)
    && (w.f.life == Running ==>
          w.lastTick.Some? && w.lastTick.value - w.f.lastOutput < ACTIVE_WINDOW)
    && (w.f.life == Idle && w.lastTick.Some? ==>
          w.lastTick.value - LastCounted(w.created, w.log[..w.tickLog]) >= ACTIVE_WINDOW)
  }

  lemma TimeFanOut(w: World, at: int, alsoFailed: bool)
    requires LifeInv(w) && TimeInv(w) && Enabled(w, FanOut(at, alsoFailed))
    ensures TimeInv(Apply(w, FanOut(at, alsoFailed)))
  {
    var w' := Apply(w, FanOut(at, alsoFailed));
    LifeStep(w, FanOut(at, alsoFailed));
    hide Broadcast, LifeInv;
    LastCountedSnoc(w.created, w.log, OutputAt(at));
    WindowsCount(w, at);
    hide Counts, LastCounted;
    assert w'.log[..w.tickLog] == w.log[..w.tickLog];
    assert forall i :: 0 <= i < |w.log| ==> w'.log[i] == w.log[i];
  }

  /** Output counts exactly after the end of the latest window. */
  lemma WindowsCount(w: World, at: int)
    requires TimeInv(w) && w.now <= at
    ensures at > w.f.suppressUntil <==> Counts(w.log, at)
  {
  }

  lemma TimeResize(w: World, at: int)
    requires LifeInv(w) && TimeInv(w) && Enabled(w, Resize(at))
    ensures TimeInv(Apply(w, Resize(at)))
  {
    var w' := Apply(w, Resize(at));
    LifeStep(w, Resize(at));
    hide LifeInv, Counts;
    LastCountedSnoc(w.created, w.log, ResizeAt(at));
    hide LastCounted;
    assert w'.log[|w.log|] == ResizeAt(at);
    assert w'.log[..w.tickLog] == w.log[..w.tickLog];
  }

  lemma TimeTick(w: World, first: int, second: int)
    requires LifeInv(w) && TimeInv(w) && Enabled(w, Tick(first, second))
    ensures TimeInv(Apply(w, Tick(first, second)))
  {
    LifeStep(w, Tick(first, second));
    hide LifeInv, Counts, LastCounted;
    assert w.log[..|w.log|] == w.log;
  }

  lemma TimeOther(w: World, a: Act)
    requires LifeInv(w) && TimeInv(w) && Enabled(w, a) && !a.FanOut? && !a.Resize? && !a.Tick?
    ensures TimeInv(Apply(w, a))
  {
    LifeStep(w, a);
    hide Counts, LastCounted, CloseAll;
  }

  lemma TimeStep(w: World, a: Act)
    requires LifeInv(w) && TimeInv(w) && Enabled(w, a)
    ensures TimeInv(Apply(w, a))
  {
    hide LifeInv, TimeInv;
    match a
    case FanOut(at, alsoFailed) => TimeFanOut(w, at, alsoFailed);
    case Resize(at) => TimeResize(w, at);
    case Tick(first, second) => TimeTick(w, first, second);
    case _ => TimeOther(w, a);
  }
}
