/** Theorems about all runs of SessionMachine. */
module SessionRuns {
  import opened Sequences
  import opened Session
  import opened SessionMachine
  import opened SessionSteps

  ghost predicate StepAt(ws: seq<World>, acts: seq<Act>, i: nat)
    requires |ws| == |acts| + 1 && i < |acts|
  {
    && ws[i].f.table.Valid()
    && Enabled(ws[i], acts[i])
    && ws[i + 1] == Apply(ws[i], acts[i])
  }

  /** A finite run: ws[i] goes to ws[i + 1] by acts[i]. */
  ghost predicate IsRun(ws: seq<World>, acts: seq<Act>) {
    && |ws| == |acts| + 1
    && Init(ws[0])
    && forall i :: 0 <= i < |acts| ==> StepAt(ws, acts, i)
  }

  lemma {:induction false} RunLife(ws: seq<World>, acts: seq<Act>, i: nat)
    requires IsRun(ws, acts) && i < |ws|
    ensures LifeInv(ws[i])
  {
    if i > 0 {
      assert StepAt(ws, acts, i - 1);
      RunLife(ws, acts, i - 1);
      LifeStep(ws[i - 1], acts[i - 1]);
    }
  }

  lemma {:induction false} RunTime(ws: seq<World>, acts: seq<Act>, i: nat)
    requires IsRun(ws, acts) && i < |ws|
    ensures TimeInv(ws[i])
  {
    if i > 0 {
      assert StepAt(ws, acts, i - 1);
      RunTime(ws, acts, i - 1);
      RunLife(ws, acts, i - 1);
      TimeStep(ws[i - 1], acts[i - 1]);
    }
  }

  lemma {:induction false} RunAttach(ws: seq<World>, acts: seq<Act>, i: nat)
    requires IsRun(ws, acts) && i < |ws|
    ensures AttachInv(ws[i])
  {
    if i > 0 {
      assert StepAt(ws, acts, i - 1);
      RunAttach(ws, acts, i - 1);
      AttachStep(ws[i - 1], acts[i - 1]);
    }
  }

  /** Attach leaves no gap. In every reachable state, what a client got from Snapshot
      is exactly the ring's worth of the output written so far, and its live chunks
      begin no later than the snapshot ends: without overflow they are every chunk
      from there on, through the last one when the session exits; with overflow they
      are some of those chunks, fewer, still in order. */
  lemma AttachHasNoGap(ws: seq<World>, acts: seq<Act>, i: nat, id: nat)
    requires IsRun(ws, acts) && i < |ws| && id in ws[i].clients
    ensures id in ws[i].f.table.chans
    ensures var w := ws[i]; var c := w.clients[id]; var ch := w.f.table.chans[id];
      && c.joined <= Until(w, id) <= |w.out|
      && (c.snap.Some? ==>
            c.joined <= c.snap.value.upto <= |w.out| &&
            c.snap.value.bytes == LastN(Flatten(w.out[..c.snap.value.upto]), RING_BYTES))
      && (!ch.lost <==> ch.sent == w.out[c.joined..Until(w, id)])
      && IsSubsequence(ch.sent, w.out[c.joined..Until(w, id)])
      && (w.f.life == Exited && c.left.None? ==> Until(w, id) == |w.out|)
  {
    RunAttach(ws, acts, i);
    assert StreamOk(ws[i], id) && SnapOk(ws[i], id);
  }

  /** The bytes side of the same fact: once a client that lost nothing has been served
      to the end, dropping the overlap from its live chunks and appending the rest to
      the snapshot gives a tail of the whole output at least as long as the ring. */
  lemma ReplayIsATailOfTheOutput(ws: seq<World>, acts: seq<Act>, i: nat, id: nat)
    requires IsRun(ws, acts) && i < |ws| && id in ws[i].clients && id in ws[i].f.table.chans
    requires ws[i].f.life == Exited && ws[i].clients[id].left.None?
    requires ws[i].clients[id].snap.Some? && !ws[i].f.table.chans[id].lost
    ensures var w := ws[i]; var c := w.clients[id]; var live := w.f.table.chans[id].sent;
      && 0 <= c.snap.value.upto - c.joined <= |live|
      && var shown := c.snap.value.bytes + Flatten(live[c.snap.value.upto - c.joined..]);
      && shown == LastN(Flatten(w.out), |shown|)
      && |LastN(Flatten(w.out), RING_BYTES)| <= |shown|
  {
    AttachHasNoGap(ws, acts, i, id);
    var w := ws[i];
    var c := w.clients[id];
    assert w.f.table.chans[id].sent[c.snap.value.upto - c.joined..] == w.out[c.snap.value.upto..];
    TailPlusRest(w.out, c.snap.value.upto, RING_BYTES);
  }

  lemma TailPlusRest(out: seq<seq<byte>>, k: nat, n: nat)
    requires k <= |out|
    ensures var shown := LastN(Flatten(out[..k]), n) + Flatten(out[k..]);
      shown == LastN(Flatten(out), |shown|) && |LastN(Flatten(out), n)| <= |shown|
  {
    assert out == out[..k] + out[k..];
    FlattenConcat(out[..k], out[k..]);
    LastNConcat(Flatten(out[..k]), Flatten(out[k..]), n);
  }

  /** No run of a session sends on a closed channel or closes one twice. */
  lemma ChannelsAreSafe(ws: seq<World>, acts: seq<Act>, i: nat)
    requires IsRun(ws, acts) && i < |ws|
    ensures var t := ws[i].f.table;
      !t.fault && forall id :: id in t.chans ==> (t.chans[id].closed <==> id !in t.subs)
  {
    RunLife(ws, acts, i);
  }

  /** Exit is final: from then on the state is Exited and nobody is registered. */
  lemma {:induction false} ExitIsFinal(ws: seq<World>, acts: seq<Act>, i: nat, j: nat)
    requires IsRun(ws, acts) && i <= j < |ws| && ws[i].f.life == Exited
    ensures ws[j].f.life == Exited && ws[j].f.table.subs == {}
    decreases j
  {
    RunLife(ws, acts, j);
    if i < j {
      assert StepAt(ws, acts, j - 1);
      ExitIsFinal(ws, acts, i, j - 1);
      RunLife(ws, acts, j - 1);
      LifeStep(ws[j - 1], acts[j - 1]);
    }
  }

  /** A tick at `first` finds a session that counts as active exactly when some output
      outside every earlier resize window is less than a second old. */
  lemma TickFollowsCountedOutput(ws: seq<World>, acts: seq<Act>, i: nat)
    requires IsRun(ws, acts) && i < |acts| && acts[i].Tick?
    ensures |ws| == |acts| + 1
    ensures ws[i + 1].f.life == Running <==>
            acts[i].first - LastCounted(ws[i].created, ws[i].log) < ACTIVE_WINDOW
  {
    assert StepAt(ws, acts, i);
    RunTime(ws, acts, i);
  }

  /** Timing of a running-to-idle transition, when this tick ended no more than `gap`
      after the previous one began; `last` is the last counted output. */
  lemma IdleAndDingTiming(ws: seq<World>, acts: seq<Act>, i: nat, gap: nat)
    requires IsRun(ws, acts) && i < |acts| && acts[i].Tick?
    requires ws[i].f.life == Running && ws[i + 1].f.life == Idle
    requires ws[i].lastTick.Some? ==> acts[i].second - ws[i].lastTick.value <= gap
    ensures var last := LastCounted(ws[i].created, ws[i].log);
      && ACTIVE_WINDOW <= acts[i].first - last
      && acts[i].second - last < ACTIVE_WINDOW + gap
      && var ev := Ticked(ws[i].kind, ws[i].f, acts[i].first, acts[i].second).1;
      && ev.Some?
      && ev.value.needsInput == IsAgent(ws[i].kind)
      && (ev.value.ding <==>
            IsAgent(ws[i].kind) && acts[i].second - ws[i].f.runningSince >= MIN_RUN_FOR_DING)
      && (ev.value.ding ==> last - ws[i].f.runningSince > MIN_RUN_FOR_DING - ACTIVE_WINDOW - gap)
  {
    assert StepAt(ws, acts, i);
    RunTime(ws, acts, i);
  }

  /** Every output from position `from` on falls in the window of some earlier resize. */
  ghost predicate OnlyRepaints(log: seq<Stamp>, from: nat) {
    forall k :: from <= k < |log| && log[k].OutputAt? ==> !Counts(log[..k], log[k].at)
  }

  lemma {:induction false} RepaintsDoNotCount(created: int, log: seq<Stamp>, from: nat)
    requires from <= |log| && OnlyRepaints(log, from)
    ensures LastCounted(created, log) == LastCounted(created, log[..from])
    decreases |log|
  {
    if from == |log| {
      assert log[..from] == log;
    } else {
      var init := log[..|log| - 1];
      forall k | from <= k < |init| && init[k].OutputAt?
        ensures !Counts(init[..k], init[k].at)
      {
        assert init[..k] == log[..k];
      }
      RepaintsDoNotCount(created, init, from);
      assert init[..from] == log[..from];
    }
  }

  lemma {:induction false} LogGrows(ws: seq<World>, acts: seq<Act>, i: nat, j: nat)
    requires IsRun(ws, acts) && i <= j < |ws|
    ensures |ws[i].log| <= |ws[j].log| && ws[j].log[..|ws[i].log|] == ws[i].log
    ensures ws[i].created == ws[j].created
    decreases j
  {
    if i < j {
      assert StepAt(ws, acts, j - 1);
      LogGrows(ws, acts, i, j - 1);
      var n := |ws[i].log|;
      assert ws[j].log[..n] == ws[j - 1].log[..n];
    } else {
      assert ws[j].log[..|ws[i].log|] == ws[i].log;
    }
  }

  lemma OnlyRepaintsBefore(log: seq<Stamp>, from: nat, n: nat)
    requires from <= n <= |log| && OnlyRepaints(log, from)
    ensures OnlyRepaints(log[..n], from)
  {
    forall k | from <= k < n && log[..n][k].OutputAt?
      ensures !Counts(log[..n][..k], log[..n][k].at)
    {
      assert log[..n][..k] == log[..k];
    }
  }

  /** Idle since a tick at `first`, when the log had `n` entries, with nothing but
      repainting after that. */
  ghost predicate Asleep(w: World, n: nat, first: int) {
    && w.f.life != Running
    && first <= w.now
    && n <= |w.log|
    && OnlyRepaints(w.log, n)
    && first - LastCounted(w.created, w.log[..n]) >= ACTIVE_WINDOW
  }

  lemma AsleepStep(w: World, a: Act, n: nat, first: int)
    requires LifeInv(w) && TimeInv(w) && Enabled(w, a)
    requires Asleep(w, n, first) && OnlyRepaints(Apply(w, a).log, n)
    ensures Asleep(Apply(w, a), n, first)
  {
    RepaintsDoNotCount(w.created, w.log, n);
    assert Apply(w, a).log[..n] == w.log[..n];
  }

  lemma FallsAsleep(ws: seq<World>, acts: seq<Act>, i: nat)
    requires IsRun(ws, acts) && i < |acts| && acts[i].Tick? && ws[i + 1].f.life == Idle
    ensures OnlyRepaints(ws[i + 1].log, |ws[i].log|)
    ensures Asleep(ws[i + 1], |ws[i].log|, acts[i].first)
  {
    assert StepAt(ws, acts, i);
    TickFollowsCountedOutput(ws, acts, i);
    assert ws[i].log[..|ws[i].log|] == ws[i].log;
  }

  /** A session a tick has found idle never becomes running again while all output
      since is post-resize repainting. */
  lemma {:induction false} RepaintingNeverWakes(ws: seq<World>, acts: seq<Act>, i: nat, j: nat)
    requires IsRun(ws, acts) && i < j < |ws|
    requires acts[i].Tick? && ws[i + 1].f.life == Idle
    requires OnlyRepaints(ws[j].log, |ws[i].log|)
    ensures Asleep(ws[j], |ws[i].log|, acts[i].first)
    decreases j
  {
    if i + 1 == j {
      FallsAsleep(ws, acts, i);
    } else {
      var n, w, a := |ws[i].log|, ws[j - 1], acts[j - 1];
      assert StepAt(ws, acts, j - 1);
      LogGrows(ws, acts, j - 1, j);
      LogGrows(ws, acts, i, j - 1);
      OnlyRepaintsBefore(ws[j].log, n, |w.log|);
      RepaintingNeverWakes(ws, acts, i, j - 1);
      RunTime(ws, acts, j - 1);
      RunLife(ws, acts, j - 1);
      AsleepStep(w, a, n, acts[i].first);
    }
  }
}
