/** Why a mapped port is a known one: in runs of SwitchMachine in which requests to unmap keep
    clear of the autoMaps and the other requests of the same worker, every mapped port is
    declared or remembered, or its request is about to note it. */
module SwitchOrder {
  import opened Sequences
  import opened PortKey
  import opened PortWiring
  import opened SwitchMachine
  import opened SwitchSteps
  import opened SwitchRuns

  ghost predicate NotingOf(v: World, k: Key) {
    exists i :: i in v.asks && v.asks[i].pc.Noting? && v.asks[i].key == k
  }

  ghost predicate KnownOk(v: World, k: Key) {
    k in v.net.fwds ==> Known(v, k) || NotingOf(v, k)
  }

  ghost predicate PlanKnown(v: World, n: nat) {
    n in v.autos && v.autos[n].plan.Some? ==>
      forall i :: 0 <= i < |v.autos[n].plan.value| ==>
        Known(v, Key(v.autos[n].worker, v.autos[n].plan.value[i].from))
  }

  /** While a request to unmap is under way, its worker has nothing else under way. */
  ghost predicate Exclusive(v: World, w: nat) { DropsOf(v, w) ==> !AutosOf(v, w) && !AsksOf(v, w) }

  ghost predicate DropOk(v: World, i: nat) { i in v.drops ==> v.drops[i] !in v.net.fwds }

  ghost predicate OrderInv(v: World) {
    && (forall x :: x in v.now ==> Waits(v, x))
    && (forall k :: KnownOk(v, k))
    && (forall n :: PlanKnown(v, n))
    && (forall w :: Exclusive(v, w))
    && (forall i :: DropOk(v, i))
  }

  lemma KnownMoves(v: World, x: Key, m: Move, k: Key)
    requires x in v.now && Ready(v.now[x], m) && Waits(v, x) && KnownOk(v, k)
    requires v.now[x].src.ByAuto? ==> PlanKnown(v, v.now[x].src.a)
    ensures KnownOk(Moves(v, x, m), k)
  {
    var r, back := MovesKeeps(v, x, m);
    var v' := Moves(v, x, m);
    hide Moves, Proceeded;
    var c := v.now[x];
    assert Known(v', k) <==> Known(v, k);
    if i :| i in v.asks && v.asks[i].pc.Noting? && v.asks[i].key == k {
      assert i in v'.asks && v'.asks[i] == v.asks[i];
    }
    if k in v'.net.fwds && k !in v.net.fwds {
      match c.src
      case ByAuto(a) => assert v.autos[a].plan.value[0].from == k.port;
      case ByAsk(i) => assert i in v'.asks && v'.asks[i].pc.Noting? && v'.asks[i].key == k;
    }
  }

  lemma NotingAsk(v: World, a: Act, i: nat)
    requires Enabled(v, a) && !a.Step? && i in v.asks && v.asks[i].pc.Noting?
    requires !(a.AskNotes? && a.i == i)
    ensures i in Apply(v, a).asks && Apply(v, a).asks[i] == v.asks[i]
  {
    hide UnmapOne, UnmapAll, IsPlan, Held, Waits, Tried;
    UnmapsKeep(v, a);
  }

  lemma NotingStays(v: World, a: Act, k: Key)
    requires Enabled(v, a) && NotingOf(v, k) && !a.Step?
    ensures NotingOf(Apply(v, a), k) || (a.AskNotes? && a.i in v.asks && v.asks[a.i].key == k)
  {
    hide Enabled, Apply;
    var i :| i in v.asks && v.asks[i].pc.Noting? && v.asks[i].key == k;
    if !(a.AskNotes? && a.i == i) {
      NotingAsk(v, a, i);
    }
  }

  lemma KnownRest(v: World, a: Act, k: Key)
    requires Enabled(v, a) && Orderly(v, a) && !a.Step? && KnownOk(v, k)
    requires a.Forget? ==> DropOk(v, a.i)
    ensures KnownOk(Apply(v, a), k)
  {
    var v' := Apply(v, a);
    if k in v'.net.fwds {
      FwdsShrink(v, a, k);
      if Known(v, k) {
        KnownHere(v, a, k);
      } else {
        NotingStays(v, a, k);
        if a.AskNotes? && v.asks[a.i].key == k {
          StoreReads(v.stored, k, v.asks[a.i].pc.host, k.worker);
        }
      }
    }
  }

  lemma FwdsShrink(v: World, a: Act, k: Key)
    requires Enabled(v, a) && !a.Step? && k in Apply(v, a).net.fwds
    ensures k in v.net.fwds
  {
    hide CutAt, CutAll, IsPlan, Moves, Held;
  }

  lemma KnownHere(v: World, a: Act, k: Key)
    requires Enabled(v, a) && Known(v, k)
    requires a.Forget? ==> v.drops[a.i] != k
    requires a.ForgetWorker? ==> a.w != k.worker
    ensures Known(Apply(v, a), k)
  {
    hide Known;
    KnownStep(v, a, k);
  }

  lemma PlanMoves(v: World, x: Key, m: Move, n: nat)
    requires x in v.now && Ready(v.now[x], m) && Waits(v, x) && PlanKnown(v, n)
    ensures PlanKnown(Moves(v, x, m), n)
  {
    var r, back := MovesKeeps(v, x, m);
    var v' := Moves(v, x, m);
    hide Moves;
    assert forall k :: Known(v', k) <==> Known(v, k);
    hide Known;
    if back && v.now[x].src == ByAuto(n) {
      var q, q' := v.autos[n], v'.autos[n];
      assert q' == Proceeded(q, v.now[x], r);
      assert q'.plan.value == q.plan.value || forall i :: 0 <= i < |q'.plan.value| ==>
        q'.plan.value[i] == q.plan.value[i + 1];
    }
  }

  lemma PlanRest(v: World, a: Act, n: nat)
    requires Enabled(v, a) && Orderly(v, a) && !a.Step? && PlanKnown(v, n)
    requires n in v.autos ==> Exclusive(v, v.autos[n].worker)
    ensures PlanKnown(Apply(v, a), n)
  {
    var v' := Apply(v, a);
    if n in v'.autos && v'.autos[n].plan.Some? {
      AutosShrink(v, a, n);
      var w, plan := v'.autos[n].worker, v'.autos[n].plan.value;
      assert AutosOf(v, w);
      assert a.Forget? && v.drops[a.i].worker == w ==> DropsOf(v, w);
      hide Apply, Enabled;
      forall i | 0 <= i < |plan| ensures Known(v', Key(w, plan[i].from)) {
        if a.ReadStore? && a.a == n {
          KnownRead(v, a, i);
        } else {
          KnownHere(v, a, Key(w, plan[i].from));
        }
      }
    }
  }

  lemma AutosShrink(v: World, a: Act, n: nat)
    requires Enabled(v, a) && !a.Step? && n in Apply(v, a).autos && Apply(v, a).autos[n].plan.Some?
    ensures n in v.autos && Apply(v, a).autos[n].worker == v.autos[n].worker
    ensures Apply(v, a).autos[n].plan == if a.ReadStore? && a.a == n then Some(a.plan) else v.autos[n].plan
  {
    hide UnmapOne, UnmapAll, IsPlan, Held;
    UnmapsKeep(v, a);
  }

  lemma KnownRead(v: World, a: Act, i: nat)
    requires Enabled(v, a) && a.ReadStore? && i < |a.plan|
    ensures Known(Apply(v, a), Key(v.autos[a.a].worker, a.plan[i].from))
  {
    var k := Key(v.autos[a.a].worker, a.plan[i].from);
    PlanAwaited(v, k.worker, a.plan, k);
  }

  // ------------------------------------------------- handlers and autoMaps apart

  lemma OwnersKept(v: World, x: Key, v': World, r: Option<int>, back: bool, w: nat)
    requires Kept(v, x, v', r, back) && AutosOf(v', w)
    ensures AutosOf(v, w)
  {
    hide AsksAfter, AutosAfter;
    var a :| a in v'.autos && v'.autos[a].worker == w;
    ProceededWorker(v, x, v', r, back, a);
  }

  lemma AsksKept(v: World, x: Key, v': World, r: Option<int>, back: bool, w: nat)
    requires Kept(v, x, v', r, back) && Waits(v, x)
    ensures AsksOf(v', w) ==> AsksOf(v, w)
    ensures DropsOf(v', w) ==> DropsOf(v, w)
  {
    hide AutosAfter;
    if i :| i in v'.asks && v'.asks[i].pc != Ended && v'.asks[i].key.worker == w {
      assert i in v.asks && v.asks[i].pc != Ended && v.asks[i].key.worker == w;
    }
    if i :| i in v'.drops && v'.drops[i].worker == w {
      assert i in v.drops && v.drops[i].worker == w;
    }
  }

  lemma ExclusiveMoves(v: World, x: Key, m: Move, w: nat)
    requires x in v.now && Ready(v.now[x], m) && Waits(v, x) && Exclusive(v, w)
    ensures Exclusive(Moves(v, x, m), w)
  {
    var r, back := MovesKeeps(v, x, m);
    var v' := Moves(v, x, m);
    hide Moves, AutosOf, AsksOf, DropsOf, Kept, Waits;
    AsksKept(v, x, v', r, back, w);
    if AutosOf(v', w) {
      OwnersKept(v, x, v', r, back, w);
    }
  }

  lemma ProceededWorker(v: World, x: Key, v': World, r: Option<int>, back: bool, a: nat)
    requires Kept(v, x, v', r, back) && a in v'.autos
    ensures a in v.autos && v'.autos[a].worker == v.autos[a].worker
  {
    hide AsksAfter;
  }

  lemma OwnersStay(v: World, a: Act, w: nat)
    requires Enabled(v, a) && !a.Step?
    ensures AutosOf(Apply(v, a), w) ==> AutosOf(v, w) || ((a.Arm? || a.Rebind?) && a.w == w)
  {
    hide Apply, Enabled;
    if n :| n in Apply(v, a).autos && Apply(v, a).autos[n].worker == w {
      AutoStays(v, a, n);
    }
  }

  lemma RequestsStay(v: World, a: Act, w: nat)
    requires Enabled(v, a) && !a.Step?
    ensures AsksOf(Apply(v, a), w) ==> AsksOf(v, w) || (a.StartAsk? && a.k.worker == w)
    ensures DropsOf(Apply(v, a), w) ==> DropsOf(v, w) || (a.Drop? && a.k.worker == w)
  {
    hide Apply, Enabled;
    var v' := Apply(v, a);
    if i :| i in v'.asks && v'.asks[i].pc != Ended && v'.asks[i].key.worker == w {
      AskStays(v, a, i);
    }
    if i :| i in v'.drops && v'.drops[i].worker == w {
      DropStays(v, a, i);
    }
  }

  lemma AskStays(v: World, a: Act, i: nat)
    requires Enabled(v, a) && !a.Step? && i in Apply(v, a).asks && Apply(v, a).asks[i].pc != Ended
    ensures
      || (i in v.asks && v.asks[i].pc != Ended && v.asks[i].key == Apply(v, a).asks[i].key)
      || (a.StartAsk? && a.k == Apply(v, a).asks[i].key)
  {
    hide UnmapOne, UnmapAll, IsPlan, Held, Waits, Tried;
    UnmapsKeep(v, a);
  }

  lemma AutoStays(v: World, a: Act, n: nat)
    requires Enabled(v, a) && !a.Step? && n in Apply(v, a).autos
    ensures (n in v.autos && v.autos[n].worker == Apply(v, a).autos[n].worker) ||
            ((a.Arm? || a.Rebind?) && a.w == Apply(v, a).autos[n].worker)
  {
    hide UnmapOne, UnmapAll, IsPlan, Held;
    UnmapsKeep(v, a);
  }

  lemma DropStays(v: World, a: Act, i: nat)
    requires Enabled(v, a) && !a.Step? && i in Apply(v, a).drops
    ensures
      || (i in v.drops && v.drops[i] == Apply(v, a).drops[i] && !(a.Forget? && a.i == i))
      || (a.Drop? && a.i == i && a.k == Apply(v, a).drops[i])
  {
    hide UnmapOne, UnmapAll, IsPlan, Held;
    UnmapsKeep(v, a);
  }

  lemma ExclusiveRest(v: World, a: Act, w: nat)
    requires Enabled(v, a) && Orderly(v, a) && !a.Step? && Exclusive(v, w)
    ensures Exclusive(Apply(v, a), w)
  {
    OwnersStay(v, a, w);
    RequestsStay(v, a, w);
    hide AutosOf, AsksOf, DropsOf, Apply, IsPlan;
  }

  /** A Map under way has an autoMap or a map request of its worker behind it. */
  lemma MapsAreOwned(v: World, x: Key)
    requires Waits(v, x)
    ensures AutosOf(v, x.worker) || AsksOf(v, x.worker)
  {
    match v.now[x].src
    case ByAuto(a) => assert a in v.autos && v.autos[a].worker == x.worker;
    case ByAsk(i) => assert i in v.asks && v.asks[i].pc != Ended && v.asks[i].key.worker == x.worker;
  }

  lemma DropMoves(v: World, x: Key, m: Move, i: nat)
    requires x in v.now && Ready(v.now[x], m) && Waits(v, x) && DropOk(v, i) && Exclusive(v, x.worker)
    ensures DropOk(Moves(v, x, m), i)
  {
    var r, back := MovesKeeps(v, x, m);
    var v' := Moves(v, x, m);
    MapsAreOwned(v, x);
    hide Moves, Waits, AutosOf, AsksOf;
  }

  lemma DropRest(v: World, a: Act, i: nat)
    requires Enabled(v, a) && !a.Step? && DropOk(v, i)
    ensures DropOk(Apply(v, a), i)
  {
    var v' := Apply(v, a);
    if i in v'.drops {
      DropStays(v, a, i);
      if v'.drops[i] in v'.net.fwds {
        FwdsShrink(v, a, v'.drops[i]);
        DropUnmaps(v, a);
      }
    }
  }

  lemma DropUnmaps(v: World, a: Act)
    requires Enabled(v, a)
    ensures a.Drop? ==> a.k !in Apply(v, a).net.fwds
  {
  }

  // ------------------------------------------------------------------ theorem

  lemma OrderStep(v: World, a: Act)
    requires OrderInv(v) && Enabled(v, a) && Orderly(v, a)
    ensures OrderInv(Apply(v, a))
  {
    var v' := Apply(v, a);
    StepCallers(v, a);
    hide KnownOk, PlanKnown, Exclusive, DropOk, Waits, Moves;
    forall k ensures KnownOk(v', k) {
      if a.Step? {
        KnownMoves(v, a.k, a.m, k);
      } else {
        KnownRest(v, a, k);
      }
    }
    forall n ensures PlanKnown(v', n) {
      if a.Step? {
        PlanMoves(v, a.k, a.m, n);
      } else {
        PlanRest(v, a, n);
      }
    }
    forall w ensures Exclusive(v', w) {
      if a.Step? {
        ExclusiveMoves(v, a.k, a.m, w);
      } else {
        ExclusiveRest(v, a, w);
      }
    }
    forall i ensures DropOk(v', i) {
      if a.Step? {
        assert Exclusive(v, a.k.worker);
        DropMoves(v, a.k, a.m, i);
      } else {
        DropRest(v, a, i);
      }
    }
  }

  lemma {:induction false} RunOrder(o: World, acts: seq<Act>, v: World)
    requires RunsTo(o, acts, true, v)
    ensures OrderInv(v)
    decreases |acts|
  {
    if acts != [] {
      hide OrderInv, Enabled, Apply, Orderly, Init;
      var before, a := acts[..|acts| - 1], acts[|acts| - 1];
      var u :| Run(o, before, true, u) && Leads(u, a, v) && (true ==> Orderly(u, a));
      RunOrder(o, before, u);
      OrderStep(u, a);
    }
  }

  /** A mapped port that no request is about to note is declared or remembered. */
  lemma {:induction false} MappedIsKnown(o: World, acts: seq<Act>, v: World, k: Key)
    requires RunsTo(o, acts, true, v)
    requires k in v.net.fwds && !NotingOf(v, k)
    ensures Known(v, k)
  {
    hide Run, Init, Known, NotingOf;
    RunOrder(o, acts, v);
    assert KnownOk(v, k);
  }

  /** So a port mapped when such a run has got so far, and not about to be noted, is mapped
      again after any number of switches, on the active device or refused, if and only if no
      Map of it strayed. */
  lemma {:induction false} OrderlySwitchKeepsTheMappedSet(
    o: World, earlier: seq<Act>, v: World, acts: seq<Act>, w: World, k: Key)
    requires MappedThenCalm(o, earlier, true, v, acts, k, w) && !NotingOf(v, k)
    requires Settled(w, k.worker)
    ensures OnActive(w, k) || k in w.past.failed <==> !Strayed(w, k)
    ensures k in w.net.fwds || k in w.past.failed
  {
    hide Run, Init, CalmRun, Known, Settled, OnActive, Strayed, NotingOf, SoughtSince;
    MappedIsKnown(o, earlier, v, k);
    NotedInTime(o, earlier, true, v, acts, w, k);
  }
}
