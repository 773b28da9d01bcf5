/** Runs of SwitchMachine in which a switch, or a request to unmap, does not do what it is
    for. Each run is a list of steps and the world before and after every step. In all of
    them one Map at a time is under way and nothing is refused. */
module SwitchFailures {
  import opened Sequences
  import opened PortKey
  import opened PortWiring
  import opened SwitchMachine
  import opened SwitchSteps
  import opened SwitchRuns

  /** Worker 1's port, and the slot it gets on the local device; device 2 grants binding. */
  const PORT := Key(1, 80)
  const OLD := Slot(LOCAL, 80)
  const PLAN := [Req(80, 80)]
  const NO_PAST := Past({}, map[], map[], {}, {})

  lemma {:induction false} Chain(stage: nat -> World, acts: seq<Act>, orderly: bool, n: nat)
    requires n <= |acts|
    requires forall i: nat :: i < n ==>
      Leads(stage(i), acts[i], stage(i + 1)) && (orderly ==> Orderly(stage(i), acts[i]))
    ensures Run(stage(0), acts[..n], orderly, stage(n))
  {
    hide Leads, Orderly;
    if n > 0 {
      Chain(stage, acts, orderly, n - 1);
      assert acts[..n][..n - 1] == acts[..n - 1];
      assert Leads(stage(n - 1), acts[n - 1], stage(n - 1 + 1));
    }
  }

  /** A Map of the port that is free to be bound on the local device, step by step. */
  function Mapping(v: World, src: Source, phase: Phase): World {
    v.(now := map[PORT := Call(0, PORT, 80, src, phase)], count := 1)
  }

  function Bound80(v: World): World {
    v.(net := v.net.(busy := {OLD}), past := v.past.(answers := map[0 := Some(OLD)]))
  }

  lemma ChecksFree(v: World, src: Source)
    requires Waits(Mapping(v, src, Started), PORT) && v.net.fwds == map[]
    ensures Leads(Mapping(v, src, Started), Step(PORT, Check), Mapping(v, src, Checked))
  {
    hide Waits;
    assert Turned(Mapping(v, src, Started), PORT, Checked) == Mapping(v, src, Checked);
  }

  lemma ReadsLocal(v: World, src: Source)
    requires Waits(Mapping(v, src, Checked), PORT) && v.net.dev == LOCAL
    ensures Leads(Mapping(v, src, Checked), Step(PORT, ReadDevice), Mapping(v, src, Calling(LOCAL)))
  {
    hide Waits;
    assert Turned(Mapping(v, src, Checked), PORT, Calling(LOCAL)) == Mapping(v, src, Calling(LOCAL));
  }

  lemma BindsOld(v: World, src: Source)
    requires Waits(Mapping(v, src, Calling(LOCAL)), PORT)
    requires v.net == Net(LOCAL, map[], {}, {2}) && v.past == NO_PAST
    ensures Leads(Mapping(v, src, Calling(LOCAL)), Step(PORT, Bind(None)), Bound80(Mapping(v, src, Holding(OLD))))
  {
    hide Waits;
    var u := Mapping(v, src, Calling(LOCAL));
    assert Answer(u, u.now[PORT], None) == Some(80);
    hide Answer;
    assert Taken(u, PORT, OLD) == Bound80(Mapping(v, src, Holding(OLD)));
  }

  lemma MapsLocally(v: World, src: Source)
    requires Waits(Mapping(v, src, Started), PORT)
    requires v.net == Net(LOCAL, map[], {}, {2}) && v.past == NO_PAST
    ensures Leads(Mapping(v, src, Started), Step(PORT, Check), Mapping(v, src, Checked))
    ensures Leads(Mapping(v, src, Checked), Step(PORT, ReadDevice), Mapping(v, src, Calling(LOCAL)))
    ensures Leads(Mapping(v, src, Calling(LOCAL)), Step(PORT, Bind(None)), Bound80(Mapping(v, src, Holding(OLD))))
  {
    hide Leads, Bound80;
    WaitsFrame(Mapping(v, src, Started), Mapping(v, src, Checked), PORT);
    WaitsFrame(Mapping(v, src, Started), Mapping(v, src, Calling(LOCAL)), PORT);
    hide Waits;
    ChecksFree(v, src);
    ReadsLocal(v, src);
    BindsOld(v, src);
  }

  /** The Map that holds the listener publishes it and returns to its caller. */
  lemma PublishesOld(v: World, src: Source)
    requires PORT in v.now && v.now - {PORT} == map[] && v.now[PORT] == Call(0, PORT, 80, src, Holding(OLD))
    requires v.net.fwds == map[] && v.past.failed == {}
    ensures Publishes(v, PORT) ==
      v.(net := v.net.(fwds := map[PORT := OLD]), now := map[],
         autos := AutosAfter(v.autos, v.now[PORT], Some(80)), asks := AsksAfter(v.asks, v.now[PORT], Some(80)))
  {
    hide AutosAfter, AsksAfter;
    assert v.past.failed - {PORT} == {};
  }

  function Auto1(plan: Option<seq<Req>>, seen: map<int, int>): Auto { Auto(1, plan, false, seen, None) }

  // Single steps that the runs are made of.

  lemma Ends(v: World, n: nat)
    requires n in v.autos && v.autos == map[n := Auto1(Some([]), v.autos[n].seen)]
    ensures Leads(v, EndAuto(n), v.(autos := map[]))
  {
    assert v.autos - {n} == map[];
  }

  lemma Reads(v: World, n: nat, plan: seq<Req>)
    requires v.autos == map[n := Auto1(None, map[])]
    requires IsPlan(Declared(v, 1), Stored(v.stored, 1), plan)
    ensures Leads(v, ReadStore(n, plan), v.(autos := map[n := Auto1(Some(plan), Stored(v.stored, 1))]))
  {
    hide IsPlan;
  }

  lemma Starts(v: World, n: nat)
    requires n in v.autos && v.autos == map[n := Auto1(Some(PLAN), v.autos[n].seen)] && v.now == map[]
    ensures Leads(v, StartAuto(n),
                  v.(now := map[PORT := Call(v.count, PORT, 80, ByAuto(n), Started)], count := v.count + 1))
  {
  }

  lemma FindsItMapped(v: World, n: nat, id: nat)
    requires n in v.autos && v.autos == map[n := Auto1(Some(PLAN), v.autos[n].seen)] && PORT in v.net.fwds
    requires v.now == map[PORT := Call(id, PORT, 80, ByAuto(n), Started)] && v.past.failed == {}
    ensures Leads(v, Step(PORT, Check), v.(now := map[], autos := map[n := Auto1(Some([]), v.autos[n].seen)]))
  {
    assert v.now - {PORT} == map[] && PLAN[1..] == [] && v.past.failed - {PORT} == {};
  }

  // --------------------------------------------------- a port that is left behind

  const LEAVING: seq<Act> := [
    Arm(1, 0), ReadStore(0, PLAN), StartAuto(0), Step(PORT, Check), Step(PORT, ReadDevice), Step(PORT, Bind(None)),
    SetDevice(2), ListRunning(0, {1}), Rebind(0, 1, 1),
    Step(PORT, Publish), EndAuto(0), ReadStore(1, PLAN), StartAuto(1), Step(PORT, Check), EndAuto(1)]

  const CAUGHT := Call(0, PORT, 80, ByAuto(0), Holding(OLD))

  /** Worker 1 declares the port. */
  const DECLARED := World(Net(LOCAL, map[], {}, {2}), map[], map[1 := [PortMap(80, 0)]], map[], map[], map[], map[],
                          map[], 0, NO_PAST)

  function Read1(): World { DECLARED.(autos := map[0 := Auto1(Some(PLAN), map[])]) }

  /** The old Map holds its listener, and device 2 has taken over. */
  function Switched(): World {
    Bound80(Mapping(Read1(), ByAuto(0), Holding(OLD))).(net := Net(2, map[], {OLD}, {2}))
  }

  function Listed(): World {
    Switched().(owed := map[0 := {1}], past := Past({}, map[], map[0 := Some(OLD)], {}, {1}))
  }

  function Torn(): World {
    Switched().(owed := map[0 := {}], autos := map[0 := Auto1(Some(PLAN), map[]), 1 := Auto1(None, map[])],
                past := Past({}, map[PORT := CAUGHT], map[0 := Some(OLD)], {1}, {1}))
  }

  /** It has published, and the rebind's autoMap has its plan. */
  function Late(autos: map<nat, Auto>): World {
    Torn().(net := Net(2, map[PORT := OLD], {OLD}, {2}), now := map[], autos := autos)
  }

  function Rechecks(): World {
    Late(map[1 := Auto1(Some(PLAN), map[])])
      .(now := map[PORT := Call(1, PORT, 80, ByAuto(1), Started)], count := 2)
  }

  function Leaving(k: nat): World {
    if k == 0 then DECLARED
    else if k == 1 then DECLARED.(autos := map[0 := Auto1(None, map[])])
    else if k == 2 then Read1()
    else if k == 3 then Mapping(Read1(), ByAuto(0), Started)
    else if k == 4 then Mapping(Read1(), ByAuto(0), Checked)
    else if k == 5 then Mapping(Read1(), ByAuto(0), Calling(LOCAL))
    else if k == 6 then Bound80(Mapping(Read1(), ByAuto(0), Holding(OLD)))
    else if k == 7 then Switched()
    else if k == 8 then Listed()
    else if k == 9 then Torn()
    else if k == 10 then Late(map[0 := Auto1(Some([]), map[]), 1 := Auto1(None, map[])])
    else if k == 11 then Late(map[1 := Auto1(None, map[])])
    else if k == 12 then Late(map[1 := Auto1(Some(PLAN), map[])])
    else if k == 13 then Rechecks()
    else if k == 14 then Late(map[1 := Auto1(Some([]), map[])]).(count := 2)
    else Late(map[]).(count := 2)
  }

  lemma DeclaredPlan()
    ensures IsPlan([PortMap(80, 0)], map[], PLAN)
  {
  }

  lemma LeavingReads(k: nat)
    requires 1 <= k < 3
    ensures Leads(Leaving(k), LEAVING[k], Leaving(k + 1)) && Orderly(Leaving(k), LEAVING[k])
  {
    DeclaredPlan();
    hide IsPlan, Leads;
    if k == 1 {
      Reads(DECLARED.(autos := map[0 := Auto1(None, map[])]), 0, PLAN);
    } else {
      Starts(Read1(), 0);
    }
  }

  lemma LeavingArms()
    ensures Leads(Leaving(0), LEAVING[0], Leaving(1)) && Orderly(Leaving(0), LEAVING[0])
  {
    hide IsPlan;
  }

  lemma LeavingMaps(k: nat)
    requires 3 <= k < 6
    ensures Leads(Leaving(k), LEAVING[k], Leaving(k + 1)) && Orderly(Leaving(k), LEAVING[k])
  {
    hide Leads;
    MapsLocally(Read1(), ByAuto(0));
  }

  lemma LeavingSwitches(k: nat)
    requires 6 <= k < 9
    ensures Leads(Leaving(k), LEAVING[k], Leaving(k + 1)) && Orderly(Leaving(k), LEAVING[k])
  {
    if k == 8 {
      TearsNothing(Listed(), 1);
      assert Listed().owed[0] - {1} == {};
    }
  }

  /** Nothing of the worker is published yet; a Map that holds a listener is caught. */
  lemma TearsNothing(v: World, w: nat)
    requires v.net.fwds == map[] && v.past.cut == map[] && v.past.failed == {}
    requires v.now == map[PORT := CAUGHT] && w == 1
    ensures UnmapAll(v, w) == v.(past := v.past.(cut := map[PORT := CAUGHT], moved := v.past.moved + {w}))
  {
    assert Wiped(v.net, w) == v.net;
    assert CutAll(v, w) == map[PORT := CAUGHT];
  }

  lemma LeavingPublishes()
    ensures Leads(Torn(), Step(PORT, Publish), Late(map[0 := Auto1(Some([]), map[]), 1 := Auto1(None, map[])]))
  {
    var v := Torn();
    PublishesOld(v, ByAuto(0));
    hide Publishes;
    assert AutosAfter(v.autos, CAUGHT, Some(80)) == map[0 := Auto1(Some([]), map[]), 1 := Auto1(None, map[])] by {
      assert PLAN[1..] == [];
    }
  }

  lemma LeavingDrops()
    ensures Leads(Late(map[0 := Auto1(Some([]), map[]), 1 := Auto1(None, map[])]), EndAuto(0),
                  Late(map[1 := Auto1(None, map[])]))
  {
    assert map[0 := Auto1(Some([]), map[]), 1 := Auto1(None, map[])] - {0} == map[1 := Auto1(None, map[])];
  }

  lemma LeavingCatches(k: nat)
    requires 9 <= k < 12
    ensures Leads(Leaving(k), LEAVING[k], Leaving(k + 1)) && Orderly(Leaving(k), LEAVING[k])
  {
    hide Leads;
    if k == 9 {
      LeavingPublishes();
    } else if k == 10 {
      LeavingDrops();
    } else {
      DeclaredPlan();
      hide IsPlan;
      Reads(Late(map[1 := Auto1(None, map[])]), 1, PLAN);
    }
  }

  lemma LeavingEnds(k: nat)
    requires 12 <= k < 15
    ensures Leads(Leaving(k), LEAVING[k], Leaving(k + 1)) && Orderly(Leaving(k), LEAVING[k])
  {
    hide Leads;
    if k == 12 {
      Starts(Late(map[1 := Auto1(Some(PLAN), map[])]), 1);
    } else if k == 13 {
      FindsItMapped(Rechecks(), 1, 1);
    } else {
      Ends(Late(map[1 := Auto1(Some([]), map[])]).(count := 2), 1);
    }
  }

  /** Every rebind finishes, and yet a declared port stays on the device that was left. */
  lemma PortLeftBehind() returns (o: World, v: World)
    ensures RunsTo(o, LEAVING, true, v)
    ensures Settled(v, 1) && v.past.failed == {}
    ensures PORT in v.net.fwds && v.net.fwds[PORT] == OLD && v.net.dev == 2
  {
    hide Leads, Orderly, Run;
    o, v := Leaving(0), Leaving(15);
    forall i: nat | i < 15 ensures Leads(Leaving(i), LEAVING[i], Leaving(i + 1)) && Orderly(Leaving(i), LEAVING[i]) {
      if i == 0 {
        LeavingArms();
      } else if i < 3 {
        LeavingReads(i);
      } else if i < 6 {
        LeavingMaps(i);
      } else if i < 9 {
        LeavingSwitches(i);
      } else if i < 12 {
        LeavingCatches(i);
      } else {
        LeavingEnds(i);
      }
    }
    Chain(Leaving, LEAVING, true, 15);
    assert LEAVING[..15] == LEAVING;
  }

  // ------------------------------------------------- a port noted after the read

  const LOSING: seq<Act> := [
    StartAsk(0, PORT, 80), AskUnmaps(0), AskMaps(0), Step(PORT, Check), Step(PORT, ReadDevice), Step(PORT, Bind(None)),
    Step(PORT, Publish)]

  const LOST: seq<Act> := [
    SetDevice(2), ListRunning(0, {1}), Rebind(0, 1, 0), ReadStore(0, []), EndAuto(0), AskNotes(0)]

  /** Nothing is declared or remembered. */
  const BARE := World(Net(LOCAL, map[], {}, {2}), map[], map[], map[], map[], map[], map[], map[], 0, NO_PAST)

  function Asking(pc: AskPc): World { BARE.(asks := map[0 := Ask(PORT, 80, pc)]) }

  function Losing(k: nat): World {
    if k == 0 then BARE
    else if k == 1 then Asking(Fresh)
    else if k == 2 then Asking(Cleared)
    else if k == 3 then Mapping(Asking(AskPc.Mapping), ByAsk(0), Started)
    else if k == 4 then Mapping(Asking(AskPc.Mapping), ByAsk(0), Checked)
    else if k == 5 then Mapping(Asking(AskPc.Mapping), ByAsk(0), Calling(LOCAL))
    else if k == 6 then Bound80(Mapping(Asking(AskPc.Mapping), ByAsk(0), Holding(OLD)))
    else Shown()
  }

  /** The request has mapped the port, and has yet to note it. */
  function Shown(): World {
    Asking(Noting(80)).(net := Net(LOCAL, map[PORT := OLD], {OLD}, {2}), count := 1,
                        past := NO_PAST.(answers := map[0 := Some(OLD)]))
  }

  /** Device 2 has taken over and the worker is rebound. */
  function Gone(autos: map<nat, Auto>): World {
    Asking(Noting(80)).(net := Net(2, map[], {}, {2}), autos := autos, owed := map[0 := {}], count := 1,
                        past := Past({}, map[], map[0 := Some(OLD)], {1}, {1}))
  }

  function Lost(k: nat): World {
    if k == 0 then Shown()
    else if k == 1 then Shown().(net := Net(2, map[PORT := OLD], {OLD}, {2}))
    else if k == 2 then
      Shown().(net := Net(2, map[PORT := OLD], {OLD}, {2}), owed := map[0 := {1}],
               past := Past({}, map[], map[0 := Some(OLD)], {}, {1}))
    else if k == 3 then Gone(map[0 := Auto1(None, map[])])
    else if k == 4 then Gone(map[0 := Auto1(Some([]), map[])])
    else if k == 5 then Gone(map[])
    else Gone(map[]).(stored := map[1 := map[80 := 80]], asks := map[0 := Ask(PORT, 80, Ended)])
  }

  lemma LosingAsks(k: nat)
    requires k < 3
    ensures Leads(Losing(k), LOSING[k], Losing(k + 1))
  {
    if k == 1 {
      UnmapsFree(Losing(1));
      hide UnmapOne;
    }
  }

  /** Unmapping what is not mapped. */
  lemma UnmapsFree(v: World)
    requires v.net.fwds == map[] && v.past.failed == {} && v.past.cut == map[] && v.now == map[]
    ensures UnmapOne(v, PORT) == v
  {
    assert v.past.failed - {PORT} == {} && v.past.cut - {PORT} == map[];
  }

  lemma LosingMaps(k: nat)
    requires 3 <= k < 6
    ensures Leads(Losing(k), LOSING[k], Losing(k + 1))
  {
    hide Leads;
    MapsLocally(Asking(AskPc.Mapping), ByAsk(0));
  }

  lemma LosingPublishes()
    ensures Leads(Losing(6), LOSING[6], Losing(7))
  {
    var v := Bound80(Mapping(Asking(AskPc.Mapping), ByAsk(0), Holding(OLD)));
    PublishesOld(v, ByAsk(0));
    hide Publishes;
    assert AsksAfter(v.asks, v.now[PORT], Some(80)) == map[0 := Ask(PORT, 80, Noting(80))];
  }

  lemma LostSwitches(k: nat)
    requires k < 3
    ensures Leads(Lost(k), LOST[k], Lost(k + 1))
  {
    if k == 2 {
      var v := Lost(2);
      TearsOld(v);
      hide UnmapAll;
      assert v.owed[0] - {1} == {};
    }
  }

  lemma TearsOld(v: World)
    requires v.net == Net(2, map[PORT := OLD], {OLD}, {2}) && v.now == map[] && v.past.cut == map[]
    requires v.past.failed == {} && v.past.moved == {}
    ensures UnmapAll(v, 1) == v.(net := Net(2, map[], {}, {2}), past := v.past.(moved := {1}))
  {
    assert Wiped(v.net, 1).fwds == map[];
    assert (set k | k in v.net.fwds && k.worker == 1 :: v.net.fwds[k]) == {OLD} by {
      assert PORT in v.net.fwds;
    }
    assert CutAll(v, 1) == map[];
  }

  lemma LostReads(k: nat)
    requires 3 <= k < 6
    ensures Leads(Lost(k), LOST[k], Lost(k + 1))
  {
    if k == 3 {
      NothingPlanned();
      hide IsPlan;
      Reads(Lost(3), 0, []);
    } else if k == 4 {
      Ends(Lost(4), 0);
    }
  }

  lemma NothingPlanned()
    ensures IsPlan([], map[], [])
  {
  }

  lemma {:induction false} CalmChain(stage: nat -> World, acts: seq<Act>, k: Key, n: nat)
    requires n <= |acts|
    requires forall i: nat :: i < n ==>
      Leads(stage(i), acts[i], stage(i + 1)) && !Disturbs(stage(i), acts[i], k)
    ensures CalmRun(stage(0), acts[..n], k, stage(n))
  {
    hide Leads, Disturbs;
    if n > 0 {
      CalmChain(stage, acts, k, n - 1);
      assert acts[..n][..n - 1] == acts[..n - 1];
      assert Leads(stage(n - 1), acts[n - 1], stage(n - 1 + 1));
    }
  }

  lemma LosingRuns()
    ensures RunsTo(Losing(0), LOSING, true, Losing(7))
  {
    hide Leads, Run;
    forall i: nat | i < 7 ensures Leads(Losing(i), LOSING[i], Losing(i + 1)) && Orderly(Losing(i), LOSING[i]) {
      if i < 3 {
        LosingAsks(i);
      } else if i < 6 {
        LosingMaps(i);
      } else {
        LosingPublishes();
      }
    }
    Chain(Losing, LOSING, true, 7);
    assert LOSING[..7] == LOSING;
  }

  lemma LostRuns()
    ensures CalmRun(Lost(0), LOST, PORT, Lost(6))
  {
    hide Leads, CalmRun;
    forall i: nat | i < 6 ensures Leads(Lost(i), LOST[i], Lost(i + 1)) && !Disturbs(Lost(i), LOST[i], PORT) {
      if i < 3 {
        LostSwitches(i);
      } else {
        LostReads(i);
      }
    }
    CalmChain(Lost, LOST, PORT, 6);
    assert LOST[..6] == LOST;
  }

  lemma LostShows(w: World)
    requires w == Lost(6)
    ensures Settled(w, 1) && Known(w, PORT) && w.past.failed == {} && !Strayed(w, PORT)
    ensures w.asks == map[0 := Ask(PORT, 80, Ended)] && Granted(w.net) && PORT !in w.net.fwds
  {
    assert Declared(w, 1) == [] && 80 in Stored(w.stored, 1);
  }

  /** A request maps a port; a device takes over before the request has noted it, and the
      autoMap of the rebind has read the store by then. The port is remembered, its request
      was answered with success, and it is mapped nowhere. */
  lemma MappedThenLost() returns (o: World, v: World, w: World)
    ensures MappedThenCalm(o, LOSING, true, v, LOST, PORT, w)
    ensures Settled(w, 1) && Known(w, PORT) && w.past.failed == {} && !Strayed(w, PORT)
    ensures w.asks == map[0 := Ask(PORT, 80, Ended)] && Granted(w.net)
    ensures PORT !in w.net.fwds && !SoughtSince(v, LOST, PORT, w)
  {
    hide *;
    o, v, w := Losing(0), Losing(7), Lost(6);
    LosingRuns();
    LostRuns();
    LostShows(w);
    MapsThenLoses(o, LOSING, LOST);
  }

  lemma MapsThenLoses(o: World, earlier: seq<Act>, acts: seq<Act>)
    requires RunsTo(o, earlier, true, Losing(7)) && CalmRun(Lost(0), acts, PORT, Lost(6))
    requires Settled(Lost(6), 1) && Lost(6).past.failed == {} && PORT !in Lost(6).net.fwds
    ensures MappedThenCalm(o, earlier, true, Losing(7), acts, PORT, Lost(6))
    ensures !SoughtSince(Losing(7), acts, PORT, Lost(6))
  {
    hide RunsTo, CalmRun, Settled, SoughtSince;
    assert Losing(7) == Lost(0) && PORT in Losing(7).net.fwds;
    SwitchKeepsTheMappedSet(o, earlier, true, Losing(7), acts, Lost(6), PORT);
  }

  // ------------------------------------------------------ an unmap that is undone

  const UNDOING: seq<Act> := [
    Arm(1, 0), ReadStore(0, PLAN), Drop(0, PORT), Forget(0), StartAuto(0),
    Step(PORT, Check), Step(PORT, ReadDevice), Step(PORT, Bind(None)), Step(PORT, Publish), EndAuto(0)]

  /** The port is remembered. */
  const REMEMBERED := BARE.(stored := map[1 := map[80 := 80]])

  const SEEN := map[80 := 80]

  /** It is forgotten, and still ahead of the autoMap. */
  function Ahead(): World { BARE.(autos := map[0 := Auto1(Some(PLAN), SEEN)]) }

  function Undone(autos: map<nat, Auto>): World {
    BARE.(net := Net(LOCAL, map[PORT := OLD], {OLD}, {2}), autos := autos, count := 1,
          past := NO_PAST.(answers := map[0 := Some(OLD)]))
  }

  function Undoing(k: nat): World {
    if k == 0 then REMEMBERED
    else if k == 1 then REMEMBERED.(autos := map[0 := Auto1(None, map[])])
    else if k == 2 then REMEMBERED.(autos := map[0 := Auto1(Some(PLAN), SEEN)])
    else if k == 3 then REMEMBERED.(autos := map[0 := Auto1(Some(PLAN), SEEN)], drops := map[0 := PORT])
    else if k == 4 then Ahead()
    else if k == 5 then Mapping(Ahead(), ByAuto(0), Started)
    else if k == 6 then Mapping(Ahead(), ByAuto(0), Checked)
    else if k == 7 then Mapping(Ahead(), ByAuto(0), Calling(LOCAL))
    else if k == 8 then Bound80(Mapping(Ahead(), ByAuto(0), Holding(OLD)))
    else if k == 9 then Undone(map[0 := Auto1(Some([]), SEEN)])
    else Undone(map[])
  }

  lemma RememberedPlan()
    ensures IsPlan([], SEEN, PLAN)
  {
    assert PLAN[0] == Req(80, 80);
  }

  lemma UndoingReads(k: nat)
    requires k < 2
    ensures Leads(Undoing(k), UNDOING[k], Undoing(k + 1))
  {
    if k == 1 {
      RememberedPlan();
      hide IsPlan;
      Reads(Undoing(1), 0, PLAN);
    }
  }

  lemma UndoingForgets(k: nat)
    requires 2 <= k < 5
    ensures Leads(Undoing(k), UNDOING[k], Undoing(k + 1))
  {
    if k == 2 {
      UnmapsFree(Undoing(2));
      hide UnmapOne;
    } else if k == 3 {
      assert SEEN - {80} == map[] && REMEMBERED.stored - {1} == map[];
      assert Undoing(3).drops - {0} == map[];
    } else {
      Starts(Undoing(4), 0);
    }
  }

  lemma UndoingMaps(k: nat)
    requires 5 <= k < 8
    ensures Leads(Undoing(k), UNDOING[k], Undoing(k + 1))
  {
    hide Leads;
    MapsLocally(Ahead(), ByAuto(0));
  }

  lemma UndoingPublishes()
    ensures Leads(Undoing(8), Step(PORT, Publish), Undoing(9))
  {
    var v := Bound80(Mapping(Ahead(), ByAuto(0), Holding(OLD)));
    PublishesOld(v, ByAuto(0));
    hide Publishes;
    assert AutosAfter(v.autos, v.now[PORT], Some(80)) == map[0 := Auto1(Some([]), SEEN)] by {
      assert PLAN[1..] == [];
    }
  }

  lemma UndoingEnds(k: nat)
    requires k == 8 || k == 9
    ensures Leads(Undoing(k), UNDOING[k], Undoing(k + 1))
  {
    hide Leads;
    if k == 8 {
      UndoingPublishes();
    } else {
      Ends(Undone(map[0 := Auto1(Some([]), SEEN)]), 0);
    }
  }

  /** A port is unmapped and forgotten, and mapped again by an autoMap that had read the
      store before: it ends up mapped, neither declared nor remembered. */
  lemma UnmapUndone() returns (o: World, w: World)
    ensures RunsTo(o, UNDOING, false, w) && Quiet(w, 1) && w.drops == map[]
    ensures PORT in w.net.fwds && !Known(w, PORT)
  {
    hide Leads, Run;
    o, w := Undoing(0), Undoing(10);
    forall i: nat | i < 10 ensures Leads(Undoing(i), UNDOING[i], Undoing(i + 1)) {
      if i < 2 {
        UndoingReads(i);
      } else if i < 5 {
        UndoingForgets(i);
      } else if i < 8 {
        UndoingMaps(i);
      } else {
        UndoingEnds(i);
      }
    }
    Chain(Undoing, UNDOING, false, 10);
    assert UNDOING[..10] == UNDOING;
  }
}
