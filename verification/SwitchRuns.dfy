/** Theorems about all runs of SwitchMachine. */
module SwitchRuns {
  import opened Sequences
  import opened PortKey
  import opened PortWiring
  import opened SwitchMachine
  import opened SwitchSteps

  ghost predicate Inv(v: World) {
    && (forall x :: x in v.now ==> Waits(v, x))
    && AllPairs(v)
    && (forall a :: AutoOk(v, a))
    && (forall w :: SinceOk(v, w))
  }

  lemma StepCallers(v: World, a: Act)
    requires Enabled(v, a) && forall x :: x in v.now ==> Waits(v, x)
    ensures forall x :: x in Apply(v, a).now ==> Waits(Apply(v, a), x)
  {
    var v' := Apply(v, a);
    hide Waits, Moves;
    forall x | x in v'.now ensures Waits(v', x) {
      if a.Step? {
        MovesNow(v, a.k, a.m);
        MovesWaits(v, a.k, a.m, x);
      } else {
        WaitsRest(v, a, x);
      }
    }
  }

  lemma StepAuto(v: World, a: Act, n: nat)
    requires Enabled(v, a) && AllPairs(v) && AutoOk(v, n)
    ensures AutoOk(Apply(v, a), n)
  {
    hide AutoOk;
    if a.Step? {
      PairFacts(v, a.k, a.k);
      AutoWorks(v, a, n);
    } else {
      AutoRest(v, a, n);
    }
  }

  lemma InvStep(v: World, a: Act)
    requires Inv(v) && Enabled(v, a)
    ensures Inv(Apply(v, a))
  {
    var v' := Apply(v, a);
    assert AllPairs(v) && forall x :: x in v.now ==> Waits(v, x);
    StepCallers(v, a);
    PairsStep(v, a);
    hide AllPairs, AutoOk, SinceOk, Waits, Enabled, Apply;
    forall n ensures AutoOk(v', n) {
      StepAuto(v, a, n);
    }
    forall w ensures SinceOk(v', w) {
      SinceStep(v, a, w);
    }
  }

  lemma InitInv(v: World)
    requires Init(v)
    ensures Inv(v)
  {
  }

  lemma {:induction false} RunInv(v: World, acts: seq<Act>, orderly: bool, w: World)
    requires Inv(v) && Run(v, acts, orderly, w)
    ensures Inv(w)
    decreases |acts|
  {
    hide Inv, Enabled, Apply, Orderly;
    if acts != [] {
      var before, a := acts[..|acts| - 1], acts[|acts| - 1];
      var u :| Run(v, before, orderly, u) && Leads(u, a, w) && (orderly ==> Orderly(u, a));
      RunInv(v, before, orderly, u);
      InvStep(u, a);
    }
  }

  lemma {:induction false} RunFromInit(o: World, acts: seq<Act>, orderly: bool, v: World)
    requires RunsTo(o, acts, orderly, v)
    ensures Inv(v)
  {
    hide Inv, Init, Run;
    InitInv(o);
    RunInv(o, acts, orderly, v);
  }

  // ----------------------------------------------------------------- exactness

  /** No autoMap and no Map of the worker is left, and no rebind loop owes it anything. */
  ghost predicate Quiet(v: World, w: nat) {
    && (forall x :: x in v.now ==> x.worker != w)
    && (forall a :: a in v.autos ==> v.autos[a].worker != w)
    && (forall r :: r in v.owed ==> w !in v.owed[r])
  }

  /** The rebinds that a switch listed the worker for are done. */
  ghost predicate Settled(v: World, w: nat) { w in v.past.since && Quiet(v, w) }

  predicate OnActive(v: World, k: Key) { k in v.net.fwds && v.net.fwds[k].device == v.net.dev }

  /** When the port was last unmapped a Map of it was between its device read and its
      publication; the device it had read is not the active one, and did bind. */
  ghost predicate Strayed(v: World, k: Key) {
    && k in v.past.cut && v.past.cut[k].PastRead() && v.past.cut[k].Device() != v.net.dev
    && v.past.cut[k].id in v.past.answers && v.past.answers[v.past.cut[k].id].Some?
  }

  /** Since the port was last torn down in a run from `v` to `w`, an autoMap of its worker
      has read the store while the port was declared or remembered, or a map request has
      published it; or an autoMap that had read before then still had it ahead. A port
      not torn down in the run counts as sought if it was wanted when the run began. */
  ghost predicate SoughtSince(v: World, acts: seq<Act>, k: Key, w: World) {
    if acts == [] then w == v && Wanted(v, k)
    else
      var before, last := acts[..|acts| - 1], acts[|acts| - 1];
      exists u :: Run(v, before, false, u) && Leads(u, last, w) &&
        (Seeks(u, last, k) ||
         if TearsDown(u, last, k) then Awaited(u, k) else SoughtSince(v, before, k, u))
  }

  lemma {:induction false} SoughtIsWanted(v: World, acts: seq<Act>, k: Key, w: World)
    requires Run(v, acts, false, w)
    ensures SoughtSince(v, acts, k, w) <==> Wanted(w, k)
    decreases |acts|
  {
    hide Enabled, Apply, Wanted, Seeks, TearsDown, Awaited, Orderly;
    if acts != [] {
      var before, a := acts[..|acts| - 1], acts[|acts| - 1];
      forall u | Run(v, before, false, u) && Leads(u, a, w)
        ensures Wanted(w, k) <==>
          Seeks(u, a, k) || if TearsDown(u, a, k) then Awaited(u, k) else SoughtSince(v, before, k, u)
      {
        SoughtIsWanted(v, before, k, u);
        WantedStep(u, a, k);
      }
      var u :| Run(v, before, false, u) && Leads(u, a, w);
    }
  }

  lemma {:induction false} AnyRun(o: World, acts: seq<Act>, orderly: bool, v: World)
    requires Run(o, acts, orderly, v)
    ensures Run(o, acts, false, v)
    decreases |acts|
  {
    hide Leads, Orderly;
    if acts != [] {
      var before, a := acts[..|acts| - 1], acts[|acts| - 1];
      var u :| Run(o, before, orderly, u) && Leads(u, a, v) && (orderly ==> Orderly(u, a));
      AnyRun(o, before, orderly, u);
    }
  }

  lemma QuietAwaits(v: World, k: Key)
    requires Quiet(v, k.worker)
    ensures Wanted(v, k) <==> k in v.net.fwds || k in v.past.failed
  {
  }

  /** In every run: once a worker is left in peace, a port of it is mapped, or refused, if and
      only if it was sought since it was last torn down. It is never both. */
  lemma {:induction false} MappedIffSought(o: World, acts: seq<Act>, orderly: bool, v: World, k: Key)
    requires RunsTo(o, acts, orderly, v) && Quiet(v, k.worker)
    ensures k in v.net.fwds || k in v.past.failed <==> SoughtSince(o, acts, k, v)
    ensures !(k in v.net.fwds && k in v.past.failed)
  {
    hide Run, Init, Inv, Wanted;
    AnyRun(o, acts, orderly, v);
    RunFromInit(o, acts, orderly, v);
    SoughtIsWanted(o, acts, k, v);
    QuietAwaits(v, k);
    NotBoth(v, k);
  }

  lemma NotBoth(v: World, k: Key)
    requires Inv(v)
    ensures k in v.net.fwds ==> k !in v.past.failed && Mappable(k.port)
  {
    assert PairOk(v, k, k);
  }

  /** In every run: once the rebinds that a switch listed a worker for are done, a port of it
      is on the active device, or refused, if and only if it was sought since it was last
      torn down and no Map of it was caught then between reading another device and
      publishing. */
  lemma {:induction false} RebindIsExact(o: World, acts: seq<Act>, orderly: bool, v: World, k: Key)
    requires RunsTo(o, acts, orderly, v) && Settled(v, k.worker)
    ensures OnActive(v, k) || k in v.past.failed <==> SoughtSince(o, acts, k, v) && !Strayed(v, k)
    ensures k in v.net.fwds || k in v.past.failed <==> SoughtSince(o, acts, k, v)
    ensures !(k in v.net.fwds && k in v.past.failed)
  {
    hide Run, Init, Inv, OnActive, Strayed, SoughtSince;
    MappedIffSought(o, acts, orderly, v, k);
    RunFromInit(o, acts, orderly, v);
    ExactHere(v, k);
  }

  lemma ExactHere(v: World, k: Key)
    requires Inv(v) && Settled(v, k.worker)
    ensures OnActive(v, k) <==> k in v.net.fwds && !Strayed(v, k)
    ensures Strayed(v, k) ==> k in v.net.fwds
  {
    PairFacts(v, k, k);
    assert PairOk(v, k, k) && SinceOk(v, k.worker);
  }

  /** Where a port that strayed ends up: on the device its Map had read. */
  lemma {:induction false} StrayedStaysBehind(o: World, acts: seq<Act>, orderly: bool, v: World, k: Key)
    requires RunsTo(o, acts, orderly, v) && Strayed(v, k) && Quiet(v, k.worker)
    ensures k in v.net.fwds && v.net.fwds[k].device == v.past.cut[k].Device() != v.net.dev
  {
    hide Run, Init;
    RunFromInit(o, acts, orderly, v);
    PairFacts(v, k, k);
    assert PairOk(v, k, k);
  }

  /** No two forwards ever hold the same port of the same device. */
  lemma {:induction false} ForwardsAreApart(o: World, acts: seq<Act>, orderly: bool, v: World, j: Key, k: Key)
    requires RunsTo(o, acts, orderly, v)
    requires j in v.net.fwds && k in v.net.fwds && j != k
    ensures v.net.fwds[j] != v.net.fwds[k]
  {
    hide Run, Init;
    RunFromInit(o, acts, orderly, v);
    assert FwdApart(v, j, k);
  }

  // ------------------------------------------------------ the mapped set is kept

  /** Unmaps the port, or makes the store forget it. */
  ghost predicate Disturbs(u: World, a: Act, k: Key) {
    match a
    case AskUnmaps(i) => i in u.asks && u.asks[i].key == k
    case Drop(_, j) => j == k
    case Forget(i) => i in u.drops && u.drops[i] == k
    case Close(w) => w == k.worker
    case ForgetWorker(w) => w == k.worker
    case _ => false
  }

  ghost predicate CalmRun(v: World, acts: seq<Act>, k: Key, w: World) {
    if acts == [] then w == v
    else
      var before, last := acts[..|acts| - 1], acts[|acts| - 1];
      exists u :: CalmRun(v, before, k, u) && Leads(u, last, w) && !Disturbs(u, last, k)
  }

  lemma {:induction false} CalmIsRun(v: World, acts: seq<Act>, k: Key, w: World)
    requires CalmRun(v, acts, k, w)
    ensures Run(v, acts, false, w)
    decreases |acts|
  {
    hide Leads, Disturbs, Orderly;
    if acts != [] {
      var before, last := acts[..|acts| - 1], acts[|acts| - 1];
      var u :| CalmRun(v, before, k, u) && Leads(u, last, w) && !Disturbs(u, last, k);
      CalmIsRun(v, before, k, u);
    }
  }

  /** The port is wanted, or an autoMap of its worker has yet to read the store. */
  ghost predicate Expected(v: World, k: Key) {
    Wanted(v, k) || exists n :: n in v.autos && v.autos[n].worker == k.worker && v.autos[n].plan.None?
  }

  lemma KnownStep(v: World, a: Act, k: Key)
    requires Enabled(v, a) && Known(v, k)
    requires !(a.Forget? && v.drops[a.i] == k) && !(a.ForgetWorker? && a.w == k.worker)
    ensures Known(Apply(v, a), k)
  {
    hide IsPlan, Declares, UnmapOne, UnmapAll, Noted, Forgotten;
    if a.Step? {
      var r, back := MovesKeeps(v, a.k, a.m);
    } else if Unmaps(a) {
      UnmapsKeep(v, a);
    } else if a.AskNotes? {
      StoreReads(v.stored, v.asks[a.i].key, v.asks[a.i].pc.host, k.worker);
    } else if a.Forget? {
      StoreReads(v.stored, v.drops[a.i], 0, k.worker);
    }
  }

  lemma AutosKept(v: World, a: Act, n: nat)
    requires Enabled(v, a) && n in v.autos && v.autos[n].plan.None?
    requires !(a.ReadStore? && a.a == n)
    requires a.Step? ==> Waits(v, a.k)
    ensures n in Apply(v, a).autos && Apply(v, a).autos[n] == v.autos[n]
  {
    hide IsPlan, UnmapOne, UnmapAll, Held, Moves;
    if a.Step? {
      var r, back := MovesKeeps(v, a.k, a.m);
    } else if Unmaps(a) {
      UnmapsKeep(v, a);
    }
  }

  lemma ExpectedStep(v: World, a: Act, k: Key)
    requires Enabled(v, a) && !Disturbs(v, a, k) && Known(v, k) && Expected(v, k)
    ensures Expected(Apply(v, a), k)
  {
    var v' := Apply(v, a);
    hide Known, Wanted, Apply;
    WantedStep(v, a, k);
    if a.Rebind? && a.w == k.worker {
      UnmapsKeep(v, a);
      assert a.a in v'.autos && v'.autos[a.a].worker == k.worker && v'.autos[a.a].plan.None?;
    } else if !Wanted(v, k) {
      var n :| n in v.autos && v.autos[n].worker == k.worker && v.autos[n].plan.None?;
      if !(a.ReadStore? && a.a == n) {
        AutosKept(v, a, n);
      }
    }
  }

  lemma {:induction false} ExpectedPersists(v: World, acts: seq<Act>, k: Key, w: World)
    requires CalmRun(v, acts, k, w) && Known(v, k) && Expected(v, k)
    ensures Known(w, k) && Expected(w, k)
    decreases |acts|
  {
    hide Known, Expected, Enabled, Apply;
    if acts != [] {
      var before, a := acts[..|acts| - 1], acts[|acts| - 1];
      var u :| CalmRun(v, before, k, u) && Leads(u, a, w) && !Disturbs(u, a, k);
      ExpectedPersists(v, before, k, u);
      CalmKnows(u, a, k);
      ExpectedStep(u, a, k);
    }
  }

  lemma CalmKnows(u: World, a: Act, k: Key)
    requires Enabled(u, a) && !Disturbs(u, a, k) && Known(u, k)
    ensures Known(Apply(u, a), k)
  {
    hide Known;
    KnownStep(u, a, k);
  }

  /** A run maps the port and goes on, nobody unmapping or forgetting it meanwhile. */
  ghost predicate MappedThenCalm(
    o: World, earlier: seq<Act>, orderly: bool, v: World, acts: seq<Act>, k: Key, w: World)
  {
    RunsTo(o, earlier, orderly, v) && k in v.net.fwds && CalmRun(v, acts, k, w)
  }

  /** A port that was mapped, through any number of switches: once its worker's rebinds are
      done it is mapped again, or refused, if and only if it was sought since the last of
      them tore it down; and on the active device, or refused, if and only if moreover no Map
      of it strayed. */
  lemma {:induction false} SwitchKeepsTheMappedSet(
    o: World, earlier: seq<Act>, orderly: bool, v: World, acts: seq<Act>, w: World, k: Key)
    requires MappedThenCalm(o, earlier, orderly, v, acts, k, w)
    requires Settled(w, k.worker)
    ensures k in w.net.fwds || k in w.past.failed <==> SoughtSince(v, acts, k, w)
    ensures OnActive(w, k) || k in w.past.failed <==> SoughtSince(v, acts, k, w) && !Strayed(w, k)
    ensures !(k in w.net.fwds && k in w.past.failed)
  {
    hide Run, Init, CalmRun, Strayed, OnActive, Settled, SoughtSince, Wanted, Inv;
    RunFromInit(o, earlier, orderly, v);
    CalmIsRun(v, acts, k, w);
    RunInv(v, acts, false, w);
    SoughtIsWanted(v, acts, k, w);
    SettledHere(w, k);
  }

  lemma SettledHere(w: World, k: Key)
    requires Inv(w) && Settled(w, k.worker)
    ensures Wanted(w, k) <==> k in w.net.fwds || k in w.past.failed
    ensures OnActive(w, k) <==> k in w.net.fwds && !Strayed(w, k)
    ensures Strayed(w, k) ==> k in w.net.fwds
    ensures !(k in w.net.fwds && k in w.past.failed)
  {
    hide Inv, OnActive, Strayed;
    QuietAwaits(w, k);
    ExactHere(w, k);
    NotBoth(w, k);
  }

  /** What a caller can check: the port is declared or remembered, while it is mapped or while
      an autoMap of its worker has yet to read the store. Nobody unmapping or forgetting it
      from then on, it ends up sought, and so mapped or refused. */
  lemma {:induction false} NotedInTime(
    o: World, earlier: seq<Act>, orderly: bool, v: World, acts: seq<Act>, w: World, k: Key)
    requires RunsTo(o, earlier, orderly, v) && CalmRun(v, acts, k, w)
    requires Known(v, k) && Expected(v, k)
    requires Settled(w, k.worker)
    ensures SoughtSince(v, acts, k, w)
    ensures k in w.net.fwds || k in w.past.failed
    ensures OnActive(w, k) || k in w.past.failed <==> !Strayed(w, k)
  {
    hide Run, Init, Known, CalmRun, Strayed, OnActive, SoughtSince, Wanted, Inv;
    RunFromInit(o, earlier, orderly, v);
    CalmIsRun(v, acts, k, w);
    RunInv(v, acts, false, w);
    ExpectedPersists(v, acts, k, w);
    SoughtIsWanted(v, acts, k, w);
    SettledHere(w, k);
  }

  // ------------------------------------------------------------ an unmap holds

  /** After a request to unmap: once its worker is left in peace the port is mapped all the
      same, or was tried and refused, if and only if it was sought since; to begin with it
      is so exactly if an autoMap that had read the store still had it ahead. */
  lemma {:induction false} UnmapIsUndoneIff(
    o: World, earlier: seq<Act>, v: World, i: nat, acts: seq<Act>, w: World, k: Key)
    requires RunsTo(o, earlier, false, v) && Enabled(v, Drop(i, k))
    requires Run(Apply(v, Drop(i, k)), acts, false, w) && Quiet(w, k.worker)
    ensures k in w.net.fwds || k in w.past.failed <==> SoughtSince(Apply(v, Drop(i, k)), acts, k, w)
    ensures Wanted(Apply(v, Drop(i, k)), k) <==> Awaited(v, k)
  {
    hide Run, Init, SoughtSince, Wanted, Awaited, Enabled, Apply;
    SoughtIsWanted(Apply(v, Drop(i, k)), acts, k, w);
    WantedStep(v, Drop(i, k), k);
    QuietAwaits(w, k);
  }

  /** No map request publishes the port, and no autoMap reads the store while it is known. */
  ghost predicate UnsoughtRun(v: World, acts: seq<Act>, k: Key, w: World) {
    if acts == [] then w == v
    else
      var before, last := acts[..|acts| - 1], acts[|acts| - 1];
      exists u :: UnsoughtRun(v, before, k, u) && Leads(u, last, w) && !Seeks(u, last, k)
  }

  /** So a request to unmap holds if no autoMap that has read the store has the port ahead
      when it comes, and none reads the store before the port is forgotten. */
  lemma {:induction false} UnmapHolds(v: World, i: nat, acts: seq<Act>, w: World, k: Key)
    requires Enabled(v, Drop(i, k)) && !Awaited(v, k)
    requires UnsoughtRun(Apply(v, Drop(i, k)), acts, k, w)
    ensures k !in w.net.fwds && k !in w.past.failed
  {
    hide Enabled, Apply, Awaited;
    WantedStep(v, Drop(i, k), k);
    UnsoughtStays(Apply(v, Drop(i, k)), acts, k, w);
  }

  lemma {:induction false} UnsoughtStays(v: World, acts: seq<Act>, k: Key, w: World)
    requires UnsoughtRun(v, acts, k, w) && !Wanted(v, k)
    ensures !Wanted(w, k)
    decreases |acts|
  {
    hide Enabled, Apply, Seeks, Wanted, Awaited;
    if acts != [] {
      var before, a := acts[..|acts| - 1], acts[|acts| - 1];
      var u :| UnsoughtRun(v, before, k, u) && Leads(u, a, w) && !Seeks(u, a, k);
      UnsoughtStays(v, before, k, u);
      WantedStep(u, a, k);
      AwaitedIsWanted(u, k);
    }
  }

  lemma AwaitedIsWanted(v: World, k: Key)
    ensures Awaited(v, k) ==> Wanted(v, k)
  {
  }

  // ----------------------------------------------------------- willing devices

  /** The device that a Map read grants binding and hands out a port whenever asked for any. */
  ghost predicate Accepted(u: World, a: Act) {
    a.Step? && a.m.Bind? && a.k in u.now && u.now[a.k].phase.Calling? ==>
      var n := u.net.(dev := u.now[a.k].phase.d);
      Granted(n) && AnyPort(n, a.m.any).Some?
  }

  ghost predicate WillingRun(v: World, acts: seq<Act>, k: Key, w: World) {
    if acts == [] then w == v
    else
      var before, last := acts[..|acts| - 1], acts[|acts| - 1];
      exists u :: WillingRun(v, before, k, u) && Leads(u, last, w) && !Disturbs(u, last, k) && Accepted(u, last)
  }

  lemma {:induction false} WillingIsCalm(v: World, acts: seq<Act>, k: Key, w: World)
    requires WillingRun(v, acts, k, w)
    ensures CalmRun(v, acts, k, w)
    decreases |acts|
  {
    hide Leads, Disturbs, Accepted;
    if acts != [] {
      var before, last := acts[..|acts| - 1], acts[|acts| - 1];
      var u :| WillingRun(v, before, k, u) && Leads(u, last, w) && !Disturbs(u, last, k) && Accepted(u, last);
      WillingIsCalm(v, before, k, u);
    }
  }

  /** A willing device answers every Map that would take any port. */
  lemma WillingAnswers(v: World, c: Call, any: Option<int>)
    requires c.phase.Calling? && c.to == 0
    requires var n := v.net.(dev := c.phase.d); Granted(n) && AnyPort(n, any).Some?
    ensures Answer(v, c, any).Some?
  {
  }

  lemma ReturnedFailed(v: World, x: Key, r: Option<int>, k: Key)
    requires x in v.now && k !in v.past.failed
    requires r.None? && v.now[x].to == 0 ==> k != v.now[x].key
    ensures k !in Returned(v, x, r).past.failed
  {
    hide AutosAfter, AsksAfter;
  }

  lemma FailedChecks(v: World, x: Key, k: Key)
    requires x in v.now && v.now[x].key == x && Mappable(k.port) && k !in v.past.failed
    ensures k !in Checks(v, x).past.failed
  {
    hide Returned;
    if !Mappable(x.port) {
      ReturnedFailed(v, x, None, k);
    } else if x in v.net.fwds {
      ReturnedFailed(v, x, Some(v.net.fwds[x].port), k);
    }
  }

  lemma FailedBinds(v: World, x: Key, any: Option<int>, k: Key)
    requires x in v.now && v.now[x].phase.Calling? && Accepted(v, Step(x, Bind(any)))
    requires k !in v.past.failed
    ensures k !in Binds(v, x, any).past.failed
  {
    hide Returned, Answer;
    if v.now[x].to == 0 {
      WillingAnswers(v, v.now[x], any);
    } else {
      ReturnedFailed(Answered(v, x, None), x, None, k);
    }
  }

  lemma FailedPublishes(v: World, x: Key, k: Key)
    requires x in v.now && v.now[x].phase.Holding? && k !in v.past.failed
    ensures k !in Publishes(v, x).past.failed
  {
    hide Returned;
    var c := v.now[x];
    ReturnedFailed(v.(net := v.net.(fwds := v.net.fwds[x := c.phase.s])), x, Some(c.phase.s.port), k);
  }

  lemma FailedMoves(v: World, x: Key, m: Move, k: Key)
    requires x in v.now && v.now[x].key == x && Ready(v.now[x], m) && Accepted(v, Step(x, m))
    requires Mappable(k.port) && k !in v.past.failed
    ensures k !in Moves(v, x, m).past.failed
  {
    hide Checks, Binds, Publishes, Accepted;
    match m
    case Check => FailedChecks(v, x, k);
    case Bind(any) => FailedBinds(v, x, any, k);
    case Publish => FailedPublishes(v, x, k);
    case ReadDevice =>
  }

  lemma FailedStays(v: World, a: Act, k: Key)
    requires Enabled(v, a) && Accepted(v, a) && Mappable(k.port) && k !in v.past.failed
    ensures k !in Apply(v, a).past.failed
  {
    hide Moves, IsPlan, Accepted, CutAt, CutAll, Wiped, Unwired;
    if a.Step? {
      FailedMoves(v, a.k, a.m, k);
    }
  }

  lemma {:induction false} WillingNeverFails(v: World, acts: seq<Act>, k: Key, w: World)
    requires WillingRun(v, acts, k, w) && Mappable(k.port) && k !in v.past.failed
    ensures k !in w.past.failed
    decreases |acts|
  {
    hide Enabled, Apply, Accepted, Disturbs, Mappable;
    if acts != [] {
      var before, a := acts[..|acts| - 1], acts[|acts| - 1];
      var u :| WillingRun(v, before, k, u) && Leads(u, a, w) && !Disturbs(u, a, k) && Accepted(u, a);
      WillingNeverFails(v, before, k, u);
      FailedStays(u, a, k);
    }
  }

  ghost predicate MappedThenWilling(
    o: World, earlier: seq<Act>, orderly: bool, v: World, acts: seq<Act>, k: Key, w: World)
  {
    RunsTo(o, earlier, orderly, v) && k in v.net.fwds && WillingRun(v, acts, k, w)
  }

  /** So on devices that accept OS-assigned binds it is mapped again if and only if it was
      sought since, and on the active device if and only if moreover no Map of it strayed. */
  lemma {:induction false} WillingDeviceRemapsAll(
    o: World, earlier: seq<Act>, orderly: bool, v: World, acts: seq<Act>, w: World, k: Key)
    requires MappedThenWilling(o, earlier, orderly, v, acts, k, w)
    requires Settled(w, k.worker)
    ensures k in w.net.fwds <==> SoughtSince(v, acts, k, w)
    ensures OnActive(w, k) <==> SoughtSince(v, acts, k, w) && !Strayed(w, k)
  {
    hide Run, WillingRun, CalmRun, Init, Settled, Strayed, OnActive, SoughtSince, Inv;
    RunFromInit(o, earlier, orderly, v);
    NotBoth(v, k);
    WillingIsCalm(v, acts, k, w);
    WillingNeverFails(v, acts, k, w);
    SwitchKeepsTheMappedSet(o, earlier, orderly, v, acts, w, k);
  }

  // ---------------------------------------------------- remembered ports first

  /** What an autoMap has bound, in every run: first it tries the host port that the store it
      read remembers, or else a declared one. It asks for any other only after a device has
      refused that one; then it takes the port's own number if free there, and else any. */
  lemma {:induction false} RebindHonoursRemembered(
    o: World, acts: seq<Act>, orderly: bool, v: World, k: Key, any: Option<int>)
    requires RunsTo(o, acts, orderly, v)
    requires Enabled(v, Step(k, Bind(any))) && v.now[k].src.ByAuto?
    ensures var c := v.now[k]; var q := v.autos[c.src.a]; var r := q.plan.value[0];
      && Wished(Declared(v, k.worker), q.seen, r) && k == Key(q.worker, r.from)
      && c.to == (if q.second then 0 else r.host)
      && (q.second ==> q.first.Some? && q.first.value.key == k && q.first.value.to == r.host != 0
                       && Refused(q.first.value, v))
      && var n := v.net.(dev := c.phase.d);
      && var got := Answer(v, c, any);
      && (c.to != 0 && got.Some? && Sought(n, c.to) != 0 ==> got.value == Sought(n, c.to))
      && (c.to != 0 && got.None? && Granted(n) && Sought(n, c.to) != 0 ==> !Listenable(n, Sought(n, c.to)))
      && (c.to == 0 && got.Some? && Listenable(n, k.port) ==> got.value == k.port)
  {
    hide Run, Init, IsPlan, AllPairs, Wished;
    RunFromInit(o, acts, orderly, v);
    PairFacts(v, k, k);
    assert AutoOk(v, v.now[k].src.a) && NowOk(v, k);
  }
}
