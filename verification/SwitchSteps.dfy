/** What every step of SwitchMachine keeps: each lemma speaks of one Map, one port or one
    autoMap, and of one kind of step. */
module SwitchSteps {
  import opened Sequences
  import opened PortKey
  import opened PortWiring
  import opened SwitchMachine

  // -------------------------------------------------------------- preservation

  predicate Unmaps(a: Act) { a.Rebind? || a.Close? || a.AskUnmaps? || a.Drop? }

  /** Everything the invariant says of a Map, of a port and of the two together. */
  ghost predicate PairOk(v: World, w: Key, k: Key) {
    NowOk(v, w) && FwdOk(v, k) && CutOk(v, k) && CutApart(v, k, w) && HeldApart(v, w, k)
  }

  lemma AnswerFree(v: World, c: Call, any: Option<int>)
    requires c.phase.Calling?
    ensures Answer(v, c, any).Some? ==>
      Slot(c.phase.d, Answer(v, c, any).value) !in v.net.busy
  {
  }

  /** A Map of `x` returns or moves on; `w` and `k` are any Map and any port. */
  lemma ReturnPair(v: World, x: Key, r: Option<int>, w: Key, k: Key)
    requires x in v.now && v.now[x].phase == Started
    requires PairOk(v, w, k) && PairOk(v, x, k) && PairOk(v, k, k) && NowApart(v, w, x)
    requires r.None? ==> x !in v.net.fwds
    ensures PairOk(Returned(v, x, r), w, k)
  {
    hide AutosAfter, AsksAfter;
  }

  lemma CheckPair(v: World, x: Key, w: Key, k: Key)
    requires x in v.now && v.now[x].phase == Started
    requires PairOk(v, w, k) && PairOk(v, x, k) && PairOk(v, k, k) && NowApart(v, w, x)
    requires FwdOk(v, x)
    ensures PairOk(Checks(v, x), w, k)
  {
    if !Mappable(x.port) {
      ReturnPair(v, x, None, w, k);
    } else if x in v.net.fwds {
      ReturnPair(v, x, Some(v.net.fwds[x].port), w, k);
    }
  }

  lemma ReadPair(v: World, x: Key, w: Key, k: Key)
    requires x in v.now && v.now[x].phase == Checked
    requires PairOk(v, w, k) && PairOk(v, x, k) && PairOk(v, k, k) && NowApart(v, w, x)
    ensures PairOk(Turned(v, x, Calling(v.net.dev)), w, k)
  {
  }

  lemma RefusedPair(v: World, x: Key, w: Key, k: Key)
    requires x in v.now && v.now[x].phase.Calling?
    requires PairOk(v, w, k) && PairOk(v, x, k) && PairOk(v, k, k) && NowApart(v, w, x)
    ensures PairOk(Returned(Answered(v, x, None), x, None), w, k)
  {
    hide AutosAfter, AsksAfter;
  }

  lemma HoldPair(v: World, x: Key, s: Slot, w: Key, k: Key)
    requires x in v.now && v.now[x].phase == Calling(s.device) && s !in v.net.busy
    requires PairOk(v, w, k) && PairOk(v, x, k) && PairOk(v, k, k) && NowApart(v, w, x)
    ensures PairOk(Taken(v, x, s), w, k)
  {
  }

  lemma BindPair(v: World, x: Key, any: Option<int>, w: Key, k: Key)
    requires x in v.now && v.now[x].phase.Calling?
    requires PairOk(v, w, k) && PairOk(v, x, k) && PairOk(v, k, k) && NowApart(v, w, x)
    ensures PairOk(Binds(v, x, any), w, k)
  {
    hide PairOk, NowApart, Returned, Taken, Answered, Answer;
    var c := v.now[x];
    AnswerFree(v, c, any);
    if Answer(v, c, any).None? {
      RefusedPair(v, x, w, k);
    } else {
      HoldPair(v, x, Slot(c.phase.d, Answer(v, c, any).value), w, k);
    }
  }

  lemma PublishPair(v: World, x: Key, w: Key, k: Key)
    requires x in v.now && v.now[x].phase.Holding?
    requires PairOk(v, w, k) && PairOk(v, x, k) && PairOk(v, k, k) && NowApart(v, w, x)
    ensures PairOk(Publishes(v, x), w, k)
  {
    hide AutosAfter, AsksAfter;
  }

  lemma UnmapOnePair(v: World, j: Key, w: Key, k: Key)
    requires PairOk(v, w, k) && PairOk(v, k, k) && HeldApart(v, w, j) && FwdApart(v, j, k)
    requires NowOk(v, j) && NowApart(v, w, j)
    ensures PairOk(UnmapOne(v, j), w, k)
  {
  }

  lemma CutAllAt(v: World, x: nat, k: Key)
    ensures k in CutAll(v, x) <==> if k.worker == x then InFlight(v, k) else k in v.past.cut
    ensures k in CutAll(v, x) ==> CutAll(v, x)[k] == if k.worker == x then v.now[k] else v.past.cut[k]
  {
  }

  lemma UnmapAllNow(v: World, x: nat, w: Key)
    requires NowOk(v, w) && forall j :: HeldApart(v, w, j)
    ensures NowOk(UnmapAll(v, x), w)
  {
    CutAllAt(v, x, w);
    hide CutAll;
    forall j | j in v.net.fwds && w in v.now && v.now[w].phase.Holding?
      ensures v.now[w].phase.s != v.net.fwds[j]
    {
      assert HeldApart(v, w, j);
    }
  }

  lemma UnmapAllFwd(v: World, x: nat, k: Key)
    requires FwdOk(v, k) && forall j :: FwdApart(v, j, k)
    ensures FwdOk(UnmapAll(v, x), k)
  {
    CutAllAt(v, x, k);
    hide CutAll;
    forall j | j in v.net.fwds && j != k && k in v.net.fwds ensures v.net.fwds[j] != v.net.fwds[k] {
      assert FwdApart(v, j, k);
    }
  }

  lemma UnmapAllCut(v: World, x: nat, w: Key, k: Key)
    requires CutOk(v, k) && NowOk(v, k) && CutApart(v, k, w) && HeldApart(v, w, k) && NowApart(v, w, k)
    ensures CutOk(UnmapAll(v, x), k) && CutApart(UnmapAll(v, x), k, w) && HeldApart(UnmapAll(v, x), w, k)
  {
    CutAllAt(v, x, k);
    hide CutAll;
  }

  lemma UnmapAllPair(v: World, x: nat, w: Key, k: Key)
    requires PairOk(v, w, k) && PairOk(v, k, k) && NowApart(v, w, k)
    requires forall j :: HeldApart(v, w, j) && FwdApart(v, j, k)
    ensures PairOk(UnmapAll(v, x), w, k)
  {
    hide NowOk, FwdOk, CutOk, CutApart, HeldApart, NowApart, FwdApart, UnmapAll;
    UnmapAllNow(v, x, w);
    UnmapAllFwd(v, x, k);
    UnmapAllCut(v, x, w, k);
  }

  lemma BegunPair(v: World, x: Key, to: int, src: Source, w: Key, k: Key)
    requires x !in v.now && AnswerOk(v, v.count)
    requires PairOk(v, w, k) && PairOk(v, k, k)
    ensures PairOk(Begun(v, x, to, src), w, k)
  {
  }

  /** Nothing the invariant of a pair speaks of changes, except by becoming freer. */
  ghost predicate Frames(v: World, v': World) {
    && v'.now == v.now && v'.count == v.count && v'.net.fwds == v.net.fwds
    && v'.past.cut == v.past.cut && v'.past.answers == v.past.answers
    && v'.past.failed == v.past.failed
    && (v'.past.moved == {} || (v'.past.moved == v.past.moved && v'.net.dev == v.net.dev))
    && forall s :: s in v.net.busy && s !in v'.net.busy ==> s !in v.net.fwds.Values && !Held(v, s)
  }

  lemma FramesPair(v: World, v': World, w: Key, k: Key)
    requires Frames(v, v') && PairOk(v, w, k)
    ensures PairOk(v', w, k)
  {
    if k in v.net.fwds {
      assert v.net.fwds[k] in v.net.fwds.Values;
    }
    if w in v.now && v.now[w].phase.Holding? {
      assert Held(v, v.now[w].phase.s);
    }
  }

  /** Steps that only frame the pairs. */
  predicate Framed(a: Act) {
    || a.SetDevice? || a.ListRunning? || a.Arm? || a.ReadStore? || a.EndAuto? || a.StartAsk?
    || a.AskNotes? || a.Forget? || a.ForgetWorker? || a.Occupy? || a.Vacate?
  }

  lemma FramedFrames(v: World, a: Act)
    requires Enabled(v, a) && Framed(a)
    ensures Frames(v, Apply(v, a))
  {
    hide IsPlan, Noted, Forgotten, Stored;
  }

  ghost predicate AllPairs(v: World) {
    && (forall w, k :: PairOk(v, w, k))
    && (forall w, x :: NowApart(v, w, x))
    && (forall j, k :: FwdApart(v, j, k))
    && (forall id :: AnswerOk(v, id))
  }

  lemma PairStep(v: World, a: Act, w: Key, k: Key)
    requires Enabled(v, a) && AllPairs(v)
    ensures PairOk(Apply(v, a), w, k)
  {
    PairFacts(v, w, k);
    hide AllPairs, PairOk, NowOk, FwdOk, NowApart, FwdApart, AnswerOk, HeldApart, Frames;
    hide Begun, UnmapOne, UnmapAll, Moves, IsPlan, Held;
    if Framed(a) {
      FramedFrames(v, a);
      FramesPair(v, Apply(v, a), w, k);
    } else {
      MovedPair(v, a, w, k);
    }
  }

  /** The instances that steps on other workers and ports need. */
  lemma PairFacts(v: World, w: Key, k: Key)
    requires AllPairs(v)
    ensures forall x :: PairOk(v, x, k) && NowOk(v, x) && NowApart(v, w, x)
    ensures PairOk(v, w, k) && AnswerOk(v, v.count)
    ensures forall j :: HeldApart(v, w, j) && FwdApart(v, j, k) && FwdOk(v, j)
  {
    forall x ensures PairOk(v, x, k) && NowOk(v, x) && NowApart(v, w, x) {
      assert PairOk(v, x, k);
    }
    forall j ensures HeldApart(v, w, j) && FwdApart(v, j, k) && FwdOk(v, j) {
      assert PairOk(v, w, j);
    }
  }

  lemma MovesPair(v: World, x: Key, m: Move, w: Key, k: Key)
    requires x in v.now && Ready(v.now[x], m)
    requires PairOk(v, w, k) && PairOk(v, x, k) && PairOk(v, k, k) && NowApart(v, w, x)
    requires FwdOk(v, x)
    ensures PairOk(Moves(v, x, m), w, k)
  {
    hide PairOk, FwdOk, NowApart, Checks, Binds, Publishes, Turned;
    match m
    case Check => CheckPair(v, x, w, k);
    case ReadDevice => ReadPair(v, x, w, k);
    case Bind(any) => BindPair(v, x, any, w, k);
    case Publish => PublishPair(v, x, w, k);
  }

  lemma MovedPair(v: World, a: Act, w: Key, k: Key)
    requires Enabled(v, a) && !Framed(a)
    requires forall x :: PairOk(v, x, k) && NowOk(v, x) && NowApart(v, w, x)
    requires AnswerOk(v, v.count)
    requires forall j :: HeldApart(v, w, j) && FwdApart(v, j, k) && FwdOk(v, j)
    ensures PairOk(Apply(v, a), w, k)
  {
    hide PairOk, NowOk, FwdOk, NowApart, FwdApart, AnswerOk, HeldApart, Frames, IsPlan;
    hide Begun, UnmapOne, UnmapAll, Moves;
    assert PairOk(v, w, k) && PairOk(v, k, k) && NowApart(v, w, k);
    match a
    case Rebind(r, x, n) =>
      UnmapAllPair(v, x, w, k);
      SamePair(UnmapAll(v, x), Apply(v, a), w, k);
    case Close(x) => UnmapAllPair(v, x, w, k);
    case AskUnmaps(i) =>
      var j := v.asks[i].key;
      assert NowOk(v, j) && NowApart(v, w, j) && HeldApart(v, w, j) && FwdApart(v, j, k);
      UnmapOnePair(v, j, w, k);
      SamePair(UnmapOne(v, j), Apply(v, a), w, k);
    case Drop(i, j) =>
      assert NowOk(v, j) && NowApart(v, w, j) && HeldApart(v, w, j) && FwdApart(v, j, k);
      UnmapOnePair(v, j, w, k);
      SamePair(UnmapOne(v, j), Apply(v, a), w, k);
    case StartAuto(n) =>
      var q := v.autos[n];
      BegunPair(v, Key(q.worker, q.plan.value[0].from), Tried(q), ByAuto(n), w, k);
    case AskMaps(i) =>
      var j := v.asks[i].key;
      BegunPair(v, j, v.asks[i].local, ByAsk(i), w, k);
      SamePair(Begun(v, j, v.asks[i].local, ByAsk(i)), Apply(v, a), w, k);
    case Step(x, m) =>
      assert PairOk(v, x, k) && NowApart(v, w, x) && FwdOk(v, x);
      MovesPair(v, x, m, w, k);
  }

  lemma SamePair(v: World, v': World, w: Key, k: Key)
    requires PairOk(v, w, k)
    requires v'.now == v.now && v'.count == v.count && v'.net == v.net && v'.past == v.past
    ensures PairOk(v', w, k)
  {
  }

  ghost predicate ApartOk(v: World, w: Key, x: Key, j: Key, k: Key, id: nat) {
    NowApart(v, w, x) && FwdApart(v, j, k) && AnswerOk(v, id)
  }

  lemma ReturnApart(v: World, y: Key, r: Option<int>, w: Key, x: Key, j: Key, k: Key, id: nat)
    requires y in v.now && ApartOk(v, w, x, j, k, id)
    ensures ApartOk(Returned(v, y, r), w, x, j, k, id)
  {
    hide AutosAfter, AsksAfter, FailedAfter;
  }

  lemma TurnApart(v: World, y: Key, p: Phase, w: Key, x: Key, j: Key, k: Key, id: nat)
    requires y in v.now && !p.Holding? && ApartOk(v, w, x, j, k, id)
    ensures ApartOk(Turned(v, y, p), w, x, j, k, id)
  {
  }

  lemma CheckApart(v: World, y: Key, w: Key, x: Key, j: Key, k: Key, id: nat)
    requires y in v.now && ApartOk(v, w, x, j, k, id)
    ensures ApartOk(Checks(v, y), w, x, j, k, id)
  {
    hide Returned, Turned, ApartOk;
    ReturnApart(v, y, None, w, x, j, k, id);
    TurnApart(v, y, Checked, w, x, j, k, id);
    if y in v.net.fwds {
      ReturnApart(v, y, Some(v.net.fwds[y].port), w, x, j, k, id);
    }
  }

  lemma AnswerApart(v: World, y: Key, r: Option<Slot>, w: Key, x: Key, j: Key, k: Key, id: nat)
    requires y in v.now && ApartOk(v, w, x, j, k, id) && NowOk(v, y)
    ensures ApartOk(Answered(v, y, r), w, x, j, k, id)
  {
  }

  lemma TakenApart(v: World, y: Key, s: Slot, w: Key, x: Key, j: Key, k: Key, id: nat)
    requires y in v.now && ApartOk(v, w, x, j, k, id) && s !in v.net.busy
    requires NowOk(v, w) && NowOk(v, x) && NowOk(v, y)
    ensures ApartOk(Taken(v, y, s), w, x, j, k, id)
  {
  }

  lemma BindApart(v: World, y: Key, any: Option<int>, w: Key, x: Key, j: Key, k: Key, id: nat)
    requires y in v.now && v.now[y].phase.Calling? && ApartOk(v, w, x, j, k, id)
    requires NowOk(v, w) && NowOk(v, x) && NowOk(v, y)
    ensures ApartOk(Binds(v, y, any), w, x, j, k, id)
  {
    hide Returned, Taken, Answer, ApartOk, NowOk;
    var c := v.now[y];
    AnswerFree(v, c, any);
    AnswerApart(v, y, None, w, x, j, k, id);
    if Answer(v, c, any).None? {
      AnsweredNow(v, y, None);
      ReturnApart(Answered(v, y, None), y, None, w, x, j, k, id);
    } else {
      TakenApart(v, y, Slot(c.phase.d, Answer(v, c, any).value), w, x, j, k, id);
    }
  }

  lemma AnsweredNow(v: World, y: Key, r: Option<Slot>)
    requires y in v.now
    ensures Answered(v, y, r).now == v.now
  {
  }

  lemma PublishApart(v: World, y: Key, w: Key, x: Key, j: Key, k: Key, id: nat)
    requires y in v.now && v.now[y].phase.Holding? && ApartOk(v, w, x, j, k, id)
    requires HeldApart(v, y, j) && HeldApart(v, y, k)
    ensures ApartOk(Publishes(v, y), w, x, j, k, id)
  {
    hide AutosAfter, AsksAfter, FailedAfter;
  }

  lemma UnmapApart(v: World, y: nat, i: Key, w: Key, x: Key, j: Key, k: Key, id: nat)
    requires ApartOk(v, w, x, j, k, id)
    ensures ApartOk(UnmapOne(v, i), w, x, j, k, id) && ApartOk(UnmapAll(v, y), w, x, j, k, id)
  {
    hide CutAt, CutAll;
  }

  lemma BegunApart(v: World, y: Key, to: int, src: Source, w: Key, x: Key, j: Key, k: Key, id: nat)
    requires y !in v.now && ApartOk(v, w, x, j, k, id) && NowOk(v, w) && NowOk(v, x)
    ensures ApartOk(Begun(v, y, to, src), w, x, j, k, id)
  {
  }

  /** Nothing that keeps ids and slots apart changes. */
  lemma SameApart(v: World, v': World, w: Key, x: Key, j: Key, k: Key, id: nat)
    requires ApartOk(v, w, x, j, k, id)
    requires v'.now == v.now && v'.net.fwds == v.net.fwds
    requires v'.past.answers == v.past.answers && v'.count == v.count
    ensures ApartOk(v', w, x, j, k, id)
  {
  }

  lemma ApartStep(v: World, a: Act, w: Key, x: Key, j: Key, k: Key, id: nat)
    requires Enabled(v, a) && AllPairs(v)
    ensures ApartOk(Apply(v, a), w, x, j, k, id)
  {
    PairFacts(v, w, j);
    PairFacts(v, x, k);
    assert ApartOk(v, w, x, j, k, id);
    assert NowOk(v, w) && NowOk(v, x);
    if Framed(a) {
      FramedFrames(v, a);
      SameApart(v, Apply(v, a), w, x, j, k, id);
    } else {
      if a.Step? {
        assert PairOk(v, a.k, j) && PairOk(v, a.k, k);
      }
      MovedApart(v, a, w, x, j, k, id);
    }
  }

  lemma MovesApart(v: World, y: Key, m: Move, w: Key, x: Key, j: Key, k: Key, id: nat)
    requires y in v.now && Ready(v.now[y], m) && ApartOk(v, w, x, j, k, id)
    requires NowOk(v, w) && NowOk(v, x) && NowOk(v, y) && HeldApart(v, y, j) && HeldApart(v, y, k)
    ensures ApartOk(Moves(v, y, m), w, x, j, k, id)
  {
    hide ApartOk, NowOk, HeldApart, Checks, Binds, Publishes, Turned;
    match m
    case Check => CheckApart(v, y, w, x, j, k, id);
    case ReadDevice => TurnApart(v, y, Calling(v.net.dev), w, x, j, k, id);
    case Bind(any) => BindApart(v, y, any, w, x, j, k, id);
    case Publish => PublishApart(v, y, w, x, j, k, id);
  }

  lemma MovedApart(v: World, a: Act, w: Key, x: Key, j: Key, k: Key, id: nat)
    requires Enabled(v, a) && !Framed(a) && ApartOk(v, w, x, j, k, id) && NowOk(v, w) && NowOk(v, x)
    requires a.Step? ==> NowOk(v, a.k) && HeldApart(v, a.k, j) && HeldApart(v, a.k, k)
    ensures ApartOk(Apply(v, a), w, x, j, k, id)
  {
    hide ApartOk, NowOk, HeldApart, IsPlan;
    hide Begun, UnmapOne, UnmapAll, Moves;
    match a
    case Rebind(r, y, n) =>
      UnmapApart(v, y, Key(0, 0), w, x, j, k, id);
      SameApart(UnmapAll(v, y), Apply(v, a), w, x, j, k, id);
    case Close(y) => UnmapApart(v, y, Key(0, 0), w, x, j, k, id);
    case AskUnmaps(i) =>
      UnmapApart(v, 0, v.asks[i].key, w, x, j, k, id);
      SameApart(UnmapOne(v, v.asks[i].key), Apply(v, a), w, x, j, k, id);
    case Drop(i, y) =>
      UnmapApart(v, 0, y, w, x, j, k, id);
      SameApart(UnmapOne(v, y), Apply(v, a), w, x, j, k, id);
    case StartAuto(n) =>
      var q := v.autos[n];
      BegunApart(v, Key(q.worker, q.plan.value[0].from), Tried(q), ByAuto(n), w, x, j, k, id);
    case AskMaps(i) =>
      var y := v.asks[i].key;
      BegunApart(v, y, v.asks[i].local, ByAsk(i), w, x, j, k, id);
      SameApart(Begun(v, y, v.asks[i].local, ByAsk(i)), Apply(v, a), w, x, j, k, id);
    case Step(y, m) => MovesApart(v, y, m, w, x, j, k, id);
  }

  lemma PairsStep(v: World, a: Act)
    requires Enabled(v, a) && AllPairs(v)
    ensures AllPairs(Apply(v, a))
  {
    var v' := Apply(v, a);
    hide AllPairs, PairOk, NowApart, FwdApart, AnswerOk;
    forall w, k ensures PairOk(v', w, k) {
      PairStep(v, a, w, k);
    }
    forall w, x ensures NowApart(v', w, x) {
      ApartStep(v, a, w, x, Key(0, 0), Key(0, 0), 0);
    }
    forall j, k ensures FwdApart(v', j, k) {
      ApartStep(v, a, Key(0, 0), Key(0, 0), j, k, 0);
    }
    forall id ensures AnswerOk(v', id) {
      ApartStep(v, a, Key(0, 0), Key(0, 0), Key(0, 0), Key(0, 0), id);
    }
    Gather(v');
  }

  lemma Gather(v: World)
    requires forall w, k :: PairOk(v, w, k)
    requires forall w, x :: NowApart(v, w, x)
    requires forall j, k :: FwdApart(v, j, k)
    requires forall id :: AnswerOk(v, id)
    ensures AllPairs(v)
  {
    hide PairOk, NowApart, FwdApart, AnswerOk;
  }

  // ------------------------------------------------------ autoMaps and wishes

  lemma ReturnedWaits(v: World, x: Key, r: Option<int>, w: Key)
    requires Waits(v, x) && Waits(v, w) && w != x
    ensures Waits(Returned(v, x, r), w)
  {
    hide FailedAfter, Proceeded;
  }

  /** A Map keeps its caller if its key, try and caller stay as they are. */
  lemma WaitsFrame(v: World, v': World, w: Key)
    requires Waits(v, w) && w in v'.now
    requires v'.now[w].key == v.now[w].key && v'.now[w].to == v.now[w].to && v'.now[w].src == v.now[w].src
    requires match v.now[w].src
             case ByAuto(a) => a in v'.autos && v'.autos[a] == v.autos[a]
             case ByAsk(i) => i in v'.asks && v'.asks[i] == v.asks[i]
    ensures Waits(v', w)
  {
  }

  lemma CheckWaits(v: World, x: Key, w: Key)
    requires x in v.now && w in v.now
    requires Waits(v, x) && Waits(v, w)
    ensures w in Checks(v, x).now ==> Waits(Checks(v, x), w)
  {
    hide Returned, Waits;
    ReturnedNow(v, x, None);
    if x in v.net.fwds {
      ReturnedNow(v, x, Some(v.net.fwds[x].port));
    }
    if w != x {
      ReturnedWaits(v, x, None, w);
      if x in v.net.fwds {
        ReturnedWaits(v, x, Some(v.net.fwds[x].port), w);
      }
    }
    TurnedWaits(v, x, Checked, w);
  }

  lemma TurnedWaits(v: World, x: Key, p: Phase, w: Key)
    requires Waits(v, x) && Waits(v, w)
    ensures Waits(Turned(v, x, p), w)
  {
  }

  /** Only what has nothing to do with callers changes. */
  lemma WaitsSame(v: World, v': World, w: Key)
    requires Waits(v, w) && v'.now == v.now && v'.autos == v.autos && v'.asks == v.asks
    ensures Waits(v', w)
  {
  }

  lemma BindWaits(v: World, x: Key, any: Option<int>, w: Key)
    requires x in v.now && w in v.now
    requires Waits(v, x) && v.now[x].phase.Calling? && Waits(v, w)
    ensures w in Binds(v, x, any).now ==> Waits(Binds(v, x, any), w)
  {
    hide Returned, Waits, Answer;
    var u := Answered(v, x, None);
    WaitsSame(v, u, w);
    WaitsSame(v, u, x);
    ReturnedNow(u, x, None);
    if w != x {
      ReturnedWaits(u, x, None, w);
    }
    forall s ensures Waits(Taken(v, x, s), w) {
      var t := Answered(v, x, Some(s));
      WaitsSame(v, t, w);
      WaitsSame(v, t, x);
      TurnedWaits(t, x, Holding(s), w);
      WaitsSame(Turned(t, x, Holding(s)), Taken(v, x, s), w);
    }
  }

  lemma ReturnedNow(v: World, x: Key, r: Option<int>)
    requires x in v.now
    ensures Returned(v, x, r).now == v.now - {x}
  {
  }

  lemma PublishWaits(v: World, x: Key, w: Key)
    requires x in v.now && w in v.now
    requires Waits(v, x) && v.now[x].phase.Holding? && Waits(v, w)
    ensures w in Publishes(v, x).now ==> Waits(Publishes(v, x), w)
  {
    hide Returned, Waits;
    var c := v.now[x];
    var u := v.(net := v.net.(fwds := v.net.fwds[x := c.phase.s]));
    WaitsSame(v, u, w);
    WaitsSame(v, u, x);
    ReturnedNow(u, x, Some(c.phase.s.port));
    if w != x {
      ReturnedWaits(u, x, Some(c.phase.s.port), w);
    }
  }

  lemma MovesWaits(v: World, x: Key, m: Move, w: Key)
    requires x in v.now && w in v.now && Ready(v.now[x], m)
    requires Waits(v, x) && Waits(v, w)
    ensures w in Moves(v, x, m).now ==> Waits(Moves(v, x, m), w)
  {
    hide Waits, Checks, Turned, Binds, Publishes;
    match m
    case Check => CheckWaits(v, x, w);
    case ReadDevice => TurnedWaits(v, x, Calling(v.net.dev), w);
    case Bind(any) => BindWaits(v, x, any, w);
    case Publish => PublishWaits(v, x, w);
  }

  lemma MovesNow(v: World, x: Key, m: Move)
    requires x in v.now && Ready(v.now[x], m)
    ensures Moves(v, x, m).now.Keys <= v.now.Keys
  {
    hide Checks, Turned, Binds, Publishes, Moves;
    var r, back := MovesKeeps(v, x, m);
  }

  /** Unmapping touches no Map and no caller. */
  lemma UnmapKeeps(v: World, k: Key, w: nat)
    ensures var v' := UnmapOne(v, k); v' == v.(net := v'.net, past := v'.past)
    ensures var v' := UnmapAll(v, w); v' == v.(net := v'.net, past := v'.past)
  {
  }

  /** What the steps that unmap do to everything but the forwards and the history. */
  lemma UnmapsKeep(v: World, a: Act)
    requires Enabled(v, a)
    ensures Unmaps(a) ==>
      var v' := Apply(v, a);
      && v'.now == v.now && v'.count == v.count && v'.stored == v.stored && v'.declared == v.declared
      && v'.autos == (if a.Rebind? then v.autos[a.a := Auto(a.w, None, false, map[], None)] else v.autos)
      && v'.asks == (if a.AskUnmaps? then v.asks[a.i := v.asks[a.i].(pc := Cleared)] else v.asks)
      && v'.drops == (if a.Drop? then v.drops[a.i := a.k] else v.drops)
  {
    if Unmaps(a) {
      hide UnmapOne, UnmapAll;
      match a
      case AskUnmaps(i) => UnmapKeeps(v, v.asks[i].key, 0);
      case Drop(_, k) => UnmapKeeps(v, k, 0);
      case Rebind(_, w, _) => UnmapKeeps(v, Key(0, 0), w);
      case Close(w) => UnmapKeeps(v, Key(0, 0), w);
    }
  }

  lemma WaitsRest(v: World, a: Act, w: Key)
    requires Enabled(v, a) && (w in v.now ==> Waits(v, w)) && w in Apply(v, a).now
    requires !a.Step?
    ensures Waits(Apply(v, a), w)
  {
    hide IsPlan, UnmapAll, UnmapOne, Noted, Forgotten, Held;
    UnmapsKeep(v, a);
    if w in v.now {
      WaitsFrame(v, Apply(v, a), w);
    }
  }

  // -------------------------------------------------------------- wanted ports

  /** A map request publishes the port, or an autoMap of its worker reads the store while it
      is declared or remembered. */
  ghost predicate Seeks(v: World, a: Act, k: Key) {
    || (a == Step(k, Publish) && k in v.now && v.now[k].src.ByAsk?)
    || (a.ReadStore? && a.a in v.autos && v.autos[a.a].worker == k.worker && Known(v, k))
  }

  /** Tears the port down, with others or alone. */
  ghost predicate TearsDown(v: World, a: Act, k: Key) {
    match a
    case Rebind(_, w, _) => w == k.worker
    case Close(w) => w == k.worker
    case AskUnmaps(i) => i in v.asks && v.asks[i].key == k
    case Drop(_, j) => j == k
    case _ => false
  }

  /** Whether a step leaves the port wanted: tearing it down leaves it so exactly if it is
      still ahead of an autoMap that has read the store. */
  ghost predicate Leaves(v: World, a: Act, k: Key) {
    Seeks(v, a, k) || if TearsDown(v, a, k) then Awaited(v, k) else Wanted(v, k)
  }

  lemma SameAwaits(v: World, v': World, n: nat, k: Key)
    requires v'.autos == v.autos
    ensures Awaits(v', n, k) <==> Awaits(v, n, k)
  {
  }

  /** Everything a wanted port hangs on is the same. */
  lemma SameWanted(v: World, v': World, k: Key)
    requires k in v'.net.fwds <==> k in v.net.fwds
    requires k in v'.past.failed <==> k in v.past.failed
    requires forall n :: Awaits(v', n, k) <==> Awaits(v, n, k)
    ensures Wanted(v', k) <==> Wanted(v, k)
  {
    hide Awaits;
    if n :| Awaits(v, n, k) {
      assert Awaits(v', n, k);
    }
    if n :| Awaits(v', n, k) {
      assert Awaits(v, n, k);
    }
  }

  /** What is ahead of the caller once its Map has returned. */
  lemma ProceededAwaits(v: World, x: Key, r: Option<int>, n: nat, k: Key)
    requires Waits(v, x)
    ensures Awaits(Returned(v, x, r), n, k) ==> Awaits(v, n, k)
    ensures Awaits(v, n, k) ==>
      || Awaits(Returned(v, x, r), n, k)
      || (x == k && v.now[x].src == ByAuto(n) && (r.Some? || v.now[x].to == 0))
    ensures v.now[x].src == ByAuto(n) ==> Awaits(v, n, x)
  {
    hide FailedAfter, AsksAfter;
    var c := v.now[x];
    var v' := Returned(v, x, r);
    if c.src == ByAuto(n) {
      var q, q' := v.autos[n], v'.autos[n];
      assert q.plan.value[0].from == x.port;
      if i :| 0 <= i < |q'.plan.value| && q'.plan.value[i].from == k.port {
        assert q'.plan == q.plan || q.plan.value[i + 1] == q'.plan.value[i];
      }
      if i :| 0 <= i < |q.plan.value| && q.plan.value[i].from == k.port {
        assert q'.plan == q.plan || i == 0 || q'.plan.value[i - 1] == q.plan.value[i];
      }
    }
  }

  lemma ReturnWanted(v: World, x: Key, r: Option<int>, k: Key)
    requires x in v.now && v.now[x].key == x && Waits(v, x)
    requires r.Some? ==> x in v.net.fwds
    ensures Wanted(Returned(v, x, r), k) <==> Wanted(v, k)
  {
    hide Awaits, Waits, AutosAfter, AsksAfter;
    var v' := Returned(v, x, r);
    if n :| Awaits(v, n, k) {
      ProceededAwaits(v, x, r, n, k);
      assert Awaits(v', n, k) || k in v'.net.fwds || k in v'.past.failed;
    }
    if n :| Awaits(v', n, k) {
      ProceededAwaits(v, x, r, n, k);
    }
    if x == k && v.now[x].src.ByAuto? {
      ProceededAwaits(v, x, r, v.now[x].src.a, k);
    }
  }

  lemma CheckWanted(v: World, x: Key, k: Key)
    requires x in v.now && v.now[x].key == x && Waits(v, x)
    ensures Wanted(Checks(v, x), k) <==> Wanted(v, k)
  {
    hide Returned, Waits, Wanted;
    ReturnWanted(v, x, None, k);
    if x in v.net.fwds {
      ReturnWanted(v, x, Some(v.net.fwds[x].port), k);
    }
    TurnWanted(v, x, Checked, k);
  }

  lemma TurnWanted(v: World, x: Key, p: Phase, k: Key)
    requires x in v.now
    ensures Wanted(Turned(v, x, p), k) <==> Wanted(v, k)
  {
    SameWanted(v, Turned(v, x, p), k);
  }

  lemma BindWanted(v: World, x: Key, any: Option<int>, k: Key)
    requires x in v.now && v.now[x].key == x && Waits(v, x) && v.now[x].phase.Calling?
    ensures Wanted(Binds(v, x, any), k) <==> Wanted(v, k)
  {
    hide Returned, Taken, Waits, Wanted, Answer;
    var u := Answered(v, x, None);
    SameWanted(v, u, k);
    WaitsSame(v, u, x);
    ReturnWanted(u, x, None, k);
    forall s ensures Wanted(Taken(v, x, s), k) <==> Wanted(v, k) {
      TakenWanted(v, x, s, k);
    }
  }

  lemma TakenWanted(v: World, x: Key, s: Slot, k: Key)
    requires x in v.now
    ensures Wanted(Taken(v, x, s), k) <==> Wanted(v, k)
  {
    SameWanted(v, Taken(v, x, s), k);
  }

  lemma PublishWanted(v: World, x: Key, k: Key)
    requires x in v.now && v.now[x].key == x && Waits(v, x) && v.now[x].phase.Holding?
    ensures Wanted(Publishes(v, x), k) <==> Wanted(v, k) || (x == k && v.now[x].src.ByAsk?)
  {
    hide Returned, Waits, Awaits;
    var c := v.now[x];
    var u := v.(net := v.net.(fwds := v.net.fwds[x := c.phase.s]));
    forall n ensures Awaits(u, n, k) <==> Awaits(v, n, k) {
      SameAwaits(v, u, n, k);
    }
    WaitsSame(v, u, x);
    ReturnWanted(u, x, Some(c.phase.s.port), k);
    if n :| Awaits(v, n, k) {
      assert Awaits(u, n, k);
    }
    if n :| Awaits(u, n, k) {
      assert Awaits(v, n, k);
    }
    if c.src.ByAuto? {
      ProceededAwaits(v, x, None, c.src.a, x);
    }
  }

  lemma MovesWanted(v: World, x: Key, m: Move, k: Key)
    requires x in v.now && v.now[x].key == x && Waits(v, x) && Ready(v.now[x], m)
    ensures Wanted(Moves(v, x, m), k) <==> Wanted(v, k) || (m == Publish && x == k && v.now[x].src.ByAsk?)
  {
    hide Wanted, Checks, Binds, Publishes, Turned, Waits;
    match m
    case Check => CheckWanted(v, x, k);
    case Bind(any) => BindWanted(v, x, any, k);
    case Publish => PublishWanted(v, x, k);
    case ReadDevice => TurnWanted(v, x, Calling(v.net.dev), k);
  }

  lemma UnmapOneWanted(v: World, j: Key, k: Key)
    ensures Wanted(UnmapOne(v, j), k) <==> if j == k then Awaited(v, k) else Wanted(v, k)
  {
    hide CutAt, Awaits;
    var v' := UnmapOne(v, j);
    forall n ensures Awaits(v', n, k) <==> Awaits(v, n, k) {
      SameAwaits(v, v', n, k);
    }
    AwaitedSame(v, v', k);
  }

  lemma AwaitedSame(v: World, v': World, k: Key)
    requires forall n :: Awaits(v', n, k) <==> Awaits(v, n, k)
    ensures Awaited(v', k) <==> Awaited(v, k)
  {
    hide Awaits;
    if n :| Awaits(v, n, k) {
      assert Awaits(v', n, k);
    }
    if n :| Awaits(v', n, k) {
      assert Awaits(v, n, k);
    }
  }

  lemma UnmapAllWanted(v: World, x: nat, k: Key)
    ensures Wanted(UnmapAll(v, x), k) <==> if x == k.worker then Awaited(v, k) else Wanted(v, k)
  {
    hide CutAll, Awaits;
    var v' := UnmapAll(v, x);
    forall n ensures Awaits(v', n, k) <==> Awaits(v, n, k) {
      SameAwaits(v, v', n, k);
    }
    AwaitedSame(v, v', k);
  }

  /** An autoMap that has yet to read the store is ahead of nothing. */
  lemma FreshAwaits(v: World, u: World, n: nat, w: nat, k: Key)
    requires n !in v.autos && u.autos == v.autos[n := Auto(w, None, false, map[], None)]
    ensures Awaited(u, k) <==> Awaited(v, k)
  {
    forall i ensures Awaits(u, i, k) <==> Awaits(v, i, k) {
    }
    AwaitedSame(v, u, k);
  }

  lemma TornDown(v: World, a: Act, k: Key)
    requires Enabled(v, a) && Unmaps(a)
    ensures Wanted(Apply(v, a), k) <==> Leaves(v, a, k)
  {
    hide UnmapOne, UnmapAll, Awaited;
    var v' := Apply(v, a);
    match a
    case Rebind(_, x, n) =>
      UnmapAllWanted(v, x, k);
      UnmapKeeps(v, Key(0, 0), x);
      FreshAwaits(UnmapAll(v, x), v', n, x, k);
    case Close(x) => UnmapAllWanted(v, x, k);
    case AskUnmaps(i) =>
      UnmapOneWanted(v, v.asks[i].key, k);
      AwaitedByAutos(UnmapOne(v, v.asks[i].key), v', k);
    case Drop(_, j) =>
      UnmapOneWanted(v, j, k);
      AwaitedByAutos(UnmapOne(v, j), v', k);
  }

  lemma AwaitedByAutos(v: World, v': World, k: Key)
    requires v'.autos == v.autos
    ensures Awaited(v', k) <==> Awaited(v, k)
  {
    hide Awaits;
    forall n ensures Awaits(v', n, k) <==> Awaits(v, n, k) {
      SameAwaits(v, v', n, k);
    }
    AwaitedSame(v, v', k);
  }

  lemma PlanAwaited(v: World, w: nat, plan: seq<Req>, k: Key)
    requires IsPlan(Declared(v, w), Stored(v.stored, w), plan) && k.worker == w
    ensures Known(v, k) <==> exists i :: 0 <= i < |plan| && plan[i].from == k.port
  {
    PlanCovers(Declared(v, w), Stored(v.stored, w), plan, k.port);
  }

  lemma ReadWanted(v: World, n: nat, plan: seq<Req>, k: Key)
    requires Enabled(v, ReadStore(n, plan))
    ensures Wanted(Apply(v, ReadStore(n, plan)), k) <==> Leaves(v, ReadStore(n, plan), k)
  {
    var v' := Apply(v, ReadStore(n, plan));
    hide IsPlan, Known;
    if v.autos[n].worker == k.worker {
      PlanAwaited(v, k.worker, plan, k);
    }
    forall i | i != n ensures Awaits(v', i, k) <==> Awaits(v, i, k) {
    }
    assert !Awaits(v, n, k);
    assert Awaits(v', n, k) <==> v.autos[n].worker == k.worker && Known(v, k);
    hide Awaits;
    if i :| Awaits(v, i, k) {
      assert Awaits(v', i, k);
    }
    if i :| Awaits(v', i, k) && i != n {
      assert Awaits(v, i, k);
    }
  }

  /** The autoMap is done with its plan. */
  lemma EndedAwaits(v: World, n: nat, k: Key)
    requires Enabled(v, EndAuto(n))
    ensures Wanted(Apply(v, EndAuto(n)), k) <==> Wanted(v, k)
  {
    SameWanted(v, Apply(v, EndAuto(n)), k);
  }

  /** Exactly what keeps a port wanted, step by step. */
  lemma WantedStep(v: World, a: Act, k: Key)
    requires Enabled(v, a)
    ensures Wanted(Apply(v, a), k) <==> Leaves(v, a, k)
  {
    var v' := Apply(v, a);
    hide IsPlan, Known, Wanted, Awaited, Held, Moves, UnmapOne, UnmapAll;
    if a.Step? {
      MovesWanted(v, a.k, a.m, k);
    } else if Unmaps(a) {
      TornDown(v, a, k);
    } else if a.ReadStore? {
      ReadWanted(v, a.a, a.plan, k);
    } else if a.EndAuto? {
      EndedAwaits(v, a.a, k);
    } else {
      RestWanted(v, a, k);
    }
  }

  lemma RestWanted(v: World, a: Act, k: Key)
    requires Enabled(v, a) && !a.Step? && !Unmaps(a) && !a.ReadStore? && !a.EndAuto?
    ensures Wanted(Apply(v, a), k) <==> Wanted(v, k)
  {
    hide IsPlan, Known, Awaited, Held;
    if a.Arm? {
      FreshAwaits(v, Apply(v, a), a.a, a.w, k);
    } else {
      AwaitedByAutos(v, Apply(v, a), k);
    }
  }

  // ------------------------------------------------------- plans, and rebinds

  /** A step of a Map leaves everything else alone, or returns `r` to its caller. */
  ghost predicate Kept(v: World, x: Key, v': World, r: Option<int>, back: bool) {
    && x in v.now
    && v'.autos == (if back then AutosAfter(v.autos, v.now[x], r) else v.autos)
    && v'.asks == (if back then AsksAfter(v.asks, v.now[x], r) else v.asks)
    && v'.net.dev == v.net.dev
    && v'.owed == v.owed && v'.past.moved == v.past.moved && v'.past.since == v.past.since
    && v'.stored == v.stored && v'.declared == v.declared && v'.drops == v.drops
    && v'.now.Keys == (if back then v.now.Keys - {x} else v.now.Keys)
    && (back && r.None? && Mappable(x.port) ==> Refused(v.now[x], v'))
  }

  lemma CheckKeeps(v: World, x: Key) returns (r: Option<int>, back: bool)
    requires x in v.now
    ensures Kept(v, x, Checks(v, x), r, back)
    ensures back && r.Some? ==> x in v.net.fwds
    ensures Checks(v, x).net == v.net
  {
    hide AutosAfter, AsksAfter, FailedAfter;
    if !Mappable(x.port) {
      r, back := None, true;
    } else if x in v.net.fwds {
      r, back := Some(v.net.fwds[x].port), true;
    } else {
      r, back := None, false;
    }
  }

  lemma ReturnKeeps(v: World, x: Key, r: Option<int>)
    requires x in v.now && (r.None? && Mappable(x.port) ==> Refused(v.now[x], v))
    ensures Kept(v, x, Returned(v, x, r), r, true) && Returned(v, x, r).net == v.net
  {
    hide AutosAfter, AsksAfter, FailedAfter;
  }

  lemma TakenKeeps(v: World, x: Key, s: Slot)
    requires x in v.now
    ensures Kept(v, x, Taken(v, x, s), None, false) && Taken(v, x, s).net.fwds == v.net.fwds
  {
  }

  lemma AnsweredKeeps(v: World, x: Key, v': World, r: Option<int>)
    requires x in v.now && Kept(Answered(v, x, None), x, v', r, true)
    ensures Kept(v, x, v', r, true)
  {
    hide AutosAfter, AsksAfter;
  }

  lemma BindKeeps(v: World, x: Key, any: Option<int>) returns (r: Option<int>, back: bool)
    requires x in v.now && v.now[x].phase.Calling?
    ensures Kept(v, x, Binds(v, x, any), r, back) && r == None
    ensures Binds(v, x, any).net.fwds == v.net.fwds
  {
    hide Kept, Answer, Returned, Taken;
    r, back := None, Answer(v, v.now[x], any).None?;
    if back {
      ReturnKeeps(Answered(v, x, None), x, None);
      AnsweredKeeps(v, x, Binds(v, x, any), None);
    } else {
      TakenKeeps(v, x, Slot(v.now[x].phase.d, Answer(v, v.now[x], any).value));
    }
  }

  lemma PublishKeeps(v: World, x: Key) returns (r: Option<int>)
    requires x in v.now && v.now[x].phase.Holding?
    ensures Kept(v, x, Publishes(v, x), r, true) && r.Some? && r.value == v.now[x].phase.s.port
    ensures Publishes(v, x).net.fwds == v.net.fwds[x := v.now[x].phase.s]
  {
    hide AutosAfter, AsksAfter, FailedAfter;
    r := Some(v.now[x].phase.s.port);
  }

  lemma MovesKeeps(v: World, x: Key, m: Move) returns (r: Option<int>, back: bool)
    requires x in v.now && Ready(v.now[x], m)
    ensures var v' := Moves(v, x, m);
      && Kept(v, x, v', r, back)
      && (back && r.Some? ==> x in v'.net.fwds)
      && forall k :: k in v'.net.fwds ==>
           k in v.net.fwds || (m == Publish && k == x && back && r.Some?)
  {
    hide Kept, Checks, Binds, Publishes;
    match m
    case Check => r, back := CheckKeeps(v, x);
    case Bind(any) => r, back := BindKeeps(v, x, any);
    case Publish =>
      r := PublishKeeps(v, x);
      back := true;
    case ReadDevice =>
      r, back := None, false;
      TurnKeeps(v, x);
  }

  lemma TurnKeeps(v: World, x: Key)
    requires x in v.now
    ensures Kept(v, x, Turned(v, x, Calling(v.net.dev)), None, false)
  {
  }

  /** No answer is ever taken back. */
  ghost predicate AnswersKept(v: World, v': World) {
    forall id :: id in v.past.answers ==> id in v'.past.answers && v'.past.answers[id] == v.past.answers[id]
  }

  lemma MovesAnswers(v: World, x: Key, m: Move)
    requires x in v.now && Ready(v.now[x], m) && NowOk(v, x)
    ensures AnswersKept(v, Moves(v, x, m))
  {
    hide AutosAfter, AsksAfter, FailedAfter, Answer, Mappable, AnswersKept, Checks, Turned, Publishes;
    match m
    case Check => CheckAnswers(v, x);
    case ReadDevice => TurnAnswers(v, x, Calling(v.net.dev));
    case Bind(any) => BindAnswers(v, x, any);
    case Publish => PublishAnswers(v, x);
  }

  lemma CheckAnswers(v: World, x: Key)
    requires x in v.now
    ensures AnswersKept(v, Checks(v, x))
  {
    hide AutosAfter, AsksAfter, FailedAfter;
  }

  lemma TurnAnswers(v: World, x: Key, p: Phase)
    requires x in v.now
    ensures AnswersKept(v, Turned(v, x, p))
  {
  }

  lemma BindAnswers(v: World, x: Key, any: Option<int>)
    requires x in v.now && v.now[x].phase.Calling? && NowOk(v, x)
    ensures AnswersKept(v, Binds(v, x, any))
  {
    hide AutosAfter, AsksAfter, FailedAfter, Answer;
  }

  lemma PublishAnswers(v: World, x: Key)
    requires x in v.now && v.now[x].phase.Holding?
    ensures AnswersKept(v, Publishes(v, x))
  {
    hide AutosAfter, AsksAfter, FailedAfter;
  }

  lemma AutoAfter(v: World, x: Key, v': World, r: Option<int>, back: bool, n: nat)
    requires Waits(v, x) && Kept(v, x, v', r, back) && AutoOk(v, n) && AnswersKept(v, v')
    ensures AutoOk(v', n)
  {
    hide Wished, AsksAfter, Mappable;
    var c := v.now[x];
    if back && c.src == ByAuto(n) {
      var q, q' := v.autos[n], v'.autos[n];
      assert q' == Proceeded(q, c, r);
      assert q'.plan.value == q.plan.value || forall i :: 0 <= i < |q'.plan.value| ==>
        q'.plan.value[i] == q.plan.value[i + 1];
      if q'.second {
        assert c.key == Key(q.worker, q.plan.value[0].from) && FirstFailed(v', q');
      }
    }
  }

  lemma AutoWorks(v: World, a: Act, n: nat)
    requires Enabled(v, a) && AutoOk(v, n) && a.Step? && NowOk(v, a.k)
    ensures AutoOk(Apply(v, a), n)
  {
    var r, back := MovesKeeps(v, a.k, a.m);
    MovesAnswers(v, a.k, a.m);
    AutoAfter(v, a.k, Apply(v, a), r, back, n);
  }

  lemma SameAuto(v: World, v': World, n: nat)
    requires AutoOk(v, n) && v'.declared == v.declared && v'.past.answers == v.past.answers
    requires n in v'.autos ==> n in v.autos && v'.autos[n] == v.autos[n]
    ensures AutoOk(v', n)
  {
  }

  lemma AutoRest(v: World, a: Act, n: nat)
    requires Enabled(v, a) && AutoOk(v, n) && !a.Step?
    ensures AutoOk(Apply(v, a), n)
  {
    var v' := Apply(v, a);
    if a.ReadStore? && a.a == n {
      forall i | 0 <= i < |a.plan| {
        PlanWished(Declared(v, v.autos[n].worker), Stored(v.stored, v.autos[n].worker), a.plan, i);
      }
    } else if (a.Rebind? || a.Arm?) && a.a == n {
      assert v'.autos[n].plan.None?;
    } else {
      hide AutoOk, UnmapOne, UnmapAll, Held, Noted, Forgotten, IsPlan;
      UnmapsKeep(v, a);
      SameAuto(v, v', n);
    }
  }

  lemma PlanWished(declared: seq<PortMap>, stored: map<int, int>, plan: seq<Req>, i: nat)
    requires IsPlan(declared, stored, plan) && i < |plan|
    ensures Wished(declared, stored, plan[i])
  {
    PlanCovers(declared, stored, plan, plan[i].from);
    if plan[i].from !in stored {
      assert declared[i] in declared;
    }
  }

  lemma SinceStep(v: World, a: Act, w: nat)
    requires Enabled(v, a) && SinceOk(v, w)
    ensures SinceOk(Apply(v, a), w)
  {
    var v' := Apply(v, a);
    if a.Step? {
      var r, back := MovesKeeps(v, a.k, a.m);
      hide Apply;
      assert v'.owed == v.owed;
    } else {
      hide IsPlan, Held, CutAt, CutAll, Wiped, Unwired, Waits;
      if r :| r in v.owed && w in v.owed[r] {
        assert !(a.Rebind? && a.r == r && a.w == w) ==> r in v'.owed && w in v'.owed[r];
      }
      if a.ListRunning? {
        assert a.r in v'.owed && v'.owed[a.r] == a.running;
      }
    }
  }
}
