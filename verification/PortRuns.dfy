/** Every interleaving of any number of Map calls, late tailnet binds, Unmap,
    unmapPorts and CloseWorker calls (cmd/sr/portmap.go). One action is one locked
    region, one device bind or one close. */
module PortRuns {
  import opened Sequences
  import opened PortKey
  import opened PortMapper

  datatype MapPc = Checking | Binding | Holding(ln: nat, hostPort: int) | MapDone
  datatype MapCall = MapCall(key: Key, pc: MapPc)

  datatype TailPc = Waiting | Ready(ln: nat) | Late(ln: nat) | TailDone
  datatype TailCall = TailCall(key: Key, pc: TailPc)

  /** Who is responsible for closing a listener. */
  datatype Owner = ByForward(key: Key) | ByMap(id: nat) | ByTail(id: nat)

  /** `place` is history: for every listener ever opened, who owns it, or None once its
      closer has run. */
  datatype World = World(
    f: Forwards, maps: map<nat, MapCall>, tails: map<nat, TailCall>,
    place: map<nat, Option<Owner>>)

  datatype Act =
    | BeginMap(id: nat, key: Key)
    | Check(id: nat)
    | BindOk(id: nat, ln: nat, hostPort: int)
    | BindFails(id: nat)
    | Publish(id: nat, tail: Option<nat>)
    | TailListens(id: nat, ln: nat)
    | TailFails(id: nat)
    | TailAttaches(id: nat)
    | TailCloses(id: nat)
    | UnmapKey(key: Key)
    | UnmapWorker(worker: nat)

  const EMPTY := World(Forwards(map[], multiset{}), map[], map[], map[])

  predicate Enabled(w: World, a: Act) {
    match a
    case BeginMap(id, _) => id !in w.maps
    case Check(id) => id in w.maps && w.maps[id].pc == Checking
    case BindOk(id, ln, _) => id in w.maps && w.maps[id].pc == Binding && ln !in w.place
    case BindFails(id) => id in w.maps && w.maps[id].pc == Binding
    case Publish(id, tail) =>
      id in w.maps && w.maps[id].pc.Holding? && (tail.Some? ==> tail.value !in w.tails)
    case TailListens(id, ln) => id in w.tails && w.tails[id].pc == Waiting && ln !in w.place
    case TailFails(id) => id in w.tails && w.tails[id].pc == Waiting
    case TailAttaches(id) => id in w.tails && w.tails[id].pc.Ready?
    case TailCloses(id) => id in w.tails && w.tails[id].pc.Late?
    case UnmapKey(_) => true
    case UnmapWorker(_) => true
  }

  function SetMap(w: World, id: nat, pc: MapPc): map<nat, MapCall>
    requires id in w.maps
  {
    w.maps[id := w.maps[id].(pc := pc)]
  }

  function SetTail(w: World, id: nat, pc: TailPc): map<nat, TailCall>
    requires id in w.tails
  {
    w.tails[id := w.tails[id].(pc := pc)]
  }

  /** The history of a mapping's closers having run. */
  ghost function Buried(place: map<nat, Option<Owner>>, worker: nat, port: Option<int>): map<nat, Option<Owner>> {
    map ln | ln in place ::
      if place[ln].Some? && place[ln].value.ByForward? && place[ln].value.key.worker == worker &&
         (port.Some? ==> place[ln].value.key.port == port.value)
      then None else place[ln]
  }

  ghost function Apply(w: World, a: Act): World
    requires Enabled(w, a)
  {
    match a
    case BeginMap(id, key) => w.(maps := w.maps[id := MapCall(key, Checking)])
    case Check(id) => w.(maps := SetMap(w, id, if w.f.Has(w.maps[id].key) then MapDone else Binding))
    case BindOk(id, ln, hostPort) =>
      w.(maps := SetMap(w, id, Holding(ln, hostPort)), place := w.place[ln := Some(ByMap(id))])
    case BindFails(id) => w.(maps := SetMap(w, id, MapDone))
    case Publish(id, tail) =>
      var c := w.maps[id];
      w.(f := Published(w.f, c.key, c.pc.ln, c.pc.hostPort),
         maps := SetMap(w, id, MapDone),
         tails := if tail.Some? then w.tails[tail.value := TailCall(c.key, Waiting)] else w.tails,
         place := w.place[c.pc.ln := Some(ByForward(c.key))])
    case TailListens(id, ln) =>
      w.(tails := SetTail(w, id, Ready(ln)), place := w.place[ln := Some(ByTail(id))])
    case TailFails(id) => w.(tails := SetTail(w, id, TailDone))
    case TailAttaches(id) =>
      var c := w.tails[id];
      if w.f.Has(c.key) then
        w.(f := Attached(w.f, c.key, c.pc.ln), tails := SetTail(w, id, TailDone),
           place := w.place[c.pc.ln := Some(ByForward(c.key))])
      else w.(tails := SetTail(w, id, Late(c.pc.ln)))
    case TailCloses(id) =>
      var ln := w.tails[id].pc.ln;
      w.(f := w.f.(ran := w.f.ran + multiset{ln}), tails := SetTail(w, id, TailDone),
         place := w.place[ln := None])
    case UnmapKey(key) =>
      w.(f := Unmapped(w.f, key), place := Buried(w.place, key.worker, Some(key.port)))
    case UnmapWorker(worker) =>
      w.(f := WorkerUnmapped(w.f, worker), place := Buried(w.place, worker, None))
  }

  // ------------------------------------------------------------------ ownership

  ghost predicate Owns(w: World, ln: nat, o: Owner) {
    match o
    case ByForward(k) => w.f.Has(k) && ln in w.f.At(k).closers
    case ByMap(id) => id in w.maps && w.maps[id].pc.Holding? && w.maps[id].pc.ln == ln
    case ByTail(id) =>
      id in w.tails && (w.tails[id].pc.Ready? || w.tails[id].pc.Late?) && w.tails[id].pc.ln == ln
  }

  /** A listener is open until its closer runs. Open: exactly one owner. Closed: the
      closer ran once and nobody will run it again. */
  ghost predicate Conserved(w: World, ln: nat) {
    && w.f.ran[ln] <= 1
    && (w.f.ran[ln] == 0 ==> exists o :: Owns(w, ln, o) && forall p :: Owns(w, ln, p) ==> p == o)
    && (w.f.ran[ln] == 1 ==> forall o :: !Owns(w, ln, o))
    && (forall k :: ListedOnce(w, ln, k))
  }

  ghost predicate ListedOnce(w: World, ln: nat, k: Key) {
    w.f.Has(k) ==> multiset(w.f.At(k).closers)[ln] <= 1
  }

  ghost predicate Placed(w: World, ln: nat, o: Owner) {
    Owns(w, ln, o) <==> ln in w.place && w.place[ln] == Some(o)
  }

  /** The inductive form: `place` is right about every listener. */
  ghost predicate PlaceOk(w: World, ln: nat) {
    && (forall o :: Placed(w, ln, o))
    && w.f.ran[ln] == (if ln in w.place && w.place[ln] == None then 1 else 0)
    && (forall k :: ListedOnce(w, ln, k))
  }

  ghost predicate Inv(w: World) {
    && (forall ln :: PlaceOk(w, ln))
    && (forall k :: w.f.Has(k) ==> w.f.At(k).closers != [])
  }

  /** Nobody else is inside Map for this port. */
  ghost predicate Alone(w: World, id: nat) {
    id in w.maps && forall j :: j in w.maps && j != id && w.maps[j].key == w.maps[id].key ==>
      w.maps[j].pc == MapDone
  }

  /** The assumption on callers: Map calls for one port do not overlap. */
  ghost predicate NoOverlap(w: World, a: Act) {
    a.BeginMap? ==>
      forall j :: j in w.maps && w.maps[j].key == a.key ==> w.maps[j].pc == MapDone
  }

  /** What non-overlap gives: a call past its check still finds its port unmapped. */
  ghost predicate Disjoint(w: World) {
    && (forall id :: id in w.maps && w.maps[id].pc != MapDone ==> Alone(w, id))
    && (forall id :: id in w.maps && (w.maps[id].pc == Binding || w.maps[id].pc.Holding?) ==>
          !w.f.Has(w.maps[id].key))
  }

  lemma AllClosersCount(m: map<int, Forward>, ports: set<int>, ln: nat, home: Option<int>)
    requires ports <= m.Keys
    requires forall p :: p in m ==> multiset(m[p].closers)[ln] <= 1
    requires forall p :: p in m ==> (ln in m[p].closers <==> home == Some(p))
    ensures AllClosers(m, ports)[ln] == if home.Some? && home.value in ports then 1 else 0
    decreases |ports|
  {
    if ports != {} {
      var p := Pick(ports);
      AllClosersCount(m, ports - {p}, ln, home);
      assert ln in m[p].closers <==> ln in multiset(m[p].closers);
    }
  }

  lemma PlaceLocal(w: World, a: Act, ln: nat)
    requires PlaceOk(w, ln) && Enabled(w, a)
    requires !a.Publish? && !a.UnmapWorker? && !a.UnmapKey? && !a.TailAttaches?
    ensures PlaceOk(Apply(w, a), ln)
  {
    var w' := Apply(w, a);
    if a.TailCloses? {
      assert Placed(w, ln, ByTail(a.id));
    }
    forall o ensures Placed(w', ln, o) {
      assert Placed(w, ln, o);
    }
    forall k ensures ListedOnce(w', ln, k) {
      assert ListedOnce(w, ln, k);
    }
  }

  lemma PlaceAttach(w: World, id: nat, ln: nat)
    requires Enabled(w, TailAttaches(id)) && PlaceOk(w, ln) && PlaceOk(w, w.tails[id].pc.ln)
    ensures PlaceOk(Apply(w, TailAttaches(id)), ln)
  {
    var w' := Apply(w, TailAttaches(id));
    var k, t := w.tails[id].key, w.tails[id].pc.ln;
    assert Placed(w, t, ByTail(id)) && Placed(w, t, ByForward(k));
    forall o ensures Placed(w', ln, o) {
      assert Placed(w, ln, o);
    }
    forall j ensures ListedOnce(w', ln, j) {
      assert ListedOnce(w, ln, j);
    }
  }

  /** Publishing over a mapping that exists is the one step that can lose a listener. */
  lemma PlacePublish(w: World, id: nat, tail: Option<nat>, ln: nat)
    requires Enabled(w, Publish(id, tail)) && !w.f.Has(w.maps[id].key)
    requires PlaceOk(w, ln) && PlaceOk(w, w.maps[id].pc.ln)
    ensures PlaceOk(Apply(w, Publish(id, tail)), ln)
  {
    var w' := Apply(w, Publish(id, tail));
    assert Placed(w, w.maps[id].pc.ln, ByMap(id));
    forall o ensures Placed(w', ln, o) {
      assert Placed(w, ln, o);
    }
    forall j ensures ListedOnce(w', ln, j) {
      assert ListedOnce(w, ln, j);
    }
  }

  lemma PlaceUnmap(w: World, key: Key, ln: nat)
    requires PlaceOk(w, ln)
    ensures PlaceOk(Apply(w, UnmapKey(key)), ln)
  {
    var w' := Apply(w, UnmapKey(key));
    assert Placed(w, ln, ByForward(key)) && ListedOnce(w, ln, key);
    forall o ensures Placed(w', ln, o) {
      assert Placed(w, ln, o);
    }
    forall j ensures ListedOnce(w', ln, j) {
      assert ListedOnce(w, ln, j);
    }
  }

  /** The port of `worker` whose mapping owns the listener, if any. */
  ghost function Home(w: World, worker: nat, ln: nat): Option<int> {
    if ln in w.place && w.place[ln].Some? && w.place[ln].value.ByForward? &&
       w.place[ln].value.key.worker == worker
    then Some(w.place[ln].value.key.port) else None
  }

  lemma WorkerCloses(w: World, worker: nat, ln: nat)
    requires PlaceOk(w, ln)
    ensures WorkerUnmapped(w.f, worker).ran[ln] ==
            w.f.ran[ln] + if Home(w, worker, ln).Some? then 1 else 0
  {
    if Home(w, worker, ln).Some? {
      assert Placed(w, ln, ByForward(Key(worker, Home(w, worker, ln).value)));
    }
    if worker in w.f.fwds {
      var m := w.f.fwds[worker];
      forall p | p in m
        ensures multiset(m[p].closers)[ln] <= 1
        ensures ln in m[p].closers <==> Home(w, worker, ln) == Some(p)
      {
        assert ListedOnce(w, ln, Key(worker, p));
        assert Placed(w, ln, ByForward(Key(worker, p)));
      }
      AllClosersCount(m, m.Keys, ln, Home(w, worker, ln));
    }
  }

  lemma PlaceUnmapWorker(w: World, worker: nat, ln: nat)
    requires PlaceOk(w, ln)
    ensures PlaceOk(Apply(w, UnmapWorker(worker)), ln)
  {
    var w' := Apply(w, UnmapWorker(worker));
    WorkerCloses(w, worker, ln);
    hide AllClosers;
    forall o ensures Placed(w', ln, o) {
      assert Placed(w, ln, o);
    }
    forall j ensures ListedOnce(w', ln, j) {
      assert ListedOnce(w, ln, j);
    }
  }

  lemma InvStep(w: World, a: Act)
    requires Inv(w) && Enabled(w, a)
    requires a.Publish? ==> !w.f.Has(w.maps[a.id].key)
    ensures Inv(Apply(w, a))
  {
    forall ln ensures PlaceOk(Apply(w, a), ln) {
      assert PlaceOk(w, ln);
      match a
      case Publish(id, tail) =>
        assert PlaceOk(w, w.maps[id].pc.ln);
        PlacePublish(w, id, tail, ln);
      case TailAttaches(id) =>
        assert PlaceOk(w, w.tails[id].pc.ln);
        PlaceAttach(w, id, ln);
      case UnmapKey(key) => PlaceUnmap(w, key, ln);
      case UnmapWorker(worker) => PlaceUnmapWorker(w, worker, ln);
      case _ => PlaceLocal(w, a, ln);
    }
    NeverEmpty(w, a);
  }

  lemma NeverEmpty(w: World, a: Act)
    requires (forall k :: w.f.Has(k) ==> w.f.At(k).closers != []) && Enabled(w, a)
    ensures forall k :: Apply(w, a).f.Has(k) ==> Apply(w, a).f.At(k).closers != []
  {
    forall k | Apply(w, a).f.Has(k) ensures Apply(w, a).f.At(k).closers != [] {
      assert w.f.Has(k) ==> w.f.At(k).closers != [];
    }
  }

  lemma DisjointStep(w: World, a: Act)
    requires Disjoint(w) && Enabled(w, a) && NoOverlap(w, a)
    ensures Disjoint(Apply(w, a))
  {
    var w' := Apply(w, a);
    forall id | id in w'.maps && w'.maps[id].pc != MapDone ensures Alone(w', id) {
      assert id in w.maps && w.maps[id].pc != MapDone ==> Alone(w, id);
      assert a.Publish? || a.Check? || a.BindOk? || a.BindFails? ==> Alone(w, a.id);
    }
    forall id | id in w'.maps && (w'.maps[id].pc == Binding || w'.maps[id].pc.Holding?)
      ensures !w'.f.Has(w'.maps[id].key)
    {
      assert Alone(w, id);
    }
  }

  /** `w` can be reached by performing `acts`; `apart` says that Map calls for one port
      never overlapped on the way. */
  ghost predicate Reached(acts: seq<Act>, apart: bool, w: World) {
    if acts == [] then w == EMPTY
    else
      var before, last := acts[..|acts| - 1], acts[|acts| - 1];
      exists v :: Reached(before, apart, v) && Leads(v, last, apart, w)
  }

  ghost predicate Leads(v: World, a: Act, apart: bool, w: World) {
    Enabled(v, a) && (apart ==> NoOverlap(v, a)) && w == Apply(v, a)
  }

  lemma ReachedSnoc(acts: seq<Act>, v: World, a: Act)
    requires Reached(acts, false, v) && Enabled(v, a)
    ensures Reached(acts + [a], false, Apply(v, a))
  {
    assert (acts + [a])[..|acts|] == acts;
    assert Leads(v, a, false, Apply(v, a));
  }

  lemma {:induction false} ReachedInv(acts: seq<Act>, w: World)
    requires Reached(acts, true, w)
    ensures Inv(w) && Disjoint(w)
  {
    if acts == [] {
      forall ln ensures PlaceOk(w, ln) {
        assert forall o :: Placed(w, ln, o);
      }
    } else {
      var before, last := acts[..|acts| - 1], acts[|acts| - 1];
      var v :| Reached(before, true, v) && Leads(v, last, true, w);
      ReachedInv(before, v);
      hide Inv;
      DisjointStep(v, last);
      InvStep(v, last);
    }
  }

  lemma PlacedIsConserved(w: World, ln: nat)
    requires PlaceOk(w, ln) && ln in w.place
    ensures Conserved(w, ln)
  {
    if w.place[ln].Some? {
      var o := w.place[ln].value;
      assert Placed(w, ln, o);
      assert Owns(w, ln, o);
      forall p | Owns(w, ln, p) ensures p == o {
        assert Placed(w, ln, p);
      }
    } else {
      forall o ensures !Owns(w, ln, o) {
        assert Placed(w, ln, o);
      }
    }
  }

  /** No listener is lost and no closer runs twice. In every reachable state a listener
      ever opened is either open, and then exactly one published forward or one call
      still under way will close it, or its closer has run once and nobody holds it. */
  lemma ListenersAreConserved(acts: seq<Act>, w: World, ln: nat)
    requires Reached(acts, true, w) && ln in w.place
    ensures Conserved(w, ln)
  {
    ReachedInv(acts, w);
    assert PlaceOk(w, ln);
    PlacedIsConserved(w, ln);
  }

  /** Without the assumption on callers the law breaks at one point: publishing keeps
      it exactly when the port is still unmapped, which Map does not check again. */
  lemma PublishConservesIffUnmapped(w: World, id: nat, tail: Option<nat>)
    requires Inv(w) && Enabled(w, Publish(id, tail))
    ensures var w' := Apply(w, Publish(id, tail));
      (forall ln :: ln in w'.place ==> Conserved(w', ln)) <==> !w.f.Has(w.maps[id].key)
  {
    var w' := Apply(w, Publish(id, tail));
    var k, l := w.maps[id].key, w.maps[id].pc.ln;
    if w.f.Has(k) {
      var lost := w.f.At(k).closers[0];
      assert PlaceOk(w, lost) && PlaceOk(w, l);
      assert Placed(w, lost, ByForward(k)) && Placed(w, l, ByMap(id));
      forall o ensures !Owns(w', lost, o) {
        assert Placed(w, lost, o);
      }
      assert !Conserved(w', lost);
    } else {
      InvStep(w, Publish(id, tail));
      forall ln | ln in w'.place ensures Conserved(w', ln) {
        assert PlaceOk(w', ln);
        PlacedIsConserved(w', ln);
      }
    }
  }

  ghost predicate AllConserved(w: World) { forall ln :: ln in w.place ==> Conserved(w, ln) }

  /** A run in every state of which the law holds. */
  ghost predicate KeepsLaw(acts: seq<Act>, w: World) {
    if acts == [] then w == EMPTY
    else
      var before, last := acts[..|acts| - 1], acts[|acts| - 1];
      exists v :: KeepsLaw(before, v) && Leads(v, last, false, w) && AllConserved(w)
  }

  ghost predicate Clean(v: World, a: Act) {
    a.Publish? && a.id in v.maps ==> !v.f.Has(v.maps[a.id].key)
  }

  /** A run in which every Publish finds its port unmapped. */
  ghost predicate PublishesClean(acts: seq<Act>, w: World) {
    if acts == [] then w == EMPTY
    else
      var before, last := acts[..|acts| - 1], acts[|acts| - 1];
      exists v :: PublishesClean(before, v) && Leads(v, last, false, w) && Clean(v, last)
  }

  lemma CleanStep(v: World, a: Act)
    requires Inv(v) && Enabled(v, a)
    ensures AllConserved(Apply(v, a)) <==> Clean(v, a)
    ensures Clean(v, a) ==> Inv(Apply(v, a))
  {
    hide Conserved;
    var w := Apply(v, a);
    if a.Publish? {
      hide Inv;
      PublishConservesIffUnmapped(v, a.id, a.tail);
    }
    if Clean(v, a) {
      InvStep(v, a);
      forall ln | ln in w.place ensures Conserved(w, ln) {
        assert PlaceOk(w, ln);
        PlacedIsConserved(w, ln);
      }
    }
  }

  lemma EmptyInv()
    ensures Inv(EMPTY)
  {
    forall ln ensures PlaceOk(EMPTY, ln) {
      assert forall o :: Placed(EMPTY, ln, o);
    }
  }

  /** Whatever overlaps, a run keeps every listener conserved all the way if and only if each
      Publish in it finds its port unmapped. */
  lemma {:induction false} LawHoldsIffPublishesClean(acts: seq<Act>, w: World)
    ensures KeepsLaw(acts, w) <==> PublishesClean(acts, w)
    ensures PublishesClean(acts, w) ==> Inv(w)
    decreases |acts|
  {
    hide Inv, Enabled, Apply, AllConserved, Clean;
    if acts == [] {
      EmptyInv();
    } else {
      var before, last := acts[..|acts| - 1], acts[|acts| - 1];
      forall v | Leads(v, last, false, w)
        ensures KeepsLaw(before, v) && AllConserved(w) <==> PublishesClean(before, v) && Clean(v, last)
        ensures PublishesClean(before, v) && Clean(v, last) ==> Inv(w)
      {
        LawHoldsIffPublishesClean(before, v);
        if Inv(v) {
          CleanStep(v, last);
        }
      }
    }
  }

  /** Two overlapping Maps of one port do lose a listener: the second Publish drops the
      first call's listener, number 1, which stays open with nobody to close it. */
  lemma OverlappingMapsLeak() returns (acts: seq<Act>, w: World)
    ensures Reached(acts, false, w)
    ensures w.f.ran == multiset{} && w.place.Keys == {1, 2}
    ensures w.f.Has(Key(0, 80)) && w.f.At(Key(0, 80)).closers == [2]
    ensures !Conserved(w, 1)
  {
    hide Conserved;
    assert Reached([], false, EMPTY);
    hide Reached;
    var v, u;
    acts, v := BeginAndBind([], EMPTY, 1, 1, 80);
    acts, v := BeginAndBind(acts, v, 2, 2, 3000);
    SecondPublishLoses(v);
    acts, u := PublishCall(acts, v, 1);
    acts, w := PublishCall(acts, u, 2);
  }

  lemma SecondPublishLoses(v: World)
    requires v.f == EMPTY.f
    requires v.maps == map[1 := MapCall(Key(0, 80), Holding(1, 80)), 2 := MapCall(Key(0, 80), Holding(2, 3000))]
    ensures var w := Apply(Apply(v, Publish(1, None)), Publish(2, None));
      && w.f.ran == multiset{}
      && w.f.Has(Key(0, 80)) && w.f.At(Key(0, 80)).closers == [2]
      && (v.tails == map[] ==> !Conserved(w, 1))
  {
  }

  lemma BeginAndBind(before: seq<Act>, v: World, id: nat, ln: nat, host: int) returns (acts: seq<Act>, w: World)
    requires Reached(before, false, v) && v.f == EMPTY.f && id !in v.maps && ln !in v.place
    ensures Reached(acts, false, w)
    ensures w == v.(maps := v.maps[id := MapCall(Key(0, 80), Holding(ln, host))],
                    place := v.place[ln := Some(ByMap(id))])
  {
    hide Reached, Apply;
    var a, b, c := BeginMap(id, Key(0, 80)), Check(id), BindOk(id, ln, host);
    var v1 := v.(maps := v.maps[id := MapCall(Key(0, 80), Checking)]);
    var v2 := v.(maps := v.maps[id := MapCall(Key(0, 80), Binding)]);
    w := v.(maps := v.maps[id := MapCall(Key(0, 80), Holding(ln, host))],
            place := v.place[ln := Some(ByMap(id))]);
    BindSteps(v, id, ln, host);
    ReachedSnoc(before, v, a);
    ReachedSnoc(before + [a], v1, b);
    ReachedSnoc(before + [a] + [b], v2, c);
    acts := before + [a] + [b] + [c];
  }

  lemma BindSteps(v: World, id: nat, ln: nat, host: int)
    requires v.f == EMPTY.f && id !in v.maps && ln !in v.place
    ensures var v1 := v.(maps := v.maps[id := MapCall(Key(0, 80), Checking)]);
      var v2 := v.(maps := v.maps[id := MapCall(Key(0, 80), Binding)]);
      && Apply(v, BeginMap(id, Key(0, 80))) == v1
      && Apply(v1, Check(id)) == v2
      && Apply(v2, BindOk(id, ln, host)) ==
           v.(maps := v.maps[id := MapCall(Key(0, 80), Holding(ln, host))],
              place := v.place[ln := Some(ByMap(id))])
  {
  }

  lemma PublishCall(before: seq<Act>, v: World, id: nat) returns (acts: seq<Act>, w: World)
    requires Reached(before, false, v) && id in v.maps && v.maps[id].pc.Holding?
    ensures Reached(acts, false, w) && w == Apply(v, Publish(id, None))
  {
    ReachedSnoc(before, v, Publish(id, None));
    acts, w := before + [Publish(id, None)], Apply(v, Publish(id, None));
  }
}
