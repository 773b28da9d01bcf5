/** Every interleaving of any number of ForwardAgent and ForwardCmd calls, their accept
    loops, and CloseWorker (cmd/sr/portmap.go). One action is one locked region, one
    remote listen, one close, or the end of an accept loop. */
module RelayRuns {
  import opened PortMapper

  datatype CallPc =
    | Checking                // before the first look at the map
    | Dialing                 // found nothing; getting the client and listening
    | Holding(ln: nat)        // listening, not yet published
    | Lost(ln: nat)           // somebody else published first; about to close
    | Starting(ln: nat)       // published; the accept loop is about to be started
    | Done

  datatype Call = Call(kind: Kind, worker: nat, pc: CallPc)

  /** An accept loop, from its start until its deferred forget has run. */
  datatype Loop = NotStarted | Accepting | Ended | Forgotten

  /** A relay listener; `opener` is history: the call that opened it. */
  datatype Listener = Listener(kind: Kind, worker: nat, opener: nat, loop: Loop)

  datatype World = World(r: Relays, calls: map<nat, Call>, made: map<nat, Listener>)

  const EMPTY := World(Relays(map[], map[], {}), map[], map[])

  datatype Act =
    | Begin(id: nat, kind: Kind, worker: nat)
    | Check(id: nat)
    | GiveUp(id: nat)
    | Listen(id: nat, ln: nat)
    | Publish(id: nat)
    | CloseLoser(id: nat)
    | StartLoop(id: nat)
    | LoopEnds(ln: nat)
    | ForgetIt(ln: nat)
    | Close(kind: Kind, worker: nat)

  predicate Enabled(w: World, a: Act) {
    match a
    case Begin(id, _, _) => id !in w.calls
    case Check(id) => id in w.calls && w.calls[id].pc == Checking
    case GiveUp(id) => id in w.calls && w.calls[id].pc == Dialing
    case Listen(id, ln) => id in w.calls && w.calls[id].pc == Dialing && ln !in w.made
    case Publish(id) => id in w.calls && w.calls[id].pc.Holding?
    case CloseLoser(id) => id in w.calls && w.calls[id].pc.Lost?
    case StartLoop(id) => id in w.calls && w.calls[id].pc.Starting? && w.calls[id].pc.ln in w.made
    case LoopEnds(ln) => ln in w.made && w.made[ln].loop == Accepting
    case ForgetIt(ln) => ln in w.made && w.made[ln].loop == Ended
    case Close(_, _) => true
  }

  function SetPc(w: World, id: nat, pc: CallPc): World
    requires id in w.calls
  {
    w.(calls := w.calls[id := w.calls[id].(pc := pc)])
  }

  function SetLoop(w: World, ln: nat, loop: Loop): World
    requires ln in w.made
  {
    w.(made := w.made[ln := w.made[ln].(loop := loop)])
  }

  function Apply(w: World, a: Act): World
    requires Enabled(w, a)
  {
    match a
    case Begin(id, kind, worker) => w.(calls := w.calls[id := Call(kind, worker, Checking)])
    case Check(id) =>
      var c := w.calls[id];
      SetPc(w, id, if c.worker in w.r.Of(c.kind) then Done else Dialing)
    case GiveUp(id) => SetPc(w, id, Done)
    case Listen(id, ln) =>
      var c := w.calls[id];
      SetPc(w, id, Holding(ln)).(made := w.made[ln := Listener(c.kind, c.worker, id, NotStarted)])
    case Publish(id) =>
      var c := w.calls[id];
      SetPc(w, id, if c.worker in w.r.Of(c.kind) then Lost(c.pc.ln) else Starting(c.pc.ln)).(
        r := RelayPublished(w.r, c.kind, c.worker, c.pc.ln))
    case CloseLoser(id) =>
      SetPc(w, id, Done).(r := w.r.(closed := w.r.closed + {w.calls[id].pc.ln}))
    case StartLoop(id) => SetLoop(SetPc(w, id, Done), w.calls[id].pc.ln, Accepting)
    case LoopEnds(ln) => SetLoop(w, ln, Ended)
    case ForgetIt(ln) =>
      SetLoop(w, ln, Forgotten).(r := RelayForgotten(w.r, w.made[ln].kind, w.made[ln].worker, ln))
    case Close(kind, worker) => w.(r := RelayClosed(w.r, kind, worker))
  }

  /** Is this the listener the map has for its worker? */
  predicate Current(w: World, ln: nat) {
    && ln in w.made
    && var m := w.made[ln];
    m.worker in w.r.Of(m.kind) && w.r.Of(m.kind)[m.worker] == ln
  }

  /** A call that still has work to do with a listener. */
  predicate Holds(w: World, id: nat, ln: nat) {
    id in w.calls &&
    (w.calls[id].pc.Holding? || w.calls[id].pc.Lost? || w.calls[id].pc.Starting?) &&
    w.calls[id].pc.ln == ln
  }

  ghost predicate CallOk(w: World, id: nat) {
    && id in w.calls
    && var c := w.calls[id];
    && (c.pc.Holding? || c.pc.Lost? || c.pc.Starting? ==>
          c.pc.ln in w.made && w.made[c.pc.ln] == Listener(c.kind, c.worker, id, NotStarted))
    && (c.pc.Holding? || c.pc.Lost? ==> !Current(w, c.pc.ln) && c.pc.ln !in w.r.closed)
    && (c.pc.Starting? ==> Current(w, c.pc.ln) || c.pc.ln in w.r.closed)
  }

  ghost predicate ListenerOk(w: World, ln: nat) {
    && ln in w.made
    && var m := w.made[ln];
    && (Current(w, ln) ==> ln !in w.r.closed && m.loop != Forgotten)
    && (m.loop == Accepting || m.loop == Ended ==> Current(w, ln) || ln in w.r.closed)
    && (m.loop == NotStarted && ln !in w.r.closed ==> Holds(w, m.opener, ln))
  }

  ghost predicate EntryOk(w: World, kind: Kind, worker: nat) {
    worker in w.r.Of(kind) ==>
      var ln := w.r.Of(kind)[worker];
      ln in w.made && w.made[ln].kind == kind && w.made[ln].worker == worker
  }

  ghost predicate Inv(w: World) {
    && (forall id :: id in w.calls ==> CallOk(w, id))
    && (forall ln :: ln in w.made ==> ListenerOk(w, ln))
    && (forall kind, worker :: EntryOk(w, kind, worker))
    && w.r.closed <= w.made.Keys
  }

  lemma CallKept(w: World, a: Act, w': World, id: nat)
    requires Enabled(w, a) && w' == Apply(w, a) && CallOk(w, id)
    requires a.Publish? || a.CloseLoser? || a.StartLoop? ==> CallOk(w, a.id)
    requires a.Close? ==> EntryOk(w, a.kind, a.worker)
    requires a.Listen? ==> a.ln !in w.r.closed && EntryOk(w, w.calls[a.id].kind, w.calls[a.id].worker)
    ensures CallOk(w', id)
  {
  }

  lemma ListenerKept(w: World, a: Act, w': World, ln: nat)
    requires Enabled(w, a) && w' == Apply(w, a) && ListenerOk(w, ln)
    requires a.Publish? || a.CloseLoser? || a.StartLoop? ==> CallOk(w, a.id)
    requires a.Close? ==> EntryOk(w, a.kind, a.worker)
    ensures ListenerOk(w', ln)
  {
  }

  lemma EntryKept(w: World, a: Act, w': World, kind: Kind, worker: nat)
    requires Enabled(w, a) && w' == Apply(w, a) && EntryOk(w, kind, worker)
    requires a.Publish? || a.CloseLoser? || a.StartLoop? ==> CallOk(w, a.id)
    ensures EntryOk(w', kind, worker)
  {
  }

  lemma InvStep(w: World, a: Act)
    requires Inv(w) && Enabled(w, a)
    ensures Inv(Apply(w, a))
  {
    var w' := Apply(w, a);
    assert a.Publish? || a.CloseLoser? || a.StartLoop? ==> CallOk(w, a.id);
    assert a.Close? ==> EntryOk(w, a.kind, a.worker);
    assert a.Listen? ==> EntryOk(w, w.calls[a.id].kind, w.calls[a.id].worker);
    forall id | id in w'.calls ensures CallOk(w', id) {
      if id in w.calls {
        CallKept(w, a, w', id);
      }
    }
    forall ln | ln in w'.made ensures ListenerOk(w', ln) {
      if ln in w.made {
        ListenerKept(w, a, w', ln);
      } else {
        assert forall kind, worker :: EntryOk(w, kind, worker);
      }
    }
    forall kind, worker ensures EntryOk(w', kind, worker) {
      assert EntryOk(w, kind, worker);
      EntryKept(w, a, w', kind, worker);
    }
  }

  /** `w` can be reached from the initial state by performing `acts` in order. */
  ghost predicate Reached(acts: seq<Act>, w: World) {
    if acts == [] then w == EMPTY
    else
      var before, last := acts[..|acts| - 1], acts[|acts| - 1];
      exists v :: Reached(before, v) && Leads(v, last, w)
  }

  ghost predicate Leads(v: World, a: Act, w: World) { Enabled(v, a) && w == Apply(v, a) }

  lemma {:induction false} ReachedInv(acts: seq<Act>, w: World)
    requires Reached(acts, w)
    ensures Inv(w)
  {
    if acts != [] {
      var before, last := acts[..|acts| - 1], acts[|acts| - 1];
      var v :| Reached(before, v) && Leads(v, last, w);
      ReachedInv(before, v);
      InvStep(v, last);
    }
  }

  /** An accept loop whose listener nobody has closed serves the published listener of
      its worker: a stale forget never takes a newer relay away, and no worker has two
      such loops of one kind. */
  lemma OneRelayPerWorker(acts: seq<Act>, w: World, ln: nat, other: nat)
    requires Reached(acts, w)
    requires ln in w.made && w.made[ln].loop == Accepting && ln !in w.r.closed
    requires other in w.made && w.made[other].loop == Accepting && other !in w.r.closed
    requires w.made[ln].kind == w.made[other].kind && w.made[ln].worker == w.made[other].worker
    ensures w.made[ln].worker in w.r.Of(w.made[ln].kind)
    ensures w.r.Of(w.made[ln].kind)[w.made[ln].worker] == ln == other
  {
    ReachedInv(acts, w);
    assert ListenerOk(w, ln) && ListenerOk(w, other);
  }

  /** No ForwardAgent or ForwardCmd under way, no ended loop still to be forgotten, and
      every loop whose listener was closed has noticed. */
  ghost predicate Quiet(w: World) {
    && (forall id :: id in w.calls ==> w.calls[id].pc == Done)
    && (forall ln :: ln in w.made ==>
          && w.made[ln].loop != Ended
          && !(w.made[ln].loop == Accepting && ln in w.r.closed))
  }

  /** What healWiring relies on: once things are quiet, a worker has an entry in the map
      exactly when an accept loop is running for it, on the very listener recorded. */
  lemma QuietEntryMeansRunning(acts: seq<Act>, w: World, kind: Kind, worker: nat)
    requires Reached(acts, w) && Quiet(w)
    ensures worker in w.r.Of(kind) <==>
            exists ln :: ln in w.made && w.made[ln].kind == kind && w.made[ln].worker == worker &&
                         w.made[ln].loop == Accepting
    ensures worker in w.r.Of(kind) ==>
            w.r.Of(kind)[worker] in w.made && w.made[w.r.Of(kind)[worker]].loop == Accepting
  {
    ReachedInv(acts, w);
    assert EntryOk(w, kind, worker);
    if worker in w.r.Of(kind) {
      var ln := w.r.Of(kind)[worker];
      assert ListenerOk(w, ln);
      assert w.made[ln].loop != NotStarted;
    }
    forall ln | ln in w.made && w.made[ln].kind == kind && w.made[ln].worker == worker &&
                w.made[ln].loop == Accepting
      ensures worker in w.r.Of(kind)
    {
      assert ListenerOk(w, ln);
    }
  }

  /** Race losers are closed: once things are quiet, a listener that never got an accept
      loop has been closed. */
  lemma QuietLosersAreClosed(acts: seq<Act>, w: World, ln: nat)
    requires Reached(acts, w) && Quiet(w) && ln in w.made && w.made[ln].loop == NotStarted
    ensures ln in w.r.closed && !Current(w, ln)
  {
    ReachedInv(acts, w);
    assert ListenerOk(w, ln);
  }
}
