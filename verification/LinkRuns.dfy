/** Theorems about all runs of LinkMachine. */
module LinkRuns {
  import opened Sequences
  import opened DeviceLink
  import opened LinkMachine
  import opened LinkIdentity
  import opened LinkWire
  import opened LinkAgreement

  /** `w` can be reached from the initial state by performing `acts` in order. */
  ghost predicate Reached(acts: seq<Act>, w: World) {
    if acts == [] then Init(w)
    else
      var before, last := acts[..|acts| - 1], acts[|acts| - 1];
      exists v :: Reached(before, v) && Leads(v, last, w)
  }

  ghost predicate Leads(v: World, a: Act, w: World) { Enabled(v, a) && w == Apply(v, a) }

  ghost predicate Inv(w: World) { IdInv(w) && WireInv(w) && AgreeInv(w) }

  lemma InvStep(w: World, a: Act)
    requires Inv(w) && Enabled(w, a)
    ensures Inv(Apply(w, a))
  {
    assert a.SendBind? ==> LiveOk(w, a.id);
    WireServing(w, a);
    hide *;
    IdStep(w, a);
    WireStep(w, a);
    AgreeStep(w, a);
  }

  lemma {:induction false} ReachedInv(acts: seq<Act>, w: World)
    requires Reached(acts, w)
    ensures Inv(w)
  {
    if acts != [] {
      var v :| Reached(acts[..|acts| - 1], v) && Leads(v, acts[|acts| - 1], w);
      ReachedInv(acts[..|acts| - 1], v);
      InvStep(v, acts[|acts| - 1]);
    }
  }

  /** Forward routing is exact, reconnects included: whatever connection and listener
      it came through, a bridged connection went to the dialer of the very Forward call
      whose bind made that listener. */
  lemma RoutingIsExact(acts: seq<Act>, w: World, b: Bridge)
    requires Reached(acts, w) && b in w.bridges
    ensures b.listener in w.made && w.made[b.listener].origin in w.calls
    ensures b.dial == w.calls[w.made[b.listener].origin].dial
  {
    ReachedInv(acts, w);
    assert BridgeOk(w, b);
  }

  /** What becomes of the next forward-conn channel on `c`: it is bridged exactly while
      the Forward it belongs to has not failed and its closer has not finished. */
  lemma ChannelIsBridgedOrRefused(acts: seq<Act>, w: World, c: nat)
    requires Reached(acts, w) && c in w.links && w.links[c].opens != []
    ensures var m := w.links[c].opens[0];
      && m.listener in w.made && w.made[m.listener].conn == c
      && var id := w.made[m.listener].origin;
      && id in w.calls
      && Lookup(w.links[c].tags, m.tag) ==
         if w.calls[id].pc == Failed || w.calls[id].pc == Closed then None else Some(w.calls[id].dial)
  {
    ReachedInv(acts, w);
    var m := w.links[c].opens[0];
    assert m in w.links[c].opens;
    assert OpenId(w, c, m);
    assert MadeId(w, m.listener);
    assert CallId(w, w.made[m.listener].origin) && LiveOk(w, w.made[m.listener].origin);
  }

  /** While the connection being served is up at both ends, every tag the device listens
      for is registered on the coordinator or about to be unbound. */
  lemma ListenersAreRegistered(acts: seq<Act>, w: World, t: nat)
    requires Reached(acts, w) && w.serving && w.on in w.links && w.links[w.on].up
    requires t in w.ports.table
    ensures t in w.links[w.on].tags.dial || Unbind(t) in w.links[w.on].reqs
  {
    ReachedInv(acts, w);
    assert EntryOk(w, t);
    var ln := w.ports.table[t];
    assert MadeId(w, ln);
    var id := w.made[ln].origin;
    assert CallId(w, id) && LiveOk(w, id);
  }

  /** Nothing in flight on the connection, and no Forward or closer part-way. */
  ghost predicate Quiet(w: World, c: nat) {
    && c in w.links
    && w.links[c].reqs == [] && w.links[c].replies == []
    && forall id :: id in w.calls && w.calls[id].conn == c ==>
         w.calls[id].pc == Open || w.calls[id].pc == Failed || w.calls[id].pc == Closed
  }

  /** A quiet connection agrees at both ends: a tag is registered on the coordinator,
      and listened for on the device, exactly when it belongs to a Forward that
      succeeded and has not been closed. */
  lemma QuietLinkAgrees(acts: seq<Act>, w: World, t: nat)
    requires Reached(acts, w) && w.serving && w.on in w.links && w.links[w.on].up && Quiet(w, w.on)
    ensures t in w.ports.table <==> t in w.links[w.on].tags.dial
    ensures t in w.ports.table <==>
            exists id :: Owns(w, id, w.on, t) && w.calls[id].pc == Open
    ensures t in w.ports.table ==>
            w.ports.table[t] in w.made && Owns(w, w.made[w.ports.table[t]].origin, w.on, t)
  {
    ReachedInv(acts, w);
    var l := w.links[w.on];
    if t in w.ports.table {
      assert EntryOk(w, t);
      var ln := w.ports.table[t];
      assert MadeId(w, ln);
      assert CallId(w, w.made[ln].origin) && LiveOk(w, w.made[ln].origin);
    }
    if t in l.tags.dial {
      assert OwnersOk(w, w.on);
      var id := l.owner[t - 1];
      assert Owns(w, id, w.on, t);
      assert CallId(w, id) && LiveOk(w, id);
    }
    if id :| Owns(w, id, w.on, t) && w.calls[id].pc == Open {
      assert CallId(w, id) && LiveOk(w, id);
    }
  }

  /** Off the link, the device has no forward listener open. */
  lemma OfflineHoldsNothing(acts: seq<Act>, w: World)
    requires Reached(acts, w) && !w.serving
    ensures w.ports.table == map[] && w.ports.open == {}
  {
    ReachedInv(acts, w);
    assert forall t :: t in w.ports.table ==> EntryOk(w, t);
    assert w.ports.table.Keys == {};
  }
}
