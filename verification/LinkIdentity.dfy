/** What each step of LinkMachine keeps about identity: which call made a listener, owns a
    tag, or is meant by a message. */
module LinkIdentity {
  import opened Sequences
  import opened LinkMachine

  ghost predicate Owns(w: World, id: nat, c: nat, tag: nat) {
    id in w.calls && w.calls[id].conn == c && w.calls[id].tag == tag
  }

  /** A tag names one call per connection, and keeps that call's dialer. */
  ghost predicate CallId(w: World, id: nat) {
    && HasLink(w, id)
    && var k := w.calls[id];
    && var l := w.links[k.conn];
    && 1 <= k.tag <= |l.owner| && l.owner[k.tag - 1] == id
    && (k.tag in l.tags.dial ==> l.tags.dial[k.tag] == k.dial)
    && (k.made.Some? ==> k.made.value in w.made && w.made[k.made.value] == Listener(k.conn, k.tag, id))
  }

  ghost predicate OwnersOk(w: World, c: nat) {
    && c in w.links
    && var l := w.links[c];
    && l.tags.last == |l.owner|
    && (forall n :: 0 <= n < |l.owner| ==> Owns(w, l.owner[n], c, n + 1))
    && (forall t :: t in l.tags.dial ==> 1 <= t <= |l.owner|)
  }

  ghost predicate ReqId(w: World, c: nat, r: Req) {
    if r.Bind? then Owns(w, r.origin, c, r.tag)
    else c in w.links && 1 <= r.tag <= |w.links[c].owner|
  }

  ghost predicate OpenId(w: World, c: nat, m: OpenMsg) {
    m.listener in w.made && w.made[m.listener].conn == c && w.made[m.listener].tag == m.tag
  }

  ghost predicate MadeId(w: World, ln: nat) {
    && ln in w.made
    && var m := w.made[ln];
    Owns(w, m.origin, m.conn, m.tag) && w.calls[m.origin].made == Some(ln)
  }

  ghost predicate BridgeOk(w: World, b: Bridge) {
    b.listener in w.made && w.made[b.listener].origin in w.calls &&
    b.dial == w.calls[w.made[b.listener].origin].dial
  }

  /** No bind is served twice; the wire invariant below provides this. */
  ghost predicate FirstServing(w: World, a: Act)
    requires Enabled(w, a)
  {
    a.ServeBind? ==>
      var r := w.links[w.on].reqs[0];
      Owns(w, r.origin, w.on, r.tag) && w.calls[r.origin].made == None
  }

  lemma OwnsKept(w: World, a: Act, w': World, id: nat, c: nat, tag: nat)
    requires Enabled(w, a) && w' == Apply(w, a)
    requires Owns(w, id, c, tag)
    ensures Owns(w', id, c, tag) && w'.calls[id].dial == w.calls[id].dial
  {
  }

  lemma CallKeptCaller(w: World, a: Act, w': World, id: nat)
    requires Enabled(w, a) && w' == Apply(w, a)
    requires CallId(w, id)
    requires a.StartForward? ==> w.links[a.c].tags.last == |w.links[a.c].owner|
    requires ByCaller(a)
    ensures CallId(w', id)
  {
  }

  lemma CallKeptLink(w: World, a: Act, w': World, id: nat)
    requires Enabled(w, a) && w' == Apply(w, a)
    requires CallId(w, id)
    requires ByLink(a)
    ensures CallId(w', id)
  {
  }

  lemma CallKeptDevice(w: World, a: Act, w': World, id: nat)
    requires Enabled(w, a) && w' == Apply(w, a)
    requires CallId(w, id)
    requires FirstServing(w, a)
    requires ByDevice(a)
    ensures CallId(w', id)
  {
  }

  lemma CallKept(w: World, a: Act, w': World, id: nat)
    requires Enabled(w, a) && w' == Apply(w, a)
    requires CallId(w, id)
    requires a.StartForward? ==> w.links[a.c].tags.last == |w.links[a.c].owner|
    requires FirstServing(w, a)
    ensures CallId(w', id)
  {
    hide Enabled, Apply, CallId, FirstServing;
    if ByCaller(a) {
      CallKeptCaller(w, a, w', id);
    } else if ByLink(a) {
      CallKeptLink(w, a, w', id);
    } else {
      CallKeptDevice(w, a, w', id);
    }
  }

  /** The owners of a link's tags only ever grow, by the Forward that takes the next tag. */
  lemma OwnersGrow(w: World, a: Act, w': World, c: nat)
    requires Enabled(w, a) && w' == Apply(w, a) && c in w.links
    ensures c in w'.links
    ensures
      || w'.links[c].owner == w.links[c].owner
      || (w'.links[c].owner == w.links[c].owner + [a.id] && Owns(w', a.id, c, w.links[c].tags.last + 1)
          && w'.links[c].tags.last == w.links[c].tags.last + 1)
  {
  }

  lemma OwnersKept(w: World, a: Act, w': World, c: nat)
    requires Enabled(w, a) && w' == Apply(w, a)
    requires OwnersOk(w, c)
    ensures OwnersOk(w', c)
  {
    OwnersGrow(w, a, w', c);
  }

  lemma MadeKept(w: World, a: Act, w': World, ln: nat)
    requires Enabled(w, a) && w' == Apply(w, a) && FirstServing(w, a)
    requires MadeId(w, ln)
    ensures MadeId(w', ln)
  {
  }

  lemma BridgeKept(w: World, a: Act, w': World, b: Bridge)
    requires Enabled(w, a) && w' == Apply(w, a) && b in w'.bridges
    requires b in w.bridges ==> BridgeOk(w, b)
    requires b !in w.bridges ==>
      a.HandleOpen? &&
      var m := w.links[a.c].opens[0];
      OpenId(w, a.c, m) && MadeId(w, m.listener) && CallId(w, w.made[m.listener].origin)
    ensures BridgeOk(w', b)
  {
  }

  lemma ReqKeptCaller(w: World, a: Act, w': World, c: nat, r: Req)
    requires Enabled(w, a) && w' == Apply(w, a) && c in w'.links && r in w'.links[c].reqs
    requires c in w.links && r in w.links[c].reqs ==> ReqId(w, c, r)
    requires a.SendBind? || a.CloserSends? ==> CallId(w, a.id)
    requires ByCaller(a)
    ensures ReqId(w', c, r)
  {
  }

  lemma ReqKeptLink(w: World, a: Act, w': World, c: nat, r: Req)
    requires Enabled(w, a) && w' == Apply(w, a) && c in w'.links && r in w'.links[c].reqs
    requires c in w.links && r in w.links[c].reqs ==> ReqId(w, c, r)
    requires ByLink(a)
    ensures ReqId(w', c, r)
  {
  }

  lemma ReqKeptDevice(w: World, a: Act, w': World, c: nat, r: Req)
    requires Enabled(w, a) && w' == Apply(w, a) && c in w'.links && r in w'.links[c].reqs
    requires c in w.links && r in w.links[c].reqs ==> ReqId(w, c, r)
    requires ByDevice(a)
    ensures ReqId(w', c, r)
  {
  }

  lemma ReqKept(w: World, a: Act, w': World, c: nat, r: Req)
    requires Enabled(w, a) && w' == Apply(w, a) && c in w'.links && r in w'.links[c].reqs
    requires c in w.links && r in w.links[c].reqs ==> ReqId(w, c, r)
    requires a.SendBind? || a.CloserSends? ==> CallId(w, a.id)
    ensures ReqId(w', c, r)
  {
    hide Enabled, Apply, ReqId, CallId;
    if ByCaller(a) {
      ReqKeptCaller(w, a, w', c, r);
    } else if ByLink(a) {
      ReqKeptLink(w, a, w', c, r);
    } else {
      ReqKeptDevice(w, a, w', c, r);
    }
  }

  lemma OpenKept(w: World, a: Act, w': World, c: nat, m: OpenMsg)
    requires Enabled(w, a) && w' == Apply(w, a) && c in w'.links && m in w'.links[c].opens
    requires c in w.links && m in w.links[c].opens ==> OpenId(w, c, m)
    ensures OpenId(w', c, m)
  {
  }

  ghost predicate IdInv(w: World) {
    && (forall id :: id in w.calls ==> CallId(w, id))
    && (forall c :: c in w.links ==> OwnersOk(w, c))
    && (forall c, r :: c in w.links && r in w.links[c].reqs ==> ReqId(w, c, r))
    && (forall c, m :: c in w.links && m in w.links[c].opens ==> OpenId(w, c, m))
    && (forall ln :: ln in w.made ==> MadeId(w, ln))
    && (forall b :: b in w.bridges ==> BridgeOk(w, b))
  }

  lemma CallNew(w: World, a: Act, id: nat)
    requires Enabled(w, a) && id in Apply(w, a).calls && id !in w.calls
    requires forall c :: c in w.links ==> OwnersOk(w, c)
    ensures CallId(Apply(w, a), id)
  {
    assert OwnersOk(w, a.c);
  }

  lemma OwnersNew(w: World, a: Act, c: nat)
    requires Enabled(w, a) && c in Apply(w, a).links && c !in w.links
    ensures OwnersOk(Apply(w, a), c)
  {
  }

  lemma MadeNew(w: World, a: Act, ln: nat)
    requires Enabled(w, a) && FirstServing(w, a) && ln in Apply(w, a).made && ln !in w.made
    ensures MadeId(Apply(w, a), ln)
  {
  }

  /** What a new bridge rests on. */
  lemma BridgeNew(w: World, a: Act, b: Bridge)
    requires IdInv(w) && Enabled(w, a) && b in Apply(w, a).bridges && b !in w.bridges
    ensures a.HandleOpen? &&
      var m := w.links[a.c].opens[0];
      OpenId(w, a.c, m) && MadeId(w, m.listener) && CallId(w, w.made[m.listener].origin)
  {
    var m := w.links[a.c].opens[0];
    assert m in w.links[a.c].opens;
    assert OpenId(w, a.c, m);
    assert MadeId(w, m.listener);
  }

  lemma IdStep(w: World, a: Act)
    requires IdInv(w) && Enabled(w, a) && FirstServing(w, a)
    ensures IdInv(Apply(w, a))
  {
    hide CallId, OwnersOk, ReqId, OpenId, MadeId, BridgeOk, FirstServing, Apply, Enabled;
    var w' := Apply(w, a);
    forall b | b in w'.bridges ensures BridgeOk(w', b) {
      BridgeStep(w, a, b);
    }
    forall id | id in w'.calls ensures CallId(w', id) {
      CallStep(w, a, id);
    }
    forall c | c in w'.links ensures OwnersOk(w', c) {
      if c in w.links {
        OwnersKept(w, a, w', c);
      } else {
        OwnersNew(w, a, c);
      }
    }
    QueuesStep(w, a);
    forall ln | ln in w'.made ensures MadeId(w', ln) {
      if ln in w.made {
        MadeKept(w, a, w', ln);
      } else {
        MadeNew(w, a, ln);
      }
    }
  }

  lemma BridgeStep(w: World, a: Act, b: Bridge)
    requires IdInv(w) && Enabled(w, a) && b in Apply(w, a).bridges
    ensures BridgeOk(Apply(w, a), b)
  {
    hide CallId, OwnersOk, ReqId, OpenId, MadeId, BridgeOk, Apply, Enabled;
    if b !in w.bridges {
      BridgeNew(w, a, b);
    }
    BridgeKept(w, a, Apply(w, a), b);
  }

  lemma CallStep(w: World, a: Act, id: nat)
    requires IdInv(w) && Enabled(w, a) && FirstServing(w, a) && id in Apply(w, a).calls
    ensures CallId(Apply(w, a), id)
  {
    hide CallId, OwnersOk, ReqId, OpenId, MadeId, BridgeOk;
    if id in w.calls {
      assert CallId(w, id);
      assert a.StartForward? ==> OwnersOk(w, a.c);
      LastOwner(w, a);
      CallKept(w, a, Apply(w, a), id);
    } else {
      CallNew(w, a, id);
    }
  }

  lemma QueuesStep(w: World, a: Act)
    requires IdInv(w) && Enabled(w, a)
    ensures var w' := Apply(w, a);
      && (forall c, r :: c in w'.links && r in w'.links[c].reqs ==> ReqId(w', c, r))
      && (forall c, m :: c in w'.links && m in w'.links[c].opens ==> OpenId(w', c, m))
  {
    hide CallId, OwnersOk, ReqId, OpenId, MadeId, BridgeOk, Apply;
    var w' := Apply(w, a);
    assert a.SendBind? || a.CloserSends? ==> CallId(w, a.id);
    hide Enabled;
    forall c, r | c in w'.links && r in w'.links[c].reqs ensures ReqId(w', c, r) {
      ReqKept(w, a, w', c, r);
    }
    forall c, m | c in w'.links && m in w'.links[c].opens ensures OpenId(w', c, m) {
      OpenKept(w, a, w', c, m);
    }
  }

  lemma LastOwner(w: World, a: Act)
    requires Enabled(w, a) && (a.StartForward? ==> OwnersOk(w, a.c))
    ensures a.StartForward? ==> w.links[a.c].tags.last == |w.links[a.c].owner|
  {
  }
}
