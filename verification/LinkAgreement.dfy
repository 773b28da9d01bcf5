/** What each step of LinkMachine keeps about the tables at the two ends of a link. */
module LinkAgreement {
  import opened Sequences
  import opened DeviceLink
  import opened LinkMachine
  import opened LinkIdentity
  import opened LinkWire

  /** How far along a call is, and what that says about the two tables. */
  ghost predicate LiveOk(w: World, id: nat) {
    && HasLink(w, id)
    && var k := w.calls[id];
    && var l := w.links[k.conn];
    && (k.tag in l.tags.dial <==> k.pc != Failed && k.pc != Closed)
    && (k.pc == Tagged ==> k.made == None)
    && (k.pc == Open || k.pc == Unbinding || k.pc == Closed ==> k.made.Some?)
    && (l.up && (k.pc == Rejected || k.pc == Failed) ==> k.made == None)
    && (w.serving && w.on == k.conn && k.made.Some? && (k.pc == Requested || k.pc == Open) ==>
          k.tag in w.ports.table && w.ports.table[k.tag] == k.made.value)
    && (w.serving && w.on == k.conn && l.up && (k.pc == Unbinding || k.pc == Closed) ==>
          k.tag in w.ports.table ==> Unbind(k.tag) in l.reqs)
  }

  /** An unbind on the wire is for a call whose closer has been called. */
  ghost predicate UnbindOk(w: World, c: nat, r: Req) {
    && c in w.links
    && (r.Unbind? ==>
          && 1 <= r.tag <= |w.links[c].owner|
          && var id := w.links[c].owner[r.tag - 1];
          id in w.calls && (w.calls[id].pc == Unbinding || w.calls[id].pc == Closed))
  }

  /** A listener in the device's table belongs to the connection being served. */
  ghost predicate EntryOk(w: World, t: nat) {
    && t in w.ports.table && w.serving
    && w.ports.table[t] in w.made
    && w.made[w.ports.table[t]].conn == w.on && w.made[w.ports.table[t]].tag == t
  }

  lemma LiveOpening(w: World, a: Act, w': World, id: nat)
    requires Enabled(w, a) && w' == Apply(w, a)
    requires CallId(w, id) && LiveOk(w, id)
    requires a.StartForward? ==> w.links[a.c].tags.last == |w.links[a.c].owner|
    requires a.StartForward? || a.SendBind? || a.SendFails?
    ensures LiveOk(w', id)
  {
  }

  lemma LiveClosing(w: World, a: Act, w': World, id: nat)
    requires Enabled(w, a) && w' == Apply(w, a)
    requires CallId(w, id) && LiveOk(w, id)
    requires a.DropTag? ==> CallId(w, a.id)
    requires a.CloserSends? || a.DropTag?
    ensures LiveOk(w', id)
  {
  }

  lemma LiveOtherLink(w: World, a: Act, w': World, id: nat)
    requires Enabled(w, a) && w' == Apply(w, a) && !a.TakeReply?
    requires CallId(w, id) && LiveOk(w, id)
    requires ByLink(a)
    ensures LiveOk(w', id)
  {
  }

  lemma LiveOtherDevice(w: World, a: Act, w': World, id: nat)
    requires Enabled(w, a) && w' == Apply(w, a) && !a.ServeBind? && !a.ServeUnbind?
    requires CallId(w, id) && LiveOk(w, id)
    requires ByDevice(a)
    ensures LiveOk(w', id)
  {
  }

  lemma LiveOther(w: World, a: Act, w': World, id: nat)
    requires Enabled(w, a) && w' == Apply(w, a) && !a.ServeBind? && !a.ServeUnbind? && !a.TakeReply?
    requires CallId(w, id) && LiveOk(w, id)
    requires a.StartForward? ==> w.links[a.c].tags.last == |w.links[a.c].owner|
    requires a.DropTag? ==> CallId(w, a.id)
    ensures LiveOk(w', id)
  {
    hide Enabled, Apply, LiveOk, CallId;
    if a.CloserSends? || a.DropTag? {
      LiveClosing(w, a, w', id);
    } else if ByCaller(a) {
      LiveOpening(w, a, w', id);
    } else if ByLink(a) {
      LiveOtherLink(w, a, w', id);
    } else {
      LiveOtherDevice(w, a, w', id);
    }
  }

  lemma LiveTaken(w: World, c: nat, w': World, id: nat)
    requires Enabled(w, TakeReply(c)) && w' == Apply(w, TakeReply(c))
    requires CallId(w, id) && LiveOk(w, id) && WaitOk(w, c, 0)
    ensures LiveOk(w', id)
  {
  }

  lemma LiveServed(w: World, ok: bool, ln: nat, w': World, id: nat)
    requires Enabled(w, ServeBind(ok, ln)) && w' == Apply(w, ServeBind(ok, ln))
    requires FirstServing(w, ServeBind(ok, ln))
    requires CallId(w, id) && LiveOk(w, id)
    requires var o := w.links[w.on].reqs[0].origin;
      CallId(w, o) && (w.calls[o].pc == Requested || (!w.links[w.on].up &&
        (w.calls[o].pc == Rejected || w.calls[o].pc == Failed)))
    ensures LiveOk(w', id)
  {
  }

  lemma LiveUnbound(w: World, w': World, id: nat)
    requires Enabled(w, ServeUnbind) && w' == Apply(w, ServeUnbind)
    requires CallId(w, id) && LiveOk(w, id) && UnbindOk(w, w.on, w.links[w.on].reqs[0])
    ensures LiveOk(w', id)
  {
  }

  lemma UnbindKeptCaller(w: World, a: Act, w': World, c: nat, r: Req)
    requires Enabled(w, a) && w' == Apply(w, a) && c in w'.links && r in w'.links[c].reqs
    requires c in w.links && r in w.links[c].reqs ==> UnbindOk(w, c, r)
    requires a.CloserSends? ==> CallId(w, a.id)
    requires ByCaller(a)
    ensures UnbindOk(w', c, r)
  {
  }

  lemma UnbindKeptLink(w: World, a: Act, w': World, c: nat, r: Req)
    requires Enabled(w, a) && w' == Apply(w, a) && c in w'.links && r in w'.links[c].reqs
    requires c in w.links && r in w.links[c].reqs ==> UnbindOk(w, c, r)
    requires a.TakeReply? ==> WaitOk(w, a.c, 0)
    requires ByLink(a)
    ensures UnbindOk(w', c, r)
  {
  }

  lemma UnbindKeptDevice(w: World, a: Act, w': World, c: nat, r: Req)
    requires Enabled(w, a) && w' == Apply(w, a) && c in w'.links && r in w'.links[c].reqs
    requires c in w.links && r in w.links[c].reqs ==> UnbindOk(w, c, r)
    requires ByDevice(a)
    ensures UnbindOk(w', c, r)
  {
  }

  lemma UnbindKept(w: World, a: Act, w': World, c: nat, r: Req)
    requires Enabled(w, a) && w' == Apply(w, a) && c in w'.links && r in w'.links[c].reqs
    requires c in w.links && r in w.links[c].reqs ==> UnbindOk(w, c, r)
    requires a.CloserSends? ==> CallId(w, a.id)
    requires a.TakeReply? ==> WaitOk(w, a.c, 0)
    ensures UnbindOk(w', c, r)
  {
    hide Enabled, Apply, UnbindOk, CallId, WaitOk;
    if ByCaller(a) {
      UnbindKeptCaller(w, a, w', c, r);
    } else if ByLink(a) {
      UnbindKeptLink(w, a, w', c, r);
    } else {
      UnbindKeptDevice(w, a, w', c, r);
    }
  }

  lemma EntryKept(w: World, a: Act, w': World, t: nat)
    requires Enabled(w, a) && w' == Apply(w, a) && t in w'.ports.table
    requires t in w.ports.table ==> EntryOk(w, t)
    ensures EntryOk(w', t)
  {
  }

  ghost predicate AgreeInv(w: World) {
    && (forall id :: id in w.calls ==> LiveOk(w, id))
    && (forall c, r :: c in w.links && r in w.links[c].reqs ==> UnbindOk(w, c, r))
    && (forall t :: t in w.ports.table ==> EntryOk(w, t))
    && w.ports.open == w.ports.table.Values
  }

  lemma ValuesAfterUnbind(p: Ports, tag: nat)
    requires p.open == p.table.Values
    requires forall t, u :: t in p.table && u in p.table && p.table[t] == p.table[u] ==> t == u
    ensures Unbound(p, tag).open == Unbound(p, tag).table.Values
  {
    var q := Unbound(p, tag);
    forall l | l in q.open ensures l in q.table.Values {
      var t :| t in p.table && p.table[t] == l;
      assert t in q.table && q.table[t] == l;
    }
  }

  lemma ValuesAfterBind(p: Ports, tag: nat, ln: nat)
    requires p.open == p.table.Values && tag !in p.table
    ensures Bound(p, tag, ln).open == Bound(p, tag, ln).table.Values
  {
    var q := Bound(p, tag, ln);
    assert q.table[tag] == ln;
    forall l | l in p.open ensures l in q.table.Values {
      var t :| t in p.table && p.table[t] == l;
      assert q.table[t] == l;
    }
  }

  lemma OpenSetKept(w: World, a: Act, w': World)
    requires Enabled(w, a) && w' == Apply(w, a)
    requires forall t :: t in w.ports.table ==> EntryOk(w, t)
    requires w.ports.open == w.ports.table.Values
    requires a.ServeBind? ==> w.links[w.on].reqs[0].tag !in w.ports.table
    ensures w'.ports.open == w'.ports.table.Values
  {
    match a
    case ServeUnbind =>
      forall t, u | t in w.ports.table && u in w.ports.table && w.ports.table[t] == w.ports.table[u]
        ensures t == u
      {
        assert EntryOk(w, t) && EntryOk(w, u);
      }
      ValuesAfterUnbind(w.ports, w.links[w.on].reqs[0].tag);
    case ServeBind(ok, ln) => ValuesAfterBind(w.ports, w.links[w.on].reqs[0].tag, ln);
    case _ =>
  }

  lemma NextTagUnused(w: World, a: Act)
    requires IdInv(w) && AgreeInv(w) && Enabled(w, a) && FirstServing(w, a) && a.ServeBind?
    ensures w.links[w.on].reqs[0].tag !in w.ports.table
  {
    var r := w.links[w.on].reqs[0];
    assert CallId(w, r.origin);
    forall t | t in w.ports.table ensures t != r.tag {
      assert EntryOk(w, t);
      assert MadeId(w, w.ports.table[t]);
      assert CallId(w, w.made[w.ports.table[t]].origin);
    }
  }

  /** The oldest waiting call and, when a bind is served, the call it is for. */
  lemma NextWaiting(w: World, a: Act)
    requires IdInv(w) && WireInv(w) && Enabled(w, a) && FirstServing(w, a)
    ensures a.TakeReply? ==> WaitOk(w, a.c, 0)
    ensures a.ServeBind? ==>
      var o := w.links[w.on].reqs[0].origin;
      CallId(w, o) && (w.calls[o].pc == Requested || (!w.links[w.on].up &&
        (w.calls[o].pc == Rejected || w.calls[o].pc == Failed)))
  {
    match a
    case TakeReply(c) => assert WireOk(w, c);
    case ServeBind(ok, _) =>
      assert WireOk(w, w.on);
      QueueServed(w.links[w.on], ok);
      assert WaitOk(w, w.on, |w.links[w.on].replies|);
    case _ =>
  }

  lemma LiveStep(w: World, a: Act, id: nat)
    requires IdInv(w) && WireInv(w) && AgreeInv(w) && Enabled(w, a) && FirstServing(w, a)
    requires id in w.calls
    ensures LiveOk(Apply(w, a), id)
  {
    var w' := Apply(w, a);
    NextWaiting(w, a);
    assert CallId(w, id) && LiveOk(w, id);
    assert a.ServeUnbind? ==> w.links[w.on].reqs[0] in w.links[w.on].reqs;
    hide CallId, LiveOk, WaitOk, UnbindOk, WireInv, ReqId;
    match a
    case TakeReply(c) => LiveTaken(w, c, w', id);
    case ServeBind(ok, ln) => LiveServed(w, ok, ln, w', id);
    case ServeUnbind => LiveUnbound(w, w', id);
    case StartForward(_, c, _) =>
      assert OwnersOk(w, c);
      LiveOther(w, a, w', id);
    case _ => LiveOther(w, a, w', id);
  }

  lemma UnbindStep(w: World, a: Act, c: nat, r: Req)
    requires IdInv(w) && WireInv(w) && AgreeInv(w) && Enabled(w, a) && FirstServing(w, a)
    requires c in Apply(w, a).links && r in Apply(w, a).links[c].reqs
    ensures UnbindOk(Apply(w, a), c, r)
  {
    NextWaiting(w, a);
    assert c in w.links && r in w.links[c].reqs ==> UnbindOk(w, c, r);
    UnbindKept(w, a, Apply(w, a), c, r);
  }

  lemma AgreeStep(w: World, a: Act)
    requires IdInv(w) && WireInv(w) && AgreeInv(w) && Enabled(w, a)
    ensures AgreeInv(Apply(w, a))
  {
    var w' := Apply(w, a);
    WireServing(w, a);
    forall id | id in w'.calls ensures LiveOk(w', id) {
      if id in w.calls {
        LiveStep(w, a, id);
      }
    }
    forall c, r | c in w'.links && r in w'.links[c].reqs ensures UnbindOk(w', c, r) {
      UnbindStep(w, a, c, r);
    }
    forall t | t in w'.ports.table ensures EntryOk(w', t) {
      EntryKept(w, a, w', t);
    }
    if a.ServeBind? {
      NextTagUnused(w, a);
    }
    OpenSetKept(w, a, w');
  }
}
