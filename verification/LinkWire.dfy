/** What each step of LinkMachine keeps about the requests and replies in flight. */
module LinkWire {
  import opened Sequences
  import opened DeviceLink
  import opened LinkMachine
  import opened LinkIdentity

  /** The calls whose binds are still on the wire, in order. */
  ghost function Origins(reqs: seq<Req>): seq<nat> {
    if reqs == [] then []
    else (if reqs[0].Bind? then [reqs[0].origin] else []) + Origins(reqs[1..])
  }

  lemma {:induction false} OriginsSnoc(reqs: seq<Req>, r: Req)
    ensures Origins(reqs + [r]) == Origins(reqs) + if r.Bind? then [r.origin] else []
  {
    if reqs == [] {
      assert reqs + [r] == [r];
    } else {
      OriginsSnoc(reqs[1..], r);
      assert (reqs + [r])[1..] == reqs[1..] + [r];
    }
  }

  /** The n-th waiting call: already answered truthfully, or its bind not served yet. */
  ghost predicate WaitOk(w: World, c: nat, n: nat) {
    && c in w.links && n < |w.links[c].waiting|
    && var l := w.links[c];
    && var id := l.waiting[n];
    && id in w.calls && w.calls[id].conn == c
    && (w.calls[id].pc == Requested || w.calls[id].pc == Rejected || w.calls[id].pc == Failed)
    && (l.up ==> w.calls[id].pc == Requested)
    && w.calls[id].made.Some? == (n < |l.replies| && l.replies[n])
  }

  /** Replies answer the oldest calls; the rest are exactly the binds still queued. */
  ghost predicate QueueOk(l: Link) {
    && |l.replies| <= |l.waiting|
    && l.waiting[|l.replies|..] == Origins(l.reqs)
    && forall m, n :: 0 <= m < n < |l.waiting| ==> l.waiting[m] != l.waiting[n]
  }

  ghost predicate WireOk(w: World, c: nat) {
    && c in w.links
    && QueueOk(w.links[c])
    && forall n :: 0 <= n < |w.links[c].waiting| ==> WaitOk(w, c, n)
  }

  lemma QueueServed(l: Link, ok: bool)
    requires QueueOk(l) && l.reqs != []
    ensures l.reqs[0].Bind? ==>
      && |l.replies| < |l.waiting| && l.waiting[|l.replies|] == l.reqs[0].origin
      && QueueOk(l.(reqs := l.reqs[1..], replies := l.replies + [ok]))
    ensures l.reqs[0].Unbind? ==> QueueOk(l.(reqs := l.reqs[1..]))
  {
    if l.reqs[0].Bind? {
      assert Origins(l.reqs)[0] == l.reqs[0].origin;
      assert l.waiting[|l.replies| + 1..] == l.waiting[|l.replies|..][1..];
      assert Origins(l.reqs)[1..] == Origins(l.reqs[1..]);
    }
  }

  lemma QueueSent(l: Link, r: Req)
    requires QueueOk(l)
    requires r.Bind? ==> r.origin !in l.waiting
    ensures r.Bind? ==> QueueOk(l.(reqs := l.reqs + [r], waiting := l.waiting + [r.origin]))
    ensures r.Unbind? ==> QueueOk(l.(reqs := l.reqs + [r]))
  {
    OriginsSnoc(l.reqs, r);
    if r.Bind? {
      assert (l.waiting + [r.origin])[|l.replies|..] == l.waiting[|l.replies|..] + [r.origin];
    }
  }

  lemma QueueAnswered(l: Link)
    requires QueueOk(l) && l.replies != []
    ensures QueueOk(l.(replies := l.replies[1..], waiting := l.waiting[1..]))
  {
    assert l.waiting[1..][|l.replies| - 1..] == l.waiting[|l.replies|..];
  }

  lemma QueueKept(w: World, a: Act, w': World, c: nat)
    requires Enabled(w, a) && w' == Apply(w, a) && WireOk(w, c)
    requires a.SendBind? ==> w.calls[a.id].made == None
    ensures c in w'.links && QueueOk(w'.links[c])
  {
    var l := w.links[c];
    hide QueueOk;
    match a
    case SendBind(id) =>
      if w.calls[id].conn == c {
        forall n | 0 <= n < |l.waiting| ensures l.waiting[n] != id {
          assert WaitOk(w, c, n);
        }
        QueueSent(l, Bind(w.calls[id].tag, id));
      }
    case CloserSends(id) => QueueSent(l, Unbind(w.calls[id].tag));
    case TakeReply(_) =>
      if a.c == c {
        QueueAnswered(l);
      }
    case ServeBind(ok, _) =>
      if w.on == c {
        QueueServed(l, ok);
      }
    case ServeUnbind =>
      if w.on == c {
        QueueServed(l, true);
      }
    case LinkDown(_) => TrafficUntouched(l, false, l.tags, l.owner, l.opens);
    case StartForward(_, _, _) => TrafficUntouched(l, l.up, w'.links[c].tags, w'.links[c].owner, l.opens);
    case DropTag(_) => TrafficUntouched(l, l.up, w'.links[c].tags, l.owner, l.opens);
    case HandleOpen(_) => TrafficUntouched(l, l.up, l.tags, l.owner, w'.links[c].opens);
    case SendOpen(_) => TrafficUntouched(l, l.up, l.tags, l.owner, w'.links[c].opens);
    case _ =>
  }

  lemma TrafficUntouched(l: Link, up: bool, tags: Tags, owner: seq<nat>, opens: seq<OpenMsg>)
    requires QueueOk(l)
    ensures QueueOk(l.(up := up, tags := tags, owner := owner, opens := opens))
  {
  }

  lemma WaitOtherCaller(w: World, a: Act, w': World, c: nat, n: nat)
    requires Enabled(w, a) && w' == Apply(w, a) && WaitOk(w, c, n)
    requires ByCaller(a)
    ensures WaitOk(w', c, n)
  {
  }

  lemma WaitOtherLink(w: World, a: Act, w': World, c: nat, n: nat)
    requires Enabled(w, a) && w' == Apply(w, a) && !a.TakeReply? && WaitOk(w, c, n)
    requires ByLink(a)
    ensures WaitOk(w', c, n)
  {
  }

  lemma WaitOtherDevice(w: World, a: Act, w': World, c: nat, n: nat)
    requires Enabled(w, a) && w' == Apply(w, a) && !a.ServeBind? && WaitOk(w, c, n)
    requires ByDevice(a)
    ensures WaitOk(w', c, n)
  {
  }

  lemma WaitOther(w: World, a: Act, w': World, c: nat, n: nat)
    requires Enabled(w, a) && w' == Apply(w, a) && !a.TakeReply? && !a.ServeBind? && WaitOk(w, c, n)
    ensures WaitOk(w', c, n)
  {
    hide Enabled, Apply, WaitOk;
    if ByCaller(a) {
      WaitOtherCaller(w, a, w', c, n);
    } else if ByLink(a) {
      WaitOtherLink(w, a, w', c, n);
    } else {
      WaitOtherDevice(w, a, w', c, n);
    }
  }

  lemma WaitTaken(w: World, d: nat, w': World, c: nat, n: nat)
    requires Enabled(w, TakeReply(d)) && w' == Apply(w, TakeReply(d)) && WaitOk(w, d, 0) && WireOk(w, c)
    requires n < |w'.links[c].waiting|
    ensures WaitOk(w', c, n)
  {
    if d == c {
      assert WaitOk(w, c, n + 1);
      assert w.links[c].waiting[n + 1] != w.links[c].waiting[0];
    } else {
      assert WaitOk(w, c, n);
    }
    hide Origins;
  }

  lemma WaitServed(w: World, ok: bool, ln: nat, w': World, c: nat, n: nat)
    requires Enabled(w, ServeBind(ok, ln)) && w' == Apply(w, ServeBind(ok, ln))
    requires WireOk(w, c) && WaitOk(w, c, n)
    requires Owns(w, w.links[w.on].reqs[0].origin, w.on, w.links[w.on].reqs[0].tag)
    ensures WaitOk(w', c, n)
  {
    if w.on == c {
      QueueServed(w.links[c], ok);
    }
    hide Origins;
  }

  ghost predicate WireInv(w: World) {
    forall c :: c in w.links ==> WireOk(w, c)
  }

  lemma WireServing(w: World, a: Act)
    requires WireInv(w) && IdInv(w) && Enabled(w, a)
    ensures FirstServing(w, a)
  {
    if a.ServeBind? {
      assert WireOk(w, w.on);
      var l := w.links[w.on];
      QueueServed(l, true);
      assert WaitOk(w, w.on, |l.replies|);
      assert l.reqs[0] in l.reqs;
      assert ReqId(w, w.on, l.reqs[0]);
    }
  }

  lemma WireKept(w: World, a: Act, w': World, c: nat)
    requires Enabled(w, a) && w' == Apply(w, a) && FirstServing(w, a)
    requires WireOk(w, c)
    requires a.SendBind? ==> w.calls[a.id].made == None
    requires a.TakeReply? ==> WaitOk(w, a.c, 0)
    ensures WireOk(w', c)
  {
    QueueKept(w, a, w', c);
    forall n | 0 <= n < |w'.links[c].waiting| ensures WaitOk(w', c, n) {
      match a
      case TakeReply(d) => WaitTaken(w, d, w', c, n);
      case ServeBind(ok, ln) =>
        assert WaitOk(w, c, n);
        WaitServed(w, ok, ln, w', c, n);
      case _ =>
        if n < |w.links[c].waiting| {
          assert WaitOk(w, c, n);
          WaitOther(w, a, w', c, n);
        }
    }
  }

  lemma WireStep(w: World, a: Act)
    requires WireInv(w) && IdInv(w) && Enabled(w, a)
    requires a.SendBind? ==> w.calls[a.id].made == None
    ensures WireInv(Apply(w, a))
  {
    var w' := Apply(w, a);
    WireServing(w, a);
    if a.TakeReply? {
      assert WireOk(w, a.c);
      assert WaitOk(w, a.c, 0);
    }
    forall c | c in w'.links ensures WireOk(w', c) {
      if c in w.links {
        WireKept(w, a, w', c);
      }
    }
  }
}
