/** All runs of the event hub: any number of browsers subscribe, receive and leave while
    workers report events, stop and start again, one lock-protected step at a time. */
module HubRuns {
  import opened Fanout
  import opened EventHub

  /** When a channel subscribed: how many hub changes had happened, and the length of
      the snapshot replayed into it. */
  datatype Joined = Joined(at: nat, snap: nat)

  /** `past` is every value the hub's map has had, oldest first. */
  datatype World = World(hub: Hub, past: seq<Last>, joined: map<nat, Joined>)

  datatype Act =
    | Report(w: string, e: SessEvent)
    | Start(w: string)
    | Stop(w: string)
    | Join(id: nat, snap: seq<Msg>)
    | Leave(id: nat)
    | Take(id: nat)

  const INIT := World(EMPTY_HUB, [map[]], map[])

  ghost predicate Enabled(v: World, a: Act) {
    var t := v.hub.table;
    t.subs <= t.chans.Keys &&
    match a
    case Report(_, _) => true
    case Start(w) => w !in v.hub.readers
    case Stop(w) => w in v.hub.readers
    case Join(id, snap) => id !in t.chans && IsListing(v.hub.last, snap) && v.past != []
    case Leave(_) => true
    case Take(id) => id in t.chans && t.chans[id].taken < |t.chans[id].sent|
  }

  ghost function Apply(v: World, a: Act): World
    requires Enabled(v, a)
  {
    var h := v.hub;
    match a
    case Report(w, e) =>
      var h' := Recorded(h, w, e);
      v.(hub := h', past := v.past + [h'.last])
    case Start(w) => v.(hub := h.(readers := h.readers + {w}))
    case Stop(w) =>
      var h' := WorkerGone(h, w);
      v.(hub := h', past := v.past + [h'.last])
    case Join(id, snap) =>
      v.(hub := SubscribedWith(h, id, snap), joined := v.joined[id := Joined(|v.past| - 1, |snap|)])
    case Leave(id) => v.(hub := h.(table := Cancel(h.table, id)))
    case Take(id) => v.(hub := h.(table := Receive(h.table, id)))
  }

  ghost predicate Leads(v: World, a: Act, w: World) { Enabled(v, a) && w == Apply(v, a) }

  ghost predicate Reached(acts: seq<Act>, w: World) {
    if acts == [] then w == INIT
    else
      var before, last := acts[..|acts| - 1], acts[|acts| - 1];
      exists v :: Reached(before, v) && Leads(v, last, w)
  }

  /** What a browser that has handled the first `k` messages of a channel shows. */
  function Shown(c: Chan<Msg>, k: nat): Mirror
    requires k <= |c.sent|
  {
    Fold(map[], c.sent[..k])
  }

  /** Message k of a channel that never overflowed carries the browser to the hub's map
      k - snap changes after it joined; a subscribed channel has been told of them all. */
  ghost predicate Follows(v: World, id: nat) {
    id in v.hub.table.chans && id in v.joined &&
    var c, j := v.hub.table.chans[id], v.joined[id];
    !c.lost ==>
      && j.snap <= |c.sent|
      && j.at + (|c.sent| - j.snap) < |v.past|
      && LastOk(v.past[j.at]) && IsListing(v.past[j.at], c.sent[..j.snap])
      && (id in v.hub.table.subs ==> j.at + (|c.sent| - j.snap) == |v.past| - 1)
      && forall k :: j.snap <= k <= |c.sent| ==> Mirrors(Shown(c, k), v.past[j.at + (k - j.snap)])
  }

  ghost predicate Inv(v: World) {
    && v.hub.table.Sound()
    && LastOk(v.hub.last)
    && v.past != [] && v.past[|v.past| - 1] == v.hub.last
    && forall id :: id in v.hub.table.chans ==> Follows(v, id)
  }

  /** One more change, told by one message to a channel that was up to date. */
  lemma ToldFollows(v: World, v': World, id: nat, msg: Msg)
    requires Follows(v, id) && v.past != []
    requires id in v.hub.table.subs && !v.hub.table.chans[id].closed
    requires v.past[|v.past| - 1] == v.hub.last && v'.past == v.past + [v'.hub.last]
    requires v'.joined == v.joined && id in v'.hub.table.chans
    requires v'.hub.table.chans[id] == TrySend(v.hub.table.chans[id], SUB_CAP, msg)
    requires forall m :: Mirrors(m, v.hub.last) ==> Mirrors(Reduce(m, msg), v'.hub.last)
    ensures Follows(v', id)
  {
    hide Mirrors, Reduce, Fold, LastOk, IsListing;
    var c, c' := v.hub.table.chans[id], v'.hub.table.chans[id];
    if !c'.lost {
      FoldSnoc(map[], c.sent, msg);
      var j := v.joined[id];
      assert c'.sent[..j.snap] == c.sent[..j.snap];
      assert c.sent[..|c.sent|] == c.sent && c'.sent[..|c'.sent|] == c'.sent;
      forall k | j.snap <= k <= |c'.sent|
        ensures Mirrors(Shown(c', k), v'.past[j.at + (k - j.snap)])
      {
        if k <= |c.sent| {
          assert c'.sent[..k] == c.sent[..k];
          assert Mirrors(Shown(c, k), v.past[j.at + (k - j.snap)]);
        } else {
          assert Mirrors(Shown(c, |c.sent|), v.hub.last);
        }
      }
    }
  }

  /** A change that a channel is no longer told about. */
  lemma UntoldFollows(v: World, v': World, id: nat)
    requires Follows(v, id) && id !in v'.hub.table.subs
    requires v.past <= v'.past && v'.joined == v.joined && id in v'.hub.table.chans
    requires v'.hub.table.chans[id].sent == v.hub.table.chans[id].sent
    requires v'.hub.table.chans[id].lost == v.hub.table.chans[id].lost
    ensures Follows(v', id)
  {
    hide Mirrors, Fold, LastOk, IsListing;
    var c, c' := v.hub.table.chans[id], v'.hub.table.chans[id];
    assert forall k :: 0 <= k <= |c.sent| ==> Shown(c', k) == Shown(c, k);
  }

  lemma ChangeFollows(v: World, a: Act, id: nat)
    requires Inv(v) && Enabled(v, a) && (a.Report? || a.Stop?) && id in v.hub.table.chans
    ensures Follows(Apply(v, a), id)
  {
    hide LastOk, Noted, Reduce, Mirrors, Follows;
    var v' := Apply(v, a);
    var msg := if a.Report? then Msg(a.w, false, a.e) else Msg(a.w, true, NO_EVENT);
    assert Follows(v, id);
    if id in v.hub.table.subs {
      forall m | Mirrors(m, v.hub.last) ensures Mirrors(Reduce(m, msg), v'.hub.last) {
        if a.Report? {
          RecordMirrored(m, v.hub.last, msg);
        } else {
          GoneMirrored(m, v.hub.last, a.w);
        }
      }
      ToldFollows(v, v', id, msg);
    } else {
      UntoldFollows(v, v', id);
    }
  }

  lemma ChangeKeeps(v: World, a: Act)
    requires Inv(v) && Enabled(v, a) && (a.Report? || a.Stop?)
    ensures Inv(Apply(v, a))
  {
    hide Follows, LastOk, Noted, Reduce, Mirrors;
    var v' := Apply(v, a);
    if a.Report? {
      MirrorOf(v.hub.last);
      var m :| Mirrors(m, v.hub.last);
      RecordMirrored(m, v.hub.last, Msg(a.w, false, a.e));
      BroadcastSound(v.hub.table, SUB_CAP, Msg(a.w, false, a.e));
    } else {
      MirrorOf(v.hub.last);
      var m :| Mirrors(m, v.hub.last);
      GoneMirrored(m, v.hub.last, a.w);
      BroadcastSound(v.hub.table, SUB_CAP, Msg(a.w, true, NO_EVENT));
    }
    forall id | id in v'.hub.table.chans ensures Follows(v', id) {
      ChangeFollows(v, a, id);
    }
  }

  lemma MirrorOf(last: Last)
    ensures exists m :: Mirrors(m, last)
  {
    var m: Mirror := map w | w in last :: Needing(last, w);
    assert Mirrors(m, last);
  }

  lemma JoinFollows(v: World, a: Act, id: nat)
    requires Inv(v) && Enabled(v, a) && a.Join?
    requires id == a.id || Follows(v, id)
    ensures Follows(Apply(v, a), id)
  {
    hide LastOk, IsListing, Mirrors, Fold, Offered;
    SnapshotFits(a.snap);
    if id == a.id {
      var c := Apply(v, a).hub.table.chans[id];
      if !c.lost {
        assert c.sent[..|c.sent|] == a.snap;
        SnapshotMirrors(map[], v.hub.last, a.snap);
      }
    }
  }

  lemma JoinKeeps(v: World, a: Act)
    requires Inv(v) && Enabled(v, a) && a.Join?
    ensures Inv(Apply(v, a))
  {
    hide LastOk, IsListing, Follows, Offered;
    var v' := Apply(v, a);
    SnapshotFits(a.snap);
    forall id | id in v'.hub.table.chans ensures Follows(v', id) {
      JoinFollows(v, a, id);
    }
  }

  lemma LocalKeeps(v: World, a: Act)
    requires Inv(v) && Enabled(v, a) && (a.Start? || a.Leave? || a.Take?)
    ensures Inv(Apply(v, a))
  {
    hide LastOk, IsListing, Mirrors, Fold;
    var v' := Apply(v, a);
    if !a.Start? {
      LocalSound(v.hub.table, a.id);
    }
    forall id | id in v'.hub.table.chans ensures Follows(v', id) {
      assert Follows(v, id);
      assert forall k :: 0 <= k <= |v.hub.table.chans[id].sent| ==>
        Shown(v'.hub.table.chans[id], k) == Shown(v.hub.table.chans[id], k);
    }
  }

  lemma {:induction false} ReachedInv(acts: seq<Act>, w: World)
    requires Reached(acts, w)
    ensures Inv(w)
    decreases |acts|
  {
    hide Inv, Enabled, Apply;
    if acts == [] {
      InitInv();
    } else {
      var before, a := acts[..|acts| - 1], acts[|acts| - 1];
      var v :| Reached(before, v) && Leads(v, a, w);
      ReachedInv(before, v);
      if a.Report? || a.Stop? {
        ChangeKeeps(v, a);
      } else if a.Join? {
        JoinKeeps(v, a);
      } else {
        LocalKeeps(v, a);
      }
    }
  }

  lemma InitInv()
    ensures Inv(INIT)
  {
  }

  // ------------------------------------------------------------------ theorems

  /** A browser that missed nothing and has handled all it was sent shows exactly the
      sessions the hub knows to need input, and so counts them right. */
  lemma {:induction false} MirrorRefines(acts: seq<Act>, v: World, id: nat)
    requires Reached(acts, v)
    requires id in v.hub.table.subs && id in v.hub.table.chans
    requires !v.hub.table.chans[id].lost
    ensures var c := v.hub.table.chans[id]; Mirrors(Shown(c, |c.sent|), v.hub.last)
  {
    hide LastOk, Mirrors, Fold, Reached;
    ReachedInv(acts, v);
    assert Follows(v, id);
    var c, j := v.hub.table.chans[id], v.joined[id];
    assert Mirrors(Shown(c, |c.sent|), v.past[j.at + (|c.sent| - j.snap)]);
  }

  /** projNeedsInput: how many sessions of a project await input, by what the browser of
      such a subscriber shows. */
  lemma {:induction false} CountIsRight(acts: seq<Act>, v: World, id: nat, w: string)
    requires Reached(acts, v) && w != ""
    requires id in v.hub.table.subs && id in v.hub.table.chans
    requires !v.hub.table.chans[id].lost
    ensures var c := v.hub.table.chans[id];
      |Att(Shown(c, |c.sent|), w)| == |Needing(v.hub.last, w)|
  {
    hide LastOk, Fold, Reached;
    MirrorRefines(acts, v, id);
  }

  /** Until then it shows the hub as it was a known number of changes ago: once the
      snapshot is read, message by message, through every past state in order. */
  lemma {:induction false} MirrorLagsInOrder(acts: seq<Act>, v: World, id: nat, k: nat)
    requires Reached(acts, v)
    requires id in v.hub.table.chans && !v.hub.table.chans[id].lost
    ensures id in v.joined
    ensures v.joined[id].snap <= k <= |v.hub.table.chans[id].sent| ==>
      && v.joined[id].at + (k - v.joined[id].snap) < |v.past|
      && Mirrors(Shown(v.hub.table.chans[id], k), v.past[v.joined[id].at + (k - v.joined[id].snap)])
  {
    hide LastOk, Mirrors, Fold, Reached;
    ReachedInv(acts, v);
    assert Follows(v, id);
  }

  /** The hub never sends on a closed channel nor closes one twice, and a channel is
      open exactly while it is registered. */
  lemma {:induction false} HubChannelsAreSafe(acts: seq<Act>, v: World)
    requires Reached(acts, v)
    ensures !v.hub.table.fault
    ensures forall id :: id in v.hub.table.chans ==>
      (id in v.hub.table.subs <==> !v.hub.table.chans[id].closed)
  {
    ReachedInv(acts, v);
  }

  // ------------------------------------------------------------- reconnecting

  /** Some message settles what the browser shows of the session. */
  ghost predicate Mentions(msgs: seq<Msg>, w: string, s: string) {
    exists i :: 0 <= i < |msgs| && Settles(msgs[i], w, s)
  }

  predicate Settles(m: Msg, w: string, s: string) { m.worker == w && (m.gone || m.event.id == s) }

  lemma MentionsConcat(a: seq<Msg>, b: seq<Msg>, w: string, s: string)
    ensures Mentions(a + b, w, s) <==> Mentions(a, w, s) || Mentions(b, w, s)
  {
    if i :| 0 <= i < |a| && Settles(a[i], w, s) {
      assert (a + b)[i] == a[i];
    }
    if i :| 0 <= i < |b| && Settles(b[i], w, s) {
      assert (a + b)[|a| + i] == b[i];
    }
  }

  lemma ReduceOne(m: Mirror, msg: Msg, w: string, s: string)
    requires w != "" && s != ""
    ensures s in Att(Reduce(m, msg), w) <==>
      if Settles(msg, w, s) then !msg.gone && msg.event.needsInput && !msg.event.exited else s in Att(m, w)
  {
  }

  /** Where the browser starts from matters only for sessions that no message mentions. */
  lemma {:induction false} FoldFrom(had: Mirror, msgs: seq<Msg>, w: string, s: string)
    requires w != "" && s != ""
    ensures s in Att(Fold(had, msgs), w) <==>
      if Mentions(msgs, w, s) then s in Att(Fold(map[], msgs), w) else s in Att(had, w)
    ensures !Mentions(msgs, w, s) ==> s !in Att(Fold(map[], msgs), w)
    decreases |msgs|
  {
    hide Reduce, Settles;
    if msgs != [] {
      var init, last := msgs[..|msgs| - 1], msgs[|msgs| - 1];
      assert msgs == init + [last];
      FoldFrom(had, init, w, s);
      MentionsConcat(init, [last], w, s);
      MentionsOne(last, w, s);
      ReduceOne(Fold(had, init), last, w, s);
      ReduceOne(Fold(map[], init), last, w, s);
    }
  }

  lemma MentionsOne(m: Msg, w: string, s: string)
    ensures Mentions([m], w, s) <==> Settles(m, w, s)
  {
    assert Settles([m][0], w, s) <==> Settles(m, w, s);
  }

  lemma ListingMentions(last: Last, snap: seq<Msg>, w: string, s: string)
    requires LastOk(last) && IsListing(last, snap)
    ensures Mentions(snap, w, s) <==> w in last && s in last[w]
  {
    if i :| 0 <= i < |snap| && Settles(snap[i], w, s) {
      assert InLast(last, snap[i]);
    }
    if w in last && s in last[w] {
      assert last[w][s] in snap;
      var i :| 0 <= i < |snap| && snap[i] == last[w][s];
      assert Settles(snap[i], w, s);
    }
  }

  /** The hub no longer knew the session when the channel joined, and has sent nothing about
      it since. */
  ghost predicate Forgotten(v: World, id: nat, w: string, s: string) {
    && id in v.hub.table.chans && id in v.joined
    && var c, j := v.hub.table.chans[id], v.joined[id];
    && j.snap <= |c.sent| && j.at < |v.past|
    && !(w in v.past[j.at] && s in v.past[j.at][w])
    && !Mentions(c.sent[j.snap..], w, s)
  }

  /** A browser that reconnects keeps the mirror it has. Whatever that was, once it has
      handled everything sent to a channel that never overflowed it shows the sessions that
      need input and, wrongly, exactly those of its old ones that the hub had forgotten at
      the join and has not mentioned since. */
  lemma {:induction false} ReconnectShows(acts: seq<Act>, v: World, id: nat, had: Mirror, w: string, s: string)
    requires Reached(acts, v) && w != "" && s != ""
    requires id in v.hub.table.subs && id in v.hub.table.chans && !v.hub.table.chans[id].lost
    ensures s in Att(Fold(had, v.hub.table.chans[id].sent), w) <==>
      s in Needing(v.hub.last, w) || (s in Att(had, w) && Forgotten(v, id, w, s))
    ensures Forgotten(v, id, w, s) ==> s !in Needing(v.hub.last, w)
  {
    hide Reached, Mentions, Fold, LastOk, IsListing, Mirrors;
    ReachedInv(acts, v);
    assert Follows(v, id);
    var c, j := v.hub.table.chans[id], v.joined[id];
    FoldFrom(had, c.sent, w, s);
    assert c.sent == c.sent[..j.snap] + c.sent[j.snap..];
    MentionsConcat(c.sent[..j.snap], c.sent[j.snap..], w, s);
    ListingMentions(v.past[j.at], c.sent[..j.snap], w, s);
    MirrorRefines(acts, v, id);
    assert c.sent[..|c.sent|] == c.sent;
    MirrorsOne(Fold(map[], c.sent), v.hub.last, w);
  }

  lemma MirrorsOne(m: Mirror, last: Last, w: string)
    requires Mirrors(m, last) && w != ""
    ensures Att(m, w) == Needing(last, w)
  {
  }

  // A browser joins, is told that a session needs input, and loses its link; the session
  // exits meanwhile, and the browser comes back with the mirror it had.

  function GoesWrong(w: string, s: string): seq<Act> {
    [Start(w), Join(1, []), Report(w, SessEvent(s, false, true)), Take(1), Leave(1),
     Report(w, SessEvent(s, true, false)), Join(2, [])]
  }

  function OneChan(w: string, last: Last, past: seq<Last>, c: Chan<Msg>): World {
    World(Hub(last, {w}, Table(if c.closed then {} else {1}, map[1 := c], false)), past, map[1 := Joined(0, 0)])
  }

  /** The world before and after each of those actions. */
  function Stage(w: string, s: string, k: nat): World {
    var m := Msg(w, false, SessEvent(s, false, true));
    var asking: Last := map[w := map[s := m]];
    if k == 0 then INIT
    else if k == 1 then INIT.(hub := EMPTY_HUB.(readers := {w}))
    else if k == 2 then OneChan(w, map[], [map[]], Chan([], 0, false, false))
    else if k == 3 then OneChan(w, asking, [map[], asking], Chan([m], 0, false, false))
    else if k == 4 then OneChan(w, asking, [map[], asking], Chan([m], 1, false, false))
    else if k == 5 then OneChan(w, asking, [map[], asking], Chan([m], 1, true, false))
    else if k == 6 then OneChan(w, map[w := map[]], [map[], asking, map[w := map[]]], Chan([m], 1, true, false))
    else
      World(Hub(map[w := map[]], {w},
                Table({2}, map[1 := Chan([m], 1, true, false), 2 := Chan([], 0, false, false)], false)),
            [map[], asking, map[w := map[]]], map[1 := Joined(0, 0), 2 := Joined(2, 0)])
  }

  lemma AskingIsSent(w: string, m: Msg)
    requires m.worker == w && !m.event.exited
    ensures Noted(map[], m) == map[w := map[m.event.id := m]]
    ensures Broadcast(Table({1}, map[1 := Chan([], 0, false, false)], false), SUB_CAP, m)
         == Table({1}, map[1 := Chan([m], 0, false, false)], false)
  {
    assert [] + [m] == [m];
  }

  lemma StageLeads(w: string, s: string, k: nat)
    requires k < 7
    ensures Leads(Stage(w, s, k), GoesWrong(w, s)[k], Stage(w, s, k + 1))
  {
    if k == 2 || k == 5 {
      ReportLeads(w, s, k);
    } else if k == 1 {
      assert IsListing(map[], []);
    } else if k == 6 {
      assert IsListing(map[w := map[]], []);
    }
  }

  lemma ReportLeads(w: string, s: string, k: nat)
    requires k == 2 || k == 5
    ensures Leads(Stage(w, s, k), GoesWrong(w, s)[k], Stage(w, s, k + 1))
  {
    if k == 2 {
      AskingIsSent(w, Msg(w, false, SessEvent(s, false, true)));
    } else {
      var none: map<string, Msg> := map[];
      var asking: Last := map[w := map[s := Msg(w, false, SessEvent(s, false, true))]];
      assert asking[w] - {s} == none;
      assert asking[w := none] == map[w := none];
    }
  }

  lemma {:induction false} StageReached(w: string, s: string, k: nat)
    requires k <= 7
    ensures Reached(GoesWrong(w, s)[..k], Stage(w, s, k))
  {
    hide Enabled, Apply;
    if k > 0 {
      StageReached(w, s, k - 1);
      StageLeads(w, s, k - 1);
      assert GoesWrong(w, s)[..k][..k - 1] == GoesWrong(w, s)[..k - 1];
    }
  }

  /** That run leaves the browser, which missed nothing, showing a session that needs nothing. */
  lemma ReconnectGoesWrong(w: string, s: string) returns (v: World)
    requires w != "" && s != ""
    ensures Reached(GoesWrong(w, s), v)
    ensures {1, 2} <= v.hub.table.chans.Keys && 2 in v.hub.table.subs && !v.hub.table.chans[2].lost
    ensures var c := v.hub.table.chans[1]; c.taken == |c.sent| && !c.lost
    ensures var had := Fold(map[], v.hub.table.chans[1].sent);
      s in Att(Fold(had, v.hub.table.chans[2].sent), w) && Needing(v.hub.last, w) == {}
  {
    v := Stage(w, s, 7);
    StageReached(w, s, 7);
    assert GoesWrong(w, s)[..7] == GoesWrong(w, s);
    FoldSnoc(map[], [], Msg(w, false, SessEvent(s, false, true)));
  }
}
