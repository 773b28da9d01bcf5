/** The coordinator's cross-project event hub (cmd/sr/coordevents.go) and the browser
    reducer that mirrors it (connectCoordEvents in web/app.js). */
module EventHub {
  import opened Fanout

  const SUB_CAP := 64

  /** A worker's session event; `exited` is state == "exited". */
  datatype SessEvent = SessEvent(id: string, exited: bool, needsInput: bool)

  /** A tagged event as it goes to the browser. */
  datatype Msg = Msg(worker: string, gone: bool, event: SessEvent)

  const NO_EVENT := SessEvent("", false, false)

  type Last = map<string, map<string, Msg>>

  datatype Hub = Hub(last: Last, readers: set<string>, table: Table<Msg>)

  const EMPTY_HUB := Hub(map[], {}, Empty())

  function Noted(last: Last, m: Msg): Last {
    var w, id := m.worker, m.event.id;
    if m.event.exited then
      if w in last then last[w := last[w] - {id}] else last
    else
      last[w := (if w in last then last[w] else map[])[id := m]]
  }

  ghost function Recorded(h: Hub, w: string, e: SessEvent): Hub
    requires h.table.subs <= h.table.chans.Keys
  {
    var m := Msg(w, false, e);
    h.(last := Noted(h.last, m), table := Broadcast(h.table, SUB_CAP, m))
  }

  /** One turn of syncReaders' second loop. */
  ghost function WorkerGone(h: Hub, w: string): Hub
    requires h.table.subs <= h.table.chans.Keys
  {
    Hub(h.last - {w}, h.readers - {w}, Broadcast(h.table, SUB_CAP, Msg(w, true, NO_EVENT)))
  }

  ghost function WorkersGone(h: Hub, ws: seq<string>): (r: Hub)
    requires h.table.subs <= h.table.chans.Keys
    ensures r.table.subs <= r.table.chans.Keys
  {
    if ws == [] then h else WorkerGone(WorkersGone(h, ws[..|ws| - 1]), ws[|ws| - 1])
  }

  lemma WorkersGoneNone(h: Hub)
    requires h.table.subs <= h.table.chans.Keys
    ensures WorkersGone(h, []) == h
  {
  }

  lemma WorkersGoneSnoc(h: Hub, ws: seq<string>, w: string)
    requires h.table.subs <= h.table.chans.Keys
    ensures WorkersGone(h, ws + [w]) == WorkerGone(WorkersGone(h, ws), w)
  {
    assert (ws + [w])[..|ws|] == ws;
  }

  function Offered(c: Chan<Msg>, msgs: seq<Msg>): Chan<Msg> {
    if msgs == [] then c
    else TrySend(Offered(c, msgs[..|msgs| - 1]), SUB_CAP, msgs[|msgs| - 1])
  }

  /** Subscribing, when Go happens to visit the nested maps in the order `snap`. */
  function SubscribedWith(h: Hub, id: nat, snap: seq<Msg>): Hub {
    h.(table := Table(h.table.subs + {id},
                      h.table.chans[id := Offered(Chan([], 0, false, false), snap)], h.table.fault))
  }

  ghost predicate InLast(last: Last, m: Msg) {
    m.worker in last && m.event.id in last[m.worker] && last[m.worker][m.event.id] == m
  }

  /** `snap` lists every entry of `last` once. */
  ghost predicate IsListing(last: Last, snap: seq<Msg>) {
    && (forall m :: m in snap ==> InLast(last, m))
    && (forall w, id :: w in last && id in last[w] ==> last[w][id] in snap)
    && (forall i, j :: 0 <= i < j < |snap| ==> snap[i] != snap[j])
  }

  /** Entries sit under their own names and are never exits. */
  ghost predicate LastOk(last: Last) {
    forall w, id :: w in last && id in last[w] ==>
      && last[w][id].worker == w && last[w][id].event.id == id
      && !last[w][id].gone && !last[w][id].event.exited
  }

  /** A list of exactly these workers, each once. */
  ghost predicate OnceEach(order: seq<string>, ws: set<string>) {
    && (forall w :: w in order <==> w in ws)
    && forall i, j :: 0 <= i < j < |order| ==> order[i] != order[j]
  }

  /** One more worker has been told of. */
  lemma OneLess(running: set<string>, told: set<string>, todo: set<string>, gone: set<string>, w: string)
    requires Parted(running, told, todo, gone) && w in todo
    ensures running + todo - {w} == running + (todo - {w})
    ensures Parted(running, told + {w}, todo - {w}, gone) && w !in told
  {
  }

  /** The workers that are gone, told of or not, and none of them running. */
  ghost predicate Parted(running: set<string>, told: set<string>, todo: set<string>, gone: set<string>) {
    told + todo == gone && told !! todo && gone !! running
  }

  lemma AllTold(running: set<string>, told: set<string>, gone: set<string>)
    requires Parted(running, told, {}, gone)
    ensures told == gone
  {
  }

  lemma OnceNone()
    ensures OnceEach([], {})
  {
  }

  lemma OnceSnoc(order: seq<string>, ws: set<string>, w: string)
    requires OnceEach(order, ws) && w !in ws
    ensures OnceEach(order + [w], ws + {w})
  {
    assert forall i :: 0 <= i < |order| ==> order[i] in ws;
  }

  class EventHub {
    var last: Last
    var readers: set<string>
    var table: Table<Msg>

    ghost function View(): Hub reads this { Hub(last, readers, table) }

    ghost predicate Valid() reads this { table.Sound() && LastOk(last) }

    constructor ()
      ensures View() == EMPTY_HUB && Valid()
    {
      last, readers, table := map[], {}, Empty();
    }

    method Record(w: string, e: SessEvent)
      requires Valid()
      modifies this
      ensures Valid() && View() == Recorded(old(View()), w, e)
    {
      var m := Msg(w, false, e);
      if e.exited {
        if w in last {
          last := last[w := last[w] - {e.id}];
        }
      } else {
        if w !in last {
          last := last[w := map[]];
        }
        last := last[w := last[w][e.id := m]];
      }
      BroadcastSound(table, SUB_CAP, m);
      table := SendToAll(table, SUB_CAP, m);
    }

    method DropWorker(w: string)
      requires Valid()
      modifies this
      ensures Valid() && View() == WorkerGone(old(View()), w)
      ensures readers == old(readers) - {w}
    {
      readers := readers - {w};
      last := last - {w};
      BroadcastSound(table, SUB_CAP, Msg(w, true, NO_EVENT));
      table := SendToAll(table, SUB_CAP, Msg(w, true, NO_EVENT));
    }

    /** syncReaders: start a reader for every running worker that has none, then drop
        every worker that has a reader but no longer runs, in some order. */
    method SyncReaders(running: set<string>) returns (ghost order: seq<string>)
      requires Valid()
      modifies this
      ensures Valid() && readers == running
      ensures View() == WorkersGone(old(View()).(readers := old(readers) + running), order)
      ensures OnceEach(order, old(readers) - running)
    {
      hide Broadcast, WorkerGone, WorkersGone, LastOk, OnceEach;
      ghost var gone := readers - running;
      var todo := readers - running;
      readers := readers + running;
      ghost var started := View();
      WorkersGoneNone(started);
      OnceNone();
      ghost var told: set<string> := {};
      order := [];
      assert readers == running + todo && Parted(running, told, todo, gone);
      hide Parted;
      while todo != {}
        invariant Valid() && View() == WorkersGone(started, order)
        invariant OnceEach(order, told) && Parted(running, told, todo, gone)
        invariant readers == running + todo
        decreases |todo|
      {
        var w :| w in todo;
        WorkersGoneSnoc(started, order, w);
        OneLess(running, told, todo, gone, w);
        OnceSnoc(order, told, w);
        DropWorker(w);
        order, told, todo := order + [w], told + {w}, todo - {w};
      }
      AllTold(running, told, gone);
      assert readers == running;
    }

    /** sub: register a channel and replay the snapshot into it. */
    method Subscribe(id: nat) returns (ghost snap: seq<Msg>)
      requires Valid() && id !in table.chans
      modifies this`table
      ensures Valid() && IsListing(last, snap) && View() == SubscribedWith(old(View()), id, snap)
    {
      var ch: Chan<Msg> := Chan([], 0, false, false);
      snap := [];
      var workers := last.Keys;
      while workers != {}
        invariant workers <= last.Keys && ch == Offered(Chan([], 0, false, false), snap)
        invariant ch.Valid() && !ch.closed
        invariant forall m :: m in snap ==> InLast(last, m) && m.worker !in workers
        invariant forall w, i :: w in last && w !in workers && i in last[w] ==> last[w][i] in snap
        invariant forall i, j :: 0 <= i < j < |snap| ==> snap[i] != snap[j]
        decreases |workers|
      {
        var w :| w in workers;
        var ids := last[w].Keys;
        while ids != {}
          invariant ids <= last[w].Keys && ch == Offered(Chan([], 0, false, false), snap)
          invariant ch.Valid() && !ch.closed
          invariant forall m :: m in snap ==>
            InLast(last, m) && (m.worker !in workers || (m.worker == w && m.event.id !in ids))
          invariant forall v, i :: v in last && v !in workers && i in last[v] ==> last[v][i] in snap
          invariant forall i :: i in last[w] && i !in ids ==> last[w][i] in snap
          invariant forall i, j :: 0 <= i < j < |snap| ==> snap[i] != snap[j]
          decreases |ids|
        {
          var i :| i in ids;
          var m := last[w][i];
          assert (snap + [m])[..|snap|] == snap;
          ch := TrySend(ch, SUB_CAP, m);
          snap := snap + [m];
          ids := ids - {i};
        }
        workers := workers - {w};
      }
      table := Table(table.subs + {id}, table.chans[id := ch], table.fault);
    }

    method Unsubscribe(id: nat)
      requires Valid()
      modifies this`table
      ensures Valid() && table == Cancel(old(table), id)
    {
      LocalSound(table, id);
      if id in table.subs {
        table := Table(table.subs - {id}, table.chans[id := table.chans[id].(closed := true)],
                       table.fault || table.chans[id].closed);
      }
    }
  }

  // ------------------------------------------------------------------- reducer

  /** state.projAtt: worker to the ids of its sessions needing input. */
  type Mirror = map<string, set<string>>

  function Att(m: Mirror, w: string): set<string> { if w in m then m[w] else {} }

  /** The onmessage handler. */
  function Reduce(m: Mirror, msg: Msg): Mirror {
    if msg.worker == "" then m
    else if msg.gone then m - {msg.worker}
    else if msg.event.id == "" then m
    else
      var ids := Att(m, msg.worker);
      m[msg.worker := if msg.event.needsInput && !msg.event.exited
                      then ids + {msg.event.id} else ids - {msg.event.id}]
  }

  function Fold(m: Mirror, msgs: seq<Msg>): Mirror {
    if msgs == [] then m else Reduce(Fold(m, msgs[..|msgs| - 1]), msgs[|msgs| - 1])
  }

  /** The sessions of a worker the hub knows to need input. */
  ghost function Needing(last: Last, w: string): set<string> {
    if w in last then set id | id in last[w] && id != "" && last[w][id].event.needsInput else {}
  }

  /** The mirror shows, worker by worker, exactly those sessions. */
  ghost predicate Mirrors(m: Mirror, last: Last) {
    forall w :: w != "" ==> Att(m, w) == Needing(last, w)
  }

  lemma FoldSnoc(m: Mirror, msgs: seq<Msg>, msg: Msg)
    ensures Fold(m, msgs + [msg]) == Reduce(Fold(m, msgs), msg)
  {
    assert (msgs + [msg])[..|msgs|] == msgs;
  }

  lemma RecordMirrored(m: Mirror, last: Last, msg: Msg)
    requires Mirrors(m, last) && LastOk(last) && !msg.gone
    ensures Mirrors(Reduce(m, msg), Noted(last, msg)) && LastOk(Noted(last, msg))
  {
    var m', last' := Reduce(m, msg), Noted(last, msg);
    forall w | w != "" ensures Att(m', w) == Needing(last', w) {
      assert Att(m, w) == Needing(last, w);
    }
  }

  lemma GoneMirrored(m: Mirror, last: Last, w: string)
    requires Mirrors(m, last) && LastOk(last)
    ensures Mirrors(Reduce(m, Msg(w, true, NO_EVENT)), last - {w}) && LastOk(last - {w})
  {
    forall v | v != "" ensures Att(Reduce(m, Msg(w, true, NO_EVENT)), v) == Needing(last - {w}, v) {
      assert Att(m, v) == Needing(last, v);
    }
  }

  /** Replaying hub entries, in any order, on top of any mirror. */
  lemma {:induction false} FoldEntries(m: Mirror, last: Last, snap: seq<Msg>, w: string, id: string)
    requires LastOk(last) && w != "" && id != ""
    requires forall e :: e in snap ==> InLast(last, e)
    ensures id in Att(Fold(m, snap), w) <==>
            if w in last && id in last[w] && last[w][id] in snap
            then last[w][id].event.needsInput else id in Att(m, w)
    decreases |snap|
  {
    if snap != [] {
      var init, e := snap[..|snap| - 1], snap[|snap| - 1];
      assert snap == init + [e];
      FoldEntries(m, last, init, w, id);
      assert InLast(last, e);
    }
  }

  /** The snapshot brings a mirror up to date exactly when the mirror held no session
      the hub has forgotten; a page's first subscription starts with an empty one. */
  lemma SnapshotMirrors(m: Mirror, last: Last, snap: seq<Msg>)
    requires LastOk(last) && IsListing(last, snap)
    requires forall w :: w != "" ==> "" !in Att(m, w)
    ensures Mirrors(Fold(m, snap), last) <==>
            forall w, id :: w != "" && id in Att(m, w) ==> w in last && id in last[w]
  {
    var r := Fold(m, snap);
    forall w, id | w != "" && id != ""
      ensures id in Att(r, w) <==>
        if w in last && id in last[w] then last[w][id].event.needsInput else id in Att(m, w)
    {
      FoldEntries(m, last, snap, w, id);
    }
    NeverEmptyId(m, snap);
    if forall w, id :: w != "" && id in Att(m, w) ==> w in last && id in last[w] {
      forall w | w != "" ensures Att(r, w) == Needing(last, w) {
        assert forall id :: id in Att(r, w) <==> id in Needing(last, w);
      }
    } else {
      var w, id :| w != "" && id in Att(m, w) && !(w in last && id in last[w]);
      assert id in Att(r, w) && id !in Needing(last, w);
    }
  }

  lemma {:induction false} NeverEmptyId(m: Mirror, msgs: seq<Msg>)
    requires forall w :: w != "" ==> "" !in Att(m, w)
    ensures forall w :: w != "" ==> "" !in Att(Fold(m, msgs), w)
    decreases |msgs|
  {
    if msgs != [] {
      var init, last := msgs[..|msgs| - 1], msgs[|msgs| - 1];
      NeverEmptyId(m, init);
      forall w | w != "" ensures "" !in Att(Fold(m, msgs), w) {
        assert "" !in Att(Fold(m, init), w);
      }
    }
  }

  /** A fresh channel takes a snapshot whole exactly when it has room for it. */
  lemma {:induction false} SnapshotFits(snap: seq<Msg>)
    ensures var c := Offered(Chan([], 0, false, false), snap);
      && c.taken == 0 && !c.closed
      && c.sent == (if |snap| <= SUB_CAP then snap else snap[..SUB_CAP])
      && (c.lost <==> |snap| > SUB_CAP)
    decreases |snap|
  {
    if snap != [] {
      var init, last := snap[..|snap| - 1], snap[|snap| - 1];
      SnapshotFits(init);
      assert Offered(Chan([], 0, false, false), snap) ==
             TrySend(Offered(Chan([], 0, false, false), init), SUB_CAP, last);
      assert snap == init + [last];
      assert |init| >= SUB_CAP ==> snap[..SUB_CAP] == init[..SUB_CAP];
      assert |init| == SUB_CAP ==> init[..SUB_CAP] == init;
    }
  }
}
