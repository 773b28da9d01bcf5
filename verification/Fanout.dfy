/** Bounded Go channels fed by a lock-protected subscriber set: the pattern shared
    by a session's live output, the session manager's status events and the
    coordinator's cross-project event hub.

    A channel is written down as everything ever accepted into it (`sent`) and how
    much of that has been received; what is buffered is the difference. `fault`
    records that Go would have panicked: a send on, or a second close of, a closed
    channel. */
module Fanout {

  datatype Chan<T> = Chan(sent: seq<T>, taken: nat, closed: bool, lost: bool) {
    ghost predicate Valid() { taken <= |sent| }
  }

  datatype Table<T> = Table(subs: set<nat>, chans: map<nat, Chan<T>>, fault: bool) {
    ghost predicate Valid() {
      && subs <= chans.Keys
      && forall k :: k in chans ==> chans[k].Valid()
    }

    /** The discipline that keeps Go from panicking: registered means open. */
    ghost predicate Sound() {
      && Valid()
      && !fault
      && (forall k :: k in subs ==> !chans[k].closed)
      && (forall k :: k in chans && k !in subs ==> chans[k].closed)
    }
  }

  function Empty<T>(): Table<T> { Table({}, map[], false) }

  /** select { case ch <- v: default: } */
  function TrySend<T>(c: Chan<T>, cap: nat, v: T): Chan<T> {
    if c.closed then c
    else if |c.sent| - c.taken < cap then c.(sent := c.sent + [v])
    else c.(lost := true)
  }

  ghost function Broadcast<T>(t: Table<T>, cap: nat, v: T): (r: Table<T>)
    requires t.subs <= t.chans.Keys
  {
    t.(chans := map k | k in t.chans ::
         if k in t.subs then TrySend(t.chans[k], cap, v) else t.chans[k],
       fault := t.fault || exists k :: k in t.subs && t.chans[k].closed)
  }

  function Register<T>(t: Table<T>, id: nat): Table<T> {
    t.(subs := t.subs + {id}, chans := t.chans[id := Chan([], 0, false, false)])
  }

  /** A subscriber that arrives after the producer finished gets a closed channel. */
  function RegisterClosed<T>(t: Table<T>, id: nat): Table<T> {
    t.(chans := t.chans[id := Chan([], 0, true, false)])
  }

  /** The cancel function: only a still-registered channel is closed. */
  function Cancel<T>(t: Table<T>, id: nat): Table<T>
    requires t.subs <= t.chans.Keys
  {
    if id in t.subs then
      Table(t.subs - {id}, t.chans[id := t.chans[id].(closed := true)],
            t.fault || t.chans[id].closed)
    else t
  }

  ghost function CloseAll<T>(t: Table<T>): (r: Table<T>)
    requires t.subs <= t.chans.Keys
  {
    Table({}, map k | k in t.chans ::
            if k in t.subs then t.chans[k].(closed := true) else t.chans[k],
          t.fault || exists k :: k in t.subs && t.chans[k].closed)
  }

  function Receive<T>(t: Table<T>, id: nat): Table<T>
    requires id in t.chans && t.chans[id].taken < |t.chans[id].sent|
  {
    t.(chans := t.chans[id := t.chans[id].(taken := t.chans[id].taken + 1)])
  }

  /** The `for ch := range subs` send loop, in whatever order Go visits the set. */
  method SendToAll<T>(t: Table<T>, cap: nat, v: T) returns (r: Table<T>)
    requires t.subs <= t.chans.Keys
    ensures r == Broadcast(t, cap, v)
  {
    var todo, chans, fault := t.subs, t.chans, t.fault;
    while todo != {}
      invariant todo <= t.subs
      invariant chans.Keys == t.chans.Keys
      invariant forall k :: k in chans ==>
        chans[k] == if k in t.subs - todo then TrySend(t.chans[k], cap, v) else t.chans[k]
      invariant fault <==> t.fault || exists k :: k in t.subs - todo && t.chans[k].closed
      decreases |todo|
    {
      var k :| k in todo;
      fault := fault || chans[k].closed;
      chans := chans[k := TrySend(chans[k], cap, v)];
      todo := todo - {k};
    }
    r := Table(t.subs, chans, fault);
  }

  /** The exit loop: close every registered channel and unregister it. */
  method CloseEach<T>(t: Table<T>) returns (r: Table<T>)
    requires t.subs <= t.chans.Keys
    ensures r == CloseAll(t)
  {
    var subs, chans, fault := t.subs, t.chans, t.fault;
    while subs != {}
      invariant subs <= t.subs
      invariant chans.Keys == t.chans.Keys
      invariant forall k :: k in chans ==>
        chans[k] == if k in t.subs - subs then t.chans[k].(closed := true) else t.chans[k]
      invariant fault <==> t.fault || exists k :: k in t.subs - subs && t.chans[k].closed
      decreases |subs|
    {
      var k :| k in subs;
      fault := fault || chans[k].closed;
      chans := chans[k := chans[k].(closed := true)];
      subs := subs - {k};
    }
    r := Table({}, chans, fault);
  }

  // Every operation keeps the discipline, so no send or close ever panics.

  lemma BroadcastSound<T>(t: Table<T>, cap: nat, v: T)
    requires t.Sound()
    ensures Broadcast(t, cap, v).Sound() && Broadcast(t, cap, v).chans.Keys == t.chans.Keys
  {
  }

  lemma CloseAllSound<T>(t: Table<T>)
    requires t.Sound()
    ensures CloseAll(t).Sound() && CloseAll(t).chans.Keys == t.chans.Keys
  {
  }

  lemma LocalSound<T>(t: Table<T>, id: nat)
    requires t.Sound()
    ensures id !in t.chans ==> Register(t, id).Sound() && RegisterClosed(t, id).Sound()
    ensures Cancel(t, id).Sound()
    ensures id in t.chans && t.chans[id].taken < |t.chans[id].sent| ==> Receive(t, id).Sound()
  {
  }
}
