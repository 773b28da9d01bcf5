/** All runs of port mapping across device switches (cmd/sr/coordinator.go, portmap.go).
    One action is one locked region, one read of the active device, one bind on it, or one
    read of the store: a Map is a check, a device read, a bind and a publication, with
    anything in between. Devices switch at any moment; the rebind loops of several switches,
    any number of autoMaps of one worker, the map and unmap handlers, workers going down and
    other programs taking and releasing ports all interleave. The one thing ruled out is two
    Maps of the same port under way at once. */
module SwitchMachine {
  import opened Sequences
  import opened PortKey
  import opened PortWiring

  /** Who called Map: an autoMap, or a handler of the map request. */
  datatype Source = ByAuto(a: nat) | ByAsk(i: nat)

  /** Where a Map stands: before its check, before it reads the active device, calling the
      device it read, or holding a listener it has not published. */
  datatype Phase = Started | Checked | Calling(d: nat) | Holding(s: Slot)

  datatype Call = Call(id: nat, key: Key, to: int, src: Source, phase: Phase) {
    predicate PastRead() { phase.Calling? || phase.Holding? }

    function Device(): nat
      requires PastRead()
    {
      if phase.Calling? then phase.d else phase.s.device
    }
  }

  /** An autoMap: what is left of its plan, None until it has read the store; `second` says
      that the wished host port has failed. History: `seen` is what the store held, `first`
      the Map of the plan's head that failed. */
  datatype Auto = Auto(
    worker: nat, plan: Option<seq<Req>>, second: bool, seen: map<int, int>, first: Option<Call>)

  datatype AskPc = Fresh | Cleared | Mapping | Noting(host: int) | Ended

  datatype Ask = Ask(key: Key, local: int, pc: AskPc)

  /** History. `failed`: ports whose last `apply` since they were last unmapped got no host
      port. `cut`: for a port, the Map of it that was past its device read when the port was
      last unmapped. `answers`: what a device answered a Map. `moved`, `since`: workers
      unmapped, and workers listed for a rebind, since the last switch. */
  datatype Past = Past(
    failed: set<Key>, cut: map<Key, Call>, answers: map<nat, Option<Slot>>,
    moved: set<nat>, since: set<nat>)

  /** `now` is the Map under way for a port, `owed` what each rebind loop has left,
      `drops` the unmap handlers that have not reached the store, `count` the Maps begun. */
  datatype World = World(
    net: Net, stored: Remembered, declared: map<nat, seq<PortMap>>,
    autos: map<nat, Auto>, now: map<Key, Call>, asks: map<nat, Ask>, drops: map<nat, Key>,
    owed: map<nat, set<nat>>, count: nat, past: Past)

  /** What a Map under way does next; `any` is the system's answer to a
      request for any free port. */
  datatype Move = Check | ReadDevice | Bind(any: Option<int>) | Publish

  datatype Act =
    | SetDevice(d: nat)
    | ListRunning(r: nat, running: set<nat>)
    | Rebind(r: nat, w: nat, a: nat)
    | Arm(w: nat, a: nat)
    | ReadStore(a: nat, plan: seq<Req>)
    | EndAuto(a: nat)
    | StartAuto(a: nat)
    | StartAsk(i: nat, k: Key, local: int)
    | AskUnmaps(i: nat)
    | AskMaps(i: nat)
    | AskNotes(i: nat)
    | Drop(i: nat, k: Key)
    | Forget(i: nat)
    | Close(w: nat)
    | ForgetWorker(w: nat)
    | Step(k: Key, m: Move)
    | Occupy(s: Slot)
    | Vacate(s: Slot)

  function Declared(v: World, w: nat): seq<PortMap> { if w in v.declared then v.declared[w] else [] }

  ghost predicate Known(v: World, k: Key) {
    Declares(Declared(v, k.worker), k.port) || k.port in Stored(v.stored, k.worker)
  }

  ghost predicate Init(v: World) {
    && v.net.fwds == map[] && v.net.dev == LOCAL
    && v.autos == map[] && v.now == map[] && v.asks == map[] && v.drops == map[] && v.owed == map[]
    && v.past == Past({}, map[], map[], {}, {})
  }

  /** The caller of a Map is there to take its result. */
  predicate Waits(v: World, k: Key) {
    k in v.now &&
    var c := v.now[k];
    c.key == k &&
    match c.src
    case ByAuto(a) =>
      && a in v.autos && v.autos[a].worker == k.worker
      && v.autos[a].plan.Some? && v.autos[a].plan.value != []
      && k.port == v.autos[a].plan.value[0].from
      && c.to == Tried(v.autos[a])
    case ByAsk(i) => i in v.asks && v.asks[i].pc == Mapping && v.asks[i].key == k
  }

  /** The host port an autoMap tries next for the head of its plan. */
  function Tried(q: Auto): int {
    if q.plan.None? || q.plan.value == [] || q.second then 0 else q.plan.value[0].host
  }

  predicate Held(v: World, s: Slot) {
    exists k :: k in v.now && v.now[k].phase == Holding(s)
  }

  predicate Ready(c: Call, m: Move) {
    match m
    case Check => c.phase == Started
    case ReadDevice => c.phase == Checked
    case Bind(_) => c.phase.Calling?
    case Publish => c.phase.Holding?
  }

  ghost predicate Enabled(v: World, a: Act) {
    match a
    case SetDevice(_) => true
    case ListRunning(r, _) => r !in v.owed
    case Rebind(r, w, n) => r in v.owed && w in v.owed[r] && n !in v.autos
    case Arm(_, n) => n !in v.autos
    case ReadStore(n, plan) =>
      n in v.autos && v.autos[n].plan.None? &&
      IsPlan(Declared(v, v.autos[n].worker), Stored(v.stored, v.autos[n].worker), plan)
    case EndAuto(n) => n in v.autos && v.autos[n].plan == Some([])
    case StartAuto(n) =>
      && n in v.autos && v.autos[n].plan.Some? && v.autos[n].plan.value != []
      && Key(v.autos[n].worker, v.autos[n].plan.value[0].from) !in v.now
    case StartAsk(i, _, _) => i !in v.asks
    case AskUnmaps(i) => i in v.asks && v.asks[i].pc == Fresh
    case AskMaps(i) => i in v.asks && v.asks[i].pc == Cleared && v.asks[i].key !in v.now
    case AskNotes(i) => i in v.asks && v.asks[i].pc.Noting?
    case Drop(i, _) => i !in v.drops
    case Forget(i) => i in v.drops
    case Close(_) => true
    case ForgetWorker(_) => true
    case Step(k, m) => Waits(v, k) && Ready(v.now[k], m)
    case Occupy(s) => s !in v.net.busy
    case Vacate(s) => s !in v.net.fwds.Values && !Held(v, s)
  }

  /** A Map of the port has read a device and not published. */
  predicate InFlight(v: World, k: Key) { k in v.now && v.now[k].PastRead() }

  function CutAt(v: World, k: Key): map<Key, Call> {
    if InFlight(v, k) then v.past.cut[k := v.now[k]] else v.past.cut - {k}
  }

  function CutAll(v: World, w: nat): map<Key, Call> {
    map k | k in v.past.cut.Keys + v.now.Keys && (if k.worker == w then InFlight(v, k) else k in v.past.cut)
      :: if k.worker == w then v.now[k] else v.past.cut[k]
  }

  /** Unmap. */
  function UnmapOne(v: World, k: Key): World {
    v.(net := Unwired(v.net, k), past := v.past.(failed := v.past.failed - {k}, cut := CutAt(v, k)))
  }

  /** unmapPorts, and the forwards part of CloseWorker. */
  function UnmapAll(v: World, w: nat): World {
    v.(net := Wiped(v.net, w),
       past := v.past.(failed := (set k | k in v.past.failed && k.worker != w),
                       cut := CutAll(v, w), moved := v.past.moved + {w}))
  }

  /** autoMap after a Map it called: try any host port next, or go on to the next port. */
  function Proceeded(q: Auto, c: Call, r: Option<int>): Auto {
    if r.None? && c.to != 0 then q.(second := true, first := Some(c))
    else if q.plan.Some? && q.plan.value != [] then
      q.(plan := Some(q.plan.value[1..]), second := false, first := None)
    else q
  }

  function AutosAfter(autos: map<nat, Auto>, c: Call, r: Option<int>): map<nat, Auto> {
    if c.src.ByAuto? && c.src.a in autos then autos[c.src.a := Proceeded(autos[c.src.a], c, r)]
    else autos
  }

  function AsksAfter(asks: map<nat, Ask>, c: Call, r: Option<int>): map<nat, Ask> {
    if c.src.ByAsk? && c.src.i in asks
    then asks[c.src.i := asks[c.src.i].(pc := if r.Some? then Noting(r.value) else Ended)]
    else asks
  }

  /** An `apply` gets no host port when its Map that asks for any fails: after the one that
      asked for the wished port, and with a warning, or as the only one, and silently, where
      the wished port is 0. */
  function FailedAfter(failed: set<Key>, c: Call, r: Option<int>): set<Key> {
    if r.Some? then failed - {c.key}
    else if c.src.ByAuto? && c.to == 0 then failed + {c.key}
    else failed
  }

  /** A Map returns to its caller. */
  function Returned(v: World, k: Key, r: Option<int>): World
    requires k in v.now
  {
    var c := v.now[k];
    v.(now := v.now - {k}, autos := AutosAfter(v.autos, c, r), asks := AsksAfter(v.asks, c, r),
       past := v.past.(failed := FailedAfter(v.past.failed, c, r)))
  }

  function Turned(v: World, k: Key, p: Phase): World
    requires k in v.now
  {
    v.(now := v.now[k := v.now[k].(phase := p)])
  }

  function Checks(v: World, k: Key): World
    requires k in v.now
  {
    if !Mappable(k.port) then Returned(v, k, None)
    else if k in v.net.fwds then Returned(v, k, Some(v.net.fwds[k].port))
    else Turned(v, k, Checked)
  }

  /** What the device that was read answers. */
  function Answer(v: World, c: Call, any: Option<int>): Option<int>
    requires c.phase.Calling?
  {
    Bound(v.net.(dev := c.phase.d), Want(c.key, c.to), c.to != 0, any)
  }

  function Answered(v: World, k: Key, r: Option<Slot>): World
    requires k in v.now
  {
    v.(past := v.past.(answers := v.past.answers[v.now[k].id := r]))
  }

  function Taken(v: World, k: Key, s: Slot): World
    requires k in v.now
  {
    Turned(Answered(v, k, Some(s)), k, Holding(s)).(net := v.net.(busy := v.net.busy + {s}))
  }

  function Binds(v: World, k: Key, any: Option<int>): World
    requires k in v.now && v.now[k].phase.Calling?
  {
    var c := v.now[k];
    var r := Answer(v, c, any);
    if r.None? then Returned(Answered(v, k, None), k, None)
    else Taken(v, k, Slot(c.phase.d, r.value))
  }

  function Publishes(v: World, k: Key): World
    requires k in v.now && v.now[k].phase.Holding?
  {
    var c := v.now[k];
    Returned(v.(net := v.net.(fwds := v.net.fwds[k := c.phase.s])), k, Some(c.phase.s.port))
  }

  function Moves(v: World, k: Key, m: Move): World
    requires k in v.now && Ready(v.now[k], m)
  {
    match m
    case Check => Checks(v, k)
    case ReadDevice => Turned(v, k, Calling(v.net.dev))
    case Bind(any) => Binds(v, k, any)
    case Publish => Publishes(v, k)
  }

  function Begun(v: World, k: Key, to: int, src: Source): World {
    v.(now := v.now[k := Call(v.count, k, to, src, Started)], count := v.count + 1)
  }

  function Apply(v: World, a: Act): World
    requires Enabled(v, a)
  {
    match a
    case SetDevice(d) => v.(net := v.net.(dev := d), past := v.past.(moved := {}, since := {}))
    case ListRunning(r, running) =>
      v.(owed := v.owed[r := running], past := v.past.(since := v.past.since + running))
    case Rebind(r, w, n) =>
      UnmapAll(v, w).(owed := v.owed[r := v.owed[r] - {w}],
                      autos := v.autos[n := Auto(w, None, false, map[], None)])
    case Arm(w, n) => v.(autos := v.autos[n := Auto(w, None, false, map[], None)])
    case ReadStore(n, plan) =>
      var w := v.autos[n].worker;
      v.(autos := v.autos[n := Auto(w, Some(plan), false, Stored(v.stored, w), None)])
    case EndAuto(n) => v.(autos := v.autos - {n})
    case StartAuto(n) =>
      var q := v.autos[n];
      Begun(v, Key(q.worker, q.plan.value[0].from), Tried(q), ByAuto(n))
    case StartAsk(i, k, local) => v.(asks := v.asks[i := Ask(k, local, Fresh)])
    case AskUnmaps(i) =>
      UnmapOne(v, v.asks[i].key).(asks := v.asks[i := v.asks[i].(pc := Cleared)])
    case AskMaps(i) =>
      Begun(v, v.asks[i].key, v.asks[i].local, ByAsk(i))
        .(asks := v.asks[i := v.asks[i].(pc := Mapping)])
    case AskNotes(i) =>
      v.(stored := Noted(v.stored, v.asks[i].key, v.asks[i].pc.host),
         asks := v.asks[i := v.asks[i].(pc := Ended)])
    case Drop(i, k) => UnmapOne(v, k).(drops := v.drops[i := k])
    case Forget(i) => v.(stored := Forgotten(v.stored, v.drops[i]), drops := v.drops - {i})
    case Close(w) => UnmapAll(v, w)
    case ForgetWorker(w) => v.(stored := v.stored - {w})
    case Step(k, m) => Moves(v, k, m)
    case Occupy(s) => v.(net := v.net.(busy := v.net.busy + {s}))
    case Vacate(s) => v.(net := v.net.(busy := v.net.busy - {s}))
  }

  /** The port is still ahead of an autoMap that has read the store. */
  ghost predicate Awaits(v: World, a: nat, k: Key) {
    a in v.autos && v.autos[a].worker == k.worker && v.autos[a].plan.Some? &&
    exists i :: 0 <= i < |v.autos[a].plan.value| && v.autos[a].plan.value[i].from == k.port
  }

  ghost predicate Awaited(v: World, k: Key) { exists a :: Awaits(v, a, k) }

  /** Mapped, refused, or still ahead of an autoMap. */
  ghost predicate Wanted(v: World, k: Key) { k in v.net.fwds || k in v.past.failed || Awaited(v, k) }

  ghost predicate Leads(v: World, a: Act, w: World) { Enabled(v, a) && w == Apply(v, a) }

  /** `w` can be reached from `v` by these steps. With `orderly`, requests to unmap ports of a
      worker, and its being forgotten, keep clear of its autoMaps and of its other requests. */
  ghost predicate Run(v: World, acts: seq<Act>, orderly: bool, w: World) {
    if acts == [] then w == v
    else
      var before, last := acts[..|acts| - 1], acts[|acts| - 1];
      exists u :: Run(v, before, orderly, u) && Leads(u, last, w) && (orderly ==> Orderly(u, last))
  }

  ghost predicate RunsTo(o: World, acts: seq<Act>, orderly: bool, v: World) {
    Init(o) && Run(o, acts, orderly, v)
  }

  ghost predicate AutosOf(v: World, w: nat) { exists a :: a in v.autos && v.autos[a].worker == w }

  ghost predicate AsksOf(v: World, w: nat) {
    exists i :: i in v.asks && v.asks[i].pc != Ended && v.asks[i].key.worker == w
  }

  ghost predicate DropsOf(v: World, w: nat) { exists i :: i in v.drops && v.drops[i].worker == w }

  ghost predicate Orderly(v: World, a: Act) {
    match a
    case StartAsk(_, k, _) => !DropsOf(v, k.worker)
    case Drop(_, k) => !AutosOf(v, k.worker) && !AsksOf(v, k.worker) && !DropsOf(v, k.worker)
    case ForgetWorker(w) =>
      && !AutosOf(v, w) && !AsksOf(v, w) && !DropsOf(v, w)
      && forall k :: k in v.net.fwds ==> k.worker != w
    case Arm(w, _) => !DropsOf(v, w)
    case Rebind(_, w, _) => !DropsOf(v, w)
    case _ => true
  }

  // ----------------------------------------------------------------- invariant

  /** A Map under way. One that has read another device than the active one although its
      worker was unmapped since the switch was caught past its read by that. */
  ghost predicate NowOk(v: World, x: Key) {
    x in v.now ==>
      var c := v.now[x];
      && c.key == x && c.id < v.count
      && (c.phase != Started ==> Mappable(x.port) && x !in v.net.fwds)
      && (!c.phase.Holding? ==> c.id !in v.past.answers)
      && (c.phase.Holding? ==>
            && c.phase.s in v.net.busy
            && c.id in v.past.answers && v.past.answers[c.id] == Some(c.phase.s))
      && (x.worker in v.past.moved && c.PastRead() && c.Device() != v.net.dev ==> Caught(v, c))
  }

  ghost predicate Caught(v: World, c: Call) {
    c.PastRead() && c.key in v.past.cut && v.past.cut[c.key].id == c.id &&
    v.past.cut[c.key].PastRead() && v.past.cut[c.key].Device() == c.Device()
  }

  /** A mapped port. One that is not on the active device although its worker was unmapped
      since the switch was published by a Map caught past its device read. */
  ghost predicate FwdOk(v: World, k: Key) {
    k in v.net.fwds ==>
      && Mappable(k.port) && k !in v.past.failed
      && v.net.fwds[k] in v.net.busy
      && (k.worker in v.past.moved && v.net.fwds[k].device != v.net.dev ==> Crossed(v, k))
  }

  ghost predicate Crossed(v: World, k: Key) {
    k in v.past.cut && v.past.cut[k].id in v.past.answers &&
    k in v.net.fwds && v.past.answers[v.past.cut[k].id] == Some(v.net.fwds[k])
  }

  /** A Map caught past its device read is still at it, was refused, or has its listener
      published. */
  ghost predicate CutOk(v: World, k: Key) {
    k in v.past.cut ==>
      var c := v.past.cut[k];
      && c.key == k && c.PastRead() && c.id < v.count
      && (c.id !in v.past.answers ==>
            k in v.now && v.now[k].id == c.id && v.now[k].phase == Calling(c.Device()))
      && (c.id in v.past.answers && v.past.answers[c.id].Some? ==>
            var s := v.past.answers[c.id].value;
            && s.device == c.Device()
            && ((k in v.net.fwds && v.net.fwds[k] == s) || (k in v.now && v.now[k].phase == Holding(s))))
  }

  ghost predicate CutApart(v: World, k: Key, x: Key) {
    k in v.past.cut && x in v.now && v.past.cut[k].id == v.now[x].id ==> k == x
  }

  ghost predicate NowApart(v: World, x: Key, y: Key) {
    x in v.now && y in v.now && x != y ==>
      && v.now[x].id != v.now[y].id
      && (v.now[x].phase.Holding? && v.now[y].phase.Holding? ==> v.now[x].phase.s != v.now[y].phase.s)
  }

  ghost predicate FwdApart(v: World, j: Key, k: Key) {
    j in v.net.fwds && k in v.net.fwds && j != k ==> v.net.fwds[j] != v.net.fwds[k]
  }

  ghost predicate HeldApart(v: World, x: Key, k: Key) {
    x in v.now && v.now[x].phase.Holding? && k in v.net.fwds ==> v.now[x].phase.s != v.net.fwds[k]
  }

  ghost predicate AnswerOk(v: World, id: nat) { id in v.past.answers ==> id < v.count }

  /** What an autoMap asks for is what the store it read remembers, or else a declaration;
      when it asks for any host port, its Map that asked for that one had failed. */
  ghost predicate AutoOk(v: World, a: nat) {
    a in v.autos ==>
      var q := v.autos[a];
      && (q.second ==> q.plan.Some? && q.plan.value != [] && q.plan.value[0].host != 0 && FirstFailed(v, q))
      && (q.plan.Some? ==> forall i :: 0 <= i < |q.plan.value| ==>
            Wished(Declared(v, q.worker), q.seen, q.plan.value[i]))
  }

  /** A device was asked by this Map, and refused. */
  predicate Refused(c: Call, v: World) {
    c.phase.Calling? && c.id in v.past.answers && v.past.answers[c.id] == None
  }

  /** The Map of the plan's head that asked for the wished port: the port cannot be mapped at
      all, or the device that the Map read refused. */
  ghost predicate FirstFailed(v: World, q: Auto) {
    q.first.Some? && q.plan.Some? && q.plan.value != [] &&
    var c, r := q.first.value, q.plan.value[0];
    && c.key == Key(q.worker, r.from) && c.to == r.host
    && (Mappable(r.from) ==> Refused(c, v))
  }

  ghost predicate Wished(declared: seq<PortMap>, seen: map<int, int>, r: Req) {
    if r.from in seen then r.host == seen[r.from]
    else exists p :: p in declared && p.from == r.from && Wish(p, map[]) == r.host
  }

  ghost predicate SinceOk(v: World, w: nat) {
    w in v.past.since ==> w in v.past.moved || exists r :: r in v.owed && w in v.owed[r]
  }
}
