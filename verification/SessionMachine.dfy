/** Every interleaving of one session's goroutines: the reader (ring write, then
    fan-out, one chunk after another, then exit), the monitor's ticker, resizes, and
    any number of terminal clients that subscribe, take the scrollback snapshot,
    receive and cancel (internal/session/session.go, internal/server/server.go).
    One action is one critical section. */
module SessionMachine {
  import opened Sequences
  import opened Fanout
  import opened Ring
  import opened Session

  /** Where the reader goroutine stands. */
  datatype Reader = Reading | Wrote(chunk: seq<byte>) | Failed | Returned

  /** History of the things that may or may not count as activity. */
  datatype Stamp = ResizeAt(at: int) | OutputAt(at: int)

  /** A terminal client: how many chunks had been fanned out when it subscribed, how
      many when it cancelled, and what its one Snapshot call returned when `upto`
      chunks were in the ring. */
  datatype Snap = Snap(upto: nat, bytes: seq<byte>)
  datatype Client = Client(joined: nat, left: Option<nat>, snap: Option<Snap>)

  /** `out`, `fanned`, `log`, `tickLog` and `lastTick` are history: no action's guard
      or effect on the other fields reads them. */
  datatype World = World(
    kind: Kind, created: int,
    f: Fields, ring: seq<byte>, reader: Reader, now: int,
    clients: map<nat, Client>,
    out: seq<seq<byte>>, fanned: nat,
    log: seq<Stamp>, tickLog: nat, lastTick: Option<int>)

  datatype Act =
    | Read(chunk: seq<byte>)
    | ReadError
    | FanOut(at: int, alsoFailed: bool)
    | Exit(code: int)
    | Tick(first: int, second: int)
    | Resize(at: int)
    | Subscribe(id: nat)
    | TakeSnapshot(id: nat)
    | ReceiveOne(id: nat)
    | CancelSub(id: nat)

  ghost predicate Init(w: World) {
    && w.created > 0
    && w.now == w.created
    && w.f == Created(w.created)
    && w.ring == [] && w.reader == Reading && w.clients == map[]
    && w.out == [] && w.fanned == 0 && w.log == [] && w.tickLog == 0 && w.lastTick == None
  }

  ghost predicate Enabled(w: World, a: Act) {
    match a
    case Read(chunk) => w.reader == Reading && 0 < |chunk| <= READ_BUFFER
    case ReadError => w.reader == Reading
    case FanOut(at, _) => w.reader.Wrote? && w.now <= at
    case Exit(_) => w.reader == Failed
    case Tick(first, second) => w.f.life != Exited && w.now <= first <= second
    case Resize(at) => w.now <= at
    case Subscribe(id) => id !in w.f.table.chans
    case TakeSnapshot(id) => id in w.clients && w.clients[id].snap == None
    case ReceiveOne(id) => id in w.f.table.chans && w.f.table.chans[id].taken < |w.f.table.chans[id].sent|
    case CancelSub(id) => id in w.clients
  }

  ghost function Apply(w: World, a: Act): World
    requires w.f.table.Valid() && Enabled(w, a)
  {
    match a
    case Read(chunk) =>
      w.(ring := Written(w.ring, chunk, RING_BYTES), out := w.out + [chunk], reader := Wrote(chunk))
    case ReadError => w.(reader := Failed)
    case FanOut(at, alsoFailed) =>
      w.(f := Delivered(w.f, at, w.reader.chunk), now := at, fanned := w.fanned + 1,
         log := w.log + [OutputAt(at)], reader := if alsoFailed then Failed else Reading)
    case Exit(code) => w.(f := ExitedWith(w.f, code), reader := Returned)
    case Tick(first, second) =>
      w.(f := Ticked(w.kind, w.f, first, second).0, now := second,
         tickLog := |w.log|, lastTick := Some(first))
    case Resize(at) => w.(f := Resized(w.f, at), now := at, log := w.log + [ResizeAt(at)])
    case Subscribe(id) =>
      w.(f := Subscribed(w.f, id), clients := w.clients[id := Client(w.fanned, None, None)])
    case TakeSnapshot(id) =>
      w.(clients := w.clients[id := w.clients[id].(snap := Some(Snap(|w.out|, w.ring)))])
    case ReceiveOne(id) => w.(f := w.f.(table := Receive(w.f.table, id)))
    case CancelSub(id) =>
      w.(f := Unsubscribed(w.f, id),
         clients := if id in w.f.table.subs
                    then w.clients[id := w.clients[id].(left := Some(w.fanned))] else w.clients)
  }
}
