/** Every interleaving of one device process, all the connections it ever makes, and
    any number of Forward calls and closers on the coordinator. Requests on one
    connection travel in order, and replies answer them in order (section 4 of
    RFC 4254). The device serves requests one at a time in one goroutine, so serving
    one is one action; on the coordinator each locked region, send and receive is. */
module LinkMachine {
  import opened Sequences
  import opened DeviceLink

  /** bind-forward@sr and unbind-forward@sr. `origin` is history: the Forward call
      that sent the bind. Only the tag travels. */
  datatype Req = Bind(tag: nat, origin: nat) | Unbind(tag: nat)

  /** forward-conn@sr. `listener` is history: the listener that accepted. */
  datatype OpenMsg = OpenMsg(tag: nat, listener: nat)

  /** One connection: the coordinator's tags and what is in flight. `waiting` are the
      Forward calls owed a reply, oldest first. `owner` is history: owner[n - 1] is the
      call that got tag n. */
  datatype Link = Link(
    up: bool, tags: Tags, owner: seq<nat>,
    reqs: seq<Req>, replies: seq<bool>, waiting: seq<nat>, opens: seq<OpenMsg>)

  const FRESH_LINK := Link(true, NO_TAGS, [], [], [], [], [])

  datatype CallPc =
    | Tagged | Requested | Rejected | Failed
    | Open | Unbinding | Closed

  /** One Forward call. `made` is history: the listener its bind produced. */
  datatype Call = Call(conn: nat, tag: nat, dial: nat, pc: CallPc, made: Option<nat>)

  /** What a listener was made for, fixed when it is made. */
  datatype Listener = Listener(conn: nat, tag: nat, origin: nat)

  datatype Bridge = Bridge(listener: nat, dial: nat)

  /** `serving` says whether the device's request loop runs, `on` its connection;
      `bridges` is history. */
  datatype World = World(
    links: map<nat, Link>, calls: map<nat, Call>,
    serving: bool, on: nat, ports: Ports, made: map<nat, Listener>,
    bridges: set<Bridge>)

  datatype Act =
    | Connect(c: nat)
    | LinkDown(c: nat)
    | StartForward(id: nat, c: nat, dial: nat)
    | SendBind(id: nat)
    | SendFails(id: nat)
    | TakeReply(c: nat)
    | CloserSends(id: nat)
    | DropTag(id: nat)
    | HandleOpen(c: nat)
    | ServeBind(ok: bool, ln: nat)
    | ServeUnbind
    | HangUp
    | SendOpen(ln: nat)

  ghost predicate Init(w: World) {
    w == World(map[], map[], false, 0, Ports(map[], {}), map[], {})
  }

  /** Steps of a Forward call or its closer, of the coordinator's other goroutines, and of
      the device. */
  predicate ByCaller(a: Act) {
    a.StartForward? || a.SendBind? || a.SendFails? || a.CloserSends? || a.DropTag?
  }

  predicate ByLink(a: Act) { a.Connect? || a.LinkDown? || a.TakeReply? || a.HandleOpen? }

  predicate ByDevice(a: Act) { a.ServeBind? || a.ServeUnbind? || a.HangUp? || a.SendOpen? }

  /** The connection a Forward call lives on. */
  predicate HasLink(w: World, id: nat) { id in w.calls && w.calls[id].conn in w.links }

  predicate Requests(w: World) { w.serving && w.on in w.links && w.links[w.on].reqs != [] }

  predicate Enabled(w: World, a: Act) {
    match a
    case Connect(c) => !w.serving && c !in w.links
    case LinkDown(c) => c in w.links
    case StartForward(id, c, _) => id !in w.calls && c in w.links
    case SendBind(id) => HasLink(w, id) && w.calls[id].pc == Tagged && w.links[w.calls[id].conn].up
    case SendFails(id) =>
      HasLink(w, id) && !w.links[w.calls[id].conn].up &&
      (w.calls[id].pc == Tagged || w.calls[id].pc == Requested)
    case TakeReply(c) =>
      c in w.links && w.links[c].up && w.links[c].replies != [] &&
      w.links[c].waiting != [] && w.links[c].waiting[0] in w.calls
    case CloserSends(id) =>
      HasLink(w, id) &&
      (w.calls[id].pc == Open || w.calls[id].pc == Unbinding || w.calls[id].pc == Closed)
    case DropTag(id) => HasLink(w, id) && (w.calls[id].pc == Rejected || w.calls[id].pc == Unbinding)
    case HandleOpen(c) => c in w.links && w.links[c].opens != []
    case ServeBind(_, ln) =>
      Requests(w) && ln !in w.made &&
      w.links[w.on].reqs[0].Bind? && w.links[w.on].reqs[0].origin in w.calls
    case ServeUnbind => Requests(w) && w.links[w.on].reqs[0].Unbind?
    case HangUp => w.serving
    case SendOpen(ln) => ln in w.made && w.made[ln].conn in w.links
  }

  function SetPc(w: World, id: nat, pc: CallPc): map<nat, Call>
    requires id in w.calls
  {
    w.calls[id := w.calls[id].(pc := pc)]
  }

  function Apply(w: World, a: Act): World
    requires Enabled(w, a)
  {
    match a
    case Connect(c) => w.(links := w.links[c := FRESH_LINK], on := c, serving := true)
    case LinkDown(c) => w.(links := w.links[c := w.links[c].(up := false)])
    case StartForward(id, c, dial) =>
      var l := w.links[c];
      w.(links := w.links[c := l.(tags := Registered(l.tags, dial), owner := l.owner + [id])],
         calls := w.calls[id := Call(c, l.tags.last + 1, dial, Tagged, None)])
    case SendBind(id) =>
      var k := w.calls[id];
      var l := w.links[k.conn];
      w.(links := w.links[k.conn := l.(reqs := l.reqs + [Bind(k.tag, id)], waiting := l.waiting + [id])],
         calls := SetPc(w, id, Requested))
    case SendFails(id) => w.(calls := SetPc(w, id, Rejected))
    case TakeReply(c) =>
      var l := w.links[c];
      w.(links := w.links[c := l.(replies := l.replies[1..], waiting := l.waiting[1..])],
         calls := SetPc(w, l.waiting[0], if l.replies[0] then Open else Rejected))
    case CloserSends(id) =>
      var k := w.calls[id];
      var l := w.links[k.conn];
      w.(links := if l.up then w.links[k.conn := l.(reqs := l.reqs + [Unbind(k.tag)])] else w.links,
         calls := if k.pc == Open then SetPc(w, id, Unbinding) else w.calls)
    case DropTag(id) =>
      var k := w.calls[id];
      var l := w.links[k.conn];
      w.(links := w.links[k.conn := l.(tags := Dropped(l.tags, k.tag))],
         calls := SetPc(w, id, if k.pc == Rejected then Failed else Closed))
    case HandleOpen(c) =>
      var l := w.links[c];
      var d := Lookup(l.tags, l.opens[0].tag);
      w.(links := w.links[c := l.(opens := l.opens[1..])],
         bridges := if d.Some? then w.bridges + {Bridge(l.opens[0].listener, d.value)} else w.bridges)
    case ServeBind(ok, ln) =>
      var l := w.links[w.on];
      var r := l.reqs[0];
      var links := w.links[w.on := l.(reqs := l.reqs[1..], replies := l.replies + [ok])];
      if ok then
        w.(links := links, ports := Bound(w.ports, r.tag, ln),
           made := w.made[ln := Listener(w.on, r.tag, r.origin)],
           calls := w.calls[r.origin := w.calls[r.origin].(made := Some(ln))])
      else w.(links := links)
    case ServeUnbind =>
      var l := w.links[w.on];
      w.(links := w.links[w.on := l.(reqs := l.reqs[1..])], ports := Unbound(w.ports, l.reqs[0].tag))
    case HangUp => w.(serving := false, ports := AllShut(w.ports))
    case SendOpen(ln) =>
      var m := w.made[ln];
      var l := w.links[m.conn];
      w.(links := w.links[m.conn := l.(opens := l.opens + [OpenMsg(m.tag, ln)])])
  }
}
