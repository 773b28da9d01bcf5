/** How container ports get host ports on the active device: the mapping call and its
    binds, the store of remembered mappings, and the automatic mapping of a worker's
    declared and remembered ports (cmd/sr/portmap.go, portstore.go, coordinator.go).

    Devices and workers are numbers. Where the operating system is asked for any free
    port, its answer is a parameter; an answer that names an unusable port counts as a
    refusal. */
module PortWiring {
  import opened Sequences
  import opened PortKey

  const RESERVED: set<int> := {5432, 8081, 8082, 7000, 22}

  datatype Slot = Slot(device: nat, port: int)

  /** The active device, the forwards with the slot each one is bound to, the slots that
      cannot be bound because somebody holds them, and who grants binding at all. */
  datatype Net = Net(dev: nat, fwds: map<Key, Slot>, busy: set<Slot>, grants: set<nat>)

  datatype PortMap = PortMap(from: int, to: int)

  /** A call of autoMap's `apply`. */
  datatype Req = Req(from: int, host: int)

  /** What the system answers when the first or the second Map asks for any port. */
  datatype Os = Os(first: Option<int>, second: Option<int>)

  predicate Mappable(port: int) { port !in RESERVED && 1 <= port <= 65535 }

  predicate Granted(n: Net) { n.dev == LOCAL || n.dev in n.grants }

  predicate Listenable(n: Net, p: int) { 1 <= p <= 65535 && Slot(n.dev, p) !in n.busy }

  function AnyPort(n: Net, os: Option<int>): Option<int> {
    if os.Some? && Listenable(n, os.value) then os else None
  }

  /** The port number that reaches net.Listen: a remote bind carries it as a uint32. */
  function Sought(n: Net, want: int): int {
    if n.dev == LOCAL then want else want % 0x1_0000_0000
  }

  function Listen(n: Net, p: int, os: Option<int>): Option<int> {
    if p == 0 then AnyPort(n, os) else if Listenable(n, p) then Some(p) else None
  }

  /** Device.Forward: the port that ends up bound. */
  function Bound(n: Net, want: int, strict: bool, os: Option<int>): Option<int> {
    if !Granted(n) then None
    else
      var got := Listen(n, Sought(n, want), os);
      if got.Some? || strict then got else AnyPort(n, os)
  }

  function Want(k: Key, to: int): int { if to == 0 then k.port else to }

  function Opened(n: Net, k: Key, host: int): Net {
    n.(fwds := n.fwds[k := Slot(n.dev, host)], busy := n.busy + {Slot(n.dev, host)})
  }

  /** PortMapper.Map's answer, and the state it leaves. */
  function MapResult(n: Net, k: Key, to: int, os: Option<int>): Option<int> {
    if !Mappable(k.port) then None
    else if k in n.fwds then Some(n.fwds[k].port)
    else Bound(n, Want(k, to), to != 0, os)
  }

  function Mapped(n: Net, k: Key, to: int, os: Option<int>): Net {
    if Mappable(k.port) && k !in n.fwds && MapResult(n, k, to, os).Some?
    then Opened(n, k, MapResult(n, k, to, os).value) else n
  }

  predicate Fails(n: Net, k: Key, host: int, os: Os) {
    MapResult(n, k, host, os.first).None? &&
    (host == 0 || MapResult(n, k, 0, os.second).None?)
  }

  /** autoMap's `apply`: the wanted host port, else any. */
  function Applied(n: Net, k: Key, host: int, os: Os): Net {
    if MapResult(n, k, host, os.first).None? && host != 0 then Mapped(n, k, 0, os.second)
    else Mapped(n, k, host, os.first)
  }

  function AppliedAll(n: Net, w: nat, plan: seq<Req>, os: seq<Os>): Net
    requires |os| == |plan|
  {
    if plan == [] then n
    else
      var i := |plan| - 1;
      Applied(AppliedAll(n, w, plan[..i], os[..i]), Key(w, plan[i].from), plan[i].host, os[i])
  }

  function Unwired(n: Net, k: Key): Net {
    if k in n.fwds then n.(fwds := n.fwds - {k}, busy := n.busy - {n.fwds[k]}) else n
  }

  /** unmapPorts. */
  function Wiped(n: Net, w: nat): Net {
    n.(fwds := map k | k in n.fwds && k.worker != w :: n.fwds[k],
       busy := n.busy - set k | k in n.fwds && k.worker == w :: n.fwds[k])
  }

  // ---------------------------------------------------------------- port store

  type Remembered = map<nat, map<int, int>>

  function Stored(m: Remembered, w: nat): map<int, int> { if w in m then m[w] else map[] }

  function Noted(m: Remembered, k: Key, host: int): Remembered {
    m[k.worker := Stored(m, k.worker)[k.port := host]]
  }

  function Forgotten(m: Remembered, k: Key): Remembered {
    if k.worker !in m then m
    else if m[k.worker] - {k.port} == map[] then m - {k.worker}
    else m[k.worker := m[k.worker] - {k.port}]
  }

  /** Each call changes what is remembered of its own key and of nothing else. */
  lemma StoreReads(m: Remembered, k: Key, host: int, w: nat)
    ensures Stored(Noted(m, k, host), w) ==
            if w == k.worker then Stored(m, w)[k.port := host] else Stored(m, w)
    ensures Stored(Forgotten(m, k), w) ==
            if w == k.worker then Stored(m, w) - {k.port} else Stored(m, w)
    ensures (forall v :: v in m ==> m[v] != map[]) ==>
            forall v :: v in Forgotten(m, k) ==> Forgotten(m, k)[v] != map[]
  {
    var none: map<int, int> := map[];
    assert none - {k.port} == none;
  }

  class PortStore {
    var m: Remembered

    constructor (saved: Remembered)
      ensures m == saved
    {
      m := saved;
    }

    method Get(w: nat) returns (r: map<int, int>)
      ensures r == Stored(m, w)
    {
      r := map[];
      if w in m {
        var todo := m[w].Keys;
        while todo != {}
          invariant todo <= m[w].Keys
          invariant r == map p | p in m[w] && p !in todo :: m[w][p]
          decreases |todo|
        {
          HasInteger(todo);
          var p :| p in todo;
          r := r[p := m[w][p]];
          todo := todo - {p};
        }
      }
    }

    method Set(k: Key, host: int)
      modifies this
      ensures m == Noted(old(m), k, host)
    {
      if k.worker !in m {
        m := m[k.worker := map[]];
      }
      m := m[k.worker := m[k.worker][k.port := host]];
    }

    method Del(k: Key)
      modifies this
      ensures m == Forgotten(old(m), k)
    {
      if k.worker in m {
        m := m[k.worker := m[k.worker] - {k.port}];
        if m[k.worker] == map[] {
          m := m - {k.worker};
        }
      }
    }

    method DelWorker(w: nat)
      modifies this
      ensures m == old(m) - {w}
    {
      if w in m {
        m := m - {w};
      }
    }
  }

  // ------------------------------------------------------------------ autoMap

  /** The host port a declaration asks for, a remembered one winning. */
  function Wish(p: PortMap, stored: map<int, int>): int {
    if p.from in stored then stored[p.from] else if p.to == 0 then p.from else p.to
  }

  ghost predicate Declares(declared: seq<PortMap>, from: int) {
    exists i :: 0 <= i < |declared| && declared[i].from == from
  }

  /** The calls autoMap makes: the declarations in order, then every remembered port that
      is not declared, once each, in whatever order Go visits the map. */
  ghost predicate IsPlan(declared: seq<PortMap>, stored: map<int, int>, plan: seq<Req>) {
    && |declared| <= |plan|
    && (forall i :: 0 <= i < |declared| ==>
          plan[i] == Req(declared[i].from, Wish(declared[i], stored)))
    && (forall i :: |declared| <= i < |plan| ==>
          && plan[i].from in stored && plan[i].host == stored[plan[i].from]
          && !Declares(declared, plan[i].from))
    && (forall i, j :: |declared| <= i < j < |plan| ==> plan[i].from != plan[j].from)
    && (forall from :: from in stored && !Declares(declared, from) ==> Req(from, stored[from]) in plan)
  }

  /** Exactly the declared and the remembered ports are asked for, and every request for
      a remembered port asks for the remembered host port. */
  lemma PlanCovers(declared: seq<PortMap>, stored: map<int, int>, plan: seq<Req>, from: int)
    requires IsPlan(declared, stored, plan)
    ensures (Declares(declared, from) || from in stored) <==>
            exists i :: 0 <= i < |plan| && plan[i].from == from
    ensures from in stored ==>
            forall i :: 0 <= i < |plan| && plan[i].from == from ==> plan[i].host == stored[from]
  {
    if Declares(declared, from) {
      var i :| 0 <= i < |declared| && declared[i].from == from;
      assert plan[i].from == from;
    } else if from in stored {
      assert Req(from, stored[from]) in plan;
    }
  }

  class Wiring {
    var dev: nat
    var fwds: map<Key, Slot>
    var busy: set<Slot>
    const grants: set<nat>
    const ports: PortStore

    ghost function View(): Net reads this { Net(dev, fwds, busy, grants) }

    constructor (grants: set<nat>, busy: set<Slot>, ports: PortStore)
      ensures View() == Net(LOCAL, map[], busy, grants) && this.ports == ports
    {
      dev, fwds := LOCAL, map[];
      this.busy, this.grants, this.ports := busy, grants, ports;
    }

    method TryListen(p: int, os: Option<int>) returns (r: Option<int>)
      modifies this`busy
      ensures r == Listen(old(View()), p, os)
      ensures busy == if r.Some? then old(busy) + {Slot(dev, r.value)} else old(busy)
    {
      r := None;
      if p == 0 {
        if os.Some? && 1 <= os.value <= 65535 && Slot(dev, os.value) !in busy {
          r := os;
        }
      } else if 1 <= p <= 65535 && Slot(dev, p) !in busy {
        r := Some(p);
      }
      if r.Some? {
        busy := busy + {Slot(dev, r.value)};
      }
    }

    method Forward(want: int, strict: bool, os: Option<int>) returns (r: Option<int>)
      modifies this`busy
      ensures r == Bound(old(View()), want, strict, os)
      ensures busy == if r.Some? then old(busy) + {Slot(dev, r.value)} else old(busy)
    {
      if dev != LOCAL && dev !in grants {
        return None;
      }
      r := TryListen(if dev == LOCAL then want else want % 0x1_0000_0000, os);
      if r.None? {
        if strict {
          return None;
        }
        r := TryListen(0, os);
      }
    }

    method Map(k: Key, to: int, os: Option<int>) returns (r: Option<int>)
      modifies this`busy, this`fwds
      ensures r == MapResult(old(View()), k, to, os) && View() == Mapped(old(View()), k, to, os)
    {
      if k.port in RESERVED || k.port < 1 || k.port > 65535 {
        return None;
      }
      if k in fwds {
        return Some(fwds[k].port);
      }
      r := Forward(if to == 0 then k.port else to, to != 0, os);
      if r.Some? {
        fwds := fwds[k := Slot(dev, r.value)];
      }
    }

    method Apply(k: Key, host: int, os: Os) returns (warned: bool)
      modifies this`busy, this`fwds
      ensures View() == Applied(old(View()), k, host, os)
      ensures warned == (host != 0 && Fails(old(View()), k, host, os))
    {
      warned := false;
      var r := Map(k, host, os.first);
      if r.None? && host != 0 {
        r := Map(k, 0, os.second);
        warned := r.None?;
      }
    }

    method AutoMap(w: nat, declared: seq<PortMap>) returns (ghost plan: seq<Req>, ghost os: seq<Os>)
      modifies this`busy, this`fwds
      ensures IsPlan(declared, Stored(ports.m, w), plan) && |os| == |plan|
      ensures View() == AppliedAll(old(View()), w, plan, os)
    {
      hide Applied, AppliedAll, Fails;
      AppliedAllNone(View(), w);
      plan, os := [], [];
      var stored := ports.Get(w);
      var applied: set<int> := {};
      for i := 0 to |declared|
        invariant |plan| == |os| == i && View() == AppliedAll(old(View()), w, plan, os)
        invariant forall j :: 0 <= j < i ==> plan[j] == Req(declared[j].from, Wish(declared[j], stored))
        invariant applied == set j | 0 <= j < i :: declared[j].from
      {
        var p := declared[i];
        var host := p.to;
        if host == 0 {
          host := p.from;
        }
        if p.from in stored {
          host := stored[p.from];
        }
        var answer: Os := *;
        AppliedAllSnoc(old(View()), w, plan, os, Req(p.from, host), answer);
        var _ := Apply(Key(w, p.from), host, answer);
        plan, os := plan + [Req(p.from, host)], os + [answer];
        applied := applied + {p.from};
      }
      forall from ensures from in applied <==> Declares(declared, from) {
      }
      var todo := stored.Keys;
      while todo != {}
        invariant todo <= stored.Keys
        invariant |declared| <= |plan| == |os| && View() == AppliedAll(old(View()), w, plan, os)
        invariant forall j :: 0 <= j < |declared| ==>
          plan[j] == Req(declared[j].from, Wish(declared[j], stored))
        invariant forall j :: |declared| <= j < |plan| ==>
          && plan[j].from in stored && plan[j].host == stored[plan[j].from]
          && plan[j].from !in applied && plan[j].from !in todo
        invariant forall i, j :: |declared| <= i < j < |plan| ==> plan[i].from != plan[j].from
        invariant forall from :: from in stored && from !in todo && from !in applied ==>
          Req(from, stored[from]) in plan
        decreases |todo|
      {
        HasInteger(todo);
        var from :| from in todo;
        todo := todo - {from};
        if from !in applied {
          var answer: Os := *;
          AppliedAllSnoc(old(View()), w, plan, os, Req(from, stored[from]), answer);
          var _ := Apply(Key(w, from), stored[from], answer);
          plan, os := plan + [Req(from, stored[from])], os + [answer];
        }
      }
    }

    /** The closers of the forwards are run while the maps are locked. */
    method UnmapPorts(w: nat)
      modifies this`busy, this`fwds
      ensures View() == Wiped(old(View()), w)
    {
      var mine := set k | k in fwds && k.worker == w;
      var todo := mine;
      while todo != {}
        invariant todo <= mine && fwds == old(fwds)
        invariant busy == old(busy) - set k | k in mine - todo :: fwds[k]
        decreases |todo|
      {
        var k :| k in todo;
        busy := busy - {fwds[k]};
        todo := todo - {k};
      }
      fwds := map k | k in fwds && k.worker != w :: fwds[k];
      assert mine - todo == mine;
      assert forall k :: k in mine <==> k in old(fwds) && k.worker == w;
    }

    method Unmap(k: Key)
      modifies this`busy, this`fwds
      ensures View() == Unwired(old(View()), k)
    {
      if k in fwds {
        busy := busy - {fwds[k]};
        fwds := fwds - {k};
      }
    }

    method HandleMap(k: Key, local: int, os: Option<int>) returns (r: Option<int>)
      modifies this`busy, this`fwds, ports
      ensures r == MapResult(Unwired(old(View()), k), k, local, os)
      ensures View() == Mapped(Unwired(old(View()), k), k, local, os)
      ensures ports.m == if r.Some? then Noted(old(ports.m), k, r.value) else old(ports.m)
    {
      Unmap(k);
      r := Map(k, local, os);
      if r.Some? {
        ports.Set(k, r.value);
      }
    }

    method HandleUnmap(k: Key)
      modifies this`busy, this`fwds, ports
      ensures View() == Unwired(old(View()), k) && ports.m == Forgotten(old(ports.m), k)
    {
      Unmap(k);
      ports.Del(k);
    }
  }

  lemma AppliedAllNone(n: Net, w: nat)
    ensures AppliedAll(n, w, [], []) == n
  {
  }

  lemma AppliedAllSnoc(n: Net, w: nat, plan: seq<Req>, os: seq<Os>, r: Req, o: Os)
    requires |os| == |plan|
    ensures AppliedAll(n, w, plan + [r], os + [o]) ==
            Applied(AppliedAll(n, w, plan, os), Key(w, r.from), r.host, o)
  {
    assert (plan + [r])[..|plan|] == plan && (os + [o])[..|os|] == os;
  }

  // -------------------------------------------------------- what `apply` gives

  /** A new mapping gets the wished host port whenever that can be bound, else its own
      number if that can, else a free port; it goes unmapped exactly when the device does
      not grant binding, or neither number can be bound and the system refuses. (A wish
      beyond 32 bits reaches a remote device as another number, see Sought.) */
  lemma ApplyOutcome(n: Net, k: Key, host: int, os: Os)
    requires Mappable(k.port) && k !in n.fwds
    ensures Fails(n, k, host, os) <==>
      !Granted(n) ||
      (Listen(n, Sought(n, Want(k, host)), os.first).None? && !Listenable(n, k.port) &&
       AnyPort(n, if host == 0 then os.first else os.second).None?)
    ensures k in Applied(n, k, host, os).fwds <==> !Fails(n, k, host, os)
    ensures !Fails(n, k, host, os) ==>
      var s, wish := Applied(n, k, host, os).fwds[k], Sought(n, Want(k, host));
      && s.device == n.dev && s !in n.busy
      && (Listenable(n, wish) ==> s.port == wish)
      && (Listen(n, wish, os.first).None? && Listenable(n, k.port) ==> s.port == k.port)
  {
  }

  /** For every wish, bindable or not: a request fails only if the device does not grant
      binding or the system refuses, and then nothing changes. */
  lemma ApplyAccepted(n: Net, k: Key, host: int, os: Os)
    requires Mappable(k.port)
    ensures Granted(n) && AnyPort(n, os.first).Some? && AnyPort(n, os.second).Some? ==>
      !Fails(n, k, host, os)
    ensures Fails(n, k, host, os) ==> Applied(n, k, host, os) == n
    ensures !Fails(n, k, host, os) ==> k in Applied(n, k, host, os).fwds
  {
  }

  /** A port already mapped keeps the host port it has. */
  lemma MappedIsKept(n: Net, k: Key, host: int, os: Os)
    requires k in n.fwds && Mappable(k.port)
    ensures Applied(n, k, host, os) == n && !Fails(n, k, host, os)
  {
  }
}
