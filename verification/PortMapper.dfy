/** The coordinator's port mapper (cmd/sr/portmap.go): which host listeners serve which
    container port, and the relay listeners of each worker. Workers and listeners are
    numbers; a forward's closer is named by the listener it closes. */
module PortMapper {
  import opened Sequences
  import opened PortKey

  datatype Forward = Forward(closers: seq<nat>, hostPort: int)

  /** The published forwards, and how often each closer has been called. */
  datatype Forwards = Forwards(fwds: map<nat, map<int, Forward>>, ran: multiset<nat>) {
    predicate Has(k: Key) { k.worker in fwds && k.port in fwds[k.worker] }

    function At(k: Key): Forward
      requires Has(k)
    {
      fwds[k.worker][k.port]
    }
  }

  function Put(f: Forwards, k: Key, fwd: Forward): Forwards {
    var ports := if k.worker in f.fwds then f.fwds[k.worker] else map[];
    f.(fwds := f.fwds[k.worker := ports[k.port := fwd]])
  }

  function Published(f: Forwards, k: Key, ln: nat, hostPort: int): Forwards {
    Put(f, k, Forward([ln], hostPort))
  }

  /** bindTailnet's locked region: a late listener joins a mapping that still exists. */
  function Attached(f: Forwards, k: Key, ln: nat): Forwards {
    if f.Has(k) then Put(f, k, f.At(k).(closers := f.At(k).closers + [ln])) else f
  }

  function Unmapped(f: Forwards, k: Key): Forwards {
    if f.Has(k) then
      Forwards(f.fwds[k.worker := f.fwds[k.worker] - {k.port}], f.ran + multiset(f.At(k).closers))
    else f
  }

  /** Every closer of the given ports, each as often as it is listed. */
  ghost function AllClosers(m: map<int, Forward>, ports: set<int>): multiset<nat>
    requires ports <= m.Keys
  {
    if ports == {} then multiset{}
    else var p := Pick(ports); multiset(m[p].closers) + AllClosers(m, ports - {p})
  }

  lemma {:induction false} AllClosersTake(m: map<int, Forward>, ports: set<int>, p: int)
    requires ports <= m.Keys && p in ports
    ensures AllClosers(m, ports) == multiset(m[p].closers) + AllClosers(m, ports - {p})
    decreases |ports|
  {
    var q := Pick(ports);
    if q != p {
      AllClosersTake(m, ports - {q}, p);
      AllClosersTake(m, ports - {p}, q);
      assert ports - {q} - {p} == ports - {p} - {q};
    }
  }

  ghost function WorkerUnmapped(f: Forwards, worker: nat): Forwards {
    if worker in f.fwds then
      Forwards(f.fwds - {worker}, f.ran + AllClosers(f.fwds[worker], f.fwds[worker].Keys))
    else f
  }

  datatype Kind = Agent | Cmd

  /** Relay listeners, worker to listener, and those CloseWorker has closed. */
  datatype Relays = Relays(agents: map<nat, nat>, cmds: map<nat, nat>, closed: set<nat>) {
    function Of(kind: Kind): map<nat, nat> { if kind == Agent then agents else cmds }

    function With(kind: Kind, m: map<nat, nat>): Relays {
      if kind == Agent then this.(agents := m) else this.(cmds := m)
    }
  }

  /** Publishing a relay listener: the first one wins. */
  function RelayPublished(r: Relays, kind: Kind, worker: nat, ln: nat): Relays {
    if worker in r.Of(kind) then r else r.With(kind, r.Of(kind)[worker := ln])
  }

  function RelayForgotten(r: Relays, kind: Kind, worker: nat, ln: nat): Relays {
    if worker in r.Of(kind) && r.Of(kind)[worker] == ln
    then r.With(kind, r.Of(kind) - {worker}) else r
  }

  function RelayClosed(r: Relays, kind: Kind, worker: nat): Relays {
    if worker in r.Of(kind)
    then r.With(kind, r.Of(kind) - {worker}).(closed := r.closed + {r.Of(kind)[worker]}) else r
  }

  class PortMapper {
    var fwds: map<nat, map<int, Forward>>
    var agents: map<nat, nat>
    var cmds: map<nat, nat>
    var clients: set<nat>
    ghost var ran: multiset<nat>
    ghost var closed: set<nat>

    ghost function Fwds(): Forwards reads this { Forwards(fwds, ran) }

    ghost function Rels(): Relays reads this { Relays(agents, cmds, closed) }

    constructor ()
      ensures Fwds() == Forwards(map[], multiset{}) && Rels() == Relays(map[], map[], {})
    {
      fwds, agents, cmds, clients, ran, closed := map[], map[], map[], {}, multiset{}, {};
    }

    /** Map's first locked region: is the port mapped already? */
    method Mapped(k: Key) returns (hostPort: Option<int>)
      ensures hostPort == if Fwds().Has(k) then Some(Fwds().At(k).hostPort) else None
    {
      if k.worker in fwds && k.port in fwds[k.worker] {
        return Some(fwds[k.worker][k.port].hostPort);
      }
      return None;
    }

    /** Map's second locked region, once the device has bound `ln`. */
    method Publish(k: Key, ln: nat, hostPort: int)
      modifies this`fwds
      ensures Fwds() == Published(old(Fwds()), k, ln, hostPort) && Rels() == old(Rels())
    {
      if k.worker !in fwds {
        fwds := fwds[k.worker := map[]];
      }
      fwds := fwds[k.worker := fwds[k.worker][k.port := Forward([ln], hostPort)]];
    }

    method AttachTailnet(k: Key, ln: nat) returns (attached: bool)
      modifies this`fwds
      ensures attached == old(Fwds()).Has(k)
      ensures Fwds() == Attached(old(Fwds()), k, ln) && Rels() == old(Rels())
    {
      attached := k.worker in fwds && k.port in fwds[k.worker];
      if attached {
        var f := fwds[k.worker][k.port];
        fwds := fwds[k.worker := fwds[k.worker][k.port := f.(closers := f.closers + [ln])]];
      }
    }

    method RunClosers(closers: seq<nat>)
      modifies this`ran
      ensures ran == old(ran) + multiset(closers)
    {
      for i := 0 to |closers|
        invariant ran == old(ran) + multiset(closers[..i])
      {
        assert closers[..i + 1] == closers[..i] + [closers[i]];
        ran := ran + multiset{closers[i]};
      }
      assert closers[..|closers|] == closers;
    }

    method Unmap(k: Key)
      modifies this`fwds, this`ran
      ensures Fwds() == Unmapped(old(Fwds()), k) && Rels() == old(Rels())
    {
      if k.worker in fwds && k.port in fwds[k.worker] {
        RunClosers(fwds[k.worker][k.port].closers);
        fwds := fwds[k.worker := fwds[k.worker] - {k.port}];
      }
    }

    /** unmapPorts, and the forwards part of CloseWorker. */
    method UnmapPorts(worker: nat)
      modifies this`fwds, this`ran
      ensures Fwds() == WorkerUnmapped(old(Fwds()), worker)
      ensures Rels() == old(Rels())
    {
      if worker in fwds {
        var m := fwds[worker];
        var todo := m.Keys;
        while todo != {}
          invariant todo <= m.Keys
          invariant fwds == old(fwds) && Rels() == old(Rels()) && clients == old(clients)
          invariant ran + AllClosers(m, todo) == old(ran) + AllClosers(m, m.Keys)
          decreases |todo|
        {
          var p :| p in todo;
          AllClosersTake(m, todo, p);
          RunClosers(m[p].closers);
          todo := todo - {p};
        }
        fwds := fwds - {worker};
      }
    }

    /** The last locked region of ForwardAgent and of ForwardCmd. */
    method PublishRelay(kind: Kind, worker: nat, ln: nat) returns (lost: bool)
      modifies this`agents, this`cmds
      ensures lost == (worker in old(Rels()).Of(kind))
      ensures Rels() == RelayPublished(old(Rels()), kind, worker, ln) && Fwds() == old(Fwds())
    {
      match kind
      case Agent =>
        lost := worker in agents;
        if !lost {
          agents := agents[worker := ln];
        }
      case Cmd =>
        lost := worker in cmds;
        if !lost {
          cmds := cmds[worker := ln];
        }
    }

    method Forget(kind: Kind, worker: nat, ln: nat)
      modifies this`agents, this`cmds
      ensures Rels() == RelayForgotten(old(Rels()), kind, worker, ln) && Fwds() == old(Fwds())
    {
      match kind
      case Agent =>
        if worker in agents && agents[worker] == ln {
          agents := agents - {worker};
        }
      case Cmd =>
        if worker in cmds && cmds[worker] == ln {
          cmds := cmds - {worker};
        }
    }

    method CloseWorker(worker: nat)
      modifies this
      ensures Fwds() == WorkerUnmapped(old(Fwds()), worker)
      ensures Rels() == RelayClosed(RelayClosed(old(Rels()), Agent, worker), Cmd, worker)
      ensures clients == old(clients) - {worker}
    {
      UnmapPorts(worker);
      if worker in agents {
        closed := closed + {agents[worker]};
        agents := agents - {worker};
      }
      if worker in cmds {
        closed := closed + {cmds[worker]};
        cmds := cmds - {worker};
      }
      clients := clients - {worker};
    }
  }
}
