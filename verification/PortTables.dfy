/** The port mapper's two views agree: the forwards with their closers (PortMapper) and the
    ports with the slots they hold (PortWiring) change in step. */
module PortTables {
  import opened PortKey
  import opened PortMapper
  import W = PortWiring

  /** Both file the same ports, with the same host ports. */
  ghost predicate Same(f: Forwards, n: W.Net) {
    forall k :: (f.Has(k) <==> k in n.fwds) && (f.Has(k) ==> f.At(k).hostPort == n.fwds[k].port)
  }

  lemma SamePublished(f: Forwards, n: W.Net, k: Key, ln: nat, host: int)
    requires Same(f, n)
    ensures Same(Published(f, k, ln, host), W.Opened(n, k, host))
  {
  }

  lemma SameAttached(f: Forwards, n: W.Net, k: Key, ln: nat)
    requires Same(f, n)
    ensures Same(Attached(f, k, ln), n)
  {
  }

  lemma SameUnmapped(f: Forwards, n: W.Net, k: Key)
    requires Same(f, n)
    ensures Same(Unmapped(f, k), W.Unwired(n, k))
  {
  }

  lemma SameWorkerUnmapped(f: Forwards, n: W.Net, w: nat)
    requires Same(f, n)
    ensures Same(WorkerUnmapped(f, w), W.Wiped(n, w))
  {
    hide AllClosers;
  }

  /** What changes the table of forwards, one locked region each. */
  datatype Op =
    | Publish(k: Key, ln: nat, host: int)
    | Attach(k: Key, ln: nat)
    | Unmap(k: Key)
    | UnmapPorts(w: nat)

  ghost function Forwarded(f: Forwards, ops: seq<Op>): Forwards {
    if ops == [] then f
    else
      var g := Forwarded(f, ops[..|ops| - 1]);
      match ops[|ops| - 1]
      case Publish(k, ln, host) => Published(g, k, ln, host)
      case Attach(k, ln) => Attached(g, k, ln)
      case Unmap(k) => Unmapped(g, k)
      case UnmapPorts(w) => WorkerUnmapped(g, w)
  }

  function Netted(n: W.Net, ops: seq<Op>): W.Net {
    if ops == [] then n
    else
      var g := Netted(n, ops[..|ops| - 1]);
      match ops[|ops| - 1]
      case Publish(k, _, host) => W.Opened(g, k, host)
      case Attach(_, _) => g
      case Unmap(k) => W.Unwired(g, k)
      case UnmapPorts(w) => W.Wiped(g, w)
  }

  /** Through any sequence of publications, late tailnet listeners, Unmaps and unmapPorts the
      two views stay the same. */
  lemma {:induction false} ViewsAgree(f: Forwards, n: W.Net, ops: seq<Op>)
    requires Same(f, n)
    ensures Same(Forwarded(f, ops), Netted(n, ops))
    decreases |ops|
  {
    hide Same;
    if ops != [] {
      var before := ops[..|ops| - 1];
      var g, m := Forwarded(f, before), Netted(n, before);
      ViewsAgree(f, n, before);
      match ops[|ops| - 1] {
        case Publish(k, ln, host) => SamePublished(g, m, k, ln, host);
        case Attach(k, ln) => SameAttached(g, m, k, ln);
        case Unmap(k) => SameUnmapped(g, m, k);
        case UnmapPorts(w) => SameWorkerUnmapped(g, m, w);
      }
    }
  }
}
