/** Which device is the active one (cmd/sr/devicelink.go, coordinator.go): connections
    register under their key, take over as the active device and step down again. Each
    of those takes three locks in turn, so connections interleave between them.
    Connections and keys are numbers. */
module ActiveDevice {
  import opened Sequences
  import opened PortKey

  /** The link server's registry, the coordinator's active device and the port mapper's. */
  datatype Board = Board(devices: map<nat, nat>, dev: nat, pm: nat)

  /** The active device is the local one, or the one registered under its key. */
  predicate Agreed(b: Board, keys: map<nat, nat>) {
    b.dev == LOCAL || (b.dev in keys && keys[b.dev] in b.devices && b.devices[keys[b.dev]] == b.dev)
  }

  function Registered(b: Board, key: nat, c: nat): Board { b.(devices := b.devices[key := c]) }

  function Unregistered(b: Board, key: nat, c: nat): Board {
    if key in b.devices && b.devices[key] == c then b.(devices := b.devices - {key}) else b
  }

  function Cleared(b: Board, c: nat): Board { if b.dev == c then b.(dev := LOCAL) else b }

  class Switchboard {
    var devices: map<nat, nat>
    var dev: nat
    var pm: nat
    const keys: map<nat, nat>

    ghost function View(): Board reads this { Board(devices, dev, pm) }

    constructor (keys: map<nat, nat>)
      ensures View() == Board(map[], LOCAL, LOCAL) && this.keys == keys
    {
      devices, dev, pm := map[], LOCAL, LOCAL;
      this.keys := keys;
    }

    /** Undisturbed, the three steps leave the caller active, registered and bound to,
        whatever was the case before. */
    method Activate(c: nat)
      requires c in keys
      modifies this
      ensures View() == Board(old(devices)[keys[c] := c], c, c) && Agreed(View(), keys)
    {
      devices := devices[keys[c] := c];
      dev := c;
      pm := dev;
    }

    /** Undisturbed, a device that is no longer the active one takes nothing away. */
    method Deactivate(c: nat)
      requires c in keys && c != LOCAL
      modifies this
      ensures old(Agreed(View(), keys)) ==> Agreed(View(), keys)
      ensures View() == Cleared(Unregistered(old(View()), keys[c], c), c).(pm := dev)
      ensures old(dev) != c ==> dev == old(dev)
      ensures dev != c
    {
      if keys[c] in devices && devices[keys[c]] == c {
        devices := devices - {keys[c]};
      }
      if dev == c {
        dev := LOCAL;
      }
      pm := dev;
    }
  }

  // -------------------------------------------------------------- fine machine

  /** Where a connection's hello handler stands: about to switch the coordinator, or about to
      tell the port mapper. */
  datatype Up = Idle | Joining | Switching

  /** Where its end stands, which another goroutine handles. */
  datatype Down = Alive | Leaving | Clearing(cur: nat) | Gone

  datatype World = World(keys: map<nat, nat>, up: map<nat, Up>, down: map<nat, Down>, board: Board)

  datatype Act =
    | Register(c: nat)
    | Switch(c: nat)
    | Publish(c: nat)
    | Unregister(c: nat)
    | Clear(c: nat)
    | Republish(c: nat)

  ghost predicate Init(v: World) {
    && v.board == Board(map[], LOCAL, LOCAL)
    && v.up.Keys == v.keys.Keys && v.down.Keys == v.keys.Keys && LOCAL !in v.keys
    && (forall c :: c in v.up ==> v.up[c] == Idle)
    && (forall c :: c in v.down ==> v.down[c] == Alive)
  }

  predicate Enabled(v: World, a: Act) {
    a.c in v.up && a.c in v.down && a.c in v.keys &&
    match a
    case Register(c) => v.up[c] == Idle
    case Switch(c) => v.up[c] == Joining
    case Publish(c) => v.up[c] == Switching
    case Unregister(c) => v.down[c] == Alive
    case Clear(c) => v.down[c] == Leaving
    case Republish(c) => v.down[c].Clearing?
  }

  function Apply(v: World, a: Act): World
    requires Enabled(v, a)
  {
    var b := v.board;
    match a
    case Register(c) => v.(board := Registered(b, v.keys[c], c), up := v.up[c := Joining])
    case Switch(c) => v.(board := b.(dev := c), up := v.up[c := Switching])
    case Publish(c) => v.(board := b.(pm := c), up := v.up[c := Idle])
    case Unregister(c) => v.(board := Unregistered(b, v.keys[c], c), down := v.down[c := Leaving])
    case Clear(c) =>
      v.(board := Cleared(b, c), down := v.down[c := Clearing(Cleared(b, c).dev)])
    case Republish(c) => v.(board := b.(pm := v.down[c].cur), down := v.down[c := Gone])
  }

  predicate MidJoin(v: World, c: nat) { c in v.up && c in v.keys && v.up[c] == Joining }

  predicate MidSwitch(v: World, c: nat) {
    (c in v.up && v.up[c] == Switching) || (c in v.down && v.down[c].Clearing?)
  }

  /** No hello or end is being handled. */
  predicate AtRest(v: World) {
    (forall c :: c in v.up ==> v.up[c].Idle?) &&
    (forall c :: c in v.down ==> v.down[c].Alive? || v.down[c].Gone?)
  }

  /** Rules a run may keep: two connections with one key do not register at once; no switch
      of the coordinator begins before the last one has told the port mapper; a connection's
      hellos are handled before its end. */
  datatype Rules = Rules(joins: bool, switches: bool, ordered: bool)

  ghost predicate Keeps(v: World, a: Act, rules: Rules) {
    && (rules.joins && a.Register? && a.c in v.keys ==>
          forall c :: MidJoin(v, c) && c != a.c ==> v.keys[c] != v.keys[a.c])
    && (rules.switches && (a.Switch? || a.Clear?) ==> forall c :: !MidSwitch(v, c))
    && (rules.ordered && a.Register? && a.c in v.down ==> v.down[a.c].Alive?)
    && (rules.ordered && a.Unregister? && a.c in v.up ==> v.up[a.c].Idle?)
  }

  ghost predicate Leads(v: World, a: Act, rules: Rules, w: World) {
    Enabled(v, a) && Keeps(v, a, rules) && w == Apply(v, a)
  }

  /** Any interleaving that keeps the rules. */
  ghost predicate Reached(o: World, acts: seq<Act>, rules: Rules, w: World) {
    if acts == [] then Init(o) && w == o
    else
      var before, a := acts[..|acts| - 1], acts[|acts| - 1];
      exists v :: Reached(o, before, rules, v) && Leads(v, a, rules, w)
  }

  // ---------------------------------------------------- what a run leaves behind

  /** The device that the switches of a run leave active. */
  function Active(acts: seq<Act>): nat {
    if acts == [] then LOCAL
    else
      var before, a := Active(acts[..|acts| - 1]), acts[|acts| - 1];
      match a
      case Switch(c) => c
      case Clear(c) => if before == c then LOCAL else before
      case _ => before
  }

  /** The run up to the end of `c` giving up the coordinator. */
  function UpToClear(acts: seq<Act>, c: nat): seq<Act> {
    if acts == [] then []
    else if acts[|acts| - 1] == Clear(c) then acts
    else UpToClear(acts[..|acts| - 1], c)
  }

  /** What the port mapper was told last: a hello tells it its own device, an end what was
      active right after it gave up the coordinator. */
  function Told(acts: seq<Act>): nat {
    if acts == [] then LOCAL
    else
      var before, a := acts[..|acts| - 1], acts[|acts| - 1];
      match a
      case Publish(c) => c
      case Republish(c) => Active(UpToClear(before, c))
      case _ => Told(before)
  }

  /** Who holds a key: the last to register under it, until it unregisters. */
  function Holder(acts: seq<Act>, keys: map<nat, nat>, key: nat): Option<nat> {
    if acts == [] then None
    else
      var before, a := Holder(acts[..|acts| - 1], keys, key), acts[|acts| - 1];
      if a.c !in keys || keys[a.c] != key then before
      else if a.Register? then Some(a.c)
      else if a.Unregister? && before == Some(a.c) then None
      else before
  }

  ghost predicate Traced(v: World, acts: seq<Act>) {
    && v.board.dev == Active(acts)
    && v.board.pm == Told(acts)
    && (forall key :: Holder(acts, v.keys, key) ==
          if key in v.board.devices then Some(v.board.devices[key]) else None)
    && (forall c :: c in v.down && v.down[c].Clearing? ==> v.down[c].cur == Active(UpToClear(acts, c)))
  }

  lemma TraceStep(v: World, acts: seq<Act>, a: Act)
    requires Traced(v, acts) && Enabled(v, a)
    ensures Traced(Apply(v, a), acts + [a])
  {
    var v' := Apply(v, a);
    assert (acts + [a])[..|acts|] == acts;
    forall key ensures Holder(acts + [a], v.keys, key) ==
      if key in v'.board.devices then Some(v'.board.devices[key]) else None
    {
      assert Holder(acts, v.keys, key) == if key in v.board.devices then Some(v.board.devices[key]) else None;
    }
  }

  /** In every run, whatever overlaps: which device is active, which one the port mapper was
      told, and who holds which key. So ports are bound on the active device if and only if
      the last to tell the port mapper told it what the switches left active; and the active
      device is the local one or the one under its key if and only if it is the local one,
      or was the last to register under that key and has not unregistered. */
  lemma {:induction false} BoardIsExact(o: World, acts: seq<Act>, rules: Rules, w: World)
    requires Reached(o, acts, rules, w)
    ensures w.keys == o.keys && Traced(w, acts)
    ensures w.board.pm == w.board.dev <==> Told(acts) == Active(acts)
    ensures Agreed(w.board, w.keys) <==>
      var d := Active(acts);
      d == LOCAL || (d in w.keys && Holder(acts, w.keys, w.keys[d]) == Some(d))
    decreases |acts|
  {
    if acts != [] {
      hide Enabled, Apply, Keeps, Traced, Init, Agreed;
      var before, a := acts[..|acts| - 1], acts[|acts| - 1];
      var v :| Reached(o, before, rules, v) && Leads(v, a, rules, w);
      BoardIsExact(o, before, rules, v);
      TraceStep(v, before, a);
      KeysStay(v, a);
      assert acts == before + [a];
    }
    TracedMeans(w, acts);
  }

  lemma KeysStay(v: World, a: Act)
    requires Enabled(v, a)
    ensures Apply(v, a).keys == v.keys
  {
  }

  lemma TracedMeans(w: World, acts: seq<Act>)
    requires Traced(w, acts)
    ensures w.board.pm == w.board.dev <==> Told(acts) == Active(acts)
    ensures Agreed(w.board, w.keys) <==>
      var d := Active(acts);
      d == LOCAL || (d in w.keys && Holder(acts, w.keys, w.keys[d]) == Some(d))
  {
  }

  // -------------------------------------------------------- rules that suffice

  /** The key of the active device is changing hands. */
  ghost predicate InTransition(v: World) {
    || (v.board.dev in v.down && v.down[v.board.dev] == Leaving)
    || (v.board.dev in v.keys && exists c :: MidJoin(v, c) && v.keys[c] == v.keys[v.board.dev])
  }

  ghost predicate Shape(v: World) {
    && v.up.Keys == v.keys.Keys && v.down.Keys == v.keys.Keys && LOCAL !in v.keys
    && (v.board.dev != LOCAL ==> v.board.dev in v.keys)
  }

  ghost predicate JoinOk(v: World) {
    && (Agreed(v.board, v.keys) || InTransition(v))
    && (forall c :: MidJoin(v, c) ==>
          v.keys[c] in v.board.devices && v.board.devices[v.keys[c]] == c)
  }

  ghost predicate SwitchOne(v: World, c: nat) {
    MidSwitch(v, c) ==>
      if c in v.up && v.up[c] == Switching
      then v.board.dev == c && !(c in v.down && v.down[c].Clearing?)
      else v.board.dev == v.down[c].cur
  }

  ghost predicate SwitchOk(v: World) {
    && (v.board.pm == v.board.dev || exists c :: MidSwitch(v, c))
    && (forall c, d :: MidSwitch(v, c) && MidSwitch(v, d) ==> c == d)
    && (forall c :: SwitchOne(v, c))
  }

  ghost predicate Inv(v: World, rules: Rules) {
    && Shape(v)
    && (rules.joins && rules.ordered ==> JoinOk(v))
    && (rules.switches ==> SwitchOk(v))
  }

  lemma SwitchOneStep(v: World, a: Act, c: nat)
    requires Enabled(v, a) && SwitchOne(v, c) && SwitchOne(v, a.c)
    requires MidSwitch(v, c) && MidSwitch(v, a.c) ==> c == a.c
    requires a.Switch? || a.Clear? ==> !MidSwitch(v, c) && !MidSwitch(v, a.c)
    ensures SwitchOne(Apply(v, a), c)
    ensures MidSwitch(Apply(v, a), c) <==>
      (MidSwitch(v, c) && !((a.Publish? || a.Republish?) && c == a.c)) || ((a.Switch? || a.Clear?) && c == a.c)
    ensures a.Publish? || a.Republish? ==> Apply(v, a).board.pm == Apply(v, a).board.dev
    ensures a.Register? || a.Unregister? ==>
      Apply(v, a).board.pm == v.board.pm && Apply(v, a).board.dev == v.board.dev
  {
  }

  lemma SwitchStep(v: World, a: Act)
    requires SwitchOk(v) && Enabled(v, a)
    requires a.Switch? || a.Clear? ==> forall c :: !MidSwitch(v, c)
    ensures SwitchOk(Apply(v, a))
  {
    var v' := Apply(v, a);
    hide SwitchOne, MidSwitch, Apply, Enabled;
    forall c ensures SwitchOne(v', c) && (MidSwitch(v', c) <==>
        (MidSwitch(v, c) && !((a.Publish? || a.Republish?) && c == a.c)) || ((a.Switch? || a.Clear?) && c == a.c))
    {
      SwitchOneStep(v, a, c);
    }
    SwitchOneStep(v, a, a.c);
    if a.Switch? || a.Clear? {
      assert MidSwitch(v', a.c);
    }
  }

  lemma JoinStep(v: World, a: Act)
    requires Shape(v) && JoinOk(v) && Enabled(v, a) && Keeps(v, a, Rules(true, false, true))
    ensures JoinOk(Apply(v, a))
  {
    var v' := Apply(v, a);
    forall c | MidJoin(v', c) && c != a.c ensures MidJoin(v, c) {
    }
    if a.Register? {
      assert MidJoin(v', a.c);
    } else if !Agreed(v.board, v.keys) && v.board.dev != a.c && !a.Switch? {
      if !(v.board.dev in v.down && v.down[v.board.dev] == Leaving) {
        var c :| MidJoin(v, c) && v.keys[c] == v.keys[v.board.dev];
        assert MidJoin(v', c);
      }
    }
  }

  lemma InvStep(v: World, a: Act, rules: Rules)
    requires Inv(v, rules) && Enabled(v, a) && Keeps(v, a, rules)
    ensures Inv(Apply(v, a), rules)
  {
    if rules.joins && rules.ordered {
      JoinStep(v, a);
    }
    if rules.switches {
      SwitchStep(v, a);
    }
    hide JoinOk, SwitchOk;
  }

  lemma {:induction false} ReachedInv(o: World, acts: seq<Act>, rules: Rules, w: World)
    requires Reached(o, acts, rules, w)
    ensures Inv(w, rules)
    decreases |acts|
  {
    if acts != [] {
      hide Inv, Enabled, Apply, Keeps;
      var before, a := acts[..|acts| - 1], acts[|acts| - 1];
      var v :| Reached(o, before, rules, v) && Leads(v, a, rules, w);
      ReachedInv(o, before, rules, v);
      InvStep(v, a, rules);
    }
  }

  /** If connections with one key register one at a time, and each connection's hellos are
      handled before its end, the active device is always the local one or the one registered
      under its key, except while that key changes hands. */
  lemma {:induction false} ActiveIsRegistered(o: World, acts: seq<Act>, rules: Rules, w: World)
    requires Reached(o, acts, rules, w) && rules.joins && rules.ordered
    ensures Agreed(w.board, w.keys) || InTransition(w)
    ensures AtRest(w) ==> Agreed(w.board, w.keys)
  {
    hide Reached;
    ReachedInv(o, acts, rules, w);
  }

  /** If switches do not overlap, ports are bound on the active device whenever no
      connection is between switching it and telling the port mapper. */
  lemma {:induction false} PortMapperFollows(o: World, acts: seq<Act>, rules: Rules, w: World)
    requires Reached(o, acts, rules, w) && rules.switches
    requires forall c :: !MidSwitch(w, c)
    ensures w.board.pm == w.board.dev
  {
    hide Reached;
    ReachedInv(o, acts, rules, w);
  }

  /** Step by step, from a state in which both hold: exactly when a step keeps the active
      device registered, and exactly when it keeps ports bound on the active device. */
  lemma KeptExactly(v: World, a: Act)
    requires Enabled(v, a) && LOCAL !in v.keys
    ensures Agreed(v.board, v.keys) ==>
      (Agreed(Apply(v, a).board, v.keys) <==>
         match a
         case Register(c) => v.board.dev == LOCAL || v.board.dev == c || v.keys[v.board.dev] != v.keys[c]
         case Switch(c) => v.keys[c] in v.board.devices && v.board.devices[v.keys[c]] == c
         case Unregister(c) => v.board.dev != c
         case _ => true)
    ensures v.board.pm == v.board.dev ==>
      (Apply(v, a).board.pm == Apply(v, a).board.dev <==>
         match a
         case Switch(c) => v.board.dev == c
         case Clear(c) => v.board.dev != c
         case Publish(c) => v.board.dev == c
         case Republish(c) => v.board.dev == v.down[c].cur
         case _ => true)
  {
  }

  // ----------------------------------------------------------------- bad runs

  lemma Start(o: World, rules: Rules)
    requires Init(o)
    ensures Reached(o, [], rules, o)
  {
  }

  lemma Extend(o: World, acts: seq<Act>, v: World, a: Act, w: World, rules: Rules)
    requires Reached(o, acts, rules, v) && Leads(v, a, rules, w)
    ensures Reached(o, acts + [a], rules, w)
  {
    assert (acts + [a])[..|acts|] == acts;
  }

  /** Two connections, 1 and 2, with the given keys. */
  function Two(j: nat, k: nat, p: Up, q: Up, b: Board): World {
    World(map[1 := j, 2 := k], map[1 := p, 2 := q], map[1 := Alive, 2 := Alive], b)
  }

  /** Two connections that register at once, before either has taken over. */
  lemma BothJoining(j: nat, k: nat, rules: Rules)
    returns (o: World, acts: seq<Act>, w: World)
    requires rules.joins ==> j != k
    ensures Reached(o, acts, rules, w)
    ensures w == Two(j, k, Joining, Joining, Board(map[j := 1][k := 2], LOCAL, LOCAL))
  {
    hide Reached;
    o := Two(j, k, Idle, Idle, Board(map[], LOCAL, LOCAL));
    var v := Two(j, k, Joining, Idle, Board(map[j := 1], LOCAL, LOCAL));
    w := Two(j, k, Joining, Joining, Board(map[j := 1][k := 2], LOCAL, LOCAL));
    Start(o, rules);
    Extend(o, [], o, Register(1), v, rules);
    acts := [] + [Register(1)];
    Extend(o, acts, v, Register(2), w, rules);
    acts := acts + [Register(2)];
  }

  /** Two connections with one key that register at once: the first is left active under
      a key registered to the second, with everything at rest. */
  lemma OverlappingHellosDisagree() returns (o: World, acts: seq<Act>, w: World)
    ensures Reached(o, acts, Rules(false, true, true), w) && AtRest(w)
    ensures !Agreed(w.board, w.keys)
  {
    hide Reached;
    var rules, d := Rules(false, true, true), map[8 := 1][8 := 2];
    var v2, v4, v5;
    o, acts, v2 := BothJoining(8, 8, rules);
    acts, v4 := SecondTakesOver(o, acts, v2, 8, rules, d);
    v5 := Two(8, 8, Switching, Idle, Board(d, 1, 2));
    Extend(o, acts, v4, Switch(1), v5, rules);
    acts := acts + [Switch(1)];
    w := Two(8, 8, Idle, Idle, Board(d, 1, 1));
    Extend(o, acts, v5, Publish(1), w, rules);
    acts := acts + [Publish(1)];
  }

  /** The second of two connections that have registered switches undisturbed. */
  lemma SecondTakesOver(o: World, before: seq<Act>, v: World, j: nat, rules: Rules, d: map<nat, nat>)
    returns (acts: seq<Act>, w: World)
    requires Reached(o, before, rules, v) && v == Two(j, 8, Joining, Joining, Board(d, LOCAL, LOCAL))
    ensures Reached(o, acts, rules, w) && w == Two(j, 8, Joining, Idle, Board(d, 2, 2))
  {
    hide Reached;
    var u := Two(j, 8, Joining, Switching, Board(d, 2, LOCAL));
    Extend(o, before, v, Switch(2), u, rules);
    acts := before + [Switch(2)];
    w := Two(j, 8, Joining, Idle, Board(d, 2, 2));
    Extend(o, acts, u, Publish(2), w, rules);
    acts := acts + [Publish(2)];
  }

  /** Two switches that overlap: ports stay bound on a device that is not the active one. */
  lemma OverlappingSwitchesDisagree() returns (o: World, acts: seq<Act>, w: World)
    ensures Reached(o, acts, Rules(true, false, true), w) && AtRest(w)
    ensures w.board.pm != w.board.dev
  {
    hide Reached;
    var rules, d := Rules(true, false, true), map[7 := 1][8 := 2];
    var v2, v4, v5;
    o, acts, v2 := BothJoining(7, 8, rules);
    acts, v4 := BothSwitch(o, acts, v2, rules, d);
    v5 := Two(7, 8, Switching, Idle, Board(d, 2, 2));
    Extend(o, acts, v4, Publish(2), v5, rules);
    acts := acts + [Publish(2)];
    w := Two(7, 8, Idle, Idle, Board(d, 2, 1));
    Extend(o, acts, v5, Publish(1), w, rules);
    acts := acts + [Publish(1)];
  }

  /** Two connections that have registered switch the coordinator one after the other. */
  lemma BothSwitch(o: World, before: seq<Act>, v: World, rules: Rules, d: map<nat, nat>)
    returns (acts: seq<Act>, w: World)
    requires !rules.switches
    requires Reached(o, before, rules, v) && v == Two(7, 8, Joining, Joining, Board(d, LOCAL, LOCAL))
    ensures Reached(o, acts, rules, w) && w == Two(7, 8, Switching, Switching, Board(d, 2, LOCAL))
  {
    hide Reached;
    var u := Two(7, 8, Switching, Joining, Board(d, 1, LOCAL));
    Extend(o, before, v, Switch(1), u, rules);
    acts := before + [Switch(1)];
    w := Two(7, 8, Switching, Switching, Board(d, 2, LOCAL));
    Extend(o, acts, u, Switch(2), w, rules);
    acts := acts + [Switch(2)];
  }

  function One(p: Up, q: Down, b: Board): World { World(map[1 := 8], map[1 := p], map[1 := q], b) }

  /** A link that dies after its hello registered: its end is handled first. */
  lemma EndOvertakesHello(rules: Rules) returns (o: World, acts: seq<Act>, w: World)
    requires !rules.ordered
    ensures Reached(o, acts, rules, w) && w == One(Joining, Gone, Board(map[], LOCAL, LOCAL))
  {
    hide Reached;
    o := One(Idle, Alive, Board(map[], LOCAL, LOCAL));
    Start(o, rules);
    var v1 := One(Joining, Alive, Board(map[8 := 1], LOCAL, LOCAL));
    Extend(o, [], o, Register(1), v1, rules);
    acts := [] + [Register(1)];
    var v2 := One(Joining, Leaving, Board(map[], LOCAL, LOCAL));
    Extend(o, acts, v1, Unregister(1), v2, rules);
    acts := acts + [Unregister(1)];
    acts, w := EndFinishes(o, acts, v2, rules);
  }

  lemma EndFinishes(o: World, before: seq<Act>, v: World, rules: Rules) returns (acts: seq<Act>, w: World)
    requires Reached(o, before, rules, v) && v == One(Joining, Leaving, Board(map[], LOCAL, LOCAL))
    ensures Reached(o, acts, rules, w) && w == One(Joining, Gone, Board(map[], LOCAL, LOCAL))
  {
    hide Reached;
    var u := One(Joining, Clearing(LOCAL), Board(map[], LOCAL, LOCAL));
    Extend(o, before, v, Clear(1), u, rules);
    acts := before + [Clear(1)];
    w := One(Joining, Gone, Board(map[], LOCAL, LOCAL));
    Extend(o, acts, u, Republish(1), w, rules);
    acts := acts + [Republish(1)];
  }

  /** A link that dies while its hello is being handled: the dead device stays active. */
  lemma DeadDeviceStaysActive() returns (o: World, acts: seq<Act>, w: World)
    ensures Reached(o, acts, Rules(true, true, false), w) && AtRest(w)
    ensures 1 in w.down && w.down[1].Gone? && w.board.dev == w.board.pm == 1
    ensures !Agreed(w.board, w.keys)
  {
    hide Reached;
    var rules := Rules(true, true, false);
    var v4, v5;
    o, acts, v4 := EndOvertakesHello(rules);
    v5 := One(Switching, Gone, Board(map[], 1, LOCAL));
    Extend(o, acts, v4, Switch(1), v5, rules);
    acts := acts + [Switch(1)];
    w := One(Idle, Gone, Board(map[], 1, 1));
    Extend(o, acts, v5, Publish(1), w, rules);
    acts := acts + [Publish(1)];
  }
}
