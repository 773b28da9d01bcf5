/** The switch theorems speak of the device that the port mapper was told last; here they
    meet the coordinator's own, of which ActiveDevice speaks. */
module SwitchBoard {
  import opened PortKey
  import opened PortWiring
  import opened SwitchMachine
  import opened SwitchSteps
  import opened SwitchRuns
  import A = ActiveDevice

  /** The device that the port mapper was told last in a run of ports. */
  function LastSet(acts: seq<Act>): nat {
    if acts == [] then LOCAL
    else if acts[|acts| - 1].SetDevice? then acts[|acts| - 1].d
    else LastSet(acts[..|acts| - 1])
  }

  lemma OnlySetMoves(v: World, a: Act)
    requires Enabled(v, a)
    ensures Apply(v, a).net.dev == if a.SetDevice? then a.d else v.net.dev
  {
    hide CutAt, CutAll, Moves, IsPlan, Held;
    if a.Step? {
      var r, back := MovesKeeps(v, a.k, a.m);
    }
  }

  lemma {:induction false} DeviceIsLastSet(o: World, acts: seq<Act>, orderly: bool, v: World)
    requires RunsTo(o, acts, orderly, v)
    ensures v.net.dev == LastSet(acts)
    decreases |acts|
  {
    hide Enabled, Apply, Orderly;
    if acts != [] {
      var before, a := acts[..|acts| - 1], acts[|acts| - 1];
      var u :| Run(o, before, orderly, u) && Leads(u, a, v) && (orderly ==> Orderly(u, a));
      DeviceIsLastSet(o, before, orderly, u);
      OnlySetMoves(u, a);
    }
  }

  /** A run of the switchboard and a run of ports, in which the port mapper was told the same
      device last. If switches do not overlap and none is half done, then a port whose
      worker's rebinds are done is on the coordinator's active device, or refused, if and only
      if it was sought since it was last torn down and no Map of it strayed. */
  lemma {:induction false} PortsAreOnTheActiveDevice(
    ob: A.World, told: seq<A.Act>, rules: A.Rules, b: A.World,
    o: World, acts: seq<Act>, orderly: bool, v: World, k: Key)
    requires A.Reached(ob, told, rules, b) && rules.switches && forall c :: !A.MidSwitch(b, c)
    requires RunsTo(o, acts, orderly, v) && LastSet(acts) == A.Told(told)
    requires Settled(v, k.worker)
    ensures (k in v.net.fwds && v.net.fwds[k].device == b.board.dev) || k in v.past.failed <==>
            SoughtSince(o, acts, k, v) && !Strayed(v, k)
  {
    hide A.Reached, RunsTo, Settled, SoughtSince, Strayed;
    A.PortMapperFollows(ob, told, rules, b);
    A.BoardIsExact(ob, told, rules, b);
    DeviceIsLastSet(o, acts, orderly, v);
    RebindIsExact(o, acts, orderly, v, k);
  }
}
