/** The session manager (internal/session/manager.go): which sessions exist, in which
    order they are listed, and who is told about their status events. Session ids are
    fresh; what a session shows of itself is its Info. */
module Manager {
  import opened Sequences
  import opened Fanout

  const SUB_CAP := 64

  datatype Info = Info(title: string, kind: string, cwd: string)

  datatype Event = Event(id: nat, state: string)

  datatype Mgr = Mgr(sessions: map<nat, Info>, order: seq<nat>, table: Table<Event>)

  /** The map and the order agree. */
  ghost predicate Ordered(m: Mgr) {
    Distinct(m.order) && forall id :: id in m.sessions <==> id in m.order
  }

  function Created(m: Mgr, id: nat, info: Info): Mgr {
    m.(sessions := m.sessions[id := info], order := m.order + [id])
  }

  function Without(order: seq<nat>, id: nat): seq<nat> {
    if order == [] then []
    else if order[|order| - 1] == id then Without(order[..|order| - 1], id)
    else Without(order[..|order| - 1], id) + [order[|order| - 1]]
  }

  function Killed(m: Mgr, id: nat): Mgr {
    m.(sessions := m.sessions - {id}, order := Without(m.order, id))
  }

  function Listed(sessions: map<nat, Info>, order: seq<nat>): seq<Info> {
    if order == [] then []
    else
      var init, id := order[..|order| - 1], order[|order| - 1];
      Listed(sessions, init) + if id in sessions then [sessions[id]] else []
  }

  lemma {:induction false} WithoutAbsent(order: seq<nat>, id: nat)
    requires id !in order
    ensures Without(order, id) == order
    decreases |order|
  {
    if order != [] {
      WithoutAbsent(order[..|order| - 1], id);
      assert order == order[..|order| - 1] + [order[|order| - 1]];
    }
  }

  lemma {:induction false} WithoutConcat(a: seq<nat>, b: seq<nat>, id: nat)
    ensures Without(a + b, id) == Without(a, id) + Without(b, id)
    decreases |b|
  {
    if b == [] {
      assert a + b == a;
    } else {
      assert (a + b)[..|a + b| - 1] == a + b[..|b| - 1];
      WithoutConcat(a, b[..|b| - 1], id);
    }
  }

  lemma WithoutSelf(id: nat)
    ensures Without([id], id) == []
  {
    assert [id][..0] == [];
  }

  /** Deleting the one occurrence is filtering. */
  lemma WithoutAt(order: seq<nat>, i: nat)
    requires i < |order| && Distinct(order)
    ensures Without(order, order[i]) == order[..i] + order[i + 1..]
  {
    hide Without;
    var id, a, b := order[i], order[..i], order[i + 1..];
    assert order == a + [id] + b;
    WithoutConcat(a + [id], b, id);
    WithoutConcat(a, [id], id);
    WithoutAbsent(a, id);
    WithoutAbsent(b, id);
    WithoutSelf(id);
  }

  class Manager {
    var sessions: map<nat, Info>
    var order: seq<nat>
    var table: Table<Event>

    ghost function View(): Mgr reads this { Mgr(sessions, order, table) }

    ghost predicate Valid() reads this { Ordered(View()) && table.Sound() }

    constructor ()
      ensures Valid() && View() == Mgr(map[], [], Empty())
    {
      sessions, order, table := map[], [], Empty();
    }

    /** Create's locked region, the process being started. */
    method Create(id: nat, info: Info)
      requires Valid() && id !in sessions
      modifies this
      ensures Valid() && View() == Created(old(View()), id, info)
    {
      sessions := sessions[id := info];
      order := order + [id];
    }

    method Kill(id: nat) returns (ok: bool)
      requires Valid()
      modifies this
      ensures Valid() && ok == (id in old(sessions)) && View() == Killed(old(View()), id)
    {
      ok := id in sessions;
      if !ok {
        WithoutAbsent(order, id);
        return;
      }
      sessions := sessions - {id};
      for i := 0 to |order|
        invariant order == old(order) && id !in order[..i]
      {
        if order[i] == id {
          WithoutAt(order, i);
          order := order[..i] + order[i + 1..];
          return;
        }
      }
      assert false;
    }

    method List() returns (out: seq<Info>)
      ensures out == Listed(sessions, order)
    {
      out := [];
      for i := 0 to |order|
        invariant out == Listed(sessions, order[..i])
      {
        assert order[..i + 1][..i] == order[..i];
        if order[i] in sessions {
          out := out + [sessions[order[i]]];
        }
      }
      assert order[..|order|] == order;
    }

    method Events(ch: nat)
      requires Valid() && ch !in table.chans
      modifies this`table
      ensures Valid() && table == Register(old(table), ch)
    {
      LocalSound(table, ch);
      table := Register(table, ch);
    }

    method CancelEvents(ch: nat)
      requires Valid()
      modifies this`table
      ensures Valid() && table == Cancel(old(table), ch)
    {
      LocalSound(table, ch);
      if ch in table.subs {
        table := Table(table.subs - {ch}, table.chans[ch := table.chans[ch].(closed := true)],
                       table.fault || table.chans[ch].closed);
      }
    }

    method Emit(ev: Event)
      requires Valid()
      modifies this`table
      ensures Valid() && table == Broadcast(old(table), SUB_CAP, ev)
    {
      BroadcastSound(table, SUB_CAP, ev);
      table := SendToAll(table, SUB_CAP, ev);
    }
  }

  // --------------------------------------------------------------------- runs

  /** `made` is every session ever created, in order; `gone` those killed; `said` every
      event emitted so far; `since` how many had been when a channel subscribed. */
  datatype World = World(mgr: Mgr, made: seq<nat>, infos: map<nat, Info>, gone: set<nat>,
                         said: seq<Event>, since: map<nat, nat>)

  datatype Act =
    | Make(id: nat, info: Info)
    | Kill(id: nat)
    | Subscribe(ch: nat)
    | Leave(ch: nat)
    | Say(ev: Event)
    | Take(ch: nat)

  const INIT := World(Mgr(map[], [], Empty()), [], map[], {}, [], map[])

  ghost predicate Enabled(v: World, a: Act) {
    var t := v.mgr.table;
    t.subs <= t.chans.Keys &&
    match a
    case Make(id, _) => id !in v.made
    case Kill(_) => true
    case Subscribe(ch) => ch !in t.chans
    case Leave(_) => true
    case Say(_) => true
    case Take(ch) => ch in t.chans && t.chans[ch].taken < |t.chans[ch].sent|
  }

  ghost function Apply(v: World, a: Act): World
    requires Enabled(v, a)
  {
    var m := v.mgr;
    match a
    case Make(id, info) =>
      v.(mgr := Created(m, id, info), made := v.made + [id], infos := v.infos[id := info])
    case Kill(id) => v.(mgr := Killed(m, id), gone := v.gone + if id in m.sessions then {id} else {})
    case Subscribe(ch) => v.(mgr := m.(table := Register(m.table, ch)), since := v.since[ch := |v.said|])
    case Leave(ch) => v.(mgr := m.(table := Cancel(m.table, ch)))
    case Say(ev) => v.(mgr := m.(table := Broadcast(m.table, SUB_CAP, ev)), said := v.said + [ev])
    case Take(ch) => v.(mgr := m.(table := Receive(m.table, ch)))
  }

  ghost predicate Leads(v: World, a: Act, w: World) { Enabled(v, a) && w == Apply(v, a) }

  ghost predicate Reached(acts: seq<Act>, w: World) {
    if acts == [] then w == INIT
    else
      var before, last := acts[..|acts| - 1], acts[|acts| - 1];
      exists v :: Reached(before, v) && Leads(v, last, w)
  }

  function Survivors(made: seq<nat>, gone: set<nat>): seq<nat> {
    if made == [] then []
    else
      var init, id := made[..|made| - 1], made[|made| - 1];
      Survivors(init, gone) + if id in gone then [] else [id]
  }

  lemma {:induction false} KillSurvivors(made: seq<nat>, gone: set<nat>, id: nat)
    ensures Survivors(made, gone + {id}) == Without(Survivors(made, gone), id)
    decreases |made|
  {
    if made != [] {
      var init, last := made[..|made| - 1], made[|made| - 1];
      KillSurvivors(init, gone, id);
      WithoutConcat(Survivors(init, gone), [last], id);
      assert [last][..0] == [] && Survivors(init, gone) + [] == Survivors(init, gone);
    }
  }

  lemma {:induction false} SurvivorsAre(made: seq<nat>, gone: set<nat>, id: nat)
    ensures id in Survivors(made, gone) <==> id in made && id !in gone
    decreases |made|
  {
    if made != [] {
      var init, last := made[..|made| - 1], made[|made| - 1];
      SurvivorsAre(init, gone, id);
      assert made == init + [last];
      assert last !in gone ==> Survivors(made, gone) == Survivors(init, gone) + [last];
    }
  }

  lemma {:induction false} SurvivorsDistinct(made: seq<nat>, gone: set<nat>)
    requires Distinct(made)
    ensures Distinct(Survivors(made, gone))
    decreases |made|
  {
    if made != [] {
      var init, last := made[..|made| - 1], made[|made| - 1];
      SurvivorsDistinct(init, gone);
      SurvivorsAre(init, gone, last);
    }
  }

  /** A channel has been sent an in-order selection of what was said since it subscribed:
      all of it while it is registered and has never been full. */
  ghost predicate Heard(v: World, ch: nat) {
    && ch in v.mgr.table.chans && ch in v.since && v.since[ch] <= |v.said|
    && IsSubsequence(v.mgr.table.chans[ch].sent, v.said[v.since[ch]..])
    && (ch in v.mgr.table.subs && !v.mgr.table.chans[ch].lost ==>
          v.mgr.table.chans[ch].sent == v.said[v.since[ch]..])
  }

  ghost predicate SessionsOk(v: World) {
    && Distinct(v.made)
    && (forall id :: id in v.gone ==> id in v.made)
    && v.mgr.order == Survivors(v.made, v.gone)
    && (forall id :: id in v.mgr.sessions <==> id in v.made && id !in v.gone)
    && (forall id :: id in v.mgr.sessions ==> id in v.infos && v.infos[id] == v.mgr.sessions[id])
  }

  ghost predicate Inv(v: World) {
    && SessionsOk(v)
    && v.mgr.table.Sound()
    && forall ch :: ch in v.mgr.table.chans ==> Heard(v, ch)
  }

  lemma SessionsStep(v: World, a: Act)
    requires SessionsOk(v) && Enabled(v, a)
    ensures SessionsOk(Apply(v, a))
  {
    match a {
      case Make(id, _) => {
        assert (v.made + [id])[..|v.made|] == v.made;
      }
      case Kill(id) => {
        if id in v.mgr.sessions {
          KillSurvivors(v.made, v.gone, id);
        } else {
          SurvivorsAre(v.made, v.gone, id);
          WithoutAbsent(v.mgr.order, id);
          assert v.gone + {} == v.gone;
        }
      }
      case _ => {
      }
    }
  }

  lemma HeardStep(v: World, a: Act, ch: nat)
    requires Enabled(v, a) && v.mgr.table.Sound()
    requires ch in v.mgr.table.chans ==> Heard(v, ch)
    requires ch in Apply(v, a).mgr.table.chans
    ensures Heard(Apply(v, a), ch)
  {
    hide Without, Listed;
    var v' := Apply(v, a);
    if a.Say? {
      assert (v.said + [a.ev])[v.since[ch]..] == v.said[v.since[ch]..] + [a.ev];
      SubsequenceSnoc(v.mgr.table.chans[ch].sent, v.said[v.since[ch]..], a.ev);
    } else if a.Subscribe? {
      assert v.said[|v.said|..] == [];
    }
  }

  lemma {:induction false} InvStep(v: World, a: Act)
    requires Inv(v) && Enabled(v, a)
    ensures Inv(Apply(v, a))
  {
    hide SessionsOk, Heard;
    var v' := Apply(v, a);
    SessionsStep(v, a);
    if a.Say? {
      BroadcastSound(v.mgr.table, SUB_CAP, a.ev);
    } else if a.Subscribe? || a.Leave? || a.Take? {
      LocalSound(v.mgr.table, a.ch);
    }
    forall ch | ch in v'.mgr.table.chans ensures Heard(v', ch) {
      HeardStep(v, a, ch);
    }
  }

  lemma {:induction false} ReachedInv(acts: seq<Act>, w: World)
    requires Reached(acts, w)
    ensures Inv(w)
    decreases |acts|
  {
    if acts != [] {
      hide Inv, Enabled, Apply;
      var before, a := acts[..|acts| - 1], acts[|acts| - 1];
      var v :| Reached(before, v) && Leads(v, a, w);
      ReachedInv(before, v);
      InvStep(v, a);
    }
  }

  // ------------------------------------------------------------------ theorems

  lemma {:induction false} ListedPointwise(sessions: map<nat, Info>, order: seq<nat>, infos: map<nat, Info>)
    requires forall id :: id in order ==> id in sessions && id in infos && infos[id] == sessions[id]
    ensures |Listed(sessions, order)| == |order|
    ensures forall i :: 0 <= i < |order| ==> order[i] in infos && Listed(sessions, order)[i] == infos[order[i]]
    decreases |order|
  {
    if order != [] {
      ListedPointwise(sessions, order[..|order| - 1], infos);
    }
  }

  /** The list shows every session created and not killed, each once, as it was created,
      in creation order. */
  lemma ListIsCreationOrder(acts: seq<Act>, v: World)
    requires Reached(acts, v)
    ensures var alive := Survivors(v.made, v.gone);
      && Distinct(alive) && IsSubsequence(alive, v.made)
      && (forall id :: id in alive <==> id in v.made && id !in v.gone)
      && |Listed(v.mgr.sessions, v.mgr.order)| == |alive|
      && forall i :: 0 <= i < |alive| ==>
           alive[i] in v.infos && Listed(v.mgr.sessions, v.mgr.order)[i] == v.infos[alive[i]]
  {
    hide Reached;
    ReachedInv(acts, v);
    SurvivorsDistinct(v.made, v.gone);
    SurvivorsInOrder(v.made, v.gone);
    forall id ensures id in Survivors(v.made, v.gone) <==> id in v.made && id !in v.gone {
      SurvivorsAre(v.made, v.gone, id);
    }
    ListedPointwise(v.mgr.sessions, v.mgr.order, v.infos);
  }

  lemma {:induction false} SurvivorsInOrder(made: seq<nat>, gone: set<nat>)
    ensures IsSubsequence(Survivors(made, gone), made)
    decreases |made|
  {
    if made != [] {
      var init, last := made[..|made| - 1], made[|made| - 1];
      SurvivorsInOrder(init, gone);
      SubsequenceSnoc(Survivors(init, gone), init, last);
      assert made == init + [last];
      assert Survivors(init, gone) + [] == Survivors(init, gone);
    }
  }

  /** No send or close ever hits a closed channel, a channel is open exactly while it is
      registered, and what it carries is an in-order selection of the events emitted since
      it subscribed, complete while it is registered and was never full. */
  lemma {:induction false} EventChannelsAreSafe(acts: seq<Act>, v: World, ch: nat)
    requires Reached(acts, v) && ch in v.mgr.table.chans
    ensures !v.mgr.table.fault
    ensures ch in v.mgr.table.subs <==> !v.mgr.table.chans[ch].closed
    ensures Heard(v, ch)
  {
    hide Reached, SessionsOk;
    ReachedInv(acts, v);
  }
}
