/** One PTY session (internal/session/session.go): the fields its mutex guards, the
    critical sections that change them, and the class that holds them. Times are
    integer milliseconds; 0 is Go's zero time, earlier than any clock reading. */
module Session {
  import opened Sequences
  import opened Fanout

  const ACTIVE_WINDOW := 1000
  const MIN_RUN_FOR_DING := 2000
  const RESIZE_QUIET := 700
  const RING_BYTES := 262144
  const SUBSCRIBER_CAP := 512
  const READ_BUFFER := 32768

  datatype Kind = Shell | Claude | Codex | Editor | Command | Run

  predicate IsAgent(k: Kind) { k.Claude? || k.Codex? }

  datatype Life = Idle | Running | Exited

  predicate AwaitingInput(k: Kind, s: Life) { IsAgent(k) && s == Idle }

  datatype Event = Event(life: Life, ding: bool, needsInput: bool, exitCode: int)

  datatype Fields = Fields(
    life: Life,
    lastOutput: int,
    runningSince: int,
    suppressUntil: int,
    exitCode: int,
    table: Table<seq<byte>>)

  function Created(now: int): Fields { Fields(Idle, now, 0, 0, 0, Empty()) }

  function EventOf(k: Kind, f: Fields, ding: bool): Event {
    Event(f.life, ding, AwaitingInput(k, f.life), f.exitCode)
  }

  function Resized(f: Fields, now: int): Fields {
    f.(suppressUntil := now + RESIZE_QUIET)
  }

  /** readLoop's locked region, after the chunk went into the ring. */
  ghost function Delivered(f: Fields, now: int, chunk: seq<byte>): Fields
    requires f.table.subs <= f.table.chans.Keys
  {
    f.(lastOutput := if now > f.suppressUntil then now else f.lastOutput,
       table := Broadcast(f.table, SUBSCRIBER_CAP, chunk))
  }

  /** One monitor tick. The clock is read at `first` for the activity test and again
      at `second` for runningSince or the run's duration. */
  function Ticked(k: Kind, f: Fields, first: int, second: int): (Fields, Option<Event>) {
    var active := first - f.lastOutput < ACTIVE_WINDOW;
    if active && f.life != Running then
      var g := f.(life := Running, runningSince := second);
      (g, Some(EventOf(k, g, false)))
    else if !active && f.life == Running then
      var g := f.(life := Idle);
      (g, Some(EventOf(k, g, IsAgent(k) && second - f.runningSince >= MIN_RUN_FOR_DING)))
    else
      (f, None)
  }

  ghost function ExitedWith(f: Fields, code: int): Fields
    requires f.table.subs <= f.table.chans.Keys
  {
    f.(life := Exited, exitCode := code, table := CloseAll(f.table))
  }

  function Subscribed(f: Fields, id: nat): Fields {
    f.(table := if f.life == Exited then RegisterClosed(f.table, id) else Register(f.table, id))
  }

  function Unsubscribed(f: Fields, id: nat): Fields
    requires f.table.subs <= f.table.chans.Keys
  {
    f.(table := Cancel(f.table, id))
  }

  class Session {
    const kind: Kind
    var life: Life
    var lastOutput: int
    var runningSince: int
    var suppressUntil: int
    var exitCode: int
    var table: Table<seq<byte>>

    ghost function View(): Fields reads this {
      Fields(life, lastOutput, runningSince, suppressUntil, exitCode, table)
    }

    ghost predicate Valid() reads this {
      && table.Sound()
      && (life == Exited ==> table.subs == {})
    }

    constructor (kind: Kind, now: int)
      ensures this.kind == kind && View() == Created(now) && Valid()
    {
      this.kind := kind;
      life, lastOutput, runningSince, suppressUntil, exitCode := Idle, now, 0, 0, 0;
      table := Empty();
    }

    method Subscribe(id: nat)
      requires Valid() && id !in table.chans
      modifies this
      ensures Valid() && View() == Subscribed(old(View()), id)
      ensures table.chans[id].closed <==> old(life) == Exited
    {
      if life == Exited {
        table := RegisterClosed(table, id);
        return;
      }
      table := Register(table, id);
    }

    /** The func Subscribe returns; it may be called any number of times. */
    method Unsubscribe(id: nat)
      requires Valid()
      modifies this
      ensures Valid() && View() == Unsubscribed(old(View()), id) && id !in table.subs
    {
      if id in table.subs {
        var ch := table.chans[id];
        table := Table(table.subs - {id}, table.chans[id := ch.(closed := true)],
                       table.fault || ch.closed);
      }
    }

    method Resize(now: int)
      requires Valid()
      modifies this
      ensures Valid() && View() == Resized(old(View()), now)
    {
      suppressUntil := now + RESIZE_QUIET;
    }

    method Deliver(now: int, chunk: seq<byte>)
      requires Valid()
      modifies this
      ensures Valid() && View() == Delivered(old(View()), now, chunk)
    {
      if now > suppressUntil {
        lastOutput := now;
      }
      BroadcastSound(table, SUBSCRIBER_CAP, chunk);
      table := SendToAll(table, SUBSCRIBER_CAP, chunk);
    }

    /** One turn of monitor's loop; `stop` means the goroutine returns. */
    method MonitorTick(first: int, second: int) returns (ev: Option<Event>, stop: bool)
      requires Valid()
      modifies this
      ensures Valid() && stop == (old(life) == Exited)
      ensures if stop then View() == old(View()) && ev == None
              else (View(), ev) == Ticked(kind, old(View()), first, second)
    {
      ev, stop := None, life == Exited;
      if stop {
        return;
      }
      var active := first - lastOutput < ACTIVE_WINDOW;
      if active && life != Running {
        life, runningSince := Running, second;
        ev := Some(Event(life, false, AwaitingInput(kind, life), exitCode));
      } else if !active && life == Running {
        var dur := second - runningSince;
        life := Idle;
        ev := Some(Event(life, IsAgent(kind) && dur >= MIN_RUN_FOR_DING,
                         AwaitingInput(kind, life), exitCode));
      }
    }

    method HandleExit(code: int) returns (ev: Event)
      requires Valid()
      modifies this
      ensures Valid() && View() == ExitedWith(old(View()), code)
      ensures ev == Event(Exited, false, false, code)
    {
      CloseAllSound(table);
      life, exitCode := Exited, code;
      table := CloseEach(table);
      ev := Event(life, false, AwaitingInput(kind, life), exitCode);
    }
  }
}
