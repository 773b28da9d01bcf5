/** The two ends of a device link (cmd/sr/devicelink.go, cmd/sr/deviceclient.go): the
    coordinator's table from tags to dialers, one per connection, and the device's
    table from tags to listeners, one per process. The tag the source writes "f<n>"
    is the number n; a dialer and a listener are numbers too. */
module DeviceLink {
  import opened Sequences

  /** remoteDevice.seq and remoteDevice.tags. */
  datatype Tags = Tags(last: nat, dial: map<nat, nat>)

  const NO_TAGS := Tags(0, map[])

  function Registered(t: Tags, dial: nat): Tags {
    Tags(t.last + 1, t.dial[t.last + 1 := dial])
  }

  function Dropped(t: Tags, tag: nat): Tags { t.(dial := t.dial - {tag}) }

  function Lookup(t: Tags, tag: nat): Option<nat> {
    if tag in t.dial then Some(t.dial[tag]) else None
  }

  /** deviceClient.listeners, and which listeners the process has open. */
  datatype Ports = Ports(table: map<nat, nat>, open: set<nat>)

  function Bound(p: Ports, tag: nat, ln: nat): Ports {
    Ports(p.table[tag := ln], p.open + {ln})
  }

  function Unbound(p: Ports, tag: nat): Ports {
    Ports(p.table - {tag}, if tag in p.table then p.open - {p.table[tag]} else p.open)
  }

  function AllShut(p: Ports): Ports { Ports(map[], p.open - p.table.Values) }

  class RemoteDevice {
    var last: nat
    var dial: map<nat, nat>

    ghost function View(): Tags reads this { Tags(last, dial) }

    constructor ()
      ensures View() == NO_TAGS
    {
      last, dial := 0, map[];
    }

    /** Forward's first locked region: a tag never used before on this connection. */
    method Register(d: nat) returns (tag: nat)
      modifies this
      ensures View() == Registered(old(View()), d) && tag == old(last) + 1
    {
      last := last + 1;
      tag := last;
      dial := dial[tag := d];
    }

    /** Forward's other locked regions: after a failed bind, and in the closer. */
    method Drop(tag: nat)
      modifies this
      ensures View() == Dropped(old(View()), tag)
    {
      dial := dial - {tag};
    }

    method Dialer(tag: nat) returns (d: Option<nat>)
      ensures d == Lookup(View(), tag)
    {
      d := if tag in dial then Some(dial[tag]) else None;
    }
  }

  class DeviceClient {
    var table: map<nat, nat>
    var open: set<nat>

    ghost function View(): Ports reads this { Ports(table, open) }

    constructor ()
      ensures View() == Ports(map[], {})
    {
      table, open := map[], {};
    }

    /** handleBind, once Listen has returned `ln`. */
    method Bind(tag: nat, ln: nat)
      modifies this
      ensures View() == Bound(old(View()), tag, ln)
    {
      open := open + {ln};
      table := table[tag := ln];
    }

    /** unbind: forget the tag under the lock, then close what was there. */
    method Unbind(tag: nat)
      modifies this
      ensures View() == Unbound(old(View()), tag)
    {
      var ln := if tag in table then Some(table[tag]) else None;
      table := table - {tag};
      if ln.Some? {
        open := open - {ln.value};
      }
    }

    /** closeAll, visiting the table in whatever order Go does. */
    method CloseAll()
      modifies this
      ensures View() == AllShut(old(View()))
    {
      ghost var done: set<nat> := {};
      while table.Keys != {}
        invariant table.Keys == old(table).Keys - done && done <= old(table).Keys
        invariant forall t :: t in table ==> table[t] == old(table)[t]
        invariant open == old(open) - set t | t in done :: old(table)[t]
        decreases |table.Keys|
      {
        var tag :| tag in table.Keys;
        open := open - {table[tag]};
        table := table - {tag};
        done := done + {tag};
      }
      assert done == old(table).Keys;
      assert old(table).Values == set t | t in done :: old(table)[t];
    }
  }
}
