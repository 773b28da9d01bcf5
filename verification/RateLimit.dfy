/** The two attempt limiters: password logins (internal/auth) and device keys
    (cmd/sr/authlockout.go). Times are milliseconds. A login checks the lock and records
    its outcome in two separate locked regions, so several can be in flight at once. */
module RateLimit {

  const MINUTE := 60000

  const MAX_LOGIN_FAILS := 8
  const LOGIN_LOCKOUT := MINUTE

  const MAX_AUTH_FAILS := 5
  const LOCK_WINDOW := MINUTE

  // ------------------------------------------------------------------- logins

  datatype Login = Login(fails: int, lockUntil: int)

  predicate LockedOut(s: Login, now: int) { now < s.lockUntil }

  function Recorded(s: Login, now: int, ok: bool): Login {
    if ok then s.(fails := 0)
    else if s.fails + 1 >= MAX_LOGIN_FAILS then Login(0, now + LOGIN_LOCKOUT)
    else s.(fails := s.fails + 1)
  }

  datatype Answer = TooMany | WrongPassword | SignedIn

  class AuthManager {
    var fails: int
    var lockUntil: int

    ghost function View(): Login reads this { Login(fails, lockUntil) }

    constructor ()
      ensures View() == Login(0, 0)
    {
      fails, lockUntil := 0, 0;
    }

    method Locked(now: int) returns (r: bool)
      ensures r == LockedOut(View(), now)
    {
      return now < lockUntil;
    }

    method RecordAttempt(now: int, ok: bool)
      modifies this
      ensures View() == Recorded(old(View()), now, ok)
    {
      if ok {
        fails := 0;
        return;
      }
      fails := fails + 1;
      if fails >= MAX_LOGIN_FAILS {
        lockUntil := now + LOGIN_LOCKOUT;
        fails := 0;
      }
    }

    /** One login that no other overlaps: the lock is read at `a`, the outcome recorded at
        `b`; `right` is whether the password checks out. */
    method HandleLogin(a: int, b: int, right: bool) returns (r: Answer)
      requires a <= b
      modifies this
      ensures r == if LockedOut(old(View()), a) then TooMany
                   else if right then SignedIn else WrongPassword
      ensures View() == if r == TooMany then old(View()) else Recorded(old(View()), b, right)
    {
      var locked := Locked(a);
      if locked {
        return TooMany;
      }
      RecordAttempt(b, right);
      r := if right then SignedIn else WrongPassword;
    }
  }

  // -------------------------------------------------------------- device keys

  datatype LockState = LockState(n: int, till: int)

  type Lockouts = map<string, LockState>

  /** Nothing recorded is as good as no failure. */
  function Of(l: Lockouts, id: string): LockState { if id in l then l[id] else LockState(0, 0) }

  predicate Refused(s: LockState, now: int) { s.n >= MAX_AUTH_FAILS && now < s.till }

  function Failed(s: LockState, now: int): LockState { LockState(s.n + 1, now + LOCK_WINDOW) }

  function Judged(s: LockState, now: int, ok: bool): LockState {
    if ok then LockState(0, 0) else Failed(s, now)
  }

  class AuthLockout {
    var fails: Lockouts

    constructor ()
      ensures fails == map[]
    {
      fails := map[];
    }

    method Allow(id: string, now: int) returns (r: bool)
      ensures r == !Refused(Of(fails, id), now)
    {
      if id !in fails {
        return true;
      }
      if fails[id].n >= MAX_AUTH_FAILS && now < fails[id].till {
        return false;
      }
      return true;
    }

    method Fail(id: string, now: int)
      modifies this
      ensures Of(fails, id) == Failed(old(Of(fails, id)), now)
      ensures forall other :: other != id ==> Of(fails, other) == old(Of(fails, other))
    {
      if id !in fails {
        fails := fails[id := LockState(0, 0)];
      }
      fails := fails[id := LockState(fails[id].n + 1, now + LOCK_WINDOW)];
    }

    method Reset(id: string)
      modifies this
      ensures Of(fails, id) == LockState(0, 0)
      ensures forall other :: other != id ==> Of(fails, other) == old(Of(fails, other))
    {
      fails := fails - {id};
    }

    /** authDevice: `authorized` lists the keys of the configured devices. */
    method AuthDevice(id: string, key: string, authorized: seq<string>, a: int, b: int)
      returns (ok: bool)
      requires a <= b
      modifies this
      ensures ok <==> !Refused(old(Of(fails, id)), a) && key in authorized
      ensures Of(fails, id) == if Refused(old(Of(fails, id)), a) then old(Of(fails, id))
                               else Judged(old(Of(fails, id)), b, ok)
      ensures forall other :: other != id ==> Of(fails, other) == old(Of(fails, other))
    {
      ok := Allow(id, a);
      if !ok {
        return;
      }
      for i := 0 to |authorized|
        invariant key !in authorized[..i] && fails == old(fails)
      {
        if authorized[i] == key {
          Reset(id);
          return true;
        }
      }
      ok := false;
      Fail(id, b);
    }
  }

  // --------------------------------------------------------------------- runs

  /** What reaches a limiter: attempts ask to go ahead, and those let through end. */
  datatype Event = Ask(t: int) | End(t: int, ok: bool)

  /** A limiter with the attempts that were let through and have not ended. */
  datatype World<S> = World(limiter: S, inFlight: int, now: int)

  function Next<S>(v: World<S>, e: Event, refuses: (S, int) -> bool, ends: (S, int, bool) -> S): World<S> {
    match e
    case Ask(t) => World(v.limiter, if refuses(v.limiter, t) then v.inFlight else v.inFlight + 1, t)
    case End(t, ok) => World(ends(v.limiter, t, ok), v.inFlight - 1, t)
  }

  /** `w` after the events, in time order, never more than `c` attempts in flight. */
  predicate Run<S(==)>(v: World<S>, evs: seq<Event>, c: int, w: World<S>,
                       refuses: (S, int) -> bool, ends: (S, int, bool) -> S)
  {
    if evs == [] then w == v && 0 <= v.inFlight <= c
    else
      var e := evs[|evs| - 1];
      var u := After(v, evs[..|evs| - 1], refuses, ends);
      && Run(v, evs[..|evs| - 1], c, u, refuses, ends)
      && w == Next(u, e, refuses, ends)
      && u.now <= e.t && 0 <= w.inFlight <= c
  }

  function After<S>(v: World<S>, evs: seq<Event>, refuses: (S, int) -> bool,
                    ends: (S, int, bool) -> S): World<S>
  {
    if evs == [] then v
    else Next(After(v, evs[..|evs| - 1], refuses, ends), evs[|evs| - 1], refuses, ends)
  }

  lemma Snoc<S>(v: World<S>, evs: seq<Event>, e: Event, c: int,
                refuses: (S, int) -> bool, ends: (S, int, bool) -> S)
    ensures var u := After(v, evs, refuses, ends);
      && After(v, evs + [e], refuses, ends) == Next(u, e, refuses, ends)
      && (Run(v, evs, c, u, refuses, ends) && u.now <= e.t && 0 <= Next(u, e, refuses, ends).inFlight <= c ==>
            Run(v, evs + [e], c, Next(u, e, refuses, ends), refuses, ends))
  {
    assert (evs + [e])[..|evs|] == evs;
  }

  predicate Within(e: Event, from: int, to: int) { e.End? && from <= e.t < to }

  /** Attempts evaluated and found wrong in [from, to). */
  function Wrong(evs: seq<Event>, from: int, to: int): (n: nat) {
    if evs == [] then 0
    else
      var e := evs[|evs| - 1];
      Wrong(evs[..|evs| - 1], from, to) + if Within(e, from, to) && !e.ok then 1 else 0
  }

  predicate NoSuccess(evs: seq<Event>, from: int, to: int) {
    forall e :: e in evs && Within(e, from, to) ==> !e.ok
  }

  /** The minute, counted from 1, that `t` falls into. */
  function MinuteOf(from: int, t: int): int { (t - from) / MINUTE + 1 }

  lemma MinuteBounds(from: int, t: int)
    requires from <= t
    ensures MinuteOf(from, t) >= 1
    ensures from + (MinuteOf(from, t) - 1) * MINUTE <= t < from + MinuteOf(from, t) * MINUTE
    ensures forall k: int :: t < from + k * MINUTE ==> MinuteOf(from, t) <= k
  {
  }

  lemma {:induction false} Scale(m: int, n: int, d: int)
    requires m <= n && 0 <= d
    ensures m * d <= n * d
    ensures m < n ==> m * d + d <= n * d
    decreases n - m
  {
    if m < n {
      Scale(m + 1, n, d);
      assert (m + 1) * d == m * d + d;
    }
  }

  // ------------------------------------------------------------- login bound

  type LoginRun = World<Login>

  const REFUSES_LOGIN := (s: Login, t: int) => LockedOut(s, t)
  const ENDS_LOGIN := (s: Login, t: int, ok: bool) => Recorded(s, t, ok)

  /** With c logins in flight at once: eight wrong passwords lock the manager, and every
      further eight of those still in flight lock it again. */
  function PerMinute(c: int): int
    requires c >= 1
  {
    MAX_LOGIN_FAILS + (c - 1) / MAX_LOGIN_FAILS * MAX_LOGIN_FAILS
  }

  function Rest(c: int): (r: int)
    requires c >= 1
    ensures 0 <= r < MAX_LOGIN_FAILS && PerMinute(c) + r == MAX_LOGIN_FAILS - 1 + c
  {
    (c - 1) % MAX_LOGIN_FAILS
  }

  /** While locked, with `i` logins in flight and the count at `f`: the most that can come of
      ending some of them before the lock runs out, counting what a low count is worth then. */
  function Gain(i: int, f: int, r: int): int
    decreases i
  {
    var stop := if f < r then r - f else 0;
    if i <= 0 then stop
    else
      var go := 1 + Gain(i - 1, if f + 1 < MAX_LOGIN_FAILS then f + 1 else 0, r);
      if go > stop then go else stop
  }

  lemma {:induction false} GainAtMost(i: int, f: int, r: int)
    requires 0 <= i && 0 <= f < MAX_LOGIN_FAILS && 0 <= r < MAX_LOGIN_FAILS
    ensures i <= Gain(i, f, r) <= i + r
    decreases i
  {
    if i > 0 {
      GainAtMost(i - 1, if f + 1 < MAX_LOGIN_FAILS then f + 1 else 0, r);
    }
  }

  /** From a count that r - f more ends would bring to r, nothing is gained over ending all:
      the logins in flight are r - f and then some eights. */
  lemma {:induction false} GainWhole(i: int, f: int, r: int, q: int)
    requires 0 <= f < MAX_LOGIN_FAILS && 0 <= r < MAX_LOGIN_FAILS && 0 <= q
    requires 0 <= i <= r - f + q * MAX_LOGIN_FAILS
    ensures Gain(i, f, r) <= r - f + q * MAX_LOGIN_FAILS
    decreases i
  {
    if i > 0 {
      if f + 1 < MAX_LOGIN_FAILS {
        GainWhole(i - 1, f + 1, r, q);
      } else {
        assert q >= 1;
        GainWhole(i - 1, 0, r, q - 1);
      }
    }
  }

  /** Wrong passwords that can still be evaluated before `end`, with what is gained later. */
  function LoginLeft(v: LoginRun, end: int, c: int): int
    requires c >= 1
  {
    if v.limiter.lockUntil >= end then Gain(v.inFlight, v.limiter.fails, Rest(c))
    else MAX_LOGIN_FAILS - v.limiter.fails + c - 1
  }

  lemma LoginStep(v: LoginRun, e: Event, end: int, c: int)
    requires c >= 1
    requires 0 <= v.limiter.fails < MAX_LOGIN_FAILS && 0 <= v.inFlight <= c
    requires end - MINUTE <= e.t < end
    requires e.End? ==> !e.ok
    requires 0 <= Next(v, e, REFUSES_LOGIN, ENDS_LOGIN).inFlight <= c
    ensures LoginLeft(Next(v, e, REFUSES_LOGIN, ENDS_LOGIN), end, c) + (if e.End? then 1 else 0)
            <= LoginLeft(v, end, c)
  {
    var w := Next(v, e, REFUSES_LOGIN, ENDS_LOGIN);
    if e.End? && v.limiter.lockUntil < end && v.limiter.fails + 1 >= MAX_LOGIN_FAILS {
      GainWhole(w.inFlight, 0, Rest(c), (c - 1) / MAX_LOGIN_FAILS);
    }
  }

  /** A new minute brings at most PerMinute more. */
  lemma NewMinute(v: LoginRun, end: int, later: int, c: int)
    requires c >= 1 && end <= later
    requires 0 <= v.limiter.fails < MAX_LOGIN_FAILS && 0 <= v.inFlight <= c
    ensures LoginLeft(v, later, c) <= PerMinute(c) + LoginLeft(v, end, c)
    ensures LoginLeft(v, later, c) <= PerMinute(c) + Rest(c)
  {
    GainAtMost(v.inFlight, v.limiter.fails, Rest(c));
  }

  lemma {:induction false} LoginBudget(v: LoginRun, evs: seq<Event>, c: int, w: LoginRun, from: int, k: nat)
    requires Run(v, evs, c, w, REFUSES_LOGIN, ENDS_LOGIN) && c >= 1
    requires 0 <= v.limiter.fails < MAX_LOGIN_FAILS
    requires NoSuccess(evs, from, from + k * MINUTE)
    ensures 0 <= w.limiter.fails < MAX_LOGIN_FAILS && 0 <= w.inFlight <= c
    ensures w.now < from ==> Wrong(evs, from, from + k * MINUTE) == 0
    ensures k >= 1 ==> Wrong(evs, from, from + k * MINUTE) <= k * PerMinute(c) + Rest(c)
    ensures k == 0 ==> Wrong(evs, from, from + k * MINUTE) == 0
    ensures from <= w.now < from + k * MINUTE ==>
      var m := MinuteOf(from, w.now);
      Wrong(evs, from, from + k * MINUTE) + LoginLeft(w, from + m * MINUTE, c)
        <= m * PerMinute(c) + Rest(c)
    decreases |evs|
  {
    hide Gain, PerMinute, Rest, LoginLeft;
    PositiveRate(c);
    Scale(0, k, PerMinute(c));
    if evs == [] {
      if from <= w.now {
        var m := MinuteOf(from, w.now);
        MinuteBounds(from, w.now);
        Scale(1, m, PerMinute(c));
        NewMinute(w, from + m * MINUTE, from + m * MINUTE, c);
      }
    } else {
      var before, e := evs[..|evs| - 1], evs[|evs| - 1];
      var u := After(v, before, REFUSES_LOGIN, ENDS_LOGIN);
      LoginBudget(v, before, c, u, from, k);
      if from <= e.t < from + k * MINUTE {
        MinuteBounds(from, e.t);
        var m := MinuteOf(from, e.t);
        assert e in evs;
        LoginAdvance(before, u, from, k, m, c);
        LoginStep(u, e, from + m * MINUTE, c);
        LoginLeftPositive(w, from + m * MINUTE, c);
        Scale(m, k, PerMinute(c));
      }
    }
  }

  lemma PositiveRate(c: int)
    requires c >= 1
    ensures PerMinute(c) >= MAX_LOGIN_FAILS
  {
  }

  lemma LoginLeftPositive(v: LoginRun, end: int, c: int)
    requires c >= 1 && 0 <= v.limiter.fails < MAX_LOGIN_FAILS && 0 <= v.inFlight <= c
    ensures LoginLeft(v, end, c) >= 0
  {
    GainAtMost(v.inFlight, v.limiter.fails, Rest(c));
  }

  /** The budget at the start of the minute `m` of the next event. */
  lemma LoginAdvance(before: seq<Event>, u: LoginRun, from: int, k: nat, m: int, c: int)
    requires c >= 1 && 0 <= u.limiter.fails < MAX_LOGIN_FAILS && 0 <= u.inFlight <= c && m >= 1
    requires u.now < from ==> Wrong(before, from, from + k * MINUTE) == 0
    requires from <= u.now ==>
      && MinuteOf(from, u.now) <= m
      && Wrong(before, from, from + k * MINUTE) + LoginLeft(u, from + MinuteOf(from, u.now) * MINUTE, c)
           <= MinuteOf(from, u.now) * PerMinute(c) + Rest(c)
    ensures Wrong(before, from, from + k * MINUTE) + LoginLeft(u, from + m * MINUTE, c)
              <= m * PerMinute(c) + Rest(c)
  {
    hide Gain, PerMinute, Rest, LoginLeft, Wrong;
    PositiveRate(c);
    if u.now < from {
      NewMinute(u, from + m * MINUTE, from + m * MINUTE, c);
      Scale(1, m, PerMinute(c));
    } else {
      var n := MinuteOf(from, u.now);
      NewMinute(u, from + n * MINUTE, from + m * MINUTE, c);
      Scale(n, m, PerMinute(c));
    }
  }

  /** In any k minutes without a success, with at most c logins in flight at once, at most
      k * PerMinute(c) + Rest(c) wrong passwords are evaluated, from any state a manager can
      be in: 7 + c in one minute, 8k + c - 1 in k for up to eight at once, 8k one at a time. */
  lemma {:induction false} LoginRate(v: LoginRun, evs: seq<Event>, c: int, w: LoginRun, from: int, k: nat)
    requires Run(v, evs, c, w, REFUSES_LOGIN, ENDS_LOGIN) && c >= 1
    requires 0 <= v.limiter.fails < MAX_LOGIN_FAILS
    requires NoSuccess(evs, from, from + k * MINUTE)
    ensures Wrong(evs, from, from + k * MINUTE) <= if k == 0 then 0 else k * PerMinute(c) + Rest(c)
    ensures k == 1 ==> Wrong(evs, from, from + MINUTE) <= MAX_LOGIN_FAILS - 1 + c
    ensures k >= 1 && c <= MAX_LOGIN_FAILS ==>
      Wrong(evs, from, from + k * MINUTE) <= k * MAX_LOGIN_FAILS + c - 1
  {
    LoginBudget(v, evs, c, w, from, k);
    if c <= MAX_LOGIN_FAILS {
      assert PerMinute(c) == MAX_LOGIN_FAILS && Rest(c) == c - 1;
    }
  }

  /** A login that no other overlaps is two events, or one if it is refused. */
  lemma LoginIsTwoEvents(s: Login, now: int, a: int, b: int, right: bool)
    ensures var evs := if LockedOut(s, a) then [Ask(a)] else [Ask(a), End(b, right)];
      var w := After(World(s, 0, now), evs, REFUSES_LOGIN, ENDS_LOGIN);
      && w.limiter == (if LockedOut(s, a) then s else Recorded(s, b, right)) && w.inFlight == 0
      && (now <= a <= b ==> Run(World(s, 0, now), evs, 1, w, REFUSES_LOGIN, ENDS_LOGIN))
  {
    var v := World(s, 0, now);
    Snoc(v, [], Ask(a), 1, REFUSES_LOGIN, ENDS_LOGIN);
    Snoc(v, [] + [Ask(a)], End(b, right), 1, REFUSES_LOGIN, ENDS_LOGIN);
    assert [] + [Ask(a)] == [Ask(a)] && [Ask(a)] + [End(b, right)] == [Ask(a), End(b, right)];
  }

  // -------------------------------------------------------- device-key bound

  type KeyRun = World<LockState>

  const REFUSES_KEY := (s: LockState, t: int) => Refused(s, t)
  const ENDS_KEY := (s: LockState, t: int, ok: bool) => Judged(s, t, ok)

  /** Failures an identity still has before it is first locked out. */
  function Spare(s: LockState): int { if s.n < MAX_AUTH_FAILS then MAX_AUTH_FAILS - 1 - s.n else 0 }

  /** Further failures that can be judged before `end`, beyond the spare ones. */
  function KeysLeft(v: KeyRun, end: int, c: int): int {
    if v.limiter.n >= MAX_AUTH_FAILS && v.limiter.till >= end then v.inFlight else c
  }

  lemma KeyStep(v: KeyRun, e: Event, end: int, c: int)
    requires 0 <= v.limiter.n && 0 <= v.inFlight <= c
    requires end - MINUTE <= e.t < end
    requires e.End? ==> !e.ok
    requires 0 <= Next(v, e, REFUSES_KEY, ENDS_KEY).inFlight <= c
    ensures var w := Next(v, e, REFUSES_KEY, ENDS_KEY);
      Spare(w.limiter) + KeysLeft(w, end, c) + (if e.End? then 1 else 0)
        <= Spare(v.limiter) + KeysLeft(v, end, c)
  {
  }

  lemma {:induction false} KeyBudget(v: KeyRun, evs: seq<Event>, c: int, w: KeyRun, from: int, k: nat)
    requires Run(v, evs, c, w, REFUSES_KEY, ENDS_KEY) && c >= 1
    requires 0 <= v.limiter.n
    requires NoSuccess(evs, from, from + k * MINUTE)
    ensures 0 <= w.limiter.n
    ensures w.now < from ==> Wrong(evs, from, from + k * MINUTE) == 0
    ensures Wrong(evs, from, from + k * MINUTE) <= MAX_AUTH_FAILS - 1 + k * c
    ensures from <= w.now < from + k * MINUTE ==>
      var m := MinuteOf(from, w.now);
      Wrong(evs, from, from + k * MINUTE) + Spare(w.limiter) + KeysLeft(w, from + m * MINUTE, c)
        <= MAX_AUTH_FAILS - 1 + m * c
    decreases |evs|
  {
    Scale(0, k, c);
    if evs == [] {
      if from <= w.now {
        MinuteBounds(from, w.now);
        Scale(1, MinuteOf(from, w.now), c);
      }
    } else {
      var before, e := evs[..|evs| - 1], evs[|evs| - 1];
      var u := After(v, before, REFUSES_KEY, ENDS_KEY);
      KeyBudget(v, before, c, u, from, k);
      if from <= e.t < from + k * MINUTE {
        MinuteBounds(from, e.t);
        var m := MinuteOf(from, e.t);
        if from <= u.now {
          MinuteBounds(from, u.now);
          Scale(MinuteOf(from, u.now), m, c);
        } else {
          Scale(0, m, c);
        }
        assert e in evs;
        KeyStep(u, e, from + m * MINUTE, c);
        Scale(m, k, c);
      }
    }
  }

  /** In any k minutes without a success at most 4 + k * c failed attempts of an identity
      are judged when at most c are in flight at once: one at a time, at most 5 in the
      first minute and one more in each further one. */
  lemma KeyRate(v: KeyRun, evs: seq<Event>, c: int, w: KeyRun, from: int, k: nat)
    requires Run(v, evs, c, w, REFUSES_KEY, ENDS_KEY) && c >= 1
    requires 0 <= v.limiter.n
    requires NoSuccess(evs, from, from + k * MINUTE)
    ensures Wrong(evs, from, from + k * MINUTE) <= MAX_AUTH_FAILS - 1 + k * c
    ensures c == 1 && k == 1 ==> Wrong(evs, from, from + MINUTE) <= MAX_AUTH_FAILS
  {
    KeyBudget(v, evs, c, w, from, k);
  }

  /** An authDevice call that no other of its identity overlaps. */
  lemma KeyIsTwoEvents(s: LockState, now: int, a: int, b: int, known: bool)
    ensures var evs := if Refused(s, a) then [Ask(a)] else [Ask(a), End(b, known)];
      var w := After(World(s, 0, now), evs, REFUSES_KEY, ENDS_KEY);
      && w.limiter == (if Refused(s, a) then s else Judged(s, b, known)) && w.inFlight == 0
      && (now <= a <= b ==> Run(World(s, 0, now), evs, 1, w, REFUSES_KEY, ENDS_KEY))
  {
    var v := World(s, 0, now);
    Snoc(v, [], Ask(a), 1, REFUSES_KEY, ENDS_KEY);
    Snoc(v, [] + [Ask(a)], End(b, known), 1, REFUSES_KEY, ENDS_KEY);
    assert [] + [Ask(a)] == [Ask(a)] && [Ask(a)] + [End(b, known)] == [Ask(a), End(b, known)];
  }

  // ------------------------------------------------------ the bounds are met

  function Asks(n: nat, t: int): seq<Event> { if n == 0 then [] else Asks(n - 1, t) + [Ask(t)] }

  function Ends(n: nat, t: int): seq<Event> { if n == 0 then [] else Ends(n - 1, t) + [End(t, false)] }

  /** Wrong guesses one after the other. */
  function Guesses(n: nat, t: int): seq<Event> {
    if n == 0 then [] else Guesses(n - 1, t) + [Ask(t)] + [End(t, false)]
  }

  /** `g` guesses one after the other, and then `c` at once. */
  function Round(g: nat, c: nat, t: int): seq<Event> { Guesses(g, t) + (Asks(c, t) + Ends(c, t)) }

  /** All at time `t`, none a success, `n` of them wrong. */
  ghost predicate Counts(evs: seq<Event>, t: int, n: nat) {
    && (forall e :: e in evs ==> e.t == t && (e.End? ==> !e.ok))
    && forall from, to :: from <= t < to ==> Wrong(evs, from, to) == n
  }

  lemma {:induction false} WrongConcat(a: seq<Event>, b: seq<Event>, from: int, to: int)
    ensures Wrong(a + b, from, to) == Wrong(a, from, to) + Wrong(b, from, to)
    decreases |b|
  {
    if b == [] {
      assert a + b == a;
    } else {
      assert (a + b)[..|a + b| - 1] == a + b[..|b| - 1];
      WrongConcat(a, b[..|b| - 1], from, to);
    }
  }

  lemma CountsConcat(a: seq<Event>, b: seq<Event>, t: int, m: nat, n: nat)
    requires Counts(a, t, m) && Counts(b, t, n)
    ensures Counts(a + b, t, m + n)
  {
    forall from, to | from <= t < to ensures Wrong(a + b, from, to) == m + n {
      WrongConcat(a, b, from, to);
      assert Wrong(a, from, to) == m && Wrong(b, from, to) == n;
    }
  }

  lemma CountsOne(t: int)
    ensures Counts([Ask(t)], t, 0) && Counts([End(t, false)], t, 1) && Counts([], t, 0)
  {
    assert [Ask(t)][..0] == [] && [End(t, false)][..0] == [];
  }

  lemma {:induction false} RoundCounts(g: nat, c: nat, t: int)
    ensures Counts(Guesses(g, t), t, g) && Counts(Asks(c, t), t, 0) && Counts(Ends(c, t), t, c)
    ensures Counts(Round(g, c, t), t, g + c)
    decreases g + c
  {
    hide Counts;
    CountsOne(t);
    if g > 0 {
      RoundCounts(g - 1, c, t);
      CountsConcat(Guesses(g - 1, t), [Ask(t)], t, g - 1, 0);
      CountsConcat(Guesses(g - 1, t) + [Ask(t)], [End(t, false)], t, g - 1, 1);
    } else if c > 0 {
      RoundCounts(0, c - 1, t);
      CountsConcat(Asks(c - 1, t), [Ask(t)], t, 0, 0);
      CountsConcat(Ends(c - 1, t), [End(t, false)], t, c - 1, 1);
    }
    CountsConcat(Asks(c, t), Ends(c, t), t, 0, c);
    CountsConcat(Guesses(g, t), Asks(c, t) + Ends(c, t), t, g, c);
  }

  lemma {:induction false} RunConcat<S>(v: World<S>, a: seq<Event>, u: World<S>, b: seq<Event>, w: World<S>, c: int,
                                        refuses: (S, int) -> bool, ends: (S, int, bool) -> S)
    requires Run(v, a, c, u, refuses, ends) && Run(u, b, c, w, refuses, ends)
    ensures Run(v, a + b, c, w, refuses, ends) && After(v, a, refuses, ends) == u
    decreases |b|
  {
    RunIsAfter(v, a, c, u, refuses, ends);
    if b == [] {
      assert a + b == a;
    } else {
      var init, e := b[..|b| - 1], b[|b| - 1];
      var x := After(u, init, refuses, ends);
      RunConcat(v, a, u, init, x, c, refuses, ends);
      RunIsAfter(v, a + init, c, x, refuses, ends);
      assert (a + b)[..|a + b| - 1] == a + init;
    }
  }

  lemma RunIsAfter<S>(v: World<S>, evs: seq<Event>, c: int, w: World<S>,
                      refuses: (S, int) -> bool, ends: (S, int, bool) -> S)
    requires Run(v, evs, c, w, refuses, ends)
    ensures After(v, evs, refuses, ends) == w && 0 <= w.inFlight <= c
  {
  }

  lemma {:induction false} AsksRun<S>(v: World<S>, n: nat, t: int, c: int,
                                      refuses: (S, int) -> bool, ends: (S, int, bool) -> S)
    requires v.inFlight >= 0 && v.inFlight + n <= c && v.now <= t && !refuses(v.limiter, t)
    ensures Run(v, Asks(n, t), c, World(v.limiter, v.inFlight + n, if n == 0 then v.now else t), refuses, ends)
    decreases n
  {
    if n > 0 {
      AsksRun(v, n - 1, t, c, refuses, ends);
      RunIsAfter(v, Asks(n - 1, t), c, World(v.limiter, v.inFlight + n - 1, if n == 1 then v.now else t),
                 refuses, ends);
      Snoc(v, Asks(n - 1, t), Ask(t), c, refuses, ends);
    }
  }

  /** A limiter after `n` attempts that fail at `t`. */
  function Ended<S>(s: S, n: nat, t: int, ends: (S, int, bool) -> S): S {
    if n == 0 then s else ends(Ended(s, n - 1, t, ends), t, false)
  }

  lemma {:induction false} EndsRun<S>(v: World<S>, n: nat, t: int, c: int,
                                      refuses: (S, int) -> bool, ends: (S, int, bool) -> S)
    requires n <= v.inFlight <= c && v.now <= t
    ensures Run(v, Ends(n, t), c, World(Ended(v.limiter, n, t, ends), v.inFlight - n, if n == 0 then v.now else t),
                refuses, ends)
    decreases n
  {
    if n > 0 {
      EndsRun(v, n - 1, t, c, refuses, ends);
      var u := World(Ended(v.limiter, n - 1, t, ends), v.inFlight - n + 1, if n == 1 then v.now else t);
      RunIsAfter(v, Ends(n - 1, t), c, u, refuses, ends);
      Snoc(v, Ends(n - 1, t), End(t, false), c, refuses, ends);
    }
  }

  /** Guesses get through as long as none of them locks the limiter. */
  lemma {:induction false} GuessesRun<S>(v: World<S>, n: nat, t: int, c: int,
                                         refuses: (S, int) -> bool, ends: (S, int, bool) -> S)
    requires v.inFlight == 0 && c >= 1 && v.now <= t
    requires forall i :: 0 <= i < n ==> !refuses(Ended(v.limiter, i, t, ends), t)
    ensures Run(v, Guesses(n, t), c, World(Ended(v.limiter, n, t, ends), 0, if n == 0 then v.now else t),
                refuses, ends)
    decreases n
  {
    if n > 0 {
      GuessesRun(v, n - 1, t, c, refuses, ends);
      var before := Guesses(n - 1, t);
      var u := World(Ended(v.limiter, n - 1, t, ends), 0, if n == 1 then v.now else t);
      RunIsAfter(v, before, c, u, refuses, ends);
      Snoc(v, before, Ask(t), c, refuses, ends);
      Snoc(v, before + [Ask(t)], End(t, false), c, refuses, ends);
    }
  }

  /** A whole round gets through if the guesses leave the limiter open. */
  lemma RoundRun<S>(v: World<S>, g: nat, c: nat, t: int, refuses: (S, int) -> bool, ends: (S, int, bool) -> S)
    requires v.inFlight == 0 && c >= 1 && v.now <= t
    requires forall i :: 0 <= i <= g ==> !refuses(Ended(v.limiter, i, t, ends), t)
    ensures Run(v, Round(g, c, t), c, World(Ended(Ended(v.limiter, g, t, ends), c, t, ends), 0, t), refuses, ends)
  {
    hide Run;
    GuessesRun(v, g, t, c, refuses, ends);
    var u := World(Ended(v.limiter, g, t, ends), 0, if g == 0 then v.now else t);
    AsksRun(u, c, t, c, refuses, ends);
    var x := World(u.limiter, c, t);
    EndsRun(x, c, t, c, refuses, ends);
    var w := World(Ended(u.limiter, c, t, ends), 0, t);
    RunConcat(u, Asks(c, t), x, Ends(c, t), w, c, refuses, ends);
    RunConcat(v, Guesses(g, t), u, Asks(c, t) + Ends(c, t), w, c, refuses, ends);
  }

  /** Rounds a minute apart, the first with `first` guesses, the others with `later`. */
  function Rounds(k: nat, first: nat, later: nat, c: nat, t: int): seq<Event> {
    if k == 0 then []
    else Rounds(k - 1, first, later, c, t) + Round(if k == 1 then first else later, c, t + (k - 1) * MINUTE)
  }

  lemma {:induction false} RoundsCount(k: nat, first: nat, later: nat, c: nat, t: int, n: nat)
    requires k <= n
    ensures Wrong(Rounds(k, first, later, c, t), t, t + n * MINUTE) ==
            if k == 0 then 0 else first + c + (k - 1) * (later + c)
    ensures NoSuccess(Rounds(k, first, later, c, t), t, t + n * MINUTE)
    decreases k
  {
    hide Round;
    if k > 0 {
      var at, g := t + (k - 1) * MINUTE, if k == 1 then first else later;
      RoundsCount(k - 1, first, later, c, t, n);
      RoundCounts(g, c, at);
      WrongConcat(Rounds(k - 1, first, later, c, t), Round(g, c, at), t, t + n * MINUTE);
      assert Wrong(Round(g, c, at), t, t + n * MINUTE) == g + c;
      if k > 1 {
        assert (k - 1) * (later + c) == (k - 2) * (later + c) + (later + c);
      }
    }
  }

  lemma {:induction false} LoginEnded(s: Login, n: nat, t: int)
    requires 0 <= s.fails < MAX_LOGIN_FAILS
    ensures var r := Ended(s, n, t, ENDS_LOGIN);
      && r.fails == (s.fails + n) % MAX_LOGIN_FAILS
      && r.lockUntil == (if s.fails + n < MAX_LOGIN_FAILS then s.lockUntil else t + MINUTE)
    decreases n
  {
    if n > 0 {
      LoginEnded(s, n - 1, t);
    }
  }

  lemma LoginRound(u: LoginRun, g: nat, c: nat, t: int) returns (w: LoginRun)
    requires c >= 1 && u.inFlight == 0 && u.now <= t && u.limiter.lockUntil <= t
    requires 0 <= u.limiter.fails && u.limiter.fails + g == MAX_LOGIN_FAILS - 1
    ensures Run(u, Round(g, c, t), c, w, REFUSES_LOGIN, ENDS_LOGIN)
    ensures w.inFlight == 0 && w.now == t
    ensures w.limiter.fails == Rest(c) && w.limiter.lockUntil == t + MINUTE
  {
    hide Run, Round, Ended;
    forall i: nat | i <= g ensures !REFUSES_LOGIN(Ended(u.limiter, i, t, ENDS_LOGIN), t) {
      LoginEnded(u.limiter, i, t);
    }
    RoundRun(u, g, c, t, REFUSES_LOGIN, ENDS_LOGIN);
    LoginEnded(u.limiter, g, t);
    LoginEnded(Ended(u.limiter, g, t, ENDS_LOGIN), c, t);
    w := World(Ended(Ended(u.limiter, g, t, ENDS_LOGIN), c, t, ENDS_LOGIN), 0, t);
  }

  /** The login bound is met, for every number of logins at once and of minutes. */
  lemma {:induction false} LoginBoundIsMet(k: nat, c: nat, t: nat) returns (w: LoginRun)
    requires c >= 1
    ensures var evs := Rounds(k, MAX_LOGIN_FAILS - 1, MAX_LOGIN_FAILS - 1 - Rest(c), c, t);
      && Run(World(Login(0, 0), 0, 0), evs, c, w, REFUSES_LOGIN, ENDS_LOGIN)
      && NoSuccess(evs, t, t + k * MINUTE)
      && (k >= 1 ==> Wrong(evs, t, t + k * MINUTE) == k * PerMinute(c) + Rest(c))
    ensures w.inFlight == 0 && w.limiter.fails == if k == 0 then 0 else Rest(c)
    ensures k >= 1 ==> w.now == t + (k - 1) * MINUTE && w.limiter.lockUntil == t + k * MINUTE
    ensures k == 0 ==> w.now == 0 && w.limiter.lockUntil == 0
    decreases k
  {
    hide Run, Round, PerMinute, Wrong, NoSuccess;
    var v := World(Login(0, 0), 0, 0);
    var first, later := MAX_LOGIN_FAILS - 1, MAX_LOGIN_FAILS - 1 - Rest(c);
    RoundsCount(k, first, later, c, t, k);
    if k == 0 {
      w := v;
      NoRun(v, c);
    } else {
      var u := LoginBoundIsMet(k - 1, c, t);
      var at, g := t + (k - 1) * MINUTE, if k == 1 then first else later;
      w := LoginRound(u, g, c, at);
      RunConcat(v, Rounds(k - 1, first, later, c, t), u, Round(g, c, at), w, c, REFUSES_LOGIN, ENDS_LOGIN);
      MetTotal(k, c);
    }
  }

  lemma NoRun(v: LoginRun, c: nat)
    requires v.inFlight == 0
    ensures Run(v, [], c, v, REFUSES_LOGIN, ENDS_LOGIN)
  {
  }

  lemma MetTotal(k: nat, c: nat)
    requires c >= 1 && k >= 1
    ensures MAX_LOGIN_FAILS - 1 + c + (k - 1) * (MAX_LOGIN_FAILS - 1 - Rest(c) + c) == k * PerMinute(c) + Rest(c)
  {
    var p := PerMinute(c);
    assert MAX_LOGIN_FAILS - 1 - Rest(c) + c == p;
    assert (k - 1) * p + p == k * p;
  }

  lemma {:induction false} KeyEnded(s: LockState, n: nat, t: int)
    ensures Ended(s, n, t, ENDS_KEY) == if n == 0 then s else LockState(s.n + n, t + MINUTE)
    decreases n
  {
    if n > 0 {
      KeyEnded(s, n - 1, t);
    }
  }

  lemma KeyRound(u: KeyRun, g: nat, c: nat, t: int) returns (w: KeyRun)
    requires c >= 1 && u.inFlight == 0 && u.now <= t && u.limiter.till <= t
    requires g == 0 || u.limiter.n + g < MAX_AUTH_FAILS
    ensures Run(u, Round(g, c, t), c, w, REFUSES_KEY, ENDS_KEY)
    ensures w == World(LockState(u.limiter.n + g + c, t + MINUTE), 0, t)
  {
    hide Run, Round, Ended;
    forall i: nat | i <= g ensures !REFUSES_KEY(Ended(u.limiter, i, t, ENDS_KEY), t) {
      KeyEnded(u.limiter, i, t);
    }
    RoundRun(u, g, c, t, REFUSES_KEY, ENDS_KEY);
    KeyEnded(u.limiter, g, t);
    KeyEnded(Ended(u.limiter, g, t, ENDS_KEY), c, t);
    w := World(Ended(Ended(u.limiter, g, t, ENDS_KEY), c, t, ENDS_KEY), 0, t);
  }

  lemma NoKeyRun(v: KeyRun, c: nat)
    requires v.inFlight == 0
    ensures Run(v, [], c, v, REFUSES_KEY, ENDS_KEY)
  {
  }

  /** The key bound is met too. */
  lemma {:induction false} KeyBoundIsMet(k: nat, c: nat, t: nat) returns (w: KeyRun)
    requires c >= 1
    ensures var evs := Rounds(k, MAX_AUTH_FAILS - 1, 0, c, t);
      && Run(World(LockState(0, 0), 0, 0), evs, c, w, REFUSES_KEY, ENDS_KEY)
      && NoSuccess(evs, t, t + k * MINUTE)
      && (k >= 1 ==> Wrong(evs, t, t + k * MINUTE) == MAX_AUTH_FAILS - 1 + k * c)
    ensures w.inFlight == 0 && (k == 0 ==> w == World(LockState(0, 0), 0, 0))
    ensures k >= 1 ==> w.now == t + (k - 1) * MINUTE && w.limiter.till == t + k * MINUTE
    decreases k
  {
    hide Run, Round, Wrong, NoSuccess;
    var v := World(LockState(0, 0), 0, 0);
    RoundsCount(k, MAX_AUTH_FAILS - 1, 0, c, t, k);
    if k == 0 {
      w := v;
      NoKeyRun(v, c);
    } else {
      var u := KeyBoundIsMet(k - 1, c, t);
      var at, g := t + (k - 1) * MINUTE, if k == 1 then MAX_AUTH_FAILS - 1 else 0;
      w := KeyRound(u, g, c, at);
      RunConcat(v, Rounds(k - 1, MAX_AUTH_FAILS - 1, 0, c, t), u, Round(g, c, at), w, c, REFUSES_KEY, ENDS_KEY);
      assert (k - 1) * (0 + c) + c == k * c;
    }
  }
}
