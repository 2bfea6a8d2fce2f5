/** The transport recovery layer (src/ups/ups.c:69-159, 233-371, 418-474).
    Each dispatcher modelled here takes the command mutex, so it is one step; what is
    reached without it is the subject of Lifetime.  The driver's answers and the clock
    are inputs; the driver calls that matter for a handle's life are recorded in a trace. */
module Transport {
  import opened Options

  const MAX_CONSECUTIVE_ERRORS: nat := 5
  const RECONNECT_INTERVAL_SEC: int := 2

  /** Handles are numbered in the order the driver returns them. */
  datatype Call = Connect(h: nat) | Use(h: nat) | Disconnect(h: nat)

  /** What the driver and the clock answer during one operation: whether a
      connect would succeed, whether detect would accept, whether the call succeeds. */
  datatype Env = Env(now: int, connects: bool, detects: bool, ok: bool)

  datatype Attempt = Attempt(outage: nat, time: int)

  datatype Link = Link(transport: Option<nat>, errors: nat, lastAttempt: int, issued: nat, trace: seq<Call>,
                       counted: seq<bool>, outage: nat, attempts: seq<Attempt>)

  datatype Reply = Ok | DriverError | NoTransport

  // --- The steps ---

  function TryReconnect(s: Link, env: Env): Link {
    if s.transport.Some? then s
    else if env.now - s.lastAttempt < RECONNECT_INTERVAL_SEC then s
    else
      var s1 := s.(lastAttempt := env.now, attempts := s.attempts + [Attempt(s.outage, env.now)]);
      var h := s.issued;
      if !env.connects then s1
      else if !env.detects then s1.(issued := h + 1, trace := s.trace + [Connect(h), Use(h), Disconnect(h)])
      else s1.(issued := h + 1, trace := s.trace + [Connect(h), Use(h), Use(h)], transport := Some(h), errors := 0)
  }

  function HandleError(s: Link): Link {
    var s1 := s.(errors := s.errors + 1);
    if s1.errors >= MAX_CONSECUTIVE_ERRORS then
      s1.(transport := None, lastAttempt := 0, outage := s.outage + 1,
          trace := if s.transport.Some? then s.trace + [Disconnect(s.transport.value)] else s.trace)
    else s1
  }

  /** Status, dynamic, transfer-reason and config reads: failures are counted. */
  function CountedRead(s: Link, env: Env): (Link, Reply) {
    var s1 := TryReconnect(s, env);
    if s1.transport.None? then (s1, NoTransport)
    else
      var s2 := s1.(trace := s1.trace + [Use(s1.transport.value)], counted := s1.counted + [env.ok]);
      if env.ok then (s2.(errors := 0), Ok) else (HandleError(s2), DriverError)
  }

  /** Inventory, thresholds, commands and config writes: failures are not counted. */
  function PlainCall(s: Link, env: Env): (Link, Reply) {
    var s1 := TryReconnect(s, env);
    if s1.transport.None? then (s1, NoTransport)
    else (s1.(trace := s1.trace + [Use(s1.transport.value)]), if env.ok then Ok else DriverError)
  }

  /** ups_close disconnects the handle, if there is one. */
  function Close(s: Link): seq<Call> {
    if s.transport.Some? then s.trace + [Disconnect(s.transport.value)] else s.trace
  }

  // --- Lives of handles ---

  function Live(t: Option<nat>): set<nat> { if t.Some? then {t.value} else {} }

  datatype Census = Census(count: nat, live: set<nat>)

  /** The handles open after a trace, or nothing if the trace opens a handle
      out of turn, or uses or closes one that is not open. */
  function Replay(trace: seq<Call>): Option<Census> {
    if trace == [] then Some(Census(0, {}))
    else
      match Replay(trace[..|trace| - 1])
      case None => None
      case Some(Census(n, live)) =>
        match trace[|trace| - 1]
        case Connect(h) => if h == n then Some(Census(n + 1, live + {h})) else None
        case Use(h) => if h in live then Some(Census(n, live)) else None
        case Disconnect(h) => if h in live then Some(Census(n, live - {h})) else None
  }

  function Disconnects(trace: seq<Call>, h: nat): nat {
    if trace == [] then 0
    else Disconnects(trace[..|trace| - 1], h) + if trace[|trace| - 1] == Disconnect(h) then 1 else 0
  }

  function Connects(trace: seq<Call>, h: nat): nat {
    if trace == [] then 0 else Connects(trace[..|trace| - 1], h) + if trace[|trace| - 1] == Connect(h) then 1 else 0
  }

  lemma ReplayFresh(trace: seq<Call>)
    requires Replay(trace).Some?
    ensures forall h <- Replay(trace).value.live :: h < Replay(trace).value.count
  {
    if trace != [] { ReplayFresh(trace[..|trace| - 1]); }
  }

  /** A trace that replays opens each handle once and closes it once, unless it is still open. */
  lemma {:induction false} OpenedAndClosedOnce(trace: seq<Call>, h: nat)
    requires Replay(trace).Some?
    ensures var Census(n, live) := Replay(trace).value;
            && Connects(trace, h) == (if h < n then 1 else 0)
            && Disconnects(trace, h) == (if h < n && h !in live then 1 else 0)
  {
    if trace != [] {
      OpenedAndClosedOnce(trace[..|trace| - 1], h);
      ReplayFresh(trace[..|trace| - 1]);
    }
  }

  /** ... and no call touches a handle after its disconnect. */
  lemma {:induction false} NeverAfterDisconnect(trace: seq<Call>, i: nat, j: nat)
    requires Replay(trace).Some? && i < j < |trace| && trace[i].Disconnect?
    ensures trace[j].h != trace[i].h
  {
    var init := trace[..|trace| - 1];
    if j < |init| {
      NeverAfterDisconnect(init, i, j);
    } else {
      GoneStaysGone(init, i);
    }
  }

  lemma {:induction false} GoneStaysGone(trace: seq<Call>, i: nat)
    requires Replay(trace).Some? && i < |trace| && trace[i].Disconnect?
    ensures trace[i].h !in Replay(trace).value.live && trace[i].h < Replay(trace).value.count
  {
    var init := trace[..|trace| - 1];
    ReplayFresh(init);
    if i < |init| {
      GoneStaysGone(init, i);
    }
  }

  // --- The invariant ---

  ghost predicate Spaced(attempts: seq<Attempt>) {
    forall i, j :: 0 <= i < j < |attempts| && attempts[i].outage == attempts[j].outage ==>
      attempts[j].time - attempts[i].time >= RECONNECT_INTERVAL_SEC
  }

  /** The last `n` counted reads all failed. */
  ghost predicate FailedLast(counted: seq<bool>, n: nat) {
    n <= |counted| && forall i :: |counted| - n <= i < |counted| ==> !counted[i]
  }

  ghost predicate Inv(s: Link) {
    && s.errors <= MAX_CONSECUTIVE_ERRORS
    && (s.transport.None? <==> s.errors == MAX_CONSECUTIVE_ERRORS)
    && Replay(s.trace) == Some(Census(s.issued, Live(s.transport)))
    && FailedLast(s.counted, s.errors)
    && Spaced(s.attempts)
    && (forall i :: 0 <= i < |s.attempts| ==> s.attempts[i].outage <= s.outage)
    && (forall i :: 0 <= i < |s.attempts| && s.attempts[i].outage == s.outage ==> s.attempts[i].time <= s.lastAttempt)
  }

  lemma ReplaySnoc(trace: seq<Call>, c: Call)
    ensures (trace + [c])[..|trace|] == trace
  {}

  lemma ReplayConnect(trace: seq<Call>, n: nat)
    requires Replay(trace) == Some(Census(n, {}))
    ensures Replay(trace + [Connect(n), Use(n), Use(n)]) == Some(Census(n + 1, {n}))
    ensures Replay(trace + [Connect(n), Use(n), Disconnect(n)]) == Some(Census(n + 1, {}))
  {
    var t1, t2 := trace + [Connect(n)], trace + [Connect(n)] + [Use(n)];
    ReplaySnoc(trace, Connect(n));
    ReplaySnoc(t1, Use(n));
    ReplaySnoc(t2, Use(n));
    ReplaySnoc(t2, Disconnect(n));
    assert trace + [Connect(n), Use(n), Use(n)] == t2 + [Use(n)];
    assert trace + [Connect(n), Use(n), Disconnect(n)] == t2 + [Disconnect(n)];
    assert {} + {n} == {n} && {n} - {n} == {};
    assert Replay(t1) == Some(Census(n + 1, {n})) && Replay(t2) == Some(Census(n + 1, {n}));
  }

  lemma ReconnectInv(s: Link, env: Env)
    requires Inv(s)
    ensures Inv(TryReconnect(s, env))
  {
    if s.transport.None? && env.now - s.lastAttempt >= RECONNECT_INTERVAL_SEC && env.connects {
      ReplayConnect(s.trace, s.issued);
    }
  }

  lemma {:induction false} CountedReadInv(s: Link, env: Env)
    requires Inv(s)
    ensures Inv(CountedRead(s, env).0)
  {
    ReconnectInv(s, env);
    var s1 := TryReconnect(s, env);
    if s1.transport.Some? {
      var h := s1.transport.value;
      ReplaySnoc(s1.trace, Use(h));
      ReplaySnoc(s1.trace + [Use(h)], Disconnect(h));
      assert {h} - {h} == {};
    }
  }

  lemma {:induction false} PlainCallInv(s: Link, env: Env)
    requires Inv(s)
    ensures Inv(PlainCall(s, env).0)
  {
    ReconnectInv(s, env);
    var s1 := TryReconnect(s, env);
    if s1.transport.Some? {
      ReplaySnoc(s1.trace, Use(s1.transport.value));
    }
  }

  // --- Runs ---

  datatype Op = Read(env: Env) | Plain(env: Env)

  function Do(s: Link, op: Op): Link {
    match op case Read(env) => CountedRead(s, env).0 case Plain(env) => PlainCall(s, env).0
  }

  function Run(s: Link, ops: seq<Op>): Link {
    if ops == [] then s else Do(Run(s, ops[..|ops| - 1]), ops[|ops| - 1])
  }

  lemma {:induction false} RunInv(s: Link, ops: seq<Op>)
    requires Inv(s)
    ensures Inv(Run(s, ops))
  {
    if ops != [] {
      RunInv(s, ops[..|ops| - 1]);
      CountedReadInv(Run(s, ops[..|ops| - 1]), ops[|ops| - 1].env);
      PlainCallInv(Run(s, ops[..|ops| - 1]), ops[|ops| - 1].env);
    }
  }

  /** A link as ups_connect hands it over, with the trace of the search behind it. */
  function Connected(h: nat, trace: seq<Call>): Link {
    Link(Some(h), 0, 0, h + 1, trace, [], 0, [])
  }

  /** Before the close the transport is down exactly when five counted reads in
      a row have failed, and reconnect attempts of one outage are at least two
      seconds apart. */
  lemma {:induction false} OutagesAndAttempts(h0: nat, trace: seq<Call>, ops: seq<Op>)
    requires Replay(trace) == Some(Census(h0 + 1, {h0}))
    ensures var s := Run(Connected(h0, trace), ops);
            && s.errors <= MAX_CONSECUTIVE_ERRORS
            && (s.transport.None? <==> s.errors == MAX_CONSECUTIVE_ERRORS)
            && (s.transport.None? ==> FailedLast(s.counted, MAX_CONSECUTIVE_ERRORS))
            && Spaced(s.attempts)
  {
    RunInv(Connected(h0, trace), ops);
  }

  /** A reply is true: Ok for a driver call that succeeded, DriverError for one that
      failed, NoTransport when the driver was not called. */
  ghost predicate Truthful(s: Link, env: Env, after: Link, reply: Reply) {
    var up := TryReconnect(s, env);
    && (reply == Ok <==> up.transport.Some? && env.ok)
    && (reply == NoTransport <==> up.transport.None?)
    && (up.transport.Some? ==>
          after.trace == up.trace + [Use(up.transport.value)]
          || after.trace == up.trace + [Use(up.transport.value), Disconnect(up.transport.value)])
    && (up.transport.None? ==> after == up)
  }

  lemma RepliesAreTrue(s: Link, env: Env)
    ensures var (after, reply) := CountedRead(s, env); Truthful(s, env, after, reply)
    ensures var (after, reply) := PlainCall(s, env); Truthful(s, env, after, reply)
  {
  }

  /** When the current outage's last attempt was made; 0 before the first. */
  function LastTry(s: Link): int {
    var n := |s.attempts|;
    if n > 0 && s.attempts[n - 1].outage == s.outage then s.attempts[n - 1].time else 0
  }

  lemma {:induction false} LastTryIsKept(s: Link, op: Op)
    requires Inv(s) && (s.transport.None? ==> s.lastAttempt == LastTry(s))
    ensures var t := Do(s, op); t.transport.None? ==> t.lastAttempt == LastTry(t)
  {
    ReconnectInv(s, op.env);
  }

  lemma {:induction false} RunLastTry(s: Link, ops: seq<Op>)
    requires Inv(s) && s.transport.Some?
    ensures Run(s, ops).transport.None? ==> Run(s, ops).lastAttempt == LastTry(Run(s, ops))
  {
    if ops != [] {
      RunLastTry(s, ops[..|ops| - 1]);
      RunInv(s, ops[..|ops| - 1]);
      LastTryIsKept(Run(s, ops[..|ops| - 1]), ops[|ops| - 1]);
    }
  }

  /** In an outage every operation, counted or not, tries to reconnect exactly when two
      seconds have passed since the outage's last try, and the link is up again exactly
      when that try reaches a device that the driver accepts. */
  lemma {:induction false} RecoversExactlyWhenDue(h0: nat, trace: seq<Call>, ops: seq<Op>, op: Op)
    requires Replay(trace) == Some(Census(h0 + 1, {h0})) && Run(Connected(h0, trace), ops).transport.None?
    ensures var s := Run(Connected(h0, trace), ops);
            var t, due := Do(s, op), op.env.now - LastTry(s) >= RECONNECT_INTERVAL_SEC;
            && |t.attempts| == |s.attempts| + (if due then 1 else 0)
            && (t.transport.Some? <==> due && op.env.connects && op.env.detects)
  {
    RunLastTry(Connected(h0, trace), ops);
  }

  // --- In place ---

  /** The connected UPS, with the fields the source updates.  `issued` stands
      for the driver's allocator; the ghost fields are history. */
  class Ups {
    var transport: Option<nat>
    var consecutiveErrors: nat
    var lastReconnectAttempt: int
    var issued: nat
    ghost var past: Link

    ghost function View(): Link
      reads this
    {
      past.(transport := transport, errors := consecutiveErrors, lastAttempt := lastReconnectAttempt, issued := issued)
    }

    constructor (h: nat, ghost trace: seq<Call>)
      ensures View() == Connected(h, trace)
    {
      transport, consecutiveErrors, lastReconnectAttempt, issued := Some(h), 0, 0, h + 1;
      past := Connected(h, trace);
    }

    method Reconnect(env: Env)
      modifies this
      ensures View() == TryReconnect(old(View()), env)
    {
      if transport.Some? { return; }
      if env.now - lastReconnectAttempt < RECONNECT_INTERVAL_SEC { return; }
      lastReconnectAttempt := env.now;
      past := past.(attempts := past.attempts + [Attempt(past.outage, env.now)]);
      if !env.connects { return; }
      var h := issued;
      issued := issued + 1;
      if !env.detects {
        past := past.(trace := past.trace + [Connect(h), Use(h), Disconnect(h)]);
        return;
      }
      transport := Some(h);
      consecutiveErrors := 0;
      past := past.(trace := past.trace + [Connect(h), Use(h), Use(h)]);
    }

    method RecordError()
      modifies this
      ensures View() == HandleError(old(View()))
    {
      consecutiveErrors := consecutiveErrors + 1;
      if consecutiveErrors >= MAX_CONSECUTIVE_ERRORS {
        if transport.Some? {
          past := past.(trace := past.trace + [Disconnect(transport.value)]);
        }
        transport := None;
        lastReconnectAttempt := 0;
        past := past.(outage := past.outage + 1);
      }
    }

    /** A counted driver read. */
    method ReadDriver(env: Env) returns (rc: Reply)
      modifies this
      ensures (View(), rc) == CountedRead(old(View()), env)
    {
      if transport.None? { Reconnect(env); }
      if transport.None? { return NoTransport; }
      past := past.(trace := past.trace + [Use(transport.value)], counted := past.counted + [env.ok]);
      if env.ok {
        consecutiveErrors := 0;
        rc := Ok;
      } else {
        RecordError();
        rc := DriverError;
      }
    }

    method CallDriver(env: Env) returns (rc: Reply)
      modifies this
      ensures (View(), rc) == PlainCall(old(View()), env)
    {
      if transport.None? { Reconnect(env); }
      if transport.None? { return NoTransport; }
      past := past.(trace := past.trace + [Use(transport.value)]);
      rc := if env.ok then Ok else DriverError;
    }
  }

  // --- The initial search ---

  /** One registered driver and how the device answers it. */
  datatype Driver = Driver(matches: bool, callable: bool, connects: bool, detects: bool)

  datatype SearchResult = Found(driver: nat, h: nat) | NoDriver | IoError

  predicate Opens(d: Driver) { d.matches && d.callable && d.connects }
  predicate Claims(d: Driver) { Opens(d) && d.detects }

  /** The driver that should win: the first in registry order that connects and detects. */
  function FirstClaim(drivers: seq<Driver>): (k: nat)
    ensures k <= |drivers|
    ensures forall i :: 0 <= i < k ==> !Claims(drivers[i])
    ensures k < |drivers| ==> Claims(drivers[k])
  {
    if drivers == [] || Claims(drivers[0]) then 0 else 1 + FirstClaim(drivers[1..])
  }

  /** What is reported when no driver claims the device. */
  function Unclaimed(drivers: seq<Driver>): SearchResult {
    if (exists d <- drivers :: d.matches) && !(exists d <- drivers :: Opens(d)) then IoError else NoDriver
  }

  /** Tries the drivers in registry order.  The winner keeps its handle; every
      other handle opened on the way is closed again. */
  method FindDriver(drivers: seq<Driver>, allocates: bool) returns (r: SearchResult, ghost trace: seq<Call>)
    ensures r.Found? <==> allocates && FirstClaim(drivers) < |drivers|
    ensures r.Found? ==> r.driver == FirstClaim(drivers)
    ensures !r.Found? ==> r == if FirstClaim(drivers) < |drivers| then IoError else Unclaimed(drivers)
    ensures r == NoDriver && (exists d <- drivers :: d.matches) ==>
              exists d <- drivers :: d.matches && d.callable && d.connects && !d.detects
    ensures r == IoError && allocates ==>
              && (exists d <- drivers :: d.matches)
              && forall d <- drivers :: !(d.matches && d.callable && d.connects)
    ensures Replay(trace).Some? && Replay(trace).value.live == (if r.Found? then {r.h} else {})
    ensures r.Found? ==> Replay(trace).value.count == r.h + 1
  {
    trace := [];
    var anyMatched, anyConnected, h := false, false, 0;
    for i := 0 to |drivers|
      invariant forall j :: 0 <= j < i ==> !Claims(drivers[j])
      invariant anyMatched <==> exists j :: 0 <= j < i && drivers[j].matches
      invariant anyConnected <==> exists j :: 0 <= j < i && Opens(drivers[j])
      invariant Replay(trace) == Some(Census(h, {}))
    {
      var d := drivers[i];
      if d.matches {
        anyMatched := true;
        if d.callable && d.connects {
          anyConnected := true;
          ReplayConnect(trace, h);
          if d.detects {
            assert FirstClaim(drivers) == i;
            if !allocates {
              trace := trace + [Connect(h), Use(h), Disconnect(h)];
              return IoError, trace;
            }
            trace := trace + [Connect(h), Use(h), Use(h)];
            return Found(i, h), trace;
          }
          trace := trace + [Connect(h), Use(h), Disconnect(h)];
          h := h + 1;
        }
      }
    }
    assert anyMatched <==> exists d <- drivers :: d.matches;
    assert anyConnected <==> exists d <- drivers :: Opens(d);
    r := if !anyMatched then NoDriver else if !anyConnected then IoError else NoDriver;
  }
}
