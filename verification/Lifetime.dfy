/** What the daemon borrows from a UPS link (src/ups/ups.c:43-65, 151-183, 442-533).
    The dispatchers of Transport run under the command mutex.  Three things are
    reached outside it: a topology query loads the handle and then calls the driver
    with it; a register descriptor is found, looked at and only later handed to a
    locked access, while every reconnect replaces the table it points into; and the
    context itself is freed by ups_close, whoever still uses it. */
module Lifetime {
  import opened Options
  import opened Transport

  /** A topology query: the handle it loaded and the number of outages by then. */
  datatype Query = Query(handle: Option<nat>, outage: nat)

  /** The driver's optional parts: a topology function, and a step that narrows the
      register table to what the live device has. */
  datatype Parts = Parts(topology: bool, narrowing: bool)

  datatype Fault = NullHandle | FreedDescriptor | FreedContext

  /** `tables` counts the narrowed tables dropped so far, and `found` holds that
      count for each descriptor found. */
  datatype Life = Life(link: Link, parts: Parts, tables: nat, queries: seq<Query>, found: seq<nat>,
                       closed: bool, faults: seq<Fault>)

  /** Operate is any dispatcher; Load and Ask are the two halves of a topology query;
      Find, Look and Access are a register access: the lookup, the checks made before
      the mutex is taken, and the locked part. */
  datatype Label = Operate(op: Op) | Load | Ask(q: nat) | Find | Look(d: nat) | Access(d: nat, op: Op) | Shut

  function Blame(s: Life, bad: bool, f: Fault): Life { if bad then s.(faults := s.faults + [f]) else s }

  /** The operation gets as far as the driver's function. */
  predicate Calls(link: Link, op: Op) { TryReconnect(link, op.env).transport.Some? }

  /** A dispatcher on the fields it finds; ups_close leaves them as they were. */
  function Operated(s: Life, op: Op): Life {
    s.(link := Do(s.link, op), tables := s.tables + if s.link.transport.None? && Calls(s.link, op) then 1 else 0)
  }

  predicate Stale(s: Life, d: nat)
    requires d < |s.found|
  {
    s.parts.narrowing && s.found[d] != s.tables
  }

  function Step(s: Life, l: Label): Life {
    match l
    case Operate(op) => Operated(Blame(s, s.closed, FreedContext), op)
    case Load =>
      Blame(s, s.closed, FreedContext).(queries := s.queries + [Query(s.link.transport, s.link.outage)])
    case Ask(q) =>
      if q >= |s.queries| || !s.parts.topology then s
      else if s.queries[q].handle.None? then Blame(s, true, NullHandle)
      else s.(link := s.link.(trace := s.link.trace + [Use(s.queries[q].handle.value)]))
    case Find => Blame(s, s.closed, FreedContext).(found := s.found + [s.tables])
    case Look(d) => if d >= |s.found| then s else Blame(s, Stale(s, d), FreedDescriptor)
    case Access(d, op) =>
      if d >= |s.found| then s
      else
        var t := Operated(Blame(s, s.closed, FreedContext), op);
        Blame(t, Calls(s.link, op) && Stale(t, d), FreedDescriptor)
    case Shut =>
      Blame(s, s.closed, FreedContext).(link := s.link.(trace := Close(s.link)), tables := s.tables + 1, closed := true)
  }

  /** A link as ups_connect hands it over. */
  function Begin(h0: nat, trace: seq<Call>, parts: Parts): Life {
    Life(Connected(h0, trace), parts, 0, [], [], false, [])
  }

  function After(s: Life, ls: seq<Label>): Life {
    if ls == [] then s else Step(After(s, ls[..|ls| - 1]), ls[|ls| - 1])
  }

  // --- What must not happen, and when it does not ---

  ghost predicate TouchedAfterClose(trace: seq<Call>) {
    exists i, j :: 0 <= i < j < |trace| && trace[i].Disconnect? && trace[j].h == trace[i].h
  }

  /** No handle was touched after its disconnect, no driver was called without a
      handle, and nothing freed was used. */
  ghost predicate Sound(s: Life) { s.faults == [] && !TouchedAfterClose(s.link.trace) }

  /** What a caller would have to make sure of before a step: nothing follows the
      close; a topology query loaded a handle and no outage began since; and no
      reconnect has succeeded since the descriptor was found, nor does this access
      itself have to reconnect. */
  predicate Fine(s: Life, l: Label) {
    match l
    case Ask(q) =>
      q < |s.queries| && s.parts.topology ==>
        !s.closed && s.queries[q].handle.Some? && s.queries[q].outage == s.link.outage
    case Look(d) => d < |s.found| && s.parts.narrowing ==> s.found[d] == s.tables
    case Access(d, op) =>
      d < |s.found| ==>
        && !s.closed
        && (s.parts.narrowing && Calls(s.link, op) ==> s.found[d] == s.tables && s.link.transport.Some?)
    case _ => !s.closed
  }

  predicate Careful(s: Life, ls: seq<Label>) {
    ls != [] ==> Careful(s, ls[..|ls| - 1]) && Fine(After(s, ls[..|ls| - 1]), ls[|ls| - 1])
  }

  // --- Careful runs ---

  /** A loaded handle is the link's own exactly while its outage lasts. */
  ghost predicate QueryOk(link: Link, q: Query) {
    && q.outage <= link.outage
    && (q.handle.Some? ==> q.handle.value < link.issued
                           && (link.transport == q.handle <==> q.outage == link.outage))
  }

  ghost predicate LinkOk(s: Life) {
    if s.closed then Replay(s.link.trace) == Some(Census(s.link.issued, {})) else Inv(s.link)
  }

  ghost predicate LifeInv(s: Life) {
    && LinkOk(s)
    && s.faults == []
    && (s.link.transport.Some? ==> s.link.transport.value < s.link.issued)
    && (forall i :: 0 <= i < |s.queries| ==> QueryOk(s.link, s.queries[i]))
    && (forall d :: 0 <= d < |s.found| ==> s.found[d] <= s.tables)
  }

  lemma {:induction false} DoInv(link: Link, op: Op)
    requires Inv(link)
    ensures Inv(Do(link, op))
  {
    if op.Read? { CountedReadInv(link, op.env); } else { PlainCallInv(link, op.env); }
  }

  /** An operation keeps the handle, loses it to a new outage, or replaces none by a new one. */
  lemma DoHandle(link: Link, op: Op)
    ensures var after := Do(link, op);
            || (after.transport == link.transport && after.outage == link.outage && after.issued >= link.issued)
            || (after.transport.None? && after.outage == link.outage + 1 && after.issued >= link.issued)
            || (link.transport.None? && after.transport == Some(link.issued) && after.outage == link.outage
                && after.issued > link.issued)
  {
  }

  lemma DoQueries(link: Link, op: Op, q: Query)
    requires QueryOk(link, q)
    ensures QueryOk(Do(link, op), q)
  {
    DoHandle(link, op);
  }

  lemma CloseReplays(link: Link)
    requires Inv(link)
    ensures Replay(Close(link)) == Some(Census(link.issued, {}))
  {
    if link.transport.Some? {
      var h := link.transport.value;
      ReplaySnoc(link.trace, Disconnect(h));
      assert {h} - {h} == {};
    }
  }

  lemma OperatedInv(s: Life, op: Op)
    requires LifeInv(s) && !s.closed
    ensures LifeInv(Operated(s, op))
  {
    DoInv(s.link, op);
    DoHandle(s.link, op);
    forall i | 0 <= i < |s.queries| ensures QueryOk(Do(s.link, op), s.queries[i]) {
      DoQueries(s.link, op, s.queries[i]);
    }
  }

  lemma AskInv(s: Life, q: nat)
    requires LifeInv(s) && Fine(s, Ask(q))
    ensures LifeInv(Step(s, Ask(q)))
  {
    if q < |s.queries| && s.parts.topology {
      assert QueryOk(s.link, s.queries[q]);
      ReplaySnoc(s.link.trace, Use(s.queries[q].handle.value));
    }
  }

  lemma ShutInv(s: Life)
    requires LifeInv(s) && !s.closed
    ensures LifeInv(Step(s, Shut))
  {
    CloseReplays(s.link);
    var t := Step(s, Shut);
    forall i | 0 <= i < |t.queries| ensures QueryOk(t.link, t.queries[i]) { assert QueryOk(s.link, s.queries[i]); }
  }

  lemma {:induction false} FineInv(s: Life, l: Label)
    requires LifeInv(s) && Fine(s, l)
    ensures LifeInv(Step(s, l))
  {
    match l {
      case Operate(op) => OperatedInv(s, op);
      case Access(d, op) => if d < |s.found| { OperatedInv(s, op); }
      case Ask(q) => AskInv(s, q);
      case Shut => ShutInv(s);
      case _ =>
    }
  }

  lemma {:induction false} CarefulInv(s: Life, ls: seq<Label>)
    requires LifeInv(s) && Careful(s, ls)
    ensures LifeInv(After(s, ls))
  {
    if ls != [] {
      CarefulInv(s, ls[..|ls| - 1]);
      FineInv(After(s, ls[..|ls| - 1]), ls[|ls| - 1]);
    }
  }

  lemma {:induction false} InvIsSound(s: Life)
    requires LifeInv(s)
    ensures Sound(s)
  {
    var trace := s.link.trace;
    if TouchedAfterClose(trace) {
      var i, j :| 0 <= i < j < |trace| && trace[i].Disconnect? && trace[j].h == trace[i].h;
      NeverAfterDisconnect(trace, i, j);
    }
  }

  // --- A careless step shows, for good ---

  lemma {:induction false} ClosedIsInTrace(trace: seq<Call>, h: nat)
    requires Disconnects(trace, h) > 0
    ensures Disconnect(h) in trace
  {
    if trace[|trace| - 1] != Disconnect(h) { ClosedIsInTrace(trace[..|trace| - 1], h); }
  }

  /** A handle that is no longer open was disconnected before. */
  lemma UseOfClosed(trace: seq<Call>, h: nat)
    requires Replay(trace).Some? && h < Replay(trace).value.count && h !in Replay(trace).value.live
    ensures TouchedAfterClose(trace + [Use(h)])
  {
    OpenedAndClosedOnce(trace, h);
    ClosedIsInTrace(trace, h);
    var i :| 0 <= i < |trace| && trace[i] == Disconnect(h);
    var more := trace + [Use(h)];
    assert more[i].Disconnect? && more[|trace|].h == more[i].h;
  }

  lemma CarelessAsk(s: Life, q: nat)
    requires LifeInv(s) && !Fine(s, Ask(q))
    ensures !Sound(Step(s, Ask(q)))
  {
    var query := s.queries[q];
    assert QueryOk(s.link, query);
    if query.handle.Some? { UseOfClosed(s.link.trace, query.handle.value); }
  }

  lemma {:induction false} CarelessShows(s: Life, l: Label)
    requires LifeInv(s) && !Fine(s, l)
    ensures !Sound(Step(s, l))
  {
    if l.Ask? { CarelessAsk(s, l.q); }
  }

  lemma DoExtends(link: Link, op: Op)
    ensures link.trace <= Do(link, op).trace
  {
  }

  lemma TouchedStays(a: seq<Call>, b: seq<Call>)
    requires a <= b && TouchedAfterClose(a)
    ensures TouchedAfterClose(b)
  {
    var i, j :| 0 <= i < j < |a| && a[i].Disconnect? && a[j].h == a[i].h;
    assert b[i] == a[i] && b[j] == a[j];
  }

  lemma {:induction false} UnsoundStays(s: Life, l: Label)
    requires !Sound(s)
    ensures !Sound(Step(s, l))
  {
    var t := Step(s, l);
    if l.Operate? || l.Access? { DoExtends(s.link, l.op); }
    assert s.link.trace <= t.link.trace;
    if s.faults == [] { TouchedStays(s.link.trace, t.link.trace); }
  }

  lemma {:induction false} CarelessIsUnsound(s: Life, ls: seq<Label>)
    requires LifeInv(s) && !Careful(s, ls)
    ensures !Sound(After(s, ls))
  {
    var init, l := ls[..|ls| - 1], ls[|ls| - 1];
    if Careful(s, init) {
      CarefulInv(s, init);
      CarelessShows(After(s, init), l);
    } else {
      CarelessIsUnsound(s, init);
      UnsoundStays(After(s, init), l);
    }
  }

  /** Over every interleaving of dispatchers, topology queries, register accesses and
      closes: nothing is touched after it was given up, exactly when every query still
      has the handle it loaded, every descriptor is as fresh as its access, and nothing
      follows the close. */
  lemma {:induction false} SoundExactlyWhenCareful(h0: nat, trace: seq<Call>, parts: Parts, ls: seq<Label>)
    requires Replay(trace) == Some(Census(h0 + 1, {h0}))
    ensures Sound(After(Begin(h0, trace, parts), ls)) <==> Careful(Begin(h0, trace, parts), ls)
  {
    var s := Begin(h0, trace, parts);
    if Careful(s, ls) {
      CarefulInv(s, ls);
      InvIsSound(After(s, ls));
    } else {
      CarelessIsUnsound(s, ls);
    }
  }

  /** Then, once the link is closed, each handle the driver ever returned has been
      connected once and disconnected once. */
  lemma {:induction false} EveryHandleClosedOnce(h0: nat, trace: seq<Call>, parts: Parts, ls: seq<Label>, h: nat)
    requires Replay(trace) == Some(Census(h0 + 1, {h0})) && Careful(Begin(h0, trace, parts), ls)
    ensures var s := After(Begin(h0, trace, parts), ls);
            && !TouchedAfterClose(s.link.trace)
            && (s.closed && h < s.link.issued ==> Connects(s.link.trace, h) == 1 && Disconnects(s.link.trace, h) == 1)
  {
    var s := After(Begin(h0, trace, parts), ls);
    CarefulInv(Begin(h0, trace, parts), ls);
    InvIsSound(s);
    OpenedAndClosedOnce(s.link.trace, h);
  }

  // --- Runs of the daemon that are not careful ---

  lemma AfterSnoc(s: Life, ls: seq<Label>, l: Label)
    ensures After(s, ls + [l]) == Step(After(s, ls), l)
  {
    assert (ls + [l])[..|ls|] == ls;
  }

  lemma {:induction false} AfterAppend(s: Life, a: seq<Label>, b: seq<Label>)
    ensures After(s, a + b) == After(After(s, a), b)
  {
    if b == [] {
      assert a + b == a;
    } else {
      var init, l := b[..|b| - 1], b[|b| - 1];
      AfterAppend(s, a, init);
      AfterSnoc(s, a + init, l);
      assert a + b == (a + init) + [l];
    }
  }

  const FAILED: Op := Read(Env(0, false, false, false))

  /** Five failed reads in a row. */
  function Outage(n: nat): (ls: seq<Label>)
    ensures |ls| == n
  {
    seq(n, _ => Operate(FAILED))
  }

  lemma {:induction false} Failing(s: Life, n: nat)
    requires s.link.transport.Some? && s.link.errors == 0 && !s.closed && n <= MAX_CONSECUTIVE_ERRORS
    ensures var t, h := After(s, Outage(n)), s.link.transport.value;
            && t.queries == s.queries && t.found == s.found && t.parts == s.parts && t.faults == s.faults
            && t.tables == s.tables && t.link.errors == n && !t.closed
            && t.link.transport == (if n < MAX_CONSECUTIVE_ERRORS then Some(h) else None)
            && (n == MAX_CONSECUTIVE_ERRORS ==> t.link.lastAttempt == 0 && t.link.trace != []
                                                && t.link.trace[|t.link.trace| - 1] == Disconnect(h))
  {
    if n > 0 {
      Failing(s, n - 1);
      assert Outage(n)[..n - 1] == Outage(n - 1);
    }
  }

  /** A query that loads the handle, and then an outage, before it calls the driver:
      the disconnected handle is used. */
  lemma {:induction false} QueryAcrossOutage(h0: nat, trace: seq<Call>, narrowing: bool)
    ensures var run := [Load] + Outage(MAX_CONSECUTIVE_ERRORS) + [Ask(0)];
            var calls := After(Begin(h0, trace, Parts(true, narrowing)), run).link.trace;
            |calls| >= 2 && calls[|calls| - 2..] == [Disconnect(h0), Use(h0)]
  {
    var s := Begin(h0, trace, Parts(true, narrowing));
    AfterAppend(s, [Load] + Outage(MAX_CONSECUTIVE_ERRORS), [Ask(0)]);
    AfterAppend(s, [Load], Outage(MAX_CONSECUTIVE_ERRORS));
    assert After(s, [Load]) == Step(After(s, []), Load);
    Failing(After(s, [Load]), MAX_CONSECUTIVE_ERRORS);
    var t := After(s, [Load] + Outage(MAX_CONSECUTIVE_ERRORS));
    assert After(t, [Ask(0)]) == Step(After(t, []), Ask(0));
  }

  /** A query during an outage hands the driver no handle at all. */
  lemma QueryDuringOutage(h0: nat, trace: seq<Call>, narrowing: bool)
    ensures var run := Outage(MAX_CONSECUTIVE_ERRORS) + [Load, Ask(0)];
            After(Begin(h0, trace, Parts(true, narrowing)), run).faults == [NullHandle]
  {
    var s := Begin(h0, trace, Parts(true, narrowing));
    AfterAppend(s, Outage(MAX_CONSECUTIVE_ERRORS), [Load, Ask(0)]);
    Failing(s, MAX_CONSECUTIVE_ERRORS);
    var t := After(s, Outage(MAX_CONSECUTIVE_ERRORS));
    AfterTwo(t, Load, Ask(0));
  }

  lemma AfterTwo(s: Life, a: Label, b: Label)
    ensures After(s, [a, b]) == Step(Step(s, a), b)
  {
    assert [a, b][..1] == [a] && [a][..0] == [];
    assert After(s, [a]) == Step(After(s, []), a);
  }

  /** A workflow still at work when ups_close is called: its UPS command locks a
      freed context and drives the disconnected handle. */
  lemma CommandAfterClose(h0: nat, trace: seq<Call>, parts: Parts, env: Env)
    ensures var s := After(Begin(h0, trace, parts), [Shut, Operate(Plain(env))]);
            s.faults == [FreedContext] && s.link.trace == trace + [Disconnect(h0), Use(h0)]
  {
    AfterTwo(Begin(h0, trace, parts), Shut, Operate(Plain(env)));
    assert trace + [Disconnect(h0)] + [Use(h0)] == trace + [Disconnect(h0), Use(h0)];
  }

  /** A register found during an outage, and a write that reconnects before it hands
      the descriptor to the driver: the table it was found in is gone. */
  lemma WriteThatReconnects(h0: nat, trace: seq<Call>, topology: bool, now: int)
    requires now >= RECONNECT_INTERVAL_SEC
    ensures var run := Outage(MAX_CONSECUTIVE_ERRORS) + [Find, Access(0, Plain(Env(now, true, true, true)))];
            After(Begin(h0, trace, Parts(topology, true)), run).faults == [FreedDescriptor]
  {
    var s := Begin(h0, trace, Parts(topology, true));
    var access := Access(0, Plain(Env(now, true, true, true)));
    AfterAppend(s, Outage(MAX_CONSECUTIVE_ERRORS), [Find, access]);
    Failing(s, MAX_CONSECUTIVE_ERRORS);
    AfterTwo(After(s, Outage(MAX_CONSECUTIVE_ERRORS)), Find, access);
  }
}
