/** Connectivity events of the monitor's poll loop, interleaved with the other
    threads that use the same link (src/monitor/monitor.c:275-337). */
module Connectivity {
  import opened Options
  import opened Edges
  import opened Transport

  datatype Event = Disconnected | Reconnected

  /** Where the poll loop is: between polls, after its status read, after a
      failed read but before it looks at the transport, or after both reads. */
  datatype Phase = Idle | HaveStatus | ReadFailed | HaveData

  /** `evidence` keeps, for each event, the counted reads known when it fired. */
  datatype Monitor = Monitor(link: Link, phase: Phase, wasConnected: bool, disconnectedAt: int,
                             events: seq<Event>, evidence: seq<seq<bool>>)

  /** Poll steps of the slow loop, and operations of any other thread. */
  datatype Label = SlowStatus(env: Env) | SlowDynamic(env: Env) | Judge(now: int) | Other(op: Op)

  function Fire(m: Monitor, e: Event): Monitor {
    m.(events := m.events + [e], evidence := m.evidence + [m.link.counted])
  }

  function SlowRead(m: Monitor, env: Env, next: Phase): Monitor {
    var (link, reply) := CountedRead(m.link, env);
    m.(link := link, phase := if reply.Ok? then next else ReadFailed)
  }

  /** After a failed read the loop looks at the transport, not at the read. */
  function JudgeFailure(m: Monitor, now: int): Monitor {
    if m.link.transport.None? && m.wasConnected then
      Fire(m, Disconnected).(phase := Idle, wasConnected := false, disconnectedAt := now)
    else m.(phase := Idle)
  }

  function JudgeSuccess(m: Monitor): Monitor {
    var m1 := if !m.wasConnected && m.disconnectedAt > 0 then Fire(m, Reconnected).(disconnectedAt := 0) else m;
    m1.(phase := Idle, wasConnected := true)
  }

  function Step(m: Monitor, l: Label): Monitor {
    match l
    case SlowStatus(env) => if m.phase.Idle? then SlowRead(m, env, HaveStatus) else m
    case SlowDynamic(env) => if m.phase.HaveStatus? then SlowRead(m, env, HaveData) else m
    case Judge(now) =>
      if m.phase.ReadFailed? then JudgeFailure(m, now)
      else if m.phase.HaveData? then JudgeSuccess(m)
      else m
    case Other(op) => m.(link := Do(m.link, op))
  }

  function Run(start: Monitor, ls: seq<Label>): Monitor {
    if ls == [] then start else Step(Run(start, ls[..|ls| - 1]), ls[|ls| - 1])
  }

  /** A monitor before its first poll; `seen` says whether the initial read succeeded. */
  function Start(h: nat, trace: seq<Call>, seen: bool): Monitor {
    Monitor(Connected(h, trace), Idle, seen, 0, [], [])
  }

  ghost predicate Alternates(events: seq<Event>) {
    forall i :: 0 <= i < |events| ==> events[i] == if i % 2 == 0 then Disconnected else Reconnected
  }

  ghost predicate Justified(m: Monitor) {
    && |m.evidence| == |m.events|
    && forall i :: 0 <= i < |m.events| && m.events[i].Disconnected? ==>
         FailedLast(m.evidence[i], MAX_CONSECUTIVE_ERRORS)
  }

  ghost predicate MonitorInv(m: Monitor) {
    && Inv(m.link)
    && Alternates(m.events)
    && Justified(m)
    && (m.disconnectedAt > 0 <==> |m.events| % 2 == 1)
    && (m.disconnectedAt > 0 ==> !m.wasConnected)
  }

  ghost predicate PositiveClock(ls: seq<Label>) {
    forall i :: 0 <= i < |ls| && ls[i].Judge? ==> ls[i].now > 0
  }

  lemma {:induction false} StepInv(m: Monitor, l: Label)
    requires MonitorInv(m) && (l.Judge? ==> l.now > 0)
    ensures MonitorInv(Step(m, l))
  {
    match l {
      case SlowStatus(env) => CountedReadInv(m.link, env);
      case SlowDynamic(env) => CountedReadInv(m.link, env);
      case Judge(now) =>
      case Other(op) =>
        CountedReadInv(m.link, op.env);
        PlainCallInv(m.link, op.env);
    }
  }

  /** However the slow loop, the fast loop and the API interleave on the link:
      the events alternate, starting with Disconnected, and at each Disconnected
      the last five counted reads had all failed. */
  lemma {:induction false} EventsAlternateAndAreJustified(h: nat, trace: seq<Call>, seen: bool, ls: seq<Label>)
    requires Replay(trace) == Some(Census(h + 1, {h})) && PositiveClock(ls)
    ensures MonitorInv(Run(Start(h, trace, seen), ls))
  {
    if ls != [] {
      EventsAlternateAndAreJustified(h, trace, seen, ls[..|ls| - 1]);
      StepInv(Run(Start(h, trace, seen), ls[..|ls| - 1]), ls[|ls| - 1]);
    }
  }

  /** A poll that reads everything while a disconnect is outstanding reports the reconnect. */
  lemma GoodPollReconnects(m: Monitor, now: int)
    requires MonitorInv(m) && m.phase.HaveData?
    ensures var m' := Step(m, Judge(now));
            && m'.wasConnected && |m'.events| % 2 == 0
            && m'.events == m.events + (if |m.events| % 2 == 1 then [Reconnected] else [])
  {
    assert m.events + [] == m.events;
  }

  // --- Which events there are ---

  /** What a verdict finds: the link up after a poll that read everything, down after a
      failed read without a transport, nothing after a failed read alone. */
  function Finding(m: Monitor, l: Label): seq<bool> {
    if !l.Judge? then []
    else if m.phase.HaveData? then [true]
    else if m.phase.ReadFailed? && m.link.transport.None? then [false]
    else []
  }

  /** The findings of a run, in order. */
  function Findings(start: Monitor, ls: seq<Label>): seq<bool> {
    if ls == [] then []
    else Findings(start, ls[..|ls| - 1]) + Finding(Run(start, ls[..|ls| - 1]), ls[|ls| - 1])
  }

  /** The events so far are the changes of the findings, from a link that was up. */
  ghost predicate EventsAreChanges(m: Monitor, seen: bool, found: seq<bool>) {
    && m.wasConnected == Final(seen, found)
    && (if seen then m.events == EdgeLog(true, found, Reconnected, Disconnected)
        else if true in found then [Reconnected] + m.events == EdgeLog(false, found, Reconnected, Disconnected)
        else m.events == [] && EdgeLog(false, found, Reconnected, Disconnected) == [])
    && (!m.wasConnected && (seen || true in found) <==> m.disconnectedAt > 0)
  }

  lemma {:induction false} JudgeChanges(m: Monitor, seen: bool, found: seq<bool>, now: int, x: bool)
    requires EventsAreChanges(m, seen, found) && now > 0 && Finding(m, Judge(now)) == [x]
    ensures EventsAreChanges(Step(m, Judge(now)), seen, found + [x])
  {
    EdgeLogSnoc(seen, found, x, Reconnected, Disconnected);
    assert m.events + [] == m.events;
    if !seen && true !in found && x { assert [Reconnected] + [] == [] + [Reconnected]; }
    if !seen && true in found {
      var e := Edge(Final(seen, found), x, Reconnected, Disconnected);
      assert [Reconnected] + (m.events + e) == ([Reconnected] + m.events) + e;
    }
  }

  lemma OtherStepsChangeNothing(m: Monitor, l: Label)
    requires Finding(m, l) == []
    ensures var n := Step(m, l);
            n.events == m.events && n.wasConnected == m.wasConnected && n.disconnectedAt == m.disconnectedAt
  {
  }

  /** However the threads interleave, the events are exactly the changes of what the
      verdicts find, beginning with a link that was up: a Disconnected whenever one finds
      it down after one that found it up, a Reconnected whenever one finds it up again.
      If the first read failed, the first time it is found up counts as no reconnect. */
  lemma {:induction false} EventsAreExactlyChanges(h: nat, trace: seq<Call>, seen: bool, ls: seq<Label>)
    requires PositiveClock(ls)
    ensures EventsAreChanges(Run(Start(h, trace, seen), ls), seen, Findings(Start(h, trace, seen), ls))
  {
    if ls != [] {
      var init, l := ls[..|ls| - 1], ls[|ls| - 1];
      var m, found := Run(Start(h, trace, seen), init), Findings(Start(h, trace, seen), init);
      EventsAreExactlyChanges(h, trace, seen, init);
      var f := Finding(m, l);
      if f == [] {
        assert found + f == found;
        OtherStepsChangeNothing(m, l);
      } else {
        JudgeChanges(m, seen, found, l.now, f[0]);
      }
    }
  }

  /** So after a verdict that found the link down Disconnected is the last event, and
      after a good poll there is an even number of them. */
  lemma {:induction false} LastEventIsTheState(h: nat, trace: seq<Call>, ls: seq<Label>)
    requires PositiveClock(ls)
    requires Findings(Start(h, trace, true), ls) != []
    ensures var m, found := Run(Start(h, trace, true), ls), Findings(Start(h, trace, true), ls);
            && (!found[|found| - 1] <==> |m.events| % 2 == 1)
            && (!found[|found| - 1] ==> m.events[|m.events| - 1] == Disconnected)
  {
    EventsAreExactlyChanges(h, trace, true, ls);
    EdgesAlternate(true, Findings(Start(h, trace, true), ls), Reconnected, Disconnected);
  }

  /** A poll finds the link up exactly when both its reads got through to the driver and
      succeeded, and down when one did not and the transport is gone. */
  lemma {:induction false} PollFindsExactly(m: Monitor, first: Env, second: Env, now: int)
    requires m.phase.Idle? && Inv(m.link)
    ensures var after := Step(Step(m, SlowStatus(first)), SlowDynamic(second));
            var good := TryReconnect(m.link, first).transport.Some? && first.ok && second.ok;
            Finding(after, Judge(now)) ==
              if good then [true] else if after.link.transport.None? then [false] else []
  {
    ReconnectInv(m.link, first);
  }

  // --- In place ---

  /** The connectivity part of the poll loop's state. */
  class PollLoop {
    const ups: Ups
    var wasConnected: bool
    var disconnectedAt: int
    ghost var events: seq<Event>
    ghost var evidence: seq<seq<bool>>

    ghost function View(): Monitor
      reads this, ups
    {
      Monitor(ups.View(), Idle, wasConnected, disconnectedAt, events, evidence)
    }

    constructor (ups: Ups, seen: bool)
      ensures this.ups == ups && View() == Monitor(ups.View(), Idle, seen, 0, [], [])
    {
      this.ups := ups;
      wasConnected, disconnectedAt, events, evidence := seen, 0, [], [];
    }

    /** One undisturbed turn of the loop: the status read, the dynamic read
        unless that failed, and the verdict. */
    method Poll(first: Env, second: Env, now: int)
      modifies this, ups
      ensures View() == Step(Step(Step(old(View()), SlowStatus(first)), SlowDynamic(second)), Judge(now))
    {
      var rc := ups.ReadDriver(first);
      if rc.Ok? { rc := ups.ReadDriver(second); }
      if !rc.Ok? {
        if ups.transport.None? && wasConnected {
          wasConnected := false;
          disconnectedAt := now;
          events, evidence := events + [Disconnected], evidence + [ups.View().counted];
        }
        return;
      }
      if !wasConnected && disconnectedAt > 0 {
        events, evidence := events + [Reconnected], evidence + [ups.View().counted];
        disconnectedAt := 0;
      }
      wasConnected := true;
    }
  }
}
