/** The fast power-vitals loop (src/monitor/fast_loop.c:37-42, 104-219): one
    event per transition of the bits it owns, against the first status read. */
module FastLoop {
  import opened Options
  import opened Edges
  import opened Words
  import XferRing

  const ON_BATTERY: nat := 2
  const BYPASS: nat := 3
  const OUTPUT_OFF: nat := 4
  const FAULT: nat := 5
  const FAULT_STATE: nat := 15
  const OVERLOAD: nat := 21
  const OWNED: Word := {ON_BATTERY, BYPASS, OUTPUT_OFF, FAULT, FAULT_STATE, OVERLOAD}

  datatype Event = OnBattery | UtilityRestored | OutputOff | OutputRestored | BypassEntered | BypassExited
                 | FaultDetected | FaultCleared | Overloaded | OverloadCleared

  /** The bits that have one event pair each. */
  datatype Line = Battery | Output | Bypass | Overload

  function On(l: Line): Event {
    match l case Battery => OnBattery case Output => OutputOff case Bypass => BypassEntered case Overload => Overloaded
  }

  function Off(l: Line): Event {
    match l case Battery => UtilityRestored case Output => OutputRestored case Bypass => BypassExited
            case Overload => OverloadCleared
  }

  /** The owned bits of a status word. */
  datatype Power = Power(battery: bool, output: bool, bypass: bool, overload: bool, fault: bool, faultState: bool)

  function PowerOf(status: Word): Power {
    Power(ON_BATTERY in status, OUTPUT_OFF in status, BYPASS in status, OVERLOAD in status,
          FAULT in status, FAULT_STATE in status)
  }

  predicate Has(p: Power, l: Line) {
    match l case Battery => p.battery case Output => p.output case Bypass => p.bypass case Overload => p.overload
  }

  function LineEdge(prev: Power, now: Power, l: Line): seq<Event> {
    Edge(Has(prev, l), Has(now, l), On(l), Off(l))
  }

  predicate FaultRises(prev: Power, now: Power) {
    (now.fault && !prev.fault) || (now.faultState && !prev.faultState)
  }

  /** The two fault bits share one pair of events, and one tick can send both. */
  function FaultEvents(prev: Power, now: Power): seq<Event> {
    (if FaultRises(prev, now) then [FaultDetected] else []) + if FaultRises(now, prev) then [FaultCleared] else []
  }

  function Transitions(prev: Power, now: Power): seq<Event> {
    LineEdge(prev, now, Battery) + LineEdge(prev, now, Output) + LineEdge(prev, now, Bypass)
    + FaultEvents(prev, now) + LineEdge(prev, now, Overload)
  }

  /** The events of a run of fully read statuses; the first is the baseline. */
  function EventsOf(ps: seq<Power>): seq<Event> {
    if |ps| <= 1 then []
    else EventsOf(ps[..|ps| - 1]) + Transitions(ps[|ps| - 2], ps[|ps| - 1])
  }

  lemma EventsSnoc(ps: seq<Power>, p: Power)
    requires ps != []
    ensures EventsOf(ps + [p]) == EventsOf(ps) + Transitions(ps[|ps| - 1], p)
  {
    assert (ps + [p])[..|ps|] == ps;
  }

  // --- In place ---

  function BitOf(l: Line): nat {
    match l case Battery => ON_BATTERY case Output => OUTPUT_OFF case Bypass => BYPASS case Overload => OVERLOAD
  }

  method EmitLine(ghost prev: Word, ghost status: Word, rose: Word, fell: Word, l: Line, events: seq<Event>)
    returns (r: seq<Event>)
    requires rose == Xor(prev, status) * OWNED * status && fell == Xor(prev, status) * OWNED * prev
    ensures r == events + LineEdge(PowerOf(prev), PowerOf(status), l)
  {
    r := events;
    if BitOf(l) in rose { r := r + [On(l)]; }
    if BitOf(l) in fell { r := r + [Off(l)]; }
  }

  method EmitFault(ghost prev: Word, ghost status: Word, rose: Word, fell: Word, events: seq<Event>)
    returns (r: seq<Event>)
    requires rose == Xor(prev, status) * OWNED * status && fell == Xor(prev, status) * OWNED * prev
    ensures r == events + FaultEvents(PowerOf(prev), PowerOf(status))
  {
    r := events;
    if FAULT in rose || FAULT_STATE in rose { r := r + [FaultDetected]; }
    if FAULT in fell || FAULT_STATE in fell { r := r + [FaultCleared]; }
  }

  lemma UnchangedIsQuiet(prev: Word, status: Word)
    requires Xor(prev, status) * OWNED == {}
    ensures Transitions(PowerOf(prev), PowerOf(status)) == []
  {
    forall k <- OWNED ensures k in prev <==> k in status {
      assert k !in Xor(prev, status) * OWNED;
    }
    assert PowerOf(prev) == PowerOf(status);
  }

  method EmitTransitions(prev: Word, status: Word) returns (events: seq<Event>)
    ensures events == Transitions(PowerOf(prev), PowerOf(status))
  {
    var changed := Xor(prev, status) * OWNED;
    events := [];
    if changed == {} {
      UnchangedIsQuiet(prev, status);
      return;
    }
    var rose, fell := changed * status, changed * prev;
    events := EmitLine(prev, status, rose, fell, Battery, events);
    events := EmitLine(prev, status, rose, fell, Output, events);
    events := EmitLine(prev, status, rose, fell, Bypass, events);
    events := EmitFault(prev, status, rose, fell, events);
    events := EmitLine(prev, status, rose, fell, Overload, events);
  }

  class Loop {
    const ring: XferRing.Ring
    var prevStatus: Word
    var firstTick: bool
    ghost var seen: seq<Power>

    ghost predicate Valid()
      reads this, ring, ring.entries
    {
      ring.Valid() && Tracking()
    }

    /** The previous status is the last one seen, once there is one. */
    ghost predicate Tracking()
      reads `prevStatus, `firstTick, `seen
    {
      && (firstTick <==> seen == [])
      && (seen != [] ==> PowerOf(prevStatus) == seen[|seen| - 1])
    }

    constructor ()
      ensures Valid() && seen == [] && ring.history == []
    {
      ring := new XferRing.Ring();
      prevStatus, firstTick, seen := {}, true, [];
    }

    method Baseline(status: Word)
      requires seen == []
      modifies `prevStatus, `firstTick, `seen
      ensures Tracking() && seen == [PowerOf(status)]
    {
      prevStatus, firstTick, seen := status, false, [PowerOf(status)];
    }

    method Compare(status: Word) returns (events: seq<Event>)
      requires Tracking() && !firstTick
      modifies `prevStatus, `firstTick, `seen
      ensures Tracking() && seen == old(seen) + [PowerOf(status)]
      ensures EventsOf(seen) == EventsOf(old(seen)) + events
    {
      events := EmitTransitions(prevStatus, status);
      EventsSnoc(seen, PowerOf(status));
      prevStatus, firstTick, seen := status, false, seen + [PowerOf(status)];
    }

    /** The part of a tick that follows the status: a baseline on the first, events after that. */
    method Observe(status: Word) returns (events: seq<Event>)
      requires Tracking()
      modifies `prevStatus, `firstTick, `seen
      ensures Tracking() && seen == old(seen) + [PowerOf(status)]
      ensures EventsOf(seen) == EventsOf(old(seen)) + events
    {
      events := [];
      if firstTick {
        Baseline(status);
      } else {
        events := Compare(status);
      }
    }

    /** One tick.  A failed read of either register skips the tick altogether. */
    method Tick(status: Option<Word>, reason: Option<nat>, now: nat) returns (events: seq<Event>, recorded: bool)
      requires Valid()
      modifies this, ring, ring.entries
      ensures Valid()
      ensures status.None? || reason.None? ==>
                seen == old(seen) && ring.history == old(ring.history) && events == [] && !recorded
      ensures status.Some? && reason.Some? ==>
                && seen == old(seen) + [PowerOf(status.value)]
                && ring.history == XferRing.Record(old(ring.history), XferRing.Entry(now, reason.value))
                && (recorded <==> ring.history != old(ring.history))
                && EventsOf(seen) == EventsOf(old(seen)) + events
    {
      events, recorded := [], false;
      if status.None? || reason.None? { return; }
      recorded := ring.Push(now, reason.value);
      events := Observe(status.value);
    }
  }

  // --- Whole runs ---

  lemma OnlyLine(prev: Power, now: Power, m: Line, l: Line)
    ensures Only(LineEdge(prev, now, m), On(l), Off(l)) == if m == l then LineEdge(prev, now, l) else []
  {
    if m == l {
      OnlySameEdge(Has(prev, l), Has(now, l), On(l), Off(l));
    } else {
      OnlyNone(LineEdge(prev, now, m), On(l), Off(l));
    }
  }

  lemma OnlyFault(prev: Power, now: Power, l: Line)
    ensures Only(FaultEvents(prev, now), On(l), Off(l)) == []
  {
    var a := if FaultRises(prev, now) then [FaultDetected] else [];
    var b := if FaultRises(now, prev) then [FaultCleared] else [];
    OnlyAppend(a, b, On(l), Off(l));
    assert Only(a, On(l), Off(l)) == [] && Only(b, On(l), Off(l)) == [];
  }

  /** Of five parts, four without the line's events, the one of the line is left. */
  lemma OneOfFive(a: seq<Event>, b: seq<Event>, c: seq<Event>, d: seq<Event>, e: seq<Event>, x: seq<Event>, l: Line)
    requires Only(a, On(l), Off(l)) == if l == Battery then x else []
    requires Only(b, On(l), Off(l)) == if l == Output then x else []
    requires Only(c, On(l), Off(l)) == if l == Bypass then x else []
    requires Only(d, On(l), Off(l)) == []
    requires Only(e, On(l), Off(l)) == if l == Overload then x else []
    ensures Only(a + b + c + d + e, On(l), Off(l)) == x
  {
    OnlyAppend(a + b + c + d, e, On(l), Off(l));
    OnlyAppend(a + b + c, d, On(l), Off(l));
    OnlyAppend(a + b, c, On(l), Off(l));
    OnlyAppend(a, b, On(l), Off(l));
  }

  lemma OnlyTransitions(prev: Power, now: Power, l: Line)
    ensures Only(Transitions(prev, now), On(l), Off(l)) == LineEdge(prev, now, l)
  {
    OnlyLine(prev, now, Battery, l);
    OnlyLine(prev, now, Output, l);
    OnlyLine(prev, now, Bypass, l);
    OnlyFault(prev, now, l);
    OnlyLine(prev, now, Overload, l);
    OneOfFive(LineEdge(prev, now, Battery), LineEdge(prev, now, Output), LineEdge(prev, now, Bypass),
              FaultEvents(prev, now), LineEdge(prev, now, Overload), LineEdge(prev, now, l), l);
  }

  /** A line's flag after each status. */
  function Levels(ps: seq<Power>, l: Line): (r: seq<bool>)
    ensures |r| == |ps| && forall i :: 0 <= i < |r| ==> r[i] == Has(ps[i], l)
  {
    seq(|ps|, i requires 0 <= i < |ps| => Has(ps[i], l))
  }

  lemma LevelsSnoc(ps: seq<Power>, p: Power, l: Line)
    requires ps != []
    ensures Levels((ps + [p])[1..], l) == Levels(ps[1..], l) + [Has(p, l)]
  {}

  lemma {:induction false} LineLog(ps: seq<Power>, l: Line)
    requires ps != []
    ensures Only(EventsOf(ps), On(l), Off(l)) == EdgeLog(Has(ps[0], l), Levels(ps[1..], l), On(l), Off(l))
  {
    var n := |ps| - 1;
    if n > 0 {
      var init, p := ps[..n], ps[n];
      assert ps == init + [p];
      LineLog(init, l);
      EventsSnoc(init, p);
      OnlyAppend(EventsOf(init), Transitions(init[n - 1], p), On(l), Off(l));
      OnlyTransitions(init[n - 1], p, l);
      LevelsSnoc(init, p, l);
    }
  }

  /** On-battery, output-off, bypass and overload: over every run each line's
      events alternate, starting with the one that leaves the baseline, and
      replaying them gives the line's current bit. */
  lemma {:induction false} LinesAlternate(ps: seq<Power>, l: Line)
    requires ps != []
    ensures AlternatesTo(Only(EventsOf(ps), On(l), Off(l)), Has(ps[0], l), Has(ps[|ps| - 1], l), On(l), Off(l))
  {
    LineLog(ps, l);
    EdgesAlternate(Has(ps[0], l), Levels(ps[1..], l), On(l), Off(l));
  }

  // --- What an event says ---

  /** Bit k rises, or falls, between two statuses. */
  predicate Rises(prev: Word, now: Word, k: nat) { k !in prev && k in now }
  predicate Falls(prev: Word, now: Word, k: nat) { k in prev && k !in now }

  /** The change of the status register that an event reports. */
  predicate Reports(e: Event, prev: Word, now: Word) {
    match e
    case OnBattery => Rises(prev, now, 2)
    case UtilityRestored => Falls(prev, now, 2)
    case BypassEntered => Rises(prev, now, 3)
    case BypassExited => Falls(prev, now, 3)
    case OutputOff => Rises(prev, now, 4)
    case OutputRestored => Falls(prev, now, 4)
    case FaultDetected => Rises(prev, now, 5) || Rises(prev, now, 15)
    case FaultCleared => Falls(prev, now, 5) || Falls(prev, now, 15)
    case Overloaded => Rises(prev, now, 21)
    case OverloadCleared => Falls(prev, now, 21)
  }

  lemma InFive(a: seq<Event>, b: seq<Event>, c: seq<Event>, d: seq<Event>, e: seq<Event>, x: Event)
    ensures x in a + b + c + d + e <==> x in a || x in b || x in c || x in d || x in e
  {
  }

  lemma InLine(prev: Word, now: Word, l: Line, x: Event)
    ensures x in LineEdge(PowerOf(prev), PowerOf(now), l) <==>
              (x == On(l) && Rises(prev, now, BitOf(l))) || (x == Off(l) && Falls(prev, now, BitOf(l)))
  {
  }

  lemma InFaults(prev: Word, now: Word, x: Event)
    ensures x in FaultEvents(PowerOf(prev), PowerOf(now)) <==>
              (x == FaultDetected && Reports(x, prev, now)) || (x == FaultCleared && Reports(x, prev, now))
  {
  }

  /** An event is sent exactly when the status changed as it says. */
  lemma {:induction false} EventsReportChanges(prev: Word, now: Word, x: Event)
    ensures x in Transitions(PowerOf(prev), PowerOf(now)) <==> Reports(x, prev, now)
  {
    var p, n := PowerOf(prev), PowerOf(now);
    InLine(prev, now, Battery, x);
    InLine(prev, now, Output, x);
    InLine(prev, now, Bypass, x);
    InLine(prev, now, Overload, x);
    InFaults(prev, now, x);
    InFive(LineEdge(p, n, Battery), LineEdge(p, n, Output), LineEdge(p, n, Bypass), FaultEvents(p, n),
           LineEdge(p, n, Overload), x);
  }

  // --- The shared fault events ---

  predicate Faulty(p: Power) { p.fault || p.faultState }

  predicate SameFaults(p: Power, q: Power) { p.fault == q.fault && p.faultState == q.faultState }

  /** A tick's fault events are the edge of "any fault" exactly when the two
      fault bits did not change, or one of the two readings has neither. */
  lemma FaultEventsAreEdges(prev: Power, now: Power)
    ensures FaultEvents(prev, now) == Edge(Faulty(prev), Faulty(now), FaultDetected, FaultCleared)
            <==> SameFaults(prev, now) || !Faulty(prev) || !Faulty(now)
  {
    if Faulty(prev) && Faulty(now) && !SameFaults(prev, now) {
      assert |FaultEvents(prev, now)| >= 1;
    }
  }

  /** So "Fault Detected" can come twice in a row: one bit after the other. */
  lemma FaultDetectedTwice()
    ensures EventsOf([PowerOf({}), PowerOf({FAULT}), PowerOf({FAULT, FAULT_STATE})]) == [FaultDetected, FaultDetected]
  {
    var a, b, c := PowerOf({}), PowerOf({FAULT}), PowerOf({FAULT, FAULT_STATE});
    EventsSnoc([a], b);
    EventsSnoc([a, b], c);
    assert [a] + [b] == [a, b] && [a, b] + [c] == [a, b, c];
    assert Transitions(a, b) == [FaultDetected] && Transitions(b, c) == [FaultDetected];
  }
}
