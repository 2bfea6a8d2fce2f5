/** Delivery order over every interleaving of the broadcaster's operations
    (src/api/sse.c:154-217, 244-327). */
module SseOrder {
  import opened Options
  import opened SseQueue
  import opened SseWire
  import opened SseBus

  // --- Each action keeps the invariant ---

  lemma OccupiedSet(slots: seq<Option<Queue>>, k: nat, o: Option<Queue>)
    requires k < |slots|
    ensures Occupied(slots[k := o]) == Occupied(slots) + (if o.Some? then 1 else 0) - (if slots[k].Some? then 1 else 0)
  {
    if k > 0 {
      assert slots[k := o][1..] == slots[1..][k - 1 := o];
      OccupiedSet(slots[1..], k - 1, o);
    } else {
      assert slots[k := o][1..] == slots[1..];
    }
  }

  lemma OccupiedSame(a: seq<Option<Queue>>, b: seq<Option<Queue>>)
    requires |a| == |b| && forall i :: 0 <= i < |a| ==> (a[i].Some? <==> b[i].Some?)
    ensures Occupied(a) == Occupied(b)
  {
    if a != [] { OccupiedSame(a[1..], b[1..]); }
  }

  lemma OccupiedBound(slots: seq<Option<Queue>>)
    ensures Occupied(slots) <= |slots|
    ensures FirstFree(slots) == |slots| <==> Occupied(slots) == |slots|
  {
    if slots != [] { OccupiedBound(slots[1..]); }
  }

  /** A broadcast extends an open queue and its receipts together. */
  lemma PushBacked(q: Queue, s: Seat, log: seq<string>, frame: string)
    requires Backed(q, s, log) && !q.closed
    ensures Backed(Enqueue(q, frame), s.(received := s.received + [|log|]), log + [frame])
  {
    var q', r' := Enqueue(q, frame), s.received + [|log|];
    var dropped := if |q.frames| == QUEUE_DEPTH then 1 else 0;
    assert |q'.frames| == |q.frames| + 1 - dropped;
    forall k | 0 <= k < |q'.frames|
      ensures q'.frames[k].data == (log + [frame])[r'[|r'| - |q'.frames| + k]]
    {
      if k < |q'.frames| - 1 {
        assert q'.frames[k] == q.frames[k + dropped];
        assert r'[|r'| - |q'.frames| + k] == s.received[|s.received| - |q.frames| + (k + dropped)];
      }
    }
  }

  lemma StillBacked(q: Queue, s: Seat, log: seq<string>, frame: string)
    requires Backed(q, s, log)
    ensures Backed(q, s, log + [frame])
  {}

  lemma PopBacked(q: Queue, s: Seat, log: seq<string>)
    requires Backed(q, s, log) && q.frames != []
    ensures Backed(q.(frames := q.frames[1..]), s, log)
  {
    var fs := q.frames[1..];
    forall k | 0 <= k < |fs|
      ensures fs[k].data == log[s.received[|s.received| - |fs| + k]]
    {
      assert fs[k] == q.frames[k + 1];
    }
  }

  lemma ReadBacked(q: Queue, s: Seat, log: seq<string>, max: nat)
    requires Backed(q, s, log) && WellFormedReadable(q)
    ensures Backed(ReadHead(q, max).0, s, log)
  {
    if |ReadHead(q, max).0.frames| < |q.frames| {
      PopBacked(q, s, log);
    }
  }

  lemma AnnounceSlot(w: World, frame: string, i: nat)
    requires Inv(w) && i < MAX_SUBSCRIBERS
    ensures SlotOk(Announce(w, frame), i)
  {
    assert SlotOk(w, i);
    if w.bus.slots[i].Some? {
      var q, s := w.bus.slots[i].value, w.seats[i].value;
      if q.closed {
        StillBacked(q, s, w.log, frame);
      } else {
        PushBacked(q, s, w.log, frame);
      }
    }
  }

  lemma AnnounceInv(w: World, m: Message)
    requires Inv(w)
    ensures Inv(Announce(w, FormatFrame(m)))
  {
    FrameShape(m);
    forall i: nat | i < MAX_SUBSCRIBERS
      ensures SlotOk(Announce(w, FormatFrame(m)), i)
    {
      AnnounceSlot(w, FormatFrame(m), i);
    }
    OccupiedSame(w.bus.slots, Broadcast(w.bus, FormatFrame(m)).slots);
  }

  lemma JoinInv(w: World)
    requires Inv(w)
    ensures Inv(Do(w, Join))
    ensures Subscribe(w.bus).1.Some? <==> !w.bus.shuttingDown && Occupied(w.bus.slots) < MAX_SUBSCRIBERS
  {
    OccupiedBound(w.bus.slots);
    if !w.bus.shuttingDown && w.bus.nSubs < MAX_SUBSCRIBERS {
      var k := FirstFree(w.bus.slots);
      var w' := Do(w, Join);
      OccupiedSet(w.bus.slots, k, Some(Primed(w.bus.cached)));
      assert Range(|w.log|, |w.log|) == [];
      forall i: nat | i < MAX_SUBSCRIBERS
        ensures SlotOk(w', i)
      {
        assert SlotOk(w, i);
      }
    }
  }

  lemma LeaveInv(w: World, k: nat)
    requires Inv(w) && k < MAX_SUBSCRIBERS
    ensures Inv(Do(w, Leave(k)))
  {
    var w' := Do(w, Leave(k));
    assert SlotOk(w, k);
    OccupiedSet(w.bus.slots, k, None);
    forall i: nat | i < MAX_SUBSCRIBERS ensures SlotOk(w', i) { assert SlotOk(w, i); }
  }

  lemma ReadInv(w: World, k: nat, max: nat)
    requires Inv(w)
    ensures Inv(Do(w, Read(k, max)))
  {
    var w' := Do(w, Read(k, max));
    if w' != w {
      assert SlotOk(w, k);
      ReadBacked(w.bus.slots[k].value, w.seats[k].value, w.log, max);
      OccupiedSet(w.bus.slots, k, w'.bus.slots[k]);
      forall i: nat | i < MAX_SUBSCRIBERS ensures SlotOk(w', i) { assert SlotOk(w, i); }
    }
  }

  lemma StopInv(w: World)
    requires Inv(w)
    ensures Inv(Do(w, Stop))
  {
    var w' := Do(w, Stop);
    forall i: nat | i < MAX_SUBSCRIBERS ensures SlotOk(w', i) { assert SlotOk(w, i); }
    OccupiedSame(w.bus.slots, w'.bus.slots);
  }

  lemma SwapInv(w: World, e: nat)
    requires Inv(w)
    ensures Inv(Do(w, Swap(e)))
  {
    var w' := Do(w, Swap(e));
    forall i: nat | i < MAX_SUBSCRIBERS ensures SlotOk(w', i) { assert SlotOk(w, i); }
  }

  lemma {:induction false} StepInv(w: World, a: Act)
    requires Inv(w)
    ensures Inv(Do(w, a))
  {
    match a {
      case Emit(m) => AnnounceInv(w, m);
      case EmitState(e, m) =>
        AnnounceInv(w, m);
        if e !in w.pending {
          var w1, w' := Announce(w, FormatFrame(m)), Do(w, a);
          forall i: nat | i < MAX_SUBSCRIBERS ensures SlotOk(w', i) { assert SlotOk(w1, i); }
        }
      case Join => JoinInv(w);
      case Leave(k) => if k < MAX_SUBSCRIBERS { LeaveInv(w, k); }
      case Read(k, max) => ReadInv(w, k, max);
      case Stop => StopInv(w);
      case Swap(e) => SwapInv(w, e);
    }
  }

  /** After any interleaving: every attached subscriber has been handed its
      priming frame and then exactly the broadcasts since it joined, its queue
      is the newest part of that, and n_subs counts the occupied slots. */
  lemma {:induction false} RunInv(acts: seq<Act>)
    ensures Inv(After(acts))
  {
    if acts == [] {
      OccupiedNone(EMPTY_BUS.slots);
    } else {
      RunInv(acts[..|acts| - 1]);
      StepInv(After(acts[..|acts| - 1]), acts[|acts| - 1]);
    }
  }

  lemma AfterSnoc(acts: seq<Act>, a: Act)
    ensures After(acts + [a]) == Do(After(acts), a)
  {
    assert (acts + [a])[..|acts|] == acts;
  }

  lemma OccupiedNone(slots: seq<Option<Queue>>)
    requires forall i :: 0 <= i < |slots| ==> slots[i].None?
    ensures Occupied(slots) == 0
  {
    if slots != [] { OccupiedNone(slots[1..]); }
  }

  // --- What the invariant means for subscribers ---

  lemma {:induction false} SeatedExact(acts: seq<Act>, i: nat)
    requires Seated(After(acts), i).Some?
    ensures SeatExact(Seated(After(acts), i).value, End(After(acts)))
  {
    RunInv(acts);
    assert SlotOk(After(acts), i);
  }

  /** The receipts of a seat from a position of the global order on. */
  function Since(s: Seat, from: nat, end: nat): seq<nat> {
    if from <= end && end - from <= |s.received| then s.received[|s.received| - (end - from)..] else []
  }

  lemma ExactTail(s: Seat, end: nat, from: nat)
    requires SeatExact(s, end) && s.joined <= from <= end
    ensures Since(s, from, end) == Range(from, end)
  {}

  /** While both are attached, two subscribers receive the same emissions in
      the same order: everything emitted since the later joining, once each. */
  lemma {:induction false} SameOrder(acts: seq<Act>, i: nat, j: nat)
    requires Seated(After(acts), i).Some? && Seated(After(acts), j).Some?
    requires Seated(After(acts), i).value.joined <= Seated(After(acts), j).value.joined
    ensures var a, b := Seated(After(acts), i).value, Seated(After(acts), j).value;
            var end := End(After(acts));
            && b.joined <= end
            && Since(a, b.joined, end) == Since(b, b.joined, end) == Range(b.joined, end)
  {
    SeatedExact(acts, i);
    SeatedExact(acts, j);
    var from := Seated(After(acts), j).value.joined;
    ExactTail(Seated(After(acts), i).value, End(After(acts)), from);
    ExactTail(Seated(After(acts), j).value, End(After(acts)), from);
  }

  /** No emission reaches a subscriber twice, the priming frame included:
      receipts strictly increase in the global order. */
  lemma NoDuplicates(acts: seq<Act>, i: nat, x: nat, y: nat)
    requires Seated(After(acts), i).Some?
    requires x < y < |Seated(After(acts), i).value.received|
    ensures Seated(After(acts), i).value.received[x] < Seated(After(acts), i).value.received[y]
  {
    SeatedExact(acts, i);
  }

  // --- After shutdown ---

  /** The seats only empty, and keep their receipts. */
  ghost predicate OnlyEmptied(a: seq<Option<Seat>>, b: seq<Option<Seat>>) {
    |a| == |b| == MAX_SUBSCRIBERS && forall i :: 0 <= i < MAX_SUBSCRIBERS ==> b[i] == a[i] || b[i].None?
  }

  /** Once stopped, nobody new is seated and nobody seated is handed anything. */
  lemma {:induction false} StoppedIsQuiet(acts: seq<Act>, more: seq<Act>)
    requires After(acts).stoppedAt.Some?
    ensures After(acts + more).stoppedAt == After(acts).stoppedAt
    ensures OnlyEmptied(After(acts).seats, After(acts + more).seats)
    decreases |more|
  {
    if more == [] {
      RunInv(acts);
      assert acts + more == acts;
    } else {
      var init, a := more[..|more| - 1], more[|more| - 1];
      StoppedIsQuiet(acts, init);
      RunInv(acts + init);
      AfterSnoc(acts + init, a);
      assert acts + more == acts + init + [a];
      StoppedStep(After(acts + init), a);
    }
  }

  lemma StoppedStep(w: World, a: Act)
    requires Inv(w) && w.stoppedAt.Some?
    ensures Do(w, a).stoppedAt == w.stoppedAt && OnlyEmptied(w.seats, Do(w, a).seats)
  {
    forall i: nat | i < MAX_SUBSCRIBERS
      ensures Do(w, a).seats[i] == w.seats[i] || Do(w, a).seats[i].None?
    {
      assert SlotOk(w, i);
    }
  }
}
