/** The broadcaster in place: ring buffers, slots and the cached frame as the
    source updates them (src/api/sse.c:23-217, 244-387), each operation tied to
    the value operations of SseQueue and SseBus. */
module SseBroadcaster {
  import opened Options
  import opened SseQueue
  import opened SseBus
  import opened SseOrder

  /** The ring index `k` places after the head. */
  function At(head: nat, k: nat): (i: nat)
    ensures i < QUEUE_DEPTH
  {
    (head + k) % QUEUE_DEPTH
  }

  /** The queue that a ring holds: `count` frames from `head` on, wrapping. */
  function Unroll(ring: seq<Frame>, head: nat, count: nat): (r: seq<Frame>)
    requires |ring| == QUEUE_DEPTH
    ensures |r| == count && forall k :: 0 <= k < count ==> r[k] == ring[At(head, k)]
  {
    seq(count, k requires 0 <= k < count => ring[At(head, k)])
  }

  lemma AtNext(head: nat, k: nat)
    requires head < QUEUE_DEPTH && k + 1 < QUEUE_DEPTH
    ensures At(At(head, 1), k) == At(head, k + 1) != head
  {}

  lemma AtDistinct(head: nat, k: nat, m: nat)
    requires head < QUEUE_DEPTH && k < m < QUEUE_DEPTH
    ensures At(head, k) != At(head, m) && At(head, 0) == head
  {}

  lemma UnrollPop(ring: seq<Frame>, head: nat, count: nat, f: Frame)
    requires |ring| == QUEUE_DEPTH && head < QUEUE_DEPTH && 0 < count <= QUEUE_DEPTH
    ensures Unroll(ring[head := f], At(head, 1), count - 1) == Unroll(ring, head, count)[1..]
  {
    var a, b := Unroll(ring[head := f], At(head, 1), count - 1), Unroll(ring, head, count)[1..];
    forall k: nat | k < count - 1
      ensures a[k] == b[k]
    {
      AtNext(head, k);
    }
  }

  lemma UnrollPush(ring: seq<Frame>, head: nat, count: nat, f: Frame)
    requires |ring| == QUEUE_DEPTH && head < QUEUE_DEPTH && count < QUEUE_DEPTH
    ensures Unroll(ring[At(head, count) := f], head, count + 1) == Unroll(ring, head, count) + [f]
  {
    forall k: nat | k < count
      ensures At(head, k) != At(head, count)
    {
      AtDistinct(head, k, count);
    }
  }

  lemma UnrollHead(ring: seq<Frame>, head: nat, count: nat, f: Frame)
    requires |ring| == QUEUE_DEPTH && head < QUEUE_DEPTH && 0 < count <= QUEUE_DEPTH
    ensures Unroll(ring[head := f], head, count) == Unroll(ring, head, count)[0 := f]
  {
    forall k: nat | 0 < k < count
      ensures At(head, k) != At(head, 0) == head
    {
      AtDistinct(head, 0, k);
    }
  }

  class Subscriber {
    const ring: array<Frame>
    var head: nat
    var count: nat
    var closed: bool
    var slot: int
    ghost var view: Queue

    ghost predicate Valid()
      reads this, ring
    {
      && ring.Length == QUEUE_DEPTH && head < QUEUE_DEPTH && count <= QUEUE_DEPTH
      && view == Queue(Unroll(ring[..], head, count), closed) && WellFormed(view)
    }

    constructor ()
      ensures Valid() && view == EMPTY && fresh(ring) && slot == -1
    {
      ring := new Frame[QUEUE_DEPTH](_ => Frame("", 0));
      head, count, closed, slot, view := 0, 0, false, -1, EMPTY;
    }

    method DropOldest()
      requires Valid()
      modifies `head, `count, `view, ring
      ensures Valid() && view == SseQueue.DropOldest(old(view))
      ensures old(count) > 0 ==> count == old(count) - 1
    {
      if count == 0 { return; }
      ghost var was, rest, none := ring[..], view.frames[1..], Frame("", 0);
      UnrollPop(was, head, count, none);
      assert Unroll(was[head := none], At(head, 1), count - 1) == rest;
      ring[head] := Frame("", 0);
      assert ring[..] == was[head := none];
      head := (head + 1) % QUEUE_DEPTH;
      count := count - 1;
      view := view.(frames := rest);
    }

    method EnqueueLocked(frame: string)
      requires Valid()
      modifies `head, `count, `view, ring
      ensures Valid() && view == SseQueue.Enqueue(old(view), frame)
    {
      if closed { return; }
      if count == QUEUE_DEPTH {
        DropOldest();
      }
      ghost var was := ring[..];
      var tail := (head + count) % QUEUE_DEPTH;
      UnrollPush(was, head, count, Frame(frame, 0));
      ring[tail] := Frame(frame, 0);
      assert ring[..] == was[tail := Frame(frame, 0)];
      count := count + 1;
      view := view.(frames := view.frames + [Frame(frame, 0)]);
    }

    /** The locked part of the read: one look at the queue, which ends the read
        or sends the reader into its timed wait. */
    method ReadLocked(max: nat) returns (reader: Reader, out: Output)
      requires Valid()
      modifies `head, `count, `view, ring
      ensures Valid()
      ensures (State(view, reader), out) == Attempt(old(view), max)
    {
      if count == 0 {
        if closed { return Idle, Eof; }
        return Waiting(max), Silent;
      }
      ghost var was := ring[..];
      var f := ring[head];
      assert f == view.frames[0];
      var avail := |f.data| - f.pos;
      var n := if avail < max then avail else max;
      reader, out := Idle, Data(f.data[f.pos..f.pos + n]);
      view := ReadHead(view, max).0;
      if f.pos + n == |f.data| {
        UnrollPop(was, head, count, Frame("", 0));
        ring[head] := Frame("", 0);
        assert ring[..] == was[head := Frame("", 0)];
        head := (head + 1) % QUEUE_DEPTH;
        count := count - 1;
      } else {
        UnrollHead(was, head, count, Frame(f.data, f.pos + n));
        ring[head] := Frame(f.data, f.pos + n);
        assert ring[..] == was[head := Frame(f.data, f.pos + n)];
      }
    }

    method Shut()
      requires Valid()
      modifies `closed, `view
      ensures Valid() && view == old(view).(closed := true)
    {
      closed := true;
      view := view.(closed := true);
    }

    /** The second half of closing a subscriber: drop what is queued. */
    method Drain()
      requires Valid()
      modifies `head, `count, `closed, `view, ring
      ensures Valid() && view == Queue([], true)
    {
      while count > 0
        invariant Valid()
        decreases count
      {
        DropOldest();
      }
      closed := true;
      view := Queue([], true);
    }
  }

  /** A slot table whose first `i` slots are already the new ones. */
  ghost function Spliced(was: seq<Option<Queue>>, now: seq<Option<Queue>>, i: nat): (r: seq<Option<Queue>>)
    requires i <= |was| == |now|
    ensures i == 0 ==> r == was
    ensures i == |was| ==> r == now
  {
    now[..i] + was[i..]
  }

  lemma Spread(was: seq<Option<Queue>>, now: seq<Option<Queue>>, i: nat)
    requires i < |was| == |now|
    ensures Spliced(was, now, i)[i] == was[i]
    ensures Spliced(was, now, i + 1) == Spliced(was, now, i)[i := now[i]]
  {}

  ghost function Own(s: Subscriber?): set<object> {
    if s == null then {} else {s, s.ring}
  }

  class Broadcaster {
    const subs: array<Subscriber?>
    var nSubs: nat
    var cachedFrame: Option<string>
    var shuttingDown: bool
    ghost var members: set<object>

    /** Everything attached is a member, and no two slots share a ring. */
    ghost predicate Apart()
      reads `members, subs
    {
      && subs.Length == MAX_SUBSCRIBERS && this !in members && subs !in members
      && (forall i :: 0 <= i < MAX_SUBSCRIBERS && subs[i] != null ==> subs[i] in members && subs[i].ring in members)
      && (forall i, j :: 0 <= i < j < MAX_SUBSCRIBERS && subs[i] != null && subs[j] != null ==>
            subs[i] != subs[j] && subs[i].ring != subs[j].ring)
    }

    ghost predicate Sound()
      reads `members, subs, members
    {
      && Apart()
      && forall i :: 0 <= i < MAX_SUBSCRIBERS && subs[i] != null ==> subs[i].Valid() && subs[i].slot == i
    }

    /** The first `n` slots as the value model sees them. */
    ghost function FirstSlots(n: nat): (r: seq<Option<Queue>>)
      requires Apart() && n <= MAX_SUBSCRIBERS
      reads `members, subs, members
      ensures |r| == n
      ensures forall i :: 0 <= i < n ==> r[i] == if subs[i] == null then None else Some(subs[i].view)
    {
      if n == 0 then [] else FirstSlots(n - 1) + [if subs[n - 1] == null then None else Some(subs[n - 1].view)]
    }

    ghost function Slots(): (r: seq<Option<Queue>>)
      requires Apart()
      reads `members, subs, members
      ensures |r| == MAX_SUBSCRIBERS
      ensures forall i :: 0 <= i < MAX_SUBSCRIBERS ==> r[i] == if subs[i] == null then None else Some(subs[i].view)
    {
      FirstSlots(MAX_SUBSCRIBERS)
    }

    ghost function View(): Bus
      requires Apart()
      reads this, subs, members
    {
      Bus(Slots(), nSubs, cachedFrame, shuttingDown)
    }

    ghost predicate Valid()
      reads this, subs, members
    {
      Sound() && nSubs == Occupied(Slots())
    }

    constructor ()
      ensures Valid() && View() == EMPTY_BUS && fresh(subs) && members == {}
    {
      subs := new Subscriber?[MAX_SUBSCRIBERS](_ => null);
      nSubs, cachedFrame, shuttingDown, members := 0, None, false, {};
      new;
      OccupiedNone(Slots());
      assert Slots() == EMPTY_BUS.slots;
    }

    /** One turn of the fan-out loop. */
    method DeliverAt(i: nat, frame: string)
      requires Sound() && i < MAX_SUBSCRIBERS
      modifies Own(subs[i])
      ensures Sound() && Slots() == old(Slots())[i := Deliver(old(Slots())[i], frame)]
    {
      ghost var was := Slots();
      var s := subs[i];
      if s != null {
        s.EnqueueLocked(frame);
      }
      assert Slots() == was[i := Deliver(was[i], frame)];
    }

    method BroadcastFrame(frame: string)
      requires Valid()
      modifies members
      ensures Valid() && View() == Broadcast(old(View()), frame)
    {
      ghost var was := Slots();
      for i := 0 to MAX_SUBSCRIBERS
        invariant Sound()
        invariant Slots() == Spliced(was, PushAll(was, frame), i)
      {
        Spread(was, PushAll(was, frame), i);
        DeliverAt(i, frame);
      }
      OccupiedSame(was, PushAll(was, frame));
    }

    /** The first locked half of a caching emission is BroadcastFrame, this the second. */
    method SwapCache(frame: string)
      requires Valid()
      modifies `cachedFrame
      ensures Valid() && View() == old(View()).(cached := Some(frame))
    {
      ghost var was := Slots();
      cachedFrame := Some(frame);
      assert Slots() == was;
    }

    method QuiesceAt(i: nat)
      requires Sound() && i < MAX_SUBSCRIBERS
      modifies Own(subs[i])
      ensures Sound() && Slots() == old(Slots())[i := Quiesce(old(Slots())[i])]
    {
      ghost var was := Slots();
      var s := subs[i];
      if s != null {
        s.Shut();
      }
      assert Slots() == was[i := Quiesce(was[i])];
    }

    method QuiesceAll()
      requires Sound()
      modifies members
      ensures Sound() && Slots() == ShutAll(old(Slots()))
    {
      ghost var was := Slots();
      for i := 0 to MAX_SUBSCRIBERS
        invariant Sound()
        invariant Slots() == Spliced(was, ShutAll(was), i)
      {
        Spread(was, ShutAll(was), i);
        QuiesceAt(i);
      }
    }

    method Shutdown()
      requires Valid()
      modifies `shuttingDown, members
      ensures Valid() && View() == SseBus.Shutdown(old(View()))
    {
      OccupiedSame(Slots(), ShutAll(Slots()));
      shuttingDown := true;
      QuiesceAll();
    }

    method Attach(s: Subscriber, i: nat)
      requires Sound() && i < MAX_SUBSCRIBERS && subs[i] == null
      requires s.Valid() && s !in members && s.ring !in members
      modifies `members, subs, s`slot
      ensures Sound() && Slots() == old(Slots())[i := Some(s.view)]
      ensures subs[i] == s && s.slot == i && members == old(members) + {s, s.ring}
      ensures unchanged(s`view, s.ring) && s.Valid()
    {
      ghost var was := Slots();
      subs[i] := s;
      s.slot := i;
      members := members + {s, s.ring};
      assert Slots() == was[i := Some(s.view)];
    }

    method FreeSlot() returns (i: nat)
      requires Valid() && nSubs < MAX_SUBSCRIBERS
      ensures i < MAX_SUBSCRIBERS && i == FirstFree(Slots()) && subs[i] == null
    {
      OccupiedBound(Slots());
      i := 0;
      while subs[i] != null
        invariant i <= FirstFree(Slots()) < MAX_SUBSCRIBERS
        decreases MAX_SUBSCRIBERS - i
      {
        i := i + 1;
      }
    }

    /** Push-on-connect: the cached frame, if any, is the first message. */
    method PrimeAt(i: nat)
      requires Sound() && i < MAX_SUBSCRIBERS && Slots()[i] == Some(EMPTY)
      modifies Own(subs[i])
      ensures Sound() && Slots() == old(Slots())[i := Some(Primed(cachedFrame))]
      ensures subs[i].slot == old(subs[i].slot)
    {
      if cachedFrame.Some? && cachedFrame.value != "" {
        DeliverAt(i, cachedFrame.value);
      }
    }

    method Place(s: Subscriber, i: nat)
      requires Sound() && i < MAX_SUBSCRIBERS && subs[i] == null
      requires s.Valid() && s.view == EMPTY && s !in members && s.ring !in members
      modifies `members, subs, s, s.ring
      ensures Sound() && Slots() == old(Slots())[i := Some(Primed(cachedFrame))] && subs[i] == s && s.slot == i
    {
      Attach(s, i);
      PrimeAt(i);
    }

    method Seat(s: Subscriber)
      requires Valid() && nSubs < MAX_SUBSCRIBERS
      requires s.Valid() && s.view == EMPTY && s !in members && s.ring !in members
      modifies `members, subs, s, s.ring
      ensures FirstFree(old(Slots())) < MAX_SUBSCRIBERS && s.slot == FirstFree(old(Slots())) && subs[s.slot] == s
      ensures Sound() && Slots() == old(Slots())[s.slot := Some(Primed(cachedFrame))]
    {
      var i := FreeSlot();
      Place(s, i);
    }

    method Admit(s: Subscriber)
      requires Valid() && nSubs < MAX_SUBSCRIBERS
      requires s.Valid() && s.view == EMPTY && s !in members && s.ring !in members
      modifies `nSubs, `members, subs, s, s.ring
      ensures FirstFree(old(Slots())) < MAX_SUBSCRIBERS && s.slot == FirstFree(old(Slots())) && subs[s.slot] == s
      ensures Valid() && Slots() == old(Slots())[s.slot := Some(Primed(cachedFrame))] && nSubs == old(nSubs) + 1
    {
      ghost var was := Slots();
      Seat(s);
      OccupiedSet(was, s.slot, Some(Primed(cachedFrame)));
      nSubs := nSubs + 1;
    }

    method Subscribe() returns (s: Subscriber?)
      requires Valid()
      modifies `nSubs, `members, subs
      ensures Valid() && View() == SseBus.Subscribe(old(View())).0
      ensures s == null <==> SseBus.Subscribe(old(View())).1.None?
      ensures s != null ==> fresh(s) && 0 <= s.slot < MAX_SUBSCRIBERS && subs[s.slot] == s
                            && s.slot == SseBus.Subscribe(old(View())).1.value
    {
      s := new Subscriber();
      OccupiedBound(Slots());
      if shuttingDown || nSubs >= MAX_SUBSCRIBERS { return null; }
      Admit(s);
    }

    method Close(s: Subscriber)
      requires Valid() && 0 <= s.slot < MAX_SUBSCRIBERS && subs[s.slot] == s
      modifies `nSubs, subs, s, s.ring
      ensures s.Valid() && s.view == Queue([], true) && s.slot == old(s.slot)
      ensures Valid() && View() == SseBus.Close(old(View()), s.slot)
    {
      ghost var was := Slots();
      OccupiedSet(was, s.slot, None);
      subs[s.slot] := null;
      nSubs := nSubs - 1;
      s.Drain();
      assert Slots() == was[s.slot := None];
    }
  }
}
