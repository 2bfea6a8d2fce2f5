/** The event broadcaster on values: eight slots, the cached state frame, and
    every interleaving of emit, the two locked halves of emit_cached, subscribe,
    close, read and shutdown (src/api/sse.c:154-217, 244-327). */
module SseBus {
  import opened Options
  import opened SseQueue
  import opened SseWire

  const MAX_SUBSCRIBERS: nat := 8

  datatype Bus = Bus(slots: seq<Option<Queue>>, nSubs: nat, cached: Option<string>, shuttingDown: bool)

  function Deliver(o: Option<Queue>, frame: string): Option<Queue> {
    match o case None => None case Some(q) => Some(Enqueue(q, frame))
  }

  function Quiesce(o: Option<Queue>): Option<Queue> {
    match o case None => None case Some(q) => Some(q.(closed := true))
  }

  function PushAll(slots: seq<Option<Queue>>, frame: string): (r: seq<Option<Queue>>)
    ensures |r| == |slots| && forall i :: 0 <= i < |r| ==> r[i] == Deliver(slots[i], frame)
  {
    seq(|slots|, i requires 0 <= i < |slots| => Deliver(slots[i], frame))
  }

  function ShutAll(slots: seq<Option<Queue>>): (r: seq<Option<Queue>>)
    ensures |r| == |slots| && forall i :: 0 <= i < |r| ==> r[i] == Quiesce(slots[i])
  {
    seq(|slots|, i requires 0 <= i < |slots| => Quiesce(slots[i]))
  }

  function Broadcast(b: Bus, frame: string): Bus { b.(slots := PushAll(b.slots, frame)) }

  function Shutdown(b: Bus): Bus { b.(shuttingDown := true, slots := ShutAll(b.slots)) }

  function FirstFree(slots: seq<Option<Queue>>): (k: nat)
    ensures k <= |slots|
    ensures forall i :: 0 <= i < k ==> slots[i].Some?
    ensures k < |slots| ==> slots[k].None?
  {
    if slots == [] || slots[0].None? then 0 else 1 + FirstFree(slots[1..])
  }

  function Primed(cached: Option<string>): Queue {
    if cached.Some? && cached.value != "" then Enqueue(EMPTY, cached.value) else EMPTY
  }

  /** The slot taken, or nothing when full or shutting down.  (With a slot count
      below the maximum there always is a free slot: see SseOrder.JoinInv.) */
  function Subscribe(b: Bus): (Bus, Option<nat>) {
    if b.shuttingDown || b.nSubs >= MAX_SUBSCRIBERS || FirstFree(b.slots) == |b.slots| then (b, None)
    else
      var k := FirstFree(b.slots);
      (b.(slots := b.slots[k := Some(Primed(b.cached))], nSubs := b.nSubs + 1), Some(k))
  }

  function Close(b: Bus, k: nat): Bus {
    if k < |b.slots| && b.slots[k].Some? && b.nSubs > 0
    then b.(slots := b.slots[k := None], nSubs := b.nSubs - 1) else b
  }

  function Occupied(slots: seq<Option<Queue>>): nat {
    if slots == [] then 0 else (if slots[0].Some? then 1 else 0) + Occupied(slots[1..])
  }

  // --- Interleavings with their history ---

  /** What one attached subscriber was handed, as positions in the global order
      of emissions: its priming frame and then the broadcasts it was there for. */
  datatype Seat = Seat(joined: nat, prime: Option<nat>, received: seq<nat>)

  /** `log` is the global order of emissions and `states` the positions in it of
      the caching ones; `pending` holds, per emitting thread, a caching emission
      that is broadcast but not yet cached; `cachedAt` is what the cache holds. */
  datatype World = World(bus: Bus, log: seq<string>, states: seq<nat>, seats: seq<Option<Seat>>,
                         pending: map<nat, nat>, cachedAt: Option<nat>, stoppedAt: Option<nat>)

  datatype Act = Emit(m: Message) | EmitState(emitter: nat, m: Message) | Swap(emitter: nat)
               | Join | Leave(k: nat) | Read(k: nat, max: nat) | Stop

  function Vacant<T>(): (r: seq<Option<T>>)
    ensures |r| == MAX_SUBSCRIBERS && forall i :: 0 <= i < |r| ==> r[i].None?
  {
    seq(MAX_SUBSCRIBERS, _ => None)
  }

  const EMPTY_BUS: Bus := Bus(Vacant(), 0, None, false)
  const EMPTY_WORLD: World := World(EMPTY_BUS, [], [], Vacant(), map[], None, None)

  function Hand(o: Option<Queue>, s: Option<Seat>, at: nat): Option<Seat> {
    if o.Some? && s.Some? && !o.value.closed then Some(s.value.(received := s.value.received + [at])) else s
  }

  function HandAll(slots: seq<Option<Queue>>, seats: seq<Option<Seat>>, at: nat): (r: seq<Option<Seat>>)
    ensures |r| == |seats| && forall i :: 0 <= i < |r| && i < |slots| ==> r[i] == Hand(slots[i], seats[i], at)
  {
    seq(|seats|, i requires 0 <= i < |seats| => if i < |slots| then Hand(slots[i], seats[i], at) else seats[i])
  }

  function Announce(w: World, frame: string): World {
    w.(bus := Broadcast(w.bus, frame), log := w.log + [frame], seats := HandAll(w.bus.slots, w.seats, |w.log|))
  }

  function NewSeat(w: World): Seat {
    Seat(|w.log|, w.cachedAt, if w.cachedAt.Some? then [w.cachedAt.value] else [])
  }

  function Do(w: World, a: Act): World {
    match a
    case Emit(m) => Announce(w, FormatFrame(m))
    case EmitState(e, m) =>
      if e in w.pending then w
      else Announce(w, FormatFrame(m)).(pending := w.pending[e := |w.log|], states := w.states + [|w.log|])
    case Swap(e) =>
      if e !in w.pending || w.pending[e] >= |w.log| then w
      else w.(bus := w.bus.(cached := Some(w.log[w.pending[e]])),
              cachedAt := Some(w.pending[e]), pending := w.pending - {e})
    case Join =>
      var (bus, k) := Subscribe(w.bus);
      if k.None? || k.value >= |w.seats| then w.(bus := bus)
      else w.(bus := bus, seats := w.seats[k.value := Some(NewSeat(w))])
    case Leave(k) =>
      if k < |w.seats| then w.(bus := Close(w.bus, k), seats := w.seats[k := None]) else w
    case Read(k, max) =>
      if k < |w.bus.slots| && w.bus.slots[k].Some? && WellFormedReadable(w.bus.slots[k].value) && max > 0
      then w.(bus := w.bus.(slots := w.bus.slots[k := Some(ReadHead(w.bus.slots[k].value, max).0)]))
      else w
    case Stop => w.(bus := Shutdown(w.bus), stoppedAt := if w.stoppedAt.Some? then w.stoppedAt else Some(|w.log|))
  }

  predicate WellFormedReadable(q: Queue) { q.frames != [] && q.frames[0].pos <= |q.frames[0].data| }

  /** The history of slot i's occupant. */
  function Seated(w: World, i: nat): Option<Seat> {
    if i < |w.seats| then w.seats[i] else None
  }

  function After(acts: seq<Act>): World {
    if acts == [] then EMPTY_WORLD else Do(After(acts[..|acts| - 1]), acts[|acts| - 1])
  }

  // --- The invariant ---

  function Range(lo: nat, hi: nat): (r: seq<nat>)
    requires lo <= hi
    ensures |r| == hi - lo && forall k :: 0 <= k < |r| ==> r[k] == lo + k
  {
    seq(hi - lo, k requires 0 <= k < hi - lo => lo + k)
  }

  function End(w: World): nat { if w.stoppedAt.Some? then w.stoppedAt.value else |w.log| }

  /** The receipts of a seat are its priming and then exactly the emissions
      from its joining to now (or to the shutdown). */
  ghost predicate SeatExact(s: Seat, end: nat) {
    && s.joined <= end
    && (s.prime.Some? ==> s.prime.value < s.joined)
    && s.received == (if s.prime.Some? then [s.prime.value] else []) + Range(s.joined, end)
  }

  /** The queue is the newest part of what was received. */
  ghost predicate Backed(q: Queue, s: Seat, log: seq<string>) {
    && WellFormed(q)
    && |q.frames| <= |s.received|
    && (forall k :: 0 <= k < |s.received| ==> s.received[k] < |log|)
    && (forall k :: 0 <= k < |q.frames| ==> q.frames[k].data == log[s.received[|s.received| - |q.frames| + k]])
  }

  ghost predicate CacheMatches(w: World) {
    && (w.cachedAt.None? <==> w.bus.cached.None?)
    && (w.cachedAt.Some? ==> w.cachedAt.value < |w.log| && w.bus.cached.value == w.log[w.cachedAt.value])
    && (forall e <- w.pending :: w.pending[e] < |w.log|)
    && (forall i :: 0 <= i < |w.log| ==> w.log[i] != "")
  }

  ghost predicate SlotOk(w: World, i: nat)
    requires |w.bus.slots| == |w.seats| == MAX_SUBSCRIBERS && i < MAX_SUBSCRIBERS
  {
    var o, s := w.bus.slots[i], w.seats[i];
    && (o.Some? <==> s.Some?)
    && (o.Some? ==> SeatExact(s.value, End(w)) && Backed(o.value, s.value, w.log)
                    && o.value.closed == w.bus.shuttingDown)
  }

  ghost predicate Inv(w: World) {
    && |w.bus.slots| == |w.seats| == MAX_SUBSCRIBERS
    && w.bus.nSubs == Occupied(w.bus.slots)
    && (w.bus.shuttingDown <==> w.stoppedAt.Some?)
    && End(w) <= |w.log|
    && CacheMatches(w)
    && forall i :: 0 <= i < MAX_SUBSCRIBERS ==> SlotOk(w, i)
  }
}
