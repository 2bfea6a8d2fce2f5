/** One subscriber of the event broadcaster, on values: the bounded frame queue
    and the reader that drains it (src/api/sse.c).  Every region that the
    source runs under the subscriber mutex is one step, so a sequence of labels
    is one interleaving of the emitting threads with the reading thread.
    Bytes are chars. */
module SseQueue {
  const QUEUE_DEPTH: nat := 256
  const HEARTBEAT: string := ":heartbeat\n\n"

  datatype Frame = Frame(data: string, pos: nat)
  datatype Queue = Queue(frames: seq<Frame>, closed: bool)

  const EMPTY: Queue := Queue([], false)

  function DropOldest(q: Queue): Queue {
    if q.frames == [] then q else q.(frames := q.frames[1..])
  }

  function Enqueue(q: Queue, data: string): Queue {
    if q.closed then q
    else
      var r := if |q.frames| == QUEUE_DEPTH then DropOldest(q) else q;
      r.(frames := r.frames + [Frame(data, 0)])
  }

  function Min(a: nat, b: nat): nat { if a < b then a else b }

  /** What the head frame still owes its reader. */
  function Avail(f: Frame): nat {
    if f.pos <= |f.data| then |f.data| - f.pos else 0
  }

  /** Copies out of the head frame; the frame leaves the queue once all of it is read. */
  function ReadHead(q: Queue, max: nat): (r: (Queue, string))
    requires q.frames != [] && q.frames[0].pos <= |q.frames[0].data|
  {
    var f := q.frames[0];
    var n := Min(Avail(f), max);
    var bytes := f.data[f.pos..f.pos + n];
    if f.pos + n == |f.data| then (q.(frames := q.frames[1..]), bytes)
    else (q.(frames := q.frames[0 := f.(pos := f.pos + n)]), bytes)
  }

  /** Only the head may be partly read, and a frame never outlives its last byte. */
  ghost predicate WellFormed(q: Queue) {
    && |q.frames| <= QUEUE_DEPTH
    && (forall k :: 0 <= k < |q.frames| ==> q.frames[k].pos < |q.frames[k].data| || q.frames[k].pos == 0)
    && (forall k :: 1 <= k < |q.frames| ==> q.frames[k].pos == 0)
  }

  // --- The reader and its interleavings ---

  datatype Reader = Idle | Waiting(max: nat)
  datatype State = State(q: Queue, reader: Reader)

  /** Push and Shut come from the broadcaster.  Call enters the read; Wake is a
      signalled or spurious return of the timed wait, Timeout its expiry. */
  datatype Label = Push(data: string) | Shut | Call(max: nat) | Wake | Timeout

  /** What a step hands to the client: nothing, bytes, a heartbeat, 0 or -1. */
  datatype Output = Silent | Data(bytes: string) | Heartbeat | Retry | Eof

  const START: State := State(EMPTY, Idle)

  /** The locked part of the read, from the count test to the return. */
  function Attempt(q: Queue, max: nat): (State, Output)
    requires q.frames != [] ==> q.frames[0].pos <= |q.frames[0].data|
  {
    if q.frames == [] then
      if q.closed then (State(q, Idle), Eof) else (State(q, Waiting(max)), Silent)
    else
      var (q', bytes) := ReadHead(q, max);
      (State(q', Idle), Data(bytes))
  }

  /** Labels that make no sense in a state (a second Call, a Wake with nobody
      waiting) leave it alone, so that every label sequence is a run. */
  function Step(s: State, l: Label): (r: (State, Output))
    requires WellFormed(s.q)
    ensures WellFormed(r.0.q)
  {
    match l
    case Push(data) => (s.(q := Enqueue(s.q, data)), Silent)
    case Shut => (s.(q := s.q.(closed := true)), Silent)
    case Call(max) =>
      if s.reader.Waiting? then (s, Silent)
      else if max == 0 then (s, Retry)
      else Attempt(s.q, max)
    case Wake => if s.reader.Idle? then (s, Silent) else Attempt(s.q, s.reader.max)
    case Timeout =>
      if s.reader.Idle? then (s, Silent)
      else if s.reader.max < |HEARTBEAT| then (s.(reader := Idle), Retry)
      else (s.(reader := Idle), Heartbeat)
  }

  function Run(ls: seq<Label>): (r: (State, seq<Output>))
    ensures WellFormed(r.0.q)
  {
    if ls == [] then (START, [])
    else
      var (s, outs) := Run(ls[..|ls| - 1]);
      var (s', out) := Step(s, ls[|ls| - 1]);
      (s', outs + [out])
  }

  /** Everything written to the client, and the part of it that is not heartbeats. */
  function Wire(outs: seq<Output>): string {
    if outs == [] then ""
    else Wire(outs[..|outs| - 1]) + match outs[|outs| - 1]
                                    case Data(bytes) => bytes
                                    case Heartbeat => HEARTBEAT
                                    case _ => ""
  }

  function DataBytes(outs: seq<Output>): string {
    if outs == [] then ""
    else DataBytes(outs[..|outs| - 1]) + match outs[|outs| - 1] case Data(bytes) => bytes case _ => ""
  }

  /** Frames taken over by the queue: those pushed before it closed. */
  function Accepted(ls: seq<Label>): seq<string> {
    if ls == [] then []
    else Accepted(ls[..|ls| - 1]) +
         match ls[|ls| - 1]
         case Push(data) => if Run(ls[..|ls| - 1]).0.q.closed then [] else [data]
         case _ => []
  }

  predicate Overflows(s: State, l: Label) {
    l.Push? && !s.q.closed && |s.q.frames| == QUEUE_DEPTH
  }

  function Overflowed(ls: seq<Label>): nat {
    if ls == [] then 0
    else Overflowed(ls[..|ls| - 1]) +
         if Overflows(Run(ls[..|ls| - 1]).0, ls[|ls| - 1]) then 1 else 0
  }

  // --- The client's account of a run ---

  /** A frame of which the client saw the first `cut` bytes before it left the
      queue (dropped or read to its end), or a heartbeat. */
  datatype Piece = Part(data: string, cut: nat, dropped: bool) | Beat

  predicate GoodPiece(p: Piece) {
    p.Part? ==> p.cut <= |p.data| && (!p.dropped ==> p.cut == |p.data|)
  }

  predicate AllGood(ps: seq<Piece>) {
    forall i :: 0 <= i < |ps| ==> GoodPiece(ps[i])
  }

  function Text(p: Piece): string {
    match p case Beat => HEARTBEAT case Part(data, cut, _) => if cut <= |data| then data[..cut] else data
  }

  function Render(ps: seq<Piece>): string {
    if ps == [] then "" else Render(ps[..|ps| - 1]) + Text(ps[|ps| - 1])
  }

  function NoBeats(ps: seq<Piece>): seq<Piece> {
    if ps == [] then []
    else NoBeats(ps[..|ps| - 1]) + if ps[|ps| - 1].Beat? then [] else [ps[|ps| - 1]]
  }

  function Sources(ps: seq<Piece>): seq<string> {
    if ps == [] then []
    else Sources(ps[..|ps| - 1]) + if ps[|ps| - 1].Beat? then [] else [ps[|ps| - 1].data]
  }

  function Drops(ps: seq<Piece>): nat {
    if ps == [] then 0
    else Drops(ps[..|ps| - 1]) + if ps[|ps| - 1].Part? && ps[|ps| - 1].dropped then 1 else 0
  }

  /** The text rendered so far does not stop inside a frame. */
  predicate OnBoundary(ps: seq<Piece>) {
    if ps == [] then true
    else
      match ps[|ps| - 1]
      case Beat => true
      case Part(_, cut, dropped) => if dropped && cut == 0 then OnBoundary(ps[..|ps| - 1]) else !dropped
  }

  predicate BeatsOnBoundaries(ps: seq<Piece>) {
    forall i :: 0 <= i < |ps| && ps[i].Beat? ==> OnBoundary(ps[..i])
  }

  function Queued(fs: seq<Frame>): (r: seq<string>)
    ensures |r| == |fs| && forall k :: 0 <= k < |fs| ==> r[k] == fs[k].data
  {
    seq(|fs|, k requires 0 <= k < |fs| => fs[k].data)
  }

  /** The prefix of the head frame that the client already has. */
  function Begun(q: Queue): string {
    if q.frames == [] || |q.frames[0].data| < q.frames[0].pos then ""
    else q.frames[0].data[..q.frames[0].pos]
  }

  ghost predicate ExplainsWire(ps: seq<Piece>, q: Queue, wire: string) {
    AllGood(ps) && wire == Render(ps) + Begun(q)
  }

  ghost predicate ExplainsFrames(ps: seq<Piece>, q: Queue, accepted: seq<string>, lost: nat) {
    Sources(ps) + Queued(q.frames) == accepted && Drops(ps) == lost
  }

  ghost predicate ExplainsBeats(ps: seq<Piece>, s: State) {
    && BeatsOnBoundaries(ps)
    && (s.q.frames == [] || s.reader.Waiting? ==> OnBoundary(ps) && Begun(s.q) == "")
  }

  /** `ps` explains what the client received: the wire is the pieces in order
      followed by the begun head, and likewise for the wire without heartbeats;
      the pieces and then the queue hold every accepted frame once and in order;
      exactly `lost` frames were dropped; heartbeats do not split frames. */
  ghost predicate Explains(ps: seq<Piece>, s: State, accepted: seq<string>, lost: nat, wire: string, data: string) {
    && ExplainsWire(ps, s.q, wire)
    && ExplainsWire(NoBeats(ps), s.q, data)
    && ExplainsFrames(ps, s.q, accepted, lost)
    && ExplainsBeats(ps, s)
  }

  lemma ExtendText(ps: seq<Piece>, p: Piece)
    ensures Render(ps + [p]) == Render(ps) + Text(p)
  {
    assert (ps + [p])[..|ps|] == ps;
  }

  lemma ExtendCounts(ps: seq<Piece>, p: Piece)
    ensures Sources(ps + [p]) == Sources(ps) + if p.Beat? then [] else [p.data]
    ensures Drops(ps + [p]) == Drops(ps) + if p.Part? && p.dropped then 1 else 0
    ensures OnBoundary(ps + [p]) == (p.Beat? || if p.dropped && p.cut == 0 then OnBoundary(ps) else !p.dropped)
  {
    assert (ps + [p])[..|ps|] == ps;
  }

  lemma ExtendBeats(ps: seq<Piece>, p: Piece)
    requires BeatsOnBoundaries(ps) && (p.Beat? ==> OnBoundary(ps))
    ensures BeatsOnBoundaries(ps + [p])
  {
    var qs := ps + [p];
    forall i | 0 <= i < |qs| && qs[i].Beat?
      ensures OnBoundary(qs[..i])
    {
      assert qs[..i] == ps[..i];
      assert i == |ps| ==> ps[..i] == ps;
    }
  }
}
