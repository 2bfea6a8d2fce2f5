/** From the broadcaster to the clients (src/api/sse.c:154-217, 244-387): the slots of
    SseBus with a reading thread and a client behind each, over every interleaving. */
module SseDelivery {
  import opened Options
  import opened SseQueue
  import opened SseStream
  import opened SseWire
  import opened SseClient
  import opened SseCuts
  import B = SseBus
  import O = SseOrder

  /** `hist` holds, for each slot, its occupant's run as one subscriber, and `sent` the
      messages of the global order. */
  datatype Joint = Joint(w: B.World, hist: seq<seq<Label>>, sent: seq<Message>)

  /** An action of the broadcaster other than a read, or a turn of slot k's reader. */
  datatype Move = Bus(a: B.Act) | Turn(k: nat, l: Label)

  predicate IsTurn(l: Label) { l.Call? || l.Wake? || l.Timeout? }

  function Announced(w: B.World, a: B.Act): seq<Message> {
    match a
    case Emit(m) => [m]
    case EmitState(e, m) => if e in w.pending then [] else [m]
    case _ => []
  }

  /** What the action means to slot k's subscriber, added to its run so far. */
  function Extend(w: B.World, a: B.Act, k: nat, ls: seq<Label>): seq<Label> {
    match a
    case Emit(m) => ls + [Push(FormatFrame(m))]
    case EmitState(e, m) => if e in w.pending then ls else ls + [Push(FormatFrame(m))]
    case Join =>
      if B.Subscribe(w.bus).1 != Some(k) then ls
      else if w.bus.cached.Some? then [Push(w.bus.cached.value)]
      else []
    case Leave(j) => if j == k then [] else ls
    case Stop => ls + [Shut]
    case _ => ls
  }

  function ExtendAll(w: B.World, a: B.Act, hist: seq<seq<Label>>): (r: seq<seq<Label>>)
    ensures |r| == |hist| && forall k :: 0 <= k < |r| ==> r[k] == Extend(w, a, k, hist[k])
  {
    seq(|hist|, k requires 0 <= k < |hist| => Extend(w, a, k, hist[k]))
  }

  function Step(j: Joint, v: Move): Joint {
    match v
    case Bus(a) =>
      if a.Read? then j else Joint(B.Do(j.w, a), ExtendAll(j.w, a, j.hist), j.sent + Announced(j.w, a))
    case Turn(k, l) =>
      if !IsTurn(l) || k >= |j.hist| || k >= |j.w.bus.slots| || j.w.bus.slots[k].None? then j
      else
        var s := Run(j.hist[k]).0;
        j.(w := if Reads(s, l) then B.Do(j.w, B.Read(k, Limit(s, l))) else j.w,
           hist := j.hist[k := j.hist[k] + [l]])
  }

  function NoRuns(): (r: seq<seq<Label>>)
    ensures |r| == B.MAX_SUBSCRIBERS && forall k :: 0 <= k < |r| ==> r[k] == []
  {
    seq(B.MAX_SUBSCRIBERS, _ => [])
  }

  const NO_MOVES: Joint := Joint(B.EMPTY_WORLD, NoRuns(), [])

  function After(moves: seq<Move>): Joint {
    if moves == [] then NO_MOVES else Step(After(moves[..|moves| - 1]), moves[|moves| - 1])
  }

  // --- Each slot is one subscriber's run ---

  /** The log entries at these positions. */
  function Handed(log: seq<string>, at: seq<nat>): (r: seq<string>)
    ensures |r| == |at| && forall i :: 0 <= i < |at| ==> r[i] == if at[i] < |log| then log[at[i]] else ""
  {
    seq(|at|, i requires 0 <= i < |at| => if at[i] < |log| then log[at[i]] else "")
  }

  ghost predicate Tied(o: Option<Queue>, s: Option<B.Seat>, log: seq<string>, ls: seq<Label>) {
    o.Some? && s.Some? ==> Run(ls).0.q == o.value && Accepted(ls) == Handed(log, s.value.received)
  }

  ghost predicate AllTied(w: B.World, hist: seq<seq<Label>>) {
    && |hist| == |w.bus.slots| == |w.seats| == B.MAX_SUBSCRIBERS
    && forall k :: 0 <= k < |hist| ==> Tied(w.bus.slots[k], w.seats[k], w.log, hist[k])
  }

  ghost predicate JointInv(j: Joint) {
    B.Inv(j.w) && AllTied(j.w, j.hist) && j.w.log == Formatted(j.sent)
  }

  lemma RunOne(ls: seq<Label>, l: Label)
    ensures Run(ls + [l]).0 == SseQueue.Step(Run(ls).0, l).0
    ensures Accepted(ls + [l]) == Accepted(ls) + if l.Push? && !Run(ls).0.q.closed then [l.data] else []
  {
    assert (ls + [l])[..|ls|] == ls;
  }

  /** A broadcast reaches a slot as a push. */
  lemma PushTied(q: Queue, s: B.Seat, log: seq<string>, ls: seq<Label>, frame: string)
    requires Tied(Some(q), Some(s), log, ls) && B.Backed(q, s, log)
    ensures Tied(B.Deliver(Some(q), frame), B.Hand(Some(q), Some(s), |log|), log + [frame], ls + [Push(frame)])
  {
    RunOne(ls, Push(frame));
    if q.closed {
      assert Handed(log + [frame], s.received) == Handed(log, s.received);
    } else {
      assert Handed(log + [frame], s.received + [|log|]) == Handed(log, s.received) + [frame];
    }
  }

  lemma ShutTied(q: Queue, s: B.Seat, log: seq<string>, ls: seq<Label>)
    requires Tied(Some(q), Some(s), log, ls)
    ensures Tied(B.Quiesce(Some(q)), Some(s), log, ls + [Shut])
  {
    RunOne(ls, Shut);
  }

  lemma {:induction false} AnnounceTied(w: B.World, hist: seq<seq<Label>>, m: Message, k: nat)
    requires B.Inv(w) && AllTied(w, hist) && k < |hist|
    ensures var t := B.Announce(w, FormatFrame(m));
            Tied(t.bus.slots[k], t.seats[k], t.log, hist[k] + [Push(FormatFrame(m))])
  {
    assert B.SlotOk(w, k);
    if w.bus.slots[k].Some? {
      PushTied(w.bus.slots[k].value, w.seats[k].value, w.log, hist[k], FormatFrame(m));
    }
  }

  /** A new subscriber's run begins with the cached frame, if there is one. */
  lemma PrimedTied(w: B.World)
    requires B.Inv(w)
    ensures Tied(Some(B.Primed(w.bus.cached)), Some(B.NewSeat(w)), w.log,
                 if w.bus.cached.Some? then [Push(w.bus.cached.value)] else [])
  {
    if w.bus.cached.Some? {
      RunOne([], Push(w.bus.cached.value));
      assert [] + [Push(w.bus.cached.value)] == [Push(w.bus.cached.value)];
      assert Handed(w.log, [w.cachedAt.value]) == [w.bus.cached.value];
    } else {
      assert Handed(w.log, []) == [];
    }
  }

  lemma {:induction false} JoinTied(w: B.World, hist: seq<seq<Label>>, k: nat)
    requires B.Inv(w) && AllTied(w, hist) && k < |hist|
    ensures var t := B.Do(w, B.Join);
            k < |t.bus.slots| && k < |t.seats| && Tied(t.bus.slots[k], t.seats[k], t.log, Extend(w, B.Join, k, hist[k]))
  {
    assert Tied(w.bus.slots[k], w.seats[k], w.log, hist[k]);
    if B.Subscribe(w.bus).1 == Some(k) { PrimedTied(w); }
  }

  lemma LeaveTied(w: B.World, hist: seq<seq<Label>>, gone: nat, k: nat)
    requires B.Inv(w) && AllTied(w, hist) && k < |hist|
    ensures var t := B.Do(w, B.Leave(gone));
            k < |t.bus.slots| && k < |t.seats|
            && Tied(t.bus.slots[k], t.seats[k], t.log, Extend(w, B.Leave(gone), k, hist[k]))
  {
    assert Tied(w.bus.slots[k], w.seats[k], w.log, hist[k]);
  }

  lemma StopTied(w: B.World, hist: seq<seq<Label>>, k: nat)
    requires AllTied(w, hist) && k < |hist|
    ensures Tied(B.Quiesce(w.bus.slots[k]), w.seats[k], w.log, hist[k] + [Shut])
  {
    assert Tied(w.bus.slots[k], w.seats[k], w.log, hist[k]);
    if w.bus.slots[k].Some? && w.seats[k].Some? {
      ShutTied(w.bus.slots[k].value, w.seats[k].value, w.log, hist[k]);
    }
  }

  lemma {:induction false} BusTied(w: B.World, hist: seq<seq<Label>>, a: B.Act, k: nat)
    requires B.Inv(w) && AllTied(w, hist) && k < |hist| && !a.Read?
    ensures var t := B.Do(w, a);
            k < |t.bus.slots| && k < |t.seats| && Tied(t.bus.slots[k], t.seats[k], t.log, Extend(w, a, k, hist[k]))
  {
    match a {
      case Emit(m) => AnnounceTied(w, hist, m, k);
      case EmitState(e, m) =>
        AnnounceTied(w, hist, m, k);
        assert Tied(w.bus.slots[k], w.seats[k], w.log, hist[k]);
      case Join => JoinTied(w, hist, k);
      case Leave(gone) => LeaveTied(w, hist, gone, k);
      case Stop => StopTied(w, hist, k);
      case Swap(_) => assert Tied(w.bus.slots[k], w.seats[k], w.log, hist[k]);
    }
  }

  lemma {:induction false} FormattedAppend(a: seq<Message>, b: seq<Message>)
    ensures Formatted(a + b) == Formatted(a) + Formatted(b)
  {
  }

  lemma BusLog(w: B.World, a: B.Act)
    requires !a.Read?
    ensures B.Do(w, a).log == w.log + Formatted(Announced(w, a))
  {
    if Announced(w, a) == [] {
      assert w.log + Formatted([]) == w.log;
    } else {
      assert Formatted(Announced(w, a)) == [FormatFrame(a.m)];
    }
  }

  lemma {:induction false} BusInv(j: Joint, a: B.Act)
    requires JointInv(j) && !a.Read?
    ensures JointInv(Step(j, Bus(a)))
  {
    O.StepInv(j.w, a);
    BusLog(j.w, a);
    FormattedAppend(j.sent, Announced(j.w, a));
    forall k: nat | k < |j.hist| ensures
        var t := B.Do(j.w, a);
        k < |t.bus.slots| && k < |t.seats| && Tied(t.bus.slots[k], t.seats[k], t.log, Extend(j.w, a, k, j.hist[k]))
    {
      BusTied(j.w, j.hist, a, k);
    }
  }

  lemma {:induction false} WaitingPositive(ls: seq<Label>)
    ensures Run(ls).0.reader.Waiting? ==> Run(ls).0.reader.max > 0
  {
    if ls != [] { WaitingPositive(ls[..|ls| - 1]); }
  }

  /** A turn reads from the head, or leaves the queue alone. */
  lemma {:induction false} TurnQueue(s: State, l: Label)
    requires WellFormed(s.q) && IsTurn(l)
    ensures SseQueue.Step(s, l).0.q == if Reads(s, l) then ReadHead(s.q, Limit(s, l)).0 else s.q
  {
  }

  lemma {:induction false} TurnTied(q: Queue, s: Option<B.Seat>, log: seq<string>, ls: seq<Label>, l: Label)
    requires Tied(Some(q), s, log, ls) && s.Some? && IsTurn(l)
    ensures var r := Run(ls).0;
            Tied(Some(if Reads(r, l) then ReadHead(r.q, Limit(r, l)).0 else q), s, log, ls + [l])
  {
    TurnQueue(Run(ls).0, l);
    RunOne(ls, l);
    assert Accepted(ls) + [] == Accepted(ls);
  }

  /** The slot and the run of one subscriber change together. */
  lemma {:induction false} SlotTied(w: B.World, hist: seq<seq<Label>>, k: nat, o: Option<Queue>, ls: seq<Label>)
    requires AllTied(w, hist) && k < |hist| && Tied(o, w.seats[k], w.log, ls)
    ensures AllTied(w.(bus := w.bus.(slots := w.bus.slots[k := o])), hist[k := ls])
  {
    var slots, runs := w.bus.slots[k := o], hist[k := ls];
    forall i | 0 <= i < |runs| ensures Tied(slots[i], w.seats[i], w.log, runs[i]) {
      assert Tied(w.bus.slots[i], w.seats[i], w.log, hist[i]);
    }
  }

  lemma ReadOnly(w: B.World, k: nat, q: Queue, max: nat)
    requires k < |w.bus.slots| && w.bus.slots[k] == Some(q) && B.WellFormedReadable(q) && max > 0
    ensures B.Do(w, B.Read(k, max)) == w.(bus := w.bus.(slots := w.bus.slots[k := Some(ReadHead(q, max).0)]))
  {
  }

  lemma LimitPositive(ls: seq<Label>, l: Label)
    requires Reads(Run(ls).0, l)
    ensures Limit(Run(ls).0, l) > 0 && B.WellFormedReadable(Run(ls).0.q)
  {
    WaitingPositive(ls);
  }

  lemma {:induction false} ReadTied(w: B.World, hist: seq<seq<Label>>, k: nat, l: Label)
    requires B.Inv(w) && AllTied(w, hist) && k < |hist| && w.bus.slots[k].Some? && IsTurn(l)
    requires Reads(Run(hist[k]).0, l)
    ensures AllTied(B.Do(w, B.Read(k, Limit(Run(hist[k]).0, l))), hist[k := hist[k] + [l]])
  {
    var q, max := w.bus.slots[k].value, Limit(Run(hist[k]).0, l);
    assert B.SlotOk(w, k);
    assert Tied(Some(q), w.seats[k], w.log, hist[k]);
    LimitPositive(hist[k], l);
    TurnTied(q, w.seats[k], w.log, hist[k], l);
    ReadOnly(w, k, q, max);
    SlotTied(w, hist, k, Some(ReadHead(q, max).0), hist[k] + [l]);
  }

  lemma {:induction false} IdleTied(w: B.World, hist: seq<seq<Label>>, k: nat, l: Label)
    requires B.Inv(w) && AllTied(w, hist) && k < |hist| && w.bus.slots[k].Some? && IsTurn(l)
    requires !Reads(Run(hist[k]).0, l)
    ensures AllTied(w, hist[k := hist[k] + [l]])
  {
    var o := w.bus.slots[k];
    assert B.SlotOk(w, k);
    assert Tied(o, w.seats[k], w.log, hist[k]);
    TurnTied(o.value, w.seats[k], w.log, hist[k], l);
    SlotTied(w, hist, k, o, hist[k] + [l]);
    assert w.bus.slots[k := o] == w.bus.slots;
  }

  lemma {:induction false} TurnInv(j: Joint, k: nat, l: Label)
    requires JointInv(j)
    ensures JointInv(Step(j, Turn(k, l)))
  {
    if IsTurn(l) && k < |j.hist| && j.w.bus.slots[k].Some? {
      if Reads(Run(j.hist[k]).0, l) {
        O.StepInv(j.w, B.Read(k, Limit(Run(j.hist[k]).0, l)));
        ReadTied(j.w, j.hist, k, l);
      } else {
        IdleTied(j.w, j.hist, k, l);
      }
    }
  }

  lemma {:induction false} RunInv(moves: seq<Move>)
    ensures JointInv(After(moves))
  {
    if moves == [] {
      O.RunInv([]);
    } else {
      RunInv(moves[..|moves| - 1]);
      var j, v := After(moves[..|moves| - 1]), moves[|moves| - 1];
      match v {
        case Bus(a) => if !a.Read? { BusInv(j, a); }
        case Turn(k, l) => TurnInv(j, k, l);
      }
    }
  }

  // --- What the client behind a slot has seen ---

  function MessageAt(sent: seq<Message>, p: nat): Message { if p < |sent| then sent[p] else Message("", "") }

  function MessagesAt(sent: seq<Message>, at: seq<nat>): (r: seq<Message>)
    ensures |r| == |at| && forall i :: 0 <= i < |at| ==> r[i] == MessageAt(sent, at[i])
  {
    seq(|at|, i requires 0 <= i < |at| => MessageAt(sent, at[i]))
  }

  /** What a client should see of the messages at these positions. */
  function EventsAt(sent: seq<Message>, at: seq<nat>): (r: seq<Event>)
    ensures |r| == |at| && forall i :: 0 <= i < |at| ==> r[i] == EventOf(MessageAt(sent, at[i]))
  {
    seq(|at|, i requires 0 <= i < |at| => EventOf(MessageAt(sent, at[i])))
  }

  /** The positions of the frames read to their end. */
  function ReadPositions(ps: seq<Piece>, at: seq<nat>): (r: seq<nat>)
    requires |Sources(ps)| == |at|
    ensures forall i :: 0 <= i < |r| ==> r[i] in at
  {
    if ps == [] then []
    else
      var p := ps[|ps| - 1];
      if p.Beat? then ReadPositions(ps[..|ps| - 1], at)
      else ReadPositions(ps[..|ps| - 1], at[..|at| - 1]) + if p.dropped then [] else [at[|at| - 1]]
  }

  predicate Increasing(at: seq<nat>) { forall i, j :: 0 <= i < j < |at| ==> at[i] < at[j] }

  lemma {:induction false} PositionsIncrease(ps: seq<Piece>, at: seq<nat>)
    requires |Sources(ps)| == |at| && Increasing(at)
    ensures Increasing(ReadPositions(ps, at))
  {
    if ps != [] {
      var p := ps[|ps| - 1];
      if p.Beat? {
        PositionsIncrease(ps[..|ps| - 1], at);
      } else {
        PositionsIncrease(ps[..|ps| - 1], at[..|at| - 1]);
        var r := ReadPositions(ps[..|ps| - 1], at[..|at| - 1]);
        assert forall i :: 0 <= i < |r| ==> r[i] in at[..|at| - 1];
      }
    }
  }

  lemma PickSnoc(sent: seq<Message>, at: seq<nat>, x: nat)
    ensures EventsAt(sent, at + [x]) == EventsAt(sent, at) + [EventOf(MessageAt(sent, x))]
  {
  }

  lemma PickPrefix(sent: seq<Message>, at: seq<nat>, n: nat)
    requires n <= |at|
    ensures MessagesAt(sent, at)[..n] == MessagesAt(sent, at[..n])
  {
  }

  lemma {:induction false} ReadEventsAt(ps: seq<Piece>, sent: seq<Message>, at: seq<nat>)
    requires |Sources(ps)| == |at|
    ensures ReadEvents(ps, MessagesAt(sent, at)) == EventsAt(sent, ReadPositions(ps, at))
  {
    if ps != [] {
      var init, p := ps[..|ps| - 1], ps[|ps| - 1];
      if p.Beat? {
        ReadEventsAt(init, sent, at);
      } else {
        var n := |at| - 1;
        ReadEventsAt(init, sent, at[..n]);
        PickPrefix(sent, at, n);
        PickSnoc(sent, ReadPositions(init, at[..n]), at[n]);
      }
    }
  }

  predicate SeatedAt(j: Joint, k: nat) {
    k < |j.hist| && k < |j.w.bus.slots| && k < |j.w.seats| && j.w.bus.slots[k].Some? && j.w.seats[k].Some?
  }

  /** What the occupant of slot k has been handed. */
  function Receipts(j: Joint, k: nat): seq<nat>
    requires SeatedAt(j, k)
  {
    j.w.seats[k].value.received
  }

  /** The events its client has seen. */
  function SeenBy(j: Joint, k: nat): seq<Event>
    requires SeatedAt(j, k)
  {
    FeedAll(NEW_CLIENT, Wire(Run(j.hist[k]).1)).events
  }

  /** The receipts are the priming state and every emission from the joining on. */
  lemma {:induction false} SlotReceipts(j: Joint, k: nat)
    requires JointInv(j) && SeatedAt(j, k)
    ensures B.SeatExact(j.w.seats[k].value, B.End(j.w)) && Increasing(Receipts(j, k))
    ensures forall i :: 0 <= i < |Receipts(j, k)| ==> Receipts(j, k)[i] < |j.sent|
    ensures Accepted(j.hist[k]) == Handed(j.w.log, Receipts(j, k)) && Run(j.hist[k]).0.q == j.w.bus.slots[k].value
  {
    assert B.SlotOk(j.w, k);
    assert Tied(j.w.bus.slots[k], j.w.seats[k], j.w.log, j.hist[k]);
  }

  lemma SlotQueue(j: Joint, k: nat)
    requires AllTied(j.w, j.hist) && SeatedAt(j, k)
    ensures Run(j.hist[k]).0.q == j.w.bus.slots[k].value
  {
    assert Tied(j.w.bus.slots[k], j.w.seats[k], j.w.log, j.hist[k]);
  }

  lemma {:induction false} HandedIsFormatted(sent: seq<Message>, at: seq<nat>)
    requires forall i :: 0 <= i < |at| ==> at[i] < |sent|
    ensures Handed(Formatted(sent), at) == Formatted(MessagesAt(sent, at))
  {
  }

  lemma PickClean(sent: seq<Message>, at: seq<nat>)
    requires AllClean(sent) && forall i :: 0 <= i < |at| ==> at[i] < |sent|
    ensures AllClean(MessagesAt(sent, at))
  {
  }

  /** What a subscriber's run `ls` that was handed `at` shows its client. */
  ghost predicate ShowsReceipts(sent: seq<Message>, at: seq<nat>, ls: seq<Label>, events: seq<Event>) {
    var ps := Account(ls);
    && |Sources(ps)| + |Run(ls).0.q.frames| == |at|
    && (forall i :: 0 <= i < |at| ==> at[i] < |sent|)
    && var read := ReadPositions(ps, at[..|Sources(ps)|]);
    && Increasing(read) && |events| == |read|
    && (events == EventsAt(sent, read) <==> AllHarmless(ps, MessagesAt(sent, at[..|Sources(ps)|])))
  }

  lemma AcceptedSplits(ls: seq<Label>)
    ensures |Sources(Account(ls))| + |Run(ls).0.q.frames| == |Accepted(ls)|
  {
    StreamExplained(ls);
    assert |Queued(Run(ls).0.q.frames)| == |Run(ls).0.q.frames|;
  }

  lemma {:induction false} RunShowsReceipts(sent: seq<Message>, at: seq<nat>, ls: seq<Label>)
    requires AllClean(sent) && Increasing(at) && forall i :: 0 <= i < |at| ==> at[i] < |sent|
    requires Accepted(ls) == Formatted(MessagesAt(sent, at))
    ensures ShowsReceipts(sent, at, ls, FeedAll(NEW_CLIENT, Wire(Run(ls).1)).events)
  {
    var ps, n := Account(ls), |Sources(Account(ls))|;
    AcceptedSplits(ls);
    PickClean(sent, at);
    ClientSeesReadFramesByCuts(ls, MessagesAt(sent, at));
    PickPrefix(sent, at, n);
    ReadEventsAt(ps, sent, at[..n]);
    PositionsIncrease(ps, at[..n]);
  }

  /** The receipts of slot k are its priming state and everything emitted since it
      joined, and its client has seen them as far as it read them. */
  ghost predicate SeesItsReceipts(j: Joint, k: nat)
    requires SeatedAt(j, k)
  {
    && B.SeatExact(j.w.seats[k].value, B.End(j.w))
    && ShowsReceipts(j.sent, Receipts(j, k), j.hist[k], SeenBy(j, k))
  }

  lemma {:induction false} JointShows(j: Joint, k: nat)
    requires JointInv(j) && AllClean(j.sent) && SeatedAt(j, k)
    ensures SeesItsReceipts(j, k)
  {
    SlotReceipts(j, k);
    HandedIsFormatted(j.sent, Receipts(j, k));
    RunShowsReceipts(j.sent, Receipts(j, k), j.hist[k]);
  }

  /** Over every interleaving of emitting threads, joining, leaving and reading clients
      and shutdown: a client has seen one event for each of its receipts that it read to
      the end, in the global order, each once; those are the messages emitted at these
      positions exactly when the cuts of its own torn frames are harmless; and its
      receipts are its priming state and everything emitted since it joined. */
  lemma {:induction false} ClientSeesItsReceipts(moves: seq<Move>, k: nat)
    requires AllClean(After(moves).sent) && SeatedAt(After(moves), k)
    ensures SeesItsReceipts(After(moves), k)
  {
    RunInv(moves);
    JointShows(After(moves), k);
  }

  // --- Without overflow ---

  lemma DropsInit(ps: seq<Piece>)
    requires ps != [] && Drops(ps) == 0
    ensures Drops(ps[..|ps| - 1]) == 0 && (ps[|ps| - 1].Part? ==> !ps[|ps| - 1].dropped)
  {
  }

  lemma {:induction false} UndroppedIsHarmless(ps: seq<Piece>, ms: seq<Message>)
    requires |Sources(ps)| == |ms| && Drops(ps) == 0
    ensures AllHarmless(ps, ms) && LeftOf(ps, ms) == NOTHING
  {
    if ps != [] {
      DropsInit(ps);
      if ps[|ps| - 1].Beat? {
        UndroppedIsHarmless(ps[..|ps| - 1], ms);
      } else {
        UndroppedIsHarmless(ps[..|ps| - 1], ms[..|ms| - 1]);
      }
    }
  }

  lemma {:induction false} UndroppedReadsAll(ps: seq<Piece>, at: seq<nat>)
    requires |Sources(ps)| == |at| && Drops(ps) == 0
    ensures ReadPositions(ps, at) == at
  {
    if ps != [] {
      DropsInit(ps);
      if ps[|ps| - 1].Beat? {
        UndroppedReadsAll(ps[..|ps| - 1], at);
      } else {
        UndroppedReadsAll(ps[..|ps| - 1], at[..|at| - 1]);
        assert at == at[..|at| - 1] + [at[|at| - 1]];
      }
    }
  }

  lemma {:induction false} RunShowsAll(sent: seq<Message>, at: seq<nat>, ls: seq<Label>, events: seq<Event>)
    requires ShowsReceipts(sent, at, ls, events) && Overflowed(ls) == 0
    ensures |Run(ls).0.q.frames| <= |at| && events == EventsAt(sent, at[..|at| - |Run(ls).0.q.frames|])
  {
    var ps := Account(ls);
    var first := at[..|Sources(ps)|];
    StreamExplained(ls);
    UndroppedIsHarmless(ps, MessagesAt(sent, first));
    UndroppedReadsAll(ps, first);
  }

  /** The client has seen all its receipts but those still queued. */
  ghost predicate SeesEverything(j: Joint, k: nat)
    requires SeatedAt(j, k)
  {
    && B.SeatExact(j.w.seats[k].value, B.End(j.w))
    && (forall i :: 0 <= i < |Receipts(j, k)| ==> Receipts(j, k)[i] < |j.sent|)
    && var n := |Receipts(j, k)| - |j.w.bus.slots[k].value.frames|;
    0 <= n && SeenBy(j, k) == EventsAt(j.sent, Receipts(j, k)[..n])
  }

  lemma {:induction false} JointShowsAll(j: Joint, k: nat)
    requires SeatedAt(j, k) && SeesItsReceipts(j, k) && Overflowed(j.hist[k]) == 0
    requires Run(j.hist[k]).0.q == j.w.bus.slots[k].value
    ensures SeesEverything(j, k)
  {
    RunShowsAll(j.sent, Receipts(j, k), j.hist[k], SeenBy(j, k));
  }

  /** A client whose queue never overflowed has seen its receipts, in order, up to
      those still queued: when its queue is empty, its priming state and then every
      message emitted since it joined. */
  lemma {:induction false} ClientSeesEverything(moves: seq<Move>, k: nat)
    requires AllClean(After(moves).sent) && SeatedAt(After(moves), k) && Overflowed(After(moves).hist[k]) == 0
    ensures SeesEverything(After(moves), k)
  {
    RunInv(moves);
    JointShows(After(moves), k);
    SlotQueue(After(moves), k);
    JointShowsAll(After(moves), k);
  }
}
