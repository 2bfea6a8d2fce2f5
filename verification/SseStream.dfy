/** What one subscriber receives over any interleaving of pushes, shutdown and
    reads (src/api/sse.c:76-125, 331-387). */
module SseStream {
  import opened SseQueue

  /** The pieces that a step adds to the client's account. */
  function NewPieces(s: State, l: Label): seq<Piece>
    requires WellFormed(s.q)
  {
    if Overflows(s, l) then [Part(s.q.frames[0].data, s.q.frames[0].pos, true)]
    else if Reads(s, l) && |ReadHead(s.q, Limit(s, l)).0.frames| < |s.q.frames| then
      [Part(s.q.frames[0].data, |s.q.frames[0].data|, false)]
    else if Step(s, l).1.Heartbeat? then [Beat]
    else []
  }

  predicate Reads(s: State, l: Label) {
    s.q.frames != [] && ((l.Call? && s.reader.Idle? && l.max != 0) || (l.Wake? && s.reader.Waiting?))
  }

  function Limit(s: State, l: Label): nat {
    if l.Call? then l.max else if s.reader.Waiting? then s.reader.max else 0
  }

  function Emitted(out: Output): string {
    match out case Data(bytes) => bytes case Heartbeat => HEARTBEAT case _ => ""
  }

  function EmittedData(out: Output): string {
    match out case Data(bytes) => bytes case _ => ""
  }

  /** A push leaves the client's text alone, whatever it drops. */
  lemma PushText(q: Queue, f: string)
    requires WellFormed(q) && !q.closed
    ensures Begun(q) == if |q.frames| == QUEUE_DEPTH then q.frames[0].data[..q.frames[0].pos] else Begun(Enqueue(q, f))
    ensures |q.frames| == QUEUE_DEPTH ==> Begun(Enqueue(q, f)) == ""
  {
    if |q.frames| == QUEUE_DEPTH {
      assert Enqueue(q, f).frames[0] == q.frames[1];
    }
  }

  lemma ReadText(q: Queue, max: nat)
    requires WellFormed(q) && q.frames != []
    ensures var (q', bytes) := ReadHead(q, max);
            if |q'.frames| < |q.frames| then Begun(q) + bytes == q.frames[0].data && Begun(q') == ""
            else Begun(q) + bytes == Begun(q')
  {
    var head := q.frames[0];
    var (q', bytes) := ReadHead(q, max);
    assert head.data[..head.pos] + head.data[head.pos..head.pos + |bytes|] == head.data[..head.pos + |bytes|];
  }

  lemma StepPieces(s: State, l: Label)
    requires WellFormed(s.q) && (s.reader.Waiting? ==> Begun(s.q) == "")
    ensures var (s', out) := Step(s, l);
            var n := NewPieces(s, l);
            && |n| <= 1 && AllGood(n)
            && (out.Heartbeat? <==> n == [Beat])
            && (out.Heartbeat? ==> s.q == s'.q)
  {}

  lemma {:induction false} ReadStepText(s: State, l: Label)
    requires WellFormed(s.q) && Reads(s, l)
    ensures var (s', out) := Step(s, l);
            var n := NewPieces(s, l);
            Begun(s.q) + Emitted(out) == (if n == [] then "" else Text(n[0])) + Begun(s'.q)
  {
    ReadText(s.q, Limit(s, l));
    assert s.q.frames[0].data[..|s.q.frames[0].data|] == s.q.frames[0].data;
  }

  /** The text that a step sends is the text it adds to the account. */
  lemma {:induction false} StepText(s: State, l: Label)
    requires WellFormed(s.q) && (s.reader.Waiting? ==> Begun(s.q) == "")
    ensures var (s', out) := Step(s, l);
            var n := NewPieces(s, l);
            Begun(s.q) + Emitted(out) == (if n == [] then "" else Text(n[0])) + Begun(s'.q)
  {
    if Reads(s, l) {
      ReadStepText(s, l);
    } else if l.Push? && !s.q.closed {
      PushText(s.q, l.data);
    }
  }

  lemma Rearrange(r: string, b: string, o: string, t: string, b': string)
    requires b + o == t + b'
    ensures (r + b) + o == (r + t) + b'
  {
    assert (r + b) + o == r + (b + o);
    assert (r + t) + b' == r + (t + b');
  }

  lemma WireExtend(ps: seq<Piece>, n: seq<Piece>, q: Queue, q': Queue, wire: string, sent: string)
    requires ExplainsWire(ps, q, wire) && |n| <= 1 && AllGood(n)
    requires Begun(q) + sent == (if n == [] then "" else Text(n[0])) + Begun(q')
    ensures ExplainsWire(ps + n, q', wire + sent)
  {
    if n == [] {
      assert ps + n == ps && Render(ps) + "" == Render(ps);
      Rearrange(Render(ps), Begun(q), sent, "", Begun(q'));
    } else {
      assert n == [n[0]];
      ExtendText(ps, n[0]);
      Rearrange(Render(ps), Begun(q), sent, Text(n[0]), Begun(q'));
    }
  }

  lemma WireStep(ps: seq<Piece>, s: State, l: Label, wire: string)
    requires WellFormed(s.q) && ExplainsWire(ps, s.q, wire) && (s.reader.Waiting? ==> Begun(s.q) == "")
    ensures var (s', out) := Step(s, l); ExplainsWire(ps + NewPieces(s, l), s'.q, wire + Emitted(out))
  {
    StepPieces(s, l);
    StepText(s, l);
    WireExtend(ps, NewPieces(s, l), s.q, Step(s, l).0.q, wire, Emitted(Step(s, l).1));
  }

  lemma NoBeatsExtend(ps: seq<Piece>, n: seq<Piece>)
    requires |n| <= 1
    ensures NoBeats(ps + n) == NoBeats(ps) + if n == [Beat] then [] else n
  {
    if n == [] {
      assert ps + n == ps;
    } else {
      assert (ps + n)[..|ps|] == ps;
    }
  }

  lemma {:induction false} DataExtend(ps: seq<Piece>, n: seq<Piece>, q: Queue, q': Queue, data: string, out: Output)
    requires ExplainsWire(NoBeats(ps), q, data) && |n| <= 1 && AllGood(n)
    requires out.Heartbeat? <==> n == [Beat]
    requires out.Heartbeat? ==> Begun(q) == Begun(q')
    requires Begun(q) + Emitted(out) == (if n == [] then "" else Text(n[0])) + Begun(q')
    ensures ExplainsWire(NoBeats(ps + n), q', data + EmittedData(out))
  {
    NoBeatsExtend(ps, n);
    if out.Heartbeat? {
      assert data + "" == data && NoBeats(ps) + [] == NoBeats(ps);
    } else {
      WireExtend(NoBeats(ps), n, q, q', data, EmittedData(out));
    }
  }

  lemma {:induction false} DataStep(ps: seq<Piece>, s: State, l: Label, data: string)
    requires WellFormed(s.q) && ExplainsWire(NoBeats(ps), s.q, data) && (s.reader.Waiting? ==> Begun(s.q) == "")
    ensures var (s', out) := Step(s, l); ExplainsWire(NoBeats(ps + NewPieces(s, l)), s'.q, data + EmittedData(out))
  {
    StepPieces(s, l);
    StepText(s, l);
    DataExtend(ps, NewPieces(s, l), s.q, Step(s, l).0.q, data, Step(s, l).1);
  }

  lemma FramesPop(a: seq<string>, fs: seq<Frame>, acc: seq<string>)
    requires fs != [] && a + Queued(fs) == acc
    ensures (a + [fs[0].data]) + Queued(fs[1..]) == acc
  {
    assert Queued(fs) == [fs[0].data] + Queued(fs[1..]);
  }

  lemma FramesStepPush(ps: seq<Piece>, s: State, f: string, acc: seq<string>, lost: nat)
    requires WellFormed(s.q) && ExplainsFrames(ps, s.q, acc, lost) && !s.q.closed
    ensures ExplainsFrames(ps + NewPieces(s, Push(f)), Enqueue(s.q, f), acc + [f],
                           lost + if Overflows(s, Push(f)) then 1 else 0)
  {
    var fs := s.q.frames;
    if Overflows(s, Push(f)) {
      ExtendCounts(ps, Part(fs[0].data, fs[0].pos, true));
      FramesPop(Sources(ps), fs, acc);
    } else {
      assert ps + [] == ps;
    }
  }

  /** Reading part of the head leaves the queued frames; reading all of it removes the first. */
  lemma ReadQueued(q: Queue, max: nat)
    requires WellFormed(q) && q.frames != []
    ensures var fs := ReadHead(q, max).0.frames;
            if |fs| < |q.frames| then fs == q.frames[1..] else Queued(fs) == Queued(q.frames)
  {
  }

  lemma FramesStepRead(ps: seq<Piece>, s: State, l: Label, acc: seq<string>, lost: nat)
    requires WellFormed(s.q) && ExplainsFrames(ps, s.q, acc, lost) && Reads(s, l)
    ensures ExplainsFrames(ps + NewPieces(s, l), ReadHead(s.q, Limit(s, l)).0, acc, lost)
  {
    var fs := s.q.frames;
    ReadQueued(s.q, Limit(s, l));
    if |ReadHead(s.q, Limit(s, l)).0.frames| < |fs| {
      ExtendCounts(ps, Part(fs[0].data, |fs[0].data|, false));
      FramesPop(Sources(ps), fs, acc);
    } else {
      assert ps + [] == ps;
    }
  }

  lemma FramesStep(ps: seq<Piece>, s: State, l: Label, acc: seq<string>, lost: nat)
    requires WellFormed(s.q) && ExplainsFrames(ps, s.q, acc, lost)
    ensures ExplainsFrames(ps + NewPieces(s, l), Step(s, l).0.q,
              acc + (if l.Push? && !s.q.closed then [l.data] else []), lost + (if Overflows(s, l) then 1 else 0))
  {
    assert acc + [] == acc && ps + [] == ps;
    if l.Push? && !s.q.closed {
      FramesStepPush(ps, s, l.data, acc, lost);
    } else if Reads(s, l) {
      FramesStepRead(ps, s, l, acc, lost);
    } else if Step(s, l).1.Heartbeat? {
      ExtendCounts(ps, Beat);
    }
  }

  lemma {:induction false} BeatsStep(ps: seq<Piece>, s: State, l: Label)
    requires WellFormed(s.q) && ExplainsBeats(ps, s)
    ensures ExplainsBeats(ps + NewPieces(s, l), Step(s, l).0)
  {
    var n := NewPieces(s, l);
    if n == [] {
      assert ps + n == ps;
    } else {
      assert n == [n[0]];
      ExtendCounts(ps, n[0]);
      ExtendBeats(ps, n[0]);
    }
  }

  /** The client's account of a whole run. */
  function Account(ls: seq<Label>): seq<Piece> {
    if ls == [] then [] else Account(ls[..|ls| - 1]) + NewPieces(Run(ls[..|ls| - 1]).0, ls[|ls| - 1])
  }

  lemma {:induction false} ExplainStep(ps: seq<Piece>, s: State, l: Label, acc: seq<string>, lost: nat,
                                       wire: string, data: string)
    requires WellFormed(s.q) && Explains(ps, s, acc, lost, wire, data)
    ensures var (s', out) := Step(s, l);
            Explains(ps + NewPieces(s, l), s', acc + (if l.Push? && !s.q.closed then [l.data] else []),
                     lost + (if Overflows(s, l) then 1 else 0), wire + Emitted(out), data + EmittedData(out))
  {
    WireStep(ps, s, l, wire);
    DataStep(ps, s, l, data);
    FramesStep(ps, s, l, acc, lost);
    BeatsStep(ps, s, l);
  }

  lemma OutputSnoc(outs: seq<Output>, out: Output)
    ensures Wire(outs + [out]) == Wire(outs) + Emitted(out)
    ensures DataBytes(outs + [out]) == DataBytes(outs) + EmittedData(out)
  {
    assert (outs + [out])[..|outs|] == outs;
  }

  /** Over every run the client's bytes are the accepted frames in order: each
      one whole, or cut where it was dropped, or (the head alone) begun; every
      overflow costs exactly one frame and heartbeats never split a frame. */
  lemma {:induction false} StreamExplained(ls: seq<Label>)
    ensures var (s, outs) := Run(ls);
            Explains(Account(ls), s, Accepted(ls), Overflowed(ls), Wire(outs), DataBytes(outs))
  {
    if ls != [] {
      var init, l := ls[..|ls| - 1], ls[|ls| - 1];
      var (s, outs) := Run(init);
      StreamExplained(init);
      ExplainStep(Account(init), s, l, Accepted(init), Overflowed(init), Wire(outs), DataBytes(outs));
      OutputSnoc(outs, Step(s, l).1);
    }
  }

  function Concat(ss: seq<string>): string {
    if ss == [] then "" else Concat(ss[..|ss| - 1]) + ss[|ss| - 1]
  }

  lemma LastApart<T>(a: seq<T>, b: seq<T>)
    requires b != []
    ensures a + b == (a + b[..|b| - 1]) + [b[|b| - 1]]
  {
  }

  lemma ConcatAppend(a: seq<string>, b: seq<string>)
    ensures Concat(a + b) == Concat(a) + Concat(b)
  {
    if b == [] {
      assert a + b == a;
    } else {
      var init, x := b[..|b| - 1], b[|b| - 1];
      ConcatAppend(a, init);
      ConcatSnoc(a + init, x);
      LastApart(a, b);
      Regroup(Concat(a), Concat(init), x);
    }
  }

  /** The bytes still to come out of a queue. */
  function Unread(fs: seq<Frame>): string {
    if fs == [] then ""
    else (if fs[0].pos <= |fs[0].data| then fs[0].data[fs[0].pos..] else "") + Unread(fs[1..])
  }

  lemma ConcatSnoc(a: seq<string>, x: string)
    ensures Concat(a + [x]) == Concat(a) + x
  {
    assert (a + [x])[..|a|] == a;
  }

  lemma UndroppedIsWhole(ps: seq<Piece>)
    requires AllGood(ps) && Drops(ps) == 0
    ensures Render(NoBeats(ps)) == Concat(Sources(ps))
  {
    if ps != [] {
      var init, p := ps[..|ps| - 1], ps[|ps| - 1];
      UndroppedIsWhole(init);
      if p.Beat? {
        assert NoBeats(ps) == NoBeats(init) && Sources(ps) == Sources(init);
      } else {
        assert GoodPiece(p) && p.data[..p.cut] == p.data;
        ExtendText(NoBeats(init), p);
        ConcatSnoc(Sources(init), p.data);
      }
    }
  }

  lemma QueuedCons(fs: seq<Frame>)
    requires fs != []
    ensures Concat(Queued(fs)) == fs[0].data + Concat(Queued(fs[1..]))
  {
    assert Queued(fs) == [fs[0].data] + Queued(fs[1..]);
    ConcatAppend([fs[0].data], Queued(fs[1..]));
    assert [fs[0].data][..0] == [];
  }

  lemma {:induction false} UnreadFresh(fs: seq<Frame>)
    requires forall k :: 0 <= k < |fs| ==> fs[k].pos == 0
    ensures Unread(fs) == Concat(Queued(fs))
  {
    if fs != [] {
      UnreadFresh(fs[1..]);
      QueuedCons(fs);
      assert fs[0].data[0..] == fs[0].data;
    }
  }

  lemma BegunThenUnread(q: Queue)
    requires WellFormed(q)
    ensures Begun(q) + Unread(q.frames) == Concat(Queued(q.frames))
  {
    if q.frames != [] {
      var f := q.frames[0];
      UnreadFresh(q.frames[1..]);
      QueuedCons(q.frames);
    }
  }

  /** Without overflow nothing is lost: what was read plus what is queued is
      every accepted byte, in order. */
  lemma {:induction false} NoOverflowNoLoss(ls: seq<Label>)
    requires Overflowed(ls) == 0
    ensures var (s, outs) := Run(ls);
            DataBytes(outs) + Unread(s.q.frames) == Concat(Accepted(ls))
  {
    var (s, outs) := Run(ls);
    var ps := Account(ls);
    StreamExplained(ls);
    UndroppedIsWhole(ps);
    BegunThenUnread(s.q);
    ConcatAppend(Sources(ps), Queued(s.q.frames));
    Regroup(Render(NoBeats(ps)), Begun(s.q), Unread(s.q.frames));
  }

  lemma Regroup(a: string, b: string, c: string)
    ensures (a + b) + c == a + (b + c)
  {}
}
