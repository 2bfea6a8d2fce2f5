/** Reading after shutdown (src/api/sse.c:92-95, 154-168, 343-386): a closed
    subscriber hands out what it still holds and then only end-of-stream. */
module SseDrain {
  import opened SseQueue
  import opened SseStream

  function RunFrom(s: State, ls: seq<Label>): (r: (State, seq<Output>))
    requires WellFormed(s.q)
    ensures WellFormed(r.0.q)
    decreases |ls|
  {
    if ls == [] then (s, [])
    else
      var (s1, out) := Step(s, ls[0]);
      var (s2, outs) := RunFrom(s1, ls[1..]);
      (s2, [out] + outs)
  }

  /** Frames are never empty (the formatter emits at least 16 bytes), and the
      buffers the reader offers hold at least a heartbeat. */
  ghost predicate NonEmptyFrames(q: Queue) {
    forall k :: 0 <= k < |q.frames| ==> q.frames[k].data != ""
  }

  ghost predicate BigBuffers(ls: seq<Label>) {
    forall i :: 0 <= i < |ls| && ls[i].Call? ==> ls[i].max >= |HEARTBEAT|
  }

  function Beats(outs: seq<Output>): nat {
    if outs == [] then 0 else (if outs[0].Heartbeat? then 1 else 0) + Beats(outs[1..])
  }

  /** Completed reads, and those of them that did not report the end of the stream. */
  function Replies(outs: seq<Output>): nat {
    if outs == [] then 0 else (if outs[0].Silent? then 0 else 1) + Replies(outs[1..])
  }

  function LiveReplies(outs: seq<Output>): nat {
    if outs == [] then 0 else (if outs[0].Silent? || outs[0].Eof? then 0 else 1) + LiveReplies(outs[1..])
  }

  function InFlight(s: State): nat { if s.reader.Waiting? then 1 else 0 }

  lemma ReadConsumes(q: Queue, max: nat)
    requires WellFormed(q) && NonEmptyFrames(q) && q.frames != [] && max > 0
    ensures var (q', bytes) := ReadHead(q, max);
            && bytes + Unread(q'.frames) == Unread(q.frames)
            && bytes != "" && NonEmptyFrames(q') && q'.closed == q.closed
  {
    var f := q.frames[0];
    var (q', bytes) := ReadHead(q, max);
    var rest := f.data[f.pos..];
    if |q'.frames| < |q.frames| {
      assert bytes == rest;
    } else {
      assert bytes + q'.frames[0].data[q'.frames[0].pos..] == rest;
      assert q'.frames[1..] == q.frames[1..];
      Regroup(bytes, rest[|bytes|..], Unread(q.frames[1..]));
      assert rest[|bytes|..] == q'.frames[0].data[q'.frames[0].pos..];
    }
  }

  lemma ClosedStep(s: State, l: Label)
    requires WellFormed(s.q) && s.q.closed && NonEmptyFrames(s.q)
    requires s.reader.Waiting? ==> s.reader.max >= |HEARTBEAT|
    requires l.Call? ==> l.max >= |HEARTBEAT|
    ensures var (s', out) := Step(s, l);
            && s'.q.closed && NonEmptyFrames(s'.q) && (s'.reader.Waiting? ==> s'.reader == s.reader)
            && EmittedData(out) + Unread(s'.q.frames) == Unread(s.q.frames)
            && (if out.Silent? || out.Eof? then 0 else 1) + |Unread(s'.q.frames)| + InFlight(s')
               <= |Unread(s.q.frames)| + InFlight(s)
            && (if out.Heartbeat? then 1 else 0) + InFlight(s') <= InFlight(s)
            && (out.Eof? ==> s'.q.frames == [] && s'.reader.Idle?)
            && (s.q.frames == [] && s.reader.Idle? ==>
                  s'.q.frames == [] && s'.reader.Idle? && (out.Silent? || out.Eof?))
  {
    assert |HEARTBEAT| > 0;
    if Reads(s, l) {
      ReadConsumes(s.q, Limit(s, l));
    }
  }

  lemma TextStep(s: State, l: Label, s': State, out: Output, later: string, rest: string)
    requires WellFormed(s.q) && NonEmptyFrames(s.q) && Step(s, l) == (s', out) && later + rest == Unread(s'.q.frames)
    requires l.Call? ==> l.max >= |HEARTBEAT|
    requires s.reader.Waiting? ==> s.reader.max >= |HEARTBEAT|
    requires s.q.closed
    ensures (EmittedData(out) + later) + rest == Unread(s.q.frames)
  {
    ClosedStep(s, l);
    Regroup(EmittedData(out), later, rest);
  }

  /** After shutdown the reads return exactly a prefix of what was queued. */
  lemma {:induction false} DrainText(s: State, ls: seq<Label>)
    requires WellFormed(s.q) && s.q.closed && NonEmptyFrames(s.q) && BigBuffers(ls)
    requires s.reader.Waiting? ==> s.reader.max >= |HEARTBEAT|
    ensures var (s', outs) := RunFrom(s, ls); DataBytes(outs) + Unread(s'.q.frames) == Unread(s.q.frames)
    decreases |ls|
  {
    if ls != [] {
      var (s1, out) := Step(s, ls[0]);
      ClosedStep(s, ls[0]);
      DrainText(s1, ls[1..]);
      var (s2, outs) := RunFrom(s1, ls[1..]);
      DataCons(out, outs);
      TextStep(s, ls[0], s1, out, DataBytes(outs), Unread(s2.q.frames));
    }
  }

  lemma {:induction false} DataCons(out: Output, outs: seq<Output>)
    ensures DataBytes([out] + outs) == EmittedData(out) + DataBytes(outs)
  {
    var all := [out] + outs;
    if outs == [] {
      assert all[..0] == [];
    } else {
      var init := outs[..|outs| - 1];
      DataCons(out, init);
      assert all[..|all| - 1] == [out] + init;
      Regroup(EmittedData(out), DataBytes(init), EmittedData(outs[|outs| - 1]));
    }
  }

  /** They return at most the one heartbeat already in flight and no more live
      replies than there are bytes left, plus that heartbeat. */
  lemma {:induction false} DrainBounded(s: State, ls: seq<Label>)
    requires WellFormed(s.q) && s.q.closed && NonEmptyFrames(s.q) && BigBuffers(ls)
    requires s.reader.Waiting? ==> s.reader.max >= |HEARTBEAT|
    ensures var (s', outs) := RunFrom(s, ls);
            && Beats(outs) <= InFlight(s)
            && LiveReplies(outs) <= |Unread(s.q.frames)| + InFlight(s)
            && (s.q.frames == [] && s.reader.Idle? ==> LiveReplies(outs) == 0)
    decreases |ls|
  {
    if ls != [] {
      var (s1, out) := Step(s, ls[0]);
      ClosedStep(s, ls[0]);
      DrainBounded(s1, ls[1..]);
      var (s2, outs) := RunFrom(s1, ls[1..]);
      assert ([out] + outs)[1..] == outs;
    }
  }

  lemma {:induction false} RepliesSplit(outs: seq<Output>)
    requires Replies(outs) > LiveReplies(outs)
    ensures exists i :: 0 <= i < |outs| && outs[i].Eof?
  {
    if !outs[0].Eof? {
      RepliesSplit(outs[1..]);
      var i :| 0 <= i < |outs[1..]| && outs[1..][i].Eof?;
      assert outs[i + 1].Eof?;
    }
  }

  /** The reads begun while no other was waiting. */
  function Calls(s: State, ls: seq<Label>): nat
    requires WellFormed(s.q)
    decreases |ls|
  {
    if ls == [] then 0
    else (if ls[0].Call? && s.reader.Idle? then 1 else 0) + Calls(Step(s, ls[0]).0, ls[1..])
  }

  /** After closing every such read is answered at once: none goes into a wait. */
  lemma CallIsAnswered(s: State, max: nat)
    requires WellFormed(s.q) && s.q.closed && s.reader.Idle?
    ensures var (s', out) := Step(s, Call(max)); s'.reader.Idle? && !out.Silent?
  {
  }

  lemma {:induction false} CallsAreAnswered(s: State, ls: seq<Label>)
    requires WellFormed(s.q) && s.q.closed && NonEmptyFrames(s.q) && BigBuffers(ls)
    requires s.reader.Waiting? ==> s.reader.max >= |HEARTBEAT|
    ensures Calls(s, ls) <= Replies(RunFrom(s, ls).1)
    decreases |ls|
  {
    if ls != [] {
      var (s1, out) := Step(s, ls[0]);
      ClosedStep(s, ls[0]);
      if ls[0].Call? && s.reader.Idle? { CallIsAnswered(s, ls[0].max); }
      CallsAreAnswered(s1, ls[1..]);
      RepliesCons(out, RunFrom(s1, ls[1..]).1);
    }
  }

  lemma RepliesCons(out: Output, outs: seq<Output>)
    ensures Replies([out] + outs) == (if out.Silent? then 0 else 1) + Replies(outs)
  {
    assert ([out] + outs)[1..] == outs;
  }

  /** So as many reads as there are bytes left, and two more, reach the end of the
      stream, and it stays reached. */
  lemma {:induction false} DrainTerminates(s: State, ls: seq<Label>, more: seq<Label>)
    requires WellFormed(s.q) && s.q.closed && NonEmptyFrames(s.q) && BigBuffers(ls) && BigBuffers(more)
    requires s.reader.Waiting? ==> s.reader.max >= |HEARTBEAT|
    requires Calls(s, ls) >= |Unread(s.q.frames)| + 2
    ensures exists i :: 0 <= i < |RunFrom(s, ls).1| && RunFrom(s, ls).1[i].Eof?
    ensures LiveReplies(RunFrom(RunFrom(s, ls).0, more).1) == 0
  {
    CallsAreAnswered(s, ls);
    DrainBounded(s, ls);
    RepliesSplit(RunFrom(s, ls).1);
    EofIsFinal(s, ls);
    DrainBounded(RunFrom(s, ls).0, more);
  }

  lemma {:induction false} EofIsFinal(s: State, ls: seq<Label>)
    requires WellFormed(s.q) && s.q.closed && NonEmptyFrames(s.q) && BigBuffers(ls)
    requires s.reader.Waiting? ==> s.reader.max >= |HEARTBEAT|
    ensures var (s', outs) := RunFrom(s, ls);
            && s'.q.closed && NonEmptyFrames(s'.q) && (s'.reader.Waiting? ==> s'.reader == s.reader)
            && ((exists i :: 0 <= i < |outs| && outs[i].Eof?) || (s.q.frames == [] && s.reader.Idle?)
                ==> s'.q.frames == [] && s'.reader.Idle?)
    decreases |ls|
  {
    if ls != [] {
      var (s1, out) := Step(s, ls[0]);
      ClosedStep(s, ls[0]);
      EofIsFinal(s1, ls[1..]);
      var (s2, outs) := RunFrom(s1, ls[1..]);
      if i :| 0 <= i < |[out] + outs| && ([out] + outs)[i].Eof? {
        assert i == 0 || outs[i - 1].Eof?;
      }
    }
  }
}
