/** What a read answers (src/api/sse.c:331-387), over every interleaving of pushes,
    shutdown and reads: data, a heartbeat, the end of the stream or nothing yet. */
module SseReplies {
  import opened SseQueue
  import opened SseStream

  lemma RunSplit(ls: seq<Label>, l: Label)
    ensures Run(ls + [l]).0 == Step(Run(ls).0, l).0
    ensures Run(ls + [l]).1 == Run(ls).1 + [Step(Run(ls).0, l).1]
  {
    assert (ls + [l])[..|ls|] == ls;
  }

  // --- Heartbeats ---

  /** The timed wait of a reader whose buffer holds a heartbeat runs out. */
  predicate Expires(s: State, l: Label) { l.Timeout? && s.reader.Waiting? && s.reader.max >= 12 }

  function Expired(ls: seq<Label>): nat {
    if ls == [] then 0
    else Expired(ls[..|ls| - 1]) + if Expires(Run(ls[..|ls| - 1]).0, ls[|ls| - 1]) then 1 else 0
  }

  lemma BeatLength()
    ensures |HEARTBEAT| == 12
  {
  }

  lemma BeatExactlyWhenExpired(s: State, l: Label)
    requires WellFormed(s.q)
    ensures Step(s, l).1.Heartbeat? <==> Expires(s, l)
    ensures |Emitted(Step(s, l).1)| == |EmittedData(Step(s, l).1)| + if Expires(s, l) then 12 else 0
  {
    BeatLength();
  }

  /** What the heartbeats add to a wire. */
  ghost predicate Carries(outs: seq<Output>, beats: nat) { |Wire(outs)| == |DataBytes(outs)| + 12 * beats }

  lemma CarriesSnoc(outs: seq<Output>, beats: nat, out: Output, more: nat)
    requires Carries(outs, beats) && |Emitted(out)| == |EmittedData(out)| + 12 * more
    ensures Carries(outs + [out], beats + more)
  {
    OutputSnoc(outs, out);
  }

  /** Over every run the client is sent one heartbeat for each wait that ran out, and
      besides them nothing but data. */
  lemma {:induction false} HeartbeatsAreExpiredWaits(ls: seq<Label>)
    ensures |Wire(Run(ls).1)| == |DataBytes(Run(ls).1)| + 12 * Expired(ls)
  {
    if ls != [] {
      var init, l := ls[..|ls| - 1], ls[|ls| - 1];
      var s, outs := Run(init).0, Run(init).1;
      HeartbeatsAreExpiredWaits(init);
      BeatExactlyWhenExpired(s, l);
      CarriesSnoc(outs, Expired(init), Step(s, l).1, if Expires(s, l) then 1 else 0);
    }
  }

  // --- The answers ---

  /** The locked part of a read is run: on a call, or when its wait is woken. */
  predicate Looks(s: State, l: Label) {
    (l.Call? && l.max > 0 && s.reader.Idle?) || (l.Wake? && s.reader.Waiting?)
  }

  lemma StepCloses(s: State, l: Label)
    requires WellFormed(s.q)
    ensures Step(s, l).0.q.closed <==> s.q.closed || l.Shut?
  {
  }

  lemma {:induction false} ClosedExactlyWhenShut(ls: seq<Label>)
    ensures Run(ls).0.q.closed <==> Shut in ls
  {
    if ls != [] {
      var init, l := ls[..|ls| - 1], ls[|ls| - 1];
      ClosedExactlyWhenShut(init);
      StepCloses(Run(init).0, l);
      assert ls == init + [l];
    }
  }

  /** Some accepted frame has neither been read to its end nor dropped. */
  predicate Owes(ls: seq<Label>) { |Sources(Account(ls))| < |Accepted(ls)| }

  lemma {:induction false} OwesExactlyWhenQueued(ls: seq<Label>)
    ensures Owes(ls) <==> Run(ls).0.q.frames != []
  {
    StreamExplained(ls);
    assert |Queued(Run(ls).0.q.frames)| == |Run(ls).0.q.frames|;
  }

  ghost predicate Answered(s: State, l: Label, owes: bool, shut: bool, out: Output, waits: bool) {
    && (out.Data? <==> Looks(s, l) && owes)
    && (out.Eof? <==> Looks(s, l) && !owes && shut)
    && (out.Heartbeat? <==> Expires(s, l))
    && (out.Retry? <==> (s.reader.Idle? && l == Call(0)) || (l.Timeout? && s.reader.Waiting? && !Expires(s, l)))
    && (waits <==> (Looks(s, l) && !owes && !shut) || (s.reader.Waiting? && !l.Timeout? && !Looks(s, l)))
  }

  lemma StepAnswers(s: State, l: Label)
    requires WellFormed(s.q)
    ensures Answered(s, l, s.q.frames != [], s.q.closed, Step(s, l).1, Step(s, l).0.reader.Waiting?)
  {
    BeatLength();
  }

  /** At every moment of every run: a look at the queue returns data exactly when the
      client is still owed some, else the end of the stream exactly when there has been
      a shutdown, and else begins or goes on with a wait; a wait that runs out returns
      a heartbeat if the buffer holds one, and nothing yet if not. */
  lemma {:induction false} AnswersExactly(ls: seq<Label>, l: Label)
    ensures |Run(ls + [l]).1| == |ls| + 1
    ensures Answered(Run(ls).0, l, Owes(ls), Shut in ls, Run(ls + [l]).1[|ls|], Run(ls + [l]).0.reader.Waiting?)
  {
    RunSplit(ls, l);
    RunLength(ls);
    OwesExactlyWhenQueued(ls);
    ClosedExactlyWhenShut(ls);
    StepAnswers(Run(ls).0, l);
  }

  lemma RunLength(ls: seq<Label>)
    ensures |Run(ls).1| == |ls|
  {
    if ls != [] { RunLength(ls[..|ls| - 1]); }
  }

  /** Data fills the buffer, or reaches the end of a frame, and is never more than fits. */
  lemma {:induction false} DataFillsBuffer(ls: seq<Label>, l: Label)
    requires Run(ls + [l]).1 != [] && Run(ls + [l]).1[|Run(ls + [l]).1| - 1].Data?
    ensures var n := |Run(ls + [l]).1[|Run(ls + [l]).1| - 1].bytes|;
            && n <= Limit(Run(ls).0, l)
            && (n == Limit(Run(ls).0, l) || |Account(ls + [l])| == |Account(ls)| + 1)
  {
    RunSplit(ls, l);
    assert (ls + [l])[..|ls|] == ls;
    StepFills(Run(ls).0, l);
  }

  lemma StepFills(s: State, l: Label)
    requires WellFormed(s.q) && Step(s, l).1.Data?
    ensures var n := |Step(s, l).1.bytes|; n <= Limit(s, l) && (n == Limit(s, l) || |NewPieces(s, l)| == 1)
  {
  }
}
