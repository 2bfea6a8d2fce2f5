/** Running one group of shutdown targets (src/shutdown/shutdown.c:421-560).
    Clock readings, fork results, exit statuses and target results are inputs. */
module ShutdownGroups {
  import opened Options
  import opened ShutdownResult

  predicate OverTime(maxTimeout: int, start: int, now: int) { maxTimeout > 0 && now - start >= maxTimeout }

  // --- Sequential groups ---

  /** `times[t]` is the clock when target t is considered, `results[t]` whether it would succeed.
      `ran` are the targets executed, in order. */
  method ExecuteSequential(maxTimeout: int, start: int, times: seq<int>, results: seq<bool>)
    returns (rows: seq<Verdict>, ran: seq<nat>)
    requires |times| == |results|
    ensures |rows| == |times|
    ensures forall t :: 0 <= t < |rows| ==>
              rows[t] == if OverTime(maxTimeout, start, times[t]) then Skipped
                         else if results[t] then Passed else Failed
    ensures forall t :: 0 <= t < |times| ==> (t in ran <==> !OverTime(maxTimeout, start, times[t]))
    ensures forall i, j :: 0 <= i < j < |ran| ==> ran[i] < ran[j]
    ensures forall i :: 0 <= i < |ran| ==> ran[i] < |times|
  {
    rows, ran := [], [];
    for t := 0 to |times|
      invariant |rows| == t
      invariant forall u :: 0 <= u < t ==>
                  rows[u] == if OverTime(maxTimeout, start, times[u]) then Skipped
                             else if results[u] then Passed else Failed
      invariant forall u :: 0 <= u < t ==> (u in ran <==> !OverTime(maxTimeout, start, times[u]))
      invariant forall i, j :: 0 <= i < j < |ran| ==> ran[i] < ran[j]
      invariant forall i :: 0 <= i < |ran| ==> ran[i] < t
    {
      if maxTimeout > 0 && times[t] - start >= maxTimeout {
        rows := rows + [Skipped];
      } else {
        ran := ran + [t];
        rows := rows + [if results[t] then Passed else Failed];
      }
    }
  }

  ghost predicate NonDecreasing(times: seq<int>) {
    forall i, j :: 0 <= i < j < |times| ==> times[i] <= times[j]
  }

  /** Where the first target at or past the ceiling stands. */
  function FirstLate(maxTimeout: int, start: int, times: seq<int>): (m: nat)
    ensures m <= |times|
    ensures forall t :: 0 <= t < m ==> !OverTime(maxTimeout, start, times[t])
    ensures m < |times| ==> OverTime(maxTimeout, start, times[m])
  {
    if times == [] || OverTime(maxTimeout, start, times[0]) then 0 else 1 + FirstLate(maxTimeout, start, times[1..])
  }

  /** With a clock that never goes back the skipped targets are a suffix: what
      ran is exactly the targets before the first late one, and nothing starts
      at or after the ceiling. */
  lemma SkippedAreSuffix(maxTimeout: int, start: int, times: seq<int>, t: nat)
    requires NonDecreasing(times) && t < |times|
    ensures OverTime(maxTimeout, start, times[t]) <==> FirstLate(maxTimeout, start, times) <= t
  {
    var m := FirstLate(maxTimeout, start, times);
    if m < t {
      assert times[m] <= times[t];
    }
  }

  // --- Parallel groups ---

  /** The world of a parallel group: which forks succeed, what a non-blocking
      wait for a child answers in a poll round (`waitpid(round, child)`: nothing,
      or whether it exited with status 0), and the clock before and in each round. */
  datatype World = World(forked: seq<bool>, waitpid: (nat, nat) -> Option<bool>,
                         start: int, clock: nat -> int)

  /** Each poll round sleeps a second. */
  ghost predicate Ticks(w: World) {
    w.clock(0) >= w.start && forall r: nat :: w.clock(r + 1) >= w.clock(r) + 1
  }

  /** The status with which child t is reaped by polling in the rounds before r, if it is. */
  ghost function Status(w: World, t: nat, r: nat): Option<bool>
    requires t < |w.forked|
  {
    if !w.forked[t] || r == 0 then None
    else if Status(w, t, r - 1).Some? then Status(w, t, r - 1)
    else w.waitpid(r - 1, t)
  }

  /** Every child that exists has been reaped by the end of round r. */
  ghost predicate AllSeen(w: World, r: nat) {
    forall t :: 0 <= t < |w.forked| && w.forked[t] ==> Status(w, t, r + 1).Some?
  }

  ghost predicate Ends(w: World, maxTimeout: int, r: nat) {
    AllSeen(w, r) || OverTime(maxTimeout, w.start, w.clock(r))
  }

  /** What the group reports for a target once polling has ended with round `last`.
      A target whose fork failed is reported as passed. */
  ghost function Report(w: World, t: nat, last: nat): Verdict
    requires t < |w.forked|
  {
    if !w.forked[t] then Passed
    else match Status(w, t, last + 1) case Some(ok) => (if ok then Passed else Failed) case None => Killed
  }

  lemma {:induction false} StatusStays(w: World, t: nat, r: nat, later: nat)
    requires t < |w.forked| && r <= later && Status(w, t, r).Some?
    ensures Status(w, t, later) == Status(w, t, r)
  {
    if r < later { StatusStays(w, t, r, later - 1); }
  }

  /** done[] and outcome[] say what polling has seen before round r. */
  ghost predicate Mirror(w: World, r: nat, t: nat, done: bool, outcome: Verdict)
    requires t < |w.forked|
  {
    && (done <==> Status(w, t, r).Some?)
    && outcome == if Status(w, t, r) == Some(false) then Failed else Passed
  }

  ghost predicate Mirrors(w: World, r: nat, done: seq<bool>, outcome: seq<Verdict>) {
    && |done| == |outcome| == |w.forked|
    && forall t :: 0 <= t < |done| ==> Mirror(w, r, t, done[t], outcome[t])
  }

  ghost predicate Distinct(s: seq<nat>) {
    forall i, j :: 0 <= i < j < |s| ==> s[i] != s[j]
  }

  /** `list` names each marked index exactly once, and nothing else. */
  ghost predicate Lists(list: seq<nat>, marks: seq<bool>) {
    Distinct(list) && forall t: nat :: t in list <==> t < |marks| && marks[t]
  }

  /** The children that came to exist, in target order. */
  method ForkAll(w: World) returns (started: seq<nat>)
    ensures Lists(started, w.forked)
    ensures forall i, j :: 0 <= i < j < |started| ==> started[i] < started[j]
  {
    started := [];
    for t := 0 to |w.forked|
      invariant forall u: nat :: u in started <==> u < t && w.forked[u]
      invariant forall i, j :: 0 <= i < j < |started| ==> started[i] < started[j]
    {
      assert forall i :: 0 <= i < |started| ==> started[i] in started;
      if w.forked[t] { started := started + [t]; }
    }
  }

  /** One pass of non-blocking waits over the children still running. */
  method PollChildren(w: World, r: nat, done: array<bool>, outcome: array<Verdict>, before: seq<nat>)
    returns (allDone: bool, reaped: seq<nat>)
    requires Mirrors(w, r, done[..], outcome[..]) && Lists(before, done[..])
    modifies done, outcome
    ensures Mirrors(w, r + 1, done[..], outcome[..]) && Lists(reaped, done[..])
    ensures allDone <==> AllSeen(w, r)
  {
    allDone, reaped := true, before;
    for t := 0 to done.Length
      invariant |done[..]| == |outcome[..]| == |w.forked|
      invariant forall u :: 0 <= u < t ==> Mirror(w, r + 1, u, done[u], outcome[u])
      invariant forall u :: t <= u < done.Length ==> Mirror(w, r, u, done[u], outcome[u])
      invariant Lists(reaped, done[..])
      invariant allDone <==> forall u :: 0 <= u < t && w.forked[u] ==> Status(w, u, r + 1).Some?
    {
      if !done[t] && w.forked[t] {
        var status := w.waitpid(r, t);
        if status.Some? {
          ghost var marked := done[..][t := true];
          done[t] := true;
          assert done[..] == marked;
          outcome[t] := if status.value then Passed else Failed;
          reaped := reaped + [t];
        } else {
          allDone := false;
        }
      }
    }
  }

  /** The ceiling: every child still running gets SIGTERM and is then reaped. */
  method KillStragglers(w: World, last: nat, done: array<bool>, outcome: array<Verdict>, before: seq<nat>)
    returns (reaped: seq<nat>, killed: seq<nat>)
    requires Mirrors(w, last + 1, done[..], outcome[..]) && Lists(before, done[..])
    modifies done, outcome
    ensures done.Length == |w.forked| && done[..] == w.forked && Lists(reaped, w.forked)
    ensures forall t :: 0 <= t < outcome.Length ==> outcome[t] == Report(w, t, last)
    ensures forall t: nat :: t in killed <==> t < outcome.Length && outcome[t] == Killed
  {
    reaped, killed := before, [];
    for t := 0 to done.Length
      invariant done[..] == old(done[..])
      invariant forall u :: 0 <= u < t ==> outcome[u] == Report(w, u, last)
      invariant forall u :: 0 <= u < t ==> (done[u] <==> Status(w, u, last + 1).Some?)
      invariant forall u :: t <= u < done.Length ==> Mirror(w, last + 1, u, done[u], outcome[u])
      invariant forall u: nat :: u in killed <==> u < t && outcome[u] == Killed
    {
      if !done[t] && w.forked[t] {
        outcome[t] := Killed;
        killed := killed + [t];
      }
    }
    ghost var settled := outcome[..];
    for t := 0 to done.Length
      invariant outcome[..] == settled
      invariant forall u :: 0 <= u < t ==> done[u] == w.forked[u]
      invariant forall u :: t <= u < done.Length ==> (done[u] <==> Status(w, u, last + 1).Some?)
      invariant Lists(reaped, done[..])
    {
      if !done[t] && w.forked[t] {
        ghost var marked := done[..][t := true];
        done[t] := true;
        assert done[..] == marked;
        reaped := reaped + [t];
      }
    }
  }

  /** Polls over done[] and outcome[] until completion or the ceiling, whose
      stragglers are killed and reaped. */
  method PollUntilDone(w: World, maxTimeout: int, done: array<bool>, outcome: array<Verdict>, ghost horizon: nat)
    returns (reaped: seq<nat>, killed: seq<nat>, ghost last: nat)
    requires Ticks(w) && Mirrors(w, 0, done[..], outcome[..]) && Lists([], done[..])
    requires maxTimeout <= 0 ==> AllSeen(w, horizon)
    modifies done, outcome
    ensures Ends(w, maxTimeout, last) && forall r: nat :: r < last ==> !Ends(w, maxTimeout, r)
    ensures last <= if maxTimeout > 0 then maxTimeout else horizon
    ensures outcome.Length == |w.forked| && forall t :: 0 <= t < outcome.Length ==> outcome[t] == Report(w, t, last)
    ensures Lists(reaped, w.forked)
    ensures forall t: nat :: t in killed <==> t < outcome.Length && outcome[t] == Killed
    ensures killed != [] ==> OverTime(maxTimeout, w.start, w.clock(last))
  {
    var round, allDone := 0, false;
    reaped, killed := [], [];
    ghost var limit := if maxTimeout > 0 then maxTimeout else horizon;
    while true
      invariant round <= limit && w.clock(round) - w.start >= round
      invariant forall r: nat :: r < round ==> !Ends(w, maxTimeout, r)
      invariant Mirrors(w, round, done[..], outcome[..]) && Lists(reaped, done[..])
      invariant killed == []
      decreases limit - round
    {
      allDone, reaped := PollChildren(w, round, done, outcome, reaped);
      if allDone {
        last := round;
        assert done[..] == w.forked;
        return;
      }
      if maxTimeout > 0 && w.clock(round) - w.start >= maxTimeout {
        reaped, killed := KillStragglers(w, round, done, outcome, reaped);
        last := round;
        return;
      }
      if maxTimeout <= 0 { SeenByHorizon(w, round, horizon); }
      round := round + 1;
    }
  }

  /** Forks every target, then polls.  `horizon` bounds the rounds of a group
      without a ceiling: by then every child has exited.  Every child is reaped
      exactly once. */
  method ExecuteParallel(w: World, maxTimeout: int, ghost horizon: nat)
    returns (rows: seq<Verdict>, started: seq<nat>, reaped: seq<nat>, killed: seq<nat>, ghost last: nat)
    requires Ticks(w)
    requires maxTimeout <= 0 ==> AllSeen(w, horizon)
    ensures Ends(w, maxTimeout, last) && forall r: nat :: r < last ==> !Ends(w, maxTimeout, r)
    ensures last <= if maxTimeout > 0 then maxTimeout else horizon
    ensures |rows| == |w.forked| && forall t :: 0 <= t < |rows| ==> rows[t] == Report(w, t, last)
    ensures Lists(started, w.forked) && Lists(reaped, w.forked)
    ensures forall t: nat :: t in killed <==> t < |rows| && rows[t] == Killed
    ensures killed != [] ==> OverTime(maxTimeout, w.start, w.clock(last))
  {
    started := ForkAll(w);
    var done := new bool[|w.forked|](_ => false);
    var outcome := new Verdict[|w.forked|](_ => Passed);
    reaped, killed, last := PollUntilDone(w, maxTimeout, done, outcome, horizon);
    rows := outcome[..];
  }

  lemma SeenByHorizon(w: World, r: nat, horizon: nat)
    requires AllSeen(w, horizon) && !AllSeen(w, r)
    ensures r < horizon
  {
    if horizon <= r {
      forall t | 0 <= t < |w.forked| && w.forked[t] ensures Status(w, t, r + 1).Some? {
        StatusStays(w, t, horizon + 1, r + 1);
      }
    }
  }

  // --- Whether the rows are true ---

  /** Child t exited with status 0 in some round up to `last`. */
  ghost predicate ExitedWell(w: World, t: nat, last: nat)
    requires t < |w.forked|
  {
    w.forked[t] && exists r: nat :: r <= last && w.waitpid(r, t) == Some(true)
  }

  lemma {:induction false} StatusHasRound(w: World, t: nat, r: nat)
    requires t < |w.forked| && Status(w, t, r).Some?
    ensures exists q: nat :: q < r && w.waitpid(q, t) == Status(w, t, r)
  {
    if Status(w, t, r - 1).Some? {
      StatusHasRound(w, t, r - 1);
    } else {
      assert w.waitpid(r - 1, t) == Status(w, t, r);
    }
  }

  /** Child t's first answer comes in round r, with this exit status. */
  ghost predicate AnswersFirst(w: World, t: nat, r: nat, ok: bool)
    requires t < |w.forked|
  {
    w.waitpid(r, t) == Some(ok) && forall q: nat :: q < r ==> w.waitpid(q, t).None?
  }

  lemma {:induction false} StatusIsFirstAnswer(w: World, t: nat, r: nat)
    requires t < |w.forked| && w.forked[t]
    ensures Status(w, t, r).None? <==> forall q: nat :: q < r ==> w.waitpid(q, t).None?
    ensures Status(w, t, r).Some? ==> exists q: nat :: q < r && AnswersFirst(w, t, q, Status(w, t, r).value)
  {
    if r > 0 {
      StatusIsFirstAnswer(w, t, r - 1);
      if Status(w, t, r - 1).None? && Status(w, t, r).Some? {
        assert AnswersFirst(w, t, r - 1, Status(w, t, r).value);
      }
    }
  }

  lemma OneFirstAnswer(w: World, t: nat, q: nat, r: nat, a: bool, b: bool)
    requires t < |w.forked| && AnswersFirst(w, t, q, a) && AnswersFirst(w, t, r, b)
    ensures q == r && a == b
  {
    assert w.waitpid(q, t).Some? && w.waitpid(r, t).Some?;
  }

  lemma {:induction false} FirstAnswerDecides(w: World, t: nat, last: nat, ok: bool)
    requires t < |w.forked| && w.forked[t]
    ensures Status(w, t, last + 1) == Some(ok) <==> exists r: nat :: r <= last && AnswersFirst(w, t, r, ok)
  {
    StatusIsFirstAnswer(w, t, last + 1);
    if r: nat :| r <= last && AnswersFirst(w, t, r, ok) {
      assert w.waitpid(r, t).Some?;
      var q: nat :| q < last + 1 && AnswersFirst(w, t, q, Status(w, t, last + 1).value);
      OneFirstAnswer(w, t, q, r, Status(w, t, last + 1).value, ok);
    }
  }

  /** A target's row says what its child first answered: passed or failed by its exit
      status, killed if there was no answer up to the last round.  One whose fork failed
      is passed. */
  lemma {:induction false} RowIsFirstAnswer(w: World, t: nat, last: nat)
    requires t < |w.forked|
    ensures !w.forked[t] ==> Report(w, t, last) == Passed
    ensures w.forked[t] ==>
              && (Report(w, t, last) == Passed <==> exists r: nat :: r <= last && AnswersFirst(w, t, r, true))
              && (Report(w, t, last) == Failed <==> exists r: nat :: r <= last && AnswersFirst(w, t, r, false))
              && (Report(w, t, last) == Killed <==> forall r: nat :: r <= last ==> w.waitpid(r, t).None?)
  {
    if w.forked[t] {
      StatusIsFirstAnswer(w, t, last + 1);
      FirstAnswerDecides(w, t, last, true);
      FirstAnswerDecides(w, t, last, false);
    }
  }

  /** A passed row means a child that exited with status 0 exactly when the
      target's fork worked. */
  lemma PassedIsTrueExactlyWhenForked(w: World, t: nat, last: nat)
    requires t < |w.forked|
    ensures (Report(w, t, last) == Passed ==> ExitedWell(w, t, last)) <==> w.forked[t]
  {
    if w.forked[t] && Status(w, t, last + 1).Some? { StatusHasRound(w, t, last + 1); }
  }

  /** A group of one target whose fork fails: nothing ran, and its row says passed. */
  lemma FailedForkReadsAsPassed()
    ensures exists w: World :: |w.forked| == 1 && Report(w, 0, 0) == Passed && !ExitedWell(w, 0, 0)
  {
    var w := World([false], (r, t) => None, 0, r => r);
    assert Report(w, 0, 0) == Passed && !ExitedWell(w, 0, 0);
  }
}
