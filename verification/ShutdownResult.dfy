/** The result accumulator of a shutdown workflow (src/shutdown/shutdown.c:83-114). */
module ShutdownResult {
  /** A killed target is recorded as failed, with its own error text. */
  datatype Verdict = Passed | Failed | Skipped | Killed

  datatype Phase = Phase1 | Phase2 | Phase3

  datatype Row = Row(phase: Phase, target: string, verdict: Verdict)

  /** The numeric `ok` field: 0 passed, 1 failed, 2 skipped. */
  function OkField(v: Verdict): (ok: int)
    ensures (ok == 0 <==> v.Passed?) && (ok == 2 <==> v.Skipped?) && (ok == 1 <==> v.Failed? || v.Killed?)
  {
    match v case Passed => 0 case Skipped => 2 case _ => 1
  }

  predicate Bad(r: Row) { OkField(r.verdict) == 1 }

  function Failures(rows: seq<Row>): nat {
    if rows == [] then 0 else Failures(rows[..|rows| - 1]) + if Bad(rows[|rows| - 1]) then 1 else 0
  }

  lemma FailuresSnoc(rows: seq<Row>, r: Row)
    ensures Failures(rows + [r]) == Failures(rows) + if Bad(r) then 1 else 0
  {
    assert (rows + [r])[..|rows|] == rows;
  }

  function Count(rows: seq<Row>, v: Verdict): nat {
    if rows == [] then 0 else Count(rows[..|rows| - 1], v) + if rows[|rows| - 1].verdict == v then 1 else 0
  }

  /** Every row is counted under exactly one verdict. */
  lemma {:induction false} VerdictsAddUp(rows: seq<Row>)
    ensures Count(rows, Passed) + Count(rows, Failed) + Count(rows, Killed) + Count(rows, Skipped) == |rows|
    ensures Failures(rows) == Count(rows, Failed) + Count(rows, Killed)
  {
    if rows != [] { VerdictsAddUp(rows[..|rows| - 1]); }
  }

  lemma {:induction false} CountConcat(a: seq<Row>, b: seq<Row>, v: Verdict)
    ensures Count(a + b, v) == Count(a, v) + Count(b, v)
  {
    if b == [] {
      assert a + b == a;
    } else {
      CountConcat(a, b[..|b| - 1], v);
      assert (a + b)[..|a + b| - 1] == a + b[..|b| - 1];
    }
  }

  lemma {:induction false} CountZero(rows: seq<Row>, v: Verdict)
    ensures Count(rows, v) == 0 <==> forall i :: 0 <= i < |rows| ==> rows[i].verdict != v
  {
    if rows != [] {
      var init := rows[..|rows| - 1];
      CountZero(init, v);
      assert forall i :: 0 <= i < |init| ==> rows[i] == init[i];
    }
  }

  class Accumulator {
    var steps: seq<Row>
    var nFailed: nat

    ghost predicate Valid()
      reads this
    {
      nFailed == Failures(steps)
    }

    constructor ()
      ensures Valid() && steps == []
    {
      steps, nFailed := [], 0;
    }

    method Append(phase: Phase, target: string, verdict: Verdict)
      requires Valid()
      modifies this
      ensures Valid() && steps == old(steps) + [Row(phase, target, verdict)]
    {
      var row := Row(phase, target, verdict);
      FailuresSnoc(steps, row);
      steps := steps + [row];
      if OkField(verdict) == 1 { nFailed := nFailed + 1; }
    }
  }
}
