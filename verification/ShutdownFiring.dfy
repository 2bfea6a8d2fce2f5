/** The trigger meets the one-at-a-time workflow (src/shutdown/shutdown.c:981-1076,
    1165-1230) in one machine.  The monitor thread polls the trigger; a poll that
    fires marks the trigger as used and then calls for a start, taking a refusal
    because a workflow is running for success; and every other action of the workflow
    machine, starts of the API included, may come in between. */
module ShutdownFiring {
  import T = ShutdownTrigger
  import A = ShutdownAsync

  /** `pending` from the firing until its start reaches the guard, `caused` the calls
      so made, `polls` the polls so far. */
  datatype Joint = Joint(trigger: T.State, pending: bool, sys: A.Sys, caused: seq<nat>, polls: seq<T.Poll>)

  datatype Label = Poll(p: T.Poll) | Fire | Other(a: A.Action)

  const BOOT: Joint := Joint(T.State(0, false), false, A.BOOT, [], [])

  /** The monitor thread is inside the start it called for. */
  predicate Busy(j: Joint) {
    j.pending || exists c <- j.caused :: c < |j.sys.starters| && !j.sys.starters[c].Returned?
  }

  /** What the step does to the workflow machine.  The daemon stops the monitor
      thread before it frees the manager. */
  function Action(j: Joint, l: Label): seq<A.Action> {
    match l
    case Poll(_) => []
    case Fire => if j.pending then [A.Start(false)] else []
    case Other(a) => if a.Free? && Busy(j) then [] else [a]
  }

  function Step(j: Joint, l: Label): Joint {
    var act := Action(j, l);
    var k := if act == [] then j else j.(sys := A.Step(j.sys, act[0]));
    match l
    case Poll(p) =>
      if Busy(j) || !j.sys.freeing.InUse? then j
      else
        var (s, out) := T.Check(j.trigger, p);
        j.(trigger := s, pending := out.Fired?, polls := j.polls + [p])
    case Fire => if j.pending then k.(pending := false, caused := j.caused + [|j.sys.starters|]) else j
    case Other(_) => k
  }

  function After(run: seq<Label>): Joint {
    if run == [] then BOOT else Step(After(run[..|run| - 1]), run[|run| - 1])
  }

  /** A joint run seen from the workflow machine alone. */
  function Actions(run: seq<Label>): seq<A.Action> {
    if run == [] then [] else Actions(run[..|run| - 1]) + Action(After(run[..|run| - 1]), run[|run| - 1])
  }

  lemma {:induction false} WorkflowView(run: seq<Label>)
    ensures After(run).sys == A.After(Actions(run))
  {
    if run != [] {
      var init, l := run[..|run| - 1], run[|run| - 1];
      WorkflowView(init);
      var act := Action(After(init), l);
      if act == [] {
        assert Actions(init) + act == Actions(init);
      } else {
        A.AfterSnoc(Actions(init), act[0]);
        assert act == [act[0]];
      }
    }
  }

  // --- One firing, one start ---

  ghost predicate JointInv(j: Joint) {
    && j.trigger == T.After(j.polls)
    && |j.caused| + (if j.pending then 1 else 0) == (if j.trigger.triggered then 1 else 0)
    && (j.pending ==> j.sys.freeing.InUse?)
  }

  lemma FreeingStays(s: A.Sys, a: A.Action)
    requires s.freeing.InUse? && !a.Free?
    ensures A.Step(s, a).freeing.InUse?
  {
  }

  lemma PollInv(j: Joint, p: T.Poll)
    requires JointInv(j)
    ensures JointInv(Step(j, Poll(p)))
  {
    assert (j.polls + [p])[..|j.polls|] == j.polls;
  }

  lemma {:induction false} StepInv(j: Joint, l: Label)
    requires JointInv(j)
    ensures JointInv(Step(j, l))
  {
    match l {
      case Poll(p) => PollInv(j, p);
      case Fire => if j.pending { FreeingStays(j.sys, A.Start(false)); }
      case Other(a) => if j.pending && !a.Free? { FreeingStays(j.sys, a); }
    }
  }

  lemma {:induction false} RunInv(run: seq<Label>)
    ensures JointInv(After(run))
  {
    if run != [] {
      RunInv(run[..|run| - 1]);
      StepInv(After(run[..|run| - 1]), run[|run| - 1]);
    }
  }

  /** Over every joint run the trigger calls for at most one start, and it has done so,
      or is about to, exactly when some poll was due: the condition had held since an
      earlier poll and the delay had passed. */
  lemma TriggerStartsOnceExactlyWhenDue(run: seq<Label>)
    requires T.Usable(After(run).polls)
    ensures var j := After(run);
            && |j.caused| <= 1
            && (|j.caused| == 1 || j.pending <==> T.DueBefore(j.polls, |j.polls|))
  {
    RunInv(run);
    T.AfterTracks(After(run).polls);
  }

  // --- What becomes of it ---

  /** A real workflow is the current one. */
  predicate RealIsCurrent(s: A.Sys) { s.state.Running? && !s.dryRun }

  predicate DryIsCurrent(s: A.Sys) { s.state.Running? && s.dryRun }

  lemma AfterSnoc(run: seq<Label>, l: Label)
    ensures After(run + [l]) == Step(After(run), l)
  {
    assert (run + [l])[..|run|] == run;
  }

  /** When the trigger's start reaches the guard, a real workflow is or becomes the
      current one exactly when the guard did not find a dry run. */
  lemma {:induction false} FiringStartsRealExactlyWhenNoDryRun(run: seq<Label>)
    requires After(run).pending
    ensures |After(run + [Fire]).caused| == 1 && !After(run + [Fire]).pending
    ensures RealIsCurrent(After(run + [Fire]).sys) <==> !DryIsCurrent(After(run).sys)
  {
    RunInv(run);
    AfterSnoc(run, Fire);
  }

  /** The trigger's start found a dry run. */
  predicate Swallowed(run: seq<Label>) {
    run != [] &&
    var j := After(run[..|run| - 1]);
    Swallowed(run[..|run| - 1]) || (run[|run| - 1].Fire? && j.pending && DryIsCurrent(j.sys))
  }

  predicate OthersOnlyStartDry(run: seq<Label>) {
    forall i :: 0 <= i < |run| ==> run[i] != Other(A.Start(false))
  }

  /** A dry run is the only thing that can be running before the trigger's start. */
  ghost predicate Accounted(j: Joint, swallowed: bool) {
    && (false in j.sys.modes <==> j.caused != [] && !swallowed)
    && (swallowed ==> j.caused != [])
  }

  lemma NewModes(s: A.Sys, a: A.Action)
    ensures A.Step(s, a).modes == s.modes || (a.Start? && A.Step(s, a).modes == s.modes + [a.dryRun])
  {
  }

  lemma AccountedStep(j: Joint, l: Label, swallowed: bool)
    requires JointInv(j) && A.Mirrored(j.sys) && Accounted(j, swallowed) && l != Other(A.Start(false))
    ensures Accounted(Step(j, l), swallowed || (l.Fire? && j.pending && DryIsCurrent(j.sys)))
  {
    match l {
      case Poll(p) =>
      case Fire => if j.pending { FireAccounted(j, swallowed); }
      case Other(a) => NewModes(j.sys, a);
    }
  }

  lemma FireAccounted(j: Joint, swallowed: bool)
    requires JointInv(j) && A.Mirrored(j.sys) && Accounted(j, swallowed) && j.pending
    ensures Accounted(Step(j, Fire), swallowed || DryIsCurrent(j.sys))
  {
    assert j.caused == [];
    var s := j.sys;
    if s.state.Running? { assert s.modes[|s.modes| - 1] in s.modes; }
  }

  /** In a run where only the trigger asks for real workflows, one was ever accepted
      exactly when the trigger's start has been made and did not find a dry run. */
  lemma {:induction false} RealRunsExactlyWhenNotSwallowed(run: seq<Label>)
    requires OthersOnlyStartDry(run)
    ensures false in After(run).sys.modes <==> After(run).caused != [] && !Swallowed(run)
    ensures Accounted(After(run), Swallowed(run))
  {
    if run != [] {
      var init := run[..|run| - 1];
      RealRunsExactlyWhenNotSwallowed(init);
      RunInv(init);
      WorkflowView(init);
      A.RunMirrored(Actions(init));
      AccountedStep(After(init), run[|run| - 1], Swallowed(init));
    }
  }

  // --- Starts that come to nothing ---

  lemma {:induction false} AfterAppend(run: seq<Label>, more: seq<Label>)
    ensures Swallowed(run) ==> Swallowed(run + more)
    ensures |After(run).caused| <= |After(run + more).caused|
  {
    if more == [] {
      assert run + more == run;
    } else {
      AfterAppend(run, more[..|more| - 1]);
      assert (run + more)[..|run + more| - 1] == run + more[..|more| - 1];
    }
  }

  /** Two polls of a UPS that asks for a shutdown, with no delay: the second fires. */
  ghost predicate Imminent(p: T.Poll, q: T.Poll) {
    && p.config.mode.UpsDecides? && p.data.shutdownImminent && p.now == 1
    && q.config.mode.UpsDecides? && q.data.shutdownImminent && q.now == 2 && q.config.delaySec == 0
  }

  /** A dry run is started, then the trigger fires. */
  function SwallowingRun(p: T.Poll, q: T.Poll): seq<Label> { [Other(A.Start(true)), Poll(p), Poll(q), Fire] }

  lemma SwallowingRunEnds(p: T.Poll, q: T.Poll)
    requires Imminent(p, q)
    ensures var j := After(SwallowingRun(p, q)); j.caused == [1] && j.sys.modes == [true] && DryIsCurrent(j.sys)
    ensures Swallowed(SwallowingRun(p, q))
  {
    var r1, r2 := [Other(A.Start(true))], [Other(A.Start(true)), Poll(p)];
    var r3, r4 := r2 + [Poll(q)], SwallowingRun(p, q);
    assert r1[..0] == [] && r2[..1] == r1 && r3[..2] == r2 && r4[..3] == r3;
    assert After(r1) == Step(BOOT, Other(A.Start(true)));
    assert After(r3).pending && DryIsCurrent(After(r3).sys);
  }

  /** However the run goes on, unless somebody else asks for one no real workflow is
      ever accepted: the dry run has used the trigger up. */
  lemma {:induction false} DryRunSwallowsTrigger(p: T.Poll, q: T.Poll, more: seq<Label>)
    requires Imminent(p, q) && OthersOnlyStartDry(more)
    ensures var j := After(SwallowingRun(p, q) + more); |j.caused| == 1 && !j.pending && false !in j.sys.modes
  {
    var run := SwallowingRun(p, q) + more;
    SwallowingRunEnds(p, q);
    AfterAppend(SwallowingRun(p, q), more);
    RealRunsExactlyWhenNotSwallowed(run);
    RunInv(run);
  }

  /** The trigger's start becomes a workflow only if its thread can be created;
      otherwise the manager is idle again, and the trigger never starts another. */
  lemma {:induction false} FailedThreadLeavesIdle(run: seq<Label>, c: nat, more: seq<Label>)
    requires c in After(run).caused && A.Can(After(run).sys, A.GiveUp(c))
    ensures After(run + [Other(A.GiveUp(c))]).sys.state == A.Idle
    ensures var j := After(run + [Other(A.GiveUp(c))] + more); |j.caused| == 1 && !j.pending
  {
    AfterSnoc(run, Other(A.GiveUp(c)));
    var given := run + [Other(A.GiveUp(c))];
    AfterAppend(given, more);
    RunInv(given + more);
    assert |After(run).caused| >= 1;
  }
}
