/** What the rows, effects and events of a completed workflow say about the world it
    ran in (src/shutdown/shutdown.c:617-945). */
module ShutdownTruth {
  import opened ShutdownResult
  import opened ShutdownGroups
  import opened ShutdownPlan
  import opened UpsControl

  /** A completed workflow. */
  datatype Done = Done(env: Env, dryRun: bool, one: seq<Row>, p: seq<Effect>, rows: seq<Row>, nFailed: nat,
                       fx: seq<Effect>, events: seq<Event>)

  ghost predicate Ok(d: Done) {
    EnvOk(d.env) && Run(d.env, d.dryRun, d.one, d.p, d.rows, d.nFailed, d.fx, d.events)
  }

  // --- Phases 2 and 3 ---

  /** What is not done for a group comes from the UPS action or the controller. */
  lemma TailEffects(d: Done, e: Effect)
    requires Ok(d) && !GroupEffect(e)
    ensures e in d.fx <==> e in UpsEffects(d.env, d.dryRun) || e in PowerEffects(d.env, d.dryRun)
  {
    forall i | 0 <= i < |d.p| ensures d.p[i] != e { assert OfGroup(d.p[i], Stage(|d.env.groups|, d.p[i])); }
  }

  /** The controller's row, the last one, says what became of its effect: a poweroff in
      a real run, a question to logind in a dry one, skipped without either. */
  lemma ControllerRowIsTrue(d: Done)
    requires Ok(d)
    ensures |d.rows| >= 2
    ensures var v := d.rows[|d.rows| - 1].verdict;
            && (v == Passed <==>
                  (PowerOff in d.fx && d.env.poweroffRc == 0) || (AskLogind in d.fx && d.env.canPowerOff))
            && (v == Failed <==>
                  (PowerOff in d.fx && d.env.poweroffRc != 0) || (AskLogind in d.fx && !d.env.canPowerOff))
            && (v == Skipped <==> PowerOff !in d.fx && AskLogind !in d.fx)
    ensures PowerOff in d.fx <==> !d.env.docker && d.env.controllerEnabled && !d.dryRun
    ensures AskLogind in d.fx <==> !d.env.docker && d.env.controllerEnabled && d.dryRun
  {
    TailEffects(d, PowerOff);
    TailEffects(d, AskLogind);
  }

  lemma PowerOffExactly(d: Done)
    requires Ok(d)
    ensures PowerOff in d.fx <==> TriesPowerOff(d.env, d.dryRun)
    ensures d.events == EventsOf(d.env, d.dryRun, d.one, d.nFailed) && d.nFailed == Failures(d.rows)
  {
    TailEffects(d, PowerOff);
  }

  lemma PowerEventsIn(env: Env, dryRun: bool, one: seq<Row>, nFailed: nat)
    ensures PoweroffInitiated in EventsOf(env, dryRun, one, nFailed) <==> TriesPowerOff(env, dryRun)
    ensures PoweroffFailed in EventsOf(env, dryRun, one, nFailed) <==> TriesPowerOff(env, dryRun) && env.poweroffRc != 0
  {
    if TriesPowerOff(env, dryRun) { assert PowerEvents(env, dryRun)[0] == PoweroffInitiated; }
    if TriesPowerOff(env, dryRun) && env.poweroffRc != 0 { assert PowerEvents(env, dryRun)[1] == PoweroffFailed; }
  }

  lemma TitleIn(env: Env, dryRun: bool, one: seq<Row>, nFailed: nat, title: Title, failures: nat)
    requires Terminal(title, failures) in EventsOf(env, dryRun, one, nFailed)
    ensures title == FinalTitle(env, dryRun) && failures == nFailed
  {
  }

  /** The poweroff is announced when it is asked for, and its failure when it is refused. */
  lemma {:induction false} PoweroffEventsAreTrue(d: Done)
    requires Ok(d)
    ensures PoweroffInitiated in d.events <==> PowerOff in d.fx
    ensures PoweroffFailed in d.events <==> PowerOff in d.fx && d.env.poweroffRc != 0
  {
    PowerOffExactly(d);
    PowerEventsIn(d.env, d.dryRun, d.one, d.nFailed);
  }

  /** The terminal event is titled by the mode and by a refused poweroff, and carries
      the number of failed rows. */
  lemma {:induction false} TitleIsTrue(d: Done, title: Title, failures: nat)
    requires Ok(d) && Terminal(title, failures) in d.events
    ensures failures == Failures(d.rows)
    ensures title == DryRunComplete <==> d.dryRun
    ensures title == WorkflowHalted <==> PowerOff in d.fx && d.env.poweroffRc != 0
  {
    PowerOffExactly(d);
    TitleIn(d.env, d.dryRun, d.one, d.nFailed, title, failures);
  }

  /** The run begins with the event of its mode; the UPS event says whether its row failed. */
  lemma {:induction false} OtherEventsAreTrue(d: Done, b: bool)
    requires Ok(d)
    ensures d.events != [] && d.events[0] == Started(d.dryRun) && (Started(b) in d.events <==> b == d.dryRun)
    ensures |d.rows| >= 2 && (UpsAction(b) in d.events <==> b == (d.rows[|d.rows| - 2].verdict == Failed))
  {
    OtherEventsIn(d.env, d.dryRun, d.one, d.nFailed, b);
  }

  lemma OtherEventsIn(env: Env, dryRun: bool, one: seq<Row>, nFailed: nat, b: bool)
    ensures var events := EventsOf(env, dryRun, one, nFailed);
            && events != [] && events[0] == Started(dryRun) && (Started(b) in events <==> b == dryRun)
            && (UpsAction(b) in events <==> b == (UpsVerdict(env, dryRun) == Failed))
  {
    var events, before := EventsOf(env, dryRun, one, nFailed), [Started(dryRun)] + Summary(one);
    assert events[|before|] == UpsAction(Bad(UpsRow(env, dryRun)));
    assert forall i :: 0 <= i < |before| ==> !before[i].UpsAction?;
  }

  /** The UPS row is skipped exactly without a mode; the settling pause follows every
      other one in a real run when configured. */
  lemma UpsModesAreTrue(d: Done)
    requires Ok(d)
    ensures |d.rows| >= 2 && (d.rows[|d.rows| - 2].verdict == Skipped <==> d.env.upsMode == NoAction)
    ensures d.env.upsMode == OtherMode ==> d.rows[|d.rows| - 2].verdict == Failed
    ensures UpsPause in d.fx <==> !d.dryRun && d.env.upsDelay > 0 && d.env.upsMode != NoAction
  {
    TailEffects(d, UpsPause);
    var n := |UpsEffects(d.env, d.dryRun)|;
    if !d.dryRun && d.env.upsDelay > 0 && d.env.upsMode != NoAction {
      assert UpsEffects(d.env, d.dryRun)[n - 1] == UpsPause;
    }
  }

  /** A write goes to the configured register with the low 16 bits of the configured
      value, into a register that takes it. */
  lemma WritesAreConfigured(d: Done, name: string, value: nat)
    requires Ok(d) && WriteRegister(name, value) in d.fx
    ensures !d.dryRun && d.env.upsMode == Register && name == d.env.regName
    ensures value < 0x1_0000 && (d.env.regValue - value) % 0x1_0000 == 0
    ensures exists reg <- d.env.device.registers :: reg.name == name && reg.writable && !Rejected(reg.setting, value)
  {
    TailEffects(d, WriteRegister(name, value));
    var k := FirstRegister(d.env.device.registers, name);
    assert d.env.device.registers[k] in d.env.device.registers;
  }

  /** A command that is sent is one of the UPS's shutdown commands. */
  lemma CommandsAreShutdowns(d: Done, name: string)
    requires Ok(d) && SendCommand(name) in d.fx
    ensures !d.dryRun && d.env.upsMode == Command
    ensures exists c <- d.env.device.commands :: c.name == name && c.shutdown
  {
    TailEffects(d, SendCommand(name));
    var k := FirstShutdown(d.env.device.commands);
    assert d.env.device.commands[k] in d.env.device.commands;
  }

  // --- Phase 1 ---

  /** A sequential target comes too late to be run. */
  predicate TooLate(g: Group, t: nat)
    requires t < |g.times|
  {
    g.maxTimeout > 0 && g.times[t] - g.start >= g.maxTimeout
  }

  /** What the trace of a run holds for target t of group k. */
  ghost predicate TargetEffects(g: Group, dryRun: bool, k: nat, t: nat, fx: seq<Effect>)
    requires GroupOk(g) && t < |g.targets|
  {
    var starts := !dryRun && if g.parallel then g.world.forked[t] else !TooLate(g, t);
    && (Probe(k, t) in fx <==> dryRun)
    && (Start(k, t) in fx <==> starts)
    && (Settle(k, t) in fx <==> starts)
  }

  /** A dry run probes every target; a real one starts and settles those of a parallel
      group whose fork works, and those of a sequential one that are not too late; and
      a group with targets pauses after them when configured. */
  lemma {:induction false} GroupEffectsAreTrue(d: Done, k: nat, t: nat)
    requires Ok(d) && k < |d.env.groups| && t < |d.env.groups[k].targets|
    ensures TargetEffects(d.env.groups[k], d.dryRun, k, t, d.fx)
    ensures Pause(k) in d.fx <==> !d.dryRun && d.env.groups[k].postDelay > 0
  {
    GroupsDoExactlyWhatIsDue(d.env, d.dryRun, d.one, d.p, d.rows, d.nFailed, d.fx, d.events);
    DueInFull(d.env.groups, d.dryRun, d.fx, k, t);
  }

  lemma DueInFull(groups: seq<Group>, dryRun: bool, fx: seq<Effect>, k: nat, t: nat)
    requires GroupsOk(groups) && DoneExactly(groups, dryRun, fx) && k < |groups| && t < |groups[k].targets|
    ensures TargetEffects(groups[k], dryRun, k, t, fx)
    ensures Pause(k) in fx <==> !dryRun && groups[k].postDelay > 0
  {
    assert GroupEffect(Probe(k, t)) && GroupEffect(Start(k, t)) && GroupEffect(Settle(k, t)) && GroupEffect(Pause(k));
  }

  /** How many rows the groups before group k have. */
  function RowsBefore(groups: seq<Group>, k: nat): nat
    requires k <= |groups|
  {
    if k == 0 then 0 else RowsBefore(groups, k - 1) + |groups[k - 1].targets|
  }

  /** The verdict of target t, from what happened to it. */
  ghost predicate VerdictIsTrue(g: Group, dryRun: bool, t: nat, v: Verdict)
    requires GroupOk(g) && t < |g.targets|
  {
    if dryRun then v == if g.probes[t] then Passed else Failed
    else if !g.parallel then
      v == if TooLate(g, t) then Skipped else if g.results[t] then Passed else Failed
    else exists last: nat :: EndsFirst(g.world, g.maxTimeout, last) && v == Report(g.world, t, last)
  }

  lemma GroupRowIsTrue(g: Group, dryRun: bool, rows: seq<Row>, t: nat)
    requires GroupOk(g) && GroupRows(g, dryRun, rows) && t < |g.targets|
    ensures VerdictIsTrue(g, dryRun, t, rows[t].verdict)
  {
    assert VerdictsOf(rows)[t] == rows[t].verdict;
    if !dryRun && g.parallel {
      var last: nat :| ParallelVerdicts(g, last, VerdictsOf(rows));
      assert EndsFirst(g.world, g.maxTimeout, last);
    }
  }

  lemma {:induction false} RowsBeforePrefix(groups: seq<Group>, n: nat, k: nat)
    requires k <= n <= |groups|
    ensures RowsBefore(groups[..n], k) == RowsBefore(groups, k)
  {
    if k > 0 { RowsBeforePrefix(groups, n, k - 1); }
  }

  lemma {:induction false} PhaseOneCounts(groups: seq<Group>, dryRun: bool, rows: seq<Row>)
    requires GroupsOk(groups) && PhaseOneRows(groups, dryRun, rows)
    ensures |rows| == RowsBefore(groups, |groups|)
  {
    if groups != [] {
      var n := |groups| - 1;
      var a, b := PhaseOneSplit(groups, dryRun, rows);
      PhaseOneCounts(groups[..n], dryRun, a);
      RowsBeforePrefix(groups, n, n);
    }
  }

  /** The rows of group k, if there are that many. */
  function Slice(groups: seq<Group>, rows: seq<Row>, k: nat): seq<Row>
    requires k < |groups|
  {
    var from := RowsBefore(groups, k);
    if from + |groups[k].targets| <= |rows| then rows[from..from + |groups[k].targets|] else []
  }

  lemma {:induction false} SliceKept(groups: seq<Group>, n: nat, a: seq<Row>, b: seq<Row>, k: nat)
    requires k < n <= |groups| && RowsBefore(groups[..n], k) + |groups[k].targets| <= |a|
    ensures Slice(groups, a + b, k) == Slice(groups[..n], a, k)
  {
    RowsBeforePrefix(groups, n, k);
    var from, to := RowsBefore(groups, k), RowsBefore(groups, k) + |groups[k].targets|;
    assert (a + b)[from..to] == a[from..to];
  }

  lemma {:induction false} SliceAdded(groups: seq<Group>, n: nat, a: seq<Row>, b: seq<Row>)
    requires n < |groups| && |a| == RowsBefore(groups[..n], n) && |b| == |groups[n].targets|
    ensures Slice(groups, a + b, n) == b
  {
    RowsBeforePrefix(groups, n, n);
    assert (a + b)[|a|..|a| + |b|] == b;
  }

  lemma {:induction false} RowsFit(groups: seq<Group>, k: nat, n: nat)
    requires k < n <= |groups|
    ensures RowsBefore(groups, k) + |groups[k].targets| <= RowsBefore(groups, n)
  {
    if k < n - 1 { RowsFit(groups, k, n - 1); }
  }

  lemma {:induction false} GroupSlice(groups: seq<Group>, dryRun: bool, rows: seq<Row>, k: nat)
    requires GroupsOk(groups) && PhaseOneRows(groups, dryRun, rows) && k < |groups|
    ensures GroupRows(groups[k], dryRun, Slice(groups, rows, k))
  {
    var n := |groups| - 1;
    var a, b := PhaseOneSplit(groups, dryRun, rows);
    PhaseOneCounts(groups[..n], dryRun, a);
    if k < n {
      GroupSlice(groups[..n], dryRun, a, k);
      RowsFit(groups[..n], k, n);
      SliceKept(groups, n, a, b, k);
    } else {
      SliceAdded(groups, n, a, b);
    }
  }

  /** Where the row of a target stands, and that it is true. */
  ghost predicate RowIsTrue(groups: seq<Group>, dryRun: bool, rows: seq<Row>, k: nat, t: nat)
    requires GroupsOk(groups) && k < |groups| && t < |groups[k].targets|
  {
    && RowsBefore(groups, k) + t < |rows|
    && VerdictIsTrue(groups[k], dryRun, t, rows[RowsBefore(groups, k) + t].verdict)
  }

  lemma {:induction false} PhaseOneRowIsTrue(groups: seq<Group>, dryRun: bool, rows: seq<Row>, k: nat, t: nat)
    requires GroupsOk(groups) && PhaseOneRows(groups, dryRun, rows) && k < |groups| && t < |groups[k].targets|
    ensures RowIsTrue(groups, dryRun, rows, k, t)
  {
    GroupSlice(groups, dryRun, rows, k);
    GroupRowIsTrue(groups[k], dryRun, Slice(groups, rows, k), t);
  }

  /** The row of target t of group k says what happened to it: its probe in a dry run;
      skipped exactly when it came too late, else its own result, in a sequential group;
      and the outcome of the polling in a parallel one (ShutdownGroups.RowIsFirstAnswer). */
  lemma {:induction false} TargetRowsAreTrue(d: Done, k: nat, t: nat)
    requires Ok(d) && k < |d.env.groups| && t < |d.env.groups[k].targets|
    ensures RowIsTrue(d.env.groups, d.dryRun, d.rows, k, t)
  {
    PhaseOneRowIsTrue(d.env.groups, d.dryRun, d.one, k, t);
  }
}
