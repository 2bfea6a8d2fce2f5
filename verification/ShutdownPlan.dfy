/** The three-phase shutdown workflow (src/shutdown/shutdown.c:617-945).
    The configuration and every step's outcome are inputs; what the workflow does
    to the outside world is a ghost trace of effects. */
module ShutdownPlan {
  import opened Options
  import opened ShutdownResult
  import opened ShutdownGroups
  import opened UpsControl

  // --- Inputs ---

  /** A group with its targets in order and what each would answer: `probes` in a
      dry run, `times`/`results` when run one by one, `world` when run in parallel.
      A group whose target query fails has no targets. */
  datatype Group = Group(name: string, parallel: bool, maxTimeout: int, postDelay: int, targets: seq<string>,
                         probes: seq<bool>, start: int, times: seq<int>, results: seq<bool>,
                         world: World, horizon: nat)

  ghost predicate GroupOk(g: Group) {
    && |g.probes| == |g.times| == |g.results| == |g.world.forked| == |g.targets|
    && (g.parallel ==> Ticks(g.world) && (g.maxTimeout <= 0 ==> AllSeen(g.world, g.horizon)))
  }

  datatype UpsMode = NoAction | Command | Register | OtherMode

  /** `regName` is empty when no register is configured. */
  datatype Env = Env(groups: seq<Group>,
                     upsMode: UpsMode, device: Device, regName: string, regValue: int, upsDelay: int,
                     docker: bool, controllerEnabled: bool, canPowerOff: bool, poweroffRc: int)

  ghost predicate GroupsOk(groups: seq<Group>) {
    forall k :: 0 <= k < |groups| ==> GroupOk(groups[k])
  }

  ghost predicate EnvOk(env: Env) { GroupsOk(env.groups) }

  // --- Outputs ---

  datatype Effect =
    | Probe(group: nat, target: nat)
    | Start(group: nat, target: nat)
    | Settle(group: nat, target: nat)
    | Pause(group: nat)
    | SendCommand(name: string)
    | WriteRegister(name: string, value: nat)
    | UpsPause
    | AskLogind
    | PowerOff

  datatype Title = DryRunComplete | WorkflowHalted | WorkflowComplete

  datatype Event =
    | Started(dryRun: bool)
    | PhaseOneComplete(ok: int, total: nat)
    | UpsAction(failed: bool)
    | PoweroffInitiated
    | PoweroffFailed
    | Terminal(title: Title, failures: nat)

  function Label(g: Group, t: nat): string
    requires t < |g.targets|
  {
    g.name + "/" + g.targets[t]
  }

  // --- Phase 1: one group ---

  function SequentialVerdict(g: Group, t: nat): Verdict
    requires t < |g.times| == |g.results|
  {
    if OverTime(g.maxTimeout, g.start, g.times[t]) then Skipped else if g.results[t] then Passed else Failed
  }

  ghost predicate EndsFirst(w: World, maxTimeout: int, last: nat) {
    Ends(w, maxTimeout, last) && forall r: nat :: r < last ==> !Ends(w, maxTimeout, r)
  }

  ghost predicate ParallelVerdicts(g: Group, last: nat, outs: seq<Verdict>) {
    && |outs| == |g.world.forked| && EndsFirst(g.world, g.maxTimeout, last)
    && forall t :: 0 <= t < |outs| ==> outs[t] == Report(g.world, t, last)
  }

  /** What a group must report for its targets. */
  ghost predicate Verdicts(g: Group, dryRun: bool, outs: seq<Verdict>)
    requires GroupOk(g)
  {
    && |outs| == |g.targets|
    && if dryRun then forall t :: 0 <= t < |outs| ==> outs[t] == if g.probes[t] then Passed else Failed
       else if g.parallel then exists last: nat :: ParallelVerdicts(g, last, outs)
       else forall t :: 0 <= t < |outs| ==> outs[t] == SequentialVerdict(g, t)
  }

  /** Whether a real run starts target t. */
  ghost predicate Starts(g: Group, t: nat)
    requires GroupOk(g) && t < |g.targets|
  {
    if g.parallel then g.world.forked[t] else !OverTime(g.maxTimeout, g.start, g.times[t])
  }

  // --- Traces ---

  predicate GroupEffect(e: Effect) { e.Probe? || e.Start? || e.Settle? || e.Pause? }

  predicate OfGroup(e: Effect, k: nat) { GroupEffect(e) && e.group == k }

  /** The effects a group must have: a dry run probes every target; a real run
      starts and settles those due to start, and pauses if asked to. */
  ghost predicate Due(g: Group, dryRun: bool, pauses: bool, e: Effect)
    requires GroupOk(g) && GroupEffect(e)
  {
    match e
    case Probe(_, t) => dryRun && t < |g.targets|
    case Start(_, t) => !dryRun && t < |g.targets| && Starts(g, t)
    case Settle(_, t) => !dryRun && t < |g.targets| && Starts(g, t)
    case _ => pauses
  }

  predicate Pauses(g: Group, dryRun: bool) { !dryRun && g.targets != [] && g.postDelay > 0 }

  /** A group's pause is the last thing it does. */
  ghost predicate PauseEnds(fx: seq<Effect>) {
    forall i, j :: 0 <= i < j < |fx| && fx[i].Pause? ==> !OfGroup(fx[j], fx[i].group)
  }

  /** A started target has finished, or was killed and reaped, later in the trace. */
  ghost predicate SettlesAfter(fx: seq<Effect>, i: nat)
    requires i < |fx|
  {
    fx[i].Start? ==> exists j :: i < j < |fx| && fx[j] == Settle(fx[i].group, fx[i].target)
  }

  ghost predicate Settled(fx: seq<Effect>) {
    forall i :: 0 <= i < |fx| ==> SettlesAfter(fx, i)
  }

  /** No target is started twice. */
  ghost predicate StartsOnce(fx: seq<Effect>) {
    forall i, j :: 0 <= i < j < |fx| && fx[i].Start? ==> fx[i] != fx[j]
  }

  /** A dry run only asks; a real run never does. */
  predicate Asks(e: Effect) { e.Probe? || e.AskLogind? }

  ghost predicate Proper(dryRun: bool, fx: seq<Effect>) {
    forall i :: 0 <= i < |fx| ==> (Asks(fx[i]) <==> dryRun)
  }

  ghost predicate GroupTrace(k: nat, g: Group, dryRun: bool, pauses: bool, fx: seq<Effect>)
    requires GroupOk(g)
  {
    && (forall i :: 0 <= i < |fx| ==> OfGroup(fx[i], k))
    && Settled(fx) && StartsOnce(fx) && Proper(dryRun, fx) && PauseEnds(fx)
    && forall e :: OfGroup(e, k) ==> (e in fx <==> Due(g, dryRun, pauses, e))
  }

  ghost function Starting(k: nat, list: seq<nat>): (fx: seq<Effect>)
    ensures |fx| == |list| && forall i :: 0 <= i < |list| ==> fx[i] == Start(k, list[i])
  {
    seq(|list|, i requires 0 <= i < |list| => Start(k, list[i]))
  }

  ghost function Settling(k: nat, list: seq<nat>): (fx: seq<Effect>)
    ensures |fx| == |list| && forall i :: 0 <= i < |list| ==> fx[i] == Settle(k, list[i])
  {
    seq(|list|, i requires 0 <= i < |list| => Settle(k, list[i]))
  }

  /** A parallel group: everything starts, then everything is reaped. */
  lemma {:induction false} ParallelTrace(k: nat, g: Group, started: seq<nat>, reaped: seq<nat>)
    requires GroupOk(g) && g.parallel && Lists(started, g.world.forked) && Lists(reaped, g.world.forked)
    ensures GroupTrace(k, g, false, false, Starting(k, started) + Settling(k, reaped))
  {
    var n := |started|;
    var fx := Starting(k, started) + Settling(k, reaped);
    forall i | 0 <= i < |fx| ensures SettlesAfter(fx, i) {
      if i < n {
        assert started[i] in started;
        assert started[i] in reaped;
        var j :| 0 <= j < |reaped| && reaped[j] == started[i];
        assert fx[n + j] == Settle(k, started[i]);
      }
    }
    forall e | OfGroup(e, k) ensures e in fx <==> Due(g, false, false, e) {
      NamedIn(k, started, reaped, e);
    }
  }

  lemma NamedIn(k: nat, started: seq<nat>, reaped: seq<nat>, e: Effect)
    requires OfGroup(e, k)
    ensures e in Starting(k, started) + Settling(k, reaped) <==>
              (e.Start? && e.target in started) || (e.Settle? && e.target in reaped)
  {
    var fx := Starting(k, started) + Settling(k, reaped);
    if e.Start? && e.target in started {
      var i :| 0 <= i < |started| && started[i] == e.target;
      assert fx[i] == e;
    }
    if e.Settle? && e.target in reaped {
      var i :| 0 <= i < |reaped| && reaped[i] == e.target;
      assert fx[|started| + i] == e;
    }
  }

  /** A sequential group: each target settles before the next one starts. */
  ghost function InTurn(k: nat, list: seq<nat>): seq<Effect> {
    if list == [] then []
    else InTurn(k, list[..|list| - 1]) + [Start(k, list[|list| - 1]), Settle(k, list[|list| - 1])]
  }

  ghost predicate TurnTrace(k: nat, list: seq<nat>, fx: seq<Effect>) {
    && (forall i :: 0 <= i < |fx| ==> (fx[i].Start? || fx[i].Settle?) && OfGroup(fx[i], k))
    && Settled(fx) && StartsOnce(fx)
    && (forall t: nat :: Start(k, t) in fx <==> t in list)
    && forall t: nat :: Settle(k, t) in fx <==> t in list
  }

  lemma {:induction false} InTurnTrace(k: nat, list: seq<nat>)
    requires Distinct(list)
    ensures TurnTrace(k, list, InTurn(k, list))
  {
    if list != [] {
      var n := |list| - 1;
      var init, t := list[..n], list[n];
      InTurnTrace(k, init);
      assert t !in init;
      var a, b := InTurn(k, init), [Start(k, t), Settle(k, t)];
      assert Start(k, t) !in a;
      SettledConcat(a, b);
      assert list == init + [t];
    }
  }

  lemma SettledConcat(a: seq<Effect>, b: seq<Effect>)
    requires Settled(a) && (Settled(b) || (|b| == 2 && b[0].Start? && b[1] == Settle(b[0].group, b[0].target)))
    ensures Settled(a + b)
  {
    var fx := a + b;
    forall i | 0 <= i < |fx| ensures SettlesAfter(fx, i) {
      if fx[i].Start? {
        if i < |a| {
          assert SettlesAfter(a, i);
          var j :| i < j < |a| && a[j] == Settle(a[i].group, a[i].target);
          assert fx[j] == a[j];
        } else if Settled(b) {
          assert SettlesAfter(b, i - |a|);
          var j :| i - |a| < j < |b| && b[j] == Settle(fx[i].group, fx[i].target);
          assert fx[|a| + j] == b[j];
        } else {
          assert fx[|a| + 1] == b[1];
        }
      }
    }
  }

  // --- Phase 1: all groups ---

  /** The rows of phase 1: those of each group, in group order. */
  ghost predicate PhaseOneRows(groups: seq<Group>, dryRun: bool, rows: seq<Row>)
    requires GroupsOk(groups)
  {
    if groups == [] then rows == []
    else
      var g := groups[|groups| - 1];
      var m := |rows| - |g.targets|;
      0 <= m && GroupRows(g, dryRun, rows[m..]) && PhaseOneRows(groups[..|groups| - 1], dryRun, rows[..m])
  }

  ghost function VerdictsOf(rows: seq<Row>): (outs: seq<Verdict>)
    ensures |outs| == |rows| && forall i :: 0 <= i < |rows| ==> outs[i] == rows[i].verdict
  {
    seq(|rows|, i requires 0 <= i < |rows| => rows[i].verdict)
  }

  ghost predicate GroupRows(g: Group, dryRun: bool, rows: seq<Row>)
    requires GroupOk(g)
  {
    && |rows| == |g.targets|
    && (forall t :: 0 <= t < |rows| ==> rows[t].phase == Phase1 && rows[t].target == Label(g, t))
    && Verdicts(g, dryRun, VerdictsOf(rows))
  }

  ghost predicate RowsOf(g: Group, outs: seq<Verdict>, rows: seq<Row>) {
    && |rows| == |outs| == |g.targets|
    && forall t :: 0 <= t < |rows| ==> rows[t] == Row(Phase1, Label(g, t), outs[t])
  }

  lemma RowsMatch(g: Group, dryRun: bool, outs: seq<Verdict>, rows: seq<Row>)
    requires GroupOk(g) && Verdicts(g, dryRun, outs) && RowsOf(g, outs, rows)
    ensures GroupRows(g, dryRun, rows)
  {
    assert VerdictsOf(rows) == outs;
  }

  /** The trace of phase 1 over the groups done so far: groups do not overlap. */
  ghost predicate PhaseOneTrace(groups: seq<Group>, dryRun: bool, fx: seq<Effect>)
    requires GroupsOk(groups)
  {
    && InGroupOrder(|groups|, fx)
    && Settled(fx) && StartsOnce(fx) && Proper(dryRun, fx) && PauseEnds(fx)
    && DoneExactly(groups, dryRun, fx)
  }

  /** The groups' effects are exactly those due. */
  ghost predicate DoneExactly(groups: seq<Group>, dryRun: bool, fx: seq<Effect>)
    requires GroupsOk(groups)
  {
    forall e :: GroupEffect(e) ==> (e in fx <==> DueSomewhere(groups, dryRun, e))
  }

  ghost predicate DueSomewhere(groups: seq<Group>, dryRun: bool, e: Effect)
    requires GroupsOk(groups) && GroupEffect(e)
  {
    e.group < |groups| && Due(groups[e.group], dryRun, Pauses(groups[e.group], dryRun), e)
  }

  ghost predicate InGroupOrder(n: nat, fx: seq<Effect>) {
    && (forall i :: 0 <= i < |fx| ==> OfGroup(fx[i], Stage(n, fx[i])) && Stage(n, fx[i]) < n)
    && forall i, j :: 0 <= i < j < |fx| ==> Stage(n, fx[i]) <= Stage(n, fx[j])
  }

  /** Group k's effects are stage k, the UPS action comes after all groups, then the controller. */
  function Stage(groups: nat, e: Effect): nat {
    match e
    case SendCommand(_) => groups
    case WriteRegister(_, _) => groups
    case UpsPause => groups
    case AskLogind => groups + 1
    case PowerOff => groups + 1
    case _ => e.group
  }

  lemma OrderSnoc(n: nat, a: seq<Effect>, b: seq<Effect>)
    requires InGroupOrder(n, a) && forall i :: 0 <= i < |b| ==> OfGroup(b[i], n)
    ensures InGroupOrder(n + 1, a + b)
  {
    assert forall i :: 0 <= i < |a| ==> Stage(n, a[i]) == Stage(n + 1, a[i]);
    assert forall i :: 0 <= i < |b| ==> Stage(n + 1, b[i]) == n;
  }

  lemma PauseEndsConcat(n: nat, a: seq<Effect>, b: seq<Effect>)
    requires PauseEnds(a) && PauseEnds(b)
    requires forall i :: 0 <= i < |a| ==> GroupEffect(a[i]) && a[i].group < n
    requires forall j :: 0 <= j < |b| ==> !GroupEffect(b[j]) || b[j].group == n
    ensures PauseEnds(a + b)
  {
    var fx := a + b;
    forall i, j | 0 <= i < j < |fx| && fx[i].Pause? ensures !OfGroup(fx[j], fx[i].group) {
      if j < |a| {
        assert fx[i] == a[i] && fx[j] == a[j];
      } else if i < |a| {
        assert a[i].group < n && fx[j] == b[j - |a|];
      } else {
        assert fx[i] == b[i - |a|] && fx[j] == b[j - |a|];
      }
    }
  }

  lemma DoneExactlySnoc(groups: seq<Group>, g: Group, dryRun: bool, a: seq<Effect>, b: seq<Effect>)
    requires GroupsOk(groups) && GroupOk(g) && DoneExactly(groups, dryRun, a)
    requires GroupTrace(|groups|, g, dryRun, Pauses(g, dryRun), b)
    ensures DoneExactly(groups + [g], dryRun, a + b)
  {
    var n := |groups|;
    forall e | GroupEffect(e) ensures e in a + b <==> DueSomewhere(groups + [g], dryRun, e) {
      assert e in a <==> DueSomewhere(groups, dryRun, e);
      if e.group == n {
        assert OfGroup(e, n);
      } else {
        assert e !in b;
      }
    }
  }

  lemma PhaseOneTraceSnoc(groups: seq<Group>, g: Group, dryRun: bool, a: seq<Effect>, b: seq<Effect>)
    requires GroupsOk(groups)
    requires GroupOk(g) && PhaseOneTrace(groups, dryRun, a) && GroupTrace(|groups|, g, dryRun, Pauses(g, dryRun), b)
    ensures PhaseOneTrace(groups + [g], dryRun, a + b)
  {
    var n := |groups|;
    OrderSnoc(n, a, b);
    SettledConcat(a, b);
    forall i | 0 <= i < |a| ensures GroupEffect(a[i]) && a[i].group < n {
      assert OfGroup(a[i], Stage(n, a[i]));
    }
    PauseEndsConcat(n, a, b);
    ProperConcat(dryRun, a, b);
    DoneExactlySnoc(groups, g, dryRun, a, b);
  }

  lemma ProperConcat(dryRun: bool, a: seq<Effect>, b: seq<Effect>)
    requires Proper(dryRun, a) && Proper(dryRun, b)
    ensures Proper(dryRun, a + b)
  {
  }

  ghost predicate PhaseOneDone(groups: seq<Group>, k: nat, dryRun: bool, rows: seq<Row>, fx: seq<Effect>)
    requires GroupsOk(groups)
  {
    k <= |groups| && PhaseOneRows(groups[..k], dryRun, rows) && PhaseOneTrace(groups[..k], dryRun, fx)
  }

  lemma {:induction false} PhaseOneStep(groups: seq<Group>, k: nat, dryRun: bool, rows: seq<Row>, fx: seq<Effect>,
                                        newRows: seq<Row>, newFx: seq<Effect>)
    requires GroupsOk(groups) && k < |groups| && PhaseOneDone(groups, k, dryRun, rows, fx)
    requires GroupRows(groups[k], dryRun, newRows) && GroupTrace(k, groups[k], dryRun, Pauses(groups[k], dryRun), newFx)
    ensures PhaseOneDone(groups, k + 1, dryRun, rows + newRows, fx + newFx)
  {
    assert groups[..k + 1] == groups[..k] + [groups[k]];
    PhaseOneTraceSnoc(groups[..k], groups[k], dryRun, fx, newFx);
  }

  lemma {:induction false} PhaseOneWhole(groups: seq<Group>, dryRun: bool, rows: seq<Row>, fx: seq<Effect>)
    requires GroupsOk(groups) && PhaseOneDone(groups, |groups|, dryRun, rows, fx)
    ensures PhaseOneRows(groups, dryRun, rows) && PhaseOneTrace(groups, dryRun, fx)
  {
    assert groups[..|groups|] == groups;
  }

  // --- Phase 2: the UPS action ---

  /** Register values are cut to 16 bits. */
  function WireValue(env: Env): int { env.regValue % 0x1_0000 }

  function ConfiguredRegister(env: Env): Option<RegisterDesc> {
    var k := FirstRegister(env.device.registers, env.regName);
    if env.regName != "" && k < |env.device.registers| then Some(env.device.registers[k]) else None
  }

  function ShutdownCommand(env: Env): Option<string> {
    var k := FirstShutdown(env.device.commands);
    if k < |env.device.commands| then Some(env.device.commands[k].name) else None
  }

  /** What a real run makes the driver do: at most one thing, and nothing when the
      request is turned down before it reaches the driver. */
  function UpsAttempt(env: Env): Option<Effect> {
    match env.upsMode
    case Command =>
      var name := ShutdownCommand(env);
      if name.Some? && CommandReaches(env.device, name.value) then Some(SendCommand(name.value)) else None
    case Register =>
      var reg := ConfiguredRegister(env);
      if reg.Some? && WriteReaches(env.device, reg.value, WireValue(env)) then
        Some(WriteRegister(env.regName, WireValue(env)))
      else None
    case _ => None
  }

  function UpsVerdict(env: Env, dryRun: bool): Verdict {
    match env.upsMode
    case NoAction => Skipped
    case Command =>
      if dryRun then (if ShutdownCommand(env).Some? then Passed else Failed)
      else if UpsAttempt(env).Some? && env.device.driverOk then Passed else Failed
    case Register =>
      if dryRun then (if env.regName != "" then Passed else Failed)
      else if UpsAttempt(env).Some? && env.device.driverOk then Passed else Failed
    case OtherMode => Failed
  }

  function UpsEffects(env: Env, dryRun: bool): seq<Effect> {
    if dryRun then []
    else
      var attempt := UpsAttempt(env);
      (if attempt.Some? then [attempt.value] else [])
      + if env.upsDelay > 0 && !env.upsMode.NoAction? then [UpsPause] else []
  }

  /** What a dry run does not look at: whether the transport is up, whether the
      command has a function, and everything about the register except that its
      name is set. */
  predicate Unseen(env: Env) {
    var d, cmd, reg := env.device, ShutdownCommand(env), ConfiguredRegister(env);
    match env.upsMode
    case Command => cmd.Some? && (!d.reachable || !d.commands[FirstNamed(d.commands, cmd.value)].callable)
    case Register =>
      && env.regName != ""
      && (!d.reachable || !d.canWrite || reg.None? || !reg.value.writable
          || Rejected(reg.value.setting, WireValue(env)))
    case _ => false
  }

  /** Outside a declared range, or not among the values of a strict list. */
  predicate Rejected(s: Setting, value: int) {
    match s
    case Scalar(min, max) => (min != 0 || max != 0) && (value < min || value > max)
    case Bitfield(strict, options) => strict && value !in options
    case Unchecked => false
  }

  /** A dry run predicts whether the real run makes the driver do anything exactly
      when nothing it does not look at stands in the way; else it passes and the
      real run fails without touching the UPS. */
  lemma DryRunPredictsUpsAction(env: Env)
    ensures (UpsVerdict(env, true) == Passed <==> UpsAttempt(env).Some?) <==> !Unseen(env)
    ensures Unseen(env) ==> UpsVerdict(env, true) == Passed && UpsVerdict(env, false) == Failed && UpsAttempt(env).None?
  {
  }

  /** A writable register with the range 110 to 150 and the default value 0: the
      dry run passes, and the real run writes nothing. */
  lemma DefaultValueIsRejected(env: Env)
    requires env.upsMode == Register && env.regName == "transfer_high" && env.regValue == 0
    requires ConfiguredRegister(env) == Some(RegisterDesc("transfer_high", true, Scalar(110, 150)))
    ensures UpsVerdict(env, true) == Passed && UpsVerdict(env, false) == Failed
    ensures WriteRegister("transfer_high", 0) !in UpsEffects(env, false)
  {
    DryRunPredictsUpsAction(env);
  }

  // --- Phase 3: the controller ---

  predicate TriesPowerOff(env: Env, dryRun: bool) { !env.docker && env.controllerEnabled && !dryRun }

  predicate PoweroffAccepted(env: Env, dryRun: bool) { TriesPowerOff(env, dryRun) && env.poweroffRc == 0 }

  function PowerVerdict(env: Env, dryRun: bool): Verdict {
    if env.docker || !env.controllerEnabled then Skipped
    else if dryRun then (if env.canPowerOff then Passed else Failed)
    else if env.poweroffRc == 0 then Passed else Failed
  }

  function PowerEffects(env: Env, dryRun: bool): seq<Effect> {
    if env.docker || !env.controllerEnabled then [] else if dryRun then [AskLogind] else [PowerOff]
  }

  function PowerEvents(env: Env, dryRun: bool): seq<Event> {
    if !TriesPowerOff(env, dryRun) then []
    else [PoweroffInitiated] + if env.poweroffRc != 0 then [PoweroffFailed] else []
  }

  function FinalTitle(env: Env, dryRun: bool): Title {
    if dryRun then DryRunComplete
    else if TriesPowerOff(env, dryRun) && env.poweroffRc != 0 then WorkflowHalted
    else WorkflowComplete
  }

  // --- The whole run ---

  function UpsRow(env: Env, dryRun: bool): Row { Row(Phase2, "ups", UpsVerdict(env, dryRun)) }

  function PowerRow(env: Env, dryRun: bool): Row { Row(Phase3, "controller", PowerVerdict(env, dryRun)) }

  function Summary(one: seq<Row>): seq<Event> {
    if one == [] then [] else [PhaseOneComplete(|one| - Failures(one), |one|)]
  }

  function Ending(env: Env, dryRun: bool, nFailed: nat): seq<Event> {
    [UpsAction(Bad(UpsRow(env, dryRun)))] + PowerEvents(env, dryRun)
    + if PoweroffAccepted(env, dryRun) then [] else [Terminal(FinalTitle(env, dryRun), nFailed)]
  }

  function EventsOf(env: Env, dryRun: bool, one: seq<Row>, nFailed: nat): seq<Event> {
    [Started(dryRun)] + Summary(one) + Ending(env, dryRun, nFailed)
  }

  /** Rows, failure count, effects and events of a completed workflow; `one` and
      `p` are what phase 1 contributed. */
  ghost predicate Run(env: Env, dryRun: bool, one: seq<Row>, p: seq<Effect>,
                      rows: seq<Row>, nFailed: nat, fx: seq<Effect>, events: seq<Event>)
    requires EnvOk(env)
  {
    && PhaseOneRows(env.groups, dryRun, one) && PhaseOneTrace(env.groups, dryRun, p)
    && rows == one + [UpsRow(env, dryRun), PowerRow(env, dryRun)]
    && nFailed == Failures(rows)
    && fx == p + UpsEffects(env, dryRun) + PowerEffects(env, dryRun)
    && events == EventsOf(env, dryRun, one, nFailed)
  }

  function Labels(groups: seq<Group>): seq<string> {
    if groups == [] then [] else Labels(groups[..|groups| - 1]) + GroupLabels(groups[|groups| - 1])
  }

  function GroupLabels(g: Group): (ls: seq<string>)
    ensures |ls| == |g.targets| && forall t :: 0 <= t < |ls| ==> ls[t] == Label(g, t)
  {
    seq(|g.targets|, t requires 0 <= t < |g.targets| => Label(g, t))
  }

  /** Phase 1 reports every target of every group once, in order. */
  lemma {:induction false} PhaseOneNamesEveryTarget(groups: seq<Group>, dryRun: bool, rows: seq<Row>)
    requires GroupsOk(groups)
    requires PhaseOneRows(groups, dryRun, rows)
    ensures |rows| == |Labels(groups)|
    ensures forall i :: 0 <= i < |rows| ==> rows[i].phase == Phase1 && rows[i].target == Labels(groups)[i]
  {
    if groups != [] {
      var g := groups[|groups| - 1];
      var m := |rows| - |g.targets|;
      PhaseOneNamesEveryTarget(groups[..|groups| - 1], dryRun, rows[..m]);
      forall i | 0 <= i < |rows| ensures rows[i].phase == Phase1 && rows[i].target == Labels(groups)[i] {
        if i < m { assert rows[i] == rows[..m][i]; } else { assert rows[i] == rows[m..][i - m]; }
      }
    }
  }

  /** One row per target in group order, then one UPS row, then one controller row. */
  lemma {:induction false} RowsFollowThePlan(env: Env, dryRun: bool, one: seq<Row>, p: seq<Effect>,
                                             rows: seq<Row>, nFailed: nat, fx: seq<Effect>, events: seq<Event>, i: nat)
    requires EnvOk(env) && Run(env, dryRun, one, p, rows, nFailed, fx, events) && i < |rows|
    ensures |rows| == |Labels(env.groups)| + 2
    ensures rows[i].phase == if i < |rows| - 2 then Phase1 else if i == |rows| - 2 then Phase2 else Phase3
    ensures rows[i].target == if i < |rows| - 2 then Labels(env.groups)[i]
                              else if i == |rows| - 2 then "ups" else "controller"
  {
    PhaseOneNamesEveryTarget(env.groups, dryRun, one);
  }

  ghost predicate Staged(n: nat, fx: seq<Effect>) {
    forall i, j :: 0 <= i < j < |fx| ==> Stage(n, fx[i]) <= Stage(n, fx[j])
  }

  ghost predicate StagedFrom(n: nat, fx: seq<Effect>) {
    Staged(n, fx) && forall i :: 0 <= i < |fx| ==> n <= Stage(n, fx[i])
  }

  lemma TailStaged(n: nat, env: Env, dryRun: bool)
    ensures StagedFrom(n, UpsEffects(env, dryRun) + PowerEffects(env, dryRun))
  {
    var a, b := UpsEffects(env, dryRun), PowerEffects(env, dryRun);
    assert forall i :: 0 <= i < |a| ==> Stage(n, a[i]) == n;
    assert forall i :: 0 <= i < |b| ==> Stage(n, b[i]) == n + 1;
  }

  /** Groups do not overlap, the UPS action follows every group and the controller comes last. */
  lemma {:induction false} StagesInOrder(env: Env, dryRun: bool, one: seq<Row>, p: seq<Effect>,
                                         rows: seq<Row>, nFailed: nat, fx: seq<Effect>, events: seq<Event>)
    requires EnvOk(env) && Run(env, dryRun, one, p, rows, nFailed, fx, events)
    ensures Staged(|env.groups|, fx)
  {
    var n, rest := |env.groups|, UpsEffects(env, dryRun) + PowerEffects(env, dryRun);
    TailStaged(n, env, dryRun);
    assert fx == p + rest;
  }

  /** Every started target has finished or been reaped before its group's trace
      ends, so before any later stage; no target is started twice; a group's pause
      ends it; and the groups' effects are exactly those due: probes in a dry run,
      starts, reaps and pauses in a real one. */
  lemma {:induction false} GroupsDoExactlyWhatIsDue(env: Env, dryRun: bool, one: seq<Row>, p: seq<Effect>,
                                                    rows: seq<Row>, nFailed: nat, fx: seq<Effect>, events: seq<Event>)
    requires EnvOk(env) && Run(env, dryRun, one, p, rows, nFailed, fx, events)
    ensures Settled(fx) && StartsOnce(fx) && PauseEnds(fx) && DoneExactly(env.groups, dryRun, fx)
  {
    var n, rest := |env.groups|, UpsEffects(env, dryRun) + PowerEffects(env, dryRun);
    TailIsNotOfGroups(env, dryRun);
    assert fx == p + rest;
    SettledConcat(p, rest);
    StartsOnceTail(p, rest);
    forall i | 0 <= i < |p| ensures GroupEffect(p[i]) && p[i].group < n {
      assert OfGroup(p[i], Stage(n, p[i]));
    }
    PauseEndsConcat(n, p, rest);
  }

  lemma TailIsNotOfGroups(env: Env, dryRun: bool)
    ensures var rest := UpsEffects(env, dryRun) + PowerEffects(env, dryRun);
            forall i :: 0 <= i < |rest| ==> !GroupEffect(rest[i])
  {
  }

  lemma StartsOnceTail(a: seq<Effect>, b: seq<Effect>)
    requires StartsOnce(a) && forall i :: 0 <= i < |b| ==> !b[i].Start?
    ensures StartsOnce(a + b)
  {
    forall i, j | 0 <= i < j < |a + b| && (a + b)[i].Start? ensures (a + b)[i] != (a + b)[j] {
      assert i < |a|;
      if j >= |a| { assert !b[j - |a|].Start?; }
    }
  }

  predicate Destructive(e: Effect) {
    e.Start? || e.SendCommand? || e.WriteRegister? || e.PowerOff?
  }

  lemma TailProper(env: Env, dryRun: bool)
    ensures Proper(dryRun, UpsEffects(env, dryRun) + PowerEffects(env, dryRun))
  {
  }

  /** A dry run only asks: it starts nothing, sends nothing, powers nothing off
      and does not even wait. A real run never asks. */
  lemma DryRunOnlyAsks(env: Env, dryRun: bool, one: seq<Row>, p: seq<Effect>,
                       rows: seq<Row>, nFailed: nat, fx: seq<Effect>, events: seq<Event>, e: Effect)
    requires EnvOk(env) && Run(env, dryRun, one, p, rows, nFailed, fx, events) && e in fx
    ensures Asks(e) <==> dryRun
    ensures dryRun ==> !Destructive(e)
  {
    var rest := UpsEffects(env, dryRun) + PowerEffects(env, dryRun);
    TailProper(env, dryRun);
    ProperConcat(dryRun, p, rest);
    assert fx == p + rest;
  }

  lemma PowerOffInTrace(n: nat, env: Env, dryRun: bool, p: seq<Effect>)
    requires InGroupOrder(n, p)
    ensures PowerOff in p + UpsEffects(env, dryRun) + PowerEffects(env, dryRun) <==> TriesPowerOff(env, dryRun)
  {
    assert PowerOff !in p by {
      forall i | 0 <= i < |p| ensures p[i] != PowerOff { assert OfGroup(p[i], Stage(n, p[i])); }
    }
    assert PowerOff !in UpsEffects(env, dryRun);
    if TriesPowerOff(env, dryRun) { assert PowerEffects(env, dryRun)[0] == PowerOff; }
  }

  /** A request that the UPS driver was given. */
  predicate AsksUps(e: Effect) { e.SendCommand? || e.WriteRegister? }

  ghost predicate UpsAsked(fx: seq<Effect>) { exists i :: 0 <= i < |fx| && AsksUps(fx[i]) }

  /** Phase 1 never asks the UPS, and the rest of a run does so at most once and first. */
  lemma OnlyPhaseTwoAsksUps(n: nat, env: Env, p: seq<Effect>, fx: seq<Effect>)
    requires InGroupOrder(n, p) && fx == p + UpsEffects(env, false) + PowerEffects(env, false)
    ensures forall i :: 0 <= i < |fx| && AsksUps(fx[i]) ==> i == |p|
    ensures UpsAsked(fx) <==> UpsAttempt(env).Some?
  {
    forall i | 0 <= i < |p| ensures !AsksUps(fx[i]) { assert fx[i] == p[i] && OfGroup(p[i], Stage(n, p[i])); }
    if UpsAttempt(env).Some? { assert AsksUps(fx[|p|]); }
  }

  /** In a real run the UPS row, the last but one, says passed exactly when the
      trace holds a request to the UPS and the driver accepted it; there is never a
      second request, and none at all when the row says skipped. */
  lemma {:induction false} UpsRowIsTrue(env: Env, one: seq<Row>, p: seq<Effect>,
                                        rows: seq<Row>, nFailed: nat, fx: seq<Effect>, events: seq<Event>)
    requires EnvOk(env) && Run(env, false, one, p, rows, nFailed, fx, events)
    ensures |rows| >= 2 && (rows[|rows| - 2].verdict == Passed <==> UpsAsked(fx) && env.device.driverOk)
    ensures rows[|rows| - 2].verdict == Skipped ==> !UpsAsked(fx)
    ensures forall i, j :: 0 <= i < j < |fx| ==> !(AsksUps(fx[i]) && AsksUps(fx[j]))
  {
    OnlyPhaseTwoAsksUps(|env.groups|, env, p, fx);
  }

  ghost predicate HasTerminal(events: seq<Event>) {
    exists i :: 0 <= i < |events| && events[i].Terminal?
  }

  lemma TerminalIsLast(env: Env, dryRun: bool, one: seq<Row>, nFailed: nat)
    ensures var events := EventsOf(env, dryRun, one, nFailed);
            && (HasTerminal(events) <==> !PoweroffAccepted(env, dryRun))
            && (PoweroffAccepted(env, dryRun) ==> events[|events| - 1] == PoweroffInitiated)
            && (HasTerminal(events) ==> events[|events| - 1] == Terminal(FinalTitle(env, dryRun), nFailed))
  {
    var events := EventsOf(env, dryRun, one, nFailed);
    var before := [Started(dryRun)] + Summary(one) + [UpsAction(Bad(UpsRow(env, dryRun)))];
    assert forall i :: 0 <= i < |before| ==> !before[i].Terminal?;
    if PoweroffAccepted(env, dryRun) {
      assert events == before + [PoweroffInitiated];
    } else {
      assert events[|events| - 1] == Terminal(FinalTitle(env, dryRun), nFailed);
    }
  }

  /** The terminal event is emitted exactly when no poweroff was accepted; then it
      is the last event and carries the number of failed rows.  After an accepted
      poweroff the last event is its announcement. */
  lemma TerminalExactlyWhenAlive(env: Env, dryRun: bool, one: seq<Row>, p: seq<Effect>,
                                 rows: seq<Row>, nFailed: nat, fx: seq<Effect>, events: seq<Event>)
    requires EnvOk(env) && Run(env, dryRun, one, p, rows, nFailed, fx, events)
    ensures HasTerminal(events) <==> !(PowerOff in fx && env.poweroffRc == 0)
    ensures HasTerminal(events) ==>
              events[|events| - 1].Terminal? && events[|events| - 1].failures == Failures(rows)
    ensures !HasTerminal(events) ==> events[|events| - 1] == PoweroffInitiated
  {
    PowerOffInTrace(|env.groups|, env, dryRun, p);
    TerminalIsLast(env, dryRun, one, nFailed);
  }

  /** A sequential group with a target considered at or after the ceiling. */
  ghost predicate HasLate(g: Group)
    requires GroupOk(g)
  {
    !g.parallel && exists t :: 0 <= t < |g.targets| && OverTime(g.maxTimeout, g.start, g.times[t])
  }

  lemma GroupSkipsExactlyWhenLate(g: Group, dryRun: bool, rows: seq<Row>)
    requires GroupOk(g) && GroupRows(g, dryRun, rows)
    ensures Count(rows, Skipped) > 0 <==> !dryRun && HasLate(g)
  {
    CountZero(rows, Skipped);
    forall t | 0 <= t < |rows|
      ensures rows[t].verdict == Skipped <==> !dryRun && !g.parallel && OverTime(g.maxTimeout, g.start, g.times[t])
    {
      assert VerdictsOf(rows)[t] == rows[t].verdict;
    }
  }

  ghost predicate SomeLate(groups: seq<Group>)
    requires GroupsOk(groups)
  {
    exists k :: 0 <= k < |groups| && HasLate(groups[k])
  }

  lemma SomeLateSnoc(groups: seq<Group>, g: Group)
    requires GroupsOk(groups) && GroupOk(g)
    ensures SomeLate(groups + [g]) <==> SomeLate(groups) || HasLate(g)
  {
    var more := groups + [g];
    assert more[|groups|] == g;
    if SomeLate(groups) {
      var k :| 0 <= k < |groups| && HasLate(groups[k]);
      assert more[k] == groups[k];
    }
  }

  lemma SkipsSnoc(groups: seq<Group>, g: Group, dryRun: bool, a: seq<Row>, b: seq<Row>)
    requires GroupsOk(groups) && GroupOk(g) && GroupRows(g, dryRun, b)
    requires Count(a, Skipped) > 0 <==> !dryRun && SomeLate(groups)
    ensures Count(a + b, Skipped) > 0 <==> !dryRun && SomeLate(groups + [g])
  {
    GroupSkipsExactlyWhenLate(g, dryRun, b);
    CountConcat(a, b, Skipped);
    SomeLateSnoc(groups, g);
  }

  lemma PhaseOneSplit(groups: seq<Group>, dryRun: bool, rows: seq<Row>) returns (a: seq<Row>, b: seq<Row>)
    requires GroupsOk(groups) && groups != [] && PhaseOneRows(groups, dryRun, rows)
    ensures PhaseOneRows(groups[..|groups| - 1], dryRun, a) && GroupRows(groups[|groups| - 1], dryRun, b)
    ensures rows == a + b
  {
    var m := |rows| - |groups[|groups| - 1].targets|;
    a, b := rows[..m], rows[m..];
  }

  lemma {:induction false} PhaseOneSkipsExactlyWhenLate(groups: seq<Group>, dryRun: bool, rows: seq<Row>)
    requires GroupsOk(groups) && PhaseOneRows(groups, dryRun, rows)
    ensures Count(rows, Skipped) > 0 <==> !dryRun && SomeLate(groups)
  {
    if groups != [] {
      var init, g := groups[..|groups| - 1], groups[|groups| - 1];
      var a, b := PhaseOneSplit(groups, dryRun, rows);
      PhaseOneSkipsExactlyWhenLate(init, dryRun, a);
      SkipsSnoc(init, g, dryRun, a, b);
      assert groups == init + [g];
    }
  }

  /** The phase 1 event counts everything that did not fail: its number of
      successes is the number of passed targets exactly in a dry run, or when no
      sequential group has a target considered at or after its ceiling. */
  lemma {:induction false} SummaryCountsSkippedAsOk(env: Env, dryRun: bool, one: seq<Row>, p: seq<Effect>,
                                                    rows: seq<Row>, nFailed: nat, fx: seq<Effect>, events: seq<Event>)
    requires EnvOk(env) && Run(env, dryRun, one, p, rows, nFailed, fx, events) && one != []
    ensures events[1].PhaseOneComplete?
    ensures events[1].ok == Count(one, Passed)
            <==> dryRun || !SomeLate(env.groups)
  {
    VerdictsAddUp(one);
    PhaseOneSkipsExactlyWhenLate(env.groups, dryRun, one);
  }

  /** One sequential group of two targets with a ceiling of 60 seconds, the first
      taking 100: one passed, one was skipped, and the event says two succeeded. */
  lemma {:induction false} LateTargetCountsAsOk(env: Env, g: Group, one: seq<Row>, p: seq<Effect>,
                                                rows: seq<Row>, nFailed: nat, fx: seq<Effect>, events: seq<Event>)
    requires env.groups == [g] && EnvOk(env) && Run(env, false, one, p, rows, nFailed, fx, events)
    requires !g.parallel && |g.targets| == 2 && g.maxTimeout == 60 && g.start == 0
    requires g.times == [0, 100] && g.results == [true, true]
    ensures one[0].verdict == Passed && one[1].verdict == Skipped
    ensures events[1] == PhaseOneComplete(2, 2)
  {
    OneGroupRows(g, one);
    assert VerdictsOf(one)[0] == SequentialVerdict(g, 0) && VerdictsOf(one)[1] == SequentialVerdict(g, 1);
    FailuresSnoc([], one[0]);
    FailuresSnoc([] + [one[0]], one[1]);
    assert one == [] + [one[0]] + [one[1]];
  }

  lemma OneGroupRows(g: Group, rows: seq<Row>)
    requires GroupOk(g) && PhaseOneRows([g], false, rows)
    ensures GroupRows(g, false, rows)
  {
    assert [g][..0] == [];
    assert rows[0..] == rows;
  }

  /** Passed, failed and killed targets of a parallel group add up to all of them. */
  lemma ParallelGroupAddsUp(g: Group, rows: seq<Row>)
    requires GroupOk(g) && g.parallel && GroupRows(g, false, rows)
    ensures Count(rows, Passed) + Count(rows, Failed) + Count(rows, Killed) == |g.targets|
    ensures Failures(rows) == |g.targets| - Count(rows, Passed)
  {
    var last: nat :| ParallelVerdicts(g, last, VerdictsOf(rows));
    forall i | 0 <= i < |rows| ensures rows[i].verdict != Skipped {
      assert VerdictsOf(rows)[i] == Report(g.world, i, last);
    }
    CountZero(rows, Skipped);
    VerdictsAddUp(rows);
  }

  // --- In place ---

  class Workflow {
    const res: Accumulator
    var events: seq<Event>
    ghost var trace: seq<Effect>

    ghost predicate Valid()
      reads this, res
    {
      res.Valid()
    }

    constructor ()
      ensures Valid() && fresh(res) && res.steps == [] && events == [] && trace == []
    {
      res := new Accumulator();
      events, trace := [], [];
    }

    method ValidateTargets(k: nat, g: Group) returns (outs: seq<Verdict>, ghost fx: seq<Effect>)
      requires GroupOk(g)
      ensures Verdicts(g, true, outs) && GroupTrace(k, g, true, false, fx)
    {
      outs, fx := [], [];
      for t := 0 to |g.targets|
        invariant |outs| == |fx| == t
        invariant forall u :: 0 <= u < t ==> outs[u] == if g.probes[u] then Passed else Failed
        invariant forall u :: 0 <= u < t ==> fx[u] == Probe(k, u)
      {
        fx := fx + [Probe(k, t)];
        outs := outs + [if g.probes[t] then Passed else Failed];
      }
    }

    method RunTargets(k: nat, g: Group) returns (outs: seq<Verdict>, ghost fx: seq<Effect>)
      requires GroupOk(g)
      ensures Verdicts(g, false, outs) && GroupTrace(k, g, false, false, fx)
    {
      if g.parallel {
        var started, reaped, killed;
        ghost var last: nat;
        outs, started, reaped, killed, last := ExecuteParallel(g.world, g.maxTimeout, g.horizon);
        assert ParallelVerdicts(g, last, outs);
        fx := Starting(k, started) + Settling(k, reaped);
        ParallelTrace(k, g, started, reaped);
      } else {
        var ran;
        outs, ran := ExecuteSequential(g.maxTimeout, g.start, g.times, g.results);
        fx := InTurn(k, ran);
        InTurnTrace(k, ran);
      }
    }

    method AppendRows(g: Group, outs: seq<Verdict>) returns (ghost rows: seq<Row>)
      requires Valid() && |outs| == |g.targets|
      modifies res
      ensures Valid() && res.steps == old(res.steps) + rows && RowsOf(g, outs, rows)
    {
      rows := [];
      for t := 0 to |outs|
        invariant Valid() && |rows| == t && res.steps == old(res.steps) + rows
        invariant forall u :: 0 <= u < t ==> rows[u] == Row(Phase1, Label(g, u), outs[u])
      {
        res.Append(Phase1, g.name + "/" + g.targets[t], outs[t]);
        rows := rows + [Row(Phase1, Label(g, t), outs[t])];
      }
    }

    method RunGroup(k: nat, g: Group, dryRun: bool) returns (ghost rows: seq<Row>, ghost fx: seq<Effect>)
      requires Valid() && GroupOk(g) && g.targets != []
      modifies this, res
      ensures Valid() && events == old(events)
      ensures res.steps == old(res.steps) + rows && GroupRows(g, dryRun, rows)
      ensures trace == old(trace) + fx && GroupTrace(k, g, dryRun, Pauses(g, dryRun), fx)
    {
      var outs;
      if dryRun {
        outs, fx := ValidateTargets(k, g);
      } else {
        outs, fx := RunTargets(k, g);
      }
      rows := AppendRows(g, outs);
      RowsMatch(g, dryRun, outs, rows);
      if g.postDelay > 0 && !dryRun {
        PauseKeepsTrace(k, g, fx);
        fx := fx + [Pause(k)];
      }
      trace := trace + fx;
    }

    method PhaseOne(groups: seq<Group>, dryRun: bool) returns (total: nat)
      requires Valid() && res.steps == [] && trace == [] && GroupsOk(groups)
      modifies this, res
      ensures Valid() && events == old(events) && total == |res.steps|
      ensures PhaseOneRows(groups, dryRun, res.steps) && PhaseOneTrace(groups, dryRun, trace)
    {
      total := 0;
      for k := 0 to |groups|
        invariant Valid() && events == old(events) && total == |res.steps|
        invariant PhaseOneDone(groups, k, dryRun, res.steps, trace)
      {
        if |groups[k].targets| == 0 {
          NoTargets(k, groups[k], dryRun);
          PhaseOneStep(groups, k, dryRun, res.steps, trace, [], []);
          assert res.steps + [] == res.steps && trace + [] == trace;
          continue;
        }
        total := total + |groups[k].targets|;
        ghost var rows, fx := res.steps, trace;
        ghost var newRows, newFx := RunGroup(k, groups[k], dryRun);
        PhaseOneStep(groups, k, dryRun, rows, fx, newRows, newFx);
      }
      PhaseOneWhole(groups, dryRun, res.steps, trace);
    }

    method SendShutdown(env: Env) returns (v: Verdict, ghost fx: seq<Effect>)
      requires env.upsMode == Command
      ensures v == UpsVerdict(env, false)
      ensures fx == if UpsAttempt(env).None? then [] else [UpsAttempt(env).value]
    {
      var k := FindCommandFlag(env.device.commands);
      var rc := NotSupported;
      ghost var asked := false;
      if k < |env.device.commands| { rc, asked := CmdExecute(env.device, env.device.commands[k].name); }
      fx := if asked then [SendCommand(env.device.commands[k].name)] else [];
      v := if rc == Ok then Passed else Failed;
    }

    method WriteSetting(env: Env) returns (v: Verdict, ghost fx: seq<Effect>)
      requires env.upsMode == Register && env.regName != ""
      ensures v == UpsVerdict(env, false)
      ensures fx == if UpsAttempt(env).None? then [] else [UpsAttempt(env).value]
    {
      var k := FindConfigReg(env.device.registers, env.regName);
      v, fx := Failed, [];
      if k < |env.device.registers| && env.device.registers[k].writable {
        var rc;
        ghost var asked;
        rc, asked := ConfigWrite(env.device, env.device.registers[k], env.regValue % 0x1_0000);
        if rc == Ok { v := Passed; }
        if asked { fx := [WriteRegister(env.regName, env.regValue % 0x1_0000)]; }
      }
    }

    method UpsAct(env: Env, dryRun: bool) returns (v: Verdict, ghost fx: seq<Effect>)
      ensures v == UpsVerdict(env, dryRun)
      ensures fx == if dryRun || UpsAttempt(env).None? then [] else [UpsAttempt(env).value]
    {
      fx := [];
      if env.upsMode == NoAction {
        v := Skipped;
      } else if env.upsMode == Command {
        if dryRun {
          var k := FindCommandFlag(env.device.commands);
          v := if k < |env.device.commands| then Passed else Failed;
        } else {
          v, fx := SendShutdown(env);
        }
      } else if env.upsMode == Register {
        if dryRun {
          v := if env.regName != "" then Passed else Failed;
        } else if env.regName != "" {
          v, fx := WriteSetting(env);
        } else {
          v := Failed;
        }
      } else {
        v := Failed;
      }
    }

    method PhaseTwo(env: Env, dryRun: bool)
      requires Valid()
      modifies this, res
      ensures Valid() && res.steps == old(res.steps) + [UpsRow(env, dryRun)]
      ensures trace == old(trace) + UpsEffects(env, dryRun)
      ensures events == old(events) + [UpsAction(Bad(UpsRow(env, dryRun)))]
    {
      var before := res.nFailed;
      FailuresSnoc(res.steps, UpsRow(env, dryRun));
      var v;
      ghost var fx;
      v, fx := UpsAct(env, dryRun);
      res.Append(Phase2, "ups", v);
      events := events + [UpsAction(res.nFailed - before > 0)];
      if env.upsDelay > 0 && env.upsMode != NoAction && !dryRun { fx := fx + [UpsPause]; }
      trace := trace + fx;
    }

    method PhaseThree(env: Env, dryRun: bool) returns (initiated: bool, failed: bool)
      requires Valid()
      modifies this, res
      ensures Valid() && res.steps == old(res.steps) + [PowerRow(env, dryRun)]
      ensures trace == old(trace) + PowerEffects(env, dryRun)
      ensures events == old(events) + PowerEvents(env, dryRun)
      ensures initiated <==> PoweroffAccepted(env, dryRun)
      ensures failed <==> TriesPowerOff(env, dryRun) && env.poweroffRc != 0
    {
      initiated, failed := false, false;
      if env.docker {
        res.Append(Phase3, "controller", Skipped);
      } else if env.controllerEnabled {
        if dryRun {
          trace := trace + [AskLogind];
          res.Append(Phase3, "controller", if env.canPowerOff then Passed else Failed);
        } else {
          events := events + [PoweroffInitiated];
          trace := trace + [PowerOff];
          if env.poweroffRc != 0 {
            res.Append(Phase3, "controller", Failed);
            events := events + [PoweroffFailed];
            failed := true;
          } else {
            res.Append(Phase3, "controller", Passed);
            initiated := true;
          }
        }
      } else {
        res.Append(Phase3, "controller", Skipped);
      }
    }

    method Conclude(env: Env, dryRun: bool)
      requires Valid()
      modifies this, res
      ensures Valid() && res.steps == old(res.steps) + [UpsRow(env, dryRun), PowerRow(env, dryRun)]
      ensures trace == old(trace) + UpsEffects(env, dryRun) + PowerEffects(env, dryRun)
      ensures events == old(events) + Ending(env, dryRun, res.nFailed)
    {
      PhaseTwo(env, dryRun);
      var initiated, failed := PhaseThree(env, dryRun);
      if !initiated {
        var title := if dryRun then DryRunComplete else if failed then WorkflowHalted else WorkflowComplete;
        events := events + [Terminal(title, res.nFailed)];
      }
    }

    method CompletePhaseOne(total: nat)
      requires Valid() && total == |res.steps|
      modifies this`events
      ensures events == old(events) + Summary(res.steps)
    {
      if total > 0 { events := events + [PhaseOneComplete(total - res.nFailed, total)]; }
    }

    method Begin(env: Env, dryRun: bool)
      requires Valid() && EnvOk(env) && res.steps == [] && events == [] && trace == []
      modifies this, res
      ensures Valid() && PhaseOneRows(env.groups, dryRun, res.steps) && PhaseOneTrace(env.groups, dryRun, trace)
      ensures events == [Started(dryRun)] + Summary(res.steps)
    {
      events := [Started(dryRun)];
      var total := PhaseOne(env.groups, dryRun);
      CompletePhaseOne(total);
    }

    method Execute(env: Env, dryRun: bool) returns (ghost one: seq<Row>, ghost p: seq<Effect>)
      requires Valid() && EnvOk(env) && res.steps == [] && events == [] && trace == []
      modifies this, res
      ensures Valid() && Run(env, dryRun, one, p, res.steps, res.nFailed, trace, events)
    {
      Begin(env, dryRun);
      one, p := res.steps, trace;
      Conclude(env, dryRun);
    }
  }

  lemma PauseKeepsTrace(k: nat, g: Group, fx: seq<Effect>)
    requires GroupOk(g) && GroupTrace(k, g, false, false, fx)
    ensures GroupTrace(k, g, false, true, fx + [Pause(k)])
  {
    SettledConcat(fx, [Pause(k)]);
    forall e | OfGroup(e, k) ensures e in fx + [Pause(k)] <==> Due(g, false, true, e) {
      assert e in fx <==> Due(g, false, false, e);
    }
    forall i | 0 <= i < |fx| ensures !fx[i].Pause? {
      assert fx[i] in fx && OfGroup(fx[i], k);
    }
  }

  lemma NoTargets(k: nat, g: Group, dryRun: bool)
    requires GroupOk(g) && g.targets == []
    ensures GroupRows(g, dryRun, [])
    ensures GroupTrace(k, g, dryRun, Pauses(g, dryRun), [])
  {
    assert g.parallel ==> ParallelVerdicts(g, 0, VerdictsOf([]));
  }
}
