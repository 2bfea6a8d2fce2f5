/** What watchers see of a workflow (src/shutdown/shutdown.c:103-142, 617-945,
    1139-1163, 1232-1270): the workers of ShutdownAsync append the rows of
    ShutdownPlan, one by one. */
module ShutdownReport {
  import opened Options
  import opened ShutdownResult
  import opened ShutdownAsync
  import Plan = ShutdownPlan

  /** One workflow as the plan completes it: its environment, what phase 1 and the
      whole contributed, and the events. */
  datatype Entry = Entry(env: Plan.Env, one: seq<Row>, p: seq<Plan.Effect>, rows: seq<Row>, nFailed: nat,
                         fx: seq<Plan.Effect>, events: seq<Plan.Event>)

  ghost predicate Completes(e: Entry, dryRun: bool) {
    Plan.EnvOk(e.env) && Plan.Run(e.env, dryRun, e.one, e.p, e.rows, e.nFailed, e.fx, e.events)
  }

  /** The workflow with id k is the k-th entry, completed in the mode it was started in. */
  ghost predicate Scripted(script: seq<Entry>, modes: seq<bool>, k: nat) {
    1 <= k <= |modes| && k <= |script| && Completes(script[k - 1], modes[k - 1])
  }

  function RowsOf(script: seq<Entry>, k: nat): seq<Row> {
    if 1 <= k <= |script| then script[k - 1].rows else []
  }

  /** Each worker appends the rows of the workflow in force, in order, and finishes after the last. */
  predicate FollowsScript(script: seq<Entry>, s: Sys, a: Action) {
    match a
    case Append(w, row) => Can(s, a) ==> s.workers[w].acc + [row] <= RowsOf(script, s.id)
    case Finish(w) => Can(s, a) ==> s.workers[w].acc == RowsOf(script, s.id)
    case _ => true
  }

  predicate RunFollows(script: seq<Entry>, run: seq<Action>) {
    run != [] ==>
      RunFollows(script, run[..|run| - 1]) && FollowsScript(script, After(run[..|run| - 1]), run[|run| - 1])
  }

  // --- The invariant ---

  /** An answer shows the first rows of its workflow, and all of them when completed. */
  ghost predicate TrueAnswer(script: seq<Entry>, p: Poll) {
    p.steps <= RowsOf(script, p.id) && (p.state.Completed? ==> p.steps == RowsOf(script, p.id))
  }

  ghost predicate WorkersFollow(workers: seq<Worker>, rows: seq<Row>) {
    forall w :: 0 <= w < |workers| && workers[w].Body? ==> workers[w].acc <= rows
  }

  ghost predicate ReportInv(script: seq<Entry>, s: Sys) {
    && WorkersFollow(s.workers, RowsOf(script, s.id))
    && TrueAnswer(script, Answer(s))
    && forall i :: 0 <= i < |s.polls| ==> TrueAnswer(script, s.polls[i])
  }

  lemma {:induction false} WorkerReports(script: seq<Entry>, s: Sys, a: Action, o: Option<Actor>)
    requires Owned(s, o) && Mirrored(s) && ReportInv(script, s) && Can(s, a) && ByWorker(a)
    requires FollowsScript(script, s, a)
    ensures ReportInv(script, Do(s, a))
  {
    if a.Mirror? {
      MirrorReports(script, s, a.worker, o);
    } else if a.Finish? {
      assert MirrorOf(s.workers[a.worker], s.modes, s.snapshot);
    }
  }

  lemma WorkerSet(workers: seq<Worker>, w: nat, b: Worker, rows: seq<Row>)
    requires WorkersFollow(workers, rows) && w < |workers| && (b.Body? ==> b.acc <= rows)
    ensures WorkersFollow(workers[w := b], rows)
  {
  }

  lemma {:induction false} MirrorReports(script: seq<Entry>, s: Sys, w: nat, o: Option<Actor>)
    requires Owned(s, o) && Mirrored(s) && ReportInv(script, s) && Can(s, Mirror(w))
    ensures ReportInv(script, Do(s, Mirror(w)))
  {
    var b, rows := s.workers[w], RowsOf(script, s.id);
    OthersIdle(s, w, o);
    assert MirrorOf(b, s.modes, s.snapshot);
    MirrorCatchesUp(b.dryRun, b.acc, s.modes, s.snapshot);
    WorkerSet(s.workers, w, b.(pending := false), rows);
    assert Do(s, Mirror(w)).snapshot == b.acc <= rows;
  }

  /** A new workflow starts with nobody in the body and an empty snapshot. */
  lemma {:induction false} CallReports(script: seq<Entry>, s: Sys, a: Action, o: Option<Actor>)
    requires Owned(s, o) && Mirrored(s) && ReportInv(script, s) && Can(s, a) && !ByWorker(a)
    ensures ReportInv(script, Do(s, a))
  {
    if a.Start? && !s.state.Running? { assert o.None?; }
  }

  lemma {:induction false} RunReports(script: seq<Entry>, run: seq<Action>)
    requires RunFollows(script, run)
    ensures ReportInv(script, After(run))
  {
    if run != [] {
      var init, a := run[..|run| - 1], run[|run| - 1];
      RunReports(script, init);
      RunOwned(init);
      RunMirrored(init);
      if Can(After(init), a) {
        if ByWorker(a) {
          WorkerReports(script, After(init), a, Owner(init));
        } else {
          CallReports(script, After(init), a, Owner(init));
        }
      }
    }
  }

  // --- The status ---

  /** The last of the three turns a workflow takes: a start that got a new id, a start
      given up for want of a thread, and a worker's end. */
  function LastTurn(run: seq<Action>): Status {
    if run == [] then Idle
    else
      var init, a := run[..|run| - 1], run[|run| - 1];
      if !Can(After(init), a) then LastTurn(init)
      else
        match a
        case Start(_) => if After(run).id > After(init).id then Running else LastTurn(init)
        case GiveUp(_) => Idle
        case Finish(_) => Completed
        case _ => LastTurn(init)
  }

  lemma {:induction false} StatusIsLastTurn(run: seq<Action>)
    ensures After(run).state == LastTurn(run)
  {
    if run != [] { StatusIsLastTurn(run[..|run| - 1]); }
  }

  /** An answer is the state of things when it is given: the last turn taken, the number
      of starts accepted, and the rows so far with the number of failed ones. */
  lemma {:induction false} AnswerIsCurrent(run: seq<Action>)
    requires After(run).freeing.InUse?
    ensures var s, t := After(run), After(run + [Ask]);
            && |t.polls| == |s.polls| + 1
            && var p := t.polls[|s.polls|];
            && p.state == LastTurn(run) && p.id == |s.modes| && p.steps == s.snapshot
            && p.nFailed == Failures(s.snapshot) && (p.allOk <==> LastTurn(run) == Completed && p.nFailed == 0)
  {
    AfterSnoc(run, Ask);
    StatusIsLastTurn(run);
    RunMirrored(run);
  }

  // --- What a watcher can rely on ---

  /** Row i of a workflow over these targets. */
  predicate IsRow(r: Row, labels: seq<string>, i: nat) {
    if i < |labels| then r.phase == Phase1 && r.target == labels[i]
    else if i == |labels| then r.phase == Phase2 && r.target == "ups"
    else i == |labels| + 1 && r.phase == Phase3 && r.target == "controller"
  }

  ghost predicate AreRows(rows: seq<Row>, labels: seq<string>) {
    forall i :: 0 <= i < |rows| ==> IsRow(rows[i], labels, i)
  }

  lemma {:induction false} EntryRows(e: Entry, dryRun: bool)
    requires Completes(e, dryRun)
    ensures |e.rows| == |Plan.Labels(e.env.groups)| + 2 && AreRows(e.rows, Plan.Labels(e.env.groups))
  {
    forall i | 0 <= i < |e.rows| ensures IsRow(e.rows[i], Plan.Labels(e.env.groups), i) {
      Plan.RowsFollowThePlan(e.env, dryRun, e.one, e.p, e.rows, e.nFailed, e.fx, e.events, i);
    }
    assert |e.rows| >= 2;
    Plan.RowsFollowThePlan(e.env, dryRun, e.one, e.p, e.rows, e.nFailed, e.fx, e.events, 0);
  }

  /** An answer shows the rows of an entry as far as the workflow got. */
  ghost predicate Shows(p: Poll, e: Entry) {
    && p.steps <= e.rows && AreRows(p.steps, Plan.Labels(e.env.groups))
    && (p.state.Completed? ==> p.steps == e.rows && |p.steps| == |Plan.Labels(e.env.groups)| + 2)
  }

  ghost predicate GoodRows(e: Entry) {
    |e.rows| == |Plan.Labels(e.env.groups)| + 2 && AreRows(e.rows, Plan.Labels(e.env.groups))
  }

  lemma ScriptedRows(script: seq<Entry>, modes: seq<bool>, k: nat)
    requires Scripted(script, modes, k)
    ensures 1 <= k <= |script| && GoodRows(script[k - 1])
  {
    EntryRows(script[k - 1], modes[k - 1]);
  }

  lemma {:induction false} AnswerShows(p: Poll, e: Entry)
    requires GoodRows(e) && p.steps <= e.rows && (p.state.Completed? ==> p.steps == e.rows)
    ensures Shows(p, e)
  {
    forall i | 0 <= i < |p.steps| ensures IsRow(p.steps[i], Plan.Labels(e.env.groups), i) {
      assert p.steps[i] == e.rows[i];
    }
  }

  lemma {:induction false} StateShows(script: seq<Entry>, s: Sys, n: nat)
    requires ReportInv(script, s) && n < |s.polls| && 1 <= s.polls[n].id <= |script|
    requires GoodRows(script[s.polls[n].id - 1])
    ensures Shows(s.polls[n], script[s.polls[n].id - 1])
  {
    assert TrueAnswer(script, s.polls[n]);
    AnswerShows(s.polls[n], script[s.polls[n].id - 1]);
  }

  /** Every answer of every run whose workers follow the plan: its rows name the
      targets of its workflow's groups in order, then the UPS, then the controller; it
      shows the first of them while running, and it says completed only with all. */
  lemma {:induction false} AnswersFollowThePlan(script: seq<Entry>, run: seq<Action>, n: nat)
    requires RunFollows(script, run) && n < |After(run).polls|
    requires Scripted(script, After(run).modes, After(run).polls[n].id)
    ensures Shows(After(run).polls[n], script[After(run).polls[n].id - 1])
  {
    RunReports(script, run);
    ScriptedRows(script, After(run).modes, After(run).polls[n].id);
    StateShows(script, After(run), n);
  }
}
