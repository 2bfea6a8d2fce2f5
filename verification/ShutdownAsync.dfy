/** The one-at-a-time asynchronous workflow (src/shutdown/shutdown.c:103-142,
    581-603, 1139-1270) as a step machine.  Each region held under the state lock
    is one step, and so are the joins, thread creation and a worker's own appends.
    A step whose turn has not come changes nothing, so every sequence of actions
    is a run. */
module ShutdownAsync {
  import opened Options
  import opened ShutdownResult

  datatype Status = Idle | Running | Completed

  /** A call of shutdown_start_async: past the guard with the previous worker's
      handle, past the join, with a failed or a successful thread creation, over. */
  datatype Starter = Guarded(prior: Option<nat>) | Joined | Spoiled | Created(worker: nat) | Returned

  /** A worker thread: before it reads the mode, in the workflow body with its
      own accumulator (`pending` when the last row is not mirrored yet), past the
      final status update, exited. */
  datatype Worker = Spawned | Body(dryRun: bool, acc: seq<Row>, pending: bool) | Finished | Exited

  /** shutdown_free: not called, waiting for the worker it found, over. */
  datatype Freeing = InUse | Waiting(prior: Option<nat>) | Freed

  /** What one status call returned. */
  datatype Poll = Poll(state: Status, id: nat, steps: seq<Row>, nFailed: nat, allOk: bool)

  /** `modes`, `joins` and `polls` are history: the mode of every start that passed
      the guard, the workers joined and the answers given. */
  datatype Sys = Sys(state: Status, id: nat, dryRun: bool, snapshot: seq<Row>, nFailed: nat, handle: Option<nat>,
                     starters: seq<Starter>, workers: seq<Worker>, freeing: Freeing,
                     modes: seq<bool>, joins: seq<nat>, polls: seq<Poll>)

  datatype Action =
    | Start(dryRun: bool)
    | Join(starter: nat)
    | Create(starter: nat, ok: bool)
    | GiveUp(starter: nat)
    | Publish(starter: nat)
    | ReadMode(worker: nat)
    | Append(worker: nat, row: Row)
    | Mirror(worker: nat)
    | Finish(worker: nat)
    | Exit(worker: nat)
    | Ask
    | Free
    | FreeJoin

  const BOOT: Sys := Sys(Idle, 0, false, [], 0, None, [], [], InUse, [], [], [])

  // --- Steps ---

  predicate Can(s: Sys, a: Action) {
    match a
    case Start(_) => s.freeing.InUse?
    case Join(i) => i < |s.starters| && s.starters[i].Guarded? && CanJoin(s, s.starters[i].prior)
    case Create(i, _) => i < |s.starters| && s.starters[i].Joined?
    case GiveUp(i) => i < |s.starters| && s.starters[i].Spoiled?
    case Publish(i) => i < |s.starters| && s.starters[i].Created?
    case ReadMode(w) => w < |s.workers| && s.workers[w].Spawned?
    case Append(w, _) => w < |s.workers| && s.workers[w].Body? && !s.workers[w].pending
    case Mirror(w) => w < |s.workers| && s.workers[w].Body? && s.workers[w].pending
    case Finish(w) => w < |s.workers| && s.workers[w].Body? && !s.workers[w].pending
    case Exit(w) => w < |s.workers| && s.workers[w].Finished?
    case Ask => s.freeing.InUse?
    case Free => s.freeing.InUse? && AllReturned(s)
    case FreeJoin => s.freeing.Waiting? && CanJoin(s, s.freeing.prior)
  }

  /** A join returns once the thread has exited; nothing to join returns at once. */
  predicate CanJoin(s: Sys, prior: Option<nat>) {
    prior.Some? ==> prior.value < |s.workers| && s.workers[prior.value].Exited?
  }

  predicate AllReturned(s: Sys) { forall i :: 0 <= i < |s.starters| ==> s.starters[i].Returned? }

  function Wanted(prior: Option<nat>): seq<nat> { if prior.Some? then [prior.value] else [] }

  function Answer(s: Sys): Poll {
    Poll(s.state, s.id, s.snapshot, s.nFailed, s.state.Completed? && s.nFailed == 0)
  }

  function Do(s: Sys, a: Action): Sys
    requires Can(s, a)
  {
    match a
    case Start(dry) =>
      if s.state.Running? then s.(starters := s.starters + [Returned])
      else s.(state := Running, id := s.id + 1, dryRun := dry, snapshot := [], nFailed := 0, handle := None,
              starters := s.starters + [Guarded(s.handle)], modes := s.modes + [dry])
    case Join(i) =>
      s.(starters := s.starters[i := Joined], joins := s.joins + Wanted(s.starters[i].prior))
    case Create(i, ok) =>
      if ok then s.(starters := s.starters[i := Created(|s.workers|)], workers := s.workers + [Spawned])
      else s.(starters := s.starters[i := Spoiled])
    case GiveUp(i) => s.(starters := s.starters[i := Returned], state := Idle)
    case Publish(i) => s.(starters := s.starters[i := Returned], handle := Some(s.starters[i].worker))
    case ReadMode(w) => s.(workers := s.workers[w := Body(s.dryRun, [], false)])
    case Append(w, row) =>
      s.(workers := s.workers[w := Body(s.workers[w].dryRun, s.workers[w].acc + [row], true)])
    case Mirror(w) =>
      var b := s.workers[w];
      var t := s.(workers := s.workers[w := b.(pending := false)]);
      if s.state.Running? && b.acc != [] then
        var row := b.acc[|b.acc| - 1];
        t.(snapshot := s.snapshot + [row], nFailed := s.nFailed + if Bad(row) then 1 else 0)
      else t
    case Finish(w) => s.(workers := s.workers[w := Finished], state := Completed)
    case Exit(w) => s.(workers := s.workers[w := Exited])
    case Ask => s.(polls := s.polls + [Answer(s)])
    case Free => s.(freeing := Waiting(s.handle), handle := None)
    case FreeJoin => s.(freeing := Freed, joins := s.joins + Wanted(s.freeing.prior))
  }

  function Step(s: Sys, a: Action): Sys { if Can(s, a) then Do(s, a) else s }

  function After(run: seq<Action>): Sys {
    if run == [] then BOOT else Step(After(run[..|run| - 1]), run[|run| - 1])
  }

  // --- One at a time ---

  predicate ByWorker(a: Action) {
    a.ReadMode? || a.Append? || a.Mirror? || a.Finish? || a.Exit? || a.Ask?
  }

  datatype Actor = TheStarter(i: nat) | TheWorker(w: nat)

  /** Between passing the guard and creating the worker, or failing to. */
  predicate Holds(p: Starter) { p.Guarded? || p.Joined? || p.Spoiled? }

  predicate Active(w: Worker) { w.Spawned? || w.Body? }

  /** The running workflow is in exactly one pair of hands. */
  ghost predicate Owned(s: Sys, o: Option<Actor>) {
    && (s.state.Running? <==> o.Some?)
    && (forall i :: 0 <= i < |s.starters| ==> (Holds(s.starters[i]) <==> o == Some(TheStarter(i))))
    && (forall w :: 0 <= w < |s.workers| ==> (Active(s.workers[w]) <==> o == Some(TheWorker(w))))
    && (o.Some? && o.value.TheStarter? ==> o.value.i < |s.starters|)
    && (o.Some? && o.value.TheWorker? ==> o.value.w < |s.workers|)
  }

  function NextOwner(s: Sys, a: Action, o: Option<Actor>): Option<Actor> {
    if !Can(s, a) then o
    else match a
      case Start(_) => if s.state.Running? then o else Some(TheStarter(|s.starters|))
      case Create(_, ok) => if ok then Some(TheWorker(|s.workers|)) else o
      case GiveUp(_) => None
      case Finish(_) => None
      case _ => o
  }

  lemma {:induction false} OwnedWorkerStep(s: Sys, a: Action, o: Option<Actor>)
    requires Owned(s, o) && Can(s, a) && ByWorker(a)
    ensures Owned(Do(s, a), NextOwner(s, a, o))
  {
  }

  lemma OwnedCallStep(s: Sys, a: Action, o: Option<Actor>)
    requires Owned(s, o) && Can(s, a) && !ByWorker(a)
    ensures Owned(Do(s, a), NextOwner(s, a, o))
  {
  }

  lemma {:induction false} OwnedStep(s: Sys, a: Action, o: Option<Actor>)
    requires Owned(s, o)
    ensures Owned(Step(s, a), NextOwner(s, a, o))
  {
    if Can(s, a) {
      if ByWorker(a) { OwnedWorkerStep(s, a, o); } else { OwnedCallStep(s, a, o); }
    }
  }

  ghost function Owner(run: seq<Action>): Option<Actor> {
    if run == [] then None else NextOwner(After(run[..|run| - 1]), run[|run| - 1], Owner(run[..|run| - 1]))
  }

  lemma {:induction false} RunOwned(run: seq<Action>)
    ensures Owned(After(run), Owner(run))
  {
    if run != [] {
      RunOwned(run[..|run| - 1]);
      OwnedStep(After(run[..|run| - 1]), run[|run| - 1], Owner(run[..|run| - 1]));
    }
  }

  /** At most one worker is in the workflow body, and only while the status says running. */
  lemma OneWorkerAtATime(run: seq<Action>, v: nat, w: nat)
    requires v < |After(run).workers| && w < |After(run).workers|
    requires Active(After(run).workers[v])
    ensures After(run).state.Running?
    ensures Active(After(run).workers[w]) ==> v == w
  {
    RunOwned(run);
  }

  /** A start is let past the guard exactly when nobody holds the workflow. */
  lemma {:induction false} StartPassesExactlyWhenFree(run: seq<Action>, dry: bool)
    requires Can(After(run), Start(dry))
    ensures After(run + [Start(dry)]).id == After(run).id + 1 <==>
              && (forall w :: 0 <= w < |After(run).workers| ==> !Active(After(run).workers[w]))
              && (forall i :: 0 <= i < |After(run).starters| ==> !Holds(After(run).starters[i]))
  {
    RunOwned(run);
    assert (run + [Start(dry)])[..|run|] == run;
    var s, o := After(run), Owner(run);
    if o.Some? {
      if o.value.TheStarter? { assert Holds(s.starters[o.value.i]); } else { assert Active(s.workers[o.value.w]); }
    }
  }

  // --- The snapshot mirrors the worker ---

  ghost predicate MirrorOf(w: Worker, modes: seq<bool>, snapshot: seq<Row>) {
    match w
    case Spawned => snapshot == []
    case Body(dry, acc, pending) =>
      && modes != [] && dry == modes[|modes| - 1]
      && (if pending then acc != [] && snapshot == acc[..|acc| - 1] else snapshot == acc)
    case _ => true
  }

  ghost predicate Mirrored(s: Sys) {
    && s.id == |s.modes| && s.nFailed == Failures(s.snapshot)
    && (s.state.Running? ==> s.modes != [] && s.dryRun == s.modes[|s.modes| - 1])
    && (forall i :: 0 <= i < |s.starters| && Holds(s.starters[i]) ==> s.snapshot == [])
    && AllMirror(s.workers, s.modes, s.snapshot)
  }

  ghost predicate AllMirror(workers: seq<Worker>, modes: seq<bool>, snapshot: seq<Row>) {
    forall w :: 0 <= w < |workers| ==> MirrorOf(workers[w], modes, snapshot)
  }

  lemma MirroredWorkerStep(s: Sys, a: Action, o: Option<Actor>)
    requires Owned(s, o) && Mirrored(s) && Can(s, a) && ByWorker(a) && !a.Mirror?
    ensures Mirrored(Do(s, a))
  {
  }

  /** One body and its snapshot. */
  lemma MirrorCatchesUp(dry: bool, acc: seq<Row>, modes: seq<bool>, snapshot: seq<Row>)
    requires MirrorOf(Body(dry, acc, true), modes, snapshot)
    ensures acc != [] && snapshot + [acc[|acc| - 1]] == acc
    ensures MirrorOf(Body(dry, acc, false), modes, acc)
    ensures Failures(acc) == Failures(snapshot) + if Bad(acc[|acc| - 1]) then 1 else 0
  {
    FailuresSnoc(snapshot, acc[|acc| - 1]);
  }

  lemma IdleMirrors(w: Worker, modes: seq<bool>, snapshot: seq<Row>)
    requires !Active(w)
    ensures MirrorOf(w, modes, snapshot)
  {
  }

  /** While worker w is in the body it is the only active one, and no call holds the workflow. */
  lemma OthersIdle(s: Sys, w: nat, o: Option<Actor>)
    requires Owned(s, o) && w < |s.workers| && s.workers[w].Body?
    ensures s.state.Running?
    ensures forall i :: 0 <= i < |s.starters| ==> !Holds(s.starters[i])
    ensures forall v :: 0 <= v < |s.workers| && v != w ==> !Active(s.workers[v])
  {
    assert o == Some(TheWorker(w));
  }

  lemma WorkersMirror(workers: seq<Worker>, w: nat, b: Worker, modes: seq<bool>, snapshot: seq<Row>)
    requires w < |workers| && forall v :: 0 <= v < |workers| && v != w ==> !Active(workers[v])
    requires MirrorOf(b, modes, snapshot)
    ensures AllMirror(workers[w := b], modes, snapshot)
  {
    var all := workers[w := b];
    forall v | 0 <= v < |all| ensures MirrorOf(all[v], modes, snapshot) {
      if v != w { IdleMirrors(workers[v], modes, snapshot); }
    }
  }

  lemma {:induction false} MirroredMirrorStep(s: Sys, w: nat, o: Option<Actor>)
    requires Owned(s, o) && Mirrored(s) && Can(s, Mirror(w))
    ensures Mirrored(Do(s, Mirror(w)))
  {
    var dry, acc := s.workers[w].dryRun, s.workers[w].acc;
    OthersIdle(s, w, o);
    assert MirrorOf(s.workers[w], s.modes, s.snapshot);
    MirrorCatchesUp(dry, acc, s.modes, s.snapshot);
    WorkersMirror(s.workers, w, Body(dry, acc, false), s.modes, acc);
  }

  lemma MirroredCallStep(s: Sys, a: Action, o: Option<Actor>)
    requires Owned(s, o) && Mirrored(s) && Can(s, a) && !ByWorker(a)
    ensures Mirrored(Do(s, a))
  {
  }

  lemma {:induction false} MirroredStep(s: Sys, a: Action, o: Option<Actor>)
    requires Owned(s, o) && Mirrored(s)
    ensures Mirrored(Step(s, a))
  {
    if Can(s, a) {
      if a.Mirror? {
        MirroredMirrorStep(s, a.worker, o);
      } else if ByWorker(a) {
        MirroredWorkerStep(s, a, o);
      } else {
        MirroredCallStep(s, a, o);
      }
    }
  }

  /** The worker in the body runs in the mode its own start asked for; the published
      snapshot is its accumulator, or lags it by the one row just appended; the
      published failure count is the number of failed rows; and the id counts the
      starts that passed the guard. */
  lemma {:induction false} RunMirrored(run: seq<Action>)
    ensures Mirrored(After(run))
  {
    if run != [] {
      RunOwned(run[..|run| - 1]);
      RunMirrored(run[..|run| - 1]);
      MirroredStep(After(run[..|run| - 1]), run[|run| - 1], Owner(run[..|run| - 1]));
    }
  }

  // --- Status polls ---

  /** Later answers have no smaller id; answers for one id only grow, and a
      completed one is final. */
  ghost predicate Follows(p: Poll, q: Poll) {
    && p.id <= q.id
    && (p.id == q.id ==> p.steps <= q.steps)
    && (p.id == q.id && p.state.Completed? ==> q.state.Completed? && p.steps == q.steps)
  }

  ghost predicate Consistent(p: Poll) {
    && p.nFailed == Failures(p.steps)
    && (p.allOk <==> p.state.Completed? && forall i :: 0 <= i < |p.steps| ==> !Bad(p.steps[i]))
  }

  ghost predicate Polled(s: Sys) {
    && (forall i :: 0 <= i < |s.polls| ==> Consistent(s.polls[i]) && Follows(s.polls[i], Answer(s)))
    && (forall i, j :: 0 <= i < j < |s.polls| ==> Follows(s.polls[i], s.polls[j]))
  }

  lemma {:induction false} NoFailuresMeansNoBad(rows: seq<Row>)
    ensures Failures(rows) == 0 <==> forall i :: 0 <= i < |rows| ==> !Bad(rows[i])
  {
    if rows != [] {
      var init := rows[..|rows| - 1];
      NoFailuresMeansNoBad(init);
      assert forall i :: 0 <= i < |init| ==> rows[i] == init[i];
    }
  }

  lemma FollowsTransitive(p: Poll, q: Poll, r: Poll)
    requires Follows(p, q) && Follows(q, r)
    ensures Follows(p, r)
  {
  }

  lemma StepPolls(s: Sys, a: Action)
    ensures Step(s, a).polls == s.polls || Step(s, a).polls == s.polls + [Answer(s)]
  {
  }

  lemma PolledOn(ps: seq<Poll>, now: Poll, qs: seq<Poll>, next: Poll)
    requires forall i :: 0 <= i < |ps| ==> Consistent(ps[i]) && Follows(ps[i], now)
    requires forall i, j :: 0 <= i < j < |ps| ==> Follows(ps[i], ps[j])
    requires Follows(now, next) && Consistent(now) && (qs == ps || qs == ps + [now])
    ensures forall i :: 0 <= i < |qs| ==> Consistent(qs[i]) && Follows(qs[i], next)
    ensures forall i, j :: 0 <= i < j < |qs| ==> Follows(qs[i], qs[j])
  {
    forall i | 0 <= i < |ps| ensures Follows(ps[i], next) {
      FollowsTransitive(ps[i], now, next);
    }
  }

  lemma {:induction false} PolledStep(s: Sys, a: Action, o: Option<Actor>)
    requires Owned(s, o) && Mirrored(s) && Polled(s)
    ensures Polled(Step(s, a))
  {
    NoFailuresMeansNoBad(s.snapshot);
    StepPolls(s, a);
    PolledOn(s.polls, Answer(s), Step(s, a).polls, Answer(Step(s, a)));
  }

  /** Over every interleaving, status answers are consistent and follow each other. */
  lemma {:induction false} RunPolled(run: seq<Action>)
    ensures Polled(After(run))
  {
    if run != [] {
      RunOwned(run[..|run| - 1]);
      RunMirrored(run[..|run| - 1]);
      RunPolled(run[..|run| - 1]);
      PolledStep(After(run[..|run| - 1]), run[|run| - 1], Owner(run[..|run| - 1]));
    }
  }

  // --- Joining workers ---

  /** Who holds the right to join a worker: the call that created it, the manager,
      a later start, the k-th join already made, shutdown_free, or nobody any more. */
  datatype Place = WithCreator(i: nat) | InHandle | WithStarter(i: nat) | JoinedAt(k: nat) | WithFree | Lost

  ghost predicate Placed(s: Sys, places: seq<Place>) {
    && |places| == |s.workers|
    && (forall w :: 0 <= w < |places| ==> At(s, w, places[w]))
    && (forall i :: 0 <= i < |s.starters| && s.starters[i].Created? ==>
          Has(places, s.starters[i].worker, WithCreator(i)))
    && (forall i :: 0 <= i < |s.starters| && s.starters[i].Guarded? && s.starters[i].prior.Some? ==>
          Has(places, s.starters[i].prior.value, WithStarter(i)))
    && (s.handle.Some? ==> Has(places, s.handle.value, InHandle))
    && (forall k :: 0 <= k < |s.joins| ==> Has(places, s.joins[k], JoinedAt(k)))
    && (s.freeing.Waiting? && s.freeing.prior.Some? ==> Has(places, s.freeing.prior.value, WithFree))
  }

  ghost predicate Has(places: seq<Place>, w: nat, p: Place) { w < |places| && places[w] == p }

  ghost predicate At(s: Sys, w: nat, p: Place) {
    match p
    case WithCreator(i) => i < |s.starters| && s.starters[i] == Created(w)
    case InHandle => s.handle == Some(w)
    case WithStarter(i) => i < |s.starters| && s.starters[i] == Guarded(Some(w))
    case JoinedAt(k) => k < |s.joins| && s.joins[k] == w
    case WithFree => s.freeing == Waiting(Some(w))
    case Lost => true
  }

  ghost function Put(places: seq<Place>, w: Option<nat>, p: Place): (r: seq<Place>)
    ensures |r| == |places|
    ensures forall v :: 0 <= v < |places| ==> r[v] == if w == Some(v) then p else places[v]
  {
    if w.Some? && w.value < |places| then places[w.value := p] else places
  }

  ghost function NextPlaces(s: Sys, a: Action, places: seq<Place>): seq<Place> {
    if !Can(s, a) then places
    else match a
      case Start(_) => if s.state.Running? then places else Put(places, s.handle, WithStarter(|s.starters|))
      case Join(i) => Put(places, s.starters[i].prior, JoinedAt(|s.joins|))
      case Create(i, ok) => if ok then places + [WithCreator(i)] else places
      case Publish(i) => Put(Put(places, s.handle, Lost), Some(s.starters[i].worker), InHandle)
      case Free => Put(places, s.handle, WithFree)
      case FreeJoin => Put(places, s.freeing.prior, JoinedAt(|s.joins|))
      case _ => places
  }

  lemma {:induction false} StartPlaced(s: Sys, a: Action, places: seq<Place>)
    requires Placed(s, places) && Can(s, a) && a.Start?
    ensures Placed(Do(s, a), NextPlaces(s, a, places))
  {
  }

  lemma {:induction false} JoinPlaced(s: Sys, a: Action, places: seq<Place>)
    requires Placed(s, places) && Can(s, a) && a.Join?
    ensures Placed(Do(s, a), NextPlaces(s, a, places))
  {
  }

  lemma {:induction false} CreatePlaced(s: Sys, a: Action, places: seq<Place>)
    requires Placed(s, places) && Can(s, a) && (a.Create? || a.GiveUp?)
    ensures Placed(Do(s, a), NextPlaces(s, a, places))
  {
  }

  lemma {:induction false} PublishPlaced(s: Sys, a: Action, places: seq<Place>)
    requires Placed(s, places) && Can(s, a) && a.Publish?
    ensures Placed(Do(s, a), NextPlaces(s, a, places))
  {
  }

  lemma FreePlaced(s: Sys, a: Action, places: seq<Place>)
    requires Placed(s, places) && Can(s, a) && (a.Free? || a.FreeJoin?)
    ensures Placed(Do(s, a), NextPlaces(s, a, places))
  {
  }

  lemma {:induction false} WorkerPlaced(s: Sys, a: Action, places: seq<Place>)
    requires Placed(s, places) && Can(s, a) && ByWorker(a)
    ensures Placed(Do(s, a), NextPlaces(s, a, places))
  {
  }

  lemma {:induction false} PlacedStep(s: Sys, a: Action, places: seq<Place>)
    requires Placed(s, places)
    ensures Placed(Step(s, a), NextPlaces(s, a, places))
  {
    if Can(s, a) {
      match a {
        case Start(_) => StartPlaced(s, a, places);
        case Join(_) => JoinPlaced(s, a, places);
        case Create(_, _) => CreatePlaced(s, a, places);
        case GiveUp(_) => CreatePlaced(s, a, places);
        case Publish(_) => PublishPlaced(s, a, places);
        case Free => FreePlaced(s, a, places);
        case FreeJoin => FreePlaced(s, a, places);
        case _ => WorkerPlaced(s, a, places);
      }
    }
  }

  ghost function Places(run: seq<Action>): seq<Place> {
    if run == [] then [] else NextPlaces(After(run[..|run| - 1]), run[|run| - 1], Places(run[..|run| - 1]))
  }

  lemma {:induction false} RunPlaced(run: seq<Action>)
    ensures Placed(After(run), Places(run))
  {
    if run != [] {
      RunPlaced(run[..|run| - 1]);
      PlacedStep(After(run[..|run| - 1]), run[|run| - 1], Places(run[..|run| - 1]));
    }
  }

  /** No worker is joined twice, however starts overlap. */
  lemma JoinedAtMostOnce(run: seq<Action>, i: nat, j: nat)
    requires i < j < |After(run).joins|
    ensures After(run).joins[i] != After(run).joins[j]
  {
    RunPlaced(run);
  }

  /** Nobody has joined worker w and nobody ever will. */
  predicate Leaked(s: Sys, w: nat) {
    && w < |s.workers| && w !in s.joins && s.handle != Some(w) && s.freeing != Waiting(Some(w))
    && forall i :: 0 <= i < |s.starters| ==> s.starters[i] != Created(w) && s.starters[i] != Guarded(Some(w))
  }

  ghost predicate HasLost(places: seq<Place>) { exists w: nat :: Has(places, w, Lost) }

  lemma LeakedIsLost(s: Sys, places: seq<Place>, w: nat)
    requires Placed(s, places)
    ensures Leaked(s, w) <==> Has(places, w, Lost)
  {
    if w < |places| { assert At(s, w, places[w]); }
  }

  /** A worker handle is published over one that is still valid. */
  predicate Overwrites(s: Sys, a: Action) { a.Publish? && Can(s, a) && s.handle.Some? }

  predicate Overwritten(run: seq<Action>) {
    run != [] && (Overwritten(run[..|run| - 1]) || Overwrites(After(run[..|run| - 1]), run[|run| - 1]))
  }

  lemma LostStep(s: Sys, a: Action, places: seq<Place>)
    requires Placed(s, places)
    ensures HasLost(NextPlaces(s, a, places)) <==> HasLost(places) || Overwrites(s, a)
  {
    var next := NextPlaces(s, a, places);
    if HasLost(places) {
      var w: nat :| Has(places, w, Lost);
      assert Has(next, w, Lost);
    }
    if Overwrites(s, a) { assert Has(next, s.handle.value, Lost); }
    if HasLost(next) && !Overwrites(s, a) {
      var w: nat :| Has(next, w, Lost);
      assert Has(places, w, Lost);
    }
  }

  lemma {:induction false} LostExactlyWhenOverwritten(run: seq<Action>)
    ensures HasLost(Places(run)) <==> Overwritten(run)
  {
    if run != [] {
      var init := run[..|run| - 1];
      LostExactlyWhenOverwritten(init);
      RunPlaced(init);
      LostStep(After(init), run[|run| - 1], Places(init));
    }
  }

  /** A worker is leaked exactly when some call published its handle over a valid one. */
  lemma LeakExactlyWhenOverwritten(run: seq<Action>)
    ensures (exists w: nat :: Leaked(After(run), w)) <==> Overwritten(run)
  {
    RunPlaced(run);
    LostExactlyWhenOverwritten(run);
    forall w: nat ensures Leaked(After(run), w) <==> Has(Places(run), w, Lost) {
      LeakedIsLost(After(run), Places(run), w);
    }
  }

  // --- Serialised starts ---

  /** Every start is called after all earlier ones have returned. */
  predicate Serialised(run: seq<Action>) {
    run != [] ==>
      && Serialised(run[..|run| - 1])
      && (run[|run| - 1].Start? ==> AllReturned(After(run[..|run| - 1])))
  }

  /** Only the latest call can be under way, and while it is there is no handle;
      once shutdown_free has begun there is neither. */
  ghost predicate OneCall(s: Sys) {
    && (forall i :: 0 <= i < |s.starters| - 1 ==> s.starters[i].Returned?)
    && (s.starters != [] && !s.starters[|s.starters| - 1].Returned? ==> s.handle.None?)
  }

  lemma OneCallStep(s: Sys, a: Action)
    requires OneCall(s) && (a.Start? ==> AllReturned(s))
    ensures OneCall(Step(s, a)) && !Overwrites(s, a)
  {
  }

  /** With serialised starts no handle is ever overwritten, so no worker is leaked. */
  lemma {:induction false} SerialisedNeverOverwrites(run: seq<Action>)
    requires Serialised(run)
    ensures OneCall(After(run)) && !Overwritten(run)
  {
    if run != [] {
      SerialisedNeverOverwrites(run[..|run| - 1]);
      OneCallStep(After(run[..|run| - 1]), run[|run| - 1]);
    }
  }

  /** Only exited workers are joined, and nothing is under way after shutdown_free began. */
  ghost predicate Tidy(s: Sys) {
    && (forall k :: 0 <= k < |s.joins| ==> s.joins[k] < |s.workers| && s.workers[s.joins[k]].Exited?)
    && (!s.freeing.InUse? ==> AllReturned(s) && s.handle.None?)
  }

  lemma {:induction false} TidyStep(s: Sys, a: Action)
    requires Tidy(s)
    ensures Tidy(Step(s, a))
  {
  }

  lemma {:induction false} RunTidy(run: seq<Action>)
    ensures Tidy(After(run))
  {
    if run != [] {
      RunTidy(run[..|run| - 1]);
      TidyStep(After(run[..|run| - 1]), run[|run| - 1]);
    }
  }

  /** When shutdown_free returns, every worker has been joined, so has exited,
      exactly when no handle was overwritten. */
  lemma {:induction false} FreeJoinsAllExactlyWhenNotOverwritten(run: seq<Action>)
    requires After(run).freeing.Freed?
    ensures (forall w :: 0 <= w < |After(run).workers| ==> w in After(run).joins) <==> !Overwritten(run)
    ensures !Overwritten(run) ==> forall w :: 0 <= w < |After(run).workers| ==> After(run).workers[w].Exited?
  {
    var s, places := After(run), Places(run);
    RunPlaced(run);
    RunTidy(run);
    LostExactlyWhenOverwritten(run);
    forall w | 0 <= w < |s.workers| ensures w in s.joins <==> !Has(places, w, Lost) {
      assert At(s, w, places[w]);
      LeakedIsLost(s, places, w);
    }
    if !Overwritten(run) {
      forall w | 0 <= w < |s.workers| ensures s.workers[w].Exited? {
        assert !Has(places, w, Lost);
        var k :| 0 <= k < |s.joins| && s.joins[k] == w;
      }
    }
  }

  lemma AfterSnoc(run: seq<Action>, a: Action)
    ensures After(run + [a]) == Step(After(run), a)
    ensures Overwritten(run + [a]) <==> Overwritten(run) || Overwrites(After(run), a)
  {
    assert (run + [a])[..|run|] == run;
  }

  lemma AfterTwo(run: seq<Action>, a: Action, b: Action)
    ensures After(run + [a, b]) == Step(Step(After(run), a), b)
  {
    AfterSnoc(run, a);
    AfterSnoc(run + [a], b);
    assert run + [a] + [b] == run + [a, b];
  }

  /** The first call is past its join. */
  const JOINED: Sys := Sys(Running, 1, false, [], 0, None, [Joined], [], InUse, [false], [], [])

  /** A second call is past its join; the first worker has exited, its handle unpublished. */
  const OVERLAP: Sys := Sys(Running, 2, false, [], 0, None, [Created(0), Joined], [Exited], InUse,
                            [false, false], [], [])

  lemma FirstWorkerEnds() returns (run: seq<Action>)
    ensures After(run) == JOINED.(state := Completed, starters := [Created(0)], workers := [Exited])
  {
    AfterTwo([], Start(false), Join(0));
    run := [] + [Start(false), Join(0)];
    assert After(run) == JOINED;
    AfterTwo(run, Create(0, true), ReadMode(0));
    run := run + [Create(0, true), ReadMode(0)];
    assert After(run) == JOINED.(starters := [Created(0)], workers := [Body(false, [], false)]);
    AfterTwo(run, Finish(0), Exit(0));
    run := run + [Finish(0), Exit(0)];
  }

  lemma SecondCallStarts() returns (run: seq<Action>)
    ensures After(run) == OVERLAP
  {
    run := FirstWorkerEnds();
    AfterTwo(run, Start(false), Join(1));
    run := run + [Start(false), Join(1)];
  }

  /** Two overlapping calls: the first worker ends before its handle is published,
      a second start finds nothing to join, and its handle replaces the first. */
  lemma OverlappingStartsLeak()
    ensures exists run :: After(run).state.Running? && Leaked(After(run), 0)
  {
    var run := SecondCallStarts();
    AfterTwo(run, Create(1, true), Publish(0));
    run := run + [Create(1, true), Publish(0)];
    assert After(run) == OVERLAP.(starters := [Returned, Created(1)], workers := [Exited, Spawned], handle := Some(0));
    AfterSnoc(run, Publish(1));
    run := run + [Publish(1)];
    assert After(run) == OVERLAP.(starters := [Returned, Returned], workers := [Exited, Spawned], handle := Some(1));
    assert Leaked(After(run), 0);
  }

  // --- In place ---

  /** The manager's fields guarded by the state lock.  Each method is one region
      held under the lock; `s` is the system it runs in, and the fields move as
      the corresponding step says. */
  class Manager {
    var state: Status
    var workflowId: nat
    var activeDryRun: bool
    var snapshot: Accumulator?
    var current: Option<(Phase, string)>
    var worker: nat
    var workerStarted: bool

    ghost predicate Agrees(s: Sys)
      reads this, snapshot
    {
      && state == s.state && workflowId == s.id && activeDryRun == s.dryRun
      && s.handle == (if workerStarted then Some(worker) else None)
      && (snapshot == null ==> s.snapshot == [] && s.nFailed == 0)
      && (snapshot != null ==> snapshot.Valid() && snapshot.steps == s.snapshot && snapshot.nFailed == s.nFailed)
      && (s.state.Running? ==> snapshot != null)
      && current == if s.snapshot == [] then None
                    else Some((s.snapshot[|s.snapshot| - 1].phase, s.snapshot[|s.snapshot| - 1].target))
    }

    constructor ()
      ensures Agrees(BOOT)
    {
      state, workflowId, activeDryRun, snapshot := Idle, 0, false, null;
      current, worker, workerStarted := None, 0, false;
    }

    /** The guard of shutdown_start_async: refused with the running id, or taken
        with a new id and the previous worker's handle to join. */
    method StartRegion(dryRun: bool, ghost s: Sys) returns (accepted: bool, id: nat, prior: Option<nat>)
      requires Agrees(s) && Can(s, Start(dryRun))
      modifies this
      ensures Agrees(Do(s, Start(dryRun)))
      ensures accepted <==> !s.state.Running?
      ensures id == if accepted then s.id + 1 else s.id
      ensures Do(s, Start(dryRun)).starters == s.starters + [if accepted then Guarded(prior) else Returned]
    {
      if state == Running { return false, workflowId, None; }
      prior := if workerStarted then Some(worker) else None;
      workerStarted := false;
      snapshot := new Accumulator();
      state, activeDryRun, workflowId := Running, dryRun, workflowId + 1;
      current := None;
      accepted, id := true, workflowId;
    }

    method GiveUpRegion(ghost s: Sys, ghost i: nat)
      requires Agrees(s) && Can(s, GiveUp(i))
      modifies this
      ensures Agrees(Do(s, GiveUp(i)))
    {
      state := Idle;
    }

    method PublishRegion(newWorker: nat, ghost s: Sys, ghost i: nat)
      requires Agrees(s) && Can(s, Publish(i)) && s.starters[i] == Created(newWorker)
      modifies this
      ensures Agrees(Do(s, Publish(i)))
    {
      worker, workerStarted := newWorker, true;
    }

    method ReadModeRegion(ghost s: Sys, ghost w: nat) returns (dryRun: bool)
      requires Agrees(s) && Can(s, ReadMode(w))
      ensures Do(s, ReadMode(w)).workers[w] == Body(dryRun, [], false)
      ensures Agrees(Do(s, ReadMode(w)))
    {
      dryRun := activeDryRun;
    }

    /** The second half of result_append. */
    method MirrorRegion(row: Row, ghost s: Sys, ghost w: nat)
      requires Agrees(s) && Can(s, Mirror(w))
      requires s.workers[w].acc != [] && row == s.workers[w].acc[|s.workers[w].acc| - 1]
      modifies this, snapshot
      ensures Agrees(Do(s, Mirror(w)))
    {
      if state == Running && snapshot != null {
        FailuresSnoc(snapshot.steps, row);
        snapshot.Append(row.phase, row.target, row.verdict);
        current := Some((row.phase, row.target));
      }
    }

    method FinishRegion(ghost s: Sys, ghost w: nat)
      requires Agrees(s) && Can(s, Finish(w))
      modifies this
      ensures Agrees(Do(s, Finish(w)))
    {
      state := Completed;
    }

    method GetStatus(ghost s: Sys) returns (p: Poll, now: Option<(Phase, string)>)
      requires Agrees(s)
      ensures p == Answer(s)
      ensures now.Some? <==> p.steps != []
      ensures p.steps != [] ==> now == Some((p.steps[|p.steps| - 1].phase, p.steps[|p.steps| - 1].target))
    {
      var steps, nFailed := [], 0;
      if snapshot != null && |snapshot.steps| > 0 { steps, nFailed := snapshot.steps, snapshot.nFailed; }
      p := Poll(state, workflowId, steps, nFailed, state == Completed && nFailed == 0);
      now := current;
    }

    method FreeRegion(ghost s: Sys) returns (prior: Option<nat>)
      requires Agrees(s) && Can(s, Free)
      modifies this
      ensures Agrees(Do(s, Free)) && Do(s, Free).freeing == Waiting(prior)
    {
      prior := if workerStarted then Some(worker) else None;
      workerStarted := false;
    }
  }
}
