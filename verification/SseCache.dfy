/** How stale the cached state frame can be (src/api/sse.c:200-217, 290-301): a
    caching emission broadcasts and swaps the cache in two locked regions, so
    others can come between.  The daemon has one caching thread, the monitor
    (src/api/routes/routes.c:246, src/daemon/main.c:316). */
module SseCache {
  import opened Options
  import opened SseWire
  import opened SseBus
  import opened SseOrder

  /** The newest caching emission. */
  function Newest(w: World): Option<nat> { LastBut(w.states, 0) }

  function LastBut(xs: seq<nat>, n: nat): Option<nat> {
    if |xs| <= n then None else Some(xs[|xs| - 1 - n])
  }

  predicate Emits(w: World, a: Act) { a.EmitState? && a.emitter !in w.pending }

  predicate Swaps(w: World, a: Act) { a.Swap? && a.emitter in w.pending && w.pending[a.emitter] < |w.log| }

  /** When the newest caching emission was swapped in, no other was in flight. */
  predicate NewestAlone(acts: seq<Act>) {
    acts != [] &&
    var w, a := After(acts[..|acts| - 1]), acts[|acts| - 1];
    if Emits(w, a) then false
    else if Swaps(w, a) && Some(w.pending[a.emitter]) == Newest(w) then w.pending.Keys == {a.emitter}
    else NewestAlone(acts[..|acts| - 1])
  }

  /** Emissions in flight are distinct, and none is newer than the newest. */
  ghost predicate Distinct(w: World) {
    && (forall d, e :: d in w.pending && e in w.pending && w.pending[d] == w.pending[e] ==> d == e)
    && (w.pending != map[] ==> w.states != [])
    && (forall e :: e in w.pending ==> w.pending[e] < |w.log|)
    && (forall i :: 0 <= i < |w.states| ==> w.states[i] < |w.log|)
    && (w.cachedAt.Some? ==> w.states != [])
  }

  ghost predicate InFlight(w: World) {
    exists e :: e in w.pending && Some(w.pending[e]) == Newest(w)
  }

  /** While the newest is in flight nothing is decided; afterwards it is cached
      for good, with nothing left in flight, exactly when it was swapped in alone. */
  ghost predicate CacheTells(w: World, alone: bool) {
    && Distinct(w)
    && (InFlight(w) ==> !alone)
    && (!InFlight(w) ==> (w.states != [] && w.pending == map[] && w.cachedAt == Newest(w) <==> alone))
  }

  lemma EmitTells(w: World, a: Act, alone: bool)
    requires CacheTells(w, alone) && Emits(w, a)
    ensures CacheTells(Do(w, a), false)
  {
    var w' := Do(w, a);
    assert w'.pending[a.emitter] == |w.log| && w'.states == w.states + [|w.log|];
    assert InFlight(w');
  }

  lemma SwapNewestTells(w: World, a: Act, alone: bool)
    requires CacheTells(w, alone) && Swaps(w, a) && Some(w.pending[a.emitter]) == Newest(w)
    ensures CacheTells(Do(w, a), w.pending.Keys == {a.emitter})
  {
    var w' := Do(w, a);
    assert w'.pending == w.pending - {a.emitter} && w'.states == w.states;
    assert !InFlight(w');
    assert w'.pending == map[] <==> w'.pending.Keys == {};
    assert w'.pending.Keys == w.pending.Keys - {a.emitter};
  }

  lemma SwapOlderTells(w: World, a: Act, alone: bool)
    requires CacheTells(w, alone) && Swaps(w, a) && Some(w.pending[a.emitter]) != Newest(w)
    ensures CacheTells(Do(w, a), alone)
  {
    var w' := Do(w, a);
    assert w'.states == w.states && a.emitter in w.pending;
    if InFlight(w) {
      var e :| e in w.pending && Some(w.pending[e]) == Newest(w);
      assert e in w'.pending && w'.pending[e] == w.pending[e];
    } else {
      assert forall e :: e in w'.pending ==> e in w.pending && w'.pending[e] == w.pending[e];
    }
  }

  lemma OtherTells(w: World, a: Act, alone: bool)
    requires CacheTells(w, alone) && !Emits(w, a) && !Swaps(w, a)
    ensures CacheTells(Do(w, a), alone)
  {
    var w' := Do(w, a);
    assert w'.pending == w.pending && w'.states == w.states && w'.cachedAt == w.cachedAt;
  }

  lemma {:induction false} RunTells(acts: seq<Act>)
    ensures CacheTells(After(acts), NewestAlone(acts))
  {
    if acts != [] {
      var init, a := acts[..|acts| - 1], acts[|acts| - 1];
      var w := After(init);
      RunTells(init);
      if Emits(w, a) {
        EmitTells(w, a, NewestAlone(init));
      } else if !Swaps(w, a) {
        OtherTells(w, a, NewestAlone(init));
      } else if Some(w.pending[a.emitter]) == Newest(w) {
        SwapNewestTells(w, a, NewestAlone(init));
      } else {
        SwapOlderTells(w, a, NewestAlone(init));
      }
    }
  }

  /** Over every interleaving of any number of caching threads: once nothing is in
      flight, the cache holds the newest state exactly when no other emission was
      in flight at the moment the newest was swapped in. */
  lemma {:induction false} CacheIsNewestExactlyWhenAlone(acts: seq<Act>)
    requires After(acts).pending == map[] && After(acts).states != []
    ensures After(acts).cachedAt == Newest(After(acts)) <==> NewestAlone(acts)
  {
    RunTells(acts);
  }

  // --- One emission at a time ---

  /** No caching emission begins while another is in flight. */
  predicate OneAtATime(acts: seq<Act>) {
    acts != [] ==>
      && OneAtATime(acts[..|acts| - 1])
      && (Emits(After(acts[..|acts| - 1]), acts[|acts| - 1]) ==> After(acts[..|acts| - 1]).pending == map[])
  }

  ghost predicate SoleEmitter(acts: seq<Act>) {
    forall i :: 0 <= i < |acts| && acts[i].EmitState? ==> acts[i].emitter == 0
  }

  /** One caching thread, like the daemon's, emits one at a time. */
  lemma {:induction false} SoleEmitterIsOneAtATime(acts: seq<Act>)
    requires SoleEmitter(acts)
    ensures OneAtATime(acts) && After(acts).pending.Keys <= {0}
  {
    if acts != [] {
      var init := acts[..|acts| - 1];
      SoleEmitterIsOneAtATime(init);
      assert After(init).pending.Keys == {} <==> After(init).pending == map[];
    }
  }

  /** The cache holds the newest state emission, or the one before it while the
      newest is between its two locked halves. */
  ghost predicate CacheFresh(w: World) {
    && (w.pending == map[] ==> w.cachedAt == Newest(w))
    && (w.pending != map[] ==>
          && w.cachedAt == LastBut(w.states, 1)
          && exists e :: w.pending.Keys == {e} && Some(w.pending[e]) == Newest(w))
  }

  lemma FreshStep(w: World, a: Act)
    requires Distinct(w) && CacheFresh(w) && (Emits(w, a) ==> w.pending == map[])
    ensures CacheFresh(Do(w, a))
  {
    var w' := Do(w, a);
    if Emits(w, a) {
      assert w'.states == w.states + [|w.log|] && w'.pending == map[a.emitter := |w.log|];
      assert w'.pending.Keys == {a.emitter};
    } else if Swaps(w, a) {
      assert w.pending.Keys == {a.emitter};
      assert w'.pending.Keys == {} && w'.pending == map[];
    } else {
      assert w'.pending == w.pending && w'.states == w.states && w'.cachedAt == w.cachedAt;
    }
  }

  lemma {:induction false} CacheStaysFresh(acts: seq<Act>)
    requires OneAtATime(acts)
    ensures CacheFresh(After(acts))
  {
    if acts != [] {
      var init := acts[..|acts| - 1];
      CacheStaysFresh(init);
      RunTells(init);
      FreshStep(After(init), acts[|acts| - 1]);
    }
  }

  /** So whoever joins is primed with the newest state emission, or with the one
      before it exactly when the newest is still in flight. */
  lemma {:induction false} PrimingLag(acts: seq<Act>, k: nat)
    requires OneAtATime(acts) && Seated(After(acts), k).None? && Seated(After(acts + [Join]), k).Some?
    ensures var w := After(acts);
            Seated(After(acts + [Join]), k).value.prime == LastBut(w.states, if w.pending == map[] then 0 else 1)
  {
    CacheStaysFresh(acts);
    AfterSnoc(acts, Join);
  }

  /** With two caching threads an older state can settle in the cache for good:
      nothing is in flight and the newest state is not the cached one. */
  lemma TwoEmittersGoStale(m: Message, n: Message)
    ensures var w := After([EmitState(0, m), EmitState(1, n), Swap(1), Swap(0)]);
            w.pending == map[] && w.states == [0, 1] && w.cachedAt == Some(0)
  {
    var a1, a2, a3, a4 := EmitState(0, m), EmitState(1, n), Swap(1), Swap(0);
    AfterSnoc([], a1);
    AfterSnoc([a1], a2);
    AfterSnoc([a1, a2], a3);
    AfterSnoc([a1, a2, a3], a4);
    assert [] + [a1] == [a1] && [a1] + [a2] == [a1, a2] && [a1, a2] + [a3] == [a1, a2, a3];
    assert [a1, a2, a3] + [a4] == [a1, a2, a3, a4];
    assert After([a1, a2]).states == [0, 1];
  }
}
