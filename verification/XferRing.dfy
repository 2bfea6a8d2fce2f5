/** The transfer-reason ring (src/monitor/xfer_ring.c): an in-place ring of the
    last 16 transitions, scanned in slot order for the latest relevant cause. */
module XferRing {
  const RING_SIZE: nat := 16
  const ACCEPTABLE_INPUT: nat := 8
  const UNKNOWN_REASON: nat := 0xFFFF

  datatype Entry = Entry(timestamp: nat, reason: nat)

  predicate Relevant(e: Entry, cutoff: nat) {
    e.timestamp >= cutoff && e.reason != ACCEPTABLE_INPUT
  }

  function Cutoff(now: nat, lookback: nat): nat { if now > lookback then now - lookback else 0 }

  function WindowStart(h: seq<Entry>): nat { if |h| > RING_SIZE then |h| - RING_SIZE else 0 }

  /** The question the ring answers, asked of the history: the reason of the
      newest relevant transition from position `from` on. */
  function NewestCause(h: seq<Entry>, from: nat, cutoff: nat): nat {
    if |h| <= from then UNKNOWN_REASON
    else if Relevant(h[|h| - 1], cutoff) then h[|h| - 1].reason
    else NewestCause(h[..|h| - 1], from, cutoff)
  }

  /** What one reading adds to the history: only changes are recorded. */
  function Record(h: seq<Entry>, e: Entry): seq<Entry> {
    if h != [] && h[|h| - 1].reason == e.reason then h else h + [e]
  }

  ghost predicate AdjacentDiffer(h: seq<Entry>) {
    forall i :: 0 <= i < |h| - 1 ==> h[i].reason != h[i + 1].reason
  }

  ghost predicate Increasing(h: seq<Entry>) {
    && (forall i :: 0 <= i < |h| ==> h[i].timestamp > 0)
    && forall i, j :: 0 <= i < j < |h| ==> h[i].timestamp < h[j].timestamp
  }

  function History(readings: seq<Entry>): seq<Entry> {
    if readings == [] then [] else Record(History(readings[..|readings| - 1]), readings[|readings| - 1])
  }

  /** Over any readings, neighbours in the recorded history differ. */
  lemma {:induction false} RecordedTransitionsDiffer(readings: seq<Entry>)
    ensures AdjacentDiffer(History(readings))
  {
    if readings != [] { RecordedTransitionsDiffer(readings[..|readings| - 1]); }
  }

  /** The readings whose reason is not that of the reading before. */
  function Changes(readings: seq<Entry>): seq<Entry> {
    if readings == [] then []
    else
      var n := |readings| - 1;
      Changes(readings[..n]) + if n == 0 || readings[n - 1].reason != readings[n].reason then [readings[n]] else []
  }

  /** The history is exactly the changes among all readings, each with its own time. */
  lemma {:induction false} HistoryIsTheChanges(readings: seq<Entry>)
    ensures History(readings) == Changes(readings)
    ensures readings != [] ==>
              var h := History(readings); h != [] && h[|h| - 1].reason == readings[|readings| - 1].reason
  {
    if readings != [] {
      var n := |readings| - 1;
      HistoryIsTheChanges(readings[..n]);
      assert History(readings[..n]) + [] == History(readings[..n]);
    }
  }

  /** A transition within the lookback that is not back to acceptable input. */
  predicate Counts(e: Entry, now: nat, lookback: nat) { e.timestamp + lookback >= now && e.reason != 8 }

  /** Entry j counts and no later one does. */
  ghost predicate LastToCount(h: seq<Entry>, now: nat, lookback: nat, j: int) {
    0 <= j < |h| && Counts(h[j], now, lookback) && forall k :: j < k < |h| ==> !Counts(h[k], now, lookback)
  }

  ghost predicate NoneCounts(h: seq<Entry>, now: nat, lookback: nat, from: int) {
    forall k :: 0 <= k < |h| && from <= k ==> !Counts(h[k], now, lookback)
  }

  /** The reason of the newest transition from position `from` on that counts, or
      unknown if none of them does. */
  ghost predicate IsCauseFrom(h: seq<Entry>, now: nat, lookback: nat, from: int, cause: nat) {
    || (exists j :: from <= j && LastToCount(h, now, lookback, j) && cause == h[j].reason)
    || (cause == 0xFFFF && NoneCounts(h, now, lookback, from))
  }

  /** What the ring answers: the cause among the last 16 transitions. */
  ghost predicate IsCause(h: seq<Entry>, now: nat, lookback: nat, cause: nat) {
    IsCauseFrom(h, now, lookback, |h| - 16, cause)
  }

  lemma CauseSnoc(h: seq<Entry>, e: Entry, now: nat, lookback: nat, from: nat, cause: nat)
    requires IsCauseFrom(h, now, lookback, from, cause) && !Counts(e, now, lookback)
    ensures IsCauseFrom(h + [e], now, lookback, from, cause)
  {
    if j :| from <= j && LastToCount(h, now, lookback, j) && cause == h[j].reason {
      assert LastToCount(h + [e], now, lookback, j);
    }
  }

  lemma {:induction false} NewestIsCause(h: seq<Entry>, from: nat, now: nat, lookback: nat)
    requires from <= |h|
    ensures IsCauseFrom(h, now, lookback, from, NewestCause(h, from, Cutoff(now, lookback)))
  {
    if from < |h| {
      var init, e := h[..|h| - 1], h[|h| - 1];
      assert Relevant(e, Cutoff(now, lookback)) <==> Counts(e, now, lookback);
      assert h == init + [e];
      if Counts(e, now, lookback) {
        assert LastToCount(h, now, lookback, |h| - 1);
      } else {
        NewestIsCause(init, from, now, lookback);
        CauseSnoc(init, e, now, lookback, from, NewestCause(h, from, Cutoff(now, lookback)));
      }
    }
  }

  lemma CauseIsNewest(h: seq<Entry>, now: nat, lookback: nat)
    ensures IsCause(h, now, lookback, NewestCause(h, WindowStart(h), Cutoff(now, lookback)))
  {
    NewestIsCause(h, WindowStart(h), now, lookback);
  }

  /** The history position stored in a slot. */
  function PositionOf(n: nat, slot: nat): nat
    requires slot < RING_SIZE && (n <= RING_SIZE ==> slot < n)
  {
    if n <= RING_SIZE then slot else n - RING_SIZE + (slot + RING_SIZE - n % RING_SIZE) % RING_SIZE
  }

  lemma PositionInWindow(n: nat, slot: nat)
    requires slot < RING_SIZE && (n <= RING_SIZE ==> slot < n)
    ensures var j := PositionOf(n, slot);
            j % RING_SIZE == slot && j < n && n <= j + RING_SIZE
  {}

  /** The newest relevant entry is the relevant one with the largest timestamp. */
  lemma {:induction false} LargestIsNewest(h: seq<Entry>, from: nat, cutoff: nat, best: nat)
    requires Increasing(h) && from <= best < |h| && Relevant(h[best], cutoff)
    requires forall j :: from <= j < |h| && Relevant(h[j], cutoff) ==> h[j].timestamp <= h[best].timestamp
    ensures NewestCause(h, from, cutoff) == h[best].reason
  {
    var last := |h| - 1;
    if best != last {
      assert h[best].timestamp < h[last].timestamp;
      LargestIsNewest(h[..last], from, cutoff, best);
    }
  }

  lemma NoneIsUnknown(h: seq<Entry>, from: nat, cutoff: nat)
    requires forall j :: from <= j < |h| ==> !Relevant(h[j], cutoff)
    ensures NewestCause(h, from, cutoff) == UNKNOWN_REASON
  {
    if |h| > from { NoneIsUnknown(h[..|h| - 1], from, cutoff); }
  }

  /** The slots hold the window of the history, each entry at its position modulo the size. */
  ghost predicate Holds(slots: seq<Entry>, h: seq<Entry>) {
    && |slots| == RING_SIZE
    && forall j :: WindowStart(h) <= j < |h| ==> slots[j % RING_SIZE] == h[j]
  }

  lemma HoldsOneMore(slots: seq<Entry>, h: seq<Entry>, e: Entry)
    requires Holds(slots, h)
    ensures Holds(slots[|h| % RING_SIZE := e], h + [e])
  {
    forall j | WindowStart(h + [e]) <= j < |h| ensures j % RING_SIZE != |h| % RING_SIZE {}
  }

  lemma NextSlot(n: nat)
    ensures (n % RING_SIZE + 1) % RING_SIZE == (n + 1) % RING_SIZE
  {
  }

  class Ring {
    const entries: array<Entry>
    var head: nat
    var count: nat
    var lastSeen: nat
    var lastSeenValid: bool
    ghost var history: seq<Entry>

    ghost predicate Valid()
      reads this, entries
    {
      && Stored()
      && (lastSeenValid <==> history != [])
      && (lastSeenValid ==> lastSeen == history[|history| - 1].reason)
    }

    ghost predicate Stored()
      reads `head, `count, `history, entries
    {
      && entries.Length == RING_SIZE
      && head == |history| % RING_SIZE
      && count == (if |history| < RING_SIZE then |history| else RING_SIZE)
      && Holds(entries[..], history)
    }

    constructor ()
      ensures Valid() && history == [] && fresh(entries)
    {
      entries := new Entry[RING_SIZE](_ => Entry(0, 0));
      head, count, lastSeen, lastSeenValid, history := 0, 0, 0, false, [];
      new;
      assert Holds(entries[..], []);
    }

    method Store(e: Entry)
      requires Stored()
      modifies `head, `count, `history, entries
      ensures Stored() && history == old(history) + [e]
    {
      ghost var slots := entries[..];
      HoldsOneMore(slots, history, e);
      NextSlot(|history|);
      entries[head] := e;
      assert entries[..] == slots[head := e];
      head := (head + 1) % RING_SIZE;
      if count < RING_SIZE { count := count + 1; }
      history := history + [e];
    }

    method Push(now: nat, reason: nat) returns (recorded: bool)
      requires Valid()
      modifies this, entries
      ensures Valid() && history == Record(old(history), Entry(now, reason))
      ensures recorded <==> history != old(history)
    {
      if lastSeenValid && reason == lastSeen { return false; }
      Store(Entry(now, reason));
      lastSeen := reason;
      lastSeenValid := true;
      recorded := true;
    }

    /** The scan over the slots answers the question about the history, however
        often the ring has wrapped. */
    method RecentCause(now: nat, lookback: nat) returns (cause: nat)
      requires Valid() && Increasing(history)
      ensures cause == NewestCause(history, WindowStart(history), Cutoff(now, lookback))
      ensures IsCause(history, now, lookback, cause)
    {
      var cutoff := if now > lookback then now - lookback else 0;
      cause := UNKNOWN_REASON;
      var bestTs := 0;
      var from, n := WindowStart(history), |history|;
      ghost var best := -1;
      for i := 0 to count
        invariant best == -1 ==> cause == UNKNOWN_REASON && bestTs == 0
        invariant best != -1 ==> from <= best < n && Relevant(history[best], cutoff)
                                 && cause == history[best].reason && bestTs == history[best].timestamp
        invariant forall k: nat :: k < i ==>
                    Relevant(entries[k], cutoff) ==> best != -1 && entries[k].timestamp <= bestTs
      {
        var e := entries[i];
        PositionInWindow(n, i);
        if e.timestamp >= cutoff && e.reason != ACCEPTABLE_INPUT && e.timestamp > bestTs {
          cause, bestTs := e.reason, e.timestamp;
          best := PositionOf(n, i);
        }
      }
      forall j | from <= j < n && Relevant(history[j], cutoff)
        ensures best != -1 && history[j].timestamp <= bestTs
      {
        assert entries[..][j % RING_SIZE] == history[j];
      }
      if best == -1 {
        NoneIsUnknown(history, from, cutoff);
      } else {
        LargestIsNewest(history, from, cutoff, best);
      }
      CauseIsNewest(history, now, lookback);
    }
  }
}
