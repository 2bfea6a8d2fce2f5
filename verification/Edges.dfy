/** Edge detection: one event per change of a flag. */
module Edges {
  function Edge<T>(prev: bool, now: bool, on: T, off: T): seq<T> {
    if now && !prev then [on] else if !now && prev then [off] else []
  }

  function Final(start: bool, flags: seq<bool>): bool {
    if flags == [] then start else flags[|flags| - 1]
  }

  /** All events of a run of flag values. */
  function EdgeLog<T>(start: bool, flags: seq<bool>, on: T, off: T): seq<T> {
    if flags == [] then []
    else EdgeLog(start, flags[..|flags| - 1], on, off)
         + Edge(Final(start, flags[..|flags| - 1]), flags[|flags| - 1], on, off)
  }

  lemma EdgeLogSnoc<T>(start: bool, flags: seq<bool>, x: bool, on: T, off: T)
    ensures EdgeLog(start, flags + [x], on, off)
            == EdgeLog(start, flags, on, off) + Edge(Final(start, flags), x, on, off)
    ensures Final(start, flags + [x]) == x
  {
    assert (flags + [x])[..|flags|] == flags;
  }

  /** The events alternate, beginning with the one that leaves the start value,
      and their number says whether the flag now differs from it: replaying them
      gives the current flag. */
  ghost predicate AlternatesTo<T>(log: seq<T>, start: bool, now: bool, on: T, off: T) {
    && (forall i :: 0 <= i < |log| ==> log[i] == if (i % 2 == 0) == start then off else on)
    && (|log| % 2 == 1 <==> start != now)
  }

  lemma {:induction false} EdgesAlternate<T>(start: bool, flags: seq<bool>, on: T, off: T)
    ensures AlternatesTo(EdgeLog(start, flags, on, off), start, Final(start, flags), on, off)
  {
    if flags != [] {
      EdgesAlternate(start, flags[..|flags| - 1], on, off);
    }
  }

  /** The events of one flag within a log. */
  function Only<T(==)>(log: seq<T>, on: T, off: T): seq<T> {
    if log == [] then []
    else
      var x := log[|log| - 1];
      Only(log[..|log| - 1], on, off) + if x == on || x == off then [x] else []
  }

  lemma {:induction false} OnlyAppend<T>(a: seq<T>, b: seq<T>, on: T, off: T)
    ensures Only(a + b, on, off) == Only(a, on, off) + Only(b, on, off)
  {
    if b == [] {
      assert a + b == a;
    } else {
      assert (a + b)[..|a + b| - 1] == a + b[..|b| - 1];
      OnlyAppend(a, b[..|b| - 1], on, off);
    }
  }

  lemma {:induction false} OnlyNone<T>(log: seq<T>, on: T, off: T)
    requires forall i :: 0 <= i < |log| ==> log[i] != on && log[i] != off
    ensures Only(log, on, off) == []
  {
    if log != [] { OnlyNone(log[..|log| - 1], on, off); }
  }

  lemma OnlySameEdge<T>(p: bool, n: bool, on: T, off: T)
    ensures Only(Edge(p, n, on, off), on, off) == Edge(p, n, on, off)
  {
    if p != n {
      var x := if n then on else off;
      assert [x][..0] == [];
    }
  }

  lemma OnlyFour<T>(a: seq<T>, b: seq<T>, c: seq<T>, d: seq<T>, on: T, off: T)
    ensures Only(a + b + c + d, on, off) == Only(a, on, off) + Only(b, on, off) + Only(c, on, off) + Only(d, on, off)
  {
    OnlyAppend(a + b + c, d, on, off);
    OnlyAppend(a + b, c, on, off);
    OnlyAppend(a, b, on, off);
  }
}
