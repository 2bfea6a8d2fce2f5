/** What the client makes of a subscriber's whole stream, torn frames included
    (src/api/sse.c:55-72, 96-101, 331-387). */
module SseClient {
  import opened SseQueue
  import opened SseStream
  import opened SseWire

  // --- The client in the middle of a stream ---

  /** Every unfinished line began as the first or second line of a frame. */
  ghost predicate Midway(c: Client) {
    !c.afterCr && c.lastId == "" && (c.line != "" ==> c.line[0] == 'e' || c.line[0] == 'd')
  }

  function Kind(kind: string): string { if kind == "" then "message" else kind }

  /** A begun line that already names one of the two fields. */
  predicate Speaks(line: string) {
    Colon(line) < |line| && (FieldName(line) == "event" || FieldName(line) == "data")
  }

  /** What is begun does not spoil the next frame: no data is buffered, and the
      begun line is empty, or is ignored while the type in force is the right one. */
  predicate Unharmed(c: Client, m: Message) {
    c.data == "" && (c.line == "" || (!Speaks(c.line) && Kind(c.kind) == Kind(m.kind)))
  }

  lemma ColonAppend(line: string, more: string)
    ensures Colon(line) < |line| ==> Colon(line + more) == Colon(line)
    ensures Colon(line) == |line| ==> Colon(line + more) == |line| + Colon(more)
  {
    if line == "" {
      assert line + more == more;
    } else {
      assert (line + more)[1..] == line[1..] + more;
      if line[0] != ':' { ColonAppend(line[1..], more); }
    }
  }

  lemma NameAppend(line: string, more: string)
    requires Colon(line) < |line|
    ensures FieldName(line + more) == FieldName(line) && Colon(line + more) == Colon(line)
  {
    ColonAppend(line, more);
    assert (line + more)[..Colon(line)] == line[..Colon(line)];
  }

  lemma TailGrows(line: string, more: string, from: nat)
    requires from <= |line|
    ensures (line + more)[from..] == line[from..] + more
  {
  }

  /** Where the value begins behind the colon at k. */
  function ValueAt(line: string, k: nat): nat { if k + 1 < |line| && line[k + 1] == ' ' then k + 2 else k + 1 }

  lemma ValueIs(line: string, k: nat)
    requires k == Colon(line) < |line|
    ensures ValueAt(line, k) <= |line| && FieldValue(line) == line[ValueAt(line, k)..]
  {
  }

  lemma ValueAtSame(line: string, more: string, k: nat)
    requires k < |line| && more != "" && more[0] != ' '
    ensures ValueAt(line + more, k) == ValueAt(line, k)
  {
    if k + 1 < |line| { assert (line + more)[k + 1] == line[k + 1]; } else { assert (line + more)[k + 1] == more[0]; }
  }

  /** The value of a line begun with its colon grows by what is appended. */
  lemma {:induction false} ValueGrows(line: string, more: string)
    requires Colon(line) < |line| && more != "" && more[0] != ' '
    ensures FieldValue(line + more) == FieldValue(line) + more
  {
    var k := Colon(line);
    NameAppend(line, more);
    ValueIs(line, k);
    ValueIs(line + more, k);
    ValueAtSame(line, more, k);
    TailGrows(line, more, ValueAt(line, k));
  }

  lemma FirstLineShape(m: Message)
    ensures Colon(FirstLine(m)) == 5 && FirstLine(m)[0] == 'e' && |FirstLine(m)| == 7 + |m.kind|
    ensures m.kind == "" ==> FirstLine(m)[|FirstLine(m)| - 1] == ' '
    ensures FirstLine(m)[..5] == "event"
  {
    var line := FirstLine(m);
    assert line[..7] == "event: ";
    assert line[5] == ':' && line[..5] == "event";
    assert forall i :: 0 <= i < 5 ==> line[i] == "event"[i];
    ColonIs(line, 5);
  }

  /** A begun line without a colon makes the first line an unknown field. */
  lemma NamedSilent(c: Client, m: Message)
    requires Midway(c) && c.line != "" && Colon(c.line) == |c.line|
    ensures Named(c, m) == c.(line := "")
  {
    FirstLineShape(m);
    ColonAppend(c.line, FirstLine(m));
    var all := c.line + FirstLine(m);
    assert FieldName(all) == all[..|c.line| + 5] == c.line + "event";
    assert all[0] == c.line[0] && all != "";
    LongName(c.line);
  }

  lemma LongName(line: string)
    requires line != "" && (line[0] == 'e' || line[0] == 'd')
    ensures line + "event" != "event" && line + "event" != "data" && line + "event" != "id"
  {
    assert |line + "event"| >= 6;
  }

  /** One that names another field is ignored too. */
  lemma NamedOther(c: Client, m: Message)
    requires Midway(c) && Colon(c.line) < |c.line| && !Speaks(c.line)
    ensures Named(c, m) == c.(line := "")
  {
    FirstLineShape(m);
    NameAppend(c.line, FirstLine(m));
    var all := c.line + FirstLine(m);
    assert all[0] == c.line[0] && all != "";
    assert Colon(c.line) > 0 && FieldName(c.line)[0] == c.line[0];
  }

  /** One that names a field takes the whole first line as part of its value. */
  lemma NamedSpeaks(c: Client, m: Message)
    requires Midway(c) && Speaks(c.line)
    ensures var d := Named(c, m);
            && d.line == "" && d.events == c.events && !d.afterCr && d.lastId == ""
            && (FieldName(c.line) == "event" ==> d.data == c.data && d.kind == FieldValue(c.line) + FirstLine(m))
            && (FieldName(c.line) == "data" ==> |d.data| > |c.data|)
  {
    FirstLineShape(m);
    NameAppend(c.line, FirstLine(m));
    ValueGrows(c.line, FirstLine(m));
    var all := c.line + FirstLine(m);
    assert all[0] == c.line[0] && all != "";
  }

  lemma NamedIsMidway(c: Client, m: Message)
    requires Midway(c)
    ensures var d := Named(c, m); d.line == "" && !d.afterCr && d.events == c.events && d.lastId == ""
  {
    if c.line == "" {
      NamedReady(c, m);
    } else if Speaks(c.line) {
      NamedSpeaks(c, m);
    } else if Colon(c.line) == |c.line| {
      NamedSilent(c, m);
    } else {
      NamedOther(c, m);
    }
  }

  /** The event of the next frame is the right one exactly when nothing begun spoils it. */
  lemma RightExactlyWhenUnharmed(c: Client, m: Message)
    requires Midway(c)
    ensures EventAfter(c, m) == EventOf(m) <==> Unharmed(c, m)
  {
    var d := Named(c, m);
    NamedIsMidway(c, m);
    DataOnly(d.data, m.payload);
    if c.line == "" {
      NamedReady(c, m);
    } else if Speaks(c.line) {
      NamedSpeaks(c, m);
      LongKind(FieldValue(c.line), m);
    } else if Colon(c.line) == |c.line| {
      NamedSilent(c, m);
    } else {
      NamedOther(c, m);
    }
  }

  lemma DataOnly(data: string, payload: string)
    ensures data + payload == payload <==> data == ""
  {
    if data != "" { assert |data + payload| > |payload|; }
  }

  lemma LongKind(begun: string, m: Message)
    ensures Kind(begun + FirstLine(m)) != Kind(m.kind)
  {
    FirstLineShape(m);
    var kind := begun + FirstLine(m);
    assert kind[|kind| - 1] == FirstLine(m)[|FirstLine(m)| - 1];
    if m.kind == "" { assert "message"[6] == 'e'; }
  }

  /** A whole frame dispatches exactly one event. */
  lemma WholeFrame(c: Client, m: Message)
    requires Midway(c) && Clean(m)
    ensures var d := FeedAll(c, FormatFrame(m));
            Ready(d) && d.events == c.events + [EventAfter(c, m)]
  {
    NamedIsMidway(c, m);
    FeedFrame(c, m);
  }

  // --- A torn frame ---

  lemma FeedPart(c: Client, t: string, k: nat)
    requires OneLine(t) && !c.afterCr && k <= |t|
    ensures FeedAll(c, t[..k]) == c.(line := c.line + t[..k])
  {
    FeedText(c, t[..k]);
  }

  lemma CutShape(m: Message, k: nat)
    requires k < |FormatFrame(m)|
    ensures k <= 7 + |m.kind| ==> FormatFrame(m)[..k] == FirstLine(m)[..k]
    ensures 8 + |m.kind| <= k < |FormatFrame(m)| - 1 ==>
              FormatFrame(m)[..k] == (FirstLine(m) + "\n") + SecondLine(m)[..k - 8 - |m.kind|]
    ensures k == |FormatFrame(m)| - 1 ==> FormatFrame(m)[..k] == AllButLast(m)
  {
    FrameShape(m);
    var f, one, two := FormatFrame(m), FirstLine(m) + "\n", SecondLine(m) + "\n";
    assert f == one + (two + "\n");
    if 8 + |m.kind| <= k < |f| - 1 {
      assert f[..k] == one + (two + "\n")[..k - |one|];
    }
  }

  /** What is begun after the first k bytes of a frame. */
  function Cut(c: Client, m: Message, k: nat): Client
    requires k < 16 + |m.kind| + |m.payload|
  {
    var d := Named(c, m);
    if k <= 7 + |m.kind| then c.(line := c.line + FirstLine(m)[..k])
    else if k < 15 + |m.kind| + |m.payload| then d.(line := SecondLine(m)[..k - 8 - |m.kind|])
    else d.(data := d.data + m.payload + "\n")
  }

  lemma FeedSecondPart(c: Client, m: Message, j: nat)
    requires Midway(c) && Clean(m) && j <= |SecondLine(m)|
    ensures FeedAll(c, (FirstLine(m) + "\n") + SecondLine(m)[..j]) == Named(c, m).(line := SecondLine(m)[..j])
  {
    NamedIsMidway(c, m);
    FeedAppend(c, FirstLine(m) + "\n", SecondLine(m)[..j]);
    FeedFirst(c, m);
    FeedPart(Named(c, m), SecondLine(m), j);
    assert Named(c, m).line + SecondLine(m)[..j] == SecondLine(m)[..j];
  }

  lemma FeedCut(c: Client, m: Message, k: nat)
    requires Midway(c) && Clean(m) && k < |FormatFrame(m)|
    ensures k < 16 + |m.kind| + |m.payload| && FeedAll(c, FormatFrame(m)[..k]) == Cut(c, m, k)
  {
    FrameShape(m);
    CutShape(m, k);
    if k <= 7 + |m.kind| {
      assert OneLine(FirstLine(m));
      FeedPart(c, FirstLine(m), k);
    } else if k < |FormatFrame(m)| - 1 {
      FeedSecondPart(c, m, k - 8 - |m.kind|);
    } else {
      NamedIsMidway(c, m);
      FeedHeader(c, m);
    }
  }

  /** A frame cut anywhere short of its end dispatches nothing. */
  lemma {:induction false} PrefixIsSilent(c: Client, m: Message, k: nat)
    requires Midway(c) && Clean(m) && k < |FormatFrame(m)|
    ensures var d := FeedAll(c, FormatFrame(m)[..k]); Midway(d) && d.events == c.events
  {
    FrameShape(m);
    FeedCut(c, m, k);
    NamedIsMidway(c, m);
    assert SecondLine(m)[0] == 'd';
    FirstLineShape(m);
  }

  /** Where a frame `a` may be cut without spoiling the frame `b` that follows. */
  predicate HarmlessBefore(a: Message, b: Message, k: nat) {
    || k == 0
    || k == 8 + |a.kind|
    || (1 <= k <= 5 && Kind(b.kind) == "message")
    || (9 + |a.kind| <= k <= 12 + |a.kind| && Kind(a.kind) == Kind(b.kind))
  }

  lemma FirstPartSpeaks(m: Message, k: nat)
    requires 1 <= k <= 7 + |m.kind|
    ensures FirstLine(m)[..k] != "" && (Speaks(FirstLine(m)[..k]) <==> k >= 6)
  {
    FirstLineShape(m);
    var t := FirstLine(m)[..k];
    if k >= 6 {
      assert t[5] == ':' && forall i :: 0 <= i < 5 ==> t[i] == FirstLine(m)[i];
      ColonIs(t, 5);
      assert t[..5] == FirstLine(m)[..5];
    } else {
      assert forall i :: 0 <= i < k ==> t[i] == FirstLine(m)[i];
    }
  }

  lemma SecondPartSpeaks(m: Message, k: nat)
    requires 1 <= k <= |SecondLine(m)|
    ensures SecondLine(m)[..k] != "" && (Speaks(SecondLine(m)[..k]) <==> k >= 5)
  {
    var line := SecondLine(m);
    assert line[..6] == "data: ";
    assert line[4] == ':' && line[..4] == "data";
    assert forall i :: 0 <= i < 4 ==> line[i] == "data"[i];
    var t := line[..k];
    assert forall i :: 0 <= i < k ==> t[i] == line[i];
    if k >= 5 {
      ColonIs(t, 4);
      assert t[..4] == line[..4];
    }
  }

  /** Exactly these cuts of a frame leave the next one unharmed. */
  lemma HarmlessExactly(c: Client, a: Message, b: Message, k: nat)
    requires Ready(c) && k < 16 + |a.kind| + |a.payload|
    ensures Unharmed(Cut(c, a, k), b) <==> HarmlessBefore(a, b, k)
  {
    NamedReady(c, a);
    if k == 0 {
      assert FirstLine(a)[..0] == "";
    } else if k <= 7 + |a.kind| {
      FirstPartSpeaks(a, k);
      assert c.line + FirstLine(a)[..k] == FirstLine(a)[..k];
    } else if 8 + |a.kind| < k < 15 + |a.kind| + |a.payload| {
      SecondPartSpeaks(a, k - 8 - |a.kind|);
    }
  }

  /** A cut after the first line is harmless before every next message, and so is
      none at all; no other cut is. */
  lemma HarmlessBeforeAll(a: Message, k: nat)
    ensures (forall b :: Clean(b) ==> HarmlessBefore(a, b, k)) <==> k == 0 || k == 8 + |a.kind|
  {
    var b := Message(if a.kind == "x" then "y" else "x", "");
    assert Clean(b);
    assert Kind(b.kind) != "message" && Kind(b.kind) != Kind(a.kind);
  }

  // --- Whole streams ---

  function Formatted(ms: seq<Message>): (r: seq<string>)
    ensures |r| == |ms| && forall i :: 0 <= i < |ms| ==> r[i] == FormatFrame(ms[i])
  {
    seq(|ms|, i requires 0 <= i < |ms| => FormatFrame(ms[i]))
  }

  predicate AllClean(ms: seq<Message>) { forall i :: 0 <= i < |ms| ==> Clean(ms[i]) }

  /** The events of the frames read to their end; `ms` are the messages behind the pieces. */
  function ReadEvents(ps: seq<Piece>, ms: seq<Message>): seq<Event>
    requires |Sources(ps)| == |ms|
  {
    if ps == [] then []
    else
      var p := ps[|ps| - 1];
      if p.Beat? then ReadEvents(ps[..|ps| - 1], ms)
      else ReadEvents(ps[..|ps| - 1], ms[..|ms| - 1]) + if p.dropped then [] else [EventOf(ms[|ms| - 1])]
  }

  /** At every frame read to its end, what the client had begun by then is harmless to it. */
  ghost predicate AllUnharmed(ps: seq<Piece>, ms: seq<Message>)
    requires |Sources(ps)| == |ms|
  {
    ps == [] ||
    var init, p := ps[..|ps| - 1], ps[|ps| - 1];
    if p.Beat? then AllUnharmed(init, ms)
    else
      && AllUnharmed(init, ms[..|ms| - 1])
      && (!p.dropped ==> Unharmed(FeedAll(NEW_CLIENT, Render(init)), ms[|ms| - 1]))
  }

  /** A dropped frame was not read to its end. */
  ghost predicate CutShort(ps: seq<Piece>) {
    forall i :: 0 <= i < |ps| && ps[i].Part? && ps[i].dropped ==> ps[i].cut < |ps[i].data| || ps[i].cut == 0
  }

  lemma {:induction false} AccountCutShort(ls: seq<Label>)
    ensures CutShort(Account(ls))
  {
    if ls != [] { AccountCutShort(ls[..|ls| - 1]); }
  }

  ghost predicate Exact(ps: seq<Piece>, ms: seq<Message>, c: Client)
    requires |Sources(ps)| == |ms|
  {
    && Midway(c) && (OnBoundary(ps) ==> Ready(c))
    && |c.events| == |ReadEvents(ps, ms)|
    && (c.events == ReadEvents(ps, ms) <==> AllUnharmed(ps, ms))
  }

  lemma {:induction false} BeatExact(ps: seq<Piece>, ms: seq<Message>, c: Client)
    requires |Sources(ps)| == |ms| && Exact(ps, ms, c) && OnBoundary(ps) && c == FeedAll(NEW_CLIENT, Render(ps))
    ensures |Sources(ps + [Beat])| == |ms| && Exact(ps + [Beat], ms, FeedAll(c, HEARTBEAT))
  {
    ExtendCounts(ps, Beat);
    BeatIsSilent(c);
    assert (ps + [Beat])[..|ps|] == ps;
  }

  lemma {:induction false} CutExact(ps: seq<Piece>, ms: seq<Message>, c: Client, m: Message, k: nat)
    requires |Sources(ps)| == |ms| && Exact(ps, ms, c) && c == FeedAll(NEW_CLIENT, Render(ps))
    requires Clean(m) && k < |FormatFrame(m)|
    ensures var p := Part(FormatFrame(m), k, true);
            |Sources(ps + [p])| == |ms + [m]| && Exact(ps + [p], ms + [m], FeedAll(c, FormatFrame(m)[..k]))
  {
    var p := Part(FormatFrame(m), k, true);
    ExtendCounts(ps, p);
    PrefixIsSilent(c, m, k);
    assert (ps + [p])[..|ps|] == ps && (ms + [m])[..|ms|] == ms;
    if k == 0 { assert FormatFrame(m)[..0] == ""; }
  }

  lemma {:induction false} WholeExact(ps: seq<Piece>, ms: seq<Message>, c: Client, m: Message)
    requires |Sources(ps)| == |ms| && Exact(ps, ms, c) && c == FeedAll(NEW_CLIENT, Render(ps)) && Clean(m)
    ensures var p := Part(FormatFrame(m), |FormatFrame(m)|, false);
            |Sources(ps + [p])| == |ms + [m]| && Exact(ps + [p], ms + [m], FeedAll(c, FormatFrame(m)))
  {
    var p := Part(FormatFrame(m), |FormatFrame(m)|, false);
    ExtendCounts(ps, p);
    WholeFrame(c, m);
    RightExactlyWhenUnharmed(c, m);
    assert (ps + [p])[..|ps|] == ps && (ms + [m])[..|ms|] == ms;
    SameEnds(c.events, EventAfter(c, m), ReadEvents(ps, ms), EventOf(m));
  }

  lemma SameEnds<T>(a: seq<T>, x: T, b: seq<T>, y: T)
    requires |a| == |b|
    ensures a + [x] == b + [y] <==> a == b && x == y
  {
    if a + [x] == b + [y] {
      assert a == (a + [x])[..|a|] && b == (b + [y])[..|b|];
      assert x == (a + [x])[|a|] && y == (b + [y])[|b|];
    }
  }

  /** The pieces of clean messages: each whole or cut short, heartbeats between frames. */
  ghost predicate WellCut(ps: seq<Piece>, ms: seq<Message>) {
    if ps == [] then ms == []
    else
      var init, p := ps[..|ps| - 1], ps[|ps| - 1];
      if p.Beat? then OnBoundary(init) && WellCut(init, ms)
      else ms != [] && PieceOf(p, ms[|ms| - 1]) && WellCut(init, ms[..|ms| - 1])
  }

  ghost predicate PieceOf(p: Piece, m: Message) {
    && p.Part? && p.data == FormatFrame(m) && Clean(m)
    && if p.dropped then p.cut < |p.data| else p.cut == |p.data|
  }

  lemma {:induction false} PieceExact(ps: seq<Piece>, ms: seq<Message>, c: Client, p: Piece, m: Message)
    requires |Sources(ps)| == |ms| && Exact(ps, ms, c) && c == FeedAll(NEW_CLIENT, Render(ps)) && PieceOf(p, m)
    ensures |Sources(ps + [p])| == |ms + [m]| && Exact(ps + [p], ms + [m], FeedAll(c, Text(p)))
  {
    if p.dropped {
      CutExact(ps, ms, c, m, p.cut);
    } else {
      assert p.data[..p.cut] == p.data;
      WholeExact(ps, ms, c, m);
    }
  }

  ghost predicate ExactFor(ps: seq<Piece>, ms: seq<Message>) {
    |Sources(ps)| == |ms| && Exact(ps, ms, FeedAll(NEW_CLIENT, Render(ps)))
  }

  lemma {:induction false} BeatCase(init: seq<Piece>, ms: seq<Message>)
    requires ExactFor(init, ms) && OnBoundary(init)
    ensures ExactFor(init + [Beat], ms)
  {
    BeatExact(init, ms, FeedAll(NEW_CLIENT, Render(init)));
    FeedAppend(NEW_CLIENT, Render(init), HEARTBEAT);
    ExtendText(init, Beat);
  }

  lemma {:induction false} PartCase(init: seq<Piece>, ms: seq<Message>, p: Piece, m: Message)
    requires ExactFor(init, ms) && PieceOf(p, m)
    ensures ExactFor(init + [p], ms + [m])
  {
    PieceExact(init, ms, FeedAll(NEW_CLIENT, Render(init)), p, m);
    FeedAppend(NEW_CLIENT, Render(init), Text(p));
    ExtendText(init, p);
  }

  /** Induction over accounts, for any property of pieces and their messages. */
  lemma {:induction false} PieceInduction(P: (seq<Piece>, seq<Message>) -> bool, ps: seq<Piece>, ms: seq<Message>)
    requires WellCut(ps, ms) && P([], [])
    requires forall a, b :: P(a, b) && OnBoundary(a) ==> P(a + [Beat], b)
    requires forall a, b, p, m :: P(a, b) && PieceOf(p, m) ==> P(a + [p], b + [m])
    ensures P(ps, ms)
  {
    if ps != [] {
      var init, p := ps[..|ps| - 1], ps[|ps| - 1];
      assert ps == init + [p];
      if p.Beat? {
        PieceInduction(P, init, ms);
      } else {
        var before, m := ms[..|ms| - 1], ms[|ms| - 1];
        PieceInduction(P, init, before);
        assert P(init, before) && PieceOf(p, m);
        assert ms == before + [m];
      }
    }
  }

  lemma {:induction false} PiecesExact(ps: seq<Piece>, ms: seq<Message>)
    requires WellCut(ps, ms)
    ensures ExactFor(ps, ms)
  {
    assert FeedAll(NEW_CLIENT, "") == NEW_CLIENT;
    forall a, b | ExactFor(a, b) && OnBoundary(a) ensures ExactFor(a + [Beat], b) { BeatCase(a, b); }
    forall a, b, p, m | ExactFor(a, b) && PieceOf(p, m) ensures ExactFor(a + [p], b + [m]) { PartCase(a, b, p, m); }
    PieceInduction((a, b) => ExactFor(a, b), ps, ms);
  }

  lemma LastSource(init: seq<Piece>, p: Piece, ms: seq<Message>)
    requires p.Part? && Sources(init + [p]) == Formatted(ms)
    ensures ms != [] && Sources(init) == Formatted(ms[..|ms| - 1]) && p.data == FormatFrame(ms[|ms| - 1])
  {
    ExtendCounts(init, p);
    var n := |Sources(init)|;
    assert Sources(init) == Formatted(ms)[..n] == Formatted(ms[..n]);
    assert p.data == Formatted(ms)[n];
  }

  lemma InitOk(ps: seq<Piece>)
    requires ps != [] && AllGood(ps) && CutShort(ps) && BeatsOnBoundaries(ps)
    ensures AllGood(ps[..|ps| - 1]) && CutShort(ps[..|ps| - 1]) && BeatsOnBoundaries(ps[..|ps| - 1])
    ensures ps[|ps| - 1].Beat? ==> OnBoundary(ps[..|ps| - 1])
  {
    var init := ps[..|ps| - 1];
    forall i | 0 <= i < |init| && init[i].Beat? ensures OnBoundary(init[..i]) {
      assert init[..i] == ps[..i];
    }
  }

  lemma {:induction false} AccountsAreWellCut(ps: seq<Piece>, ms: seq<Message>)
    requires AllGood(ps) && CutShort(ps) && BeatsOnBoundaries(ps) && Sources(ps) == Formatted(ms) && AllClean(ms)
    ensures WellCut(ps, ms)
  {
    if ps != [] {
      var init, p := ps[..|ps| - 1], ps[|ps| - 1];
      InitOk(ps);
      assert ps == init + [p];
      if p.Beat? {
        ExtendCounts(init, p);
        AccountsAreWellCut(init, ms);
      } else {
        LastSource(init, p, ms);
        FrameShape(ms[|ms| - 1]);
        AccountsAreWellCut(init, ms[..|ms| - 1]);
      }
    }
  }

  lemma {:induction false} AccountFacts(ls: seq<Label>)
    ensures AllGood(Account(ls)) && BeatsOnBoundaries(Account(ls)) && CutShort(Account(ls))
    ensures Sources(Account(ls)) + Queued(Run(ls).0.q.frames) == Accepted(ls)
    ensures Wire(Run(ls).1) == Render(Account(ls)) + Begun(Run(ls).0.q)
  {
    StreamExplained(ls);
    AccountCutShort(ls);
  }

  lemma PrefixFormatted(a: seq<string>, rest: seq<string>, ms: seq<Message>)
    requires a + rest == Formatted(ms)
    ensures |a| <= |ms| && a == Formatted(ms[..|a|])
    ensures rest != [] ==> |a| < |ms| && rest[0] == FormatFrame(ms[|a|])
  {
    assert a == Formatted(ms)[..|a|] == Formatted(ms[..|a|]);
    if rest != [] { assert rest[0] == Formatted(ms)[|a|]; }
  }

  lemma {:induction false} RunIsWellCut(ls: seq<Label>, ms: seq<Message>)
    requires Accepted(ls) == Formatted(ms) && AllClean(ms)
    ensures |Sources(Account(ls))| <= |ms| && WellCut(Account(ls), ms[..|Sources(Account(ls))|])
  {
    AccountFacts(ls);
    PrefixFormatted(Sources(Account(ls)), Queued(Run(ls).0.q.frames), ms);
    AccountsAreWellCut(Account(ls), ms[..|Sources(Account(ls))|]);
  }

  /** The head that is only begun dispatches nothing. */
  lemma HeadIsSilent(ls: seq<Label>, ms: seq<Message>, c: Client)
    requires Accepted(ls) == Formatted(ms) && AllClean(ms) && Midway(c)
    ensures FeedAll(c, Begun(Run(ls).0.q)).events == c.events
  {
    var q := Run(ls).0.q;
    AccountFacts(ls);
    PrefixFormatted(Sources(Account(ls)), Queued(q.frames), ms);
    if q.frames != [] {
      var m := ms[|Sources(Account(ls))|];
      assert q.frames[0].data == Queued(q.frames)[0] == FormatFrame(m);
      FrameShape(m);
      PrefixIsSilent(c, m, q.frames[0].pos);
    }
  }

  /** Over every run the client has seen exactly one event per frame it read to the
      end, and these are the right events, in order, exactly when at each of those
      frames what was left of torn ones is harmless to it. */
  lemma {:induction false} ClientSeesReadFramesExactly(ls: seq<Label>, ms: seq<Message>)
    requires Accepted(ls) == Formatted(ms) && AllClean(ms)
    ensures |Sources(Account(ls))| <= |ms|
    ensures var seen, events := ms[..|Sources(Account(ls))|], FeedAll(NEW_CLIENT, Wire(Run(ls).1)).events;
            && |events| == |ReadEvents(Account(ls), seen)|
            && (events == ReadEvents(Account(ls), seen) <==> AllUnharmed(Account(ls), seen))
  {
    var ps := Account(ls);
    RunIsWellCut(ls, ms);
    PiecesExact(ps, ms[..|Sources(ps)|]);
    AccountFacts(ls);
    FeedAppend(NEW_CLIENT, Render(ps), Begun(Run(ls).0.q));
    HeadIsSilent(ls, ms, FeedAll(NEW_CLIENT, Render(ps)));
  }

  // --- Cuts that are harmless whatever follows ---

  /** Before the frame, or just after its first line. */
  predicate AtLineEnd(data: string, k: nat) {
    k == 0 || (k <= |data| && data[k - 1] == '\n' && '\n' !in data[..k - 1])
  }

  lemma LineEndOfFrame(m: Message, k: nat)
    requires Clean(m) && k < |FormatFrame(m)|
    ensures AtLineEnd(FormatFrame(m), k) <==> k == 0 || k == 8 + |m.kind|
  {
    FrameShape(m);
    var f, n := FormatFrame(m), 7 + |m.kind|;
    assert f[..n] == FirstLine(m) && f[n] == '\n';
    assert '\n' !in FirstLine(m);
    if 0 < k <= n { assert f[k - 1] == f[..n][k - 1]; }
    if k > n + 1 { assert f[..k - 1][n] == '\n'; }
  }

  /** Overflows only drop a head of which the client has nothing, or exactly the first line. */
  predicate HarmlessCuts(ls: seq<Label>) {
    ls != [] ==>
      && HarmlessCuts(ls[..|ls| - 1])
      && var s := Run(ls[..|ls| - 1]).0;
      (Overflows(s, ls[|ls| - 1]) ==> AtLineEnd(s.q.frames[0].data, s.q.frames[0].pos))
  }

  ghost predicate CutsAtLines(ps: seq<Piece>) {
    forall i :: 0 <= i < |ps| && ps[i].Part? && ps[i].dropped ==> AtLineEnd(ps[i].data, ps[i].cut)
  }

  lemma {:induction false} HarmlessCutsAreAtLines(ls: seq<Label>)
    requires HarmlessCuts(ls)
    ensures CutsAtLines(Account(ls))
  {
    if ls != [] { HarmlessCutsAreAtLines(ls[..|ls| - 1]); }
  }

  ghost predicate Clear(c: Client) { Midway(c) && c.line == "" && c.data == "" }

  ghost predicate ClearFor(ps: seq<Piece>, ms: seq<Message>) {
    ExactFor(ps, ms) && (CutsAtLines(ps) ==> AllUnharmed(ps, ms) && Clear(FeedAll(NEW_CLIENT, Render(ps))))
  }

  lemma CutsAtLinesInit(ps: seq<Piece>, p: Piece)
    requires CutsAtLines(ps + [p])
    ensures CutsAtLines(ps) && (p.Part? && p.dropped ==> AtLineEnd(p.data, p.cut))
  {
    forall i | 0 <= i < |ps| && ps[i].Part? && ps[i].dropped ensures AtLineEnd(ps[i].data, ps[i].cut) {
      assert ps[i] == (ps + [p])[i];
    }
    assert (ps + [p])[|ps|] == p;
  }

  lemma UnharmedBeat(ps: seq<Piece>, ms: seq<Message>)
    requires |Sources(ps)| == |ms| && AllUnharmed(ps, ms)
    ensures |Sources(ps + [Beat])| == |ms| && AllUnharmed(ps + [Beat], ms)
  {
    ExtendCounts(ps, Beat);
    assert (ps + [Beat])[..|ps|] == ps;
  }

  lemma UnharmedPart(ps: seq<Piece>, ms: seq<Message>, p: Piece, m: Message)
    requires |Sources(ps)| == |ms| && AllUnharmed(ps, ms) && p.Part?
    requires !p.dropped ==> Unharmed(FeedAll(NEW_CLIENT, Render(ps)), m)
    ensures |Sources(ps + [p])| == |ms + [m]| && AllUnharmed(ps + [p], ms + [m])
  {
    ExtendCounts(ps, p);
    assert (ps + [p])[..|ps|] == ps && (ms + [m])[..|ms|] == ms;
  }

  lemma {:induction false} ClearBeat(ps: seq<Piece>, ms: seq<Message>)
    requires ClearFor(ps, ms) && OnBoundary(ps)
    ensures ClearFor(ps + [Beat], ms)
  {
    BeatCase(ps, ms);
    if CutsAtLines(ps + [Beat]) {
      CutsAtLinesInit(ps, Beat);
      UnharmedBeat(ps, ms);
      ExtendText(ps, Beat);
      FeedAppend(NEW_CLIENT, Render(ps), HEARTBEAT);
      BeatIsSilent(FeedAll(NEW_CLIENT, Render(ps)));
    }
  }

  lemma {:induction false} ClearPart(ps: seq<Piece>, ms: seq<Message>, p: Piece, m: Message)
    requires ClearFor(ps, ms) && PieceOf(p, m)
    ensures ClearFor(ps + [p], ms + [m])
  {
    PartCase(ps, ms, p, m);
    if CutsAtLines(ps + [p]) {
      CutsAtLinesInit(ps, p);
      UnharmedPart(ps, ms, p, m);
      ExtendText(ps, p);
      FeedAppend(NEW_CLIENT, Render(ps), Text(p));
      ClearText(FeedAll(NEW_CLIENT, Render(ps)), p, m);
    }
  }

  lemma {:induction false} ClearText(c: Client, p: Piece, m: Message)
    requires Clear(c) && PieceOf(p, m) && (p.dropped ==> AtLineEnd(p.data, p.cut))
    ensures Clear(FeedAll(c, Text(p)))
  {
    FrameShape(m);
    if p.dropped {
      LineEndOfFrame(m, p.cut);
      FeedCut(c, m, p.cut);
      NamedReady(c, m);
      assert FirstLine(m)[..0] == "" && SecondLine(m)[..0] == "";
    } else {
      assert p.data[..p.cut] == p.data;
      WholeFrame(c, m);
    }
  }

  lemma {:induction false} PiecesClear(ps: seq<Piece>, ms: seq<Message>)
    requires WellCut(ps, ms)
    ensures ClearFor(ps, ms)
  {
    assert FeedAll(NEW_CLIENT, "") == NEW_CLIENT;
    forall a, b | ClearFor(a, b) && OnBoundary(a) ensures ClearFor(a + [Beat], b) { ClearBeat(a, b); }
    forall a, b, p, m | ClearFor(a, b) && PieceOf(p, m) ensures ClearFor(a + [p], b + [m]) { ClearPart(a, b, p, m); }
    PieceInduction((a, b) => ClearFor(a, b), ps, ms);
  }

  /** At every moment of every run whose overflows only make harmless cuts, the
      client has seen exactly the events of the frames it read to the end, in order. */
  lemma {:induction false} ClientSeesReadFrames(ls: seq<Label>, ms: seq<Message>)
    requires HarmlessCuts(ls) && Accepted(ls) == Formatted(ms) && AllClean(ms)
    ensures |Sources(Account(ls))| <= |ms|
    ensures FeedAll(NEW_CLIENT, Wire(Run(ls).1)).events == ReadEvents(Account(ls), ms[..|Sources(Account(ls))|])
  {
    ClientSeesReadFramesExactly(ls, ms);
    HarmlessCutsAreAtLines(ls);
    RunIsWellCut(ls, ms);
    PiecesClear(Account(ls), ms[..|Sources(Account(ls))|]);
  }

  // --- Runs that lose a half-read frame ---

  function Fill(n: nat, f: string): (r: seq<Label>)
    ensures |r| == n && forall i :: 0 <= i < n ==> r[i] == Push(f)
  {
    seq(n, _ => Push(f))
  }

  lemma FillSnoc(pre: seq<Label>, n: nat, f: string)
    ensures pre + Fill(n, f) + [Push(f)] == pre + Fill(n + 1, f)
  {
  }

  lemma NothingMore(t: string)
    ensures t + "" == t
  {
  }

  lemma RunSnoc(ls: seq<Label>, l: Label)
    ensures var (s, outs) := Run(ls);
            var (s', out) := Step(s, l);
            Run(ls + [l]).0 == s' && Wire(Run(ls + [l]).1) == Wire(outs) + Emitted(out)
  {
    var outs, out := Run(ls).1, Step(Run(ls).0, l).1;
    assert (ls + [l])[..|ls|] == ls;
    assert Run(ls + [l]).1 == outs + [out];
    OutputSnoc(outs, out);
  }

  function Held(f: string, k: nat, g: string, n: nat): State {
    State(Queue([Frame(f, k)] + seq(n, _ => Frame(g, 0)), false), Idle)
  }

  lemma FirstPush(f: string)
    ensures var (s, outs) := Run([Push(f)]); s == State(Queue([Frame(f, 0)], false), Idle) && Wire(outs) == ""
  {
    RunSnoc([], Push(f));
    assert [] + [Push(f)] == [Push(f)];
    assert "" + "" == "";
  }

  lemma FirstRead(f: string, k: nat, g: string)
    requires 0 < k < |f|
    ensures Step(State(Queue([Frame(f, 0)], false), Idle), Call(k)) == (Held(f, k, g, 0), Data(f[..k]))
  {
    assert f[0..k] == f[..k];
    assert [Frame(f, 0)][0 := Frame(f, k)] == Held(f, k, g, 0).q.frames;
  }

  lemma HoldOne(f: string, k: nat, g: string)
    requires 0 < k < |f|
    ensures var (s, outs) := Run([Push(f), Call(k)]); s == Held(f, k, g, 0) && Wire(outs) == f[..k]
  {
    FirstPush(f);
    FirstRead(f, k, g);
    RunSnoc([Push(f)], Call(k));
    assert [Push(f)] + [Call(k)] == [Push(f), Call(k)] && "" + f[..k] == f[..k];
  }

  lemma HoldMore(f: string, k: nat, g: string, n: nat)
    requires 0 < k < |f| && n + 1 < QUEUE_DEPTH
    ensures Step(Held(f, k, g, n), Push(g)) == (Held(f, k, g, n + 1), Silent)
  {
    assert Held(f, k, g, n + 1).q.frames == Held(f, k, g, n).q.frames + [Frame(g, 0)];
  }

  lemma {:induction false} FillRun(f: string, k: nat, g: string, n: nat)
    requires 0 < k < |f| && n < QUEUE_DEPTH
    ensures var (s, outs) := Run([Push(f), Call(k)] + Fill(n, g));
            s == Held(f, k, g, n) && Wire(outs) == f[..k]
  {
    var pre := [Push(f), Call(k)];
    if n == 0 {
      HoldOne(f, k, g);
      assert pre + Fill(n, g) == pre;
    } else {
      FillRun(f, k, g, n - 1);
      HoldMore(f, k, g, n - 1);
      RunSnoc(pre + Fill(n - 1, g), Push(g));
      FillSnoc(pre, n - 1, g);
      NothingMore(f[..k]);
    }
  }

  lemma TornPush(f: string, k: nat, g: string)
    requires 0 < k < |f|
    ensures var full := State(Queue(seq(QUEUE_DEPTH, _ => Frame(g, 0)), false), Idle);
            Step(Held(f, k, g, QUEUE_DEPTH - 1), Push(g)) == (full, Silent)
  {
    assert Held(f, k, g, QUEUE_DEPTH - 1).q.frames[1..] + [Frame(g, 0)] == seq(QUEUE_DEPTH, _ => Frame(g, 0));
  }

  /** Losing the head after its first k bytes to an overflow and then reading one more frame. */
  function TornRun(f: string, k: nat, g: string): seq<Label> {
    [Push(f), Call(k)] + Fill(QUEUE_DEPTH, g) + [Call(|g|)]
  }

  lemma TornState(f: string, k: nat, g: string)
    requires 0 < k < |f|
    ensures var (s, outs) := Run([Push(f), Call(k)] + Fill(QUEUE_DEPTH, g));
            s == State(Queue(seq(QUEUE_DEPTH, _ => Frame(g, 0)), false), Idle) && Wire(outs) == f[..k]
  {
    FillRun(f, k, g, QUEUE_DEPTH - 1);
    TornPush(f, k, g);
    FillSnoc([Push(f), Call(k)], QUEUE_DEPTH - 1, g);
    RunSnoc([Push(f), Call(k)] + Fill(QUEUE_DEPTH - 1, g), Push(g));
    NothingMore(f[..k]);
  }

  lemma WholeRead(fs: seq<Frame>, g: string)
    requires fs != [] && |fs| <= QUEUE_DEPTH && g != "" && forall i :: 0 <= i < |fs| ==> fs[i] == Frame(g, 0)
    ensures Step(State(Queue(fs, false), Idle), Call(|g|)).1 == Data(g)
  {
    assert g[0..|g|] == g;
  }

  lemma TornWire(f: string, k: nat, g: string)
    requires 0 < k < |f| && g != ""
    ensures Wire(Run(TornRun(f, k, g)).1) == f[..k] + g
  {
    TornState(f, k, g);
    WholeRead(seq(QUEUE_DEPTH, _ => Frame(g, 0)), g);
    RunSnoc([Push(f), Call(k)] + Fill(QUEUE_DEPTH, g), Call(|g|));
  }

  lemma {:induction false} NewClientCut(a: Message, b: Message, k: nat)
    requires Clean(a) && Clean(b) && k < |FormatFrame(a)|
    ensures k < 16 + |a.kind| + |a.payload| && Midway(Cut(NEW_CLIENT, a, k))
    ensures FeedAll(NEW_CLIENT, FormatFrame(a)[..k] + FormatFrame(b)).events == [EventAfter(Cut(NEW_CLIENT, a, k), b)]
  {
    FeedCut(NEW_CLIENT, a, k);
    PrefixIsSilent(NEW_CLIENT, a, k);
    FeedAppend(NEW_CLIENT, FormatFrame(a)[..k], FormatFrame(b));
    WholeFrame(Cut(NEW_CLIENT, a, k), b);
  }

  /** What the client of a torn run has seen. */
  lemma {:induction false} TornEvents(a: Message, b: Message, k: nat)
    requires Clean(a) && Clean(b) && 0 < k < |FormatFrame(a)|
    ensures k < 16 + |a.kind| + |a.payload| && Midway(Cut(NEW_CLIENT, a, k))
    ensures FeedAll(NEW_CLIENT, Wire(Run(TornRun(FormatFrame(a), k, FormatFrame(b))).1)).events
            == [EventAfter(Cut(NEW_CLIENT, a, k), b)]
  {
    FrameShape(b);
    TornWire(FormatFrame(a), k, FormatFrame(b));
    NewClientCut(a, b, k);
  }

  /** For every two messages and every cut of the first: a client that gets k bytes
      of it and then the second whole sees exactly one event, and it is the second
      message exactly for the harmless cuts. */
  lemma {:induction false} TornFrameIsHarmlessExactly(a: Message, b: Message, k: nat)
    requires Clean(a) && Clean(b) && 0 < k < |FormatFrame(a)|
    ensures var events := FeedAll(NEW_CLIENT, Wire(Run(TornRun(FormatFrame(a), k, FormatFrame(b))).1)).events;
            |events| == 1 && (events == [EventOf(b)] <==> HarmlessBefore(a, b, k))
  {
    TornEvents(a, b, k);
    RightExactlyWhenUnharmed(Cut(NEW_CLIENT, a, k), b);
    HarmlessExactly(NEW_CLIENT, a, b, k);
  }

  /** A frame lost after its last byte but one: the two messages reach the client
      as one that nobody sent. */
  lemma TornFrameMerges(a: Message, b: Message, k: nat)
    requires Clean(a) && Clean(b) && k == |FormatFrame(a)| - 1
    ensures k > 0 && FeedAll(NEW_CLIENT, Wire(Run(TornRun(FormatFrame(a), k, FormatFrame(b))).1)).events
                     == [Event(Kind(b.kind), a.payload + "\n" + b.payload, "")]
  {
    FrameShape(a);
    TornEvents(a, b, k);
    MergedEvent(a, b);
  }

  lemma MergedEvent(a: Message, b: Message)
    ensures EventAfter(Cut(NEW_CLIENT, a, 15 + |a.kind| + |a.payload|), b)
            == Event(Kind(b.kind), a.payload + "\n" + b.payload, "")
  {
    NamedReady(NEW_CLIENT, a);
    NamedReady(Cut(NEW_CLIENT, a, 15 + |a.kind| + |a.payload|), b);
    assert "" + a.payload + "\n" + b.payload == a.payload + "\n" + b.payload;
  }
}
