/** Several frames torn in a row (src/api/sse.c:55-72, 96-101): what they leave over
    at the client, computed from the messages and the cuts alone. */
module SseCuts {
  import opened SseQueue
  import opened SseStream
  import opened SseWire
  import opened SseClient

  /** The begun line: none, one that will be ignored, an event line with its value so
      far, or a data line. */
  datatype Line = Fresh | Mute | Typing(value: string) | Buffering

  /** The begun line, whether data is buffered, and the type in force. */
  datatype Left = Left(line: Line, buffered: bool, kind: string)

  const NOTHING: Left := Left(Fresh, false, "")

  /** After the rest of a begun line and the first line of a frame. */
  function FirstDone(l: Left, m: Message): Left {
    match l.line
    case Fresh => l.(kind := m.kind)
    case Mute => l.(line := Fresh)
    case Typing(v) => l.(line := Fresh, kind := v + FirstLine(m))
    case Buffering => l.(line := Fresh, buffered := true)
  }

  /** After the first k bytes of a frame's first line. */
  function FirstBegun(l: Left, m: Message, k: nat): Left
    requires 0 < k <= 7 + |m.kind|
  {
    match l.line
    case Fresh => l.(line := if k <= 5 then Mute else Typing(if k == 6 then "" else m.kind[..k - 7]))
    case Typing(v) => l.(line := Typing(v + FirstLine(m)[..k]))
    case _ => l
  }

  /** After the first k bytes of a frame, short of its end. */
  function CutLeft(l: Left, m: Message, k: nat): Left {
    if k == 0 then l
    else if k <= 7 + |m.kind| then FirstBegun(l, m, k)
    else if k == 8 + |m.kind| then FirstDone(l, m)
    else if k <= 12 + |m.kind| then FirstDone(l, m).(line := Mute)
    else if k < 15 + |m.kind| + |m.payload| then FirstDone(l, m).(line := Buffering)
    else FirstDone(l, m).(buffered := true)
  }

  /** The next frame is read right on top of this. */
  predicate Harmless(l: Left, m: Message) {
    !l.buffered && (l.line.Fresh? || (l.line.Mute? && Kind(l.kind) == Kind(m.kind)))
  }

  // --- The client agrees ---

  ghost predicate LineShows(line: string, l: Line) {
    match l
    case Fresh => line == ""
    case Mute => line != "" && !Speaks(line)
    case Typing(v) => Speaks(line) && FieldName(line) == "event" && FieldValue(line) == v
    case Buffering => Speaks(line) && FieldName(line) == "data"
  }

  ghost predicate Shows(c: Client, l: Left) {
    Midway(c) && (c.data != "" <==> l.buffered) && c.kind == l.kind && LineShows(c.line, l.line)
  }

  lemma UnharmedIsHarmless(c: Client, l: Left, m: Message)
    requires Shows(c, l)
    ensures Unharmed(c, m) <==> Harmless(l, m)
  {
  }

  lemma MuteStays(line: string, m: Message, k: nat)
    requires line != "" && (line[0] == 'e' || line[0] == 'd') && !Speaks(line) && 0 < k <= 7 + |m.kind|
    ensures !Speaks(line + FirstLine(m)[..k])
  {
    var t := FirstLine(m)[..k];
    FirstLineShape(m);
    ColonAppend(line, t);
    if Colon(line) < |line| {
      NameAppend(line, t);
    } else if k >= 6 {
      FirstPartSpeaks(m, k);
      assert forall i :: 0 <= i < 5 ==> t[i] == FirstLine(m)[..5][i];
      ColonIs(t, 5);
      assert FieldName(line + t) == (line + t)[..|line| + 5] == line + "event";
      LongName(line);
    } else {
      assert forall i :: 0 <= i < k ==> t[i] == FirstLine(m)[..5][i];
    }
  }

  lemma FirstBegunLine(line: string, l: Line, m: Message, k: nat)
    requires LineShows(line, l) && (line != "" ==> line[0] == 'e' || line[0] == 'd') && 0 < k <= 7 + |m.kind|
    ensures LineShows(line + FirstLine(m)[..k], FirstBegun(Left(l, false, ""), m, k).line)
  {
    var t := FirstLine(m)[..k];
    FirstLineShape(m);
    assert t[0] == 'e';
    match l {
      case Fresh =>
        assert line + t == t;
        FirstPartSpeaks(m, k);
        if k >= 6 { FirstPartValue(m, k); }
      case Mute => MuteStays(line, m, k);
      case Typing(v) =>
        NameAppend(line, t);
        ValueGrows(line, t);
      case Buffering => NameAppend(line, t);
    }
  }

  lemma FirstPartValue(m: Message, k: nat)
    requires 6 <= k <= 7 + |m.kind|
    ensures FieldName(FirstLine(m)[..k]) == "event"
    ensures FieldValue(FirstLine(m)[..k]) == if k == 6 then "" else m.kind[..k - 7]
  {
    var t := FirstLine(m)[..k];
    FirstLineShape(m);
    assert forall i :: 0 <= i < 5 ==> t[i] == FirstLine(m)[..5][i];
    assert t[5] == FirstLine(m)[5] == ':';
    ColonIs(t, 5);
    assert t[..5] == FirstLine(m)[..5];
    if k > 6 { assert t[6] == ' ' && t[7..] == m.kind[..k - 7]; }
  }

  /** The end of the first line gives the begun line its meaning. */
  lemma FirstDoneShows(c: Client, l: Left, m: Message)
    requires Shows(c, l)
    ensures Shows(Named(c, m), FirstDone(l, m))
  {
    match l.line {
      case Fresh => NamedReady(c, m);
      case Mute => if Colon(c.line) == |c.line| { NamedSilent(c, m); } else { NamedOther(c, m); }
      case Typing(v) => NamedSpeaks(c, m);
      case Buffering =>
        NamedSpeaks(c, m);
        BufferingEnds(c, m);
    }
  }

  lemma BufferingEnds(c: Client, m: Message)
    requires Midway(c) && Speaks(c.line) && FieldName(c.line) == "data"
    ensures Named(c, m).kind == c.kind
  {
    NameAppend(c.line, FirstLine(m));
  }

  lemma SecondBegun(m: Message, j: nat)
    requires 0 < j <= |SecondLine(m)|
    ensures LineShows(SecondLine(m)[..j], if j <= 4 then Mute else Buffering)
    ensures SecondLine(m)[..j] != "" && SecondLine(m)[..j][0] == 'd'
  {
    SecondPartSpeaks(m, j);
    var t := SecondLine(m)[..j];
    assert SecondLine(m)[..6] == "data: ";
    assert t[0] == SecondLine(m)[0] == "data: "[0];
    if j >= 5 {
      assert forall i :: 0 <= i < 5 ==> t[i] == "data: "[i];
      ColonIs(t, 4);
      assert t[..4] == "data: "[..4];
    }
  }

  /** What is computed from a cut is what the client has left over of it. */
  lemma {:induction false} CutShows(c: Client, l: Left, m: Message, k: nat)
    requires Shows(c, l) && k < 16 + |m.kind| + |m.payload|
    ensures Shows(Cut(c, m, k), CutLeft(l, m, k))
  {
    if k == 0 {
      assert c.line + FirstLine(m)[..0] == c.line;
    } else if k <= 7 + |m.kind| {
      FirstBegunLine(c.line, l.line, m, k);
      FirstLineShape(m);
    } else {
      FirstDoneShows(c, l, m);
      var j := k - 8 - |m.kind|;
      if 0 < j < 7 + |m.payload| { SecondBegun(m, j); }
      assert j == 0 ==> SecondLine(m)[..j] == "";
    }
  }

  // --- Torn frames in a row ---

  datatype Tear = Tear(m: Message, cut: nat)

  predicate CleanTears(tears: seq<Tear>) {
    forall i :: 0 <= i < |tears| ==> Clean(tears[i].m) && tears[i].cut < |FormatFrame(tears[i].m)|
  }

  function TornText(tears: seq<Tear>): string
    requires CleanTears(tears)
  {
    if tears == [] then ""
    else
      var t := tears[|tears| - 1];
      TornText(tears[..|tears| - 1]) + FormatFrame(t.m)[..t.cut]
  }

  function LeftAfter(tears: seq<Tear>): Left {
    if tears == [] then NOTHING
    else CutLeft(LeftAfter(tears[..|tears| - 1]), tears[|tears| - 1].m, tears[|tears| - 1].cut)
  }

  lemma {:induction false} TearsShow(c: Client, tears: seq<Tear>)
    requires Ready(c) && CleanTears(tears)
    ensures Shows(FeedAll(c, TornText(tears)), LeftAfter(tears))
    ensures FeedAll(c, TornText(tears)).events == c.events
  {
    if tears != [] {
      var init, t := tears[..|tears| - 1], tears[|tears| - 1];
      TearsShow(c, init);
      var d := FeedAll(c, TornText(init));
      FeedAppend(c, TornText(init), FormatFrame(t.m)[..t.cut]);
      FeedCut(d, t.m, t.cut);
      PrefixIsSilent(d, t.m, t.cut);
      CutShows(d, LeftAfter(init), t.m, t.cut);
    }
  }

  /** Whatever frames were torn and wherever they were cut, the whole frame after them
      gives one event, and it is the right one exactly when what the cuts leave over is
      harmless to it. */
  lemma {:induction false} TornFramesAreHarmlessExactly(c: Client, tears: seq<Tear>, m: Message)
    requires Ready(c) && CleanTears(tears) && Clean(m)
    ensures var events := FeedAll(c, TornText(tears) + FormatFrame(m)).events;
            && |events| == |c.events| + 1 && events[..|c.events|] == c.events
            && (events[|c.events|] == EventOf(m) <==> Harmless(LeftAfter(tears), m))
  {
    TearsShow(c, tears);
    var d := FeedAll(c, TornText(tears));
    FeedAppend(c, TornText(tears), FormatFrame(m));
    WholeFrame(d, m);
    RightExactlyWhenUnharmed(d, m);
    UnharmedIsHarmless(d, LeftAfter(tears), m);
  }

  /** With a single torn frame these are the cuts of HarmlessBefore. */
  lemma OneTear(a: Message, b: Message, k: nat)
    requires k < 16 + |a.kind| + |a.payload|
    ensures Harmless(LeftAfter([Tear(a, k)]), b) <==> HarmlessBefore(a, b, k)
  {
    assert [Tear(a, k)][..0] == [];
  }

  /** A second tear can mend the first: a field name begun and a frame cut after its
      first line leave nothing that matters, though the first alone spoils every
      message of a type of its own. */
  lemma SecondTearMends(a: Message, k: nat, b: Message, m: Message)
    requires 1 <= k <= 5
    ensures Harmless(LeftAfter([Tear(a, k), Tear(b, 8 + |b.kind|)]), m)
    ensures Harmless(LeftAfter([Tear(a, k)]), m) <==> Kind(m.kind) == "message"
  {
    OneTear(a, m, k);
    var two := [Tear(a, k), Tear(b, 8 + |b.kind|)];
    assert two[..1] == [Tear(a, k)] && [Tear(a, k)][..0] == [];
  }

  // --- Whole runs ---

  /** What the pieces leave over, by their cuts. */
  function LeftOf(ps: seq<Piece>, ms: seq<Message>): Left
    requires |Sources(ps)| == |ms|
  {
    if ps == [] then NOTHING
    else
      var p := ps[|ps| - 1];
      if p.Beat? then LeftOf(ps[..|ps| - 1], ms)
      else if p.dropped then CutLeft(LeftOf(ps[..|ps| - 1], ms[..|ms| - 1]), ms[|ms| - 1], p.cut)
      else NOTHING
  }

  /** At every frame read to its end, what the cuts before it left over is harmless to it. */
  predicate AllHarmless(ps: seq<Piece>, ms: seq<Message>)
    requires |Sources(ps)| == |ms|
  {
    ps == [] ||
    var init, p := ps[..|ps| - 1], ps[|ps| - 1];
    if p.Beat? then AllHarmless(init, ms)
    else
      && AllHarmless(init, ms[..|ms| - 1])
      && (!p.dropped ==> Harmless(LeftOf(init, ms[..|ms| - 1]), ms[|ms| - 1]))
  }

  ghost predicate CutsFor(ps: seq<Piece>, ms: seq<Message>) {
    && ExactFor(ps, ms)
    && Shows(FeedAll(NEW_CLIENT, Render(ps)), LeftOf(ps, ms))
    && (AllUnharmed(ps, ms) <==> AllHarmless(ps, ms))
  }

  lemma {:induction false} CutsBeat(ps: seq<Piece>, ms: seq<Message>)
    requires CutsFor(ps, ms) && OnBoundary(ps)
    ensures CutsFor(ps + [Beat], ms)
  {
    BeatCase(ps, ms);
    ExtendText(ps, Beat);
    FeedAppend(NEW_CLIENT, Render(ps), HEARTBEAT);
    BeatIsSilent(FeedAll(NEW_CLIENT, Render(ps)));
    assert (ps + [Beat])[..|ps|] == ps;
  }

  lemma {:induction false} TextShows(c: Client, l: Left, p: Piece, m: Message)
    requires Shows(c, l) && PieceOf(p, m)
    ensures Shows(FeedAll(c, Text(p)), if p.dropped then CutLeft(l, m, p.cut) else NOTHING)
  {
    FrameShape(m);
    if p.dropped {
      FeedCut(c, m, p.cut);
      CutShows(c, l, m, p.cut);
    } else {
      assert p.data[..p.cut] == p.data;
      WholeFrame(c, m);
    }
  }

  lemma {:induction false} CutsPart(ps: seq<Piece>, ms: seq<Message>, p: Piece, m: Message)
    requires CutsFor(ps, ms) && PieceOf(p, m)
    ensures CutsFor(ps + [p], ms + [m])
  {
    var c := FeedAll(NEW_CLIENT, Render(ps));
    PartCase(ps, ms, p, m);
    ExtendText(ps, p);
    FeedAppend(NEW_CLIENT, Render(ps), Text(p));
    TextShows(c, LeftOf(ps, ms), p, m);
    UnharmedIsHarmless(c, LeftOf(ps, ms), m);
    assert (ps + [p])[..|ps|] == ps && (ms + [m])[..|ms|] == ms;
  }

  lemma {:induction false} PiecesCuts(ps: seq<Piece>, ms: seq<Message>)
    requires WellCut(ps, ms)
    ensures CutsFor(ps, ms)
  {
    assert FeedAll(NEW_CLIENT, "") == NEW_CLIENT;
    forall a, b | CutsFor(a, b) && OnBoundary(a) ensures CutsFor(a + [Beat], b) { CutsBeat(a, b); }
    forall a, b, p, m | CutsFor(a, b) && PieceOf(p, m) ensures CutsFor(a + [p], b + [m]) { CutsPart(a, b, p, m); }
    PieceInduction((a, b) => CutsFor(a, b), ps, ms);
  }

  /** Over every run the client has seen exactly one event per frame it read to the
      end, and these are the right events, in order, exactly when at each of those
      frames what the cuts of the frames torn since the last whole one leave over is
      harmless to it. */
  lemma {:induction false} ClientSeesReadFramesByCuts(ls: seq<Label>, ms: seq<Message>)
    requires Accepted(ls) == Formatted(ms) && AllClean(ms)
    ensures |Sources(Account(ls))| <= |ms|
    ensures var seen, events := ms[..|Sources(Account(ls))|], FeedAll(NEW_CLIENT, Wire(Run(ls).1)).events;
            && |events| == |ReadEvents(Account(ls), seen)|
            && (events == ReadEvents(Account(ls), seen) <==> AllHarmless(Account(ls), seen))
  {
    ClientSeesReadFramesExactly(ls, ms);
    RunIsWellCut(ls, ms);
    PiecesCuts(Account(ls), ms[..|Sources(Account(ls))|]);
  }
}
