/** The text/event-stream wire format: the formatter of src/api/sse.c:55-72
    against the client's parser of the WHATWG HTML Living Standard, sections
    9.2.5 (line structure) and 9.2.6 (interpretation). */
module SseWire {
  import opened SseQueue

  datatype Message = Message(kind: string, payload: string)

  function FormatFrame(m: Message): string {
    "event: " + m.kind + "\ndata: " + m.payload + "\n\n"
  }

  predicate OneLine(s: string) { '\n' !in s && '\r' !in s }

  predicate Clean(m: Message) { OneLine(m.kind) && OneLine(m.payload) }

  // --- The client ---

  datatype Event = Event(kind: string, data: string, lastId: string)

  /** Buffers of section 9.2.6, the unfinished line, and the events dispatched so far. */
  datatype Client = Client(line: string, afterCr: bool, data: string, kind: string, lastId: string, events: seq<Event>)

  const NEW_CLIENT: Client := Client("", false, "", "", "", [])

  function Feed(c: Client, ch: char): Client {
    if ch == '\n' && c.afterCr then c.(afterCr := false)
    else if ch == '\n' then EndLine(c)
    else if ch == '\r' then EndLine(c).(afterCr := true)
    else c.(line := c.line + [ch], afterCr := false)
  }

  function EndLine(c: Client): Client {
    var d := if c.line == "" then Dispatch(c)
             else if c.line[0] == ':' then c
             else Field(c, FieldName(c.line), FieldValue(c.line));
    d.(line := "")
  }

  function Colon(line: string): (k: nat)
    ensures k <= |line|
    ensures forall i :: 0 <= i < k ==> line[i] != ':'
    ensures k < |line| ==> line[k] == ':'
  {
    if line == "" || line[0] == ':' then 0 else 1 + Colon(line[1..])
  }

  function FieldName(line: string): string { line[..Colon(line)] }

  function FieldValue(line: string): string {
    var k := Colon(line);
    if k == |line| then ""
    else if k + 1 < |line| && line[k + 1] == ' ' then line[k + 2..]
    else line[k + 1..]
  }

  /** `retry` only sets the reconnection time, which no event carries. */
  function Field(c: Client, name: string, value: string): Client {
    if name == "event" then c.(kind := value)
    else if name == "data" then c.(data := c.data + value + "\n")
    else if name == "id" && '\0' !in value then c.(lastId := value)
    else c
  }

  function Dispatch(c: Client): Client {
    if c.data == "" then c.(kind := "")
    else
      var text := if c.data[|c.data| - 1] == '\n' then c.data[..|c.data| - 1] else c.data;
      var kind := if c.kind == "" then "message" else c.kind;
      c.(data := "", kind := "", events := c.events + [Event(kind, text, c.lastId)])
  }

  function FeedAll(c: Client, s: string): Client {
    if s == "" then c else Feed(FeedAll(c, s[..|s| - 1]), s[|s| - 1])
  }

  /** What a client should make of a message: an empty type reads as "message". */
  function EventOf(m: Message): Event {
    Event(if m.kind == "" then "message" else m.kind, m.payload, "")
  }

  // --- Formatting and parsing ---

  lemma {:induction false} FeedAppend(c: Client, a: string, b: string)
    ensures FeedAll(c, a + b) == FeedAll(FeedAll(c, a), b)
  {
    if b == "" {
      assert a + b == a;
    } else {
      assert (a + b)[..|a + b| - 1] == a + b[..|b| - 1];
      FeedAppend(c, a, b[..|b| - 1]);
    }
  }

  lemma FeedText(c: Client, t: string)
    requires OneLine(t) && !c.afterCr
    ensures FeedAll(c, t) == c.(line := c.line + t)
  {
    if t == "" {
      assert c.line + t == c.line;
    } else {
      FeedText(c, t[..|t| - 1]);
      assert c.line + t == (c.line + t[..|t| - 1]) + [t[|t| - 1]];
    }
  }

  /** A newline ends whatever line has been begun. */
  lemma {:induction false} FeedLine(c: Client, t: string)
    requires OneLine(t) && !c.afterCr
    ensures FeedAll(c, t + "\n") == EndLine(c.(line := c.line + t))
  {
    FeedAppend(c, t, "\n");
    FeedText(c, t);
    var d := c.(line := c.line + t);
    assert FeedAll(d, "\n") == Feed(FeedAll(d, ""), '\n');
  }

  lemma ColonIs(line: string, k: nat)
    requires k < |line| && line[k] == ':' && forall i :: 0 <= i < k ==> line[i] != ':'
    ensures Colon(line) == k
  {}

  lemma EventLine(t: string)
    ensures FieldName("event: " + t) == "event" && FieldValue("event: " + t) == t
  {
    var line := "event: " + t;
    assert line[0] == 'e' && line[1] == 'v' && line[2] == 'e' && line[3] == 'n' && line[4] == 't';
    ColonIs(line, 5);
    assert line[6] == ' ' && line[7..] == t;
  }

  lemma DataLine(t: string)
    ensures FieldName("data: " + t) == "data" && FieldValue("data: " + t) == t
  {
    var line := "data: " + t;
    assert line[0] == 'd' && line[1] == 'a' && line[2] == 't' && line[3] == 'a';
    ColonIs(line, 4);
    assert line[5] == ' ' && line[6..] == t;
  }

  /** Between events. */
  ghost predicate Ready(c: Client) {
    c.line == "" && !c.afterCr && c.data == "" && c.kind == "" && c.lastId == ""
  }

  function FirstLine(m: Message): string { "event: " + m.kind }
  function SecondLine(m: Message): string { "data: " + m.payload }

  function AllButLast(m: Message): string { (FirstLine(m) + "\n") + (SecondLine(m) + "\n") }

  lemma FrameShape(m: Message)
    ensures FormatFrame(m) == AllButLast(m) + "\n" && |FormatFrame(m)| == 16 + |m.kind| + |m.payload|
  {
    assert "\ndata: " == "\n" + "data: ";
    assert "\n\n" == "\n" + "\n";
  }

  /** After the first line of a message, on top of whatever has been begun. */
  function Named(c: Client, m: Message): Client { EndLine(c.(line := c.line + FirstLine(m))) }

  lemma {:induction false} FeedFirst(c: Client, m: Message)
    requires !c.afterCr && Clean(m)
    ensures FeedAll(c, FirstLine(m) + "\n") == Named(c, m)
  {
    FeedLine(c, FirstLine(m));
  }

  lemma FeedSecond(c: Client, m: Message)
    requires c.line == "" && !c.afterCr && Clean(m)
    ensures FeedAll(c, SecondLine(m) + "\n") == c.(data := c.data + m.payload + "\n")
  {
    FeedLine(c, SecondLine(m));
    DataLine(m.payload);
    assert c.line + SecondLine(m) == SecondLine(m);
  }

  /** The two field lines of a message. */
  lemma FeedHeader(c: Client, m: Message)
    requires !c.afterCr && Clean(m) && Named(c, m).line == "" && !Named(c, m).afterCr
    ensures FeedAll(c, AllButLast(m)) == Named(c, m).(data := Named(c, m).data + m.payload + "\n")
  {
    FeedAppend(c, FirstLine(m) + "\n", SecondLine(m) + "\n");
    FeedFirst(c, m);
    FeedSecond(Named(c, m), m);
  }

  /** The event that a whole frame makes of whatever has been begun. */
  function EventAfter(c: Client, m: Message): Event {
    var d := Named(c, m);
    Event(if d.kind == "" then "message" else d.kind, d.data + m.payload, d.lastId)
  }

  /** Whatever has been begun, a whole frame dispatches one event and leaves nothing over. */
  lemma FeedFrame(c: Client, m: Message)
    requires !c.afterCr && Clean(m) && Named(c, m).line == "" && !Named(c, m).afterCr
    ensures FeedAll(c, FormatFrame(m)) == Named(c, m).(data := "", kind := "",
                                                      events := Named(c, m).events + [EventAfter(c, m)])
  {
    FrameShape(m);
    FeedHeader(c, m);
    FeedAppend(c, AllButLast(m), "\n");
    var d := Named(c, m);
    var full := d.(data := d.data + m.payload + "\n");
    assert d.data + m.payload + "\n" == (d.data + m.payload) + "\n";
  }

  lemma NamedReady(c: Client, m: Message)
    requires c.line == ""
    ensures Named(c, m) == c.(kind := m.kind)
  {
    assert c.line + FirstLine(m) == FirstLine(m);
    EventLine(m.kind);
  }

  /** A whole frame reads back as exactly its message. */
  lemma FrameRoundTrip(c: Client, m: Message)
    requires Ready(c) && Clean(m)
    ensures FeedAll(c, FormatFrame(m)) == c.(events := c.events + [EventOf(m)])
  {
    NamedReady(c, m);
    FeedFrame(c, m);
    assert c.data + m.payload == m.payload;
  }

  lemma BeatIsSilent(c: Client)
    requires Ready(c)
    ensures FeedAll(c, HEARTBEAT) == c
  {
    assert HEARTBEAT == (":heartbeat" + "\n") + "\n";
    FeedAppend(c, ":heartbeat" + "\n", "\n");
    FeedLine(c, ":heartbeat");
    assert c.line + ":heartbeat" == ":heartbeat";
  }
}
