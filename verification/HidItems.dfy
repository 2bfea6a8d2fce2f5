/** HID report descriptors: tokenising into short items (USB HID 1.11, section
    6.2.2.2) and interpreting the items, on values (src/ups/hid_parser.c:12-157). */
module HidItems {
  import opened Bits

  const MAX_PATH: nat := 8
  const MAX_FIELDS: nat := 256
  const MAX_USAGES: nat := 64

  // --- Short items ---

  datatype Item = Item(tag: nat, kind: nat, data: seq<Byte>)

  predicate ValidItem(it: Item) {
    it.tag < 16 && it.kind < 4 && |it.data| in {0, 1, 2, 4}
  }

  function SizeOf(prefix: Byte): nat {
    if prefix % 4 == 3 then 4 else prefix % 4
  }

  function ItemOf(prefix: Byte, data: seq<Byte>): Item {
    Item(prefix / 16, prefix / 4 % 4, data)
  }

  /** A truncated last item is not read. */
  function Tokenise(desc: seq<Byte>): (r: seq<Item>)
    ensures forall i :: 0 <= i < |r| ==> ValidItem(r[i])
  {
    if desc == [] || 1 + SizeOf(desc[0]) > |desc| then []
    else
      var n := SizeOf(desc[0]);
      [ItemOf(desc[0], desc[1..1 + n])] + Tokenise(desc[1 + n..])
  }

  function Prefix(it: Item): Byte
    requires ValidItem(it)
  {
    it.tag * 16 + it.kind * 4 + if |it.data| == 4 then 3 else |it.data|
  }

  function Encode(items: seq<Item>): seq<Byte>
    requires forall i :: 0 <= i < |items| ==> ValidItem(items[i])
  {
    if items == [] then [] else [Prefix(items[0])] + items[0].data + Encode(items[1..])
  }

  // --- Numbers in items ---

  /** Two's complement of the item's own width; a 4-byte value is the int32 it is cast to. */
  function SignedOf(val: nat, size: nat): int {
    if size == 1 then if val >= 0x80 then val - 0x100 else val
    else if size == 2 then if val >= 0x8000 then val - 0x1_0000 else val
    else ToInt32(val)
  }

  function SignedVal(data: seq<Byte>): int { SignedOf(Le(data), |data|) }

  function ToInt32(val: nat): int {
    var v := val % 0x1_0000_0000;
    if v >= 0x8000_0000 then v - 0x1_0000_0000 else v
  }

  function UnitExponent(raw: int): int {
    var nibble := raw % 16;
    if nibble > 7 then nibble - 16 else nibble
  }

  // --- Interpretation ---

  datatype FieldType = Input | Output | Feature

  datatype Field = Field(path: seq<nat>, page: nat, usage: nat, reportId: nat, bitOffset: nat, bitSize: nat,
                         kind: FieldType, logicalMin: int, logicalMax: int, physicalMin: int, physicalMax: int,
                         unitExponent: int, unit: nat)

  datatype Globals = Globals(page: nat, logicalMin: int, logicalMax: int, physicalMin: int, physicalMax: int,
                             unitExpRaw: int, unit: nat, size: nat, id: nat, count: nat)

  type Report = (nat, FieldType)

  datatype Parser = Parser(g: Globals, stack: seq<nat>, usages: seq<nat>, offsets: map<Report, nat>, fields: seq<Field>)

  const NO_GLOBALS: Globals := Globals(0, 0, 0, 0, 0, 0, 0, 0, 0, 0)
  const FRESH: Parser := Parser(NO_GLOBALS, [], [], map[], [])

  /** HID_UP: page and usage in one path element. */
  function Up(page: nat, usage: nat): nat { page * 0x1_0000 + usage }

  function OffsetOf(offsets: map<Report, nat>, key: Report): nat {
    if key in offsets then offsets[key] else 0
  }

  function SetGlobal(g: Globals, tag: nat, val: nat, size: nat): Globals {
    match tag
    case 0 => g.(page := val % 0x1_0000)
    case 1 => g.(logicalMin := SignedOf(val, size))
    case 2 => g.(logicalMax := SignedOf(val, size))
    case 3 => g.(physicalMin := SignedOf(val, size))
    case 4 => g.(physicalMax := SignedOf(val, size))
    case 5 => g.(unitExpRaw := SignedOf(val, size))
    case 6 => g.(unit := val)
    case 7 => g.(size := val)
    case 8 => g.(id := val % 0x100)
    case 9 => g.(count := val)
    case _ => g
  }

  /** The usage of the `k`-th field of a main item: the last one repeats (section 6.2.2.8). */
  function UsageFor(usages: seq<nat>, k: nat): nat {
    if k < |usages| then usages[k] else if usages == [] then 0 else usages[|usages| - 1]
  }

  function FieldPath(stack: seq<nat>, own: nat): seq<nat> {
    if |stack| < MAX_PATH then stack + [own] else stack
  }

  function MakeField(p: Parser, kind: FieldType, k: nat): Field {
    var u := UsageFor(p.usages, k);
    Field(FieldPath(p.stack, Up(p.g.page, u)), p.g.page, u, p.g.id, OffsetOf(p.offsets, (p.g.id, kind)),
          p.g.size % 0x1_0000, kind, p.g.logicalMin, p.g.logicalMax, p.g.physicalMin, p.g.physicalMax,
          UnitExponent(p.g.unitExpRaw), p.g.unit)
  }

  /** One field: its bits come off the 16-bit counter of its report and type. */
  function AddField(p: Parser, kind: FieldType, k: nat): Parser {
    var key := (p.g.id, kind);
    p.(fields := p.fields + [MakeField(p, kind, k)],
       offsets := p.offsets[key := (OffsetOf(p.offsets, key) + p.g.size % 0x1_0000) % 0x1_0000])
  }

  /** Fields k, k + 1, ... of a main item, until its count or the map is full. */
  function AddFields(p: Parser, kind: FieldType, k: nat): Parser
    decreases p.g.count - k
  {
    if k < p.g.count && |p.fields| < MAX_FIELDS then AddFields(AddField(p, kind, k), kind, k + 1) else p
  }

  function OpenCollection(p: Parser): Parser {
    var own := Up(p.g.page, if p.usages == [] then 0 else p.usages[0]);
    p.(stack := if |p.stack| < MAX_PATH then p.stack + [own] else p.stack, usages := [])
  }

  function CloseCollection(p: Parser): Parser {
    p.(stack := if p.stack == [] then [] else p.stack[..|p.stack| - 1])
  }

  function MainKind(tag: nat): FieldType {
    if tag == 0x08 then Input else if tag == 0x09 then Output else Feature
  }

  function Apply(p: Parser, it: Item): Parser {
    if it.kind == 1 then p.(g := SetGlobal(p.g, it.tag, Le(it.data), |it.data|))
    else if it.kind == 2 then
      if it.tag == 0 && |p.usages| < MAX_USAGES then p.(usages := p.usages + [Le(it.data) % 0x1_0000]) else p
    else if it.kind == 0 then
      if it.tag == 0x0A then OpenCollection(p)
      else if it.tag == 0x0C then CloseCollection(p)
      else if it.tag == 0x08 || it.tag == 0x09 || it.tag == 0x0B then
        AddFields(p, MainKind(it.tag), 0).(usages := [])
      else p
    else p
  }

  function Interpret(p: Parser, items: seq<Item>): Parser
    decreases |items|
  {
    if items == [] then p else Interpret(Apply(p, items[0]), items[1..])
  }

  // --- Round trips ---

  function Bytes(it: Item): (r: seq<Byte>)
    requires ValidItem(it)
    ensures |r| == 1 + |it.data|
  {
    [Prefix(it)] + it.data
  }

  lemma {:induction false} TokeniseCons(it: Item, rest: seq<Byte>)
    requires ValidItem(it)
    ensures Tokenise(Bytes(it) + rest) == [it] + Tokenise(rest)
  {
    var desc, n := Bytes(it) + rest, |it.data|;
    assert desc[0] == Prefix(it) && SizeOf(desc[0]) == n;
    assert desc[1..1 + n] == it.data && desc[1 + n..] == rest;
    assert ItemOf(Prefix(it), it.data) == it;
  }

  lemma {:induction false} TokeniseEncode(items: seq<Item>)
    requires forall i :: 0 <= i < |items| ==> ValidItem(items[i])
    ensures Tokenise(Encode(items)) == items
  {
    if items != [] {
      var it, rest := items[0], items[1..];
      assert items == [it] + rest;
      TokeniseCons(it, Encode(rest));
      TokeniseEncode(rest);
    }
  }

  lemma Regroup(a: seq<Byte>, rest: seq<Byte>, m: nat)
    requires m <= |rest|
    ensures a + rest[..m] == (a + rest)[..|a| + m]
    ensures m < |rest| ==> (a + rest)[|a| + m] == rest[m]
  {}

  /** The first item of a descriptor that holds a whole one. */
  lemma FirstToken(desc: seq<Byte>)
    requires desc != [] && 1 + SizeOf(desc[0]) <= |desc|
    ensures var n := SizeOf(desc[0]);
            var it := ItemOf(desc[0], desc[1..1 + n]);
            && ValidItem(it) && |Bytes(it)| == 1 + n && desc == Bytes(it) + desc[1 + n..]
            && Tokenise(desc) == [it] + Tokenise(desc[1 + n..])
  {
    var n := SizeOf(desc[0]);
    var it := ItemOf(desc[0], desc[1..1 + n]);
    assert Prefix(it) == desc[0];
  }

  /** Conversely the tokens are the descriptor, up to a truncated last item. */
  lemma {:induction false} EncodeTokenise(desc: seq<Byte>)
    ensures var n := |Encode(Tokenise(desc))|;
            && n <= |desc| && Encode(Tokenise(desc)) == desc[..n]
            && (n < |desc| ==> 1 + SizeOf(desc[n]) > |desc| - n)
  {
    if desc != [] && 1 + SizeOf(desc[0]) <= |desc| {
      var n := SizeOf(desc[0]);
      var it, rest := ItemOf(desc[0], desc[1..1 + n]), desc[1 + n..];
      FirstToken(desc);
      EncodeTokenise(rest);
      Regroup(Bytes(it), rest, |Encode(Tokenise(rest))|);
    }
  }

  lemma TwosComplement(data: seq<Byte>, v: int, half: int)
    requires (|data| == 1 && half == 0x80) || (|data| == 2 && half == 0x8000) || (|data| == 4 && half == 0x8000_0000)
    requires -half <= v < half && Le(data) == v % (2 * half)
    ensures SignedVal(data) == v
  {
    assert v % (2 * half) == if v < 0 then v + 2 * half else v;
  }

  function HalfRange(width: nat): int { if width == 1 then 0x80 else if width == 2 then 0x8000 else 0x8000_0000 }

  /** Signed item values invert two's complement at every width. */
  lemma SignedRoundTrip(v: int, width: nat)
    requires width in {1, 2, 4} && -HalfRange(width) <= v < HalfRange(width)
    ensures SignedVal(Digits(v % (2 * HalfRange(width)), width)) == v
  {
    Pow2Values();
    var m := 2 * HalfRange(width);
    assert m == Pow2(8 * width);
    DigitsRoundTrip(v % m, width);
    TwosComplement(Digits(v % m, width), v, HalfRange(width));
  }

  lemma ExponentRoundTrip(e: int, high: int)
    requires -8 <= e <= 7
    ensures UnitExponent(e % 16 + 16 * high) == e
  {}
}
