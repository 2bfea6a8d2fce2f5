/** Reading field values out of a report (src/ups/hid_parser.c:187-242,
    src/ups/hid_pdc_core.c:474-508).  A report is 64 bytes: the report id and 63
    data bytes; `Data` is the little-endian number of the data bytes. */
module HidExtract {
  import opened Bits
  import opened HidItems
  import opened HidLayout

  const REPORT_BYTES: nat := 64

  type Buffer = b: seq<Byte> | |b| == REPORT_BYTES witness Digits(0, 64)

  function Data(buf: Buffer): nat { Le(buf[1..]) }

  predicate Aligned(f: Field, bits: nat) { f.bitOffset % 8 == 0 && f.bitSize == bits }

  /** Inputs on which the source is defined: no byte read past the report in the
      aligned fast paths, no shift by the word size in the general one. */
  predicate Readable(f: Field) {
    if Aligned(f, 8) || Aligned(f, 16) || Aligned(f, 32)
    then 1 + f.bitOffset / 8 + f.bitSize / 8 <= REPORT_BYTES
    else f.bitSize <= 32
  }

  /** What the source returns for the raw bits `u` of a field. */
  function Returned(f: Field, u: nat): int {
    if Aligned(f, 8) || Aligned(f, 16) then u
    else if f.bitSize >= 32 then ToInt32(u)
    else if f.logicalMin < 0 && f.bitSize > 0 && u >= Pow2(f.bitSize - 1) then u - Pow2(f.bitSize)
    else ToInt32(u)
  }

  /** `k` bytes at an aligned offset. */
  lemma AlignedBytes(buf: Buffer, o: nat, k: nat)
    requires 1 + o + k <= REPORT_BYTES
    ensures Slice(Data(buf), 8 * o, 8 * k) == Le(buf[1 + o..1 + o + k])
  {
    var d := buf[1..];
    LeDrop(d, o);
    LeTake(d[o..], k);
    assert d[o..][..k] == buf[1 + o..1 + o + k];
  }

  /** An aligned little-endian word of `k` bytes. */
  method Word(buf: Buffer, o: nat, k: nat) returns (v: nat)
    requires k in {1, 2, 4} && 1 + o + k <= REPORT_BYTES
    ensures v == Slice(Data(buf), 8 * o, 8 * k)
  {
    AlignedBytes(buf, o, k);
    ghost var d := buf[1 + o..1 + o + k];
    assert d[0..] == d && d[k..] == [];
    var b0: nat, b1: nat, b2: nat, b3: nat := buf[1 + o], 0, 0, 0;
    LeCons(d, 0);
    if k > 1 { b1 := buf[2 + o]; LeCons(d, 1); }
    if k == 4 { b2, b3 := buf[3 + o], buf[4 + o]; LeCons(d, 2); LeCons(d, 3); }
    v := b0 + 256 * b1 + 65536 * b2 + 16777216 * b3;
  }

  lemma DataBit(buf: Buffer, k: nat)
    ensures Bit(Data(buf), k) <==> 1 + k / 8 < REPORT_BYTES && Bit(buf[1 + k / 8], k % 8)
  {
    BitOfByte(buf[1..], k);
  }

  /** The bit of the buffer that the loop looks at; bits past the end are 0. */
  method BufferBit(buf: Buffer, absBit: nat) returns (bit: bool)
    ensures bit <==> Bit(Data(buf), absBit)
  {
    DataBit(buf, absBit);
    var byteIdx, bitIdx := 1 + absBit / 8, absBit % 8;
    bit := byteIdx < REPORT_BYTES && Bit(buf[byteIdx], bitIdx);
  }

  /** The general bit-by-bit loop. */
  method BitLoop(buf: Buffer, f: Field) returns (result: nat)
    requires f.bitSize <= 32
    ensures f.bitOffset + f.bitSize <= 0x1_0000 ==> result == Slice(Data(buf), f.bitOffset, f.bitSize)
  {
    ghost var data := Data(buf);
    result := 0;
    for b := 0 to f.bitSize
      invariant f.bitOffset + f.bitSize <= 0x1_0000 ==> result == Slice(data, f.bitOffset, b)
    {
      var bit := BufferBit(buf, (f.bitOffset + b) % 0x1_0000);
      SliceGrow(data, f.bitOffset, b);
      if bit { result := result + Pow2(b); }
    }
  }

  method SignExtend(result: nat, bits: nat, signed: bool) returns (r: int)
    requires bits <= 32
    ensures result < Pow2(bits) ==>
              r == if signed && 0 < bits < 32 && result >= Pow2(bits - 1) then result - Pow2(bits) else ToInt32(result)
  {
    if result < Pow2(bits) && 0 < bits < 32 {
      TopBit(result, bits);
      Pow2Values();
      Pow2Mono(bits, 31);
    }
    if signed && bits > 0 && bits < 32 && Bit(result, bits - 1) {
      r := ToInt32(result + (0x1_0000_0000 - Pow2(bits)));
    } else {
      r := ToInt32(result);
    }
  }

  /** Where a report's bits do not wrap around the 16-bit counter, the fast
      paths and the loop all return the field's own bits of the data number. */
  method ReadRaw(buf: Buffer, f: Field) returns (r: int)
    requires Readable(f)
    ensures f.bitOffset + f.bitSize <= 0x1_0000 ==> r == Returned(f, Slice(Data(buf), f.bitOffset, f.bitSize))
  {
    var byteOff, bitOff, bits := f.bitOffset / 8, f.bitOffset % 8, f.bitSize;
    if bitOff == 0 && (bits == 8 || bits == 16) {
      r := Word(buf, byteOff, bits / 8);
      return;
    }
    if bitOff == 0 && bits == 32 {
      var w := Word(buf, byteOff, 4);
      return ToInt32(w);
    }
    var result := BitLoop(buf, f);
    r := SignExtend(result, bits, f.logicalMin < 0);
  }

  // --- Values survive packing and reading ---

  /** A value the field's own width and sign can carry (unsigned ones within the int32 result). */
  predicate Carries(f: Field, v: int) {
    && 1 <= f.bitSize <= 32
    && (if f.logicalMin < 0 then -(Pow2(f.bitSize - 1) as int) <= v < Pow2(f.bitSize - 1)
        else 0 <= v < Pow2(f.bitSize) && v < 0x8000_0000)
  }

  function RawOf(f: Field, v: int): (r: nat)
    ensures r < Pow2(f.bitSize)
  {
    v % (Pow2(f.bitSize) as int)
  }

  /** The aligned 8- and 16-bit fast paths do not sign-extend; everything else does. */
  predicate LosesSign(f: Field, v: int) { (Aligned(f, 8) || Aligned(f, 16)) && v < 0 }

  lemma RawValue(f: Field, v: int)
    requires Carries(f, v)
    ensures RawOf(f, v) == if v < 0 then v + Pow2(f.bitSize) else v
  {
    var m: int := Pow2(f.bitSize);
    assert m == 2 * Pow2(f.bitSize - 1);
    if v < 0 { Remainder(v, m, -1, v + m); } else { Remainder(v, m, 0, v); }
  }

  lemma Remainder(v: int, m: int, q: int, r: int)
    requires 0 <= r < m && v == q * m + r
    ensures v % m == r
  {
    var q', r' := v / m, v % m;
    assert v == m * q' + r';
    assert (q - q') * m == r' - r;
    if q != q' { Nonzero(q - q', m); }
  }

  lemma Nonzero(d: int, m: int)
    requires d != 0 && m > 0
    ensures d * m >= m || d * m <= -m
  {
    if d > 0 { assert (d - 1) * m >= 0; } else { assert (-d - 1) * m >= 0; }
  }

  lemma ReturnedInverts(f: Field, v: int)
    requires Carries(f, v)
    ensures Returned(f, RawOf(f, v)) == v <==> !LosesSign(f, v)
  {
    Pow2Values();
    RawValue(f, v);
    if f.bitSize < 32 {
      Pow2Mono(f.bitSize, 31);
    }
  }

  function Total(g: seq<Field>): nat {
    if g == [] then 0 else Total(g[..|g| - 1]) + g[|g| - 1].bitSize
  }

  /** The fields of one report and type, in list order. */
  function Group(fields: seq<Field>, key: Report): seq<Field> {
    if fields == [] then []
    else Group(fields[..|fields| - 1], key) +
         if KeyOf(fields[|fields| - 1]) == key then [fields[|fields| - 1]] else []
  }

  ghost predicate Sits(g: seq<Field>, i: nat)
    requires i < |g|
  {
    g[i].bitOffset == Total(g[..i]) % 0x1_0000
  }

  ghost predicate Stacked(g: seq<Field>) {
    forall i: nat :: i < |g| ==> Sits(g, i)
  }

  ghost predicate AllPlaced(fields: seq<Field>) {
    forall i: nat :: i < |fields| ==> Placed(fields, i)
  }

  lemma InitPlaced(fields: seq<Field>)
    requires fields != [] && AllPlaced(fields)
    ensures var init, f := fields[..|fields| - 1], fields[|fields| - 1];
            AllPlaced(init) && f.bitOffset == BitsUsed(init, KeyOf(f)) % 0x1_0000
  {
    var init := fields[..|fields| - 1];
    forall i: nat | i < |init| ensures Placed(init, i) {
      assert Placed(fields, i) && init[..i] == fields[..i];
    }
    assert Placed(fields, |init|);
  }

  ghost predicate StacksUp(fields: seq<Field>, key: Report) {
    Total(Group(fields, key)) == BitsUsed(fields, key) && Stacked(Group(fields, key))
  }

  lemma {:induction false} StacksUpSnoc(init: seq<Field>, f: Field, key: Report)
    requires StacksUp(init, key) && f.bitOffset == BitsUsed(init, KeyOf(f)) % 0x1_0000
    ensures StacksUp(init + [f], key)
  {
    GroupSnoc(init, f, key);
    if KeyOf(f) == key { StackOn(Group(init, key), f); }
  }

  lemma {:induction false} GroupStacks(fields: seq<Field>, key: Report)
    requires AllPlaced(fields)
    ensures StacksUp(fields, key)
  {
    if fields != [] {
      InitPlaced(fields);
      GroupStacks(fields[..|fields| - 1], key);
      StacksUpSnoc(fields[..|fields| - 1], fields[|fields| - 1], key);
      assert fields == fields[..|fields| - 1] + [fields[|fields| - 1]];
    }
  }

  lemma GroupSnoc(fields: seq<Field>, f: Field, key: Report)
    ensures Group(fields + [f], key) == if KeyOf(f) == key then Group(fields, key) + [f] else Group(fields, key)
    ensures BitsUsed(fields + [f], key) == BitsUsed(fields, key) + if KeyOf(f) == key then f.bitSize else 0
  {
    assert (fields + [f])[..|fields|] == fields;
    assert Group(fields, key) + [] == Group(fields, key);
  }

  lemma {:induction false} StackOn(g: seq<Field>, f: Field)
    requires Stacked(g) && f.bitOffset == Total(g) % 0x1_0000
    ensures Stacked(g + [f]) && Total(g + [f]) == Total(g) + f.bitSize
  {
    var h := g + [f];
    assert h[..|g|] == g;
    forall i: nat | i < |h|
      ensures Sits(h, i)
    {
      assert h[..i] == g[..i];
      if i < |g| { assert Sits(g, i); } else { assert g[..i] == g; }
    }
  }

  /** The data number that holds one value per field of a group. */
  function Pack(g: seq<Field>, vs: seq<int>): nat
    requires |vs| == |g|
  {
    if g == [] then 0
    else
      var n := |g| - 1;
      Pack(g[..n], vs[..n]) + Shl(RawOf(g[n], vs[n]), Total(g[..n]))
  }

  lemma PackBound(g: seq<Field>, vs: seq<int>)
    requires |vs| == |g|
    ensures Pack(g, vs) < Pow2(Total(g))
  {
    if g != [] {
      var n := |g| - 1;
      PackBound(g[..n], vs[..n]);
      ShlBound(Pack(g[..n], vs[..n]), RawOf(g[n], vs[n]), Total(g[..n]), g[n].bitSize);
    }
  }

  lemma TotalMono(g: seq<Field>, i: nat)
    requires i < |g|
    ensures Total(g[..i]) + g[i].bitSize <= Total(g)
  {
    var n := |g| - 1;
    if i < n {
      TotalMono(g[..n], i);
      assert g[..n][..i] == g[..i];
    }
  }

  lemma {:induction false} PackedSlice(g: seq<Field>, vs: seq<int>, i: nat)
    requires i < |vs| == |g|
    ensures Slice(Pack(g, vs), Total(g[..i]), g[i].bitSize) == RawOf(g[i], vs[i])
  {
    var n := |g| - 1;
    var low, u, k := Pack(g[..n], vs[..n]), RawOf(g[n], vs[n]), Total(g[..n]);
    if i == n {
      PackBound(g[..n], vs[..n]);
      SliceAt(low, u, k, g[n].bitSize);
    } else {
      PackedSlice(g[..n], vs[..n], i);
      assert g[..n][..i] == g[..i];
      TotalMono(g[..n], i);
      SliceUnder(low, u, k, Total(g[..i]), g[i].bitSize);
    }
  }

  function ReportFor(id: Byte, g: seq<Field>, vs: seq<int>): Buffer
    requires |vs| == |g|
  {
    [id] + Digits(Pack(g, vs), REPORT_BYTES - 1)
  }

  /** For every descriptor: pack any values the fields of a report can carry at
      the offsets the parser gave them, and read each field back.  It returns
      the value exactly when it is not a negative one on an aligned 8- or
      16-bit field. */
  lemma {:induction false} PackedReportReadsBack(items: seq<Item>, key: Report, id: Byte, vs: seq<int>, i: nat)
    requires var g := Group(Interpret(FRESH, items).fields, key);
             && i < |vs| == |g| && (forall j :: 0 <= j < |g| ==> Carries(g[j], vs[j]))
             && Total(g) <= 8 * (REPORT_BYTES - 1)
    ensures var g := Group(Interpret(FRESH, items).fields, key);
            && Readable(g[i]) && g[i].bitOffset + g[i].bitSize <= 0x1_0000
            && (Returned(g[i], Slice(Data(ReportFor(id, g, vs)), g[i].bitOffset, g[i].bitSize)) == vs[i]
                <==> !LosesSign(g[i], vs[i]))
  {
    InterpretLaidOut(FRESH, items);
    var fs := Interpret(FRESH, items).fields;
    GroupStacks(fs, key);
    var g := Group(fs, key);
    ReportData(id, g, vs);
    StackedReadsBack(g, vs, i, Data(ReportFor(id, g, vs)));
  }

  lemma AddOne(p: Parser, kind: FieldType)
    requires p.g.count == 1 && p.fields == []
    ensures AddFields(p, kind, 0).fields == [MakeField(p, kind, 0)]
  {
    var q := AddField(p, kind, 0);
    assert q.fields == p.fields + [MakeField(p, kind, 0)];
    assert AddFields(q, kind, 1) == q;
  }

  lemma OneField(items: seq<Item>, main: Item)
    requires main.kind == 0 && main.tag == 0x0B
    requires Interpret(FRESH, items).g.count == 1 && Interpret(FRESH, items).fields == []
    ensures Interpret(FRESH, items + [main]).fields == [MakeField(Interpret(FRESH, items), Feature, 0)]
  {
    InterpretSnoc(FRESH, items, main);
    AddOne(Interpret(FRESH, items), Feature);
  }

  lemma ThreeItems(p: Parser, a: Item, b: Item, c: Item)
    ensures Interpret(p, [a, b, c]) == Apply(Apply(Apply(p, a), b), c)
  {
    var q, r := Apply(p, a), Apply(Apply(p, a), b);
    assert [a, b, c][1..] == [b, c] && [b, c][1..] == [c] && [c][1..] == [];
    assert Interpret(p, [a, b, c]) == Interpret(q, [b, c]) == Interpret(r, [c]) == Interpret(Apply(r, c), []);
  }

  /** A signed byte at the start of a report is read without its sign. */
  lemma MinusOneReadsUnsigned(f: Field, id: Byte)
    requires f.bitOffset == 0 && f.bitSize == 8 && f.logicalMin < 0
    ensures Carries(f, -1) && Returned(f, Slice(Data(ReportFor(id, [f], [-1])), 0, 8)) == 255
  {
    Pow2Values();
    assert Pow2(7) == 128;
    ReportData(id, [f], [-1]);
    PackedSlice([f], [-1], 0);
    assert [f][..0] == [];
    RawValue(f, -1);
  }

  /** A logical minimum of -128, a size of 8 and a count of 1. */
  predicate SignedByteItems(a: Item, b: Item, c: Item) {
    a == Item(1, 1, [0x80]) && b == Item(7, 1, [8]) && c == Item(9, 1, [1])
  }

  lemma {:induction false} SignedByteGlobals(a: Item, b: Item, c: Item)
    requires SignedByteItems(a, b, c)
    ensures var p := Interpret(FRESH, [a, b, c]);
            && p.g == NO_GLOBALS.(logicalMin := -128, size := 8, count := 1)
            && p.fields == [] && p.offsets == map[]
  {
    ThreeItems(FRESH, a, b, c);
  }

  /** A descriptor for which reading back fails: a feature item after these three
      makes one field, and -1 packed into it is read as 255. */
  lemma {:induction false} SignedByteReadsUnsigned(a: Item, b: Item, c: Item, main: Item, id: Byte)
    requires SignedByteItems(a, b, c) && main == Item(0x0B, 0, [])
    ensures var g := Group(Interpret(FRESH, [a, b, c] + [main]).fields, (0, Feature));
            && |g| == 1 && Carries(g[0], -1) && g[0].bitOffset == 0 && g[0].bitSize == 8
            && Returned(g[0], Slice(Data(ReportFor(id, g, [-1])), 0, 8)) == 255
  {
    var items := [a, b, c];
    SignedByteGlobals(a, b, c);
    OneField(items, main);
    var f := MakeField(Interpret(FRESH, items), Feature, 0);
    MinusOneReadsUnsigned(f, id);
  }

  lemma PackFits(g: seq<Field>, vs: seq<int>, n: nat)
    requires |vs| == |g| && Total(g) <= 8 * n
    ensures Le(Digits(Pack(g, vs), n)) == Pack(g, vs)
  {
    PackBound(g, vs);
    Pow2Mono(Total(g), 8 * n);
    DigitsRoundTrip(Pack(g, vs), n);
  }

  lemma {:induction false} ReportData(id: Byte, g: seq<Field>, vs: seq<int>)
    requires |vs| == |g| && Total(g) <= 8 * (REPORT_BYTES - 1)
    ensures Data(ReportFor(id, g, vs)) == Pack(g, vs)
  {
    PackFits(g, vs, REPORT_BYTES - 1);
    assert ReportFor(id, g, vs)[1..] == Digits(Pack(g, vs), REPORT_BYTES - 1);
  }

  lemma {:induction false} StackedAt(g: seq<Field>, i: nat)
    requires i < |g| && Stacked(g) && Total(g) <= 8 * (REPORT_BYTES - 1)
    ensures g[i].bitOffset == Total(g[..i])
    ensures g[i].bitOffset + g[i].bitSize <= 8 * (REPORT_BYTES - 1)
  {
    assert Sits(g, i);
    TotalMono(g, i);
  }

  lemma {:induction false} StackedReadsBack(g: seq<Field>, vs: seq<int>, i: nat, data: nat)
    requires i < |vs| == |g| && Carries(g[i], vs[i])
    requires Stacked(g) && Total(g) <= 8 * (REPORT_BYTES - 1) && data == Pack(g, vs)
    ensures Readable(g[i]) && g[i].bitOffset + g[i].bitSize <= 0x1_0000
    ensures Returned(g[i], Slice(data, g[i].bitOffset, g[i].bitSize)) == vs[i] <==> !LosesSign(g[i], vs[i])
  {
    StackedAt(g, i);
    PackedSlice(g, vs, i);
    ReturnedInverts(g[i], vs[i]);
  }

  // --- Status bits ---

  predicate IsStatusBit(f: Field, page: nat, usage: nat) {
    f.kind == Feature && f.bitSize == 1 && f.page == page && f.usage == usage
  }

  /** The first matching one-bit feature whose byte lies in the report, if any. */
  function FirstStatusBit(fields: seq<Field>, page: nat, usage: nat, reportLen: nat): (at: nat)
    ensures at <= |fields|
    ensures forall i :: 0 <= i < at ==> !InReport(fields[i], page, usage, reportLen)
    ensures at < |fields| ==> InReport(fields[at], page, usage, reportLen)
  {
    if fields == [] || InReport(fields[0], page, usage, reportLen) then 0
    else 1 + FirstStatusBit(fields[1..], page, usage, reportLen)
  }

  predicate InReport(f: Field, page: nat, usage: nat, reportLen: nat) {
    IsStatusBit(f, page, usage) && 1 + f.bitOffset / 8 < reportLen
  }

  lemma {:induction false} GroupIsOfFields(fields: seq<Field>, key: Report, i: nat)
    requires i < |Group(fields, key)|
    ensures Group(fields, key)[i] in fields && KeyOf(Group(fields, key)[i]) == key
  {
    var n := |fields| - 1;
    if i < |Group(fields[..n], key)| { GroupIsOfFields(fields[..n], key, i); }
  }

  /** No other one-bit feature has this one's page and usage. */
  ghost predicate OnlyBitOf(fields: seq<Field>, f: Field) {
    && f.bitSize == 1 && f.logicalMin >= 0
    && forall h <- fields :: h.kind == Feature && h.bitSize == 1 && h.page == f.page && h.usage == f.usage ==> h == f
  }

  lemma FirstIsOnly(fields: seq<Field>, f: Field, reportLen: nat)
    requires f in fields && f.kind == Feature && OnlyBitOf(fields, f) && 1 + f.bitOffset / 8 < reportLen
    ensures var at := FirstStatusBit(fields, f.page, f.usage, reportLen); at < |fields| && fields[at] == f
  {
    var i :| 0 <= i < |fields| && fields[i] == f;
    assert InReport(fields[i], f.page, f.usage, reportLen);
    var at := FirstStatusBit(fields, f.page, f.usage, reportLen);
    assert fields[at] in fields;
  }

  /** For every descriptor and every report packed at the parser's offsets: looking up a
      one-bit feature by its page and usage finds the bit that was packed for it. */
  lemma {:induction false} StatusBitReadsBack(items: seq<Item>, id: nat, rid: Byte, vs: seq<int>, i: nat)
    requires var fs := Interpret(FRESH, items).fields;
             var g := Group(fs, (id, Feature));
             && i < |vs| == |g| && (forall j :: 0 <= j < |g| ==> Carries(g[j], vs[j]))
             && Total(g) <= 8 * (REPORT_BYTES - 1) && OnlyBitOf(fs, g[i])
    ensures var fs := Interpret(FRESH, items).fields;
            var g := Group(fs, (id, Feature));
            var at := FirstStatusBit(fs, g[i].page, g[i].usage, REPORT_BYTES);
            at < |fs| && Slice(Data(ReportFor(rid, g, vs)), fs[at].bitOffset, 1) == vs[i]
  {
    var fs := Interpret(FRESH, items).fields;
    var g := Group(fs, (id, Feature));
    InterpretLaidOut(FRESH, items);
    GroupStacks(fs, (id, Feature));
    ReportData(rid, g, vs);
    StackedAt(g, i);
    PackedSlice(g, vs, i);
    RawValue(g[i], vs[i]);
    GroupIsOfFields(fs, (id, Feature), i);
    FirstIsOnly(fs, g[i], REPORT_BYTES);
  }

  /** Agrees with the extractor on unsigned fields. */
  method ReadStatusBit(fields: seq<Field>, page: nat, usage: nat, report: Buffer, reportLen: nat) returns (v: int)
    requires reportLen <= REPORT_BYTES
    ensures var at := FirstStatusBit(fields, page, usage, reportLen);
            && v == (if at < |fields| then Slice(Data(report), fields[at].bitOffset, 1) else 0)
            && (at < |fields| && fields[at].logicalMin >= 0 ==>
                  v == Returned(fields[at], Slice(Data(report), fields[at].bitOffset, 1)))
  {
    for i := 0 to |fields|
      invariant forall j :: 0 <= j < i ==> !InReport(fields[j], page, usage, reportLen)
    {
      var f := fields[i];
      if f.kind == Feature && f.bitSize == 1 && f.page == page && f.usage == usage {
        var byteIdx, bitIdx := 1 + f.bitOffset / 8, f.bitOffset % 8;
        if byteIdx < reportLen {
          assert FirstStatusBit(fields, page, usage, reportLen) == i;
          BitOfByte(report[1..], f.bitOffset);
          SliceGrow(Data(report), f.bitOffset, 0);
          return if Bit(report[byteIdx], bitIdx) then 1 else 0;
        }
      }
    }
    v := 0;
  }
}
