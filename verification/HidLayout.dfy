/** What the descriptor interpreter promises about the fields it lists:
    report layout and collection paths (src/ups/hid_parser.c:54-151). */
module HidLayout {
  import opened HidItems

  function KeyOf(f: Field): Report { (f.reportId, f.kind) }

  /** Bits used so far in one report by a list of fields. */
  function BitsUsed(fields: seq<Field>, key: Report): nat {
    if fields == [] then 0
    else
      var f := fields[|fields| - 1];
      BitsUsed(fields[..|fields| - 1], key) + if KeyOf(f) == key then f.bitSize else 0
  }

  ghost predicate Placed(fields: seq<Field>, i: nat)
    requires i < |fields|
  {
    fields[i].bitOffset == BitsUsed(fields[..i], KeyOf(fields[i])) % 0x1_0000
  }

  ghost predicate Counted(offsets: map<Report, nat>, fields: seq<Field>, key: Report) {
    OffsetOf(offsets, key) == BitsUsed(fields, key) % 0x1_0000
  }

  /** Every field starts where the earlier fields of its report and type end,
      modulo the 16-bit counter, and the counters agree with the list. */
  ghost predicate LaidOut(p: Parser) {
    && (forall i: nat :: i < |p.fields| ==> Placed(p.fields, i))
    && (forall key: Report :: Counted(p.offsets, p.fields, key))
  }

  lemma {:induction false} AddFieldLaidOut(p: Parser, kind: FieldType, k: nat)
    requires LaidOut(p)
    ensures LaidOut(AddField(p, kind, k))
  {
    var p', f := AddField(p, kind, k), MakeField(p, kind, k);
    assert Counted(p.offsets, p.fields, KeyOf(f));
    forall i: nat | i < |p'.fields|
      ensures Placed(p'.fields, i)
    {
      assert p'.fields[..i] == p.fields[..i];
      if i < |p.fields| {
        assert Placed(p.fields, i);
      } else {
        assert p.fields[..i] == p.fields;
      }
    }
    forall key: Report
      ensures Counted(p'.offsets, p'.fields, key)
    {
      assert Counted(p.offsets, p.fields, key);
    }
  }

  lemma {:induction false} AddFieldsLaidOut(p: Parser, kind: FieldType, k: nat)
    requires LaidOut(p)
    ensures LaidOut(AddFields(p, kind, k))
    decreases p.g.count - k
  {
    if k < p.g.count && |p.fields| < MAX_FIELDS {
      AddFieldLaidOut(p, kind, k);
      AddFieldsLaidOut(AddField(p, kind, k), kind, k + 1);
    }
  }

  lemma ApplyLaidOut(p: Parser, it: Item)
    requires LaidOut(p)
    ensures LaidOut(Apply(p, it))
  {
    if AddsFields(it) {
      AddFieldsLaidOut(p, MainKind(it.tag), 0);
    }
  }

  lemma {:induction false} InterpretLaidOut(p: Parser, items: seq<Item>)
    requires LaidOut(p)
    ensures LaidOut(Interpret(p, items))
    decreases |items|
  {
    if items != [] {
      ApplyLaidOut(p, items[0]);
      InterpretLaidOut(Apply(p, items[0]), items[1..]);
    }
  }

  /** For every item list, whatever its fields are: each offset is the number of
      bits before the field in its report, modulo 65536. */
  lemma OffsetsAreSums(items: seq<Item>, i: nat)
    requires i < |Interpret(FRESH, items).fields|
    ensures var fs := Interpret(FRESH, items).fields;
            fs[i].bitOffset == BitsUsed(fs[..i], KeyOf(fs[i])) % 0x1_0000
  {
    InterpretLaidOut(FRESH, items);
    assert Placed(Interpret(FRESH, items).fields, i);
  }

  lemma BitsUsedMono(fields: seq<Field>, i: nat, j: nat, key: Report)
    requires i <= j <= |fields|
    ensures BitsUsed(fields[..i], key) <= BitsUsed(fields[..j], key)
  {
    if i < j {
      BitsUsedMono(fields, i, j - 1, key);
      assert fields[..j][..j - 1] == fields[..j - 1];
    }
  }

  lemma BitsUsedNext(fields: seq<Field>, i: nat)
    requires i < |fields|
    ensures BitsUsed(fields[..i + 1], KeyOf(fields[i])) == BitsUsed(fields[..i], KeyOf(fields[i])) + fields[i].bitSize
  {
    assert fields[..i + 1][..i] == fields[..i];
  }

  ghost predicate NoneBetween(fields: seq<Field>, i: nat, j: nat)
    requires i < j < |fields|
  {
    forall m :: i < m < j ==> KeyOf(fields[m]) != KeyOf(fields[i])
  }

  lemma BitsUsedSkip(fields: seq<Field>, i: nat, j: nat)
    requires i < j < |fields| && NoneBetween(fields, i, j)
    ensures BitsUsed(fields[..j], KeyOf(fields[i])) == BitsUsed(fields[..i + 1], KeyOf(fields[i]))
    decreases j - i
  {
    if j > i + 1 {
      BitsUsedSkip(fields, i, j - 1);
      assert fields[..j][..j - 1] == fields[..j - 1];
    }
  }

  ghost predicate Contiguous(fs: seq<Field>, i: nat, j: nat)
    requires i < j < |fs|
  {
    && fs[i].bitOffset + fs[i].bitSize <= fs[j].bitOffset
    && (NoneBetween(fs, i, j) ==> fs[j].bitOffset == fs[i].bitOffset + fs[i].bitSize)
    && (BitsUsed(fs[..i], KeyOf(fs[i])) == 0 ==> fs[i].bitOffset == 0)
    && fs[j].bitOffset + fs[j].bitSize <= BitsUsed(fs, KeyOf(fs[i]))
  }

  /** Field `i` ends within its report, and before any later field of it begins. */
  lemma EndsBefore(fs: seq<Field>, i: nat, j: nat)
    requires i < j <= |fs|
    ensures BitsUsed(fs[..i], KeyOf(fs[i])) + fs[i].bitSize <= BitsUsed(fs[..j], KeyOf(fs[i]))
  {
    BitsUsedNext(fs, i);
    BitsUsedMono(fs, i + 1, j, KeyOf(fs[i]));
  }

  lemma Unwrapped(fs: seq<Field>, i: nat)
    requires i < |fs| && Placed(fs, i) && BitsUsed(fs, KeyOf(fs[i])) < 0x1_0000
    ensures fs[i].bitOffset == BitsUsed(fs[..i], KeyOf(fs[i]))
    ensures fs[i].bitOffset + fs[i].bitSize <= BitsUsed(fs, KeyOf(fs[i]))
  {
    EndsBefore(fs, i, |fs|);
    assert fs[..|fs|] == fs;
  }

  lemma PlacedIsContiguous(fs: seq<Field>, i: nat, j: nat)
    requires i < j < |fs| && Placed(fs, i) && Placed(fs, j)
    requires KeyOf(fs[i]) == KeyOf(fs[j]) && BitsUsed(fs, KeyOf(fs[i])) < 0x1_0000
    ensures Contiguous(fs, i, j)
  {
    Unwrapped(fs, i);
    Unwrapped(fs, j);
    EndsBefore(fs, i, j);
    if NoneBetween(fs, i, j) {
      BitsUsedSkip(fs, i, j);
      BitsUsedNext(fs, i);
    }
  }

  /** While a report stays under 65536 bits its fields, in list order, are
      contiguous from bit 0 and pairwise disjoint. */
  lemma {:induction false} ReportsAreContiguous(items: seq<Item>, i: nat, j: nat)
    requires i < j < |Interpret(FRESH, items).fields|
    requires var fs := Interpret(FRESH, items).fields;
             KeyOf(fs[i]) == KeyOf(fs[j]) && BitsUsed(fs, KeyOf(fs[i])) < 0x1_0000
    ensures Contiguous(Interpret(FRESH, items).fields, i, j)
  {
    InterpretLaidOut(FRESH, items);
    PlacedIsContiguous(Interpret(FRESH, items).fields, i, j);
  }

  // --- What one main item adds ---

  function Count(p: Parser): nat {
    var room := if |p.fields| < MAX_FIELDS then MAX_FIELDS - |p.fields| else 0;
    if p.g.count < room then p.g.count else room
  }

  /** Everything about a field but its place in the report. */
  function Placeless(f: Field): Field { f.(bitOffset := 0) }

  /** A main item adds as many fields as its count and the table allow, each
      with the item's own usage, the open collections and the current globals
      (their bits are OffsetsAreSums); the parser state stays otherwise as it is. */
  lemma {:induction false} AddFieldsAdds(p: Parser, kind: FieldType, k: nat, i: nat)
    requires k <= p.g.count
    ensures var q := AddFields(p, kind, k);
            var n := Count(p.(g := p.g.(count := p.g.count - k)));
            && |q.fields| == |p.fields| + n && p.fields <= q.fields
            && q.g == p.g && q.stack == p.stack && q.usages == p.usages
            && (i < n ==> Placeless(q.fields[|p.fields| + i]) == Placeless(MakeField(p, kind, k + i)))
    decreases p.g.count - k
  {
    if k < p.g.count && |p.fields| < MAX_FIELDS {
      AddFieldsAdds(AddField(p, kind, k), kind, k + 1, if i == 0 then 0 else i - 1);
    }
  }

  // --- Collection paths (sections 6.2.2.6 and 6.2.2.8) ---

  /** The stack of open collections as the standard has it, without a cap. */
  function Nest(open: seq<nat>, p: Parser, it: Item): seq<nat> {
    if it.kind == 0 && it.tag == 0x0A then open + [Up(p.g.page, if p.usages == [] then 0 else p.usages[0])]
    else if it.kind == 0 && it.tag == 0x0C && open != [] then open[..|open| - 1]
    else open
  }

  /** The open collections after some items, and the deepest they ever got. */
  function Open(items: seq<Item>): (r: (seq<nat>, nat))
    ensures |r.0| <= r.1
  {
    if items == [] then ([], 0)
    else
      var (open, depth) := Open(items[..|items| - 1]);
      var open' := Nest(open, Interpret(FRESH, items[..|items| - 1]), items[|items| - 1]);
      (open', if |open'| > depth then |open'| else depth)
  }

  lemma InterpretSnoc(p: Parser, items: seq<Item>, it: Item)
    ensures Interpret(p, items + [it]) == Apply(Interpret(p, items), it)
    decreases |items|
  {
    if items == [] {
      assert items + [it] == [it] && [it][1..] == [];
    } else {
      assert (items + [it])[1..] == items[1..] + [it];
      InterpretSnoc(Apply(p, items[0]), items[1..], it);
    }
  }

  /** Up to eight levels the parser's stack is the ideal one. */
  lemma {:induction false} StackIsOpen(items: seq<Item>)
    requires Open(items).1 <= MAX_PATH
    ensures Interpret(FRESH, items).stack == Open(items).0
  {
    if items != [] {
      var init, it := items[..|items| - 1], items[|items| - 1];
      StackIsOpen(init);
      assert items == init + [it];
      InterpretSnoc(FRESH, init, it);
      if AddsFields(it) {
        AddFieldsAdds(Interpret(FRESH, init), MainKind(it.tag), 0, 0);
      }
    }
  }

  predicate AddsFields(it: Item) { it.kind == 0 && (it.tag == 0x08 || it.tag == 0x09 || it.tag == 0x0B) }

  lemma AddedField(items: seq<Item>, main: Item, i: nat)
    requires AddsFields(main)
    requires |Interpret(FRESH, items).fields| <= i < |Interpret(FRESH, items + [main]).fields|
    ensures var p := Interpret(FRESH, items);
            Placeless(Interpret(FRESH, items + [main]).fields[i])
            == Placeless(MakeField(p, MainKind(main.tag), i - |p.fields|))
  {
    var p := Interpret(FRESH, items);
    InterpretSnoc(FRESH, items, main);
    AddFieldsAdds(p, MainKind(main.tag), 0, i - |p.fields|);
  }

  /** A balanced open and close restores the stack exactly below the cap: the
      ninth level is not recorded, and closing it closes the eighth instead. */
  lemma BalancedExactlyBelowCap(p: Parser)
    requires |p.stack| <= MAX_PATH
    ensures CloseCollection(OpenCollection(p)).stack == p.stack <==> |p.stack| < MAX_PATH
  {
    if |p.stack| == MAX_PATH {
      assert |CloseCollection(OpenCollection(p)).stack| == 7;
    }
  }

  const OPEN_ITEM: Item := Item(0x0A, 0, [])
  const CLOSE_ITEM: Item := Item(0x0C, 0, [])

  function Opens(n: nat): seq<Item> { if n == 0 then [] else Opens(n - 1) + [OPEN_ITEM] }

  lemma {:induction false} OpensNest(n: nat)
    ensures |Open(Opens(n)).0| == n
  {
    if n > 0 {
      OpensNest(n - 1);
      assert Opens(n)[..|Opens(n)| - 1] == Opens(n - 1);
    }
  }

  lemma {:induction false} OpensRecorded(n: nat)
    ensures |Interpret(FRESH, Opens(n)).stack| == if n < MAX_PATH then n else MAX_PATH
  {
    if n > 0 {
      OpensRecorded(n - 1);
      InterpretSnoc(FRESH, Opens(n - 1), OPEN_ITEM);
    }
  }

  lemma CloseOne(items: seq<Item>)
    requires Open(items).0 != [] && Interpret(FRESH, items).stack != []
    ensures |Open(items + [CLOSE_ITEM]).0| == |Open(items).0| - 1
    ensures |Interpret(FRESH, items + [CLOSE_ITEM]).stack| == |Interpret(FRESH, items).stack| - 1
  {
    InterpretSnoc(FRESH, items, CLOSE_ITEM);
    assert (items + [CLOSE_ITEM])[..|items|] == items;
  }

  /** Nine collections opened and one closed: eight are open, but only seven are
      recorded. */
  lemma NinthCollectionIsLost(n: nat)
    requires n == 9
    ensures |Open(Opens(n) + [CLOSE_ITEM]).0| == 8
    ensures |Interpret(FRESH, Opens(n) + [CLOSE_ITEM]).stack| == 7
  {
    OpensNest(n);
    OpensRecorded(n);
    CloseOne(Opens(n));
  }
}
