/** What a field says, read off the item list alone (sections 6.2.2.4 to 6.2.2.8 of the
    USB HID 1.11 specification; src/ups/hid_parser.c:81-151). */
module HidMeaning {
  import opened Bits
  import opened HidItems
  import opened HidLayout

  /** The main items that use up the declared usages; the end of a collection does not. */
  predicate UsesUp(it: Item) { it.kind == 0 && it.tag in {0x08, 0x09, 0x0A, 0x0B} }

  /** The usages declared since the last such item. */
  function Declared(items: seq<Item>): seq<nat> {
    if items == [] then []
    else
      var it := items[|items| - 1];
      if UsesUp(it) then []
      else Declared(items[..|items| - 1]) + if it.kind == 2 && it.tag == 0 then [Le(it.data) % 0x1_0000] else []
  }

  /** The first 64 of them are kept. */
  function Kept(us: seq<nat>): seq<nat> { if |us| <= 64 then us else us[..64] }

  /** The data of the last global item of a tag; none counts as zero. */
  function LastGlobal(items: seq<Item>, tag: nat): seq<Byte> {
    if items == [] then []
    else
      var it := items[|items| - 1];
      if it.kind == 1 && it.tag == tag then it.data else LastGlobal(items[..|items| - 1], tag)
  }

  function Value(items: seq<Item>, tag: nat): nat { Le(LastGlobal(items, tag)) }
  function Signed(items: seq<Item>, tag: nat): int { SignedVal(LastGlobal(items, tag)) }

  // --- The parser's state ---

  /** The parser's variable for a global tag holds the tag's value. */
  ghost predicate GlobalMeans(g: Globals, data: seq<Byte>, tag: nat) {
    match tag
    case 0 => g.page == Le(data) % 0x1_0000
    case 1 => g.logicalMin == SignedVal(data)
    case 2 => g.logicalMax == SignedVal(data)
    case 3 => g.physicalMin == SignedVal(data)
    case 4 => g.physicalMax == SignedVal(data)
    case 5 => g.unitExpRaw == SignedVal(data)
    case 6 => g.unit == Le(data)
    case 7 => g.size == Le(data)
    case 8 => g.id == Le(data) % 0x100
    case 9 => g.count == Le(data)
    case _ => true
  }

  ghost predicate GlobalsMean(g: Globals, items: seq<Item>) {
    forall tag: nat :: GlobalMeans(g, LastGlobal(items, tag), tag)
  }

  lemma LastGlobalSnoc(items: seq<Item>, it: Item, tag: nat)
    ensures LastGlobal(items + [it], tag) == if it.kind == 1 && it.tag == tag then it.data else LastGlobal(items, tag)
  {
    assert (items + [it])[..|items|] == items;
  }

  lemma SetsOne(g: Globals, data: seq<Byte>, tag: nat)
    ensures GlobalMeans(SetGlobal(g, tag, Le(data), |data|), data, tag)
  {
  }

  lemma KeepsOthers(g: Globals, other: nat, val: nat, size: nat, data: seq<Byte>, tag: nat)
    requires tag != other && GlobalMeans(g, data, tag)
    ensures GlobalMeans(SetGlobal(g, other, val, size), data, tag)
  {
  }

  lemma {:induction false} SetGlobalMeans(g: Globals, items: seq<Item>, it: Item)
    requires GlobalsMean(g, items) && it.kind == 1
    ensures GlobalsMean(SetGlobal(g, it.tag, Le(it.data), |it.data|), items + [it])
  {
    var h := SetGlobal(g, it.tag, Le(it.data), |it.data|);
    forall tag: nat ensures GlobalMeans(h, LastGlobal(items + [it], tag), tag) {
      LastGlobalSnoc(items, it, tag);
      if tag == it.tag {
        SetsOne(g, it.data, tag);
      } else {
        KeepsOthers(g, it.tag, Le(it.data), |it.data|, LastGlobal(items, tag), tag);
      }
    }
  }

  lemma {:induction false} OtherGlobalsMean(g: Globals, items: seq<Item>, it: Item)
    requires GlobalsMean(g, items) && it.kind != 1
    ensures GlobalsMean(g, items + [it])
  {
    forall tag: nat ensures LastGlobal(items + [it], tag) == LastGlobal(items, tag) { LastGlobalSnoc(items, it, tag); }
  }

  lemma ApplyKeepsGlobals(p: Parser, it: Item)
    requires it.kind != 1
    ensures Apply(p, it).g == p.g
  {
    if AddsFields(it) { AddFieldsAdds(p, MainKind(it.tag), 0, 0); }
  }

  lemma {:induction false} ApplyUsages(p: Parser, items: seq<Item>, it: Item)
    requires p.usages == Kept(Declared(items))
    ensures Apply(p, it).usages == Kept(Declared(items + [it]))
  {
    assert (items + [it])[..|items|] == items;
  }

  ghost predicate StateOk(p: Parser, items: seq<Item>) {
    GlobalsMean(p.g, items) && p.usages == Kept(Declared(items))
  }

  lemma {:induction false} ApplyMeans(p: Parser, items: seq<Item>, it: Item)
    requires StateOk(p, items)
    ensures StateOk(Apply(p, it), items + [it])
  {
    ApplyUsages(p, items, it);
    if it.kind == 1 {
      SetGlobalMeans(p.g, items, it);
    } else {
      ApplyKeepsGlobals(p, it);
      OtherGlobalsMean(p.g, items, it);
    }
  }

  lemma FreshMeans(tag: nat)
    ensures GlobalMeans(NO_GLOBALS, [], tag)
  {
  }

  lemma {:induction false} StateMeans(items: seq<Item>)
    ensures StateOk(Interpret(FRESH, items), items)
  {
    if items == [] {
      forall tag: nat ensures GlobalMeans(NO_GLOBALS, [], tag) { FreshMeans(tag); }
    } else {
      var init, it := items[..|items| - 1], items[|items| - 1];
      StateMeans(init);
      assert items == init + [it];
      InterpretSnoc(FRESH, init, it);
      ApplyMeans(Interpret(FRESH, init), init, it);
    }
  }

  // --- The fields ---

  /** Field j of a main item: each usage in turn, the last one for all that are left. */
  ghost predicate UsageMeans(usage: nat, us: seq<nat>, j: nat) {
    && (us == [] ==> usage == 0)
    && (j < |us| ==> usage == us[j])
    && (us != [] && j >= |us| ==> usage == us[|us| - 1])
  }

  /** What field j of `main` says, after `items`. */
  ghost predicate Means(f: Field, items: seq<Item>, main: Item, j: nat) {
    && UsageMeans(f.usage, Kept(Declared(items)), j)
    && f.page == Value(items, 0) % 0x1_0000 && f.reportId == Value(items, 8) % 0x100
    && f.bitSize == Value(items, 7) % 0x1_0000 && f.unit == Value(items, 6)
    && f.logicalMin == Signed(items, 1) && f.logicalMax == Signed(items, 2)
    && f.physicalMin == Signed(items, 3) && f.physicalMax == Signed(items, 4)
    && f.unitExponent == UnitExponent(Signed(items, 5))
    && (f.kind == Input <==> main.tag == 0x08) && (f.kind == Output <==> main.tag == 0x09)
  }

  ghost predicate MainMeans(before: seq<Field>, after: seq<Field>, items: seq<Item>, main: Item, j: nat) {
    && before <= after
    && (if |before| + Value(items, 9) <= MAX_FIELDS then |after| == |before| + Value(items, 9)
        else |after| == if |before| < MAX_FIELDS then MAX_FIELDS else |before|)
    && (j < |after| - |before| ==> Means(after[|before| + j], items, main, j))
  }

  /** A main item adds as many fields as the last report count says, while there is
      room for them, and field j says what the items before it say. */
  lemma {:induction false} MainItemMeans(items: seq<Item>, main: Item, j: nat)
    requires AddsFields(main)
    ensures MainMeans(Interpret(FRESH, items).fields, Interpret(FRESH, items + [main]).fields, items, main, j)
  {
    var p := Interpret(FRESH, items);
    StateMeans(items);
    StateSays(items);
    InterpretSnoc(FRESH, items, main);
    AddFieldsAdds(p, MainKind(main.tag), 0, j);
    if j < Count(p) {
      MadeMeans(p, AddFields(p, MainKind(main.tag), 0).fields[|p.fields| + j], items, main, j);
    }
  }

  ghost predicate GlobalsSay(g: Globals, items: seq<Item>) {
    && g.page == Value(items, 0) % 0x1_0000 && g.id == Value(items, 8) % 0x100 && g.size == Value(items, 7)
    && g.unit == Value(items, 6) && g.count == Value(items, 9)
    && g.logicalMin == Signed(items, 1) && g.logicalMax == Signed(items, 2)
    && g.physicalMin == Signed(items, 3) && g.physicalMax == Signed(items, 4) && g.unitExpRaw == Signed(items, 5)
  }

  lemma {:induction false} StateSays(items: seq<Item>)
    ensures GlobalsSay(Interpret(FRESH, items).g, items)
  {
    StateMeans(items);
    var g := Interpret(FRESH, items).g;
    assert GlobalMeans(g, LastGlobal(items, 0), 0) && GlobalMeans(g, LastGlobal(items, 1), 1);
    assert GlobalMeans(g, LastGlobal(items, 2), 2) && GlobalMeans(g, LastGlobal(items, 3), 3);
    assert GlobalMeans(g, LastGlobal(items, 4), 4) && GlobalMeans(g, LastGlobal(items, 5), 5);
    assert GlobalMeans(g, LastGlobal(items, 6), 6) && GlobalMeans(g, LastGlobal(items, 7), 7);
    assert GlobalMeans(g, LastGlobal(items, 8), 8) && GlobalMeans(g, LastGlobal(items, 9), 9);
  }

  lemma MadeMeans(p: Parser, f: Field, items: seq<Item>, main: Item, j: nat)
    requires GlobalsSay(p.g, items) && p.usages == Kept(Declared(items)) && AddsFields(main)
    requires Placeless(f) == Placeless(MakeField(p, MainKind(main.tag), j))
    ensures Means(f, items, main, j)
  {
  }

  lemma {:induction false} FieldsOnlyGrow(items: seq<Item>, it: Item)
    ensures Interpret(FRESH, items).fields <= Interpret(FRESH, items + [it]).fields
  {
    InterpretSnoc(FRESH, items, it);
    if AddsFields(it) { AddFieldsAdds(Interpret(FRESH, items), MainKind(it.tag), 0, 0); }
  }

  /** Field i of the whole list comes from item m. */
  ghost predicate ComesFrom(items: seq<Item>, i: nat, m: nat)
    requires i < |Interpret(FRESH, items).fields| && m < |items|
  {
    var k := |Interpret(FRESH, items[..m]).fields|;
    k <= i && AddsFields(items[m]) && Means(Interpret(FRESH, items).fields[i], items[..m], items[m], i - k)
  }

  /** Every field of every item list comes from one of its main items and says what the
      items before that one say. */
  lemma {:induction false} EveryFieldMeans(items: seq<Item>, i: nat) returns (m: nat)
    requires i < |Interpret(FRESH, items).fields|
    ensures m < |items| && ComesFrom(items, i, m)
  {
    var n := |items| - 1;
    var init, it := items[..n], items[n];
    assert items == init + [it];
    FieldsOnlyGrow(init, it);
    if i < |Interpret(FRESH, init).fields| {
      m := EveryFieldMeans(init, i);
      assert init[..m] == items[..m];
    } else {
      m := n;
      NoOtherAdds(init, it);
      MainItemMeans(init, it, i - |Interpret(FRESH, init).fields|);
    }
  }

  lemma NoOtherAdds(items: seq<Item>, it: Item)
    ensures !AddsFields(it) ==> |Interpret(FRESH, items + [it]).fields| == |Interpret(FRESH, items).fields|
  {
    InterpretSnoc(FRESH, items, it);
  }

  // --- Collections ---

  /** A collection is named by the page in force and the first usage declared for it. */
  lemma CollectionMeans(items: seq<Item>, it: Item)
    requires it.kind == 0 && it.tag == 0x0A
    ensures var us := Declared(items);
            var page := Value(items, 0) % 0x1_0000;
            Open(items + [it]).0 == Open(items).0 + [page * 0x1_0000 + if us == [] then 0 else us[0]]
  {
    StateMeans(items);
    StateSays(items);
    assert (items + [it])[..|items|] == items;
  }

  lemma PathShape(open: seq<nat>, own: nat)
    requires |open| <= MAX_PATH
    ensures FieldPath(open, own) == open + [own] <==> |open| <= 7
    ensures |open| == 8 ==> FieldPath(open, own) == open
  {
  }

  lemma MadePath(p: Parser, kind: FieldType, k: nat, f: Field)
    requires Placeless(f) == Placeless(MakeField(p, kind, k))
    ensures f.path == FieldPath(p.stack, f.page * 0x1_0000 + f.usage)
  {
    assert MakeField(p, kind, k).path == FieldPath(p.stack, Up(p.g.page, MakeField(p, kind, k).usage));
  }

  lemma {:induction false} AddedPath(items: seq<Item>, main: Item, i: nat)
    requires AddsFields(main) && Open(items).1 <= MAX_PATH
    requires |Interpret(FRESH, items).fields| <= i < |Interpret(FRESH, items + [main]).fields|
    ensures var f := Interpret(FRESH, items + [main]).fields[i];
            f.path == FieldPath(Open(items).0, f.page * 0x1_0000 + f.usage)
  {
    var p := Interpret(FRESH, items);
    AddedField(items, main, i);
    MadePath(p, MainKind(main.tag), i - |p.fields|, Interpret(FRESH, items + [main]).fields[i]);
    StackIsOpen(items);
  }

  /** A field added while no more than eight levels were ever open carries the
      open collections followed by its own usage exactly when at most seven are
      open; under eight its own usage is left out. */
  lemma {:induction false} PathIsOpenPlusUsage(items: seq<Item>, main: Item, j: nat)
    requires AddsFields(main) && Open(items).1 <= MAX_PATH
    requires j < |Interpret(FRESH, items + [main]).fields| - |Interpret(FRESH, items).fields|
    ensures var f := Interpret(FRESH, items + [main]).fields[|Interpret(FRESH, items).fields| + j];
            && (f.path == Open(items).0 + [f.page * 0x1_0000 + f.usage] <==> |Open(items).0| <= 7)
            && (|Open(items).0| == 8 ==> f.path == Open(items).0)
  {
    var i := |Interpret(FRESH, items).fields| + j;
    var f := Interpret(FRESH, items + [main]).fields[i];
    AddedPath(items, main, i);
    PathShape(Open(items).0, f.page * 0x1_0000 + f.usage);
  }
}
