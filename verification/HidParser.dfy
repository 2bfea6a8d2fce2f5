/** The one-pass descriptor loop of src/ups/hid_parser.c:33-157 and the field
    lookups around it, in place. */
module HidParser {
  import opened Bits
  import opened HidItems

  /** The little-endian value of an item's data bytes. */
  method ReadValue(desc: seq<Byte>, i: nat, size: nat) returns (val: nat)
    requires size in {0, 1, 2, 4} && i + size <= |desc|
    ensures val == Le(desc[i..i + size])
  {
    ghost var d := desc[i..i + size];
    assert d[0..] == d && d[size..] == [];
    var b0: nat, b1: nat, b2: nat, b3: nat := 0, 0, 0, 0;
    if size >= 1 { b0 := desc[i]; LeCons(d, 0); }
    if size >= 2 { b1 := desc[i + 1]; LeCons(d, 1); }
    if size == 4 { b2, b3 := desc[i + 2], desc[i + 3]; LeCons(d, 2); LeCons(d, 3); }
    val := b0 + 256 * b1 + 65536 * b2 + 16777216 * b3;
  }

  /** The next token of the rest of a descriptor. */
  lemma NextToken(desc: seq<Byte>, i: nat)
    requires i < |desc|
    ensures var n := SizeOf(desc[i]);
            Tokenise(desc[i..]) == if i + 1 + n > |desc| then []
                                   else [ItemOf(desc[i], desc[i + 1..i + 1 + n])] + Tokenise(desc[i + 1 + n..])
  {
    var n, rest := SizeOf(desc[i]), desc[i..];
    if i + 1 + n <= |desc| {
      assert rest[1..1 + n] == desc[i + 1..i + 1 + n] && rest[1 + n..] == desc[i + 1 + n..];
      assert Tokenise(rest) == [ItemOf(rest[0], rest[1..1 + n])] + Tokenise(rest[1 + n..]);
    }
  }

  /** The fields of one Input, Output or Feature item. */
  method AddFieldsInPlace(g: Globals, stack: seq<nat>, usages: seq<nat>, kind: FieldType,
                          offsets0: map<Report, nat>, fields0: seq<Field>)
    returns (offsets: map<Report, nat>, fields: seq<Field>)
    ensures AddFields(Parser(g, stack, usages, offsets0, fields0), kind, 0) == Parser(g, stack, usages, offsets, fields)
  {
    offsets, fields := offsets0, fields0;
    var fi := 0;
    while fi < g.count && |fields| < MAX_FIELDS
      invariant AddFields(Parser(g, stack, usages, offsets, fields), kind, fi)
             == AddFields(Parser(g, stack, usages, offsets0, fields0), kind, 0)
      decreases g.count - fi
    {
      var u := if fi < |usages| then usages[fi] else if |usages| > 0 then usages[|usages| - 1] else 0;
      var path := stack;
      if |path| < MAX_PATH { path := path + [Up(g.page, u)]; }
      var at := if (g.id, kind) in offsets then offsets[(g.id, kind)] else 0;
      var size := g.size % 0x1_0000;
      var f := Field(path, g.page, u, g.id, at, size, kind, g.logicalMin, g.logicalMax,
                     g.physicalMin, g.physicalMax, UnitExponent(g.unitExpRaw), g.unit);
      assert f == MakeField(Parser(g, stack, usages, offsets, fields), kind, fi);
      offsets := offsets[(g.id, kind) := (at + size) % 0x1_0000];
      fields := fields + [f];
      fi := fi + 1;
    }
  }

  method SetGlobalInPlace(g0: Globals, tag: nat, val: nat, size: nat) returns (g: Globals)
    ensures g == SetGlobal(g0, tag, val, size)
  {
    g := g0;
    match tag
    case 0 => g := g.(page := val % 0x1_0000);
    case 1 => g := g.(logicalMin := SignedOf(val, size));
    case 2 => g := g.(logicalMax := SignedOf(val, size));
    case 3 => g := g.(physicalMin := SignedOf(val, size));
    case 4 => g := g.(physicalMax := SignedOf(val, size));
    case 5 => g := g.(unitExpRaw := SignedOf(val, size));
    case 6 => g := g.(unit := val);
    case 7 => g := g.(size := val);
    case 8 => g := g.(id := val % 0x100);
    case 9 => g := g.(count := val);
    case _ =>
  }

  /** A main item, on the parser's variables. */
  method MainItem(g: Globals, tag: nat, stack0: seq<nat>, usages0: seq<nat>,
                  offsets0: map<Report, nat>, fields0: seq<Field>)
    returns (stack: seq<nat>, usages: seq<nat>, offsets: map<Report, nat>, fields: seq<Field>)
    ensures forall data :: Apply(Parser(g, stack0, usages0, offsets0, fields0), Item(tag, 0, data))
                        == Parser(g, stack, usages, offsets, fields)
  {
    stack, usages, offsets, fields := stack0, usages0, offsets0, fields0;
    if tag == 0x0A {
      var u := if |usages| > 0 then usages[0] else 0;
      if |stack| < MAX_PATH { stack := stack + [Up(g.page, u)]; }
      usages := [];
    } else if tag == 0x0C {
      if |stack| > 0 { stack := stack[..|stack| - 1]; }
    } else if tag == 0x08 || tag == 0x09 || tag == 0x0B {
      var kind := if tag == 0x08 then Input else if tag == 0x09 then Output else Feature;
      offsets, fields := AddFieldsInPlace(g, stack, usages, kind, offsets, fields);
      usages := [];
    }
  }

  lemma InterpretCons(p: Parser, it: Item, items: seq<Item>)
    ensures Interpret(p, [it] + items) == Interpret(Apply(p, it), items)
  {
    assert ([it] + items)[1..] == items;
  }

  /** One item of any kind, on the parser's variables. */
  method OneItem(tag: nat, kind: nat, val: nat, size: nat, ghost data: seq<Byte>, g0: Globals, stack0: seq<nat>,
                 usages0: seq<nat>, offsets0: map<Report, nat>, fields0: seq<Field>)
    returns (g: Globals, stack: seq<nat>, usages: seq<nat>, offsets: map<Report, nat>, fields: seq<Field>)
    requires val == Le(data) && size == |data|
    ensures Apply(Parser(g0, stack0, usages0, offsets0, fields0), Item(tag, kind, data))
            == Parser(g, stack, usages, offsets, fields)
  {
    g, stack, usages, offsets, fields := g0, stack0, usages0, offsets0, fields0;
    if kind == 1 {
      g := SetGlobalInPlace(g, tag, val, size);
    } else if kind == 2 {
      if tag == 0 && |usages| < MAX_USAGES { usages := usages + [val % 0x1_0000]; }
    } else if kind == 0 {
      stack, usages, offsets, fields := MainItem(g, tag, stack, usages, offsets, fields);
    }
  }

  /** Reading one item is one step of interpreting the rest. */
  lemma Consume(p: Parser, desc: seq<Byte>, i: nat, n: nat)
    requires i < |desc| && n == SizeOf(desc[i]) && i + 1 + n <= |desc|
    ensures Interpret(p, Tokenise(desc[i..]))
            == Interpret(Apply(p, ItemOf(desc[i], desc[i + 1..i + 1 + n])), Tokenise(desc[i + 1 + n..]))
  {
    NextToken(desc, i);
    InterpretCons(p, ItemOf(desc[i], desc[i + 1..i + 1 + n]), Tokenise(desc[i + 1 + n..]));
  }

  /** One pass over the bytes equals tokenising and then interpreting, on every
      byte string, and always terminates. */
  method ParseDescriptor(desc: seq<Byte>) returns (fields: seq<Field>)
    ensures fields == Interpret(FRESH, Tokenise(desc)).fields
  {
    var g, stack, usages, offsets := NO_GLOBALS, [], [], map[];
    fields := [];
    var i := 0;
    assert desc[0..] == desc;
    while i < |desc|
      invariant i <= |desc|
      invariant Interpret(Parser(g, stack, usages, offsets, fields), Tokenise(desc[i..]))
             == Interpret(FRESH, Tokenise(desc))
      decreases |desc| - i
    {
      var b := desc[i];
      var bsize := b % 4;
      if bsize == 3 { bsize := 4; }
      if i + 1 + bsize > |desc| {
        NextToken(desc, i);
        return;
      }
      Consume(Parser(g, stack, usages, offsets, fields), desc, i, bsize);
      var val := ReadValue(desc, i + 1, bsize);
      g, stack, usages, offsets, fields := OneItem(b / 16, b / 4 % 4, val, bsize, desc[i + 1..i + 1 + bsize],
                                                   g, stack, usages, offsets, fields);
      i := i + 1 + bsize;
    }
  }

  /** The searched path is the end of the field's own path. */
  predicate Matches(f: Field, path: seq<nat>, kind: FieldType) {
    f.kind == kind && |path| <= |f.path| && f.path[|f.path| - |path|..] == path
  }

  /** The first field of the type whose path ends in `path`, if there is one. */
  method FindField(fields: seq<Field>, path: seq<nat>, kind: FieldType) returns (found: bool, at: nat)
    ensures found ==> at < |fields| && Matches(fields[at], path, kind)
    ensures found ==> forall i :: 0 <= i < at ==> !Matches(fields[i], path, kind)
    ensures !found ==> forall i :: 0 <= i < |fields| ==> !Matches(fields[i], path, kind)
  {
    at := 0;
    while at < |fields|
      invariant at <= |fields|
      invariant forall i :: 0 <= i < at ==> !Matches(fields[i], path, kind)
    {
      var f := fields[at];
      if f.kind == kind && |f.path| >= |path| {
        var offset := |f.path| - |path|;
        var j := 0;
        while j < |path| && f.path[offset + j] == path[j]
          invariant j <= |path|
          invariant forall k :: 0 <= k < j ==> f.path[offset + k] == path[k]
        {
          j := j + 1;
        }
        if j == |path| {
          assert f.path[offset..] == path;
          return true, at;
        }
        assert f.path[offset..][j] != path[j];
      }
      at := at + 1;
    }
    found := false;
  }
}
