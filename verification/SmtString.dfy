/** Decoding a string from SMT registers (src/ups/ups_smt.c:72-97).  Characters
    are byte values; the decoder strips leading NULs and trailing spaces and NULs. */
module SmtString {
  predicate Blank(b: int) { b == 0x20 || b == 0 }

  /** A 16-bit register as its high and low byte. */
  datatype Reg = Reg(hi: int, lo: int)

  function Bytes(regs: seq<Reg>): seq<int> {
    if regs == [] then [] else Bytes(regs[..|regs| - 1]) + [regs[|regs| - 1].hi, regs[|regs| - 1].lo]
  }

  function DropNuls(s: seq<int>): seq<int> {
    if s != [] && s[0] == 0 then DropNuls(s[1..]) else s
  }

  /** As much of the string as fits. */
  function Take(s: seq<int>, n: nat): (t: seq<int>)
    ensures t <= s && |t| <= n && (t == s || |t| == n)
  {
    if |s| <= n then s else s[..n]
  }

  function Trim(s: seq<int>): (t: seq<int>)
    ensures |t| <= |s| && t == s[..|t|]
    ensures forall j :: |t| <= j < |s| ==> Blank(s[j])
    ensures t != [] ==> !Blank(t[|t| - 1])
  {
    if s != [] && Blank(s[|s| - 1]) then Trim(s[..|s| - 1]) else s
  }

  // --- What the loops compute ---

  /** The bytes kept of the register that starts the string: its NULs go, both of them. */
  function NonZero(r: Reg): seq<int> {
    (if r.hi != 0 then [r.hi] else []) + if r.lo != 0 then [r.lo] else []
  }

  function Content(regs: seq<Reg>): seq<int> {
    if regs == [] then []
    else
      var before, r := Content(regs[..|regs| - 1]), regs[|regs| - 1];
      if before == [] then NonZero(r) else before + [r.hi, r.lo]
  }

  lemma {:induction false} ContentGrows(regs: seq<Reg>, i: nat, max: nat)
    requires i <= |regs| && max <= |Content(regs[..i])|
    ensures Take(Content(regs), max) == Take(Content(regs[..i]), max)
    decreases |regs|
  {
    if i < |regs| {
      var init := regs[..|regs| - 1];
      assert init[..i] == regs[..i];
      ContentGrows(init, i, max);
    } else {
      assert regs[..i] == regs;
    }
  }

  lemma {:induction false} ContentFits(regs: seq<Reg>)
    ensures |Content(regs)| <= 2 * |regs|
  {
    if regs != [] { ContentFits(regs[..|regs| - 1]); }
  }

  method PutFirst(out: array<int>, max: nat, hi: int, lo: int) returns (k: nat)
    requires 0 < max < out.Length
    modifies out
    ensures k <= max && out[..k] == Take(NonZero(Reg(hi, lo)), max)
  {
    k := 0;
    if hi != 0 { out[k] := hi; k := k + 1; }
    if lo != 0 && k < max { out[k] := lo; k := k + 1; }
  }

  method PutNext(out: array<int>, n: nat, max: nat, hi: int, lo: int) returns (k: nat)
    requires n < max < out.Length
    modifies out
    ensures k <= max && out[..k] == Take(old(out[..n]) + [hi, lo], max)
  {
    k := n;
    out[k] := hi;
    k := k + 1;
    if k < max { out[k] := lo; k := k + 1; }
  }

  method Fill(regs: seq<Reg>, out: array<int>, max: nat) returns (k: nat)
    requires max < out.Length
    modifies out
    ensures k <= max && out[..k] == Take(Content(regs), max)
  {
    k := 0;
    var i := 0;
    while i < |regs| && k < max
      invariant i <= |regs| && k <= max
      invariant out[..k] == Take(Content(regs[..i]), max)
    {
      assert regs[..i + 1] == regs[..i] + [regs[i]];
      if k == 0 {
        k := PutFirst(out, max, regs[i].hi, regs[i].lo);
      } else {
        k := PutNext(out, k, max, regs[i].hi, regs[i].lo);
      }
      i := i + 1;
    }
    if i == |regs| { assert regs[..i] == regs; } else { ContentGrows(regs, i, max); }
  }

  method TrimBuffer(out: array<int>, n: nat) returns (k: nat)
    requires n < out.Length
    modifies out
    ensures k < out.Length && out[k] == 0 && out[..k] == Trim(old(out[..n]))
  {
    k := n;
    out[k] := 0;
    while k > 0 && (out[k - 1] == 0x20 || out[k - 1] == 0)
      invariant k <= n && out[k] == 0
      invariant out[..k] == old(out[..k]) && Trim(old(out[..k])) == Trim(old(out[..n]))
    {
      assert out[..k][..k - 1] == out[..k - 1];
      k := k - 1;
      out[k] := 0;
    }
  }

  method Decode(regs: seq<Reg>, out: array<int>) returns (k: nat)
    requires out.Length > 0
    modifies out
    ensures k < out.Length && out[k] == 0
    ensures out[..k] == Trim(Take(Content(regs), out.Length - 1))
  {
    var max := out.Length - 1;
    if max > |regs| * 2 { max := |regs| * 2; }
    ContentFits(regs);
    k := Fill(regs, out, max);
    k := TrimBuffer(out, k);
  }

  // --- When that is stripping ---

  /** The first register that is not zero (or zero), and the bytes after it. */
  function First(regs: seq<Reg>): Reg {
    if regs == [] then Reg(0, 0)
    else if Content(regs[..|regs| - 1]) != [] then First(regs[..|regs| - 1])
    else regs[|regs| - 1]
  }

  function Rest(regs: seq<Reg>): seq<int> {
    if regs == [] || Content(regs[..|regs| - 1]) == [] then []
    else Rest(regs[..|regs| - 1]) + [regs[|regs| - 1].hi, regs[|regs| - 1].lo]
  }

  lemma {:induction false} ContentSplits(regs: seq<Reg>)
    ensures Content(regs) == NonZero(First(regs)) + Rest(regs)
  {
    if regs != [] { ContentSplits(regs[..|regs| - 1]); }
  }

  lemma {:induction false} DropNulsConcat(a: seq<int>, b: seq<int>)
    ensures DropNuls(a + b) == if DropNuls(a) == [] then DropNuls(b) else DropNuls(a) + b
  {
    if a == [] {
      assert a + b == b;
    } else {
      assert (a + b)[1..] == a[1..] + b;
      DropNulsConcat(a[1..], b);
    }
  }

  lemma DropNulsPair(r: Reg)
    ensures DropNuls([r.hi, r.lo]) == if r.hi != 0 then [r.hi, r.lo] else NonZero(r)
  {
    assert [r.hi, r.lo][1..] == [r.lo];
    assert DropNuls([r.lo]) == if r.lo == 0 then [] else [r.lo] by { assert [r.lo][1..] == []; }
  }

  lemma {:induction false} StrippedEmpty(regs: seq<Reg>)
    ensures DropNuls(Bytes(regs)) == [] <==> Content(regs) == []
  {
    if regs != [] {
      var r := regs[|regs| - 1];
      StrippedEmpty(regs[..|regs| - 1]);
      DropNulsPair(r);
      DropNulsConcat(Bytes(regs[..|regs| - 1]), [r.hi, r.lo]);
    }
  }

  lemma StripMore(bytes: seq<int>, first: seq<int>, rest: seq<int>, r: Reg)
    requires DropNuls(bytes) == first + rest && first + rest != []
    ensures DropNuls(bytes + [r.hi, r.lo]) == first + (rest + [r.hi, r.lo])
  {
    DropNulsConcat(bytes, [r.hi, r.lo]);
  }

  lemma {:induction false} StrippedSplits(regs: seq<Reg>)
    ensures DropNuls(Bytes(regs)) == DropNuls([First(regs).hi, First(regs).lo]) + Rest(regs)
  {
    if regs == [] {
      DropNulsPair(Reg(0, 0));
    } else {
      var init, r := regs[..|regs| - 1], regs[|regs| - 1];
      StrippedSplits(init);
      StrippedEmpty(init);
      if Content(init) == [] {
        DropNulsConcat(Bytes(init), [r.hi, r.lo]);
      } else {
        StripMore(Bytes(init), DropNuls([First(init).hi, First(init).lo]), Rest(init), r);
      }
    }
  }

  ghost predicate BlankWithin(r: seq<int>, max: nat) {
    forall j :: 0 <= j < |r| && j + 1 < max ==> Blank(r[j])
  }

  lemma BlankTail(a: int, r: seq<int>, max: nat)
    requires a != 0 && BlankWithin(r, max)
    ensures Trim(Take([a] + r, max)) == Trim(Take([a, 0] + r, max))
  {
    var x, y := Take([a] + r, max), Take([a, 0] + r, max);
    assert forall i :: 0 < i < |x| ==> x[i] == r[i - 1];
    assert forall i :: 1 < i < |y| ==> y[i] == r[i - 2];
    assert |Trim(x)| <= 1 && |Trim(y)| <= 1;
    assert x == [] <==> y == [];
    if x != [] {
      assert x[0] == y[0] == a;
      assert |Trim(x)| == 1 <==> !Blank(a);
      assert |Trim(y)| == 1 <==> !Blank(a);
    }
  }

  /** If the two decodings agree, everything kept after the first byte is NUL. */
  lemma {:induction false} AgreeingIsNul(a: int, r: seq<int>, max: nat, t: seq<int>, i: nat)
    requires t <= Take([a] + r, max) && t <= Take([a, 0] + r, max) && 0 < i < |t|
    ensures t[i] == 0
  {
    assert t[i] == ([a, 0] + r)[i];
    if i > 1 {
      AgreeingIsNul(a, r, max, t, i - 1);
      assert t[i - 1] == ([a] + r)[i - 1] == r[i - 2];
    }
  }

  lemma VisibleTail(a: int, r: seq<int>, max: nat, j: nat)
    requires a != 0 && j < |r| && j + 1 < max && !Blank(r[j])
    ensures Trim(Take([a] + r, max)) != Trim(Take([a, 0] + r, max))
  {
    var x := Take([a] + r, max);
    var t := Trim(x);
    assert x[j + 1] == r[j];
    if t == Trim(Take([a, 0] + r, max)) { AgreeingIsNul(a, r, max, t, j + 1); }
  }

  /** Dropping the NUL after the first byte is invisible exactly when what follows
      in the buffer is blank. */
  lemma MissingNul(a: int, r: seq<int>, max: nat)
    requires a != 0
    ensures Trim(Take([a] + r, max)) == Trim(Take([a, 0] + r, max)) <==> BlankWithin(r, max)
  {
    if BlankWithin(r, max) {
      BlankTail(a, r, max);
    } else {
      var j :| 0 <= j < |r| && j + 1 < max && !Blank(r[j]);
      VisibleTail(a, r, max, j);
    }
  }

  /** The register that starts the string has a NUL after its character, and
      something visible follows it within the buffer. */
  predicate LosesNul(regs: seq<Reg>, max: nat) {
    && First(regs).hi != 0 && First(regs).lo == 0
    && exists j :: 0 <= j < |Rest(regs)| && j + 1 < max && !Blank(Rest(regs)[j])
  }

  lemma KeptBytes(f: Reg)
    ensures f.hi != 0 && f.lo == 0 ==> NonZero(f) == [f.hi] && DropNuls([f.hi, f.lo]) == [f.hi, 0]
    ensures !(f.hi != 0 && f.lo == 0) ==> NonZero(f) == DropNuls([f.hi, f.lo])
  {
    DropNulsPair(f);
  }

  /** Decoding strips leading NULs and trailing blanks, and changes nothing else,
      exactly when the string does not start with one character and a NUL. */
  lemma DecodeStripsExactly(regs: seq<Reg>, max: nat)
    ensures Trim(Take(Content(regs), max)) == Trim(Take(DropNuls(Bytes(regs)), max)) <==> !LosesNul(regs, max)
  {
    var f, rest := First(regs), Rest(regs);
    ContentSplits(regs);
    StrippedSplits(regs);
    KeptBytes(f);
    if f.hi != 0 && f.lo == 0 {
      MissingNul(f.hi, rest, max);
      assert LosesNul(regs, max) <==> !BlankWithin(rest, max);
    }
  }

  /** "A", NUL, "BC" in two registers decodes as "ABC". */
  lemma InteriorNulIsLost()
    ensures Trim(Take(Content([Reg(0x41, 0), Reg(0x42, 0x43)]), 4)) == [0x41, 0x42, 0x43]
    ensures Trim(Take(DropNuls(Bytes([Reg(0x41, 0), Reg(0x42, 0x43)])), 4)) == [0x41, 0, 0x42, 0x43]
  {
    var regs := [Reg(0x41, 0), Reg(0x42, 0x43)];
    assert regs[..1] == [Reg(0x41, 0)] && [Reg(0x41, 0)][..0] == [];
    assert Content(regs) == [0x41] + [0x42, 0x43] == [0x41, 0x42, 0x43];
    assert Bytes(regs) == [] + [0x41, 0] + [0x42, 0x43] == [0x41, 0, 0x42, 0x43];
  }
}
