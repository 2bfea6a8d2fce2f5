/** Input-voltage alerts over whole runs (src/alerts/alerts.c:65-77, 119-147):
    they alternate, and the dead band bounds how many there can be. */
module AlertHysteresis {
  import opened Options
  import opened Edges
  import opened Alerts
  import opened AlertRuns

  function Abs(x: real): real { if x < 0.0 then -x else x }

  /** Total variation of a run of samples. */
  function Variation(xs: seq<real>): real {
    if |xs| <= 1 then 0.0 else Variation(xs[..|xs| - 1]) + Abs(xs[|xs| - 1] - xs[|xs| - 2])
  }

  /** The values of the trip flag after each sample, with entry and clearing apart by `band`. */
  function Flags(start: bool, xs: seq<real>, enter: real, band: real): (r: seq<bool>)
    ensures |r| == |xs|
  {
    if xs == [] then []
    else
      var before := Flags(start, xs[..|xs| - 1], enter, band);
      before + [HighNow(Final(start, before), xs[|xs| - 1], enter, band)]
  }

  function Changes(start: bool, flags: seq<bool>): nat {
    if flags == [] then 0
    else Changes(start, flags[..|flags| - 1])
         + if Final(start, flags[..|flags| - 1]) != flags[|flags| - 1] then 1 else 0
  }

  lemma EdgesAreChanges<T>(start: bool, flags: seq<bool>, on: T, off: T)
    ensures |EdgeLog(start, flags, on, off)| == Changes(start, flags)
  {
    if flags != [] { EdgesAreChanges(start, flags[..|flags| - 1], on, off); }
  }

  /** `n` bands. */
  function Bands(n: nat, band: real): real { if n == 0 then 0.0 else Bands(n - 1, band) + band }

  lemma BandsIsProduct(n: nat, band: real)
    ensures Bands(n, band) == n as real * band
  {
    if n > 0 {
      BandsIsProduct(n - 1, band);
      assert n as real == (n - 1) as real + 1.0;
    }
  }

  lemma VariationNonNegative(xs: seq<real>)
    ensures Variation(xs) >= 0.0
  {
    if |xs| > 1 { VariationNonNegative(xs[..|xs| - 1]); }
  }

  /** The last change happened at a sample `anchor` on its own side of the band,
      and everything before it already cost (n - 1) bands. */
  ghost predicate Charged(n: nat, flag: bool, last: real, anchor: real, cost: real, enter: real, band: real) {
    n >= 1 ==>
      && Bands(n - 1, band) + Abs(last - anchor) <= cost
      && (if flag then anchor > enter else anchor <= enter - band)
  }

  lemma ChargeKeep(n: nat, flag: bool, last: real, x: real, anchor: real, cost: real, enter: real, band: real)
    requires Charged(n, flag, last, anchor, cost, enter, band)
    ensures Charged(n, flag, x, anchor, cost + Abs(x - last), enter, band)
  {}

  lemma {:induction false} ChangesCostVariation(start: bool, xs: seq<real>, enter: real, band: real)
    returns (anchor: real)
    requires band >= 0.0 && xs != []
    ensures var flags := Flags(start, xs, enter, band);
            Charged(Changes(start, flags), Final(start, flags), xs[|xs| - 1], anchor, Variation(xs), enter, band)
  {
    var init, x := xs[..|xs| - 1], xs[|xs| - 1];
    var flags0 := Flags(start, init, enter, band);
    var n0, flag0 := Changes(start, flags0), Final(start, flags0);
    var flag := HighNow(flag0, x, enter, band);
    assert Flags(start, xs, enter, band) == flags0 + [flag];
    assert (flags0 + [flag])[..|flags0|] == flags0;
    if init == [] {
      anchor := x;
    } else {
      anchor := ChangesCostVariation(start, init, enter, band);
      var last := init[|init| - 1];
      assert Variation(xs) == Variation(init) + Abs(x - last);
      if flag == flag0 {
        ChargeKeep(n0, flag0, last, x, anchor, Variation(init), enter, band);
      } else {
        VariationNonNegative(init);
        anchor := x;
      }
    }
  }

  /** (n - 1) bands fit into a total. */
  ghost predicate BandsFit(n: nat, band: real, total: real) {
    n >= 1 ==> (n - 1) as real * band <= total
  }

  lemma BandsThatFit(n: nat, band: real, total: real)
    requires n >= 1 ==> Bands(n - 1, band) <= total
    ensures BandsFit(n, band, total)
  {
    if n >= 1 { BandsIsProduct(n - 1, band); }
  }

  /** All but one of the edges of a tripping flag each cost a band of variation. */
  lemma {:induction false} TripsFitVariation<T>(start: bool, xs: seq<real>, enter: real, band: real, on: T, off: T)
    requires band >= 0.0
    ensures BandsFit(|EdgeLog(start, Flags(start, xs, enter, band), on, off)|, band, Variation(xs))
  {
    var flags := Flags(start, xs, enter, band);
    EdgesAreChanges(start, flags, on, off);
    if xs != [] {
      var anchor := ChangesCostVariation(start, xs, enter, band);
      BandsThatFit(Changes(start, flags), band, Variation(xs));
    }
  }

  // --- The two alerts ---

  function Voltages(ds: seq<Input>): (r: seq<real>)
    ensures |r| == |ds| && forall i :: 0 <= i < |ds| ==> r[i] == ds[i].inputVoltage
  {
    seq(|ds|, i requires 0 <= i < |ds| => ds[i].inputVoltage)
  }

  function Negated(xs: seq<real>): (r: seq<real>)
    ensures |r| == |xs| && forall i :: 0 <= i < |xs| ==> r[i] == -xs[i]
  {
    seq(|xs|, i requires 0 <= i < |xs| => -xs[i])
  }

  /** The low alert is the high alert of the negated voltage. */
  lemma LowIsMirroredHigh(prev: bool, v: real, enter: real, band: real)
    ensures LowNow(prev, v, enter, band) == HighNow(prev, -v, -enter, band)
  {}

  lemma NegatedVariation(xs: seq<real>)
    ensures Variation(Negated(xs)) == Variation(xs)
  {
    if |xs| > 1 {
      var n := |xs| - 1;
      NegatedVariation(xs[..n]);
      assert Negated(xs)[..n] == Negated(xs[..n]);
    }
  }

  /** What one side watches: the samples, as they rise towards its threshold. */
  function Watched(high: bool, ds: seq<Input>): seq<real> {
    if high then Voltages(ds) else Negated(Voltages(ds))
  }

  function Trip(high: bool, t: Thresholds, c: Config): real {
    if high then EnterHigh(t, c) else -EnterLow(t, c)
  }

  function SideFlag(high: bool, v: Volts): bool { if high then v.high else v.low }

  predicate SideOn(high: bool, t: Thresholds) { if high then t.high > 0 else t.low > 0 }

  function Side(high: bool): Alert { if high then HighAlert else LowAlert }

  lemma WatchedSnoc(high: bool, ds: seq<Input>)
    requires ds != []
    ensures var n := |ds| - 1;
            Watched(high, ds)[..n] == Watched(high, ds[..n])
            && Watched(high, ds)[n] == if high then ds[n].inputVoltage else -ds[n].inputVoltage
  {}

  function SideFlags(high: bool, s: State, ds: seq<Input>, t: Thresholds, c: Config): (r: seq<bool>)
    ensures |r| == |ds|
  {
    Flags(SideFlag(high, s.volts), Watched(high, ds), Trip(high, t, c), c.deadband as real)
  }

  /** The engine's own flag is the one tripped by the watched samples. */
  lemma {:induction false} SideFlagsAreState(high: bool, s: State, ds: seq<Input>, t: Thresholds, c: Config)
    requires SideOn(high, t)
    ensures Final(SideFlag(high, s.volts), SideFlags(high, s, ds, t, c))
         == SideFlag(high, After(s, ds, Some(t), c).volts)
  {
    if ds != [] {
      var n := |ds| - 1;
      SideFlagsAreState(high, s, ds[..n], t, c);
      WatchedSnoc(high, ds);
    }
  }

  lemma SideFlagsSnoc(high: bool, s: State, ds: seq<Input>, t: Thresholds, c: Config)
    requires ds != []
    ensures SideFlags(high, s, ds, t, c)[..|ds| - 1] == SideFlags(high, s, ds[..|ds| - 1], t, c)
  {
    WatchedSnoc(high, ds);
  }

  lemma {:induction false} SideNotices(tabs: Tables, high: bool, a: State, b: State)
    ensures Only(Notices(tabs, a, b), On(Side(high)), Off(Side(high)))
         == Edge(SideFlag(high, a.volts), SideFlag(high, b.volts), On(Side(high)), Off(Side(high)))
  {
    OnlyAlert(tabs, a, b, Side(high));
  }

  /** A side's notifications within the whole log are the edges of its flag. */
  lemma {:induction false} SideLog(tabs: Tables, high: bool, s: State, ds: seq<Input>, t: Thresholds, c: Config)
    requires SideOn(high, t)
    ensures Only(Log(tabs, s, ds, Some(t), c), On(Side(high)), Off(Side(high)))
         == EdgeLog(SideFlag(high, s.volts), SideFlags(high, s, ds, t, c), On(Side(high)), Off(Side(high)))
  {
    if ds != [] {
      var n := |ds| - 1;
      var a, b := After(s, ds[..n], Some(t), c), After(s, ds, Some(t), c);
      SideLog(tabs, high, s, ds[..n], t, c);
      OnlyAppend(Log(tabs, s, ds[..n], Some(t), c), Notices(tabs, a, b), On(Side(high)), Off(Side(high)));
      SideNotices(tabs, high, a, b);
      SideFlagsAreState(high, s, ds[..n], t, c);
      SideFlagsAreState(high, s, ds, t, c);
      SideFlagsSnoc(high, s, ds, t, c);
      var fs := SideFlags(high, s, ds, t, c);
      assert fs == fs[..n] + [fs[n]];
    }
  }

  lemma WatchedVariation(high: bool, ds: seq<Input>)
    ensures Variation(Watched(high, ds)) == Variation(Voltages(ds))
  {
    NegatedVariation(Voltages(ds));
  }

  /** With a dead band of at least 0, all notifications but one cost a band of
      the total variation of the input voltage each. */
  lemma {:induction false} AlertsFitVariation(tabs: Tables, high: bool, s: State, ds: seq<Input>,
                                              t: Thresholds, c: Config)
    requires SideOn(high, t) && c.deadband >= 0
    ensures BandsFit(|Only(Log(tabs, s, ds, Some(t), c), On(Side(high)), Off(Side(high)))|,
                     c.deadband as real, Variation(Voltages(ds)))
  {
    SideLog(tabs, high, s, ds, t, c);
    SideFits(high, s, ds, t, c);
  }

  lemma SideFits(high: bool, s: State, ds: seq<Input>, t: Thresholds, c: Config)
    requires c.deadband >= 0
    ensures BandsFit(|EdgeLog(SideFlag(high, s.volts), SideFlags(high, s, ds, t, c), On(Side(high)), Off(Side(high)))|,
                     c.deadband as real, Variation(Voltages(ds)))
  {
    TripsFitVariation(SideFlag(high, s.volts), Watched(high, ds), Trip(high, t, c), c.deadband as real,
                      On(Side(high)), Off(Side(high)));
    WatchedVariation(high, ds);
  }
}
