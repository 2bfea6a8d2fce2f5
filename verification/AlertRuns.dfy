/** What the alert engine promises over whole runs of polls
    (src/alerts/alerts.c:14-29, 42-147, 187-248). */
module AlertRuns {
  import opened Options
  import opened Edges
  import opened Words
  import opened Alerts

  function After(s: State, ds: seq<Input>, t: Option<Thresholds>, c: Config): State {
    if ds == [] then s else Next(After(s, ds[..|ds| - 1], t, c), ds[|ds| - 1], t, c)
  }

  /** Every notification of a run, in order. */
  function Log(tabs: Tables, s: State, ds: seq<Input>, t: Option<Thresholds>, c: Config): seq<Notice> {
    if ds == [] then []
    else
      var init := ds[..|ds| - 1];
      Log(tabs, s, init, t, c) + Notices(tabs, After(s, init, t, c), After(s, ds, t, c))
  }

  // --- Registers: raised minus cleared is the change of the bit ---

  lemma GeneralIsGood() ensures DistinctNames(GENERAL) {}
  lemma PowerIsGood() ensures DistinctNames(POWER) {}
  lemma BatteryIsGood() ensures DistinctNames(BATTERY) {}

  ghost predicate GoodTables(tabs: Tables) {
    DistinctNames(tabs.general) && DistinctNames(tabs.power) && DistinctNames(tabs.battery)
  }

  /** No table uses a name twice. */
  lemma {:induction false} TablesAreGood()
    ensures GoodTables(TABLES)
  {
    GeneralIsGood();
    PowerIsGood();
    BatteryIsGood();
  }

  function Count(notes: seq<Notice>, x: Notice): nat { multiset(notes)[x] }

  lemma CountAppend(a: seq<Notice>, b: seq<Notice>, x: Notice)
    ensures Count(a + b, x) == Count(a, x) + Count(b, x)
  {}

  function OneNamed(reg: Register, name: ErrorName, raised: bool): Notice {
    if raised then Raised(reg, name) else Cleared(reg, name)
  }

  lemma CountNamed(reg: Register, names: seq<ErrorName>, raised: bool, x: Notice)
    ensures Count(Named(reg, names, raised), x)
         == if x == OneNamed(reg, x.name, raised) then multiset(names)[x.name] else 0
    requires x.Raised? || x.Cleared?
  {
    if names != [] {
      var n := |names| - 1;
      CountNamed(reg, names[..n], raised, x);
      assert Named(reg, names, raised) == Named(reg, names[..n], raised) + [OneNamed(reg, names[n], raised)];
      assert names == names[..n] + [names[n]];
    }
  }

  function Changed(prev: Word, now: Word, bit: nat, up: bool): bool {
    if up then IsSet(now, bit) && !IsSet(prev, bit) else IsSet(prev, bit) && !IsSet(now, bit)
  }

  lemma CountDecoded(table: seq<Row>, prev: Word, now: Word, k: nat)
    requires DistinctNames(table) && k < |table|
    ensures multiset(Decode(now - prev, table))[table[k].name]
         == if Changed(prev, now, table[k].bit, true) then 1 else 0
  {
    DecodeNamesBit(now - prev, table, |table|, k);
  }

  lemma CountPair(reg: Register, ups: seq<ErrorName>, downs: seq<ErrorName>, x: Notice)
    requires x.Raised? || x.Cleared?
    ensures Count(Named(reg, ups, true) + Named(reg, downs, false), x)
         == if x.reg != reg then 0 else multiset(if x.Raised? then ups else downs)[x.name]
  {
    CountNamed(reg, ups, true, x);
    CountNamed(reg, downs, false, x);
    CountAppend(Named(reg, ups, true), Named(reg, downs, false), x);
  }

  lemma CountSame(reg: Register, table: seq<Row>, prev: Word, now: Word, k: nat, up: bool)
    requires DistinctNames(table) && k < |table|
    ensures Count(RegisterNotices(reg, table, prev, now), OneNamed(reg, table[k].name, up))
         == if Changed(prev, now, table[k].bit, up) then 1 else 0
  {
    CountPair(reg, Decode(now - prev, table), Decode(prev - now, table), OneNamed(reg, table[k].name, up));
    if up { CountDecoded(table, prev, now, k); } else { CountDecoded(table, now, prev, k); }
  }

  lemma CountRegister(reg: Register, table: seq<Row>, prev: Word, now: Word,
                      other: Register, known: seq<Row>, k: nat, up: bool)
    requires DistinctNames(known) && k < |known| && (reg == other ==> table == known)
    ensures Count(RegisterNotices(reg, table, prev, now), OneNamed(other, known[k].name, up))
         == if reg == other && Changed(prev, now, known[k].bit, up) then 1 else 0
  {
    if reg == other {
      CountSame(reg, table, prev, now, k, up);
    } else {
      CountPair(reg, Decode(now - prev, table), Decode(prev - now, table), OneNamed(other, known[k].name, up));
    }
  }

  lemma CountEdge(a: seq<Notice>, p: bool, n: bool, on: Notice, off: Notice, x: Notice)
    requires x != on && x != off
    ensures Count(a + Edge(p, n, on, off), x) == Count(a, x)
  {
    CountAppend(a, Edge(p, n, on, off), x);
  }

  lemma CountFlags(f: Flags, g: Flags, x: Notice)
    requires x.Raised? || x.Cleared?
    ensures Count(FlagNotices(f, g), x) == 0
  {
    var a := Edge(f.overload, g.overload, OverloadOn, OverloadOff);
    var b := Edge(f.fault, g.fault, FaultOn, FaultOff);
    var c := Edge(f.batReplace, g.batReplace, ReplaceOn, ReplaceOff);
    CountAppend(a + b, c, x);
    CountAppend(a, b, x);
  }

  lemma {:induction false} CountElsewhere(s: State, n: State, x: Notice)
    requires x.Raised? || x.Cleared?
    ensures Count(FlagNotices(s.flags, n.flags), x) == 0
    ensures Count(VoltNotices(s.volts, n.volts), x) == 0
    ensures Count(LevelNotices(s.levels, n.levels), x) == 0
  {
    CountFlags(s.flags, n.flags, x);
    CountEdge(Edge(s.volts.high, n.volts.high, HighOn, HighOff), s.volts.low, n.volts.low, LowOn, LowOff, x);
    CountEdge(Edge(s.levels.loadHigh, n.levels.loadHigh, LoadOn, LoadOff),
              s.levels.batLow, n.levels.batLow, BatLowOn, BatLowOff, x);
  }

  lemma {:induction false} CountThree(tabs: Tables, p: Registers, n: Registers, reg: Register, k: nat, up: bool)
    requires GoodTables(tabs) && k < |TableOf(reg, tabs)|
    ensures var row := TableOf(reg, tabs)[k];
            Count(RegNotices(tabs, p, n), OneNamed(reg, row.name, up))
            == if Changed(ValueOf(reg, p), ValueOf(reg, n), row.bit, up) then 1 else 0
  {
    var known := TableOf(reg, tabs);
    var x := OneNamed(reg, known[k].name, up);
    var g, w, b := RegisterNotices(General, tabs.general, p.general, n.general),
                   RegisterNotices(Power, tabs.power, p.power, n.power),
                   RegisterNotices(Battery, tabs.battery, p.battery, n.battery);
    CountRegister(General, tabs.general, p.general, n.general, reg, known, k, up);
    CountRegister(Power, tabs.power, p.power, n.power, reg, known, k, up);
    CountRegister(Battery, tabs.battery, p.battery, n.battery, reg, known, k, up);
    CountAppend(g + w, b, x);
    CountAppend(g, w, x);
  }

  lemma {:induction false} CountNotices(tabs: Tables, s: State, n: State, reg: Register, k: nat, up: bool)
    requires GoodTables(tabs) && k < |TableOf(reg, tabs)|
    ensures var row := TableOf(reg, tabs)[k];
            Count(Notices(tabs, s, n), OneNamed(reg, row.name, up))
            == if Changed(ValueOf(reg, s.regs), ValueOf(reg, n.regs), row.bit, up) then 1 else 0
  {
    var x := OneNamed(reg, TableOf(reg, tabs)[k].name, up);
    CountElsewhere(s, n, x);
    CountThree(tabs, s.regs, n.regs, reg, k, up);
  }

  /** For every known bit of the three error registers and every run of polls,
      whatever the thresholds: raised minus cleared notifications is the final
      bit minus the bit at the start. */
  lemma {:induction false} RaisedMinusCleared(tabs: Tables, s: State, ds: seq<Input>, t: Option<Thresholds>, c: Config,
                                              reg: Register, k: nat)
    requires GoodTables(tabs) && k < |TableOf(reg, tabs)|
    ensures var row := TableOf(reg, tabs)[k];
            var before := IsSet(ValueOf(reg, s.regs), row.bit);
            var after := IsSet(ValueOf(reg, After(s, ds, t, c).regs), row.bit);
            Count(Log(tabs, s, ds, t, c), Raised(reg, row.name)) - Count(Log(tabs, s, ds, t, c), Cleared(reg, row.name))
            == (if after then 1 else 0) - (if before then 1 else 0)
  {
    if ds != [] {
      var init := ds[..|ds| - 1];
      var a, b, row := After(s, init, t, c), After(s, ds, t, c), TableOf(reg, tabs)[k];
      RaisedMinusCleared(tabs, s, init, t, c, reg, k);
      CountNotices(tabs, a, b, reg, k, true);
      CountNotices(tabs, a, b, reg, k, false);
      CountAppend(Log(tabs, s, init, t, c), Notices(tabs, a, b), Raised(reg, row.name));
      CountAppend(Log(tabs, s, init, t, c), Notices(tabs, a, b), Cleared(reg, row.name));
    }
  }

  // --- Seeding ---

  lemma DecodeNone(table: seq<Row>, n: nat)
    requires n <= |table|
    ensures DecodeRows({}, table, n) == []
  {
    if n > 0 { DecodeNone(table, n - 1); }
  }

  lemma SameRegisterIsQuiet(reg: Register, table: seq<Row>, v: Word)
    ensures RegisterNotices(reg, table, v, v) == []
  {
    assert v - v == {};
    DecodeNone(table, |table|);
  }

  /** Checking the very data a seeded state came from raises no overload, fault,
      replace-battery or error-register alert. */
  lemma SeededCheckIsQuiet(tabs: Tables, s: State, d: Input, t: Option<Thresholds>, c: Config)
    ensures var seeded := Seed(s, d.status, d.regs);
            var n := Next(seeded, d, t, c);
            && FlagNotices(seeded.flags, n.flags) == [] && RegNotices(tabs, seeded.regs, n.regs) == []
            && Mask(seeded.flags, n.flags) == {}
            && Notices(tabs, seeded, n) == VoltNotices(s.volts, n.volts) + LevelNotices(s.levels, n.levels)
            && n.volts == NextVolts(s.volts, d.inputVoltage, t, c) && n.levels == NextLevels(s.levels, d, c)
  {
    SameRegisterIsQuiet(General, tabs.general, d.regs.general);
    SameRegisterIsQuiet(Power, tabs.power, d.regs.power);
    SameRegisterIsQuiet(Battery, tabs.battery, d.regs.battery);
  }

  // --- One alert's notifications within a run ---

  /** The alerts with a pair of notices of their own. */
  datatype Alert = OverloadAlert | FaultAlert | ReplaceAlert | HighAlert | LowAlert | LoadAlert | BatLowAlert

  function On(a: Alert): Notice {
    match a
    case OverloadAlert => OverloadOn case FaultAlert => FaultOn case ReplaceAlert => ReplaceOn
    case HighAlert => HighOn case LowAlert => LowOn case LoadAlert => LoadOn case BatLowAlert => BatLowOn
  }

  function Off(a: Alert): Notice {
    match a
    case OverloadAlert => OverloadOff case FaultAlert => FaultOff case ReplaceAlert => ReplaceOff
    case HighAlert => HighOff case LowAlert => LowOff case LoadAlert => LoadOff case BatLowAlert => BatLowOff
  }

  /** Whether the alert is on. */
  function Held(a: Alert, s: State): bool {
    match a
    case OverloadAlert => s.flags.overload case FaultAlert => s.flags.fault case ReplaceAlert => s.flags.batReplace
    case HighAlert => s.volts.high case LowAlert => s.volts.low
    case LoadAlert => s.levels.loadHigh case BatLowAlert => s.levels.batLow
  }

  function AlertEdge(a: Alert, s: State, n: State): seq<Notice> { Edge(Held(a, s), Held(a, n), On(a), Off(a)) }

  lemma EdgeShows(a: Alert, b: Alert, s: State, n: State)
    ensures Only(AlertEdge(b, s, n), On(a), Off(a)) == if a == b then AlertEdge(a, s, n) else []
  {
    if a == b {
      OnlySameEdge(Held(a, s), Held(a, n), On(a), Off(a));
    } else {
      OnlyNone(AlertEdge(b, s, n), On(a), Off(a));
    }
  }

  lemma OnlyRegisters(tabs: Tables, p: Registers, n: Registers, a: Alert)
    ensures Only(RegNotices(tabs, p, n), On(a), Off(a)) == []
  {
    var all := RegNotices(tabs, p, n);
    assert forall i :: 0 <= i < |all| ==> all[i].Raised? || all[i].Cleared?;
    OnlyNone(all, On(a), Off(a));
  }

  lemma OnlyTwo(a: Alert, x: Alert, y: Alert, s: State, n: State)
    requires x != y
    ensures Only(AlertEdge(x, s, n) + AlertEdge(y, s, n), On(a), Off(a))
         == if a == x || a == y then AlertEdge(a, s, n) else []
  {
    EdgeShows(a, x, s, n);
    EdgeShows(a, y, s, n);
    OnlyAppend(AlertEdge(x, s, n), AlertEdge(y, s, n), On(a), Off(a));
  }

  lemma OnlyFlags(a: Alert, s: State, n: State)
    ensures Only(FlagNotices(s.flags, n.flags), On(a), Off(a))
         == if a.OverloadAlert? || a.FaultAlert? || a.ReplaceAlert? then AlertEdge(a, s, n) else []
  {
    OnlyTwo(a, OverloadAlert, FaultAlert, s, n);
    EdgeShows(a, ReplaceAlert, s, n);
    OnlyAppend(AlertEdge(OverloadAlert, s, n) + AlertEdge(FaultAlert, s, n), AlertEdge(ReplaceAlert, s, n),
               On(a), Off(a));
  }

  lemma OnlyVolts(a: Alert, s: State, n: State)
    ensures Only(VoltNotices(s.volts, n.volts), On(a), Off(a))
         == if a.HighAlert? || a.LowAlert? then AlertEdge(a, s, n) else []
  {
    OnlyTwo(a, HighAlert, LowAlert, s, n);
  }

  lemma OnlyLevels(a: Alert, s: State, n: State)
    ensures Only(LevelNotices(s.levels, n.levels), On(a), Off(a))
         == if a.LoadAlert? || a.BatLowAlert? then AlertEdge(a, s, n) else []
  {
    OnlyTwo(a, LoadAlert, BatLowAlert, s, n);
  }

  /** The notices of one alert within a check are the edge of its own flag. */
  lemma {:induction false} OnlyAlert(tabs: Tables, s: State, n: State, a: Alert)
    ensures Only(Notices(tabs, s, n), On(a), Off(a)) == AlertEdge(a, s, n)
  {
    OnlyFlags(a, s, n);
    OnlyVolts(a, s, n);
    OnlyLevels(a, s, n);
    OnlyRegisters(tabs, s.regs, n.regs, a);
    JoinParts(FlagNotices(s.flags, n.flags), VoltNotices(s.volts, n.volts), LevelNotices(s.levels, n.levels),
              RegNotices(tabs, s.regs, n.regs), AlertEdge(a, s, n), a);
  }

  /** The alert's edge is in one of the three parts it can be in. */
  lemma JoinParts(f: seq<Notice>, v: seq<Notice>, l: seq<Notice>, r: seq<Notice>, e: seq<Notice>, a: Alert)
    requires Only(f, On(a), Off(a)) == if a.OverloadAlert? || a.FaultAlert? || a.ReplaceAlert? then e else []
    requires Only(v, On(a), Off(a)) == if a.HighAlert? || a.LowAlert? then e else []
    requires Only(l, On(a), Off(a)) == if a.LoadAlert? || a.BatLowAlert? then e else []
    requires Only(r, On(a), Off(a)) == []
    ensures Only(f + v + l + r, On(a), Off(a)) == e
  {
    OnlyFour(f, v, l, r, On(a), Off(a));
  }

  /** The alert's flag after each check. */
  function HeldAfter(a: Alert, s: State, ds: seq<Input>, t: Option<Thresholds>, c: Config): (r: seq<bool>)
    ensures |r| == |ds|
  {
    if ds == [] then [] else HeldAfter(a, s, ds[..|ds| - 1], t, c) + [Held(a, After(s, ds, t, c))]
  }

  lemma {:induction false} AlertLog(tabs: Tables, s: State, ds: seq<Input>, t: Option<Thresholds>, c: Config, a: Alert)
    ensures Only(Log(tabs, s, ds, t, c), On(a), Off(a)) == EdgeLog(Held(a, s), HeldAfter(a, s, ds, t, c), On(a), Off(a))
    ensures Final(Held(a, s), HeldAfter(a, s, ds, t, c)) == Held(a, After(s, ds, t, c))
  {
    if ds != [] {
      var init := ds[..|ds| - 1];
      var m, n := After(s, init, t, c), After(s, ds, t, c);
      AlertLog(tabs, s, init, t, c, a);
      OnlyAppend(Log(tabs, s, init, t, c), Notices(tabs, m, n), On(a), Off(a));
      OnlyAlert(tabs, m, n, a);
      EdgeLogSnoc(Held(a, s), HeldAfter(a, s, init, t, c), Held(a, n), On(a), Off(a));
    }
  }

  /** Every alert's two notices alternate over every run of checks, starting with the one
      that leaves its first state and ending on its present one. */
  lemma {:induction false} EveryAlertAlternates(tabs: Tables, s: State, ds: seq<Input>, t: Option<Thresholds>,
                                                c: Config, a: Alert)
    ensures AlternatesTo(Only(Log(tabs, s, ds, t, c), On(a), Off(a)), Held(a, s), Held(a, After(s, ds, t, c)),
                         On(a), Off(a))
  {
    AlertLog(tabs, s, ds, t, c, a);
    EdgesAlternate(Held(a, s), HeldAfter(a, s, ds, t, c), On(a), Off(a));
  }

  // --- When an alert is on ---

  /** The charge of the check before the last one of a run. */
  predicate NotRising(ds: seq<Input>)
    requires |ds| >= 2
  {
    ds[|ds| - 1].chargePct <= ds[|ds| - 2].chargePct
  }

  /** After any run of checks: the three flags are bits of the last data, the load alert
      is on above its limit, and the battery-low alert is on exactly when the charge is
      below its limit and did not rise since the check before, and the UPS is online. */
  lemma {:induction false} AlertsAreOnWhen(s: State, ds: seq<Input>, t: Option<Thresholds>, c: Config)
    requires |ds| >= 2 && ds[|ds| - 2].chargePct >= 0.0
    ensures var n, d := After(s, ds, t, c), ds[|ds| - 1];
            && (Held(OverloadAlert, n) <==> 21 in d.status)
            && (Held(FaultAlert, n) <==> 5 in d.status)
            && (Held(ReplaceAlert, n) <==> 2 in d.regs.battery)
            && (Held(LoadAlert, n) <==> d.loadPct > c.loadHigh as real)
            && (Held(BatLowAlert, n) <==> d.chargePct < c.batteryLow as real && 1 in d.status && NotRising(ds))
  {
    var m := After(s, ds[..|ds| - 1], t, c);
    assert m == Next(After(s, ds[..|ds| - 2], t, c), ds[|ds| - 2], t, c) by {
      assert ds[..|ds| - 1][..|ds| - 2] == ds[..|ds| - 2];
    }
    LevelsAreOnWhen(m, ds[|ds| - 1], t, c);
  }

  lemma LevelsAreOnWhen(m: State, d: Input, t: Option<Thresholds>, c: Config)
    requires m.levels.prevCharge >= 0.0
    ensures var n := Next(m, d, t, c);
            && n.flags == Flags(21 in d.status, 5 in d.status, 2 in d.regs.battery)
            && (n.levels.loadHigh <==> d.loadPct > c.loadHigh as real)
            && (n.levels.batLow <==>
                  d.chargePct < c.batteryLow as real && 1 in d.status && d.chargePct <= m.levels.prevCharge)
  {
  }

  /** The first check never raises the battery-low alert: no charge is known before it. */
  lemma FirstCheckKnowsNoCharge(d: Input, t: Option<Thresholds>, c: Config)
    ensures !After(INIT, [d], t, c).levels.batLow
  {
    assert [d][..0] == [];
  }

  /** The level the input voltage has to pass: the threshold moved by the warning offset
      towards the middle, and once the alert is on by the dead band as well. */
  function Level(threshold: int, inwards: int, c: Config, on: bool): int {
    threshold + inwards * (c.warnOffset + if on then c.deadband else 0)
  }

  /** After any run of checks against a known threshold the high alert is on exactly above
      its level, and the low alert exactly below; unknown thresholds, and those of zero,
      leave the alert alone. */
  lemma {:induction false} VoltageAlertsAreOnWhen(s: State, ds: seq<Input>, t: Option<Thresholds>, c: Config)
    requires ds != []
    ensures var m, n, v := After(s, ds[..|ds| - 1], t, c), After(s, ds, t, c), ds[|ds| - 1].inputVoltage;
            && (t.Some? && t.value.high > 0 ==>
                  (Held(HighAlert, n) <==> v > Level(t.value.high, -1, c, Held(HighAlert, m)) as real))
            && (t.Some? && t.value.low > 0 ==>
                  (Held(LowAlert, n) <==> v < Level(t.value.low, 1, c, Held(LowAlert, m)) as real))
            && (t.None? || t.value.high == 0 ==> Held(HighAlert, n) == Held(HighAlert, m))
            && (t.None? || t.value.low == 0 ==> Held(LowAlert, n) == Held(LowAlert, m))
  {
  }

  // --- The mask ---

  /** The mask names the status bits whose own alert went out at this check, and no others. */
  lemma {:induction false} MaskIsWhatWentOut(tabs: Tables, s: State, n: State)
    ensures Mask(s.flags, n.flags) <= {5, 21}
    ensures 21 in Mask(s.flags, n.flags) <==> Only(Notices(tabs, s, n), OverloadOn, OverloadOff) != []
    ensures 5 in Mask(s.flags, n.flags) <==> Only(Notices(tabs, s, n), FaultOn, FaultOff) != []
  {
    OnlyAlert(tabs, s, n, OverloadAlert);
    OnlyAlert(tabs, s, n, FaultAlert);
  }
}
