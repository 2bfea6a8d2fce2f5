/** The alert engine (src/alerts/alerts.c) and the error-bit decoders it uses
    (src/ups/ups_format.c:93-151).  Doubles are reals. */
module Alerts {
  import opened Options
  import opened Edges
  import opened Words

  const ST_ONLINE: nat := 1
  const ST_FAULT: nat := 5
  const ST_OVERLOAD: nat := 21
  const BATERR_REPLACE: nat := 2

  // --- Error names ---

  datatype ErrorName =
    | SiteWiring | Eeprom | AdConverter | LogicPowerSupply | InternalComm | UiButton | EpoActive | FirmwareMismatch
    | Overload | ShortCircuit | Overvoltage | Overtemperature | Fan | Inverter
    | Disconnected | NeedsReplacement | OvertemperatureCritical | ChargerFault | TempSensorFault
    | OvertemperatureWarning | GeneralError | CommunicationError

  datatype Row = Row(bit: nat, name: ErrorName)

  const GENERAL: seq<Row> := [
    Row(0, SiteWiring), Row(1, Eeprom), Row(2, AdConverter), Row(3, LogicPowerSupply),
    Row(4, InternalComm), Row(5, UiButton), Row(7, EpoActive), Row(8, FirmwareMismatch)]
  const POWER: seq<Row> := [
    Row(0, Overload), Row(1, ShortCircuit), Row(2, Overvoltage), Row(4, Overtemperature),
    Row(10, Fan), Row(13, Inverter)]
  const BATTERY: seq<Row> := [
    Row(0, Disconnected), Row(1, Overvoltage), Row(2, NeedsReplacement), Row(3, OvertemperatureCritical),
    Row(4, ChargerFault), Row(5, TempSensorFault), Row(7, OvertemperatureWarning),
    Row(8, GeneralError), Row(9, CommunicationError)]

  predicate IsSet(raw: Word, bit: nat) { bit in raw }

  /** The names of the set bits among the first `n` rows, in table order. */
  function DecodeRows(raw: Word, table: seq<Row>, n: nat): seq<ErrorName>
    requires n <= |table|
  {
    if n == 0 then []
    else DecodeRows(raw, table, n - 1) + if IsSet(raw, table[n - 1].bit) then [table[n - 1].name] else []
  }

  function Decode(raw: Word, table: seq<Row>): seq<ErrorName> { DecodeRows(raw, table, |table|) }

  /** The decoder loop: stops at `max` names. */
  method DecodeBits(raw: Word, max: nat, table: seq<Row>) returns (out: seq<ErrorName>)
    ensures out <= Decode(raw, table)
    ensures |out| == if |Decode(raw, table)| <= max then |Decode(raw, table)| else max
  {
    out := [];
    var i := 0;
    while i < |table| && |out| < max
      invariant i <= |table| && |out| <= max
      invariant out == DecodeRows(raw, table, i)
    {
      if IsSet(raw, table[i].bit) { out := out + [table[i].name]; }
      i := i + 1;
    }
    DecodeGrows(raw, table, i, |table|);
  }

  lemma DecodeGrows(raw: Word, table: seq<Row>, i: nat, n: nat)
    requires i <= n <= |table|
    ensures DecodeRows(raw, table, i) <= DecodeRows(raw, table, n)
  {
    if i < n { DecodeGrows(raw, table, i, n - 1); }
  }

  lemma DecodeShort(raw: Word, table: seq<Row>, n: nat)
    requires n <= |table|
    ensures |DecodeRows(raw, table, n)| <= n
  {
    if n > 0 { DecodeShort(raw, table, n - 1); }
  }

  ghost predicate DistinctNames(table: seq<Row>) {
    forall i, j :: 0 <= i < j < |table| ==> table[i].name != table[j].name
  }

  lemma DecodeRow(raw: Word, table: seq<Row>, n: nat)
    requires 0 < n <= |table|
    ensures DecodeRows(raw, table, n) == if IsSet(raw, table[n - 1].bit)
                                         then DecodeRows(raw, table, n - 1) + [table[n - 1].name]
                                         else DecodeRows(raw, table, n - 1)
  {
  }

  function Times<T(==)>(s: seq<T>, x: T): nat {
    if s == [] then 0 else Times(s[..|s| - 1], x) + if s[|s| - 1] == x then 1 else 0
  }

  lemma {:induction false} TimesIsMultiplicity<T>(s: seq<T>, x: T)
    ensures Times(s, x) == multiset(s)[x]
  {
    if s != [] {
      TimesIsMultiplicity(s[..|s| - 1], x);
      assert s == s[..|s| - 1] + [s[|s| - 1]];
    }
  }

  ghost predicate OnlyRow(table: seq<Row>, k: nat)
    requires k < |table|
  {
    forall i :: 0 <= i < |table| && i != k ==> table[i].name != table[k].name
  }

  lemma {:induction false} OnlyRowIsNamed(raw: Word, table: seq<Row>, n: nat, k: nat)
    requires k < |table| && n <= |table| && OnlyRow(table, k)
    ensures Times(DecodeRows(raw, table, n), table[k].name) == if k < n && IsSet(raw, table[k].bit) then 1 else 0
  {
    if n > 0 {
      OnlyRowIsNamed(raw, table, n - 1, k);
      DecodeRow(raw, table, n);
    }
  }

  /** A table row is named exactly when its bit is set, and then once. */
  lemma DecodeNamesBit(raw: Word, table: seq<Row>, n: nat, k: nat)
    requires DistinctNames(table) && k < |table| && n <= |table|
    ensures multiset(DecodeRows(raw, table, n))[table[k].name] == if k < n && IsSet(raw, table[k].bit) then 1 else 0
  {
    OnlyRowIsNamed(raw, table, n, k);
    TimesIsMultiplicity(DecodeRows(raw, table, n), table[k].name);
  }

  // --- State, input, notifications ---

  datatype Flags = Flags(overload: bool, fault: bool, batReplace: bool)
  datatype Volts = Volts(high: bool, low: bool)
  datatype Levels = Levels(loadHigh: bool, batLow: bool, prevCharge: real)
  datatype Registers = Registers(general: Word, power: Word, battery: Word)

  datatype State = State(flags: Flags, volts: Volts, levels: Levels, regs: Registers)

  datatype Input = Input(status: Word, regs: Registers, inputVoltage: real, loadPct: real, chargePct: real)

  datatype Thresholds = Thresholds(high: nat, low: nat)
  datatype Config = Config(loadHigh: int, batteryLow: int, warnOffset: int, deadband: int)

  datatype Register = General | Power | Battery

  /** One notification.  High and Low share the title "UPS Input Voltage Normal"
      in the source and differ in the body; likewise Replace and the battery register. */
  datatype Notice =
    | OverloadOn | OverloadOff | FaultOn | FaultOff | ReplaceOn | ReplaceOff
    | HighOn | HighOff | LowOn | LowOff | LoadOn | LoadOff | BatLowOn | BatLowOff
    | Raised(reg: Register, name: ErrorName) | Cleared(reg: Register, name: ErrorName)

  const INIT: State := State(Flags(false, false, false), Volts(false, false), Levels(false, false, -1.0),
                             Registers({}, {}, {}))

  function FlagsOf(status: Word, regs: Registers): Flags {
    Flags(IsSet(status, ST_OVERLOAD), IsSet(status, ST_FAULT), IsSet(regs.battery, BATERR_REPLACE))
  }

  /** Seeding restores the edge detectors from the persisted snapshot, not the thresholds. */
  function Seed(s: State, status: Word, regs: Registers): State {
    s.(flags := FlagsOf(status, regs), regs := regs)
  }

  // --- The checks ---

  function FlagNotices(p: Flags, n: Flags): seq<Notice> {
    Edge(p.overload, n.overload, OverloadOn, OverloadOff) + Edge(p.fault, n.fault, FaultOn, FaultOff)
    + Edge(p.batReplace, n.batReplace, ReplaceOn, ReplaceOff)
  }

  /** The status bits whose dedicated alert fired. */
  function Mask(p: Flags, n: Flags): Word {
    (if p.overload != n.overload then {ST_OVERLOAD} else {}) + if p.fault != n.fault then {ST_FAULT} else {}
  }

  function HighNow(prev: bool, v: real, enter: real, band: real): bool {
    if prev then v > enter - band else v > enter
  }

  function LowNow(prev: bool, v: real, enter: real, band: real): bool {
    if prev then v < enter + band else v < enter
  }

  function EnterHigh(t: Thresholds, c: Config): real { (t.high as int - c.warnOffset) as real }
  function EnterLow(t: Thresholds, c: Config): real { (t.low as int + c.warnOffset) as real }

  /** A threshold of 0, or none read yet, leaves its alert as it was. */
  function NextVolts(p: Volts, v: real, t: Option<Thresholds>, c: Config): Volts {
    Volts(if t.Some? && t.value.high > 0 then HighNow(p.high, v, EnterHigh(t.value, c), c.deadband as real) else p.high,
          if t.Some? && t.value.low > 0 then LowNow(p.low, v, EnterLow(t.value, c), c.deadband as real) else p.low)
  }

  function VoltNotices(p: Volts, n: Volts): seq<Notice> {
    Edge(p.high, n.high, HighOn, HighOff) + Edge(p.low, n.low, LowOn, LowOff)
  }

  /** The battery-low alert is gated on being online and on charge not rising. */
  function BatLowNow(p: Levels, d: Input, c: Config): bool {
    var low := d.chargePct < c.batteryLow as real && IsSet(d.status, ST_ONLINE);
    if p.batLow then low && d.chargePct <= p.prevCharge
    else low && p.prevCharge >= 0.0 && d.chargePct <= p.prevCharge
  }

  function NextLevels(p: Levels, d: Input, c: Config): Levels {
    Levels(d.loadPct > c.loadHigh as real, BatLowNow(p, d, c), d.chargePct)
  }

  function LevelNotices(p: Levels, n: Levels): seq<Notice> {
    Edge(p.loadHigh, n.loadHigh, LoadOn, LoadOff) + Edge(p.batLow, n.batLow, BatLowOn, BatLowOff)
  }

  function Named(reg: Register, names: seq<ErrorName>, raised: bool): (r: seq<Notice>)
    ensures |r| == |names|
    ensures forall i :: 0 <= i < |r| ==> r[i] == if raised then Raised(reg, names[i]) else Cleared(reg, names[i])
  {
    seq(|names|, i requires 0 <= i < |names| => if raised then Raised(reg, names[i]) else Cleared(reg, names[i]))
  }

  /** The three decoder tables. */
  datatype Tables = Tables(general: seq<Row>, power: seq<Row>, battery: seq<Row>)

  const TABLES: Tables := Tables(GENERAL, POWER, BATTERY)

  function TableOf(reg: Register, tabs: Tables): seq<Row> {
    match reg case General => tabs.general case Power => tabs.power case Battery => tabs.battery
  }

  function ValueOf(reg: Register, r: Registers): Word {
    match reg case General => r.general case Power => r.power case Battery => r.battery
  }

  function RegisterNotices(reg: Register, table: seq<Row>, prev: Word, now: Word): seq<Notice> {
    Named(reg, Decode(now - prev, table), true) + Named(reg, Decode(prev - now, table), false)
  }

  function RegNotices(tabs: Tables, p: Registers, n: Registers): seq<Notice> {
    RegisterNotices(General, tabs.general, p.general, n.general)
    + RegisterNotices(Power, tabs.power, p.power, n.power)
    + RegisterNotices(Battery, tabs.battery, p.battery, n.battery)
  }

  function Next(s: State, d: Input, t: Option<Thresholds>, c: Config): State {
    State(FlagsOf(d.status, d.regs), NextVolts(s.volts, d.inputVoltage, t, c), NextLevels(s.levels, d, c), d.regs)
  }

  /** Every notification of one check, in the order it goes out. */
  function Notices(tabs: Tables, s: State, n: State): seq<Notice> {
    FlagNotices(s.flags, n.flags) + VoltNotices(s.volts, n.volts) + LevelNotices(s.levels, n.levels)
    + RegNotices(tabs, s.regs, n.regs)
  }

  // --- In place ---

  method CheckFlag(prev: bool, now: bool, on: Notice, off: Notice, notes: seq<Notice>) returns (r: seq<Notice>)
    ensures r == notes + Edge(prev, now, on, off)
  {
    r := notes;
    if now && !prev { r := r + [on]; } else if !now && prev { r := r + [off]; }
  }

  method NotifyNames(reg: Register, raw: Word, table: seq<Row>, raised: bool, notes: seq<Notice>)
    returns (r: seq<Notice>)
    requires |table| <= 16
    ensures r == notes + Named(reg, Decode(raw, table), raised)
  {
    r := notes;
    DecodeShort(raw, table, |table|);
    var names := DecodeBits(raw, 16, table);
    ghost var all := Named(reg, names, raised);
    for i := 0 to |names|
      invariant r == notes + all[..i]
    {
      assert all[..i + 1] == all[..i] + [all[i]];
      r := r + [if raised then Raised(reg, names[i]) else Cleared(reg, names[i])];
    }
  }

  method CheckRegister(reg: Register, table: seq<Row>, prev: Word, now: Word, notes: seq<Notice>)
    returns (r: seq<Notice>)
    requires |table| <= 16
    ensures r == notes + RegisterNotices(reg, table, prev, now)
  {
    r := NotifyNames(reg, now - prev, table, true, notes);
    r := NotifyNames(reg, prev - now, table, false, r);
  }

  method CheckAll(tabs: Tables, prev: Registers, now: Registers) returns (notes: seq<Notice>)
    requires |tabs.general| <= 16 && |tabs.power| <= 16 && |tabs.battery| <= 16
    ensures notes == RegNotices(tabs, prev, now)
  {
    notes := CheckRegister(General, tabs.general, prev.general, now.general, []);
    notes := CheckRegister(Power, tabs.power, prev.power, now.power, notes);
    notes := CheckRegister(Battery, tabs.battery, prev.battery, now.battery, notes);
  }

  class Engine {
    var flags: Flags
    var volts: Volts
    var levels: Levels
    var regs: Registers

    ghost function View(): State
      reads this
    {
      State(flags, volts, levels, regs)
    }

    constructor ()
      ensures View() == INIT
    {
      flags, volts := Flags(false, false, false), Volts(false, false);
      levels, regs := Levels(false, false, -1.0), Registers({}, {}, {});
    }

    method SeedFrom(status: Word, snapshot: Registers)
      modifies this
      ensures View() == Seed(old(View()), status, snapshot)
    {
      flags := Flags(IsSet(status, ST_OVERLOAD), IsSet(status, ST_FAULT), IsSet(snapshot.battery, BATERR_REPLACE));
      regs := snapshot;
    }

    method CheckFlags(d: Input) returns (alerted: Word, notes: seq<Notice>)
      modifies `flags
      ensures flags == FlagsOf(d.status, d.regs)
      ensures notes == FlagNotices(old(flags), flags) && alerted == Mask(old(flags), flags)
    {
      alerted := {};
      var over, fault := IsSet(d.status, ST_OVERLOAD), IsSet(d.status, ST_FAULT);
      var replace := IsSet(d.regs.battery, BATERR_REPLACE);
      notes := CheckFlag(flags.overload, over, OverloadOn, OverloadOff, []);
      if flags.overload != over { alerted := alerted + {ST_OVERLOAD}; }
      notes := CheckFlag(flags.fault, fault, FaultOn, FaultOff, notes);
      if flags.fault != fault { alerted := alerted + {ST_FAULT}; }
      notes := CheckFlag(flags.batReplace, replace, ReplaceOn, ReplaceOff, notes);
      flags := Flags(over, fault, replace);
    }

    method CheckVoltages(v: real, t: Option<Thresholds>, c: Config) returns (notes: seq<Notice>)
      modifies `volts
      ensures volts == NextVolts(old(volts), v, t, c) && notes == VoltNotices(old(volts), volts)
    {
      notes := [];
      if t.Some? && t.value.high > 0 {
        var enter := (t.value.high as int - c.warnOffset) as real;
        var clear := enter - c.deadband as real;
        var now := if volts.high then v > clear else v > enter;
        notes := CheckFlag(volts.high, now, HighOn, HighOff, notes);
        volts := volts.(high := now);
      }
      if t.Some? && t.value.low > 0 {
        var enter := (t.value.low as int + c.warnOffset) as real;
        var clear := enter + c.deadband as real;
        var now := if volts.low then v < clear else v < enter;
        notes := CheckFlag(volts.low, now, LowOn, LowOff, notes);
        volts := volts.(low := now);
      }
    }

    method CheckLevels(d: Input, c: Config) returns (notes: seq<Notice>)
      modifies `levels
      ensures levels == NextLevels(old(levels), d, c) && notes == LevelNotices(old(levels), levels)
    {
      var heavy := d.loadPct > c.loadHigh as real;
      notes := CheckFlag(levels.loadHigh, heavy, LoadOn, LoadOff, []);
      var online := IsSet(d.status, ST_ONLINE);
      var below := d.chargePct < c.batteryLow as real;
      var notRising := levels.prevCharge >= 0.0 && d.chargePct <= levels.prevCharge;
      var isLow, was := below && online && notRising, levels.batLow;
      var recovered := was && (!below || !online || d.chargePct > levels.prevCharge);
      var batLow := was;
      if isLow && !was {
        notes := notes + [BatLowOn];
        batLow := true;
      } else if recovered {
        notes := notes + [BatLowOff];
        batLow := false;
      }
      levels := Levels(heavy, batLow, d.chargePct);
    }

    method CheckRegisters(now: Registers) returns (notes: seq<Notice>)
      modifies `regs
      ensures regs == now
      ensures notes == RegNotices(TABLES, old(regs), now)
    {
      notes := CheckAll(TABLES, regs, now);
      regs := now;
    }

    /** One poll's alert check. */
    method Check(d: Input, t: Option<Thresholds>, c: Config) returns (alerted: Word, notes: seq<Notice>)
      modifies this
      ensures View() == Next(old(View()), d, t, c)
      ensures notes == Notices(TABLES, old(View()), View())
      ensures alerted == Mask(old(flags), flags)
    {
      var part: seq<Notice>;
      alerted, notes := CheckFlags(d);
      part := CheckVoltages(d.inputVoltage, t, c);
      notes := notes + part;
      part := CheckLevels(d, c);
      notes := notes + part;
      part := CheckRegisters(d.regs);
      notes := notes + part;
    }
  }
}
