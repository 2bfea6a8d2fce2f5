/** The debounced automatic shutdown trigger (src/shutdown/shutdown.c:947-1076). */
module ShutdownTrigger {
  import opened Options

  // --- The condition ---

  datatype Mode = Manual | UpsDecides | Software
  datatype Source = Runtime | FieldWatch | OtherSource
  datatype Comparison = Lt | Gt | Eq | OtherComparison

  datatype FieldName = RuntimeSec | ChargePct | BatteryVoltage | LoadPct | OutputCurrent | OutputVoltage
                     | OutputFrequency | InputVoltage | Efficiency | BypassVoltage | BypassFrequency | UnknownField

  /** Settings as read at one poll; `watched` is absent when no field is configured. */
  datatype Config = Config(mode: Mode, delaySec: int, requireBattery: bool, source: Source, runtimeSec: int,
                           batteryPct: int, watched: Option<FieldName>, comparison: Comparison, fieldValue: int)

  datatype Data = Data(shutdownImminent: bool, onBattery: bool, runtimeSec: nat, chargePct: real,
                       batteryVoltage: real, loadPct: real, outputCurrent: real, outputVoltage: real,
                       outputFrequency: real, inputVoltage: real, efficiency: Option<real>,
                       bypassVoltage: real, bypassFrequency: real)

  /** No value stands for NaN, which the source returns for a meaningless efficiency. */
  function FieldOf(d: Data, f: FieldName): Option<real> {
    match f
    case RuntimeSec => Some(d.runtimeSec as real)
    case ChargePct => Some(d.chargePct)
    case BatteryVoltage => Some(d.batteryVoltage)
    case LoadPct => Some(d.loadPct)
    case OutputCurrent => Some(d.outputCurrent)
    case OutputVoltage => Some(d.outputVoltage)
    case OutputFrequency => Some(d.outputFrequency)
    case InputVoltage => Some(d.inputVoltage)
    case Efficiency => d.efficiency
    case BypassVoltage => Some(d.bypassVoltage)
    case BypassFrequency => Some(d.bypassFrequency)
    case UnknownField => Some(0.0)
  }

  predicate Compare(v: Option<real>, op: Comparison, threshold: real) {
    match v
    case None => false
    case Some(x) =>
      (match op case Lt => x < threshold case Gt => x > threshold case Eq => x == threshold
                case OtherComparison => false)
  }

  predicate SourceMet(c: Config, d: Data) {
    match c.source
    case Runtime =>
      || (c.runtimeSec > 0 && d.runtimeSec > 0 && d.runtimeSec <= c.runtimeSec)
      || (c.batteryPct > 0 && d.chargePct <= c.batteryPct as real)
    case FieldWatch => c.watched.Some? && Compare(FieldOf(d, c.watched.value), c.comparison, c.fieldValue as real)
    case OtherSource => false
  }

  predicate Met(c: Config, d: Data) {
    match c.mode
    case Manual => false
    case UpsDecides => d.shutdownImminent
    case Software => (c.requireBattery ==> d.onBattery) && SourceMet(c, d)
  }

  // --- One poll ---

  datatype Poll = Poll(config: Config, data: Data, now: int)

  datatype State = State(firstMet: int, triggered: bool)

  datatype Outcome = Quiet | ClearedEvent | ArmedEvent | Fired

  /** In software mode a return to mains forgets the arming without an event. */
  predicate SilentReset(p: Poll) {
    p.config.mode.Software? && p.config.requireBattery && !p.data.onBattery
  }

  function Check(s: State, p: Poll): (State, Outcome) {
    if s.triggered || p.config.mode.Manual? then (s, Quiet)
    else if !Met(p.config, p.data) then
      (s.(firstMet := 0), if s.firstMet != 0 && !SilentReset(p) then ClearedEvent else Quiet)
    else if s.firstMet == 0 then (s.(firstMet := p.now), ArmedEvent)
    else if p.now - s.firstMet < p.config.delaySec then (s, Quiet)
    else (s.(triggered := true), Fired)
  }

  function After(ps: seq<Poll>): State {
    if ps == [] then State(0, false) else Check(After(ps[..|ps| - 1]), ps[|ps| - 1]).0
  }

  /** What the poll after `ps` did. */
  function OutcomeOf(ps: seq<Poll>, p: Poll): Outcome { Check(After(ps), p).1 }

  // --- What the debounce should mean ---

  predicate MetAt(ps: seq<Poll>, k: nat)
    requires k < |ps|
  {
    Met(ps[k].config, ps[k].data)
  }

  /** The poll that armed: since when the condition has held without a break. */
  function ArmedAt(ps: seq<Poll>, k: nat): (a: nat)
    requires k < |ps|
    ensures a <= k
    ensures forall i :: a <= i < k ==> MetAt(ps, i)
    ensures a == 0 || !MetAt(ps, a - 1)
  {
    if k == 0 || !MetAt(ps, k - 1) then k else ArmedAt(ps, k - 1)
  }

  /** The condition held at every poll from an earlier arming one to this, and
      the delay configured now has passed since. */
  predicate Due(ps: seq<Poll>, k: nat)
    requires k < |ps|
  {
    MetAt(ps, k) && ArmedAt(ps, k) < k && ps[k].now - ps[ArmedAt(ps, k)].now >= ps[k].config.delaySec
  }

  ghost predicate Usable(ps: seq<Poll>) {
    forall i :: 0 <= i < |ps| ==> !ps[i].config.mode.Manual? && ps[i].now > 0
  }

  ghost predicate DueBefore(ps: seq<Poll>, n: nat)
    requires n <= |ps|
  {
    exists k :: 0 <= k < n && Due(ps, k)
  }

  lemma ArmedAtPrefix(ps: seq<Poll>, n: nat, k: nat)
    requires k < n <= |ps|
    ensures ArmedAt(ps[..n], k) == ArmedAt(ps, k)
    ensures Due(ps[..n], k) == Due(ps, k)
  {
    if k > 0 && MetAt(ps, k - 1) { ArmedAtPrefix(ps, n, k - 1); }
  }

  lemma DuePrefix(ps: seq<Poll>, n: nat)
    requires n <= |ps|
    ensures DueBefore(ps[..n], n) <==> DueBefore(ps, n)
  {
    forall k: nat | k < n ensures Due(ps[..n], k) == Due(ps, k) { ArmedAtPrefix(ps, n, k); }
  }

  /** The state remembers the arming poll of the current stretch, and whether
      any poll so far was due. */
  lemma {:induction false} AfterTracks(ps: seq<Poll>)
    requires Usable(ps)
    ensures After(ps).triggered <==> DueBefore(ps, |ps|)
    ensures !After(ps).triggered && ps != [] ==>
              After(ps).firstMet == if MetAt(ps, |ps| - 1) then ps[ArmedAt(ps, |ps| - 1)].now else 0
    ensures ps == [] ==> After(ps).firstMet == 0
  {
    if ps != [] {
      var n := |ps| - 1;
      var init := ps[..n];
      AfterTracks(init);
      DuePrefix(ps, n);
      if n > 0 { ArmedAtPrefix(ps, n, n - 1); }
      assert DueBefore(ps, |ps|) <==> DueBefore(ps, n) || Due(ps, n);
    }
  }

  /** The trigger fires at a poll exactly when that poll is the first due one:
      the condition has held at every poll since an earlier arming poll, and at
      least the delay has passed since then.  Settings may change between polls. */
  lemma FiresExactlyWhenFirstDue(ps: seq<Poll>, k: nat)
    requires Usable(ps) && k < |ps|
    ensures OutcomeOf(ps[..k], ps[k]) == Fired <==> Due(ps, k) && !DueBefore(ps, k)
  {
    AfterTracks(ps[..k]);
    DuePrefix(ps, k);
    if k > 0 { ArmedAtPrefix(ps, k, k - 1); }
  }

  /** So it fires at most once over any poll sequence. */
  lemma FiresAtMostOnce(ps: seq<Poll>, j: nat, k: nat)
    requires Usable(ps) && j < k < |ps| && OutcomeOf(ps[..j], ps[j]) == Fired
    ensures OutcomeOf(ps[..k], ps[k]) == Quiet
  {
    FiresExactlyWhenFirstDue(ps, j);
    AfterTracks(ps[..k]);
    DuePrefix(ps, k);
  }

  // --- In place ---

  class Manager {
    var triggerFirstMet: int
    var triggered: bool

    ghost function View(): State
      reads this
    {
      State(triggerFirstMet, triggered)
    }

    constructor ()
      ensures View() == After([])
    {
      triggerFirstMet, triggered := 0, false;
    }

    method CheckTrigger(c: Config, d: Data, now: int) returns (out: Outcome)
      modifies this
      ensures (View(), out) == Check(old(View()), Poll(c, d, now))
    {
      if triggered { return Quiet; }
      if c.mode.Manual? { return Quiet; }
      var met := false;
      if c.mode.UpsDecides? {
        if d.shutdownImminent { met := true; }
      } else {
        if c.requireBattery && !d.onBattery {
          triggerFirstMet := 0;
          return Quiet;
        }
        if c.source.Runtime? {
          if c.runtimeSec > 0 && d.runtimeSec > 0 && d.runtimeSec <= c.runtimeSec { met := true; }
          if c.batteryPct > 0 && d.chargePct <= c.batteryPct as real { met := true; }
        } else if c.source.FieldWatch? {
          if c.watched.Some? {
            var actual := FieldOf(d, c.watched.value);
            if Compare(actual, c.comparison, c.fieldValue as real) { met := true; }
          }
        }
      }
      if !met {
        out := if triggerFirstMet != 0 then ClearedEvent else Quiet;
        triggerFirstMet := 0;
        return;
      }
      if triggerFirstMet == 0 {
        triggerFirstMet := now;
        return ArmedEvent;
      }
      if now - triggerFirstMet < c.delaySec { return Quiet; }
      triggered := true;
      out := Fired;
    }
  }
}
