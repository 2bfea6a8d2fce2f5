/** What the trigger's settings mean (src/shutdown/shutdown.c:947-1057), and its events. */
module TriggerSources {
  import opened Options
  import opened ShutdownTrigger

  // --- Watching a field ---

  /** The data with one quantity replaced. */
  function Put(d: Data, f: FieldName, x: real): Data {
    match f
    case RuntimeSec => d.(runtimeSec := if x < 0.0 then 0 else x.Floor)
    case ChargePct => d.(chargePct := x)
    case BatteryVoltage => d.(batteryVoltage := x)
    case LoadPct => d.(loadPct := x)
    case OutputCurrent => d.(outputCurrent := x)
    case OutputVoltage => d.(outputVoltage := x)
    case OutputFrequency => d.(outputFrequency := x)
    case InputVoltage => d.(inputVoltage := x)
    case Efficiency => d.(efficiency := Some(x))
    case BypassVoltage => d.(bypassVoltage := x)
    case BypassFrequency => d.(bypassFrequency := x)
    case UnknownField => d
  }

  /** A value the quantity can have: the runtime counts whole seconds. */
  predicate CanBe(f: FieldName, x: real) {
    !f.UnknownField? && (f.RuntimeSec? ==> x >= 0.0 && x.Floor as real == x)
  }

  /** Each name reads its own quantity. */
  lemma FieldReadsItsOwn(d: Data, f: FieldName, x: real, g: FieldName)
    requires CanBe(f, x)
    ensures FieldOf(Put(d, f, x), g) == if g == f then Some(x) else FieldOf(d, g)
  {
  }

  predicate Watches(c: Config, f: FieldName) {
    c.mode.Software? && c.source.FieldWatch? && c.watched == Some(f) && !c.requireBattery
  }

  /** Watching a field compares that field, as it is, with the configured value, and
      looks at nothing else; nothing is met without a field, or without a value. */
  lemma FieldWatchMeans(c: Config, d: Data, f: FieldName, x: real, g: FieldName, y: real)
    requires Watches(c, f) && CanBe(f, x) && CanBe(g, y) && g != f
    ensures c.comparison == Lt ==> (Met(c, Put(d, f, x)) <==> x < c.fieldValue as real)
    ensures c.comparison == Gt ==> (Met(c, Put(d, f, x)) <==> x > c.fieldValue as real)
    ensures c.comparison == Eq ==> (Met(c, Put(d, f, x)) <==> x == c.fieldValue as real)
    ensures Met(c, Put(d, g, y)) <==> Met(c, d)
    ensures !Met(c.(comparison := OtherComparison), d) && !Met(c.(watched := None), d)
    ensures f == Efficiency ==> !Met(c, d.(efficiency := None))
  {
    FieldReadsItsOwn(d, f, x, f);
    FieldReadsItsOwn(d, g, y, f);
  }

  // --- Runtime and charge ---

  predicate OnRuntime(c: Config) { c.mode.Software? && c.source.Runtime? && !c.requireBattery }

  /** A threshold of zero or less is off; a runtime of zero is not known.  Of two thresholds
      either one will do. */
  lemma RuntimeMeans(c: Config, d: Data)
    requires OnRuntime(c)
    ensures c.batteryPct <= 0 ==> (Met(c, d) <==> 1 <= d.runtimeSec <= c.runtimeSec)
    ensures c.runtimeSec <= 0 ==> (Met(c, d) <==> c.batteryPct > 0 && d.chargePct <= c.batteryPct as real)
    ensures Met(c, d) <==> Met(c.(batteryPct := 0), d) || Met(c.(runtimeSec := 0), d)
  {
  }

  // --- Modes ---

  /** Left to the UPS only its own request counts; in software mode a required battery
      only adds the condition of running on it; in manual mode, and for an unknown source, nothing counts. */
  lemma ModesMean(c: Config, d: Data)
    ensures Met(c.(mode := UpsDecides), d) <==> d.shutdownImminent
    ensures !Met(c.(mode := Manual), d)
    ensures !Met(c.(mode := Software, source := OtherSource), d)
    ensures c.mode.Software? && c.requireBattery ==>
              (Met(c, d) <==> d.onBattery && Met(c.(requireBattery := false), d))
  {
  }

  function NonManual(ps: seq<Poll>): seq<Poll> {
    if ps == [] then []
    else NonManual(ps[..|ps| - 1]) + if ps[|ps| - 1].config.mode.Manual? then [] else [ps[|ps| - 1]]
  }

  /** Polls in manual mode leave the trigger as it is, as if they had not been made. */
  lemma {:induction false} ManualPollsDoNothing(ps: seq<Poll>, p: Poll)
    ensures After(ps) == After(NonManual(ps))
    ensures p.config.mode.Manual? ==> OutcomeOf(ps, p) == Quiet
  {
    if ps != [] {
      var init, last := ps[..|ps| - 1], ps[|ps| - 1];
      ManualPollsDoNothing(init, p);
      if last.config.mode.Manual? {
        assert NonManual(init) + [] == NonManual(init);
      } else {
        assert (NonManual(init) + [last])[..|NonManual(init)|] == NonManual(init);
      }
    }
  }

  // --- Events ---

  /** Before it has fired: the armed event marks the polls at which the condition begins
      to hold, the cleared event those at which it ceases to, a return to mains apart. */
  lemma {:induction false} EventsMarkTheEdges(ps: seq<Poll>, k: nat)
    requires Usable(ps) && k < |ps|
    ensures OutcomeOf(ps[..k], ps[k]) == ArmedEvent <==>
              !DueBefore(ps, k) && MetAt(ps, k) && (k == 0 || !MetAt(ps, k - 1))
    ensures OutcomeOf(ps[..k], ps[k]) == ClearedEvent <==>
              !DueBefore(ps, k) && !MetAt(ps, k) && k > 0 && MetAt(ps, k - 1)
              && !(ps[k].config.mode.Software? && ps[k].config.requireBattery && !ps[k].data.onBattery)
  {
    AfterTracks(ps[..k]);
    DuePrefix(ps, k);
    if k > 0 { ArmedAtPrefix(ps, k, k - 1); }
  }
}
