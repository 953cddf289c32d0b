/** The inbound converter `fzLocal.zs_thermostat.convert`: one reported data
    point, already turned into a value by the Tuya library, becomes at most
    one attribute record for the host; anything it does not recognise becomes
    a warning instead, never a failure. */
module Decoder {
  import opened Wrappers
  import opened DataPoints
  import opened Attributes
  import opened FixedPoint

  /** What the library's value extraction yields for a data point: a boolean
      (boolean data points) or a number (value and enum data points). */
  datatype DpValue = BoolValue(b: bool) | IntValue(n: int)

  /** JavaScript truthiness of a reported value: `false` and `0` are the
      only falsy values a report can carry. */
  predicate Truthy(v: DpValue)
    ensures Truthy(v) <==> v !in {BoolValue(false), IntValue(0)}
  {
    match v
    case BoolValue(b) => b
    case IntValue(n) => n != 0
  }

  /** JavaScript's numeric conversion, as `value / 10` applies it: a number
      is itself, a boolean is 1 or 0, and the result is zero exactly for a
      falsy value. */
  function NumberOf(v: DpValue): (r: int)
    ensures v.IntValue? ==> r == v.n
    ensures v.BoolValue? ==> r in {0, 1}
    ensures r != 0 <==> Truthy(v)
  {
    match v
    case BoolValue(b) => if b then 1 else 0
    case IntValue(n) => n
  }

  /** The attribute record the converter returns to the host. Temperatures
      are the strings `toFixed(1)` produces. */
  datatype Record =
    | ChildLockReport(childLock: LockState)
    | SetpointReport(currentHeatingSetpoint: string)
    | LocalTemperatureReport(localTemperature: string)
    | ModeReport(awayMode: OnOff, preset: Preset)

  /** The two warnings the converter logs. */
  datatype Diagnostic = UnrecognizedPreset(value: DpValue) | UnrecognizedDp(dp: int)

  /** The result of one conversion: a record, or no record and a warning. */
  datatype Outcome = Publish(record: Record) | Warn(diagnostic: Diagnostic)

  /** The inner `switch (value)` on a mode report: strict equality against
      the ordinals 0, 1 and 3 (2 is a gap in the table). */
  function ModeRecord(v: DpValue): (r: Option<Record>)
    ensures r.Some? <==> v in {IntValue(0), IntValue(1), IntValue(3)}
    ensures r.Some? ==> r.value.ModeReport? && (r.value.awayMode == On <==> r.value.preset == Holiday)
  {
    match v
    case IntValue(0) => Some(ModeReport(Off, Schedule))
    case IntValue(1) => Some(ModeReport(Off, Manual))
    case IntValue(3) => Some(ModeReport(On, Holiday))
    case _ => None
  }

  /** The converter: dispatch on the data point identifier. */
  function Decode(dp: int, value: DpValue): (r: Outcome)
    ensures r.Warn? <==> dp !in {2, 16, 24, 40} || (dp == 2 && value !in {IntValue(0), IntValue(1), IntValue(3)})
    ensures r.Warn? ==> r.diagnostic == if dp == 2 then UnrecognizedPreset(value) else UnrecognizedDp(dp)
    ensures r.Publish? ==> Lookup(dp).Some?
  {
    match Lookup(dp)
    case None => Warn(UnrecognizedDp(dp))
    case Some(ZsChildLock) => Publish(ChildLockReport(if Truthy(value) then Lock else Unlock))
    case Some(ZsHeatingSetpoint) => Publish(SetpointReport(ToFixed1(NumberOf(value))))
    case Some(ZsLocalTemp) => Publish(LocalTemperatureReport(ToFixed1(NumberOf(value))))
    case Some(ZsMode) =>
      match ModeRecord(value)
      case Some(rec) => Publish(rec)
      case None => Warn(UnrecognizedPreset(value))
  }

  /** A known mode ordinal decodes to its preset (0 schedule, 1 manual,
      3 holiday), and away mode is ON exactly for holiday. */
  lemma DecodeModeKnown(o: int)
    requires o in {0, 1, 3}
    ensures var r := Decode(Id(ZsMode), IntValue(o));
      && r.Publish? && r.record.ModeReport?
      && r.record.preset == (if o == 0 then Schedule else if o == 1 then Manual else Holiday)
      && (r.record.awayMode == On <==> r.record.preset == Holiday)
      && OnOffName(r.record.awayMode) == (if o == 3 then "ON" else "OFF")
  {
  }

  /** Ordinal 2, any other number and any boolean on the mode data point give
      no record, only the unrecognised-preset warning. */
  lemma DecodeModeUnknown(v: DpValue)
    requires v !in {IntValue(0), IntValue(1), IntValue(3)}
    ensures Decode(Id(ZsMode), v) == Warn(UnrecognizedPreset(v))
  {
  }

  /** An identifier outside the registry gives no record, only the
      unrecognised-data-point warning; the conversion never fails. */
  lemma DecodeUnknownDp(dp: int, v: DpValue)
    requires forall p :: Id(p) != dp
    ensures Decode(dp, v) == Warn(UnrecognizedDp(dp))
  {
  }

  /** A setpoint or local temperature report of `n` tenths is published as
      a string with exactly one fractional digit that reads back as `n`
      tenths: the wire integer divided by ten, exactly. */
  lemma {:induction false} DecodeTemperature(p: DataPoint, n: int)
    requires p in {ZsHeatingSetpoint, ZsLocalTemp}
    ensures var r := Decode(Id(p), IntValue(n));
      && r.Publish?
      && (if p == ZsHeatingSetpoint then r.record.SetpointReport? else r.record.LocalTemperatureReport?)
      && var s := if p == ZsHeatingSetpoint then r.record.currentHeatingSetpoint else r.record.localTemperature;
         && |s| >= 3 && s[|s| - 2] == '.' && IsDigit(s[|s| - 1]) && ReadFixed1(s) == Some(n)
         && var w := if n < 0 then s[1..] else s; w[0] == '0' ==> w[1] == '.' && -10 < n < 10
  {
    ReadToFixed1(n);
  }

  /** The child lock report is LOCK exactly when the reported value is
      truthy, and UNLOCK otherwise. */
  lemma DecodeChildLock(v: DpValue)
    ensures var r := Decode(Id(ZsChildLock), v);
      r.Publish? && r.record.ChildLockReport? && (r.record.childLock == Lock <==> Truthy(v))
  {
  }
}
