/** Both directions together: what the decoder makes of the writes the
    encoder sends, when the device reports the written data point back. */
module Codec {
  import opened Wrappers
  import opened DataPoints
  import opened Attributes
  import opened FixedPoint
  import opened Decoder
  import opened Encoder

  /** The report of a written data point as the decoder receives it: the
      same identifier, with a boolean write read as a boolean and a value or
      enum write read as a number. An enum write without an ordinal carries
      nothing to report. */
  function Echo(w: Write): Option<Outcome>
  {
    match w
    case SendBool(dp, flag) => Some(Decode(dp, BoolValue(flag)))
    case SendValue(dp, value) => Some(Decode(dp, IntValue(value)))
    case SendEnum(dp, ordinal) => if ordinal.Some? then Some(Decode(dp, IntValue(ordinal.value))) else None
  }

  /** How a setpoint of `halves / 2` degrees reads with one decimal place:
      its whole degrees, a point, and 5 or 0 tenths. */
  function HalfDegreesText(halves: nat): string
  {
    Digits(halves / 2) + "." + (if halves % 2 == 0 then "0" else "5")
  }

  /** The split of a half-degree setpoint's wire value into whole degrees
      and tenths, on which SetpointRoundTrip relies. */
  lemma TenthsOfHalves(halves: nat)
    ensures FromTenths(SetpointTenths(halves)) == Fixed1(false, halves / 2, 5 * (halves % 2))
  {
  }

  /** Setpoint round trip: a setpoint on the host's grid is sent as one
      write to data point 16, and decoding that write publishes the same
      setpoint written with one decimal place (e.g. 21.5 as "21.5"), which
      reads back as the wire value. */
  lemma {:induction false} SetpointRoundTrip(halves: int)
    requires InSetpointRange(halves)
    ensures var w := SetpointWrites(halves);
      && |w| == 1 && w[0].dp == 16
      && Echo(w[0]) == Some(Publish(SetpointReport(HalfDegreesText(halves))))
      && ReadFixed1(HalfDegreesText(halves)) == Some(5 * halves)
  {
    TenthsOfHalves(halves);
    ReadToFixed1(5 * halves);
    var d := FromTenths(5 * halves);
    assert [DigitChar(d.tenth)] == (if halves % 2 == 0 then "0" else "5");
    assert ToFixed1(5 * halves) == Digits(halves / 2) + "." + [DigitChar(d.tenth)];
    assert ToFixed1(5 * halves) == HalfDegreesText(halves);
  }

  /** Preset round trip, encoder first: each preset is sent with an ordinal
      (0, 1 or 3) on data point 2, and decoding that ordinal gives back the
      same preset, with away mode ON exactly for holiday. */
  lemma PresetRoundTrip(p: Preset, stored: Option<int>)
    ensures var w := PresetWrites(PresetName(p), stored);
      && w[0] == SendEnum(2, Some(if p == Schedule then 0 else if p == Manual then 1 else 3))
      && Echo(w[0]) == Some(Publish(ModeReport(if p == Holiday then On else Off, p)))
  {
  }

  /** Preset round trip, decoder first: whenever a mode ordinal decodes to a
      preset, setting that preset sends the same ordinal again. */
  lemma ModeOrdinalRoundTrip(o: int)
    requires Decode(2, IntValue(o)).Publish?
    ensures var r := Decode(2, IntValue(o));
      && r.record.ModeReport?
      && PresetOrdinal(PresetName(r.record.preset)) == Some(o)
  {
  }

  /** Child lock round trip: setting a lock state and decoding the write
      gives back that lock state. */
  lemma ChildLockRoundTrip(l: LockState)
    ensures var w := ChildLockWrites(LockName(l));
      |w| == 1 && Echo(w[0]) == Some(Publish(ChildLockReport(l)))
  {
  }
}
