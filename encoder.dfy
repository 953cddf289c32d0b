/** The outbound converters `tzLocal.*.convertSet`: a host request to set one
    attribute becomes an ordered sequence of data-point writes. The
    sequence each request produces is given by a function; the converters
    themselves are methods that send those writes, in order, to the device
    endpoint. */
module Encoder {
  import opened Wrappers
  import opened DataPoints

  /** One call of the Tuya library's send functions: `sendDataPointBool`,
      `sendDataPointValue` or `sendDataPointEnum`. An enum write whose
      ordinal the lookup did not find carries `None` (`undefined`). */
  datatype Write =
    | SendBool(dp: int, flag: bool)
    | SendValue(dp: int, value: int)
    | SendEnum(dp: int, ordinal: Option<int>)

  /** The host's setpoint domain: [0.5, 29.5] in steps of 0.5, given here in
      half degrees. */
  predicate InSetpointRange(halves: int)
  {
    1 <= halves <= 59
  }

  /** `Math.round(value * 10)` for a setpoint of `halves / 2` degrees: the
      product is the integer `5 * halves`, so rounding is exact. */
  function SetpointTenths(halves: int): (t: int)
    ensures t as real == 10.0 * (halves as real / 2.0)
  {
    5 * halves
  }

  /** The preset table of the preset converter. Any other string (including
      the names of Object.prototype members, which yield no number) gives
      `None`. */
  function PresetOrdinal(value: string): (o: Option<int>)
    ensures o.Some? <==> value in {"schedule", "manual", "holiday"}
    ensures o.Some? ==> o.value in {0, 1, 3}
  {
    if value == "schedule" then Some(0)
    else if value == "manual" then Some(1)
    else if value == "holiday" then Some(3)
    else None
  }

  /** JavaScript truthiness of the stored setpoint: absent and zero are both
      falsy. */
  predicate StoredTruthy(stored: Option<int>)
    ensures StoredTruthy(stored) <==> stored !in {None, Some(0)}
  {
    stored.Some? && stored.value != 0
  }

  /** The writes of the child lock converter: exactly one boolean write to
      data point 40, true only for exactly "LOCK"; any other value unlocks. */
  function ChildLockWrites(value: string): (w: seq<Write>)
    ensures |w| == 1 && w[0].SendBool? && w[0].dp == 40 && (w[0].flag <==> value == "LOCK")
  {
    [SendBool(Id(ZsChildLock), value == "LOCK")]
  }

  /** The writes of the heating setpoint converter: exactly one value write
      to data point 16, whose payload is ten times the setpoint. */
  function SetpointWrites(halves: int): (w: seq<Write>)
    requires InSetpointRange(halves)
    ensures |w| == 1 && w[0].SendValue? && w[0].dp == 16
    ensures w[0].value as real == 10.0 * (halves as real / 2.0) && 5 <= w[0].value <= 295
  {
    [SendValue(Id(ZsHeatingSetpoint), SetpointTenths(halves))]
  }

  /** The writes of the preset converter: the mode write, then, when the
      preset is "manual" and a truthy setpoint is stored (in tenths of a
      degree, so that `Math.round(temp * 10)` is that count), the stored
      setpoint again.

      This is the correlation rule: the mode write always comes first; a
      second write follows exactly when the preset is "manual" and the
      stored setpoint is truthy, and it is then the stored setpoint on data
      point 16. */
  function PresetWrites(value: string, stored: Option<int>): (w: seq<Write>)
    ensures 1 <= |w| <= 2
    ensures w[0] == SendEnum(2, PresetOrdinal(value))
    ensures |w| == 2 <==> value == "manual" && StoredTruthy(stored)
    ensures |w| == 2 ==> w[1] == SendValue(16, stored.value)
  {
    [SendEnum(Id(ZsMode), PresetOrdinal(value))]
    + if value == "manual" && StoredTruthy(stored) then [SendValue(Id(ZsHeatingSetpoint), stored.value)] else []
  }

  /** Switching to manual with a stored setpoint of `halves / 2` degrees
      re-sends exactly the write the setpoint converter would send for it. */
  lemma ManualResendsSetpoint(halves: int)
    requires InSetpointRange(halves)
    ensures PresetWrites("manual", Some(SetpointTenths(halves))) == [SendEnum(2, Some(1))] + SetpointWrites(halves)
  {
  }

  /** The device endpoint the converters write to (`entity`). The Tuya
      library's framing is not modelled: each send appends its write to the
      log of writes sent so far. */
  class Endpoint {
    var sent: seq<Write>

    constructor ()
      ensures sent == []
    {
      sent := [];
    }

    method SendDataPointBool(dp: int, flag: bool)
      modifies this
      ensures sent == old(sent) + [SendBool(dp, flag)]
    {
      sent := sent + [SendBool(dp, flag)];
    }

    method SendDataPointValue(dp: int, value: int)
      modifies this
      ensures sent == old(sent) + [SendValue(dp, value)]
    {
      sent := sent + [SendValue(dp, value)];
    }

    method SendDataPointEnum(dp: int, ordinal: Option<int>)
      modifies this
      ensures sent == old(sent) + [SendEnum(dp, ordinal)]
    {
      sent := sent + [SendEnum(dp, ordinal)];
    }
  }

  /** `zs_thermostat_child_lock.convertSet`. */
  method ConvertSetChildLock(entity: Endpoint, value: string)
    modifies entity
    ensures entity.sent == old(entity.sent) + ChildLockWrites(value)
  {
    entity.SendDataPointBool(Id(ZsChildLock), value == "LOCK");
  }

  /** `zs_thermostat_current_heating_setpoint.convertSet`. */
  method ConvertSetHeatingSetpoint(entity: Endpoint, halves: int)
    requires InSetpointRange(halves)
    modifies entity
    ensures entity.sent == old(entity.sent) + SetpointWrites(halves)
  {
    entity.SendDataPointValue(Id(ZsHeatingSetpoint), SetpointTenths(halves));
  }

  /** `zs_thermostat_preset_mode.convertSet`; `stored` is what the host's
      store holds for this device's heating setpoint. */
  method ConvertSetPreset(entity: Endpoint, value: string, stored: Option<int>)
    modifies entity
    ensures entity.sent == old(entity.sent) + PresetWrites(value, stored)
  {
    entity.SendDataPointEnum(Id(ZsMode), PresetOrdinal(value));
    if value == "manual" {
      if StoredTruthy(stored) {
        entity.SendDataPointValue(Id(ZsHeatingSetpoint), stored.value);
      }
    }
  }
}
