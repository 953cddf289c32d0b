# Tuya radiator valve data-point codec, in Dafny

This project models the converter logic of `tuya_radiator_valve.js`, an
external zigbee2mqtt converter for a Tuya thermostatic radiator valve. The
valve speaks Tuya "data points" (DPs): a numeric identifier with a typed
value. The converter translates in both directions:

- **Registry** (`DataPoints`): the four DP identifiers: mode 2, heating setpoint 16,
  local temperature 24, child lock 40.
- **Decoder** (`Decoder.Decode`): an inbound DP report becomes at most one
  attribute record. Child lock becomes LOCK/UNLOCK. Setpoint and local temperature
  are tenths of a degree, shown with one decimal place. Mode ordinals 0/1/3 become
  preset schedule/manual/holiday together with away mode. Ordinal 2, other
  ordinals and unknown DPs give only a warning (`Diagnostic`).
- **Encoder** (`Encoder`): a host set-request becomes an ordered sequence of
  DP writes (`Write`: the library's bool/value/enum sends). Switching the preset
  to manual re-sends the stored setpoint after the mode write, if that stored
  value is truthy.
- **Round trips** (`Codec`): what the decoder makes of each write the encoder sends.

Temperatures are integers throughout. Wire values are integer tenths of a degree.
Host setpoints lie on the 0.5-degree grid of [0.5, 29.5] and are given as
half degrees `k` in [1, 59], so the wire value is `5 * k`. The stored setpoint
that the preset converter reads from the host's store is passed in as an
`Option<int>` counting tenths of a degree; `Math.round(temp * 10)` of such a
value is that count. Decoded temperatures are the strings `toFixed(1)` produces,
built from digits (`FixedPoint.ToFixed1`) and read back by `FixedPoint.ReadFixed1`.

The outbound converters are effectful in the source: each awaits library sends
in a fixed order. They are modelled as methods on an `Encoder.Endpoint` whose
`sent` log each send appends to. Each converter is proved to append exactly the
sequence given by the matching pure function (`ChildLockWrites`,
`SetpointWrites`, `PresetWrites`), and the lemmas are stated about those
functions.

The converters validate nothing themselves. A child-lock value other than
"LOCK" is not rejected: it sends `false`. It does not reject an unknown preset: it sends the table's
`undefined`, modelled as `SendEnum(2, None)`. The decoder does not write the
host's store either; only the preset converter reads it.

## Model

| member | source | states |
|---|---|---|
| DataPoints.Id | tuya_radiator_valve.js:18-25 | every data point has one of the identifiers 2, 16, 24, 40 |
| DataPoints.Lookup | tuya_radiator_valve.js:34-59 | an identifier names a data point exactly when it is 2, 16, 24 or 40, and the named data point has that identifier |
| DataPoints.LookupId | tuya_radiator_valve.js:18-25 | each data point is found again under its identifier; no two data points share one |
| FixedPoint.Digits | tuya_radiator_valve.js:40 | the whole part is written as a non-empty string of digits that starts with '0' only when it is exactly "0", for zero |
| FixedPoint.DigitsRoundTrip | tuya_radiator_valve.js:40 | the whole part is written as a non-empty digit string that reads back as the number and starts with '0' only when it is exactly "0" |
| FixedPoint.FromTenths | tuya_radiator_valve.js:40 | `n / 10` splits into a sign, whole part and one tenths digit that together are exactly `n` tenths |
| FixedPoint.ToFixed1 | tuya_radiator_valve.js:40-43 | `(n / 10).toFixed(1)` is a minus sign exactly for negative `n`, a whole part with no leading zero (a '0' there is followed by the point, and only when -10 < n < 10), a point and exactly one digit |
| FixedPoint.ReadToFixed1 | tuya_radiator_valve.js:40-43 | `(n / 10).toFixed(1)` has exactly one digit after its point, is negative exactly when `n` is, and reads back as exactly `n` tenths; a '0' opening the whole part is followed by the point, and only when -10 < n < 10 |
| FixedPoint.ToFixed1Example | tuya_radiator_valve.js:43 | 215 tenths is shown as "21.5"; 0 as "0.0"; -5 as "-0.5" |
| Decoder.Truthy | tuya_radiator_valve.js:37 | a reported value is truthy unless it is `false` or `0` |
| Decoder.NumberOf | tuya_radiator_valve.js:40 | `value / 10` reads a number as itself and a boolean as 1 or 0, zero exactly for a falsy value |
| Decoder.ModeRecord | tuya_radiator_valve.js:46-57 | a mode value gives a record exactly for the numbers 0, 1, 3; that record has away mode ON exactly when the preset is holiday |
| Decoder.Decode | tuya_radiator_valve.js:30-62 | the converter warns exactly for an unknown identifier or a mode value outside {0, 1, 3}, with the matching warning; a published record comes from a known identifier |
| Decoder.DecodeModeKnown | tuya_radiator_valve.js:45-52 | mode ordinals 0, 1, 3 decode to schedule, manual, holiday, with away mode "ON" exactly for holiday (3) and "OFF" otherwise |
| Decoder.DecodeModeUnknown | tuya_radiator_valve.js:53-58 | ordinal 2, any other ordinal and any boolean on the mode DP give no record, only the unrecognised-preset warning |
| Decoder.DecodeUnknownDp | tuya_radiator_valve.js:59-61 | an identifier outside the registry gives no record, only the unrecognised-DP warning |
| Decoder.DecodeTemperature | tuya_radiator_valve.js:39-43 | a setpoint or local temperature of `n` tenths is published with exactly one fractional digit and no leading zero in the whole part ("0.5", never "00.5"), and reads back as `n` tenths |
| Decoder.DecodeChildLock | tuya_radiator_valve.js:36-37 | the child lock report is LOCK exactly when the reported value is truthy |
| Encoder.SetpointTenths | tuya_radiator_valve.js:75 | ten times a setpoint of `halves / 2` degrees is already the integer sent, so `Math.round` changes nothing |
| Encoder.PresetOrdinal | tuya_radiator_valve.js:81 | the preset table knows exactly schedule, manual, holiday, with ordinals in {0, 1, 3}; other strings give `undefined` |
| Encoder.StoredTruthy | tuya_radiator_valve.js:85 | the stored setpoint is truthy unless it is absent or zero |
| Encoder.ChildLockWrites | tuya_radiator_valve.js:68-70 | the child lock converter sends one boolean write to DP 40, true iff the value is "LOCK" |
| Encoder.SetpointWrites | tuya_radiator_valve.js:74-76 | the setpoint converter sends one value write to DP 16 of ten times the setpoint, within [5, 295] |
| Encoder.PresetWrites | tuya_radiator_valve.js:80-89 | the mode write comes first; a second write follows iff the preset is "manual" and the stored setpoint is truthy, and it is that setpoint on DP 16 |
| Encoder.ManualResendsSetpoint | tuya_radiator_valve.js:83-87 | switching to manual with a stored grid setpoint sends the mode write then exactly the write the setpoint converter sends for it |
| Encoder.Endpoint.constructor | tuya_radiator_valve.js:68 | a fresh endpoint has been sent nothing |
| Encoder.Endpoint.SendDataPointBool | tuya_radiator_valve.js:69 | a boolean send appends one boolean write to the log |
| Encoder.Endpoint.SendDataPointValue | tuya_radiator_valve.js:75 | a value send appends one value write to the log |
| Encoder.Endpoint.SendDataPointEnum | tuya_radiator_valve.js:82 | an enum send appends one enum write to the log |
| Encoder.ConvertSetChildLock | tuya_radiator_valve.js:68-70 | the child lock converter appends exactly `ChildLockWrites(value)` |
| Encoder.ConvertSetHeatingSetpoint | tuya_radiator_valve.js:74-76 | the setpoint converter appends exactly `SetpointWrites(halves)` |
| Encoder.ConvertSetPreset | tuya_radiator_valve.js:80-89 | the preset converter appends exactly `PresetWrites(value, stored)`, in that order |
| Codec.TenthsOfHalves | tuya_radiator_valve.js:75 | ten times a half-degree setpoint, as a decimal, is the whole degrees and 0 or 5 tenths |
| Codec.SetpointRoundTrip | tuya_radiator_valve.js:74-75 | a grid setpoint is sent as one write to DP 16, and decoding it publishes the setpoint with one decimal, reading back as the wire value |
| Codec.PresetRoundTrip | tuya_radiator_valve.js:81-82 | each preset is sent as ordinal 0/1/3 on DP 2, and decoding that ordinal gives the same preset and matching away mode |
| Codec.ModeOrdinalRoundTrip | tuya_radiator_valve.js:45-52 | whenever a mode ordinal decodes to a preset, setting that preset sends the same ordinal |
| Codec.ChildLockRoundTrip | tuya_radiator_valve.js:36-37 | setting a lock state and decoding the write gives back that lock state |

## Left out

- The byte-level payload decoding of `tuya.getDataValue` (line 32): the decoder starts from the already-extracted value, a boolean or an integer.
- The framing inside `tuya.sendDataPointBool/Value/Enum` (lines 69, 75, 82, 86): a send is the `Write` value it appends.
- The host's store and who fills it (lines 12, 84): the preset converter receives the stored setpoint as an `Option<int>` in tenths of a degree.
- Logger output (lines 54-55, 60): a warning is a `Diagnostic` value returned instead of a record; the message text is not modelled.
- `async`/`await` and transport acknowledgement (lines 68-89): only the order of the writes is kept.
- The device descriptor (lines 92-122): fingerprints, converter lists, the ignore converters, the clock event hook, the configure binding and the exposes builder are host wiring. Only the setpoint range [0.5, 29.5] in 0.5 steps (line 117) is kept, as the precondition `InSetpointRange`.
- Floating point: `value / 10`, `toFixed(1)` and `Math.round(value * 10)` are modelled on integer tenths and half degrees, exactly.
- Decoder.DecodeTemperature: is stated for every integer, while the model's `IntValue` is wider than a wire value. JavaScript's doubles give the exact digits of `n / 10` only while |n| stays below about 5.6e15 tenths; beyond that, and in `toFixed`'s exponential notation from 1e21, the source's string differs from the model's. A Tuya value report carries four bytes, so every reported value lies far inside the exact range.
- Encoder.ConvertSetHeatingSetpoint: takes only setpoints on the host's grid (`InSetpointRange`), whereas the source rounds any number the host passes; the host validates the range before calling.
- Encoder.PresetOrdinal: a preset string that names an Object.prototype member (for example "toString") yields a non-number in JavaScript; the model gives `None` for it, like any other unknown string.
