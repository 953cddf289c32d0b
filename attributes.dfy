/** The semantic attribute values the host publishes and sets, with the
    exact strings that appear in the host's device state. */
module Attributes {

  datatype LockState = Lock | Unlock
  datatype OnOff = On | Off
  datatype Preset = Schedule | Manual | Holiday

  function LockName(l: LockState): string
  {
    match l
    case Lock => "LOCK"
    case Unlock => "UNLOCK"
  }

  function OnOffName(s: OnOff): string
  {
    match s
    case On => "ON"
    case Off => "OFF"
  }

  function PresetName(p: Preset): string
  {
    match p
    case Schedule => "schedule"
    case Manual => "manual"
    case Holiday => "holiday"
  }
}
