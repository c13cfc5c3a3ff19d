/** lib/Konnected/Models/Alarms.ts: the alarm event names. */
module Alarms {
  import opened Text

  datatype Alarm = Motor | MotionDetected | Synced | ObstructionDetected | WallButtonPressed

  /** The enum member's string value, which is also the name of its event. */
  function Name(a: Alarm): string {
    match a
    case Motor => "alarm-motor"
    case MotionDetected => "alarm-motion_detected"
    case Synced => "alarm-synced"
    case ObstructionDetected => "alarm-obstruction_detected"
    case WallButtonPressed => "alarm-wall_button"
  }

  /** The five alarm names are distinct (their lengths already differ) and carry the
      `alarm-` prefix. */
  lemma NamesDistinctAndPrefixed(a: Alarm, b: Alarm)
    ensures Name(a) == Name(b) ==> a == b
    ensures StartsWith(Name(a), "alarm-")
  {
    assert |Name(a)| == |Name(b)| ==> a == b;
  }
}
