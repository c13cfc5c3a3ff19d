/** lib/Konnected/Models/Buttons.ts: the button names and the press endpoint of each. */
module Buttons {
  import opened Text
  import BlaqEndPoints
  import Payloads
  import opened Wrappers

  datatype Button = PlaySound | PreCloseWarning | ReSync | ResetDoorTimings | Restart | FactoryReset

  /** The enum member's string value. */
  function Name(b: Button): string {
    match b
    case PlaySound => "button-play_sound"
    case PreCloseWarning => "button-pre_close_warning"
    case ReSync => "button-re_sync"
    case ResetDoorTimings => "button-reset_door_timings"
    case Restart => "button-restart"
    case FactoryReset => "button-factory_reset"
  }

  /** The `ButtonMappings` object: the POST endpoint each button presses. */
  const ButtonMappings: map<Button, BlaqEndPoints.Endpoint> := map[
    PlaySound := BlaqEndPoints.PlaySoundPress,
    PreCloseWarning := BlaqEndPoints.PreCloseWarningPress,
    ReSync := BlaqEndPoints.ReSyncPress,
    ResetDoorTimings := BlaqEndPoints.ResetDoorTimingsPress,
    Restart := BlaqEndPoints.RestartPress,
    FactoryReset := BlaqEndPoints.FactoryResetPress
  ]

  /** Button names are distinct and carry the `button-` prefix. */
  lemma NamesDistinctAndPrefixed(a: Button, b: Button)
    ensures Name(a) == Name(b) ==> a == b
    ensures StartsWith(Name(a), "button-")
  {
    if a != b {
      assert |Name(a)| != |Name(b)| || Name(a)[9] != Name(b)[9];
    }
  }

  /** The mapping is total over the six buttons, no two buttons press the same endpoint,
      and every one of them is a `/button/.../press` POST endpoint taking no parameters. */
  lemma MappingTotal(a: Button, b: Button)
    ensures a in ButtonMappings
    ensures ButtonMappings[a] == ButtonMappings[b] ==> a == b
    ensures BlaqEndPoints.IsPress(ButtonMappings[a])
    ensures BlaqEndPoints.PostParams(ButtonMappings[a]) == Some(Payloads.EmptyRequest)
  {
  }

  /** The press endpoints are exactly the mapped ones. */
  lemma PressesAreMapped(e: BlaqEndPoints.Endpoint)
    requires BlaqEndPoints.IsPress(e)
    ensures exists b :: b in ButtonMappings && ButtonMappings[b] == e
  {
    var b := match e
      case PlaySoundPress => PlaySound
      case PreCloseWarningPress => PreCloseWarning
      case ReSyncPress => ReSync
      case ResetDoorTimingsPress => ResetDoorTimings
      case RestartPress => Restart
      case _ => FactoryReset;
    assert ButtonMappings[b] == e;
  }
}
