/** lib/Konnected/Models/Switches.ts: the switch event names and the on/off endpoint pair
    of each switch. */
module Switches {
  import opened Wrappers
  import opened Text
  import BlaqEndPoints
  import Payloads

  datatype Switch = RemoteLock | Light | ToggleOnly | Learn

  /** The enum member's string value, which is also the name of its event. */
  function Name(s: Switch): string {
    match s
    case RemoteLock => "switch-remote_lock"
    case Light => "switch-light"
    case ToggleOnly => "switch-toggle_only"
    case Learn => "switch-learn"
  }

  datatype SwitchActions = SwitchActions(on: BlaqEndPoints.Endpoint, off: BlaqEndPoints.Endpoint)

  /** The `SwitchMappings` object: the POST endpoints that turn each switch on and off. */
  const SwitchMappings: map<Switch, SwitchActions> := map[
    Light := SwitchActions(BlaqEndPoints.GarageLightTurnOn, BlaqEndPoints.GarageLightTurnOff),
    RemoteLock := SwitchActions(BlaqEndPoints.LockLock, BlaqEndPoints.LockUnlock),
    ToggleOnly := SwitchActions(BlaqEndPoints.ToggleOnlyOn, BlaqEndPoints.ToggleOnlyOff),
    Learn := SwitchActions(BlaqEndPoints.LearnOn, BlaqEndPoints.LearnOff)
  ]

  /** Switch names are distinct and carry the `switch-` prefix. */
  lemma NamesDistinctAndPrefixed(a: Switch, b: Switch)
    ensures Name(a) == Name(b) ==> a == b
    ensures StartsWith(Name(a), "switch-")
  {
    if a != b {
      assert |Name(a)| != |Name(b)| || Name(a)[8] != Name(b)[8];
    }
  }

  /** The mapping has an entry for every switch. */
  lemma MappingTotal(s: Switch)
    ensures s in SwitchMappings
  {
  }

  /** The endpoint mapped for switch `s` in the requested state. */
  function Action(s: Switch, on: bool): BlaqEndPoints.Endpoint {
    MappingTotal(s);
    var actions := SwitchMappings[s];
    if on then actions.on else actions.off
  }

  /** The eight mapped endpoints are pairwise distinct: no switch turns on where it turns off,
      and no two switches share an endpoint. Every one is a POST endpoint taking no
      parameters; RemoteLock "on" locks the remote. */
  lemma ActionsDistinct(a: Switch, x: bool, b: Switch, y: bool)
    ensures Action(a, x) == Action(b, y) ==> a == b && x == y
    ensures BlaqEndPoints.PostParams(Action(a, x)) == Some(Payloads.EmptyRequest)
    ensures Action(RemoteLock, true) == BlaqEndPoints.LockLock
    ensures Action(Light, true) == BlaqEndPoints.GarageLightTurnOn
  {
  }
}
