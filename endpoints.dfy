/** The endpoint catalog of lib/Konnected/Models/BlaqEndPoints.ts: the 39 paths of the device's
    REST surface, and which of them are read with GET (and the payload they return) and which are
    written with POST (and the parameter record they take). */
module BlaqEndPoints {
  import opened Wrappers
  import opened Text
  import Payloads

  datatype Endpoint =
    | GarageDoor | GarageDoorOpen | GarageDoorClose | GarageDoorStop | GarageDoorToggle | GarageDoorSet
    | ToggleOnly | ToggleOnlyOn | ToggleOnlyOff
    | GarageLight | GarageLightTurnOn | GarageLightTurnOff | GarageLightToggle
    | Lock | LockLock | LockUnlock
    | MotionSensor | RollingCodeSynced | Obstruction | MotorRunning | WallButtonPressed | GarageOpenings
    | SecurityProtocol | SecurityProtocolSet
    | Learn | LearnOn | LearnOff | LearnToggle
    | WifiSignalRssi | WifiSignalPercent
    | Uptime | DeviceId | IPAddress
    | PreCloseWarningPress | PlaySoundPress | RestartPress | FactoryResetPress | ReSyncPress
    | ResetDoorTimingsPress

  /** The enum member's string value: the path under the device's base URL. */
  function Path(e: Endpoint): string {
    match e
    case GarageDoor => "/cover/garage_door"
    case GarageDoorOpen => "/cover/garage_door/open"
    case GarageDoorClose => "/cover/garage_door/close"
    case GarageDoorStop => "/cover/garage_door/stop"
    case GarageDoorToggle => "/cover/garage_door/toggle"
    case GarageDoorSet => "/cover/garage_door/set"
    case ToggleOnly => "/switch/toggle_only"
    case ToggleOnlyOn => "/switch/toggle_only/turn_on"
    case ToggleOnlyOff => "/switch/toggle_only/turn_off"
    case GarageLight => "/light/garage_light"
    case GarageLightTurnOn => "/light/garage_light/turn_on"
    case GarageLightTurnOff => "/light/garage_light/turn_off"
    case GarageLightToggle => "/light/garage_light/toggle"
    case Lock => "/lock/lock"
    case LockLock => "/lock/lock/lock"
    case LockUnlock => "/lock/lock/unlock"
    case MotionSensor => "/binary_sensor/motion"
    case RollingCodeSynced => "/binary_sensor/synced"
    case Obstruction => "/binary_sensor/obstruction"
    case MotorRunning => "/binary_sensor/motor"
    case WallButtonPressed => "/binary_sensor/wall_button"
    case GarageOpenings => "/sensor/garage_openings"
    case SecurityProtocol => "/select/security__protocol"
    case SecurityProtocolSet => "/select/security__protocol/set"
    case Learn => "/switch/learn"
    case LearnOn => "/switch/learn/turn_on"
    case LearnOff => "/switch/learn/turn_off"
    case LearnToggle => "/switch/learn/toggle"
    case WifiSignalRssi => "/sensor/wifi_signal_rssi"
    case WifiSignalPercent => "/sensor/wifi_signal__"
    case Uptime => "/sensor/uptime"
    case DeviceId => "/text_sensor/device_id"
    case IPAddress => "/text_sensor/ip_address"
    case PreCloseWarningPress => "/button/pre-close_warning/press"
    case PlaySoundPress => "/button/play_sound/press"
    case RestartPress => "/button/restart/press"
    case FactoryResetPress => "/button/factory_reset/press"
    case ReSyncPress => "/button/re-sync/press"
    case ResetDoorTimingsPress => "/button/reset_door_timings/press"
  }

  /** The keys of BlaqGetEndpoints. */
  const GetEndpoints: set<Endpoint> := {
    GarageDoor, GarageLight, Lock, MotionSensor, RollingCodeSynced, Obstruction, MotorRunning,
    WallButtonPressed, GarageOpenings, SecurityProtocol, Learn, WifiSignalRssi, WifiSignalPercent,
    Uptime, DeviceId, IPAddress, ToggleOnly
  }

  /** The keys of BlaqPostEndPoints. */
  const PostEndpoints: set<Endpoint> := {
    GarageDoorOpen, GarageDoorClose, GarageDoorStop, GarageDoorToggle, GarageDoorSet,
    ToggleOnlyOn, ToggleOnlyOff,
    GarageLightTurnOn, GarageLightTurnOff, GarageLightToggle,
    LockLock, LockUnlock,
    SecurityProtocolSet,
    LearnOn, LearnOff, LearnToggle,
    PreCloseWarningPress, PlaySoundPress, RestartPress, FactoryResetPress, ReSyncPress,
    ResetDoorTimingsPress
  }

  /** BlaqGetEndpoints: the payload interface a GET of `e` returns, if `e` is a GET endpoint. */
  function GetPayload(e: Endpoint): Option<Payloads.PayloadKind> {
    match e
    case GarageDoor => Some(Payloads.GarageDoorStatePayload)
    case GarageLight => Some(Payloads.GarageLightStatePayload)
    case Lock => Some(Payloads.GarageRemoteControlLockStatePayload)
    case MotionSensor => Some(Payloads.MotionSensorStatePayload)
    case RollingCodeSynced => Some(Payloads.ProtocolSyncStatePayload)
    case Obstruction => Some(Payloads.ObstructionStatePayload)
    case MotorRunning => Some(Payloads.GarageOpenerMotorStatePayload)
    case WallButtonPressed => Some(Payloads.WallButtonStatePayload)
    case GarageOpenings => Some(Payloads.GarageOpeningsPayload)
    case SecurityProtocol => Some(Payloads.SecurityProtocolPayload)
    case Learn => Some(Payloads.LearnModeStatePayload)
    case WifiSignalRssi => Some(Payloads.WifiSignalRssiPayload)
    case WifiSignalPercent => Some(Payloads.WifiSignalPercentPayload)
    case Uptime => Some(Payloads.UptimePayload)
    case DeviceId => Some(Payloads.DeviceIdPayload)
    case IPAddress => Some(Payloads.IPAddressPayload)
    case ToggleOnly => Some(Payloads.ToggleOnlyPayload)
    case _ => None
  }

  /** BlaqPostEndPoints: the parameter record a POST to `e` takes, if `e` is a POST endpoint. */
  function PostParams(e: Endpoint): Option<Payloads.RequestKind> {
    match e
    case GarageDoorSet => Some(Payloads.PositionRequest)
    case SecurityProtocolSet => Some(Payloads.SecurityProtocolRequest)
    case GarageDoorOpen | GarageDoorClose | GarageDoorStop | GarageDoorToggle
       | ToggleOnlyOn | ToggleOnlyOff
       | GarageLightTurnOn | GarageLightTurnOff | GarageLightToggle
       | LockLock | LockUnlock
       | LearnOn | LearnOff | LearnToggle
       | PreCloseWarningPress | PlaySoundPress | RestartPress | FactoryResetPress | ReSyncPress
       | ResetDoorTimingsPress => Some(Payloads.EmptyRequest)
    case _ => None
  }

  predicate IsGet(e: Endpoint) { GetPayload(e).Some? }

  predicate IsPost(e: Endpoint) { PostParams(e).Some? }

  /** The reverse lookup of the string enum: which member, if any, has path `p`. The length of
      `p` and at most two of its characters single out the only member it can be; the whole path
      is then compared. */
  function FromPath(p: string): (r: Option<Endpoint>)
    ensures r.Some? ==> Path(r.value) == p
  {
    match Candidate(p)
    case Some(e) => if Path(e) == p then Some(e) else None
    case None => None
  }

  function Candidate(p: string): Option<Endpoint> {
    match |p|
    case 10 => Some(Lock)
    case 13 => Some(Learn)
    case 14 => Some(Uptime)
    case 15 => Some(LockLock)
    case 17 => Some(LockUnlock)
    case 18 => Some(GarageDoor)
    case 19 => if p[1] == 's' then Some(ToggleOnly) else Some(GarageLight)
    case 20 => if p[1] == 'b' then Some(MotorRunning) else Some(LearnToggle)
    case 21 =>
      if p[10] == 'a' then Some(LearnOn)
      else if p[10] == 'f' then Some(WifiSignalPercent)
      else if p[10] == 's' then Some(RestartPress)
      else if p[10] == '-' then Some(ReSyncPress)
      else if p[15] == 'm' then Some(MotionSensor)
      else Some(RollingCodeSynced)
    case 22 =>
      if p[1] == 'c' then Some(GarageDoorSet)
      else if p[1] == 's' then Some(LearnOff)
      else Some(DeviceId)
    case 23 =>
      if p[19] == 'o' then Some(GarageDoorOpen)
      else if p[19] == 's' then Some(GarageDoorStop)
      else if p[19] == 'i' then Some(GarageOpenings)
      else Some(IPAddress)
    case 24 =>
      if p[1] == 'c' then Some(GarageDoorClose)
      else if p[1] == 's' then Some(WifiSignalRssi)
      else Some(PlaySoundPress)
    case 25 => Some(GarageDoorToggle)
    case 26 =>
      if p[15] == 'i' then Some(GarageLightToggle)
      else if p[15] == 'o' then Some(Obstruction)
      else if p[15] == 'w' then Some(WallButtonPressed)
      else Some(SecurityProtocol)
    case 27 =>
      if p[1] == 's' then Some(ToggleOnlyOn)
      else if p[1] == 'l' then Some(GarageLightTurnOn)
      else Some(FactoryResetPress)
    case 28 => if p[1] == 's' then Some(ToggleOnlyOff) else Some(GarageLightTurnOff)
    case 30 => Some(SecurityProtocolSet)
    case 31 => Some(PreCloseWarningPress)
    case 32 => Some(ResetDoorTimingsPress)
    case _ => None
  }

  /** The reverse lookup finds each member from its own path. */
  lemma PathRoundTrip(e: Endpoint)
    ensures FromPath(Path(e)) == Some(e)
  {
    match e
    case GarageDoor | GarageDoorOpen => RoundTrip1();
    case GarageDoorClose | GarageDoorStop => RoundTrip2();
    case GarageDoorToggle | GarageDoorSet => RoundTrip3();
    case ToggleOnly | ToggleOnlyOn => RoundTrip4();
    case ToggleOnlyOff | GarageLight => RoundTrip5();
    case GarageLightTurnOn | GarageLightTurnOff => RoundTrip6();
    case GarageLightToggle | Lock => RoundTrip7();
    case LockLock | LockUnlock => RoundTrip8();
    case MotionSensor | RollingCodeSynced => RoundTrip9();
    case Obstruction | MotorRunning => RoundTrip10();
    case WallButtonPressed | GarageOpenings => RoundTrip11();
    case SecurityProtocol | SecurityProtocolSet => RoundTrip12();
    case Learn | LearnOn => RoundTrip13();
    case LearnOff | LearnToggle => RoundTrip14();
    case WifiSignalRssi | WifiSignalPercent => RoundTrip15();
    case Uptime | DeviceId => RoundTrip16();
    case IPAddress | PreCloseWarningPress => RoundTrip17();
    case PlaySoundPress | RestartPress => RoundTrip18();
    case FactoryResetPress | ReSyncPress => RoundTrip19();
    case ResetDoorTimingsPress => RoundTrip20();
  }

  /* RoundTrip1 to RoundTrip20 evaluate the lookup on two members' paths each. Each string
     comparison against the 39 paths is costly for the solver, so the case analysis of
     `PathRoundTrip` is split into these pairs to keep every proof small. */
  lemma RoundTrip1()
    ensures Candidate(Path(GarageDoor)) == Some(GarageDoor)
    ensures Candidate(Path(GarageDoorOpen)) == Some(GarageDoorOpen)
  {
  }

  lemma RoundTrip2()
    ensures Candidate(Path(GarageDoorClose)) == Some(GarageDoorClose)
    ensures Candidate(Path(GarageDoorStop)) == Some(GarageDoorStop)
  {
  }

  lemma RoundTrip3()
    ensures Candidate(Path(GarageDoorToggle)) == Some(GarageDoorToggle)
    ensures Candidate(Path(GarageDoorSet)) == Some(GarageDoorSet)
  {
  }

  lemma RoundTrip4()
    ensures Candidate(Path(ToggleOnly)) == Some(ToggleOnly)
    ensures Candidate(Path(ToggleOnlyOn)) == Some(ToggleOnlyOn)
  {
  }

  lemma RoundTrip5()
    ensures Candidate(Path(ToggleOnlyOff)) == Some(ToggleOnlyOff)
    ensures Candidate(Path(GarageLight)) == Some(GarageLight)
  {
  }

  lemma RoundTrip6()
    ensures Candidate(Path(GarageLightTurnOn)) == Some(GarageLightTurnOn)
    ensures Candidate(Path(GarageLightTurnOff)) == Some(GarageLightTurnOff)
  {
  }

  lemma RoundTrip7()
    ensures Candidate(Path(GarageLightToggle)) == Some(GarageLightToggle)
    ensures Candidate(Path(Lock)) == Some(Lock)
  {
  }

  lemma RoundTrip8()
    ensures Candidate(Path(LockLock)) == Some(LockLock)
    ensures Candidate(Path(LockUnlock)) == Some(LockUnlock)
  {
  }

  lemma RoundTrip9()
    ensures Candidate(Path(MotionSensor)) == Some(MotionSensor)
    ensures Candidate(Path(RollingCodeSynced)) == Some(RollingCodeSynced)
  {
  }

  lemma RoundTrip10()
    ensures Candidate(Path(Obstruction)) == Some(Obstruction)
    ensures Candidate(Path(MotorRunning)) == Some(MotorRunning)
  {
  }

  lemma RoundTrip11()
    ensures Candidate(Path(WallButtonPressed)) == Some(WallButtonPressed)
    ensures Candidate(Path(GarageOpenings)) == Some(GarageOpenings)
  {
  }

  lemma RoundTrip12()
    ensures Candidate(Path(SecurityProtocol)) == Some(SecurityProtocol)
    ensures Candidate(Path(SecurityProtocolSet)) == Some(SecurityProtocolSet)
  {
  }

  lemma RoundTrip13()
    ensures Candidate(Path(Learn)) == Some(Learn)
    ensures Candidate(Path(LearnOn)) == Some(LearnOn)
  {
  }

  lemma RoundTrip14()
    ensures Candidate(Path(LearnOff)) == Some(LearnOff)
    ensures Candidate(Path(LearnToggle)) == Some(LearnToggle)
  {
  }

  lemma RoundTrip15()
    ensures Candidate(Path(WifiSignalRssi)) == Some(WifiSignalRssi)
    ensures Candidate(Path(WifiSignalPercent)) == Some(WifiSignalPercent)
  {
  }

  lemma RoundTrip16()
    ensures Candidate(Path(Uptime)) == Some(Uptime)
    ensures Candidate(Path(DeviceId)) == Some(DeviceId)
  {
  }

  lemma RoundTrip17()
    ensures Candidate(Path(IPAddress)) == Some(IPAddress)
    ensures Candidate(Path(PreCloseWarningPress)) == Some(PreCloseWarningPress)
  {
  }

  lemma RoundTrip18()
    ensures Candidate(Path(PlaySoundPress)) == Some(PlaySoundPress)
    ensures Candidate(Path(RestartPress)) == Some(RestartPress)
  {
  }

  lemma RoundTrip19()
    ensures Candidate(Path(FactoryResetPress)) == Some(FactoryResetPress)
    ensures Candidate(Path(ReSyncPress)) == Some(ReSyncPress)
  {
  }

  lemma RoundTrip20()
    ensures Candidate(Path(ResetDoorTimingsPress)) == Some(ResetDoorTimingsPress)
  {
  }

  /** Every one of the 39 path strings is distinct. */
  lemma PathsDistinct(a: Endpoint, b: Endpoint)
    ensures Path(a) == Path(b) ==> a == b
  {
    PathRoundTrip(a);
    PathRoundTrip(b);
  }

  /** The keys of the GET map and of the POST map partition the enum: every endpoint is a key
      of exactly one of them. */
  lemma GetPostPartition(e: Endpoint)
    ensures IsGet(e) != IsPost(e)
    ensures e in GetEndpoints <==> IsGet(e)
    ensures e in PostEndpoints <==> IsPost(e)
  {
    GetXorPost(e);
    GetKeysListed(e);
    PostKeysListed(e);
  }

  lemma GetXorPost(e: Endpoint)
    ensures IsGet(e) != IsPost(e)
  {
  }

  lemma GetKeysListed(e: Endpoint)
    ensures e in GetEndpoints <==> IsGet(e)
  {
    GetListedAreGet(e);
    GetAreListed(e);
  }

  lemma GetListedAreGet(e: Endpoint)
    ensures e in GetEndpoints ==> IsGet(e)
  {
  }

  lemma GetAreListed(e: Endpoint)
    ensures IsGet(e) ==> e in GetEndpoints
  {
  }

  lemma PostKeysListed(e: Endpoint)
    ensures e in PostEndpoints <==> IsPost(e)
  {
    PostListedArePost(e);
    PostAreListed(e);
  }

  lemma PostListedArePost(e: Endpoint)
    ensures e in PostEndpoints ==> IsPost(e)
  {
  }

  lemma PostAreListed(e: Endpoint)
    ensures IsPost(e) ==> e in PostEndpoints
  {
  }

  /** Only the position and security-protocol setters take a parameter record. */
  lemma OnlyTwoPostsTakeParameters(e: Endpoint)
    requires IsPost(e)
    ensures e == GarageDoorSet <==> PostParams(e) == Some(Payloads.PositionRequest)
    ensures e == SecurityProtocolSet <==> PostParams(e) == Some(Payloads.SecurityProtocolRequest)
    ensures e != GarageDoorSet && e != SecurityProtocolSet ==> PostParams(e) == Some(Payloads.EmptyRequest)
  {
  }

  /** The button endpoints. */
  predicate IsPress(e: Endpoint) {
    e in {PreCloseWarningPress, PlaySoundPress, RestartPress, FactoryResetPress, ReSyncPress,
          ResetDoorTimingsPress}
  }

  /** The component whose status path an action path extends, for every action that has one. */
  function StatusOf(e: Endpoint): Option<Endpoint> {
    match e
    case GarageDoorOpen | GarageDoorClose | GarageDoorStop | GarageDoorToggle | GarageDoorSet => Some(GarageDoor)
    case ToggleOnlyOn | ToggleOnlyOff => Some(ToggleOnly)
    case GarageLightTurnOn | GarageLightTurnOff | GarageLightToggle => Some(GarageLight)
    case LockLock | LockUnlock => Some(Lock)
    case SecurityProtocolSet => Some(SecurityProtocol)
    case LearnOn | LearnOff | LearnToggle => Some(Learn)
    case _ => None
  }

  /** The action verb an action path appends to its component's status path. */
  function ActionVerb(e: Endpoint): string {
    match e
    case GarageDoorOpen => "open"
    case GarageDoorClose => "close"
    case GarageDoorStop => "stop"
    case GarageDoorToggle | GarageLightToggle | LearnToggle => "toggle"
    case GarageDoorSet | SecurityProtocolSet => "set"
    case ToggleOnlyOn | GarageLightTurnOn | LearnOn => "turn_on"
    case ToggleOnlyOff | GarageLightTurnOff | LearnOff => "turn_off"
    case LockLock => "lock"
    case LockUnlock => "unlock"
    case _ => ""
  }

  /** Every POST endpoint other than a button press is its component's GET status path
      followed by `/` and an action verb. */
  lemma ActionPathExtendsStatusPath(e: Endpoint)
    requires IsPost(e) && !IsPress(e)
    ensures StatusOf(e).Some? && IsGet(StatusOf(e).value)
    ensures Path(e) == Path(StatusOf(e).value) + "/" + ActionVerb(e)
  {
    ActionsHaveStatus(e);
    match e
    case GarageDoorOpen | GarageDoorClose | GarageDoorStop | GarageDoorToggle | GarageDoorSet => DoorActionPaths();
    case GarageLightTurnOn | GarageLightTurnOff | GarageLightToggle => LightActionPaths();
    case LearnOn | LearnOff | LearnToggle => LearnActionPaths();
    case LockLock | LockUnlock => LockActionPaths();
    case ToggleOnlyOn | ToggleOnlyOff => ToggleOnlyActionPaths();
    case SecurityProtocolSet => SecurityProtocolActionPaths();
    case _ =>
  }

  lemma ActionsHaveStatus(e: Endpoint)
    requires IsPost(e) && !IsPress(e)
    ensures StatusOf(e).Some? && IsGet(StatusOf(e).value)
  {
  }

  lemma DoorActionPaths()
    ensures Path(GarageDoorOpen) == Path(GarageDoor) + "/" + ActionVerb(GarageDoorOpen)
    ensures Path(GarageDoorClose) == Path(GarageDoor) + "/" + ActionVerb(GarageDoorClose)
    ensures Path(GarageDoorStop) == Path(GarageDoor) + "/" + ActionVerb(GarageDoorStop)
    ensures Path(GarageDoorToggle) == Path(GarageDoor) + "/" + ActionVerb(GarageDoorToggle)
    ensures Path(GarageDoorSet) == Path(GarageDoor) + "/" + ActionVerb(GarageDoorSet)
  {
  }

  lemma LightActionPaths()
    ensures Path(GarageLightTurnOn) == Path(GarageLight) + "/" + ActionVerb(GarageLightTurnOn)
    ensures Path(GarageLightTurnOff) == Path(GarageLight) + "/" + ActionVerb(GarageLightTurnOff)
    ensures Path(GarageLightToggle) == Path(GarageLight) + "/" + ActionVerb(GarageLightToggle)
  {
  }

  lemma LearnActionPaths()
    ensures Path(LearnOn) == Path(Learn) + "/" + ActionVerb(LearnOn)
    ensures Path(LearnOff) == Path(Learn) + "/" + ActionVerb(LearnOff)
    ensures Path(LearnToggle) == Path(Learn) + "/" + ActionVerb(LearnToggle)
  {
  }

  lemma LockActionPaths()
    ensures Path(LockLock) == Path(Lock) + "/" + ActionVerb(LockLock)
    ensures Path(LockUnlock) == Path(Lock) + "/" + ActionVerb(LockUnlock)
  {
  }

  lemma ToggleOnlyActionPaths()
    ensures Path(ToggleOnlyOn) == Path(ToggleOnly) + "/" + ActionVerb(ToggleOnlyOn)
    ensures Path(ToggleOnlyOff) == Path(ToggleOnly) + "/" + ActionVerb(ToggleOnlyOff)
  {
  }

  lemma SecurityProtocolActionPaths()
    ensures Path(SecurityProtocolSet) == Path(SecurityProtocol) + "/" + ActionVerb(SecurityProtocolSet)
  {
  }

  /** The button name segment of a press path. */
  function ButtonSegment(e: Endpoint): string {
    match e
    case PreCloseWarningPress => "pre-close_warning"
    case PlaySoundPress => "play_sound"
    case RestartPress => "restart"
    case FactoryResetPress => "factory_reset"
    case ReSyncPress => "re-sync"
    case ResetDoorTimingsPress => "reset_door_timings"
    case _ => ""
  }

  /** Every button endpoint is a POST endpoint of the form `/button/<name>/press`. */
  lemma PressPathShape(e: Endpoint)
    requires IsPress(e)
    ensures IsPost(e) && StatusOf(e).None?
    ensures Path(e) == "/button/" + ButtonSegment(e) + "/press"
  {
    match e
    case PreCloseWarningPress => PreCloseWarningPressPath();
    case PlaySoundPress => PlaySoundPressPath();
    case RestartPress => RestartPressPath();
    case FactoryResetPress => FactoryResetPressPath();
    case ReSyncPress => ReSyncPressPath();
    case ResetDoorTimingsPress => ResetDoorTimingsPressPath();
    case _ =>
  }

  lemma PreCloseWarningPressPath()
    ensures Path(PreCloseWarningPress) == "/button/" + ButtonSegment(PreCloseWarningPress) + "/press"
  {
  }

  lemma PlaySoundPressPath()
    ensures Path(PlaySoundPress) == "/button/" + ButtonSegment(PlaySoundPress) + "/press"
  {
  }

  lemma RestartPressPath()
    ensures Path(RestartPress) == "/button/" + ButtonSegment(RestartPress) + "/press"
  {
  }

  lemma FactoryResetPressPath()
    ensures Path(FactoryResetPress) == "/button/" + ButtonSegment(FactoryResetPress) + "/press"
  {
  }

  lemma ReSyncPressPath()
    ensures Path(ReSyncPress) == "/button/" + ButtonSegment(ReSyncPress) + "/press"
  {
  }

  lemma ResetDoorTimingsPressPath()
    ensures Path(ResetDoorTimingsPress) == "/button/" + ButtonSegment(ResetDoorTimingsPress) + "/press"
  {
  }
}
