/** The device-object identifiers carried by push messages (DeviceEvents) and the state words
    the core compares against (GarageDoorStates, OnOff). Their strings are not part of this
    model, so a `Vocabulary` supplies them; the lemmas that need them distinct say so. */
module DeviceEvents {

  /** Every object id the state-update decoder recognises, in the order of its case split. */
  datatype DeviceObject =
    | GarageDoorCover
    | GarageLight
    | RemoteLock
    | MotionSensor
    | SyncedSensor
    | ObstructionSensor
    | MotorSensor
    | WallButtonSensor
    | GarageOpeningsSensor
    | SecurityProtocolSelect
    | LearnSwitch
    | WifiSignalStrength
    | WifiSignalPercentage
    | UptimeSensor
    | DeviceId
    | IPAddressTextSensor
    | ToggleOnlySwitch

  const DecodeOrder: seq<DeviceObject> := [
    GarageDoorCover, GarageLight, RemoteLock, MotionSensor, SyncedSensor, ObstructionSensor,
    MotorSensor, WallButtonSensor, GarageOpeningsSensor, SecurityProtocolSelect, LearnSwitch,
    WifiSignalStrength, WifiSignalPercentage, UptimeSensor, DeviceId, IPAddressTextSensor,
    ToggleOnlySwitch
  ]

  datatype Vocabulary = Vocabulary(
    objectId: DeviceObject -> string,
    doorOpen: string,
    doorClosed: string,
    on: string,
    off: string)
  {
    /** The enum members are pairwise distinct strings. */
    predicate Distinct() {
      (forall a, b :: objectId(a) == objectId(b) ==> a == b) &&
      doorOpen != doorClosed && on != off
    }
  }

  /** The decode order lists every device object exactly once. */
  lemma DecodeOrderComplete(d: DeviceObject)
    ensures d in DecodeOrder
    ensures forall i, j :: 0 <= i < j < |DecodeOrder| ==> DecodeOrder[i] != DecodeOrder[j]
  {
  }
}
