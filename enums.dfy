/** The plain constant enums of lib/Konnected/Models whose strings are shown:
    SecurityProtocols, LockStates, ApiVerificationResponses and ESPHomeEvents. */
module Enums {

  datatype SecurityProtocol = Auto | Security1 | Security1WithSmartPanel | Security2

  function ProtocolText(p: SecurityProtocol): string {
    match p
    case Auto => "auto"
    case Security1 => "security+1.0"
    case Security1WithSmartPanel => "security+1.0 with smart panel"
    case Security2 => "security+2.0"
  }

  predicate IsProtocolText(s: string) {
    s == "auto" || s == "security+1.0" || s == "security+1.0 with smart panel" || s == "security+2.0"
  }

  datatype LockState = Locked | Unlocked | Unknown

  function LockText(l: LockState): string {
    match l
    case Locked => "LOCKED"
    case Unlocked => "UNLOCKED"
    case Unknown => "UNKNOWN"
  }

  predicate IsLockText(s: string) {
    s == "LOCKED" || s == "UNLOCKED" || s == "UNKNOWN"
  }

  /** Outcome of the connectionless probe. */
  datatype Verification = Success | AuthenticationRequired | InvalidCredentials
}
