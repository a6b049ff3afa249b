/**
 * The shapes of the vendor's replies (already parsed from JSON) and the
 * accessory host's characteristic constants, treated as abstract enums.
 * The vendor's string constants are the ones the legacy build spells out.
 */
module Vendor {
  import opened Common

  // ----- vendor records -----

  datatype Installation = Installation(giid: string, street: string)

  datatype ArmState = ArmState(statusType: string)

  datatype PlugStatus = PlugStatus(deviceLabel: string, area: string, currentState: string)

  /** Temperatures are copied through unchanged; see README for floating point. */
  type Temperature = real

  datatype ClimateValue = ClimateValue(deviceLabel: string, deviceArea: string, deviceType: string, temperature: Temperature)

  /** An entry of the overview's door-lock list. */
  datatype DoorLockStatus = DoorLockStatus(deviceLabel: string, area: string, lockedState: string)

  /** An entry of the reply to `/installation/{giid}/doorlockstate/search`. */
  datatype DoorLockRecord = DoorLockRecord(deviceLabel: string, motorJam: bool, currentLockState: string, pendingLockState: string)

  datatype Overview = Overview(
    armState: ArmState,
    smartPlugs: seq<PlugStatus>,
    climateValues: seq<ClimateValue>,
    doorLockStatusList: Option<seq<DoorLockStatus>>)

  /** Body of the reply to a lock/unlock or arm-state command. */
  datatype TransactionBody = TransactionBody(doorLockStateChangeTransactionId: Option<string>, armStateChangeTransactionId: Option<string>)

  /** Body of the reply to a transaction-result poll. */
  datatype PollBody = PollBody(result: string)

  const ArmedAway: string := "ARMED_AWAY"
  const ArmedHome: string := "ARMED_HOME"
  const DisarmedState: string := "DISARMED"
  const Locked: string := "LOCKED"
  const Unlocked: string := "UNLOCKED"
  const PendingNone: string := "NONE"
  const PlugOn: string := "ON"
  const NoData: string := "NO_DATA"

  // ----- accessory-host characteristic constants -----

  /**
   * Security-system states. The source writes a requested target state into
   * the current-state characteristic, so one enum serves both; `Other` is any
   * value none of the four named constants equals.
   */
  datatype SecurityState = StayArm | AwayArm | NightArm | Disarmed | Other(raw: int)

  datatype LockState = Unsecured | Secured | Jammed

  /** The values a lock's target-state characteristic takes (1 = lock, 0 = unlock). */
  type LockTarget = s: LockState | s != Jammed witness Unsecured
}
