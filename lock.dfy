/** The lock accessory's status translation
    (src/plugin/accessories/LockAccessory.ts:27-91). */
module Lock {

  /** The vendor's DeviceLocked property: a boolean, an integer, or anything
      else (a string, a fraction, undefined). */
  datatype LockProperty = BoolValue(b: bool) | NumberValue(n: int) | OtherValue

  /** HomeKit LockCurrentState values, as the HomeKit Accessory Protocol numbers them. */
  const UNSECURED := 0
  const SECURED := 1
  const JAMMED := 2
  const UNKNOWN := 3

  /** The vendor's "mechanical anomaly" status code. */
  const MECHANICAL_ANOMALY := 5

  /** `convertLockStatusCode`: a `switch` with strict comparison, so only the
      booleans and the number 5 are recognised. */
  function ConvertLockStatusCode(lockStatus: LockProperty): (r: int)
    ensures r == SECURED <==> lockStatus == BoolValue(true)
    ensures r == UNSECURED <==> lockStatus == BoolValue(false)
    ensures r == JAMMED <==> lockStatus == NumberValue(MECHANICAL_ANOMALY)
    ensures r == UNKNOWN <==> !lockStatus.BoolValue? && lockStatus != NumberValue(MECHANICAL_ANOMALY)
    ensures lockStatus.NumberValue? && lockStatus.n != MECHANICAL_ANOMALY ==> r == UNKNOWN
  {
    match lockStatus
    case BoolValue(true) => SECURED
    case BoolValue(false) => UNSECURED
    case NumberValue(n) => if n == MECHANICAL_ANOMALY then JAMMED else UNKNOWN
    case OtherValue => UNKNOWN
  }

  /** `getLockStatus`: the HomeKit state of the DeviceLocked property, the
      value both get handlers return. */
  function GetLockStatus(deviceLocked: LockProperty): (r: int)
    ensures r in {UNSECURED, SECURED, JAMMED, UNKNOWN}
    ensures r == SECURED <==> deviceLocked == BoolValue(true)
    ensures r == UNSECURED <==> deviceLocked == BoolValue(false)
    ensures r == JAMMED <==> deviceLocked == NumberValue(MECHANICAL_ANOMALY)
    ensures r == UNKNOWN <==> !deviceLocked.BoolValue? && deviceLocked != NumberValue(MECHANICAL_ANOMALY)
  {
    ConvertLockStatusCode(deviceLocked)
  }

  /** The 'locked' push handlers as written: they convert the already converted
      HomeKit number once more, and no HomeKit number is a boolean or 5. */
  function LockedPushAsWritten(deviceLocked: LockProperty): (r: int)
    ensures r == UNKNOWN
  {
    ConvertLockStatusCode(NumberValue(GetLockStatus(deviceLocked)))
  }

  /** The 'locked' push handlers publishing the lock's state once converted:
      a push shows what a get returns. */
  function LockedPush(deviceLocked: LockProperty): (r: int)
    ensures r == SECURED <==> deviceLocked == BoolValue(true)
    ensures r == UNSECURED <==> deviceLocked == BoolValue(false)
    ensures r == JAMMED <==> deviceLocked == NumberValue(MECHANICAL_ANOMALY)
    ensures r == UNKNOWN <==> !deviceLocked.BoolValue? && deviceLocked != NumberValue(MECHANICAL_ANOMALY)
    ensures r in {UNSECURED, SECURED, JAMMED, UNKNOWN}
  {
    GetLockStatus(deviceLocked)
  }

  /** A locked or unlocked lock is published as UNKNOWN by the handlers as
      written, and as its real state by the corrected ones. */
  lemma LockedPushDiffers(locked: bool)
    ensures LockedPushAsWritten(BoolValue(locked)) == UNKNOWN
    ensures LockedPush(BoolValue(locked)) == (if locked then SECURED else UNSECURED)
    ensures LockedPushAsWritten(BoolValue(locked)) != LockedPush(BoolValue(locked))
  {
  }
}
