# Station security-system controller of a vendor-to-HomeKit bridge, in Dafny

This project models the part of a Homebridge plugin that connects a security
station from one vendor to HomeKit's security-system service. It covers:

- how the station's settings are resolved: the per-station entry first, then the
  plugin-wide settings, then built-in defaults;
- the table that links the four HomeKit modes (0 stay, 1 away, 2 night,
  3 disarm) to the vendor's guard-mode codes, and the two `find` lookups over it;
- the alarm/guard controller of `StationAccessory`. It holds the flags
  `alarm_triggered` and `alarm_delayed`, two get handlers, three vendor push
  handlers, the HomeKit target-state set with its 5000 ms retry timers, the
  manual siren switch, and the arm-delay timer;
- the lock accessory's status-code translation.

Layout:

- `common.dfy` holds `Option`, JavaScript numbers with NaN and strict
  equality, the first-match search and counting.
- `configs.dfy` holds settings resolution.
- `mode_mapping.dfy` holds the table and the lookups.
- `security_system.dfy` gives the controller's state as a value, with one
  transition function per handler.
- `security_properties.dfy` holds the properties over sequences of handler
  calls.
- `station_accessory.dfy` holds the class `StationAccessory`. Its fields are
  updated in place. Each state-changing method is proved to produce
  `SecuritySystem.<handler>(config, old(Model()), …)`.
- `lock.dfy` holds the lock status map.

How the model represents the source's runtime:

- **Timers** are explicit records `Timer(id, delayMs, action)` in a pending list,
  with a fresh handle per `setTimeout`. Clearing a handle removes its timer.
  As in the source, clearing leaves the stored handle in place. `FireTimer(id)`
  is the event loop running a pending timer. A handle that is not pending does
  nothing.
- **Outputs**: vendor calls (`setGuardMode`, `triggerStationAlarmSound`,
  `resetStationAlarmSound`) are appended to `commands`. `updateValue` calls are
  appended to `published`.
- **Vendor property reads**: the vendor's current-mode reading is passed to a
  handler as its `reading` parameter.
- **Exceptions**: the get handlers catch every failure and return `false`
  (`FalseValue`). `convertEufytoHK` can throw inside a push handler, and the
  handler does not catch it, so the handler stops at that point. For the
  alarm event, this means the siren switch is not refreshed.

Behaviour of the code worth knowing when reading the model:

- A new HomeKit set overwrites the stored guard-mode handle without clearing
  the earlier timer (StationAccessory.ts:353). A confirming current-mode push
  then clears only the latest timer. The earlier set's retry still fires and
  re-sends the earlier mode. `SecurityProperties.StaleRetryResendsEarlierTarget`
  shows this. The bound of two `setGuardMode` calls per set still holds
  (`SecurityProperties.GuardCommandsBound`).
- With duplicate vendor codes, `find` returns the lowest HomeKit mode that
  carries the code (`ModeMapping.EufyToHkOnTable`). The get handlers, the
  push handlers and the manual-trigger gate all inherit that choice. A NaN
  code never matches, because `===` is false for NaN.
- Unknown alarm events publish GENERAL_FAULT on the current-state
  characteristic (StationAccessory.ts:249). The model records this as the
  value `GeneralFault`. In HomeKit's numbering GENERAL_FAULT is 1, the same
  number as AWAY_ARM (lines 10-15), so a controller reads that update as
  "away".

## Model

| member | source | states |
|---|---|---|
| `Common.FindFirst` | src/plugin/accessories/StationAccessory.ts:279 | the index found is the first element satisfying the predicate; none is found only when no element satisfies it |
| `Configs.ConfigValue` | src/plugin/accessories/StationAccessory.ts:143-145 | the custom value wins when defined, else the global value when defined, else the default |
| `Configs.FindStation` | src/plugin/accessories/StationAccessory.ts:156 | the station entry is the first whose serial number equals the accessory's; none is found exactly when no entry has it |
| `Configs.GetStationConfig` | src/plugin/accessories/StationAccessory.ts:154-185 | each mode code, field by field, comes from the station entry, else the plugin-wide setting, else its own default: home 0, away 1, night 2, off 6 (63 with a keypad); trigger modes default to [] and alarm seconds to 30, taken only from the station entry |
| `Configs.ConfigAtConstruction` | src/plugin/accessories/StationAccessory.ts:26-49 | as written, the settings are resolved while `hasKeyPad` still holds its initial false, so when no "off" code is configured at either level the off code is 6; every other field is what the intended resolution gives |
| `Configs.KeypadOffDefaultIgnored` | src/plugin/accessories/StationAccessory.ts:165-171 | with a keypad and no "off" code at either level, the constructor's settings give off = 6 where the intended resolution gives 63 |
| `ModeMapping.ModeTable` | src/plugin/accessories/StationAccessory.ts:258-263 | four entries; entry i has HomeKit mode i and the configured code for that mode (home, away, night, off) |
| `ModeMapping.ConvertHKtoEufy` | src/plugin/accessories/StationAccessory.ts:278-284 | succeeds exactly when some entry has the HomeKit mode, with the code of the first such entry; otherwise the "no matching Eufy mode" error |
| `ModeMapping.ConvertEufytoHK` | src/plugin/accessories/StationAccessory.ts:295-301 | succeeds exactly when some entry's code is strictly equal to the argument, with the mode of the first such entry; otherwise the "no matching HomeKit mode" error |
| `ModeMapping.HkToEufyOnTable` | src/plugin/accessories/StationAccessory.ts:258-284 | on the station's table, HomeKit-to-vendor succeeds exactly for modes 0..3 and yields the configured code |
| `ModeMapping.EufyToHkOnTable` | src/plugin/accessories/StationAccessory.ts:258-301 | on the station's table, vendor-to-HomeKit succeeds exactly for a configured code and yields the lowest mode configured with it |
| `ModeMapping.VendorRoundTrip` | src/plugin/accessories/StationAccessory.ts:278-301 | a vendor code that maps to a HomeKit mode is that mode's code again |
| `ModeMapping.PlatformRoundTrip` | src/plugin/accessories/StationAccessory.ts:278-301 | every mode 0..3 maps to a code and back to itself if and only if the four codes are numbers and pairwise distinct |
| `SecuritySystem.Cancel` | src/plugin/accessories/StationAccessory.ts:203-206 | clearing a handle removes exactly the pending timers with that handle and keeps every other |
| `SecuritySystem.CancelStored` | src/plugin/accessories/StationAccessory.ts:421-423 | clearing a stored handle, if any, removes exactly its timers; with none stored nothing changes |
| `SecuritySystem.CurrentHkMode` | src/plugin/accessories/StationAccessory.ts:319-324 | a current-mode reading yields a HomeKit mode exactly when it is not -1 and is a configured code; that mode carries the code and is the lowest mode that does |
| `SecuritySystem.TargetStateSet` | src/plugin/accessories/StationAccessory.ts:334-376 | the alarm flag is cleared in every case; for modes 0..3 with a numeric code, exactly one setGuardMode of that code is sent, one 5000 ms retry timer is added and its handle stored, earlier timers are kept, and the switch is reset; otherwise nothing else changes |
| `SecuritySystem.OnCurrentMode` | src/plugin/accessories/StationAccessory.ts:198-210 | the pending timers are exactly the earlier ones minus those with the stored guard-mode handle; the mapped mode is published as current state, or nothing when the code is unmapped; nothing else changes |
| `SecuritySystem.OnGuardMode` | src/plugin/accessories/StationAccessory.ts:188-196 | a configured code publishes, as target state, the lowest mode carrying it; an unconfigured one publishes nothing; nothing else changes |
| `SecuritySystem.OnAlarmEvent` | src/plugin/accessories/StationAccessory.ts:212-254 | codes 2,3,4,6,7,8,9 set the flag and publish ALARM_TRIGGERED; codes 0,15,16,17 clear it and restore the mapped current mode except after code 0 or a -1 reading; other codes keep the flag and publish GENERAL_FAULT; the last update is the switch showing the flag unless the restore throws |
| `SecuritySystem.SwitchStateSet` | src/plugin/accessories/StationAccessory.ts:382-415 | switching on sends the alarm sound for the configured seconds if and only if the current mode is a trigger mode and no arm delay is running; a refused trigger adds a 1000 ms reset timer; a -1 or unmapped reading changes nothing; switching off always sends the reset |
| `SecuritySystem.OnAlarmDelayed` | src/plugin/accessories/StationAccessory.ts:417-429 | the delay flag is set, the stored delay timer is cleared, and a `(armDelay + 1) * 1000` ms timer is added with its handle stored |
| `SecuritySystem.OnAlarmArmed` | src/plugin/accessories/StationAccessory.ts:431-438 | the delay flag is cleared; the pending timers are exactly the earlier ones minus those with the stored delay handle; nothing else changes |
| `SecuritySystem.RunAction` | src/plugin/accessories/StationAccessory.ts:353-369 | the first guard timer re-sends its mode and stores a second 5000 ms timer, the second only logs, the delay timer clears the flag, the switch-reset timer publishes the switch off |
| `SecuritySystem.FireTimer` | src/plugin/accessories/StationAccessory.ts:353-369 | a handle that is not pending does nothing; otherwise the first pending timer with that handle is removed and its callback runs (`RunAction`); firing never changes the alarm flag and sends at most the one setGuardMode of a pending first-stage timer with that handle |
| `SecurityProperties.RetryBound` | src/plugin/accessories/StationAccessory.ts:350-369 | over any sequence of handler calls and timer firings, setGuardMode calls plus live first-stage timers grow by at most two per HomeKit set |
| `SecurityProperties.GuardCommandsBound` | src/plugin/accessories/StationAccessory.ts:350-369 | from a new accessory, there are at most twice as many setGuardMode calls as HomeKit sets |
| `SecurityProperties.RunPreservesInv` | src/plugin/accessories/StationAccessory.ts:417-438 | timer handles stay fresh, and the only arm-delay timer that can be pending is the one whose handle is stored |
| `SecurityProperties.RetryTimerFires` | src/plugin/accessories/StationAccessory.ts:353-369 | a first-stage guard timer, fired, sends its mode once more, is replaced by a 5000 ms second-stage timer whose handle is stored, and changes nothing else |
| `SecurityProperties.FirstTimerFires` | src/plugin/accessories/StationAccessory.ts:334-369 | right after a set, firing that set's timer leaves two setGuardMode calls of the same code and the second-stage timer pending |
| `SecurityProperties.RetryFiresOnce` | src/plugin/accessories/StationAccessory.ts:353-369 | unconfirmed, the first timer re-sends the same mode once and stores the second; the second sends nothing; afterwards neither can fire |
| `SecurityProperties.ConfirmCancelsRetry` | src/plugin/accessories/StationAccessory.ts:198-206 | a current-mode push after a set removes that set's retry timer, so firing it does nothing and only the one command was sent |
| `SecurityProperties.ArmedCancelsDelay` | src/plugin/accessories/StationAccessory.ts:431-438 | after an armed event the delay flag is false and no arm-delay timer is pending, so no stale clear can fire |
| `SecurityProperties.DelaySupersedes` | src/plugin/accessories/StationAccessory.ts:417-429 | after a delay event exactly one arm-delay timer is pending, the new one, and firing it clears the flag |
| `SecurityProperties.AwayArmScenario` | src/plugin/accessories/StationAccessory.ts:334-369 | default settings: setting away sends code 1; a current-mode push of 1 publishes away and the retry timer never fires |
| `SecurityProperties.StaleRetryResendsEarlierTarget` | src/plugin/accessories/StationAccessory.ts:353-368 | set away, then set stay, then a push confirming stay: the away set's timer still fires and re-sends code 1 |
| `Station.StationAccessory.constructor` | src/plugin/accessories/StationAccessory.ts:38-54 | the settings are resolved with the attached keypad, the mapping table is built from them, and both flags start false with no timers |
| `Station.StationAccessory.TargetStateGet` | src/plugin/accessories/StationAccessory.ts:317-329 | returns a HomeKit mode exactly when the reading is not -1 and is configured, that mode being the lowest carrying the reading; otherwise false, never an error |
| `Station.StationAccessory.CurrentStateGet` | src/plugin/accessories/StationAccessory.ts:307-312 | ALARM_TRIGGERED exactly while the alarm flag is set, otherwise the target-state get's value; never a fault |
| `Station.StationAccessory.SwitchStateGet` | src/plugin/accessories/StationAccessory.ts:378-380 | the siren switch reads as the alarm flag |
| `Station.StationAccessory.TargetStateSet` | src/plugin/accessories/StationAccessory.ts:334-376 | the fields change as `SecuritySystem.TargetStateSet` prescribes |
| `Station.StationAccessory.OnCurrentMode` | src/plugin/accessories/StationAccessory.ts:198-210 | the fields change as `SecuritySystem.OnCurrentMode` prescribes |
| `Station.StationAccessory.OnGuardMode` | src/plugin/accessories/StationAccessory.ts:188-196 | the fields change as `SecuritySystem.OnGuardMode` prescribes |
| `Station.StationAccessory.OnAlarmEvent` | src/plugin/accessories/StationAccessory.ts:212-254 | the fields change as `SecuritySystem.OnAlarmEvent` prescribes |
| `Station.StationAccessory.SwitchStateSet` | src/plugin/accessories/StationAccessory.ts:382-415 | the fields change as `SecuritySystem.SwitchStateSet` prescribes |
| `Station.StationAccessory.OnAlarmDelayed` | src/plugin/accessories/StationAccessory.ts:417-429 | the fields change as `SecuritySystem.OnAlarmDelayed` prescribes |
| `Station.StationAccessory.OnAlarmArmed` | src/plugin/accessories/StationAccessory.ts:431-438 | the fields change as `SecuritySystem.OnAlarmArmed` prescribes |
| `Station.StationAccessory.FireTimer` | src/plugin/accessories/StationAccessory.ts:353-369 | the fields change as `SecuritySystem.FireTimer` prescribes |
| `Lock.ConvertLockStatusCode` | src/plugin/accessories/LockAccessory.ts:64-92 | true gives SECURED, false gives UNSECURED, the number 5 gives JAMMED, and everything else gives UNKNOWN, each in both directions; this includes 3 and 4 |
| `Lock.GetLockStatus` | src/plugin/accessories/LockAccessory.ts:58-61 | the DeviceLocked property reads SECURED exactly when it is true, UNSECURED exactly when it is false, JAMMED exactly when it is 5, and UNKNOWN otherwise |
| `Lock.LockedPushAsWritten` | src/plugin/accessories/LockAccessory.ts:32-34 | as written, the 'locked' handlers publish UNKNOWN whatever the property holds |
| `Lock.LockedPush` | src/plugin/accessories/LockAccessory.ts:44-46 | a push publishes SECURED, UNSECURED or JAMMED exactly when the property is true, false or 5, and UNKNOWN exactly for every other value; the same state a get returns |
| `Lock.LockedPushDiffers` | src/plugin/accessories/LockAccessory.ts:30-46 | for a locked or unlocked lock, the published state as written differs from the corrected one |

## Findings

| source | as written | input that shows it | evidently intended | confidence | as-written member | corrected member |
|---|---|---|---|---|---|---|
| src/plugin/accessories/StationAccessory.ts:26-49 | The field initializer `hasKeyPad = false` runs before the constructor body, and `getStationConfig` runs before `hasKeyPad` is assigned. It therefore always sees false. | A station with a keypad attached and no `hkOff` configured anywhere resolves its off code to 6. | The keypad off code 63, as the comment at lines 168-171 says. | high; not executed | `Configs.ConfigAtConstruction` | `Station.StationAccessory.constructor` |
| src/plugin/accessories/LockAccessory.ts:32-46 | The 'locked' handlers pass `getLockStatus()`, which is already a HomeKit state number, through `convertLockStatusCode` again. | DeviceLocked = true publishes UNKNOWN (3) instead of SECURED (1). | Publish `getLockStatus()` itself. | medium, because it rests on HomeKit numbering LockCurrentState 0..3, which is not in the repository; not executed | `Lock.LockedPushAsWritten` | `Lock.LockedPush` |

## Left out

- Characteristic registration, `setProps` valid values, `getService`, `pruneUnusedServices` and the debug dump of security settings in the constructors are not modelled. They are host-platform wiring and logging. `updateValue` calls are recorded in `published`.
- Logging is not modelled. That includes `getGuardModeName`, which only builds a display string.
- Vendor calls are recorded as `commands`. Their promises are only logged in the source, so their outcomes are not modelled.
- `getPropertyValue` and `setPropertyValue` (StationAccessory.ts:128-134) are not modelled. The value read becomes each handler's `reading` parameter.
- Real time is not modelled. Timers keep their delay, but any pending timer may fire next, so deadline order is not captured. There is no concurrency, because all handlers run on one event loop.
- Only integers and NaN are modelled as numbers. Fractional codes, `null` settings, and non-numeric HomeKit values passed to the set handler (`value as number`) are not.
- The HomeKit numbers for ALARM_TRIGGERED (4) and GENERAL_FAULT (1) are not modelled. The security-system values are symbolic (`CharValue`). The model therefore does not show that a published GENERAL_FAULT coincides with AWAY_ARM (1); the model's description above notes this.
- `handleLockTargetStateSet` is not modelled. It is asynchronous station lookup and network I/O.
- `onSmartLockPropertyChange` only forwards `convertLockStatusCode` to a characteristic, so it is not modelled. The lock constructor's wiring is not modelled either.
- src/plugin/interfaces.ts is not part of this model. It declares types only.
