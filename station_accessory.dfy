/** The station accessory: its fields, its get handlers, and the set, push,
    delay and timer handlers that update the fields in place
    (src/plugin/accessories/StationAccessory.ts:22-454). Every handler that
    changes state is proved to follow its transition in SecuritySystem. */
module Station {
  import opened Common
  import opened Configs
  import opened ModeMapping
  import opened SecuritySystem

  class StationAccessory {
    const hasKeyPad: bool
    const stationConfig: StationConfig
    /** The mapping table, built once from the settings. */
    const modes: seq<ModeEntry>

    var alarmTriggered: bool
    var alarmDelayed: bool
    /** Timers started and not yet fired or cleared, with the next free handle. */
    var pending: seq<Timer>
    var nextTimerId: nat
    /** `guardModeChangeTimeout.timeout`. */
    var guardModeChangeTimeout: Option<nat>
    /** `alarm_delay_timeout`. */
    var alarmDelayTimeout: Option<nat>
    /** Calls made into the vendor station, oldest first. */
    var commands: seq<Command>
    /** `updateValue` calls made on the accessory's characteristics, oldest first. */
    var published: seq<Update>

    ghost predicate Valid()
    {
      modes == ModeTable(stationConfig)
    }

    /** The accessory's mutable state as a value. */
    function Model(): State
      reads this
    {
      State(alarmTriggered, alarmDelayed, pending, nextTimerId,
            guardModeChangeTimeout, alarmDelayTimeout, commands, published)
    }

    /** The constructor resolves the settings with the keypad flag it has just
        read from the station, then builds the mapping table. */
    constructor (g: PlatformConfig, sn: string, keypadAttached: bool)
      ensures Valid()
      ensures hasKeyPad == keypadAttached
      ensures stationConfig == GetStationConfig(g, sn, keypadAttached)
      ensures Model() == Init
    {
      hasKeyPad := keypadAttached;
      stationConfig := GetStationConfig(g, sn, keypadAttached);
      modes := ModeTable(GetStationConfig(g, sn, keypadAttached));
      alarmTriggered := false;
      alarmDelayed := false;
      pending := [];
      nextTimerId := 0;
      guardModeChangeTimeout := None;
      alarmDelayTimeout := None;
      commands := [];
      published := [];
    }

    /** `handleSecuritySystemTargetStateGet`: the HomeKit mode of the vendor's
        current-mode reading, or `false` when the reading is -1 or unmapped. */
    function TargetStateGet(reading: JsNumber): (r: CharValue)
      ensures r.Mode? || r == FalseValue
      ensures r.Mode? <==> !StrictEquals(reading, INVALID_MODE) && Configured(stationConfig, reading)
      ensures r.Mode? ==> IsHkMode(r.hk) && StrictEquals(CodeFor(stationConfig, r.hk), reading)
      ensures r.Mode? ==> forall h :: STAY_ARM <= h < r.hk ==> !StrictEquals(CodeFor(stationConfig, h), reading)
    {
      match CurrentHkMode(stationConfig, reading)
      case Some(hk) => Mode(hk)
      case None => FalseValue
    }

    /** `handleSecuritySystemCurrentStateGet`: ALARM_TRIGGERED exactly while the
        alarm flag is set; otherwise what the target-state get returns. */
    function CurrentStateGet(reading: JsNumber): (r: CharValue)
      reads this
      ensures r == AlarmTriggered <==> alarmTriggered
      ensures !alarmTriggered ==> r == TargetStateGet(reading)
      ensures r != GeneralFault
    {
      if alarmTriggered then AlarmTriggered else TargetStateGet(reading)
    }

    /** `handleManualTriggerSwitchStateGet`: the siren switch shows the alarm flag. */
    function SwitchStateGet(): (on: bool)
      reads this
      ensures on == alarmTriggered
    {
      alarmTriggered
    }

    /** `handleSecuritySystemTargetStateSet`. */
    method TargetStateSet(hk: int)
      requires Valid()
      modifies this
      ensures Model() == SecuritySystem.TargetStateSet(stationConfig, old(Model()), hk)
    {
      alarmTriggered := false;
      var mode := ConvertHKtoEufy(modes, hk);
      if mode.Err? || mode.value.NaN? {
        return;  // the error is caught and logged
      }
      commands := commands + [SetGuardMode(mode.value.n)];
      pending := pending + [Timer(nextTimerId, GUARD_MODE_CHANGE_DELAY_MS, GuardRetry(mode.value.n))];
      guardModeChangeTimeout := Some(nextTimerId);
      nextTimerId := nextTimerId + 1;
      published := published + [SirenSwitch(false)];
    }

    /** `onStationCurrentModePushNotification`. */
    method OnCurrentMode(mode: JsNumber)
      requires Valid()
      modifies this
      ensures Model() == SecuritySystem.OnCurrentMode(stationConfig, old(Model()), mode)
    {
      if guardModeChangeTimeout.Some? {
        pending := Cancel(pending, guardModeChangeTimeout.value);
      }
      var hk := ConvertEufytoHK(modes, mode);
      if hk.Err? {
        return;  // the error escapes the handler
      }
      published := published + [CurrentState(Mode(hk.value))];
    }

    /** `onStationGuardModePushNotification`. */
    method OnGuardMode(mode: JsNumber)
      requires Valid()
      modifies this
      ensures Model() == SecuritySystem.OnGuardMode(stationConfig, old(Model()), mode)
    {
      var hk := ConvertEufytoHK(modes, mode);
      if hk.Err? {
        return;  // the error escapes the handler
      }
      published := published + [TargetState(Mode(hk.value))];
    }

    /** `onStationAlarmEventPushNotification`; `reading` is the vendor's current mode. */
    method OnAlarmEvent(code: int, reading: JsNumber)
      requires Valid()
      modifies this
      ensures Model() == SecuritySystem.OnAlarmEvent(stationConfig, old(Model()), code, reading)
    {
      var currentValue := reading;
      if code == ALARM_OFF_BY_HUB {
        currentValue := INVALID_MODE;
      }
      if IsTriggerCode(code) {
        alarmTriggered := true;
        published := published + [CurrentState(AlarmTriggered)];
      } else if IsClearCode(code) {
        alarmTriggered := false;
        if !StrictEquals(currentValue, INVALID_MODE) {
          var hk := ConvertEufytoHK(modes, currentValue);
          if hk.Err? {
            return;  // the error escapes before the switch is refreshed
          }
          published := published + [CurrentState(Mode(hk.value))];
        }
      } else {
        published := published + [CurrentState(GeneralFault)];
      }
      published := published + [SirenSwitch(alarmTriggered)];
    }

    /** `handleManualTriggerSwitchStateSet`; `reading` is the vendor's current mode. */
    method SwitchStateSet(on: bool, reading: JsNumber)
      requires Valid()
      modifies this
      ensures Model() == SecuritySystem.SwitchStateSet(stationConfig, old(Model()), on, reading)
    {
      if on {
        if StrictEquals(reading, INVALID_MODE) {
          return;  // caught and logged
        }
        var hk := ConvertEufytoHK(modes, reading);
        if hk.Err? {
          return;  // caught and logged
        }
        if hk.value in stationConfig.manualTriggerModes && !alarmDelayed {
          commands := commands + [TriggerAlarmSound(stationConfig.manualAlarmSeconds)];
        } else {
          pending := pending + [Timer(nextTimerId, SWITCH_RESET_DELAY_MS, SwitchReset)];
          nextTimerId := nextTimerId + 1;
        }
      } else {
        commands := commands + [ResetAlarmSound];
      }
    }

    /** `onStationAlarmDelayedEvent`. */
    method OnAlarmDelayed(armDelay: int)
      requires Valid()
      modifies this
      ensures Model() == SecuritySystem.OnAlarmDelayed(stationConfig, old(Model()), armDelay)
    {
      alarmDelayed := true;
      if alarmDelayTimeout.Some? {
        pending := Cancel(pending, alarmDelayTimeout.value);
      }
      pending := pending + [Timer(nextTimerId, (armDelay + 1) * 1000, DelayExpired)];
      alarmDelayTimeout := Some(nextTimerId);
      nextTimerId := nextTimerId + 1;
    }

    /** `onStationAlarmArmedEvent`. */
    method OnAlarmArmed()
      requires Valid()
      modifies this
      ensures Model() == SecuritySystem.OnAlarmArmed(stationConfig, old(Model()))
    {
      alarmDelayed := false;
      if alarmDelayTimeout.Some? {
        pending := Cancel(pending, alarmDelayTimeout.value);
      }
    }

    /** The event loop runs the pending timer with handle `id`. */
    method FireTimer(id: nat)
      requires Valid()
      modifies this
      ensures Model() == SecuritySystem.FireTimer(stationConfig, old(Model()), id)
    {
      var found := FindFirst(pending, t => HasId(id, t));
      if found.None? {
        return;
      }
      var t := pending[found.value];
      pending := RemoveAt(pending, found.value);
      match t.action
      case GuardRetry(mode) =>
        commands := commands + [SetGuardMode(mode)];
        pending := pending + [Timer(nextTimerId, GUARD_MODE_CHANGE_DELAY_MS, GuardTimedOut(mode))];
        guardModeChangeTimeout := Some(nextTimerId);
        nextTimerId := nextTimerId + 1;
      case GuardTimedOut(_) =>
      case DelayExpired =>
        alarmDelayed := false;
      case SwitchReset =>
        published := published + [SirenSwitch(false)];
    }
  }
}
