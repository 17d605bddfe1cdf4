/** The alarm/guard state controller of a station as values: its state, one
    transition per handler, and the properties that hold across handlers.
    The class in station_accessory.dfy is proved to follow these transitions
    (src/plugin/accessories/StationAccessory.ts:188-254, 304-438). */
module SecuritySystem {
  import opened Common
  import opened Configs
  import opened ModeMapping

  /** `guardModeChangeTimeout.delay`. */
  const GUARD_MODE_CHANGE_DELAY_MS := 5000
  /** Delay before a refused manual trigger resets the siren switch. */
  const SWITCH_RESET_DELAY_MS := 1000
  /** Alarm event "off by hub", after which the current mode is not restored. */
  const ALARM_OFF_BY_HUB := 0
  /** The vendor's reading for a current mode it cannot report. */
  const INVALID_MODE := Num(-1)

  /** Alarm events triggered by a sensor, the app, a door, a camera or a motion sensor. */
  predicate IsTriggerCode(code: int)
  {
    code in {2, 3, 4, 6, 7, 8, 9}
  }

  /** Alarm events switching the alarm off by hub, keypad, app or base button. */
  predicate IsClearCode(code: int)
  {
    code in {0, 15, 16, 17}
  }

  /** A value given to a security-system characteristic: one of the four
      HomeKit modes, ALARM_TRIGGERED, GENERAL_FAULT, or `false` from a get
      handler that failed. */
  datatype CharValue = Mode(hk: int) | AlarmTriggered | GeneralFault | FalseValue

  /** One `updateValue` call: on the current-state, the target-state or the siren-switch characteristic. */
  datatype Update = CurrentState(value: CharValue) | TargetState(value: CharValue) | SirenSwitch(on: bool)

  /** One call into the vendor station. */
  datatype Command = SetGuardMode(mode: int) | TriggerAlarmSound(seconds: int) | ResetAlarmSound

  /** What a timer does when it fires. */
  datatype TimerAction =
    | GuardRetry(mode: int)      // first guard-mode timer: re-sends the mode, arms the second
    | GuardTimedOut(mode: int)   // second guard-mode timer: only logs
    | DelayExpired               // arm-delay timer: clears `alarm_delayed`
    | SwitchReset                // refused manual trigger: resets the siren switch

  datatype Timer = Timer(id: nat, delayMs: int, action: TimerAction)

  /** The controller's state. `guardTimeout` and `delayTimeout` are the stored
      handles (`guardModeChangeTimeout.timeout`, `alarm_delay_timeout`); like
      the source, clearing a timer leaves its handle stored. `commands` and
      `published` record the calls made so far. */
  datatype State = State(
    alarmTriggered: bool,
    alarmDelayed: bool,
    pending: seq<Timer>,
    nextId: nat,
    guardTimeout: Option<nat>,
    delayTimeout: Option<nat>,
    commands: seq<Command>,
    published: seq<Update>)

  const Init := State(false, false, [], 0, None, None, [], [])

  predicate IsGuardRetry(t: Timer)
  {
    t.action.GuardRetry?
  }

  predicate IsSetGuardMode(cmd: Command)
  {
    cmd.SetGuardMode?
  }

  predicate HasId(id: nat, t: Timer)
  {
    t.id == id
  }

  /** `clearTimeout(id)`: every pending timer with that handle is dropped. */
  function Cancel(ts: seq<Timer>, id: nat): (r: seq<Timer>)
    ensures forall t :: t in r <==> t in ts && t.id != id
  {
    if |ts| == 0 then []
    else (if ts[0].id == id then [] else [ts[0]]) + Cancel(ts[1..], id)
  }

  /** `if (handle) clearTimeout(handle)`. */
  function CancelStored(ts: seq<Timer>, stored: Option<nat>): (r: seq<Timer>)
    ensures stored.None? ==> r == ts
    ensures forall t :: t in r <==> t in ts && (stored.None? || t.id != stored.value)
  {
    if stored.Some? then Cancel(ts, stored.value) else ts
  }

  function RemoveAt(ts: seq<Timer>, i: nat): (r: seq<Timer>)
    requires i < |ts|
    ensures |r| == |ts| - 1
    ensures forall t :: t in r ==> t in ts
  {
    ts[..i] + ts[i + 1..]
  }

  /** The HomeKit mode of a vendor current-mode reading; None when the reading
      is the invalid -1 or no mode is configured with it. */
  function CurrentHkMode(c: StationConfig, reading: JsNumber): (r: Option<int>)
    ensures r.Some? <==> !StrictEquals(reading, INVALID_MODE) && Configured(c, reading)
    ensures r.Some? ==> IsHkMode(r.value) && StrictEquals(CodeFor(c, r.value), reading)
    ensures r.Some? ==> forall h :: STAY_ARM <= h < r.value ==> !StrictEquals(CodeFor(c, h), reading)
  {
    EufyToHkOnTable(c, reading);
    if StrictEquals(reading, INVALID_MODE) then None
    else match ConvertEufytoHK(ModeTable(c), reading)
      case Ok(hk) => Some(hk)
      case Err(_) => None
  }

  /** The target converts to a vendor code that is a number. */
  predicate Sendable(c: StationConfig, hk: int)
  {
    IsHkMode(hk) && CodeFor(c, hk).Num?
  }

  /** `handleSecuritySystemTargetStateSet`. */
  function TargetStateSet(c: StationConfig, s: State, hk: int): (r: State)
    ensures !r.alarmTriggered
    ensures Sendable(c, hk) ==>
      var mode := CodeFor(c, hk).n;
      && r.commands == s.commands + [SetGuardMode(mode)]
      && r.pending == s.pending + [Timer(s.nextId, GUARD_MODE_CHANGE_DELAY_MS, GuardRetry(mode))]
      && r.guardTimeout == Some(s.nextId)
      && r.nextId == s.nextId + 1
      && r.published == s.published + [SirenSwitch(false)]
      && r.alarmDelayed == s.alarmDelayed
      && r.delayTimeout == s.delayTimeout
    ensures !Sendable(c, hk) ==> r == s.(alarmTriggered := false)
  {
    var s1 := s.(alarmTriggered := false);
    HkToEufyOnTable(c, hk);
    match ConvertHKtoEufy(ModeTable(c), hk)
    case Err(_) => s1
    case Ok(mode) =>
      if mode.NaN? then s1
      else s1.(commands := s1.commands + [SetGuardMode(mode.n)],
               pending := s1.pending + [Timer(s1.nextId, GUARD_MODE_CHANGE_DELAY_MS, GuardRetry(mode.n))],
               nextId := s1.nextId + 1,
               guardTimeout := Some(s1.nextId),
               published := s1.published + [SirenSwitch(false)])
  }

  /** `onStationCurrentModePushNotification`. An unmapped mode throws out of
      the handler after the timer is cleared, so nothing is published. */
  function OnCurrentMode(c: StationConfig, s: State, mode: JsNumber): (r: State)
    ensures forall t :: t in r.pending <==> t in s.pending && (s.guardTimeout.None? || t.id != s.guardTimeout.value)
    ensures ConvertEufytoHK(ModeTable(c), mode).Ok? ==>
      r.published == s.published + [CurrentState(Mode(ConvertEufytoHK(ModeTable(c), mode).value))]
    ensures ConvertEufytoHK(ModeTable(c), mode).Err? ==> r.published == s.published
    ensures r.(pending := s.pending, published := s.published) == s
  {
    var s1 := s.(pending := CancelStored(s.pending, s.guardTimeout));
    match ConvertEufytoHK(ModeTable(c), mode)
    case Err(_) => s1
    case Ok(hk) => s1.(published := s1.published + [CurrentState(Mode(hk))])
  }

  /** `onStationGuardModePushNotification`: only the target state is published. */
  function OnGuardMode(c: StationConfig, s: State, mode: JsNumber): (r: State)
    ensures Configured(c, mode) ==>
      exists hk :: IsHkMode(hk) && StrictEquals(CodeFor(c, hk), mode) &&
                   (forall h :: STAY_ARM <= h < hk ==> !StrictEquals(CodeFor(c, h), mode)) &&
                   r.published == s.published + [TargetState(Mode(hk))]
    ensures !Configured(c, mode) ==> r.published == s.published
    ensures r.(published := s.published) == s
  {
    EufyToHkOnTable(c, mode);
    match ConvertEufytoHK(ModeTable(c), mode)
    case Err(_) => s
    case Ok(hk) => s.(published := s.published + [TargetState(Mode(hk))])
  }

  /** `onStationAlarmEventPushNotification`. The siren switch is refreshed
      last, unless converting the restored mode throws first. */
  function OnAlarmEvent(c: StationConfig, s: State, code: int, reading: JsNumber): (r: State)
    ensures r.alarmTriggered == (IsTriggerCode(code) || (!IsClearCode(code) && s.alarmTriggered))
    ensures r.(alarmTriggered := s.alarmTriggered, published := s.published) == s
    ensures IsTriggerCode(code) ==>
      r.published == s.published + [CurrentState(AlarmTriggered), SirenSwitch(true)]
    ensures IsClearCode(code) && (code == ALARM_OFF_BY_HUB || StrictEquals(reading, INVALID_MODE)) ==>
      r.published == s.published + [SirenSwitch(false)]
    ensures IsClearCode(code) && code != ALARM_OFF_BY_HUB && CurrentHkMode(c, reading).Some? ==>
      r.published == s.published + [CurrentState(Mode(CurrentHkMode(c, reading).value)), SirenSwitch(false)]
    ensures (IsClearCode(code) && code != ALARM_OFF_BY_HUB && !StrictEquals(reading, INVALID_MODE) &&
             CurrentHkMode(c, reading).None?) ==> r.published == s.published
    ensures !IsTriggerCode(code) && !IsClearCode(code) ==>
      r.published == s.published + [CurrentState(GeneralFault), SirenSwitch(s.alarmTriggered)]
    ensures |r.published| > |s.published| ==> r.published[|r.published| - 1] == SirenSwitch(r.alarmTriggered)
  {
    var current := if code == ALARM_OFF_BY_HUB then INVALID_MODE else reading;
    if IsTriggerCode(code) then
      s.(alarmTriggered := true,
         published := s.published + [CurrentState(AlarmTriggered), SirenSwitch(true)])
    else if IsClearCode(code) then
      if StrictEquals(current, INVALID_MODE) then
        s.(alarmTriggered := false, published := s.published + [SirenSwitch(false)])
      else match ConvertEufytoHK(ModeTable(c), current)
        case Err(_) => s.(alarmTriggered := false)
        case Ok(hk) =>
          s.(alarmTriggered := false,
             published := s.published + [CurrentState(Mode(hk)), SirenSwitch(false)])
    else
      s.(published := s.published + [CurrentState(GeneralFault), SirenSwitch(s.alarmTriggered)])
  }

  /** A manual trigger is allowed: the current mode is one of the configured
      trigger modes and no arm delay is running. */
  predicate TriggerAllowed(c: StationConfig, s: State, reading: JsNumber)
  {
    var m := CurrentHkMode(c, reading);
    m.Some? && m.value in c.manualTriggerModes && !s.alarmDelayed
  }

  /** `handleManualTriggerSwitchStateSet`. */
  function SwitchStateSet(c: StationConfig, s: State, on: bool, reading: JsNumber): (r: State)
    ensures on && TriggerAllowed(c, s, reading) ==>
      r == s.(commands := s.commands + [TriggerAlarmSound(c.manualAlarmSeconds)])
    ensures on && CurrentHkMode(c, reading).Some? && !TriggerAllowed(c, s, reading) ==>
      r == s.(pending := s.pending + [Timer(s.nextId, SWITCH_RESET_DELAY_MS, SwitchReset)],
              nextId := s.nextId + 1)
    ensures on && CurrentHkMode(c, reading).None? ==> r == s
    ensures !on ==> r == s.(commands := s.commands + [ResetAlarmSound])
    ensures TriggerAlarmSound(c.manualAlarmSeconds) in r.commands[|s.commands|..] <==> on && TriggerAllowed(c, s, reading)
  {
    if on then
      if StrictEquals(reading, INVALID_MODE) then s
      else match ConvertEufytoHK(ModeTable(c), reading)
        case Err(_) => s
        case Ok(hk) =>
          if hk in c.manualTriggerModes && !s.alarmDelayed then
            s.(commands := s.commands + [TriggerAlarmSound(c.manualAlarmSeconds)])
          else
            s.(pending := s.pending + [Timer(s.nextId, SWITCH_RESET_DELAY_MS, SwitchReset)],
               nextId := s.nextId + 1)
    else
      s.(commands := s.commands + [ResetAlarmSound])
  }

  /** `onStationAlarmDelayedEvent`: the flag is set and any stored delay timer
      is replaced by one of `(armDelay + 1) * 1000` ms. */
  function OnAlarmDelayed(c: StationConfig, s: State, armDelay: int): (r: State)
    ensures r.alarmDelayed
    ensures r.delayTimeout == Some(s.nextId) && r.nextId == s.nextId + 1
    ensures r.pending == CancelStored(s.pending, s.delayTimeout) + [Timer(s.nextId, (armDelay + 1) * 1000, DelayExpired)]
    ensures r.(alarmDelayed := s.alarmDelayed, pending := s.pending, nextId := s.nextId, delayTimeout := s.delayTimeout) == s
  {
    var s1 := s.(alarmDelayed := true, pending := CancelStored(s.pending, s.delayTimeout));
    s1.(pending := s1.pending + [Timer(s1.nextId, (armDelay + 1) * 1000, DelayExpired)],
        nextId := s1.nextId + 1,
        delayTimeout := Some(s1.nextId))
  }

  /** `onStationAlarmArmedEvent`. */
  function OnAlarmArmed(c: StationConfig, s: State): (r: State)
    ensures !r.alarmDelayed
    ensures forall t :: t in r.pending <==> t in s.pending && (s.delayTimeout.None? || t.id != s.delayTimeout.value)
    ensures r.(alarmDelayed := s.alarmDelayed, pending := s.pending) == s
  {
    s.(alarmDelayed := false, pending := CancelStored(s.pending, s.delayTimeout))
  }

  /** What a fired timer does, once it has left the pending list. */
  function RunAction(s: State, action: TimerAction): (r: State)
    ensures action.GuardRetry? ==>
      && r.commands == s.commands + [SetGuardMode(action.mode)]
      && r.pending == s.pending + [Timer(s.nextId, GUARD_MODE_CHANGE_DELAY_MS, GuardTimedOut(action.mode))]
      && r.guardTimeout == Some(s.nextId)
      && r == s.(commands := r.commands, pending := r.pending, nextId := s.nextId + 1, guardTimeout := r.guardTimeout)
    ensures action.GuardTimedOut? ==> r == s
    ensures action.DelayExpired? ==> r == s.(alarmDelayed := false)
    ensures action.SwitchReset? ==> r == s.(published := s.published + [SirenSwitch(false)])
  {
    match action
    case GuardRetry(mode) =>
      s.(commands := s.commands + [SetGuardMode(mode)],
         pending := s.pending + [Timer(s.nextId, GUARD_MODE_CHANGE_DELAY_MS, GuardTimedOut(mode))],
         nextId := s.nextId + 1,
         guardTimeout := Some(s.nextId))
    case GuardTimedOut(_) => s
    case DelayExpired => s.(alarmDelayed := false)
    case SwitchReset => s.(published := s.published + [SirenSwitch(false)])
  }

  /** `ts[i]` is the first pending timer with handle `id`. */
  predicate FirstWithId(ts: seq<Timer>, id: nat, i: int)
  {
    0 <= i < |ts| && ts[i].id == id && forall j :: 0 <= j < i ==> ts[j].id != id
  }

  /** The event loop runs the pending timer with handle `id`; a handle that is
      not pending (never set, cleared or already fired) does nothing. */
  function FireTimer(c: StationConfig, s: State, id: nat): (r: State)
    ensures (forall t :: t in s.pending ==> t.id != id) ==> r == s
    ensures forall i {:trigger FirstWithId(s.pending, id, i)} :: FirstWithId(s.pending, id, i) ==>
                        r == RunAction(s.(pending := RemoveAt(s.pending, i)), s.pending[i].action)
    ensures r.alarmTriggered == s.alarmTriggered
    ensures r.commands == s.commands ||
      exists t :: t in s.pending && t.id == id && t.action.GuardRetry? &&
                  r.commands == s.commands + [SetGuardMode(t.action.mode)]
  {
    match FindFirst(s.pending, t => HasId(id, t))
    case None => s
    case Some(i) => RunAction(s.(pending := RemoveAt(s.pending, i)), s.pending[i].action)
  }
}
