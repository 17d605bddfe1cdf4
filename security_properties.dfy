/** Properties of the station controller over sequences of handler calls:
    the bound on guard-mode commands, cancellation of the retry by a
    confirming push, the arm-delay timer discipline, and worked scenarios. */
module SecurityProperties {
  import opened Common
  import opened Configs
  import opened ModeMapping
  import opened SecuritySystem

  /** One call into the controller: a HomeKit set, a vendor push, or a timer firing. */
  datatype Event =
    | TargetSet(hk: int)
    | CurrentModePush(mode: JsNumber)
    | GuardModePush(mode: JsNumber)
    | AlarmEventPush(code: int, reading: JsNumber)
    | SwitchSet(on: bool, reading: JsNumber)
    | AlarmDelayed(armDelay: int)
    | AlarmArmed
    | TimerFires(id: nat)

  predicate IsTargetSet(e: Event)
  {
    e.TargetSet?
  }

  function Step(c: StationConfig, s: State, e: Event): State
  {
    match e
    case TargetSet(hk) => TargetStateSet(c, s, hk)
    case CurrentModePush(mode) => OnCurrentMode(c, s, mode)
    case GuardModePush(mode) => OnGuardMode(c, s, mode)
    case AlarmEventPush(code, reading) => OnAlarmEvent(c, s, code, reading)
    case SwitchSet(on, reading) => SwitchStateSet(c, s, on, reading)
    case AlarmDelayed(armDelay) => OnAlarmDelayed(c, s, armDelay)
    case AlarmArmed => OnAlarmArmed(c, s)
    case TimerFires(id) => FireTimer(c, s, id)
  }

  function Run(c: StationConfig, s: State, events: seq<Event>): State
    decreases |events|
  {
    if |events| == 0 then s else Run(c, Step(c, s, events[0]), events[1..])
  }

  /** Guard-mode commands sent so far plus first-stage timers still able to send one. */
  function Weight(s: State): nat
  {
    Count(s.commands, IsSetGuardMode) + Count(s.pending, IsGuardRetry)
  }

  lemma {:induction false} CancelKeepsNoMoreRetries(ts: seq<Timer>, id: nat)
    ensures Count(Cancel(ts, id), IsGuardRetry) <= Count(ts, IsGuardRetry)
  {
    if |ts| > 0 {
      var head := if ts[0].id == id then [] else [ts[0]];
      CancelKeepsNoMoreRetries(ts[1..], id);
      CountAppend(head, Cancel(ts[1..], id), IsGuardRetry);
    }
  }

  lemma CancelStoredKeepsNoMoreRetries(ts: seq<Timer>, stored: Option<nat>)
    ensures Count(CancelStored(ts, stored), IsGuardRetry) <= Count(ts, IsGuardRetry)
  {
    if stored.Some? {
      CancelKeepsNoMoreRetries(ts, stored.value);
    }
  }

  lemma RemoveAtCount(ts: seq<Timer>, i: nat)
    requires i < |ts|
    ensures Count(RemoveAt(ts, i), IsGuardRetry) + (if IsGuardRetry(ts[i]) then 1 else 0) == Count(ts, IsGuardRetry)
  {
    var front, x, back := ts[..i], ts[i], ts[i + 1..];
    var one := if IsGuardRetry(x) then 1 else 0;
    calc {
      Count(ts, IsGuardRetry);
    == { assert ts == front + ([x] + back); }
      Count(front + ([x] + back), IsGuardRetry);
    == { CountAppend(front, [x] + back, IsGuardRetry); CountCons(x, back, IsGuardRetry); }
      Count(front, IsGuardRetry) + one + Count(back, IsGuardRetry);
    == { CountAppend(front, back, IsGuardRetry); assert RemoveAt(ts, i) == front + back; }
      Count(RemoveAt(ts, i), IsGuardRetry) + one;
    }
  }

  lemma TargetSetWeight(c: StationConfig, s: State, hk: int)
    ensures Weight(TargetStateSet(c, s, hk)) <= Weight(s) + 2
  {
    if Sendable(c, hk) {
      var mode := CodeFor(c, hk).n;
      CountAppend(s.commands, [SetGuardMode(mode)], IsSetGuardMode);
      CountAppend(s.pending, [Timer(s.nextId, GUARD_MODE_CHANGE_DELAY_MS, GuardRetry(mode))], IsGuardRetry);
    }
  }

  lemma SwitchSetWeight(c: StationConfig, s: State, on: bool, reading: JsNumber)
    ensures Weight(SwitchStateSet(c, s, on, reading)) <= Weight(s)
  {
    var r := SwitchStateSet(c, s, on, reading);
    if !on {
      assert r.pending == s.pending;
      CountAppend(s.commands, [ResetAlarmSound], IsSetGuardMode);
    } else if TriggerAllowed(c, s, reading) {
      assert r.pending == s.pending;
      CountAppend(s.commands, [TriggerAlarmSound(c.manualAlarmSeconds)], IsSetGuardMode);
    } else if CurrentHkMode(c, reading).Some? {
      assert r.commands == s.commands;
      CountAppend(s.pending, [Timer(s.nextId, SWITCH_RESET_DELAY_MS, SwitchReset)], IsGuardRetry);
    }
  }

  lemma DelayedWeight(c: StationConfig, s: State, armDelay: int)
    ensures Weight(OnAlarmDelayed(c, s, armDelay)) <= Weight(s)
  {
    var kept := CancelStored(s.pending, s.delayTimeout);
    CancelStoredKeepsNoMoreRetries(s.pending, s.delayTimeout);
    CountAppend(kept, [Timer(s.nextId, (armDelay + 1) * 1000, DelayExpired)], IsGuardRetry);
  }

  /** A fired first-stage timer trades itself for one command; no other timer sends one. */
  lemma FireWeight(c: StationConfig, s: State, id: nat)
    ensures Weight(FireTimer(c, s, id)) <= Weight(s)
  {
    match FindFirst(s.pending, t => HasId(id, t))
    case None =>
    case Some(i) =>
      var rest := RemoveAt(s.pending, i);
      RemoveAtCount(s.pending, i);
      var t := s.pending[i];
      if t.action.GuardRetry? {
        CountAppend(s.commands, [SetGuardMode(t.action.mode)], IsSetGuardMode);
        CountAppend(rest, [Timer(s.nextId, GUARD_MODE_CHANGE_DELAY_MS, GuardTimedOut(t.action.mode))], IsGuardRetry);
      }
  }

  /** Only a HomeKit set can raise the weight, and by at most two: one command
      now and one first-stage timer that may send one more. */
  lemma StepWeight(c: StationConfig, s: State, e: Event)
    ensures Weight(Step(c, s, e)) <= Weight(s) + (if e.TargetSet? then 2 else 0)
  {
    match e
    case TargetSet(hk) => TargetSetWeight(c, s, hk);
    case CurrentModePush(mode) => CancelStoredKeepsNoMoreRetries(s.pending, s.guardTimeout);
    case GuardModePush(_) =>
    case AlarmEventPush(_, _) =>
    case SwitchSet(on, reading) => SwitchSetWeight(c, s, on, reading);
    case AlarmDelayed(armDelay) => DelayedWeight(c, s, armDelay);
    case AlarmArmed => CancelStoredKeepsNoMoreRetries(s.pending, s.delayTimeout);
    case TimerFires(id) => FireWeight(c, s, id);
  }

  /** Over any run, guard-mode commands plus live first-stage timers grow by at
      most two per HomeKit set. */
  lemma {:induction false} RetryBound(c: StationConfig, s: State, events: seq<Event>)
    ensures Weight(Run(c, s, events)) <= Weight(s) + 2 * Count(events, IsTargetSet)
    decreases |events|
  {
    if |events| > 0 {
      StepWeight(c, s, events[0]);
      RetryBound(c, Step(c, s, events[0]), events[1..]);
    }
  }

  /** From a fresh accessory, every HomeKit set leads to at most two
      `setGuardMode` calls: the command and its one retry. */
  lemma GuardCommandsBound(c: StationConfig, events: seq<Event>)
    ensures Count(Run(c, Init, events).commands, IsSetGuardMode) <= 2 * Count(events, IsTargetSet)
  {
    RetryBound(c, Init, events);
  }

  /** Timer handles are fresh, and the only arm-delay timer that can be
      pending is the one whose handle is stored. */
  ghost predicate Inv(s: State)
  {
    && (forall t :: t in s.pending ==> t.id < s.nextId)
    && (forall t :: t in s.pending && t.action.DelayExpired? ==> s.delayTimeout == Some(t.id))
  }

  lemma StepPreservesInv(c: StationConfig, s: State, e: Event)
    requires Inv(s)
    ensures Inv(Step(c, s, e))
  {
    if e.TimerFires? {
      match FindFirst(s.pending, t => HasId(e.id, t))
      case None =>
      case Some(i) =>
    }
  }

  lemma {:induction false} RunPreservesInv(c: StationConfig, s: State, events: seq<Event>)
    requires Inv(s)
    ensures Inv(Run(c, s, events))
    decreases |events|
  {
    if |events| > 0 {
      StepPreservesInv(c, s, events[0]);
      RunPreservesInv(c, Step(c, s, events[0]), events[1..]);
    }
  }

  /** Firing the most recently added timer, when no earlier one shares its handle. */
  lemma FireLast(c: StationConfig, s: State, ts: seq<Timer>, t: Timer)
    requires s.pending == ts + [t]
    requires forall u :: u in ts ==> u.id != t.id
    ensures FireTimer(c, s, t.id) == RunAction(s.(pending := ts), t.action)
  {
    var found := FindFirst(s.pending, u => HasId(t.id, u));
    assert s.pending[|ts|] == t;
    forall j | 0 <= j < |ts| ensures !HasId(t.id, s.pending[j]) {
      assert s.pending[j] == ts[j];
    }
    assert found == Some(|ts|);
    assert RemoveAt(s.pending, |ts|) == ts;
  }

  /** Firing a handle that no pending timer carries changes nothing. */
  lemma FireAbsent(c: StationConfig, s: State, id: nat)
    requires forall t :: t in s.pending ==> t.id < id
    ensures FireTimer(c, s, id) == s
  {
  }

  /** A first-stage timer added last, fired: its mode is sent again and the
      second-stage timer takes the stored handle. */
  lemma RetryTimerFires(c: StationConfig, s: State, ts: seq<Timer>, id: nat, mode: int)
    requires s.pending == ts + [Timer(id, GUARD_MODE_CHANGE_DELAY_MS, GuardRetry(mode))]
    requires forall u :: u in ts ==> u.id != id
    ensures FireTimer(c, s, id) ==
      s.(commands := s.commands + [SetGuardMode(mode)],
         pending := ts + [Timer(s.nextId, GUARD_MODE_CHANGE_DELAY_MS, GuardTimedOut(mode))],
         nextId := s.nextId + 1,
         guardTimeout := Some(s.nextId))
  {
    FireLast(c, s, ts, Timer(id, GUARD_MODE_CHANGE_DELAY_MS, GuardRetry(mode)));
  }

  /** The first guard-mode timer of a set, fired unconfirmed: the mode is sent
      a second time and the second timer takes the stored handle. */
  lemma FirstTimerFires(c: StationConfig, s: State, hk: int)
    requires Inv(s) && Sendable(c, hk)
    ensures var mode := CodeFor(c, hk).n;
      var s1 := TargetStateSet(c, s, hk);
      FireTimer(c, s1, s.nextId) ==
        s1.(commands := s.commands + [SetGuardMode(mode), SetGuardMode(mode)],
            pending := s.pending + [Timer(s.nextId + 1, GUARD_MODE_CHANGE_DELAY_MS, GuardTimedOut(mode))],
            nextId := s.nextId + 2,
            guardTimeout := Some(s.nextId + 1))
  {
    var mode := CodeFor(c, hk).n;
    var s1 := TargetStateSet(c, s, hk);
    assert s1.commands == s.commands + [SetGuardMode(mode)];
    assert s1.nextId == s.nextId + 1;
    RetryTimerFires(c, s1, s.pending, s.nextId, mode);
  }

  /** Without a confirming push, the first timer re-sends the same mode once
      and stores the second timer; that one sends nothing, and neither fires again. */
  lemma RetryFiresOnce(c: StationConfig, s: State, hk: int)
    requires Inv(s) && Sendable(c, hk)
    ensures var mode := CodeFor(c, hk).n;
      var s1 := TargetStateSet(c, s, hk);
      var s2 := FireTimer(c, s1, s.nextId);
      var s3 := FireTimer(c, s2, s.nextId + 1);
      && s2.commands == s.commands + [SetGuardMode(mode), SetGuardMode(mode)]
      && s2.guardTimeout == Some(s.nextId + 1)
      && s3.commands == s2.commands
      && s3.pending == s.pending
      && FireTimer(c, s3, s.nextId) == s3
      && FireTimer(c, s3, s.nextId + 1) == s3
  {
    var mode := CodeFor(c, hk).n;
    FirstTimerFires(c, s, hk);
    var s2 := FireTimer(c, TargetStateSet(c, s, hk), s.nextId);
    FireLast(c, s2, s.pending, Timer(s.nextId + 1, GUARD_MODE_CHANGE_DELAY_MS, GuardTimedOut(mode)));
    var s3 := FireTimer(c, s2, s.nextId + 1);
    assert s3 == s2.(pending := s.pending);
    FireAbsent(c, s3, s.nextId);
    FireAbsent(c, s3, s.nextId + 1);
  }

  /** A current-mode push after a set clears the stored first-stage timer, so
      no retry is ever sent for that set. */
  lemma ConfirmCancelsRetry(c: StationConfig, s: State, hk: int, mode: JsNumber)
    requires Sendable(c, hk)
    ensures var s1 := TargetStateSet(c, s, hk);
      var s2 := OnCurrentMode(c, s1, mode);
      && (forall t :: t in s2.pending ==> t.id != s.nextId)
      && FireTimer(c, s2, s.nextId) == s2
      && s2.commands == s.commands + [SetGuardMode(CodeFor(c, hk).n)]
  {
  }

  /** An armed event leaves no arm-delay timer pending, so no stale clear can fire later. */
  lemma ArmedCancelsDelay(c: StationConfig, s: State)
    requires Inv(s)
    ensures var r := OnAlarmArmed(c, s);
      && !r.alarmDelayed
      && (forall t :: t in r.pending ==> !t.action.DelayExpired?)
      && Inv(r)
  {
  }

  /** A delay event replaces any running delay timer: afterwards exactly one is
      pending, of `(armDelay + 1) * 1000` ms, and firing it clears the flag. */
  lemma DelaySupersedes(c: StationConfig, s: State, armDelay: int)
    requires Inv(s)
    ensures var r := OnAlarmDelayed(c, s, armDelay);
      && r.alarmDelayed
      && Timer(s.nextId, (armDelay + 1) * 1000, DelayExpired) in r.pending
      && (forall t :: t in r.pending && t.action.DelayExpired? ==> t == Timer(s.nextId, (armDelay + 1) * 1000, DelayExpired))
      && !FireTimer(c, r, s.nextId).alarmDelayed
  {
    var r := OnAlarmDelayed(c, s, armDelay);
    var kept := CancelStored(s.pending, s.delayTimeout);
    FireLast(c, r, kept, Timer(s.nextId, (armDelay + 1) * 1000, DelayExpired));
  }

  /** Settings with nothing configured. */
  function DefaultConfig(sn: string): StationConfig
  {
    GetStationConfig(PlatformConfig([], None, None, None, None), sn, false)
  }

  /** Default settings, no keypad: setting AWAY sends vendor code 1; a current
      mode push of 1 publishes AWAY and the retry never fires. */
  lemma AwayArmScenario(sn: string)
    ensures var c := DefaultConfig(sn);
      var s1 := TargetStateSet(c, Init, AWAY_ARM);
      var s2 := OnCurrentMode(c, s1, Num(1));
      && s1.commands == [SetGuardMode(1)]
      && s2.published == [SirenSwitch(false), CurrentState(Mode(AWAY_ARM))]
      && FireTimer(c, s2, 0) == s2
  {
    var c := DefaultConfig(sn);
    EufyToHkOnTable(c, Num(1));
    assert StrictEquals(CodeFor(c, AWAY_ARM), Num(1));
  }

  /** A second set does not clear the first set's timer: when the push confirms
      only the second target, the first timer still re-sends the earlier mode. */
  lemma StaleRetryResendsEarlierTarget(sn: string)
    ensures var c := DefaultConfig(sn);
      var s1 := TargetStateSet(c, Init, AWAY_ARM);
      var s2 := TargetStateSet(c, s1, STAY_ARM);
      var s3 := OnCurrentMode(c, s2, Num(0));
      var s4 := FireTimer(c, s3, 0);
      s4.commands == [SetGuardMode(1), SetGuardMode(0), SetGuardMode(1)]
  {
    var c := DefaultConfig(sn);
    var s2 := TargetStateSet(c, TargetStateSet(c, Init, AWAY_ARM), STAY_ARM);
    var t0 := Timer(0, GUARD_MODE_CHANGE_DELAY_MS, GuardRetry(1));
    var t1 := Timer(1, GUARD_MODE_CHANGE_DELAY_MS, GuardRetry(0));
    assert s2.pending == [t0, t1] && s2.guardTimeout == Some(1);
    assert Cancel([t1], 1) == [] + Cancel([], 1);
    assert Cancel([t0, t1], 1) == [t0] + Cancel([t1], 1);
    var s3 := OnCurrentMode(c, s2, Num(0));
    assert s3.pending == [] + [t0];
    assert s3.commands == [SetGuardMode(1), SetGuardMode(0)];
    RetryTimerFires(c, s3, [], 0, 1);
  }
}
