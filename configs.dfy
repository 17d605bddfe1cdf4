/** Resolution of a station's settings from the per-station entry, the
    plugin-wide settings and the built-in defaults
    (src/plugin/accessories/StationAccessory.ts:136-185). */
module Configs {
  import opened Common

  const DEFAULT_HOME := 0
  const DEFAULT_AWAY := 1
  const DEFAULT_NIGHT := 2
  /** Vendor "off" code used when no keypad is attached to the station. */
  const DEFAULT_OFF := 6
  /** Vendor "off" code used when a keypad is attached to the station. */
  const DEFAULT_OFF_WITH_KEYPAD := 63
  const DEFAULT_MANUAL_ALARM_SECONDS := 30

  /** One entry of the plugin's `stations` list; an absent field is `None`. */
  datatype StationOverride = StationOverride(
    serialNumber: string,
    hkHome: Option<JsNumber>,
    hkAway: Option<JsNumber>,
    hkNight: Option<JsNumber>,
    hkOff: Option<JsNumber>,
    manualTriggerModes: Option<seq<int>>,
    manualAlarmSeconds: Option<int>)

  /** The plugin-wide configuration; a missing `stations` list is the empty list. */
  datatype PlatformConfig = PlatformConfig(
    stations: seq<StationOverride>,
    hkHome: Option<JsNumber>,
    hkAway: Option<JsNumber>,
    hkNight: Option<JsNumber>,
    hkOff: Option<JsNumber>)

  /** The resolved settings of one station. */
  datatype StationConfig = StationConfig(
    hkHome: JsNumber,
    hkAway: JsNumber,
    hkNight: JsNumber,
    hkOff: JsNumber,
    manualTriggerModes: seq<int>,
    manualAlarmSeconds: int)

  /** `getConfigValue`: the custom value if defined, else the global one, else the default. */
  function ConfigValue<T>(custom: Option<T>, global: Option<T>, default: T): (r: T)
    ensures custom.Some? ==> r == custom.value
    ensures custom.None? && global.Some? ==> r == global.value
    ensures custom.None? && global.None? ==> r == default
  {
    if custom.Some? then custom.value
    else if global.Some? then global.value
    else default
  }

  predicate HasSerial(sn: string, o: StationOverride)
  {
    o.serialNumber == sn
  }

  /** The station's own entry: the first one whose serial number equals `sn`. */
  function FindStation(stations: seq<StationOverride>, sn: string): (r: Option<StationOverride>)
    ensures r.Some? ==> r.value in stations && r.value.serialNumber == sn
    ensures r.Some? ==> exists i :: 0 <= i < |stations| && stations[i] == r.value &&
                          forall j :: 0 <= j < i ==> stations[j].serialNumber != sn
    ensures r.None? <==> forall o :: o in stations ==> o.serialNumber != sn
  {
    match FindFirst(stations, o => HasSerial(sn, o))
    case None => None
    case Some(i) => Some(stations[i])
  }

  /** `getStationConfig`; `hasKeyPad` is the value the accessory's `hasKeyPad`
      field holds when the settings are resolved. */
  function GetStationConfig(g: PlatformConfig, sn: string, hasKeyPad: bool): (c: StationConfig)
    ensures var o := FindStation(g.stations, sn);
      && (o.Some? && o.value.hkHome.Some? ==> c.hkHome == o.value.hkHome.value)
      && (o.Some? && o.value.hkAway.Some? ==> c.hkAway == o.value.hkAway.value)
      && (o.Some? && o.value.hkNight.Some? ==> c.hkNight == o.value.hkNight.value)
      && (o.Some? && o.value.hkOff.Some? ==> c.hkOff == o.value.hkOff.value)
      && ((o.None? || o.value.hkHome.None?) && g.hkHome.Some? ==> c.hkHome == g.hkHome.value)
      && ((o.None? || o.value.hkAway.None?) && g.hkAway.Some? ==> c.hkAway == g.hkAway.value)
      && ((o.None? || o.value.hkNight.None?) && g.hkNight.Some? ==> c.hkNight == g.hkNight.value)
      && ((o.None? || o.value.hkOff.None?) && g.hkOff.Some? ==> c.hkOff == g.hkOff.value)
      && (o.Some? && o.value.manualTriggerModes.Some? ==> c.manualTriggerModes == o.value.manualTriggerModes.value)
      && (o.Some? && o.value.manualAlarmSeconds.Some? ==> c.manualAlarmSeconds == o.value.manualAlarmSeconds.value)
      && ((o.None? || o.value.manualTriggerModes.None?) ==> c.manualTriggerModes == [])
      && ((o.None? || o.value.manualAlarmSeconds.None?) ==> c.manualAlarmSeconds == DEFAULT_MANUAL_ALARM_SECONDS)
    ensures var o := FindStation(g.stations, sn);
      && ((o.None? || o.value.hkHome.None?) && g.hkHome.None? ==> c.hkHome == Num(DEFAULT_HOME))
      && ((o.None? || o.value.hkAway.None?) && g.hkAway.None? ==> c.hkAway == Num(DEFAULT_AWAY))
      && ((o.None? || o.value.hkNight.None?) && g.hkNight.None? ==> c.hkNight == Num(DEFAULT_NIGHT))
      && (OffUnconfigured(g, sn) ==> c.hkOff == Num(if hasKeyPad then DEFAULT_OFF_WITH_KEYPAD else DEFAULT_OFF))
  {
    var o := FindStation(g.stations, sn);
    StationConfig(
      ConfigValue(if o.Some? then o.value.hkHome else None, g.hkHome, Num(DEFAULT_HOME)),
      ConfigValue(if o.Some? then o.value.hkAway else None, g.hkAway, Num(DEFAULT_AWAY)),
      ConfigValue(if o.Some? then o.value.hkNight else None, g.hkNight, Num(DEFAULT_NIGHT)),
      ConfigValue(if o.Some? then o.value.hkOff else None, g.hkOff,
                  Num(if hasKeyPad then DEFAULT_OFF_WITH_KEYPAD else DEFAULT_OFF)),
      if o.Some? && o.value.manualTriggerModes.Some? then o.value.manualTriggerModes.value else [],
      if o.Some? && o.value.manualAlarmSeconds.Some? then o.value.manualAlarmSeconds.value
      else DEFAULT_MANUAL_ALARM_SECONDS)
  }

  /** Neither the station's entry nor the plugin-wide settings give an "off" code. */
  predicate OffUnconfigured(g: PlatformConfig, sn: string)
  {
    var o := FindStation(g.stations, sn);
    (o.None? || o.value.hkOff.None?) && g.hkOff.None?
  }

  /** The settings as the constructor obtains them: `getStationConfig` runs
      before `hasKeyPad` is assigned, so it reads the field's initial `false`
      whatever keypad is attached. */
  function ConfigAtConstruction(g: PlatformConfig, sn: string, keypadAttached: bool): (c: StationConfig)
    ensures OffUnconfigured(g, sn) ==> c.hkOff == Num(DEFAULT_OFF)
    ensures !OffUnconfigured(g, sn) ==> c == GetStationConfig(g, sn, keypadAttached)
    ensures c.(hkOff := GetStationConfig(g, sn, keypadAttached).hkOff) == GetStationConfig(g, sn, keypadAttached)
  {
    GetStationConfig(g, sn, false)
  }

  /** With a keypad attached and no configured "off" code, the station is
      resolved to the no-keypad code 6 instead of the keypad code 63. */
  lemma KeypadOffDefaultIgnored(g: PlatformConfig, sn: string)
    requires OffUnconfigured(g, sn)
    ensures ConfigAtConstruction(g, sn, true).hkOff == Num(DEFAULT_OFF)
    ensures GetStationConfig(g, sn, true).hkOff == Num(DEFAULT_OFF_WITH_KEYPAD)
    ensures ConfigAtConstruction(g, sn, true) != GetStationConfig(g, sn, true)
  {
  }
}
