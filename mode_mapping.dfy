/** The table linking the four HomeKit security modes to vendor guard-mode
    codes, and the two lookups over it
    (src/plugin/accessories/StationAccessory.ts:10-15, 256-301). */
module ModeMapping {
  import opened Common
  import opened Configs

  /** `HKGuardMode`. */
  const STAY_ARM := 0
  const AWAY_ARM := 1
  const NIGHT_ARM := 2
  const DISARM := 3

  predicate IsHkMode(hk: int)
  {
    STAY_ARM <= hk <= DISARM
  }

  datatype ModeEntry = ModeEntry(hk: int, eufy: JsNumber)

  datatype MappingError = NoEufyMode(hk: int) | NoHomeKitMode(eufy: JsNumber)

  /** A lookup that either finds a value or throws. */
  datatype Result<T> = Ok(value: T) | Err(error: MappingError)

  /** The vendor code the station's settings give to a HomeKit mode. */
  function CodeFor(c: StationConfig, hk: int): JsNumber
    requires IsHkMode(hk)
  {
    if hk == STAY_ARM then c.hkHome
    else if hk == AWAY_ARM then c.hkAway
    else if hk == NIGHT_ARM then c.hkNight
    else c.hkOff
  }

  /** `mappingHKEufy`: one entry per HomeKit mode, in the order 0, 1, 2, 3. */
  function ModeTable(c: StationConfig): (t: seq<ModeEntry>)
    ensures |t| == 4
    ensures forall i :: 0 <= i < |t| ==> t[i].hk == i && t[i].eufy == CodeFor(c, i)
  {
    [ ModeEntry(STAY_ARM, c.hkHome),
      ModeEntry(AWAY_ARM, c.hkAway),
      ModeEntry(NIGHT_ARM, c.hkNight),
      ModeEntry(DISARM, c.hkOff) ]
  }

  predicate HasHk(hk: int, m: ModeEntry)
  {
    m.hk == hk
  }

  predicate HasEufy(eufy: JsNumber, m: ModeEntry)
  {
    StrictEquals(m.eufy, eufy)
  }

  /** `convertHKtoEufy`: the vendor code of the first entry for `hk`, or an error. */
  function ConvertHKtoEufy(modes: seq<ModeEntry>, hk: int): (r: Result<JsNumber>)
    ensures r.Ok? <==> exists i :: 0 <= i < |modes| && modes[i].hk == hk
    ensures r.Ok? ==> exists i :: 0 <= i < |modes| && modes[i].hk == hk && r.value == modes[i].eufy &&
                          forall j :: 0 <= j < i ==> modes[j].hk != hk
    ensures r.Err? ==> r.error == NoEufyMode(hk)
  {
    match FindFirst(modes, m => HasHk(hk, m))
    case None => Err(NoEufyMode(hk))
    case Some(i) => Ok(modes[i].eufy)
  }

  /** `convertEufytoHK`: the HomeKit mode of the first entry whose code is
      strictly equal to `eufy`, or an error. */
  function ConvertEufytoHK(modes: seq<ModeEntry>, eufy: JsNumber): (r: Result<int>)
    ensures r.Ok? <==> exists i :: 0 <= i < |modes| && StrictEquals(modes[i].eufy, eufy)
    ensures r.Ok? ==> exists i :: 0 <= i < |modes| && StrictEquals(modes[i].eufy, eufy) && r.value == modes[i].hk &&
                          forall j :: 0 <= j < i ==> !StrictEquals(modes[j].eufy, eufy)
    ensures r.Err? ==> r.error == NoHomeKitMode(eufy)
  {
    match FindFirst(modes, m => HasEufy(eufy, m))
    case None => Err(NoHomeKitMode(eufy))
    case Some(i) => Ok(modes[i].hk)
  }

  /** On the station's table, HomeKit-to-vendor conversion succeeds exactly for
      the modes 0..3 and yields the configured code. */
  lemma HkToEufyOnTable(c: StationConfig, hk: int)
    ensures ConvertHKtoEufy(ModeTable(c), hk) ==
            if IsHkMode(hk) then Ok(CodeFor(c, hk)) else Err(NoEufyMode(hk))
  {
    var t := ModeTable(c);
    var r := ConvertHKtoEufy(t, hk);
    if IsHkMode(hk) {
      assert t[hk].hk == hk;
      var i :| 0 <= i < |t| && t[i].hk == hk && r.value == t[i].eufy &&
               forall j :: 0 <= j < i ==> t[j].hk != hk;
      assert i == hk;
    }
  }

  /** Some HomeKit mode is configured with a vendor code strictly equal to `eufy`. */
  ghost predicate Configured(c: StationConfig, eufy: JsNumber)
  {
    exists hk :: IsHkMode(hk) && StrictEquals(CodeFor(c, hk), eufy)
  }

  /** On the station's table, vendor-to-HomeKit conversion succeeds exactly for
      the configured codes and yields the lowest HomeKit mode carrying the code. */
  lemma EufyToHkOnTable(c: StationConfig, eufy: JsNumber)
    ensures ConvertEufytoHK(ModeTable(c), eufy).Ok? <==> Configured(c, eufy)
    ensures ConvertEufytoHK(ModeTable(c), eufy).Ok? ==>
              var hk := ConvertEufytoHK(ModeTable(c), eufy).value;
              IsHkMode(hk) && StrictEquals(CodeFor(c, hk), eufy) &&
              forall h :: STAY_ARM <= h < hk ==> !StrictEquals(CodeFor(c, h), eufy)
    ensures ConvertEufytoHK(ModeTable(c), eufy).Err? ==> ConvertEufytoHK(ModeTable(c), eufy).error == NoHomeKitMode(eufy)
  {
    var t := ModeTable(c);
    var r := ConvertEufytoHK(t, eufy);
    if Configured(c, eufy) {
      var hk :| IsHkMode(hk) && StrictEquals(CodeFor(c, hk), eufy);
      assert StrictEquals(t[hk].eufy, eufy);
    }
    if r.Ok? {
      var i :| 0 <= i < |t| && StrictEquals(t[i].eufy, eufy) && r.value == t[i].hk &&
               forall j :: 0 <= j < i ==> !StrictEquals(t[j].eufy, eufy);
      assert r.value == i;
      forall h | STAY_ARM <= h < i ensures !StrictEquals(CodeFor(c, h), eufy) {
        assert t[h].eufy == CodeFor(c, h);
      }
    }
  }

  /** The four configured codes are numbers and pairwise different. */
  ghost predicate Unambiguous(c: StationConfig)
  {
    forall h1, h2 :: IsHkMode(h1) && IsHkMode(h2) && h1 != h2 ==>
      CodeFor(c, h1).Num? && !StrictEquals(CodeFor(c, h1), CodeFor(c, h2))
  }

  /** Vendor side: a code the table maps to a HomeKit mode is that mode's code. */
  lemma VendorRoundTrip(c: StationConfig, eufy: JsNumber)
    requires ConvertEufytoHK(ModeTable(c), eufy).Ok?
    ensures ConvertHKtoEufy(ModeTable(c), ConvertEufytoHK(ModeTable(c), eufy).value) == Ok(eufy)
  {
    var hk := ConvertEufytoHK(ModeTable(c), eufy).value;
    EufyToHkOnTable(c, eufy);
    HkToEufyOnTable(c, hk);
  }

  /** Platform side: every HomeKit mode converts to a vendor code and back to
      itself exactly when the configured codes are unambiguous. */
  lemma PlatformRoundTrip(c: StationConfig)
    ensures Unambiguous(c) <==>
      forall hk :: IsHkMode(hk) ==>
        ConvertHKtoEufy(ModeTable(c), hk).Ok? &&
        ConvertEufytoHK(ModeTable(c), ConvertHKtoEufy(ModeTable(c), hk).value) == Ok(hk)
  {
    var t := ModeTable(c);
    if Unambiguous(c) {
      forall hk | IsHkMode(hk)
        ensures ConvertHKtoEufy(t, hk).Ok? && ConvertEufytoHK(t, ConvertHKtoEufy(t, hk).value) == Ok(hk)
      {
        HkToEufyOnTable(c, hk);
        var code := CodeFor(c, hk);
        EufyToHkOnTable(c, code);
        assert Configured(c, code) by {
          assert StrictEquals(CodeFor(c, hk), code) by {
            assert CodeFor(c, hk).Num? by {
              var other := if hk == STAY_ARM then AWAY_ARM else STAY_ARM;
              assert IsHkMode(other) && other != hk;
            }
          }
        }
        var back := ConvertEufytoHK(t, code).value;
        assert StrictEquals(CodeFor(c, back), code);
      }
    } else {
      var h1, h2 :| IsHkMode(h1) && IsHkMode(h2) && h1 != h2 &&
                    !(CodeFor(c, h1).Num? && !StrictEquals(CodeFor(c, h1), CodeFor(c, h2)));
      HkToEufyOnTable(c, h1);
      EufyToHkOnTable(c, CodeFor(c, h1));
      if CodeFor(c, h1).NaN? {
        assert ConvertEufytoHK(t, ConvertHKtoEufy(t, h1).value).Err?;
      } else {
        HkToEufyOnTable(c, h2);
        EufyToHkOnTable(c, CodeFor(c, h2));
        var lo := if h1 < h2 then h1 else h2;
        var hi := if h1 < h2 then h2 else h1;
        assert StrictEquals(CodeFor(c, lo), CodeFor(c, hi));
        assert ConvertEufytoHK(t, ConvertHKtoEufy(t, hi).value) != Ok(hi);
      }
    }
  }
}
