/**
 * `getHi3Region`: the Honkai Impact 3rd server of a UID, chosen by numeric
 * range. The third range selects a key the enum does not have.
 */
module HonkaiHelper {
  import opened Wrappers
  import opened Strings

  /** The keys the range test can select. `EURO` is not a key of `HonkaiRegion`. */
  datatype SelectedKey = ASIA | USA | EURO

  /** `HonkaiRegion[key]`: `None` stands for `undefined`, the value of a key the enum lacks. */
  function RegionValue(key: SelectedKey): Option<string>
  {
    match key
    case ASIA => Some("overseas01")
    case USA => Some("usa01")
    case EURO => None
  }

  /** The message thrown for a UID outside every range. */
  function InvalidUid(uid: int): Error
  {
    HoyoAPIError("Given UID " + IntToString(uid) + " is invalid !")
  }

  /** The `if`/`else` chain of `getHi3Region`: open ranges, so the bounds themselves select nothing. */
  function KeyOf(uid: int): Option<SelectedKey>
  {
    if 10000000 < uid < 100000000 then Some(ASIA)
    else if 100000000 < uid < 200000000 then Some(USA)
    else if 200000000 < uid < 300000000 then Some(EURO)
    else None
  }

  /** `getHi3Region(uid)`. */
  function Hi3RegionOf(uid: int): Result<Option<string>>
  {
    match KeyOf(uid)
    case Some(key) => Ok(RegionValue(key))
    case None => Err(InvalidUid(uid))
  }

  /**
   * The three ranges give Asia, USA and `undefined`; the value `eur01` is
   * never produced; every UID up to 10,000,000, the two inner bounds and
   * every UID from 300,000,000 on are rejected, and nothing else is.
   */
  lemma RegionByRange(uid: int)
    ensures 10000000 < uid < 100000000 ==> Hi3RegionOf(uid) == Ok(Some("overseas01"))
    ensures 100000000 < uid < 200000000 ==> Hi3RegionOf(uid) == Ok(Some("usa01"))
    ensures 200000000 < uid < 300000000 ==> Hi3RegionOf(uid) == Ok(None)
    ensures Hi3RegionOf(uid).Err? <==> uid <= 10000000 || uid == 100000000 || uid == 200000000 || uid >= 300000000
    ensures Hi3RegionOf(uid) != Ok(Some("eur01"))
  {
  }

  /** Every accepted UID lies strictly inside one of the three ranges, and the answer is constant on each. */
  lemma ConstantOnRanges(a: int, b: int)
    requires Hi3RegionOf(a).Ok? && Hi3RegionOf(b).Ok?
    requires a / 100000000 == b / 100000000
    ensures Hi3RegionOf(a) == Hi3RegionOf(b)
  {
  }

  /** The member each selected key evidently stands for: `EURO` for `HonkaiRegion.EUROPE`. */
  function IntendedValue(key: SelectedKey): string
  {
    match key
    case ASIA => "overseas01"
    case USA => "usa01"
    case EURO => "eur01"
  }

  /** `getHi3Region(uid)` with the third range naming the Europe server. */
  function Hi3RegionIntended(uid: int): Result<string>
  {
    match KeyOf(uid)
    case Some(key) => Ok(IntendedValue(key))
    case None => Err(InvalidUid(uid))
  }

  /**
   * The corrected lookup gives each range its own server, one of the three
   * values of `HonkaiRegion`; it rejects exactly the UIDs the source
   * rejects, and agrees with the source wherever the source yields a value.
   */
  lemma IntendedByRange(uid: int)
    ensures 10000000 < uid < 100000000 ==> Hi3RegionIntended(uid) == Ok("overseas01")
    ensures 100000000 < uid < 200000000 ==> Hi3RegionIntended(uid) == Ok("usa01")
    ensures 200000000 < uid < 300000000 ==> Hi3RegionIntended(uid) == Ok("eur01")
    ensures Hi3RegionIntended(uid).Err? <==> Hi3RegionOf(uid).Err?
    ensures Hi3RegionOf(uid).Ok? && Hi3RegionOf(uid).value.Some? ==> Hi3RegionIntended(uid) == Ok(Hi3RegionOf(uid).value.value)
  {
  }

  /** A UID of the third range shows the difference: the source yields `undefined` where `eur01` was meant. */
  lemma EuroRangeUndefined(uid: int)
    requires 200000000 < uid < 300000000
    ensures Hi3RegionOf(uid) == Ok(None)
    ensures Hi3RegionIntended(uid) == Ok("eur01")
  {
  }
}
