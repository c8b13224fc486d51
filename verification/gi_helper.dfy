/** `getGenshinRegion`: the Genshin Impact server of a UID, chosen by its first digit. */
module GenshinHelper {
  import opened Wrappers
  import opened Strings

  /** The keys of `GenshinRegion`. */
  datatype GenshinRegion = USA | EUROPE | ASIA | CHINA_TAIWAN

  /** The string value of each key. */
  function RegionValue(r: GenshinRegion): string
  {
    match r
    case USA => "os_usa"
    case EUROPE => "os_euro"
    case ASIA => "os_asia"
    case CHINA_TAIWAN => "os_cht"
  }

  /** The message thrown for a UID whose first character selects no server. */
  function InvalidUid(uid: int): Error
  {
    HoyoAPIError("Given UID " + IntToString(uid) + " is invalid !")
  }

  /** The `switch` of `getGenshinRegion`: the key a first digit selects, if any. */
  function KeyOf(digit: Option<nat>): Option<GenshinRegion>
  {
    match digit
    case Some(6) => Some(USA)
    case Some(7) => Some(EUROPE)
    case Some(8) => Some(ASIA)
    case Some(9) => Some(CHINA_TAIWAN)
    case _ => None
  }

  /** `getGenshinRegion(uid)`: the key selected by the number the UID's first character reads as. */
  function GenshinRegionOf(uid: int): Result<GenshinRegion>
  {
    match KeyOf(FirstDigit(uid))
    case Some(key) => Ok(key)
    case None => Err(InvalidUid(uid))
  }

  /**
   * A positive UID is accepted exactly when its leading digit is 6, 7, 8
   * or 9, which select USA, Europe, Asia and China/Taiwan in that order;
   * zero and negative UIDs are rejected.
   */
  lemma RegionByLeadingDigit(uid: int)
    ensures uid <= 0 ==> GenshinRegionOf(uid) == Err(InvalidUid(uid))
    ensures uid > 0 ==>
      && (GenshinRegionOf(uid) == Ok(USA) <==> LeadingDigit(uid) == 6)
      && (GenshinRegionOf(uid) == Ok(EUROPE) <==> LeadingDigit(uid) == 7)
      && (GenshinRegionOf(uid) == Ok(ASIA) <==> LeadingDigit(uid) == 8)
      && (GenshinRegionOf(uid) == Ok(CHINA_TAIWAN) <==> LeadingDigit(uid) == 9)
      && (GenshinRegionOf(uid).Err? <==> LeadingDigit(uid) < 6)
  {
    FirstDigitSpec(uid);
  }

  /** Two positive UIDs with the same leading digit get the same answer. */
  lemma OnlyLeadingDigitMatters(a: int, b: int)
    requires a > 0 && b > 0 && LeadingDigit(a) == LeadingDigit(b)
    ensures GenshinRegionOf(a).Ok? <==> GenshinRegionOf(b).Ok?
    ensures GenshinRegionOf(a).Ok? ==> GenshinRegionOf(a) == GenshinRegionOf(b)
  {
    FirstDigitSpec(a);
    FirstDigitSpec(b);
    assert KeyOf(FirstDigit(a)) == KeyOf(FirstDigit(b));
  }

  /** The four servers have four different values. */
  lemma RegionValuesDistinct(r: GenshinRegion, s: GenshinRegion)
    requires RegionValue(r) == RegionValue(s)
    ensures r == s
  {
  }
}
