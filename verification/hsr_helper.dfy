/**
 * `getHsrRegion`: the Honkai: Star Rail server of a UID, chosen by its first
 * digit. Two keys of `HsrRegion` carry the same value, so the result cannot
 * tell them apart.
 */
module HsrHelper {
  import opened Wrappers
  import opened Strings

  /** The keys of `HsrRegion`. */
  datatype HsrRegionKey = USA | EUROPE | ASIA | CHINA_TAIWAN

  /** `HsrRegion[key]`: USA and ASIA share a value. */
  function RegionValue(key: HsrRegionKey): string
  {
    match key
    case USA => "prod_official_asia"
    case EUROPE => "prod_official_euro"
    case ASIA => "prod_official_asia"
    case CHINA_TAIWAN => "prod_official_cht"
  }

  /** The message thrown for a UID whose first character selects no server. */
  function InvalidUid(uid: int): Error
  {
    HoyoAPIError("Given UID " + IntToString(uid) + " is invalid !")
  }

  /** The `switch` of `getHsrRegion`: the key a first digit selects, if any. */
  function KeyOf(digit: Option<nat>): Option<HsrRegionKey>
  {
    match digit
    case Some(6) => Some(USA)
    case Some(7) => Some(EUROPE)
    case Some(8) => Some(ASIA)
    case Some(9) => Some(CHINA_TAIWAN)
    case _ => None
  }

  /** `getHsrRegion(uid)`: the value of the key selected by the UID's first character. */
  function HsrRegionOf(uid: int): Result<string>
  {
    match KeyOf(FirstDigit(uid))
    case Some(key) => Ok(RegionValue(key))
    case None => Err(InvalidUid(uid))
  }

  /**
   * A positive UID is accepted exactly when its leading digit is 6, 7, 8
   * or 9; 6 and 8 both give the Asia value, 7 the Europe value and 9 the
   * China/Taiwan value. Zero and negative UIDs are rejected.
   */
  lemma RegionByLeadingDigit(uid: int)
    ensures uid <= 0 ==> HsrRegionOf(uid) == Err(InvalidUid(uid))
    ensures uid > 0 ==>
      && (HsrRegionOf(uid) == Ok("prod_official_asia") <==> LeadingDigit(uid) == 6 || LeadingDigit(uid) == 8)
      && (HsrRegionOf(uid) == Ok("prod_official_euro") <==> LeadingDigit(uid) == 7)
      && (HsrRegionOf(uid) == Ok("prod_official_cht") <==> LeadingDigit(uid) == 9)
      && (HsrRegionOf(uid).Err? <==> LeadingDigit(uid) < 6)
  {
    FirstDigitSpec(uid);
  }

  /** Two positive UIDs with the same leading digit get the same answer. */
  lemma OnlyLeadingDigitMatters(a: int, b: int)
    requires a > 0 && b > 0 && LeadingDigit(a) == LeadingDigit(b)
    ensures HsrRegionOf(a).Ok? <==> HsrRegionOf(b).Ok?
    ensures HsrRegionOf(a).Ok? ==> HsrRegionOf(a) == HsrRegionOf(b)
  {
    FirstDigitSpec(a);
    FirstDigitSpec(b);
    assert KeyOf(FirstDigit(a)) == KeyOf(FirstDigit(b));
  }

  /** The keys USA and ASIA are distinct but yield one value: UIDs led by 6 and by 8 land on the same server. */
  lemma UsaIsAsia(a: int, b: int)
    requires a > 0 && LeadingDigit(a) == 6
    requires b > 0 && LeadingDigit(b) == 8
    ensures HsrRegionOf(a) == HsrRegionOf(b) == Ok(RegionValue(ASIA))
  {
    RegionByLeadingDigit(a);
    RegionByLeadingDigit(b);
  }
}
