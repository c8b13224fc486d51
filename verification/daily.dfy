/**
 * `DailyModule`, the daily check-in of one game: today's sign-in state with
 * missing fields filled in, the month's reward table, the reward of one day,
 * and the claim with its result classified.
 *
 * The calendar is an input: `Date` is today's date in local time, and the
 * number of days of a month follows the Gregorian rule, which is what
 * `new Date(year, month + 1, 0).getDate()` yields.
 */
module Daily {
  import opened Wrappers
  import opened Strings
  import opened Dicts
  import opened Js
  import opened Language
  import opened Request
  import opened Calls

  type Month = m: int | 1 <= m <= 12 witness 1

  /** A calendar date; `month` counts from 1. */
  datatype Date = Date(year: int, month: Month, day: int)

  /** What `reward` returns: the month's metadata and one day's award. */
  datatype DailyReward = DailyReward(month: Value, now: Value, biz: Value, resign: Value, award: Value)

  /** What `claim` returns. */
  datatype DailyClaim = DailyClaim(status: Value, code: Value, reward: Option<DailyReward>, info: Value)

  const DailyInfoApi: string := "DAILY_INFO_API"
  const DailyRewardApi: string := "DAILY_REWARD_API"
  const DailyClaimApi: string := "DAILY_CLAIM_API"

  /** The `retcode` of a claim made twice on one day. */
  const AlreadySigned: int := -5003

  predicate Leap(year: int)
  {
    (year % 4 == 0 && year % 100 != 0) || year % 400 == 0
  }

  /** The number of days of a month: the date of day 0 of the month after it. */
  function DaysInMonth(year: int, month: Month): (d: int)
    ensures 28 <= d <= 31
    ensures d == 29 <==> month == 2 && Leap(year)
    ensures d == 28 <==> month == 2 && !Leap(year)
  {
    if month == 2 then (if Leap(year) then 29 else 28)
    else if month == 4 || month == 6 || month == 9 || month == 11 then 30
    else 31
  }

  /** The days of the months `1 .. m` of a year. */
  function DaysThrough(year: int, m: int): int
    requires 0 <= m <= 12
  {
    if m == 0 then 0 else DaysThrough(year, m - 1) + DaysInMonth(year, m)
  }

  /** The twelve months make a year of 365 days, or 366 in a leap year. */
  lemma YearLength(year: int)
    ensures DaysThrough(year, 12) == if Leap(year) then 366 else 365
  {
    var feb := DaysInMonth(year, 2);
    assert DaysThrough(year, 1) == 31;
    assert DaysThrough(year, 2) == 31 + feb;
    assert DaysThrough(year, 3) == 62 + feb;
    assert DaysThrough(year, 4) == 92 + feb;
    assert DaysThrough(year, 5) == 123 + feb;
    assert DaysThrough(year, 6) == 153 + feb;
    assert DaysThrough(year, 7) == 184 + feb;
    assert DaysThrough(year, 8) == 215 + feb;
    assert DaysThrough(year, 9) == 245 + feb;
    assert DaysThrough(year, 10) == 276 + feb;
    assert DaysThrough(year, 11) == 306 + feb;
  }

  /** `today.getDate() === lastDayOfMonth`. */
  predicate LastDayOfMonth(today: Date)
  {
    today.day == DaysInMonth(today.year, today.month)
  }

  /** `if (typeof obj[key] === 'undefined') obj[key] = value`. */
  function Default(fields: Dict<Value>, key: string, value: Value): Dict<Value>
  {
    if Field(fields, key) == Undefined then Put(fields, key, value) else fields
  }

  lemma DefaultField(fields: Dict<Value>, key: string, value: Value, k: string)
    ensures Field(Default(fields, key, value), k)
      == if k == key && Field(fields, key) == Undefined then value else Field(fields, k)
  {
    GetPut(fields, key, value, k);
  }

  /** Writing to a property of `null`, `undefined` or a primitive fails in strict code. */
  function CannotSet(data: Value, key: string): Error
  {
    TypeError("Cannot set properties of " + ToString(data) + " (setting '" + key + "')")
  }

  /** Reading a property of `null` or `undefined` fails. */
  function CannotRead(data: Value, key: string): Error
  {
    TypeError("Cannot read properties of " + ToString(data) + " (reading '" + key + "')")
  }

  /** The four defaults of `info`, in the order the source applies them. */
  function InfoDefaults(fields: Dict<Value>, today: Date): Dict<Value>
  {
    var f1 := Default(fields, "first_bind", Bool(false));
    var f2 := Default(f1, "month_last_day", Bool(LastDayOfMonth(today)));
    var f3 := Default(f2, "sign_cnt_missed", Num(0));
    Default(f3, "short_sign_day", Num(0))
  }

  /**
   * `info()` on the reply's `data`: the four defaults, then an empty
   * `region` replaced by the module's region when it has one. Anything but
   * an object cannot take the defaults.
   */
  function InfoOf(data: Value, today: Date, region: Option<string>): Result<Value>
  {
    if !data.Obj? then Err(CannotSet(data, "first_bind"))
    else
      var filled := InfoDefaults(data.fields, today);
      if Field(filled, "region") == Str("") && region.Some? && region.value != "" then Ok(Obj(Put(filled, "region", Str(region.value))))
      else Ok(Obj(filled))
  }

  /** What `info()` resolves with, given what its `send` settles with. */
  function InfoResult(reply: Result<Envelope>, today: Date, region: Option<string>): Result<Value>
  {
    match reply
    case Err(e) => Err(e)
    case Ok(res) => InfoOf(res.data, today, region)
  }

  /** The field `k` after the four defaults: present fields are kept, missing ones defaulted. */
  lemma InfoDefaultsField(fields: Dict<Value>, today: Date, k: string)
    ensures Field(InfoDefaults(fields, today), k) ==
      if Field(fields, k) != Undefined then Field(fields, k)
      else if k == "first_bind" then Bool(false)
      else if k == "month_last_day" then Bool(LastDayOfMonth(today))
      else if k == "sign_cnt_missed" || k == "short_sign_day" then Num(0)
      else Undefined
  {
    var f1 := Default(fields, "first_bind", Bool(false));
    var f2 := Default(f1, "month_last_day", Bool(LastDayOfMonth(today)));
    var f3 := Default(f2, "sign_cnt_missed", Num(0));
    DefaultField(fields, "first_bind", Bool(false), k);
    DefaultField(f1, "month_last_day", Bool(LastDayOfMonth(today)), k);
    DefaultField(f2, "sign_cnt_missed", Num(0), k);
    DefaultField(f3, "short_sign_day", Num(0), k);
    DefaultField(fields, "first_bind", Bool(false), "month_last_day");
    DefaultField(fields, "first_bind", Bool(false), "sign_cnt_missed");
    DefaultField(fields, "first_bind", Bool(false), "short_sign_day");
    DefaultField(f1, "month_last_day", Bool(LastDayOfMonth(today)), "sign_cnt_missed");
    DefaultField(f1, "month_last_day", Bool(LastDayOfMonth(today)), "short_sign_day");
    DefaultField(f2, "sign_cnt_missed", Num(0), "short_sign_day");
  }

  /**
   * `info()` on an object: every field it has is kept, except that an empty
   * `region` becomes the module's non-empty region; `first_bind`,
   * `month_last_day`, `sign_cnt_missed` and `short_sign_day` get their
   * defaults when missing.
   */
  lemma InfoSpec(data: Value, today: Date, region: Option<string>, k: string)
    requires data.Obj?
    ensures InfoOf(data, today, region).Ok?
    ensures var fields := InfoOf(data, today, region).value.fields;
      Field(fields, k) ==
        if k == "region" then
          (if Field(data.fields, "region") == Str("") && region.Some? && region.value != "" then Str(region.value)
           else Field(data.fields, "region"))
        else if Field(data.fields, k) != Undefined then Field(data.fields, k)
        else if k == "first_bind" then Bool(false)
        else if k == "month_last_day" then Bool(LastDayOfMonth(today))
        else if k == "sign_cnt_missed" || k == "short_sign_day" then Num(0)
        else Undefined
  {
    var filled := InfoDefaults(data.fields, today);
    InfoDefaultsField(data.fields, today, k);
    InfoDefaultsField(data.fields, today, "region");
    assert Field(filled, "region") == Field(data.fields, "region");
    if Field(filled, "region") == Str("") && region.Some? && region.value != "" {
      assert InfoOf(data, today, region) == Ok(Obj(Put(filled, "region", Str(region.value))));
      GetPut(filled, "region", Str(region.value), k);
    } else {
      assert InfoOf(data, today, region) == Ok(Obj(filled));
    }
  }

  /** `'hk4e'` for Genshin Impact and Honkai Impact 3rd, `'hkrpg'` for Star Rail, `''` for anything else. */
  function Biz(game: string): (b: string)
    ensures b == "hk4e" <==> game == "hk4e_global" || game == "bh3_global"
    ensures b == "hkrpg" <==> game == "hkrpg_global"
    ensures b == "" <==> game != "hk4e_global" && game != "bh3_global" && game != "hkrpg_global"
  {
    if game == "hk4e_global" then "hk4e"
    else if game == "bh3_global" then "hk4e"
    else if game == "hkrpg_global" then "hkrpg"
    else ""
  }

  /** `Math.round(millis / 1000)`: the nearest second, halves rounded up. */
  function RoundSeconds(millis: int): int
  {
    (millis + 500) / 1000
  }

  lemma RoundSecondsNearest(millis: int)
    ensures var s := RoundSeconds(millis);
      s * 1000 - 500 <= millis < s * 1000 + 500
  {
  }

  /**
   * `rewards()` on the reply's `data`: `now` defaults to the rounded clock
   * in seconds, as text; `biz` is always overwritten; `resign` defaults to false.
   */
  function RewardsOf(data: Value, game: string, millis: int): Result<Value>
  {
    if data.IsNullish() then Err(CannotRead(data, "now"))
    else if !data.Obj? then Err(CannotSet(data, "now"))
    else
      var f1 := Default(data.fields, "now", Str(IntToString(RoundSeconds(millis))));
      var f2 := Put(f1, "biz", Str(Biz(game)));
      Ok(Obj(Default(f2, "resign", Bool(false))))
  }

  function RewardsResult(reply: Result<Envelope>, game: string, millis: int): Result<Value>
  {
    match reply
    case Err(e) => Err(e)
    case Ok(res) => RewardsOf(res.data, game, millis)
  }

  /** The three writes of `rewards()` on an object, for any `now` and `biz` values. */
  function RewardsFields(fields: Dict<Value>, now: Value, biz: Value): Dict<Value>
  {
    Default(Put(Default(fields, "now", now), "biz", biz), "resign", Bool(false))
  }

  lemma RewardsFieldsSpec(fields: Dict<Value>, now: Value, biz: Value, k: string)
    ensures Field(RewardsFields(fields, now, biz), k) ==
      if k == "biz" then biz
      else if k == "now" then (if Field(fields, "now") == Undefined then now else Field(fields, "now"))
      else if k == "resign" then (if Field(fields, "resign") == Undefined then Bool(false) else Field(fields, "resign"))
      else Field(fields, k)
  {
    var f1 := Default(fields, "now", now);
    var f2 := Put(f1, "biz", biz);
    DefaultField(fields, "now", now, k);
    DefaultField(fields, "now", now, "resign");
    GetPut(f1, "biz", biz, k);
    GetPut(f1, "biz", biz, "resign");
    DefaultField(f2, "resign", Bool(false), k);
  }

  /** The three fields `rewards()` sets, and every other field kept. */
  lemma RewardsSpec(data: Value, game: string, millis: int, k: string)
    requires data.Obj?
    ensures RewardsOf(data, game, millis).Ok?
    ensures var fields := RewardsOf(data, game, millis).value.fields;
      && Field(fields, "biz") == Str(Biz(game))
      && Field(fields, "now") == (if Field(data.fields, "now") == Undefined then Str(IntToString(RoundSeconds(millis))) else Field(data.fields, "now"))
      && Field(fields, "resign") == (if Field(data.fields, "resign") == Undefined then Bool(false) else Field(data.fields, "resign"))
      && (k != "biz" && k != "now" && k != "resign" ==> Field(fields, k) == Field(data.fields, k))
  {
    var now := Str(IntToString(RoundSeconds(millis)));
    var biz := Str(Biz(game));
    assert RewardsOf(data, game, millis) == Ok(Obj(RewardsFields(data.fields, now, biz)));
    RewardsFieldsSpec(data.fields, now, biz, k);
    RewardsFieldsSpec(data.fields, now, biz, "biz");
    RewardsFieldsSpec(data.fields, now, biz, "now");
    RewardsFieldsSpec(data.fields, now, biz, "resign");
  }

  /** `v[i]`: a `TypeError` on `null`/`undefined`, `undefined` past the end. */
  function ElementAt(v: Value, i: nat): Result<Value>
  {
    match v
    case Undefined => Err(CannotRead(v, IntToString(i)))
    case Null => Err(CannotRead(v, IntToString(i)))
    case Arr(items) => Ok(if i < |items| then items[i] else Undefined)
    case Obj(fields) => Ok(Field(fields, IntToString(i)))
    case Str(s) => Ok(if i < |s| then Str([s[i]]) else Undefined)
    case _ => Ok(Undefined)
  }

  function InvalidDay(day: int): Error
  {
    HoyoAPIError(IntToString(day) + " is not a valid date in this month.")
  }

  /**
   * `reward(day)` on what `rewards()` resolved with: a day outside the
   * current month throws; otherwise `awards[day - 1]` with the month's
   * metadata. The source's second test, `typeof … === undefined`, compares
   * a type name with `undefined` and never holds, so it only adds the read
   * of `awards[day - 1]`.
   */
  function RewardOf(rewards: Value, day: int, today: Date): Result<DailyReward>
  {
    if !(day > 0 && day <= DaysInMonth(today.year, today.month)) then Err(InvalidDay(day))
    else
      var award :- ElementAt(Member(rewards, "awards"), day - 1);
      Ok(DailyReward(Member(rewards, "month"), Member(rewards, "now"), Member(rewards, "biz"), Member(rewards, "resign"), award))
  }

  /**
   * A day is accepted exactly when it lies in `1 .. DaysInMonth`, and an
   * accepted day of an award array yields that day's award, or `undefined`
   * past the array's end: the award check never throws.
   */
  lemma RewardSpec(rewards: Value, day: int, today: Date)
    ensures !(1 <= day <= DaysInMonth(today.year, today.month)) ==> RewardOf(rewards, day, today) == Err(InvalidDay(day))
    ensures 1 <= day <= DaysInMonth(today.year, today.month) && Member(rewards, "awards").Arr? ==>
      var items := Member(rewards, "awards").items;
      && RewardOf(rewards, day, today).Ok?
      && RewardOf(rewards, day, today).value.award == (if day - 1 < |items| then items[day - 1] else Undefined)
      && RewardOf(rewards, day, today).value.biz == Member(rewards, "biz")
  {
  }

  /** The day `reward()` looks at: the given one, or the day of the month of `now`. */
  function DayOf(day: Option<int>, nowDay: int): int
  {
    if day.Some? then day.value else nowDay
  }

  /**
   * The classification of `claim()`: -5003 keeps the reward, `data.code` of
   * `'ok'` in any case together with `retcode` 0 gives code 0 with the
   * reward, anything else gives the `retcode` without a reward. Reading
   * `.code.toString()` throws when `data` has no usable `code`.
   */
  function Classify(response: Envelope, reward: DailyReward, info: Value): Result<DailyClaim>
  {
    if response.retcode == Num(AlreadySigned) then Ok(DailyClaim(response.message, Num(AlreadySigned), Some(reward), info))
    else if response.data.IsNullish() then Ok(DailyClaim(response.message, response.retcode, None, info))
    else
      var code := Member(response.data, "code");
      if code.IsNullish() then Err(CannotRead(code, "toString"))
      else if ToLower(ToString(code)) == "ok" && response.retcode == Num(0) then Ok(DailyClaim(response.message, Num(0), Some(reward), info))
      else Ok(DailyClaim(response.message, response.retcode, None, info))
  }

  /**
   * A classified claim always carries the reply's message and the given
   * `info`; it carries the reward exactly when its code is -5003 or 0, and
   * its code is the reply's `retcode` in every case.
   */
  lemma ClassifySpec(response: Envelope, reward: DailyReward, info: Value)
    ensures var r := Classify(response, reward, info);
      r.Ok? ==>
        && r.value.status == response.message
        && r.value.info == info
        && r.value.code == response.retcode
        && (r.value.reward.Some? <==> response.retcode == Num(AlreadySigned) || (response.retcode == Num(0) && !response.data.IsNullish() && ToLower(ToString(Member(response.data, "code"))) == "ok"))
        && (r.value.reward.Some? ==> r.value.reward == Some(reward))
    ensures Classify(response, reward, info).Err? <==>
      response.retcode != Num(AlreadySigned) && !response.data.IsNullish() && Member(response.data, "code").IsNullish()
  {
  }

  /** The code `'OK'` counts like `'ok'`. */
  lemma ClassifyIgnoresCase(message: Value, reward: DailyReward, info: Value)
    ensures Classify(Envelope(Obj([("code", Str("OK"))]), message, Num(0)), reward, info)
         == Ok(DailyClaim(message, Num(0), Some(reward), info))
  {
    assert ToLower("OK") == "ok";
  }

  /** `setQueryParams({ lang }).setLang(lang)` on request state `st`. */
  function LangSet(st: Pending, lang: Lang): (r: Pending)
    ensures r.body == st.body && r.ds == st.ds && r.retries == st.retries
  {
    st.(params := Merge(st.params, [("lang", LangParam(lang))]), headers := Put(st.headers, "x-rpc-language", Tag(lang)))
  }

  /** Setting the language twice is setting it once. */
  lemma LangSetTwice(st: Pending, lang: Lang)
    ensures LangSet(LangSet(st, lang), lang) == LangSet(st, lang)
  {
    var one := [("lang", LangParam(lang))];
    MergeOne(st.params, "lang", LangParam(lang));
    MergeOne(Merge(st.params, one), "lang", LangParam(lang));
    PutPut(st.params, "lang", LangParam(lang), LangParam(lang));
    PutPut(st.headers, "x-rpc-language", Tag(lang), Tag(lang));
  }

  /** What `claim()` resolves with: the claim's own reply, then `info()`, then `reward()`, then the classification. */
  function ClaimOf(claimed: Result<Envelope>, infoReply: Result<Envelope>, rewardsReply: Result<Envelope>,
                   game: string, region: Option<string>, today: Date, millis: int, nowDay: int): Result<DailyClaim>
  {
    var response :- claimed;
    var info :- InfoResult(infoReply, today, region);
    var rewards :- RewardsResult(rewardsReply, game, millis);
    var reward :- RewardOf(rewards, DayOf(None, nowDay), today);
    Classify(response, reward, info)
  }

  class DailyModule {
    const request: HTTPRequest
    const lang: Lang
    const game: string
    const region: Option<string>

    constructor (request: HTTPRequest, lang: Lang, game: string, region: Option<string>)
      ensures this.request == request && this.lang == lang && this.game == game && this.region == region
    {
      this.request := request;
      this.lang := lang;
      this.game := game;
      this.region := region;
    }

    /** The language parameter and header every method sets first. */
    method SetLanguage()
      modifies request
      ensures request.State() == LangSet(old(request.State()), lang)
    {
      var self := request.SetQueryParams([("lang", LangParam(lang))]);
      self := self.SetLang(Tag(lang));
    }

    /** `info()`. */
    method Info(send: Exchange, today: Date) returns (r: Result<Value>)
      modifies request
      ensures request.State() == LangSet(old(request.State()), lang)
      ensures r == InfoResult(send(Call(DailyInfoApi, GET, request.State())), today, region)
    {
      SetLanguage();
      var res :- send(Call(DailyInfoApi, GET, request.State()));
      r := InfoOf(res.data, today, region);
    }

    /** `rewards()`. */
    method Rewards(send: Exchange, millis: int) returns (r: Result<Value>)
      modifies request
      ensures request.State() == LangSet(old(request.State()), lang)
      ensures r == RewardsResult(send(Call(DailyRewardApi, GET, request.State())), game, millis)
    {
      SetLanguage();
      var res :- send(Call(DailyRewardApi, GET, request.State()));
      r := RewardsOf(res.data, game, millis);
    }

    /** `reward(day)`: `rewards()`, then the day's award; without a day, the day of `now`. */
    method Reward(day: Option<int>, send: Exchange, today: Date, millis: int, nowDay: int) returns (r: Result<DailyReward>)
      modifies request
      ensures request.State() == LangSet(old(request.State()), lang)
      ensures var rewards := RewardsResult(send(Call(DailyRewardApi, GET, request.State())), game, millis);
        r == if rewards.Err? then Err(rewards.error) else RewardOf(rewards.value, DayOf(day, nowDay), today)
    {
      var rewards :- Rewards(send, millis);
      r := RewardOf(rewards, DayOf(day, nowDay), today);
    }

    /** `claim()`: the claim is sent as a POST; `info()` and `reward()` follow before the classification. */
    method Claim(send: Exchange, today: Date, millis: int, nowDay: int) returns (r: Result<DailyClaim>)
      modifies request
      ensures request.State() == LangSet(old(request.State()), lang)
      ensures var st := request.State();
        r == ClaimOf(send(Call(DailyClaimApi, POST, st)), send(Call(DailyInfoApi, GET, st)), send(Call(DailyRewardApi, GET, st)),
                     game, region, today, millis, nowDay)
    {
      ghost var start := request.State();
      LangSetTwice(start, lang);
      SetLanguage();
      var response :- send(Call(DailyClaimApi, POST, request.State()));
      var info :- Info(send, today);
      var reward :- Reward(None, send, today, millis, nowDay);
      r := Classify(response, reward, info);
    }
  }
}
