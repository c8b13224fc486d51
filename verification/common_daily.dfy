/**
 * The second `DailyModule`, used by the game clients: the same four
 * methods as `Daily`, without a region of its own. Its `info()` reads
 * `res.first_bind` without `?.`, so a `null` reply fails on the read, and
 * it never touches `region`. The other steps are the same code and reuse
 * `Daily`'s definitions.
 */
module CommonDaily {
  import opened Wrappers
  import opened Dicts
  import opened Js
  import opened Language
  import opened Request
  import opened Calls
  import opened Daily

  /** `info()` of this module on the reply's `data`. */
  function CommonInfoOf(data: Value, today: Date): Result<Value>
  {
    if data.IsNullish() then Err(CannotRead(data, "first_bind")) else InfoOf(data, today, None)
  }

  function CommonInfoResult(reply: Result<Envelope>, today: Date): Result<Value>
  {
    match reply
    case Err(e) => Err(e)
    case Ok(res) => CommonInfoOf(res.data, today)
  }

  /**
   * On an object the defaults are those of the other module, and `region`
   * is left exactly as the reply has it, even when empty.
   */
  lemma CommonInfoSpec(data: Value, today: Date, k: string)
    requires data.Obj?
    ensures CommonInfoOf(data, today).Ok?
    ensures var fields := CommonInfoOf(data, today).value.fields;
      && Field(fields, "region") == Field(data.fields, "region")
      && (k != "region" && Field(data.fields, k) != Undefined ==> Field(fields, k) == Field(data.fields, k))
      && (Field(data.fields, "first_bind") == Undefined ==> Field(fields, "first_bind") == Bool(false))
      && (Field(data.fields, "month_last_day") == Undefined ==> Field(fields, "month_last_day") == Bool(LastDayOfMonth(today)))
      && (Field(data.fields, "sign_cnt_missed") == Undefined ==> Field(fields, "sign_cnt_missed") == Num(0))
      && (Field(data.fields, "short_sign_day") == Undefined ==> Field(fields, "short_sign_day") == Num(0))
  {
    InfoSpec(data, today, None, k);
    InfoSpec(data, today, None, "region");
    InfoSpec(data, today, None, "first_bind");
    InfoSpec(data, today, None, "month_last_day");
    InfoSpec(data, today, None, "sign_cnt_missed");
    InfoSpec(data, today, None, "short_sign_day");
  }

  /** Both modules agree except on `null`/`undefined`, where only the error differs, and on the region back-fill. */
  lemma AgreesWithoutRegion(data: Value, today: Date)
    ensures !data.IsNullish() ==> CommonInfoOf(data, today) == InfoOf(data, today, None)
    ensures CommonInfoOf(data, today).Err? <==> InfoOf(data, today, None).Err?
  {
  }

  /** What `claim()` of this module resolves with. */
  function CommonClaimOf(claimed: Result<Envelope>, infoReply: Result<Envelope>, rewardsReply: Result<Envelope>,
                         game: string, today: Date, millis: int, nowDay: int): Result<DailyClaim>
  {
    var response :- claimed;
    var info :- CommonInfoResult(infoReply, today);
    var rewards :- RewardsResult(rewardsReply, game, millis);
    var reward :- RewardOf(rewards, DayOf(None, nowDay), today);
    Classify(response, reward, info)
  }

  class DailyModule {
    const request: HTTPRequest
    const lang: Lang
    const game: string

    constructor (request: HTTPRequest, lang: Lang, game: string)
      ensures this.request == request && this.lang == lang && this.game == game
    {
      this.request := request;
      this.lang := lang;
      this.game := game;
    }

    method SetLanguage()
      modifies request
      ensures request.State() == LangSet(old(request.State()), lang)
    {
      var self := request.SetQueryParams([("lang", LangParam(lang))]);
      self := self.SetLang(Tag(lang));
    }

    /** `info()`. */
    method Info(send: Exchange, today: Date) returns (r: Result<Value>)
      modifies request
      ensures request.State() == LangSet(old(request.State()), lang)
      ensures r == CommonInfoResult(send(Call(DailyInfoApi, GET, request.State())), today)
    {
      SetLanguage();
      var res :- send(Call(DailyInfoApi, GET, request.State()));
      r := CommonInfoOf(res.data, today);
    }

    /** `rewards()`. */
    method Rewards(send: Exchange, millis: int) returns (r: Result<Value>)
      modifies request
      ensures request.State() == LangSet(old(request.State()), lang)
      ensures r == RewardsResult(send(Call(DailyRewardApi, GET, request.State())), game, millis)
    {
      SetLanguage();
      var res :- send(Call(DailyRewardApi, GET, request.State()));
      r := RewardsOf(res.data, game, millis);
    }

    /** `reward(day)`. */
    method Reward(day: Option<int>, send: Exchange, today: Date, millis: int, nowDay: int) returns (r: Result<DailyReward>)
      modifies request
      ensures request.State() == LangSet(old(request.State()), lang)
      ensures var rewards := RewardsResult(send(Call(DailyRewardApi, GET, request.State())), game, millis);
        r == if rewards.Err? then Err(rewards.error) else RewardOf(rewards.value, DayOf(day, nowDay), today)
    {
      var rewards :- Rewards(send, millis);
      r := RewardOf(rewards, DayOf(day, nowDay), today);
    }

    /** `claim()`. */
    method Claim(send: Exchange, today: Date, millis: int, nowDay: int) returns (r: Result<DailyClaim>)
      modifies request
      ensures request.State() == LangSet(old(request.State()), lang)
      ensures var st := request.State();
        r == CommonClaimOf(send(Call(DailyClaimApi, POST, st)), send(Call(DailyInfoApi, GET, st)), send(Call(DailyRewardApi, GET, st)),
                           game, today, millis, nowDay)
    {
      ghost var start := request.State();
      LangSetTwice(start, lang);
      SetLanguage();
      var response :- send(Call(DailyClaimApi, POST, request.State()));
      var info :- Info(send, today);
      var reward :- Reward(None, send, today, millis, nowDay);
      r := Classify(response, reward, info);
    }
  }
}
