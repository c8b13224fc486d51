/**
 * `Hoyolab`, the account-level client: it settles on a language, builds
 * its own request with that language, lists the game accounts bound to the
 * cookie and picks the highest-level one of a game.
 */
module Hoyolab {
  import opened Wrappers
  import opened Dicts
  import opened Js
  import opened Language
  import opened Cookie
  import opened Request
  import opened Calls

  /** `options.cookie`: a cookie string to parse, or an already parsed cookie object. */
  datatype CookieOption = CookieText(text: string) | CookieFields(fields: Dict<Value>)

  const UserGamesList: string := "USER_GAMES_LIST"
  const GameRecordCardApi: string := "GAME_RECORD_CARD_API"

  const NeedTokenV2: Error := HoyoAPIError("You must set options.cookie.cookieTokenV2 to access this API")
  const NoGameAccountText: string := "There is no game account on this hoyolab account !"
  const NotReducible: Error := TypeError("games.reduce is not a function")

  /** `a || b`. */
  function Or(a: Value, b: Value): Value
  {
    if Truthy(a) then a else b
  }

  /** What `parseLang` sees of a cookie value: a string, or nothing it can match. */
  function LangText(v: Value): Option<string>
  {
    if v.Str? then Some(v.s) else None
  }

  /**
   * The constructor's language: the `lang` option when it is set, otherwise
   * the one parsed from the cookie's `mi18nLang`; parsed once more either way.
   */
  function ChosenLang(optionLang: Option<string>, cookie: Dict<Value>): Lang
  {
    var given :=
      if optionLang.None? || optionLang.value == "" then Some(Tag(ParseLang(LangText(Field(cookie, "mi18nLang")))))
      else optionLang;
    ParseLang(given)
  }

  /**
   * A `lang` option naming a language wins; a `lang` option that names none
   * gives English without looking at the cookie; only a missing or empty
   * option falls back to the cookie's `mi18nLang`.
   */
  lemma ChosenLangSpec(optionLang: Option<string>, cookie: Dict<Value>)
    ensures optionLang.Some? && IsTag(optionLang.value) ==> Tag(ChosenLang(optionLang, cookie)) == optionLang.value
    ensures optionLang.Some? && optionLang.value != "" && !IsTag(optionLang.value) ==> ChosenLang(optionLang, cookie) == English
    ensures optionLang.None? || optionLang.value == "" ==>
      ChosenLang(optionLang, cookie) == ParseLang(LangText(Field(cookie, "mi18nLang")))
  {
    if optionLang.None? || optionLang.value == "" {
      ParseLangIdempotent(LangText(Field(cookie, "mi18nLang")));
      if optionLang.Some? {
        IsTagLength(optionLang.value);
      }
    } else {
      assert ChosenLang(optionLang, cookie) == ParseLang(optionLang);
    }
  }

  /** The headers of the client's request: the defaults with the chosen language, and no `Cookie`. */
  lemma ClientHeaders(header: string, lang: Lang)
    ensures var h := Put(InitialHeaders(Str(header)), "x-rpc-language", Tag(lang));
      && Get(h, "x-rpc-language") == Some(Tag(lang))
      && Get(h, "Cookie") == None
  {
    var initial := InitialHeaders(Str(header));
    InitialCookie(Str(header));
    GetPut(initial, "x-rpc-language", Tag(lang), "x-rpc-language");
    GetPut(initial, "x-rpc-language", Tag(lang), "Cookie");
  }

  /** The parameters `gamesList(game)` adds: `game_biz` when a game is given, then `uid` and `sLangKey`. */
  function GamesListParams(params: Dict<Value>, game: Option<string>, cookie: Dict<Value>): Dict<Value>
  {
    var withGame := if game.Some? && game.value != "" then Merge(params, [("game_biz", Str(game.value))]) else params;
    Merge(withGame, [("uid", Field(cookie, "ltuidV2")), ("sLangKey", Field(cookie, "mi18nLang"))])
  }

  /**
   * `uid` and `sLangKey` always carry the cookie's values; `game_biz` is
   * the given game when there is one and is otherwise left as it was; every
   * other pending parameter is kept.
   */
  lemma GamesListParamsSpec(params: Dict<Value>, game: Option<string>, cookie: Dict<Value>, k: string)
    ensures var p := GamesListParams(params, game, cookie);
      && Get(p, "uid") == Some(Field(cookie, "ltuidV2"))
      && Get(p, "sLangKey") == Some(Field(cookie, "mi18nLang"))
      && Get(p, "game_biz") == (if game.Some? && game.value != "" then Some(Str(game.value)) else Get(params, "game_biz"))
      && (k != "uid" && k != "sLangKey" && k != "game_biz" ==> Get(p, k) == Get(params, k))
  {
    var set2 := [("uid", Field(cookie, "ltuidV2")), ("sLangKey", Field(cookie, "mi18nLang"))];
    var given := game.Some? && game.value != "";
    var withGame := if given then Merge(params, [("game_biz", Str(game.value))]) else params;
    if given {
      var one := [("game_biz", Str(game.value))];
      assert KeysDistinct(one);
      MergeGet(params, one, "game_biz");
      MergeGet(params, one, k);
    }
    assert Get(withGame, "game_biz") == if given then Some(Str(game.value)) else Get(params, "game_biz");
    assert k != "game_biz" ==> Get(withGame, k) == Get(params, k);
    assert KeysDistinct(set2);
    assert Keys(set2) == ["uid", "sLangKey"];
    GetAt(set2, 0);
    GetAt(set2, 1);
    MergeGet(withGame, set2, "uid");
    MergeGet(withGame, set2, "sLangKey");
    MergeGet(withGame, set2, "game_biz");
    MergeGet(withGame, set2, k);
  }

  /**
   * What `gamesList` makes of the reply: a rejection passes through, a
   * reply without a truthy `data.list` throws with the reply's message,
   * otherwise the list.
   */
  function GamesListResult(reply: Result<Envelope>): (r: Result<Value>)
    ensures r.Ok? ==> reply.Ok? && Truthy(reply.value.data) && r.value == Member(reply.value.data, "list") && Truthy(r.value)
    ensures reply.Ok? && !Truthy(Member(reply.value.data, "list")) ==> r.Err? && r.error.HoyoAPIError?
    ensures reply.Err? ==> r == Err(reply.error)
  {
    match reply
    case Err(e) => Err(e)
    case Ok(res) =>
      if !Truthy(res.data) || !Truthy(Member(res.data, "list")) then
        Err(HoyoAPIError(ToString(OrElse(res.message, Str(NoGameAccountText)))))
      else Ok(Member(res.data, "list"))
  }

  /** `second.level > first.level` for numeric levels; any other level compares as false. */
  predicate Above(second: Value, first: Value)
  {
    var a, b := Member(second, "level"), Member(first, "level");
    a.Num? && b.Num? && a.n > b.n
  }

  /** The element `games.reduce((first, second) => second.level > first.level ? second : first)` keeps. */
  function Best(games: seq<Value>): Value
    requires |games| >= 1
  {
    if |games| == 1 then games[0]
    else
      var first := Best(games[..|games| - 1]);
      var second := games[|games| - 1];
      if Above(second, first) then second else first
  }

  /** The position of the element `Best` keeps. */
  function BestAt(games: seq<Value>): (i: nat)
    requires |games| >= 1
    ensures i < |games|
  {
    if |games| == 1 then 0
    else
      var i := BestAt(games[..|games| - 1]);
      if Above(games[|games| - 1], games[i]) then |games| - 1 else i
  }

  /** A game with a numeric level. */
  predicate Leveled(g: Value)
  {
    Member(g, "level").Num?
  }

  function LevelOf(g: Value): int
    requires Leveled(g)
  {
    Member(g, "level").n
  }

  /**
   * When every game has a numeric level, the kept game has the highest
   * level, and every game before it has a strictly lower one: among several
   * of the highest level the earliest wins.
   */
  lemma BestIsEarliestMaximum(games: seq<Value>)
    requires |games| >= 1
    requires forall j :: 0 <= j < |games| ==> Leveled(games[j])
    ensures Best(games) == games[BestAt(games)]
    ensures forall j :: 0 <= j < |games| ==> LevelOf(games[j]) <= LevelOf(games[BestAt(games)])
    ensures forall j :: 0 <= j < BestAt(games) ==> LevelOf(games[j]) < LevelOf(games[BestAt(games)])
  {
    BestIsAt(games);
    forall j | 0 <= j < |games|
      ensures LevelOf(games[j]) <= LevelOf(games[BestAt(games)])
      ensures j < BestAt(games) ==> LevelOf(games[j]) < LevelOf(games[BestAt(games)])
    {
      BestAtAbove(games, j);
    }
  }

  /** `Best` keeps the game at `BestAt`. */
  lemma {:induction false} BestIsAt(games: seq<Value>)
    requires |games| >= 1
    ensures Best(games) == games[BestAt(games)]
    decreases |games|
  {
    if |games| > 1 {
      var front := games[..|games| - 1];
      BestIsAt(front);
      assert front[BestAt(front)] == games[BestAt(front)];
    }
  }

  /** Game `j` is no higher than the kept one, and strictly lower when it comes before it. */
  lemma {:induction false} BestAtAbove(games: seq<Value>, j: nat)
    requires |games| >= 1 && j < |games|
    requires forall j :: 0 <= j < |games| ==> Leveled(games[j])
    ensures LevelOf(games[j]) <= LevelOf(games[BestAt(games)])
    ensures j < BestAt(games) ==> LevelOf(games[j]) < LevelOf(games[BestAt(games)])
    decreases |games|
  {
    var n := |games|;
    if n > 1 {
      var front := games[..n - 1];
      assert forall k :: 0 <= k < |front| ==> front[k] == games[k];
      if j < n - 1 {
        BestAtAbove(front, j);
      }
    }
  }

  /** Any position with those two properties is the one `Best` keeps. */
  lemma EarliestMaximumUnique(games: seq<Value>, i: nat)
    requires |games| >= 1 && i < |games|
    requires forall j :: 0 <= j < |games| ==> Leveled(games[j])
    requires forall j :: 0 <= j < |games| ==> LevelOf(games[j]) <= LevelOf(games[i])
    requires forall j :: 0 <= j < i ==> LevelOf(games[j]) < LevelOf(games[i])
    ensures BestAt(games) == i
  {
    BestIsEarliestMaximum(games);
    var b := BestAt(games);
    assert LevelOf(games[i]) <= LevelOf(games[b]) && LevelOf(games[b]) <= LevelOf(games[i]);
  }

  /** `gameAccount`'s work on the list: no game throws, an array is reduced, anything else cannot be. */
  function AccountOf(games: Value): (r: Result<Value>)
    ensures games.Arr? && |games.items| >= 1 ==> r.Ok? && r.value in games.items
    ensures games.Arr? && |games.items| == 0 ==> r == Err(HoyoAPIError(NoGameAccountText))
    ensures !games.Arr? && !games.Str? ==> r == Err(NotReducible)
  {
    match games
    case Arr(items) =>
      if |items| < 1 then Err(HoyoAPIError(NoGameAccountText))
      else
        BestIsIn(items);
        Ok(Best(items))
    case Str(s) => if |s| < 1 then Err(HoyoAPIError(NoGameAccountText)) else Err(NotReducible)
    case _ => Err(NotReducible)
  }

  lemma {:induction false} BestIsIn(games: seq<Value>)
    requires |games| >= 1
    ensures Best(games) in games
    decreases |games|
  {
    if |games| > 1 {
      var front := games[..|games| - 1];
      BestIsIn(front);
      assert Best(front) in front;
      assert forall g :: g in front ==> g in games;
    }
  }

  class Hoyolab {
    /** The cookie object the client holds; the constructor back-fills its `accountId`. */
    const cookie: CookieObject
    const request: HTTPRequest
    const lang: Lang

    /**
     * `new Hoyolab(options)` once the cookie is an object (see `Create`):
     * settle on a language, serialise the cookie, and give the serialised
     * text to the request as its options. The request reads `options.cookie`
     * from that text, finds nothing, and so sends no `Cookie` header.
     */
    constructor (fields: Dict<Value>, optionLang: Option<string>)
      ensures fresh(cookie) && fresh(request)
      ensures lang == ChosenLang(optionLang, fields)
      ensures cookie.entries == WithAccountId(fields)
      ensures request.State() == Pending([], [], Put(InitialHeaders(Str(SerializeAsWritten(cookie.entries))), "x-rpc-language", Tag(lang)), false, 1)
    {
      var given := optionLang;
      if given.None? || given.value == "" {
        given := Some(Tag(ParseLang(LangText(Field(fields, "mi18nLang")))));
      }
      var chosen := ParseLang(given);
      var c := new CookieObject(fields);
      var header := ParseCookie(c);
      var r := new HTTPRequest(Str(header));
      var _ := r.SetLang(Tag(chosen));
      cookie := c;
      request := r;
      lang := chosen;
    }

    /** `new Hoyolab(options)`: a cookie string is parsed first, and its errors are thrown. */
    static method Create(option: CookieOption, optionLang: Option<string>) returns (r: Result<Hoyolab>)
      ensures option.CookieText? && ParseCookieStringSpec(option.text).Err? ==> r == Err(ParseCookieStringSpec(option.text).error)
      ensures r.Ok? ==> fresh(r.value) && fresh(r.value.cookie) && fresh(r.value.request)
      ensures r.Ok? ==> var fields := if option.CookieText? then ParseCookieStringSpec(option.text).value else option.fields;
        && r.value.lang == ChosenLang(optionLang, fields)
        && r.value.cookie.entries == WithAccountId(fields)
      ensures option.CookieFields? ==> r.Ok?
    {
      var fields: Dict<Value>;
      if option.CookieText? {
        var parsed := ParseCookieString(option.text);
        if parsed.Err? {
          return Err(parsed.error);
        }
        fields := parsed.value;
      } else {
        fields := option.fields;
      }
      var client := new Hoyolab(fields, optionLang);
      r := Ok(client);
    }

    /**
     * `gamesList(game)`: without a `cookieTokenV2` it throws before touching
     * the request; otherwise it adds its parameters, sends, and checks the list.
     */
    method GamesList(game: Option<string>, send: Exchange) returns (r: Result<Value>)
      modifies request
      ensures !Truthy(Field(cookie.entries, "cookieTokenV2")) ==>
        r == Err(NeedTokenV2) && request.State() == old(request.State())
      ensures Truthy(Field(cookie.entries, "cookieTokenV2")) ==>
        && request.State() == old(request.State()).(params := GamesListParams(old(request.params), game, cookie.entries))
        && r == GamesListResult(send(Call(UserGamesList, GET, request.State())))
    {
      if !Truthy(Field(cookie.entries, "cookieTokenV2")) {
        return Err(NeedTokenV2);
      }
      if game.Some? && game.value != "" {
        var _ := request.SetQueryParams([("game_biz", Str(game.value))]);
      }
      var _ := request.SetQueryParams([("uid", Field(cookie.entries, "ltuidV2")), ("sLangKey", Field(cookie.entries, "mi18nLang"))]);
      var reply := send(Call(UserGamesList, GET, request.State()));
      r := GamesListResult(reply);
    }

    /** `gameAccount(game)`: the list of the game's accounts, reduced to the one of highest level. */
    method GameAccount(game: string, send: Exchange) returns (r: Result<Value>)
      modifies request
      ensures !Truthy(Field(cookie.entries, "cookieTokenV2")) ==> r == Err(NeedTokenV2) && request.State() == old(request.State())
      ensures Truthy(Field(cookie.entries, "cookieTokenV2")) ==>
        && request.State() == old(request.State()).(params := GamesListParams(old(request.params), Some(game), cookie.entries))
        && var listed := GamesListResult(send(Call(UserGamesList, GET, request.State())));
          r == if listed.Err? then Err(listed.error) else AccountOf(listed.value)
    {
      var games :- GamesList(Some(game), send);
      r := AccountOf(games);
    }

    /** `gameRecordCard()`: asks for the card of the first truthy account id and returns `data.list`. */
    method GameRecordCard(send: Exchange) returns (r: Result<Value>)
      modifies request
      ensures var id := Or(Field(cookie.entries, "ltuidV2"), Or(Field(cookie.entries, "accountId"), Field(cookie.entries, "accountIdV2")));
        request.State() == old(request.State()).(params := Merge(old(request.params), [("uid", id)]))
      ensures var reply := send(Call(GameRecordCardApi, GET, request.State()));
        r == if reply.Err? then Err(reply.error) else Property(reply.value.data, "list")
    {
      var id := Or(Field(cookie.entries, "ltuidV2"), Or(Field(cookie.entries, "accountId"), Field(cookie.entries, "accountIdV2")));
      var _ := request.SetQueryParams([("uid", id)]);
      var res :- send(Call(GameRecordCardApi, GET, request.State()));
      r := Property(res.data, "list");
    }
  }
}
