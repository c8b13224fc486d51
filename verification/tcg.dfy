/**
 * `GenshinTCGModule`, the card-game records of a Genshin Impact account.
 * Every call sends `server`, `role_id` and, except for the card list, the
 * language, with the `DS` flag on, and applies the `retcode` check. The card
 * list is paged: `cards()` asks for 100 cards at a time from offset 0, moves
 * to the `next_offset` the server gives, and stops at the first page whose
 * `is_last` is not `false`.
 *
 * There is no UID guard here: a missing region or UID is sent as `null`.
 */
module Tcg {
  import opened Wrappers
  import opened Dicts
  import opened Js
  import opened Language
  import opened Request
  import opened Calls
  import opened Paging

  const BasicInfoApi: string := "GENSHIN_TCG_BASICINFO"
  const CardListApi: string := "GENSHIN_TCG_CARDLIST"
  const MatchListApi: string := "GENSHIN_TCG_MATCHLIST"
  const ScheduleApi: string := "GENSHIN_TCG_CHALLANGE_SCHEDULE"
  const RecordApi: string := "GENSHIN_TCG_CHALLANGE_RECORD"
  const DeckApi: string := "GENSHIN_TCG_CHALLANGE_DECK"

  /** Cards asked for per page. */
  const PerPage: int := 100

  /** The parameters every call but `cards()` sends, followed by its own. */
  function AccountParams(region: Option<string>, uid: Option<int>, lang: Lang, extra: Dict<Value>): Dict<Value>
  {
    [("server", RegionParam(region)), ("role_id", UidParam(uid)), ("lang", LangParam(lang))] + extra
  }

  /** The parameters of one page of `cards()`. */
  function CardsParams(region: Option<string>, uid: Option<int>, offset: Value): Dict<Value>
  {
    [("server", RegionParam(region)), ("role_id", UidParam(uid)),
     ("need_avatar", Str("true")), ("need_action", Str("true")), ("need_stats", Str("true")),
     ("offset", offset), ("limit", Num(PerPage))]
  }

  /** A page of the card list, as `cards()` reads it. */
  datatype CardsPage = CardsPage(cards: seq<Value>, isLast: Value, nextOffset: Value, stats: Value)

  /**
   * One reply of the card list: the `retcode` check, then `is_last`,
   * `next_offset`, the spread of `card_list` and `stats`, in that order.
   */
  function PageOf(reply: Result<Envelope>): (r: Result<CardsPage>)
    ensures CheckedReply(reply).Err? ==> r == CheckedReply(reply).PropagateFailure()
    ensures r.Ok? ==> reply.Ok? && reply.value.retcode == Num(0) && reply.value.data.Obj?
  {
    var data :- CheckedReply(reply);
    var isLast :- Property(data, "is_last");
    var nextOffset := Property(data, "next_offset").value;
    var cards :- Spread(Property(data, "card_list").value);
    Ok(CardsPage(cards, isLast, nextOffset, Property(data, "stats").value))
  }

  /** `next = data.is_last === false`: only the boolean `false` asks for more. */
  predicate More(page: CardsPage)
  {
    page.isLast == Bool(false)
  }

  /** The offset a page asks for: 0 on the first page, else the `next_offset` of the page before. */
  function OffsetAfter(prev: Option<CardsPage>): Value
  {
    match prev
    case None => Num(0)
    case Some(p) => p.nextOffset
  }

  /** The card list as a paged listing. */
  function CardsPager(region: Option<string>, uid: Option<int>): Pager<CardsPage>
  {
    Pager(CardListApi, (k: nat, prev: Option<CardsPage>) => CardsParams(region, uid, OffsetAfter(prev)), PageOf, More)
  }

  /** The cards one page carries. */
  function CardsOn(page: CardsPage): seq<Value>
  {
    page.cards
  }

  /** The object `cards()` builds once the last page is in. */
  function CardsObject(cards: seq<Value>, last: CardsPage): Value
  {
    Obj([("card_list", Arr(cards)), ("is_last", last.isLast), ("next_offset", last.nextOffset), ("stats", last.stats)])
  }

  /** The `offset` and `limit` one page asks for. */
  lemma CardsParamsSpec(region: Option<string>, uid: Option<int>, offset: Value)
    ensures KeysDistinct(CardsParams(region, uid, offset))
    ensures Get(CardsParams(region, uid, offset), "offset") == Some(offset)
    ensures Get(CardsParams(region, uid, offset), "limit") == Some(Num(PerPage))
  {
    var p := CardsParams(region, uid, offset);
    assert KeysDistinct(p);
    GetAt(p, 5);
    GetAt(p, 6);
  }

  /**
   * Each page of `cards()` asks for 100 cards with `DS` on, from offset 0 on
   * the first page and from the previous page's `next_offset` on every
   * later one.
   */
  lemma OffsetFollowsServer(region: Option<string>, uid: Option<int>, send: Exchange, start: Pending, k: nat)
    ensures var pg := CardsPager(region, uid);
      var st := Asked(pg, send, start, k);
      && Get(st.params, "limit") == Some(Num(PerPage))
      && st.ds
      && (k == 0 ==> Get(st.params, "offset") == Some(Num(0)))
      && (k > 0 && PageAt(pg, send, start, k - 1).Ok? ==>
            Get(st.params, "offset") == Some(PageAt(pg, send, start, k - 1).value.nextOffset))
  {
    var pg := CardsPager(region, uid);
    var prev := if k == 0 then None else
      var last := PageAt(pg, send, start, k - 1);
      if last.Ok? then Some(last.value) else None;
    var before := if k == 0 then start else Asked(pg, send, start, k - 1);
    var p := CardsParams(region, uid, OffsetAfter(prev));
    assert Asked(pg, send, start, k) == Queried(before, p, true);
    CardsParamsSpec(region, uid, OffsetAfter(prev));
    MergeGet(before.params, p, "offset");
    MergeGet(before.params, p, "limit");
  }

  /**
   * The object `cards()` resolves with reports the last page's `is_last`,
   * `next_offset` and `stats`, next to the cards gathered.
   */
  lemma CardsObjectSpec(cards: seq<Value>, last: CardsPage)
    ensures var v := CardsObject(cards, last);
      && v.Obj?
      && Field(v.fields, "card_list") == Arr(cards)
      && Field(v.fields, "is_last") == last.isLast
      && Field(v.fields, "next_offset") == last.nextOffset
      && Field(v.fields, "stats") == last.stats
  {
    var fields := CardsObject(cards, last).fields;
    assert KeysDistinct(fields);
    GetAt(fields, 0);
    GetAt(fields, 1);
    GetAt(fields, 2);
    GetAt(fields, 3);
  }

  class GenshinTCGModule {
    const request: HTTPRequest
    const lang: Lang
    const region: Option<string>
    const uid: Option<int>

    constructor (request: HTTPRequest, lang: Lang, region: Option<string>, uid: Option<int>)
      ensures this.request == request && this.lang == lang && this.region == region && this.uid == uid
    {
      this.request := request;
      this.lang := lang;
      this.region := region;
      this.uid := uid;
    }

    /** `basicInfo()`. */
    method BasicInfo(send: Exchange) returns (r: Result<Value>)
      modifies request
      ensures request.State() == Queried(old(request.State()), AccountParams(region, uid, lang, []), true)
      ensures r == CheckedReply(send(Call(BasicInfoApi, GET, request.State())))
    {
      r := QueryChecked(request, BasicInfoApi, AccountParams(region, uid, lang, []), send);
    }

    /** `matchs()`. */
    method Matchs(send: Exchange) returns (r: Result<Value>)
      modifies request
      ensures request.State() == Queried(old(request.State()), AccountParams(region, uid, lang, []), true)
      ensures r == CheckedReply(send(Call(MatchListApi, GET, request.State())))
    {
      r := QueryChecked(request, MatchListApi, AccountParams(region, uid, lang, []), send);
    }

    /** `challengeSchedule()`: the `schedule_list` of the checked data. */
    method ChallengeSchedule(send: Exchange) returns (r: Result<Value>)
      modifies request
      ensures request.State() == Queried(old(request.State()), AccountParams(region, uid, lang, []), true)
      ensures var checked := CheckedReply(send(Call(ScheduleApi, GET, request.State())));
        r == if checked.Err? then checked else Property(checked.value, "schedule_list")
    {
      var data :- QueryChecked(request, ScheduleApi, AccountParams(region, uid, lang, []), send);
      r := Property(data, "schedule_list");
    }

    /** `challengeRecord(schedule_id)`. */
    method ChallengeRecord(scheduleId: int, send: Exchange) returns (r: Result<Value>)
      modifies request
      ensures request.State() == Queried(old(request.State()), AccountParams(region, uid, lang, [("schedule_id", Num(scheduleId))]), true)
      ensures r == CheckedReply(send(Call(RecordApi, GET, request.State())))
    {
      r := QueryChecked(request, RecordApi, AccountParams(region, uid, lang, [("schedule_id", Num(scheduleId))]), send);
    }

    /** `challangeDeck(schedule_id, deck_id)`. */
    method ChallangeDeck(scheduleId: int, deckId: int, send: Exchange) returns (r: Result<Value>)
      modifies request
      ensures request.State() == Queried(old(request.State()), AccountParams(region, uid, lang, [("schedule_id", Num(scheduleId)), ("deck_id", Num(deckId))]), true)
      ensures r == CheckedReply(send(Call(DeckApi, GET, request.State())))
    {
      r := QueryChecked(request, DeckApi, AccountParams(region, uid, lang, [("schedule_id", Num(scheduleId)), ("deck_id", Num(deckId))]), send);
    }

    /**
     * `cards()`: the paged card list. `seen` holds the pages that read, in
     * order, each but the last with `is_last` exactly `false`. A page that
     * fails rejects the whole call; otherwise the last page is the first
     * whose `is_last` is not `false`, and the result gathers the cards of all
     * pages with the last page's `is_last`, `next_offset` and `stats`. The
     * server is assumed to end the list: otherwise the source loops for ever.
     */
    method Cards(send: Exchange) returns (r: Result<Value>, ghost seen: seq<CardsPage>)
      requires exists k: nat :: StopsAt(CardsPager(region, uid), send, request.State(), k)
      modifies request
      ensures var pg := CardsPager(region, uid);
        && Replies(pg, send, old(request.State()), |seen|) == Read(seen)
        && (r.Err? ==>
              && AllWant(pg, seen)
              && PageAt(pg, send, old(request.State()), |seen|) == Err(r.error)
              && request.State() == StateAfter(pg, send, old(request.State()), |seen| + 1))
        && (r.Ok? ==>
              && |seen| > 0 && AllWant(pg, seen[..|seen| - 1]) && !More(seen[|seen| - 1])
              && r.value == CardsObject(Gathered(seen, CardsOn), seen[|seen| - 1])
              && request.State() == StateAfter(pg, send, old(request.State()), |seen|))
    {
      var pages;
      pages, seen := Walk(request, CardsPager(region, uid), send);
      if pages.Err? {
        r := Err(pages.error);
        return;
      }
      r := Ok(CardsObject(Gathered(pages.value, CardsOn), pages.value[|pages.value| - 1]));
    }
  }
}
