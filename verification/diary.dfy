/**
 * `DiaryModule`, the traveller's diary of a Genshin Impact account: the
 * summary of one month, and the detail of one kind of income (primogems or
 * mora) over that month, gathered page after page and put in time order.
 *
 * The months a caller may ask for are `DiaryMonthEnum`: the current month
 * and the two before it, computed once from the clock when the library is
 * loaded. The date of loading is an input here.
 */
module Diary {
  import opened Wrappers
  import opened Dicts
  import opened Js
  import opened Language
  import opened Request
  import opened Calls
  import opened Paging
  import Daily

  const DiaryListApi: string := "GENSHIN_DIARY_LIST_API"
  const DiaryDetailApi: string := "GENSHIN_DIARY_DETAIL_API"

  /** `DiaryEnum`: the two kinds of income the detail lists. */
  const Primogems: int := 1
  const Mora: int := 2

  /** Entries asked for per page of the detail. */
  const PageSize: int := 100

  const InvalidMonth: Error := HoyoAPIError("The given month parameter is invalid !")
  const InvalidType: Error := HoyoAPIError("The given type parameter is invalid !")

  /** The three values of `DiaryMonthEnum`, months counted from 1. */
  datatype DiaryMonths = DiaryMonths(current: int, oneMonthAgo: int, twoMonthAgo: int)

  /** The calendar month `n` months before `m`. */
  function MonthBack(m: Daily.Month, n: nat): Daily.Month
  {
    (m - 1 - n) % 12 + 1
  }

  /** The year of the calendar month `n` months before the month of `d`. */
  function YearBack(d: Daily.Date, n: nat): int
  {
    d.year + (d.month - 1 - n) / 12
  }

  /**
   * `d.setMonth(d.getMonth() - n).getMonth() + 1`: the month moves back and
   * the day of the month stays, so a day the earlier month does not have
   * runs over into the month after it.
   */
  function SetMonthBack(d: Daily.Date, n: nat): Daily.Month
  {
    var m := MonthBack(d.month, n);
    if d.day > Daily.DaysInMonth(YearBack(d, n), m) then m % 12 + 1 else m
  }

  /** `DiaryMonthEnum` as the library computes it on the date it is loaded. */
  function MonthEnumAsWritten(loaded: Daily.Date): DiaryMonths
  {
    DiaryMonths(loaded.month, SetMonthBack(loaded, 1), SetMonthBack(loaded, 2))
  }

  /** `DiaryMonthEnum` as meant: this month and the two calendar months before it. */
  function MonthEnum(loaded: Daily.Date): DiaryMonths
  {
    DiaryMonths(loaded.month, MonthBack(loaded.month, 1), MonthBack(loaded.month, 2))
  }

  /** `Object.values(DiaryMonthEnum).includes(month)`. */
  predicate ValidMonth(months: DiaryMonths, month: int)
  {
    month == months.current || month == months.oneMonthAgo || month == months.twoMonthAgo
  }

  /** `Object.values(DiaryEnum).includes(type)`. */
  predicate ValidType(kind: int)
  {
    kind == Primogems || kind == Mora
  }

  /**
   * The three months are this month and the two before it, all different,
   * so each of the last three months is accepted.
   */
  lemma MonthEnumSpec(loaded: Daily.Date)
    ensures var e := MonthEnum(loaded);
      && e.current == loaded.month
      && (e.current - e.oneMonthAgo) % 12 == 1
      && (e.current - e.twoMonthAgo) % 12 == 2
      && e.current != e.oneMonthAgo && e.current != e.twoMonthAgo && e.oneMonthAgo != e.twoMonthAgo
      && forall n: nat :: n < 3 ==> ValidMonth(e, MonthBack(loaded.month, n))
  {
    var e := MonthEnum(loaded);
    forall n: nat | n < 3
      ensures ValidMonth(e, MonthBack(loaded.month, n))
    {
      assert n == 0 || n == 1 || n == 2;
    }
  }

  /** Up to the 28th the computed months are the intended ones. */
  lemma MonthEnumEarlyInMonth(loaded: Daily.Date)
    requires loaded.day <= 28
    ensures MonthEnumAsWritten(loaded) == MonthEnum(loaded)
  {
  }

  /**
   * On a day the month before does not have, the computed "one month ago"
   * is the current month again.
   */
  lemma MonthEnumAsWrittenCollapses(loaded: Daily.Date)
    requires loaded.day > Daily.DaysInMonth(YearBack(loaded, 1), MonthBack(loaded.month, 1))
    ensures MonthEnumAsWritten(loaded).oneMonthAgo == loaded.month
  {
    var m := MonthBack(loaded.month, 1);
    if loaded.month == 1 {
      assert m == 12;
    } else {
      assert m == loaded.month - 1;
    }
  }

  /** Loaded on 31 March 2023, the enum is 3, 3, 1: February is refused. */
  lemma MonthEnumAsWrittenOnMarch31()
    ensures MonthEnumAsWritten(Daily.Date(2023, 3, 31)) == DiaryMonths(3, 3, 1)
    ensures !ValidMonth(MonthEnumAsWritten(Daily.Date(2023, 3, 31)), 2)
    ensures ValidMonth(MonthEnum(Daily.Date(2023, 3, 31)), 2)
  {
    assert Daily.DaysInMonth(2023, 2) == 28;
  }

  /**
   * The checks both calls make before touching the request, in order: the
   * region and UID, the month, and for the detail the kind of income.
   */
  function Refusal(region: Option<string>, uid: Option<int>, months: DiaryMonths, month: int, kind: Option<int>): (e: Option<Error>)
    ensures e.None? <==> Filled(region, uid) && ValidMonth(months, month) && (kind.None? || ValidType(kind.value))
  {
    if !Filled(region, uid) then Some(MissingUid)
    else if !ValidMonth(months, month) then Some(InvalidMonth)
    else if kind.Some? && !ValidType(kind.value) then Some(InvalidType)
    else None
  }

  /** A missing region or UID is reported first, a bad month next, a bad kind last. */
  lemma RefusalOrder(region: Option<string>, uid: Option<int>, months: DiaryMonths, month: int, kind: Option<int>)
    ensures !Filled(region, uid) ==> Refusal(region, uid, months, month, kind) == Some(MissingUid)
    ensures Filled(region, uid) && !ValidMonth(months, month) ==> Refusal(region, uid, months, month, kind) == Some(InvalidMonth)
    ensures Filled(region, uid) && ValidMonth(months, month) && kind.Some? && !ValidType(kind.value) ==>
      Refusal(region, uid, months, month, kind) == Some(InvalidType)
  {
  }

  /**
   * Loaded on 31 March 2023, a module with its account filled refuses
   * February, with the month error, before touching the request.
   */
  lemma FebruaryRefusedOnMarch31(region: Option<string>, uid: Option<int>, kind: Option<int>)
    requires Filled(region, uid)
    ensures Refusal(region, uid, MonthEnumAsWritten(Daily.Date(2023, 3, 31)), 2, kind) == Some(InvalidMonth)
  {
    MonthEnumAsWrittenOnMarch31();
  }

  /** The parameters of `diaries(month)`. */
  function DiariesParams(region: string, uid: int, month: int): Dict<Value>
  {
    [("region", Str(region)), ("uid", Num(uid)), ("month", Num(month))]
  }

  /** The parameters of page `page` (from 1) of `detail(type, month)`. */
  function DetailParams(region: string, uid: int, month: int, kind: int, page: int): Dict<Value>
  {
    [("region", Str(region)), ("uid", Num(uid)), ("month", Num(month)), ("type", Num(kind)),
     ("current_page", Num(page)), ("page_size", Num(PageSize))]
  }

  /** What the detail keeps of a page: its header fields and its entries. */
  datatype DiaryPage = DiaryPage(uid: Value, region: Value, optionalMonth: Value, nickname: Value,
                                 dataMonth: Value, currentPage: Value, list: seq<Value>)

  /**
   * One reply of the detail, read without any `retcode` check: reading
   * `uid` of a `null` or missing `data` fails, and so does spreading a
   * `list` that is not an array or a string.
   */
  function DiaryPageOf(reply: Result<Envelope>): (r: Result<DiaryPage>)
    ensures reply.Err? ==> r == Err(reply.error)
    ensures reply.Ok? && reply.value.data.IsNullish() ==> r == Err(Daily.CannotRead(reply.value.data, "uid"))
    ensures r.Ok? <==>
      && reply.Ok? && !reply.value.data.IsNullish()
      && (Property(reply.value.data, "list").value.Arr? || Property(reply.value.data, "list").value.Str?)
  {
    var res :- reply;
    var data := res.data;
    if data.IsNullish() then Err(Daily.CannotRead(data, "uid"))
    else
      var list :- Spread(Property(data, "list").value);
      Ok(DiaryPage(Property(data, "uid").value, Property(data, "region").value, Property(data, "optional_month").value,
                   Property(data, "nickname").value, Property(data, "data_month").value, Property(data, "current_page").value,
                   list))
  }

  /** The `retcode` and `message` of a reply play no part in how its page reads. */
  lemma DiaryPageIgnoresRetcode(data: Value, message: Value, retcode: Value, message': Value, retcode': Value)
    ensures DiaryPageOf(Ok(Envelope(data, message, retcode))) == DiaryPageOf(Ok(Envelope(data, message', retcode')))
  {
  }

  /** `if (res.list.length < 1) next = false`: a page with entries asks for the next one. */
  predicate HasEntries(page: DiaryPage)
  {
    |page.list| >= 1
  }

  /** The entries one page carries. */
  function Entries(page: DiaryPage): seq<Value>
  {
    page.list
  }

  /** The detail as a paged listing: page `k` (from 0) asks for `current_page` `k + 1`. */
  function DetailPager(region: string, uid: int, month: int, kind: int): Pager<DiaryPage>
  {
    Pager(DiaryDetailApi, (k: nat, prev: Option<DiaryPage>) => DetailParams(region, uid, month, kind, k + 1), DiaryPageOf, HasEntries)
  }

  /**
   * `a` precedes `b` in time, as `new Date(x.time)` compares them; `time`
   * maps an entry to the instant its `time` text denotes.
   */
  predicate SortedByTime(s: seq<Value>, time: Value -> int)
  {
    forall i, j :: 0 <= i < j < |s| ==> time(s[i]) <= time(s[j])
  }

  /** `x` put into `s` before the first entry that is not earlier. */
  function InsertByTime(x: Value, s: seq<Value>, time: Value -> int): (r: seq<Value>)
    ensures multiset(r) == multiset(s) + multiset{x}
    decreases |s|
  {
    if |s| == 0 || time(x) <= time(s[0]) then [x] + s
    else
      assert s == [s[0]] + s[1..];
      [s[0]] + InsertByTime(x, s[1..], time)
  }

  /** The stable sort of `list.sort(...)` with the comparison by time. */
  function SortByTime(s: seq<Value>, time: Value -> int): (r: seq<Value>)
    ensures multiset(r) == multiset(s)
    decreases |s|
  {
    if |s| == 0 then []
    else
      assert s == [s[0]] + s[1..];
      InsertByTime(s[0], SortByTime(s[1..], time), time)
  }

  /** The entries of `s` whose time is `t`, in their order in `s`. */
  function WithTime(s: seq<Value>, t: int, time: Value -> int): (r: seq<Value>)
    decreases |s|
  {
    if |s| == 0 then [] else (if time(s[0]) == t then [s[0]] else []) + WithTime(s[1..], t, time)
  }

  /** An entry no later than the first of a sorted list can go in front of it. */
  lemma SortedCons(x: Value, s: seq<Value>, time: Value -> int)
    requires SortedByTime(s, time)
    requires forall k :: 0 <= k < |s| ==> time(x) <= time(s[k])
    ensures SortedByTime([x] + s, time)
  {
    var r := [x] + s;
    forall i, j | 0 <= i < j < |r|
      ensures time(r[i]) <= time(r[j])
    {
      assert r[j] == s[j - 1];
      if i > 0 {
        assert r[i] == s[i - 1];
      }
    }
  }

  /** Every entry of a sorted list is no earlier than its first. */
  lemma SortedHead(s: seq<Value>, time: Value -> int)
    requires SortedByTime(s, time) && |s| > 0
    ensures forall k :: 0 <= k < |s| ==> time(s[0]) <= time(s[k])
  {
    forall k | 0 < k < |s|
      ensures time(s[0]) <= time(s[k])
    {
    }
  }

  /** An entry of a list built from `s` and `x` is one of them. */
  lemma InsertedFrom(x: Value, s: seq<Value>, time: Value -> int, k: nat)
    requires k < |InsertByTime(x, s, time)|
    ensures InsertByTime(x, s, time)[k] == x || InsertByTime(x, s, time)[k] in s
  {
    var r := InsertByTime(x, s, time);
    assert r[k] in multiset(r);
  }

  lemma {:induction false} InsertSorted(x: Value, s: seq<Value>, time: Value -> int)
    requires SortedByTime(s, time)
    ensures SortedByTime(InsertByTime(x, s, time), time)
    decreases |s|
  {
    if |s| == 0 || time(x) <= time(s[0]) {
      if |s| > 0 {
        SortedHead(s, time);
      }
      SortedCons(x, s, time);
    } else {
      var rest := InsertByTime(x, s[1..], time);
      InsertSorted(x, s[1..], time);
      SortedHead(s, time);
      forall k | 0 <= k < |rest|
        ensures time(s[0]) <= time(rest[k])
      {
        InsertedFrom(x, s[1..], time, k);
        if rest[k] != x {
          var m :| 0 <= m < |s[1..]| && s[1..][m] == rest[k];
          assert s[m + 1] == rest[k];
        }
      }
      SortedCons(s[0], rest, time);
    }
  }

  /** The sort leaves the entries in ascending order of time. */
  lemma {:induction false} SortByTimeSorted(s: seq<Value>, time: Value -> int)
    ensures SortedByTime(SortByTime(s, time), time)
    decreases |s|
  {
    if |s| > 0 {
      SortByTimeSorted(s[1..], time);
      InsertSorted(s[0], SortByTime(s[1..], time), time);
    }
  }

  /** Filtering a list with one entry in front filters that entry, then the rest. */
  lemma WithTimeCons(x: Value, s: seq<Value>, t: int, time: Value -> int)
    ensures WithTime([x] + s, t, time) == (if time(x) == t then [x] else []) + WithTime(s, t, time)
  {
    assert ([x] + s)[0] == x && ([x] + s)[1..] == s;
  }

  /** Of two lists, one of them empty, either can go first. */
  lemma SwapEmpty<T>(a: seq<T>, b: seq<T>, c: seq<T>)
    requires a == [] || b == []
    ensures b + (a + c) == a + (b + c)
  {
    if a == [] {
      assert a + c == c && a + (b + c) == b + c;
    } else {
      assert b + (a + c) == a + c && b + c == c;
    }
  }

  lemma {:induction false} InsertWithTime(x: Value, s: seq<Value>, t: int, time: Value -> int)
    ensures WithTime(InsertByTime(x, s, time), t, time) == (if time(x) == t then [x] else []) + WithTime(s, t, time)
    decreases |s|
  {
    if |s| == 0 || time(x) <= time(s[0]) {
      assert InsertByTime(x, s, time) == [x] + s;
      WithTimeCons(x, s, t, time);
    } else {
      var rest := InsertByTime(x, s[1..], time);
      InsertWithTime(x, s[1..], t, time);
      assert InsertByTime(x, s, time) == [s[0]] + rest;
      WithTimeCons(s[0], rest, t, time);
      assert s == [s[0]] + s[1..];
      WithTimeCons(s[0], s[1..], t, time);
      var mine: seq<Value> := if time(x) == t then [x] else [];
      var head: seq<Value> := if time(s[0]) == t then [s[0]] else [];
      var tail := WithTime(s[1..], t, time);
      // `x` goes after `s[0]`, so the two are not both of time `t`.
      assert mine == [] || head == [];
      SwapEmpty(mine, head, tail);
    }
  }

  /** The sort is stable: entries of equal time keep the order they came in. */
  lemma {:induction false} SortByTimeStable(s: seq<Value>, t: int, time: Value -> int)
    ensures WithTime(SortByTime(s, time), t, time) == WithTime(s, t, time)
    decreases |s|
  {
    if |s| > 0 {
      SortByTimeStable(s[1..], t, time);
      InsertWithTime(s[0], SortByTime(s[1..], time), t, time);
    }
  }

  /** What `detail()` resolves with, once the last page is in and the entries are sorted. */
  function DetailObject(last: DiaryPage, list: seq<Value>): Value
  {
    Obj([("uid", last.uid), ("region", last.region), ("optional_month", last.optionalMonth), ("nickname", last.nickname),
         ("data_month", last.dataMonth), ("current_page", last.currentPage), ("list", Arr(list))])
  }

  /**
   * The header fields of the result are those of the last page read, and
   * its `list` holds every entry gathered, each as often as it came, in
   * ascending order of time, entries of equal time in the order fetched.
   */
  lemma DetailObjectSpec(seen: seq<DiaryPage>, time: Value -> int, t: int)
    requires |seen| > 0
    ensures var last := seen[|seen| - 1];
      var gathered := Gathered(seen, Entries);
      var v := DetailObject(last, SortByTime(gathered, time));
      && v.Obj?
      && Field(v.fields, "uid") == last.uid
      && Field(v.fields, "region") == last.region
      && Field(v.fields, "optional_month") == last.optionalMonth
      && Field(v.fields, "nickname") == last.nickname
      && Field(v.fields, "data_month") == last.dataMonth
      && Field(v.fields, "current_page") == last.currentPage
      && Field(v.fields, "list").Arr?
      && multiset(Field(v.fields, "list").items) == multiset(gathered)
      && SortedByTime(Field(v.fields, "list").items, time)
      && WithTime(Field(v.fields, "list").items, t, time) == WithTime(gathered, t, time)
  {
    var last := seen[|seen| - 1];
    var gathered := Gathered(seen, Entries);
    var fields := DetailObject(last, SortByTime(gathered, time)).fields;
    assert KeysDistinct(fields);
    GetAt(fields, 0);
    GetAt(fields, 1);
    GetAt(fields, 2);
    GetAt(fields, 3);
    GetAt(fields, 4);
    GetAt(fields, 5);
    GetAt(fields, 6);
    SortByTimeSorted(gathered, time);
    SortByTimeStable(gathered, t, time);
  }

  lemma DetailParamsSpec(region: string, uid: int, month: int, kind: int, page: int)
    ensures var p := DetailParams(region, uid, month, kind, page);
      && KeysDistinct(p)
      && Get(p, "month") == Some(Num(month))
      && Get(p, "type") == Some(Num(kind))
      && Get(p, "current_page") == Some(Num(page))
      && Get(p, "page_size") == Some(Num(PageSize))
  {
    var p := DetailParams(region, uid, month, kind, page);
    assert KeysDistinct(p);
    GetAt(p, 2);
    GetAt(p, 3);
    GetAt(p, 4);
    GetAt(p, 5);
  }

  /** Page `k` (from 0) of the detail asks for `current_page` `k + 1`, whatever came before. */
  lemma DetailAsk(region: string, uid: int, month: int, kind: int, k: nat, prev: Option<DiaryPage>)
    ensures Ask(DetailPager(region, uid, month, kind), k, prev) == DetailParams(region, uid, month, kind, k + 1)
  {
  }

  /**
   * The `k`-th request of the detail (from 0) asks for page `k + 1` of 100
   * entries of the chosen month and kind, with `DS` on.
   */
  lemma DetailPagesCount(region: string, uid: int, month: int, kind: int, send: Exchange, start: Pending, k: nat)
    ensures var st := Asked(DetailPager(region, uid, month, kind), send, start, k);
      && Get(st.params, "current_page") == Some(Num(k + 1))
      && Get(st.params, "page_size") == Some(Num(PageSize))
      && Get(st.params, "month") == Some(Num(month))
      && Get(st.params, "type") == Some(Num(kind))
      && st.ds
  {
    var pg := DetailPager(region, uid, month, kind);
    var before := StateAfter(pg, send, start, k);
    var p := DetailParams(region, uid, month, kind, k + 1);
    AskedShape(pg, send, start, k);
    DetailAsk(region, uid, month, kind, k, PrevPage(pg, send, start, k));
    DetailParamsSpec(region, uid, month, kind, k + 1);
    MergeGet(before.params, p, "current_page");
    MergeGet(before.params, p, "page_size");
    MergeGet(before.params, p, "month");
    MergeGet(before.params, p, "type");
  }

  class DiaryModule {
    const request: HTTPRequest
    const lang: Lang
    const region: Option<string>
    const uid: Option<int>
    /** `DiaryMonthEnum` as the library computes it when loaded (see `MonthEnumAsWritten`). */
    const months: DiaryMonths

    constructor (request: HTTPRequest, lang: Lang, region: Option<string>, uid: Option<int>, loaded: Daily.Date)
      ensures this.request == request && this.lang == lang && this.region == region && this.uid == uid
      ensures this.months == MonthEnumAsWritten(loaded)
    {
      this.request := request;
      this.lang := lang;
      this.region := region;
      this.uid := uid;
      this.months := MonthEnumAsWritten(loaded);
    }

    /**
     * `diaries(month)`, the month defaulting to the current one: a refused
     * call leaves the request as it was; otherwise the reply's `data` is
     * returned as it is, whatever its `retcode`.
     */
    method Diaries(month: Option<int>, send: Exchange) returns (r: Result<Value>)
      modifies request
      ensures var m := month.GetOr(months.current);
        var refusal := Refusal(region, uid, months, m, None);
        refusal.Some? ==> r == Err(refusal.value) && request.State() == old(request.State())
      ensures var m := month.GetOr(months.current);
        Refusal(region, uid, months, m, None).None? ==>
          && request.State() == Queried(old(request.State()), DiariesParams(region.value, uid.value, m), true)
          && var reply := send(Call(DiaryListApi, GET, request.State()));
             r == if reply.Err? then Err(reply.error) else Ok(reply.value.data)
    {
      var m := month.GetOr(months.current);
      var refusal := Refusal(region, uid, months, m, None);
      if refusal.Some? {
        return Err(refusal.value);
      }
      var self := request.SetQueryParams(DiariesParams(region.value, uid.value, m));
      self := self.SetDs(true);
      var res :- send(Call(DiaryListApi, GET, request.State()));
      r := Ok(res.data);
    }

    /**
     * `detail(type, month)`: after the checks, pages 1, 2, 3, ... are asked
     * for until the first page without entries. `seen` holds the pages that
     * read, in order, each but the last with entries. A page that fails
     * rejects the whole call; otherwise the result carries the header fields
     * of the last, empty, page and every entry gathered, sorted by `time`.
     * The server is assumed to send an empty page in the end: otherwise the
     * source loops for ever.
     */
    method Detail(kind: int, month: Option<int>, send: Exchange, time: Value -> int) returns (r: Result<Value>, ghost seen: seq<DiaryPage>)
      requires var m := month.GetOr(months.current);
        Refusal(region, uid, months, m, Some(kind)).None? ==>
          exists k: nat :: StopsAt(DetailPager(region.value, uid.value, m, kind), send, request.State(), k)
      modifies request
      ensures var m := month.GetOr(months.current);
        var refusal := Refusal(region, uid, months, m, Some(kind));
        refusal.Some? ==> r == Err(refusal.value) && seen == [] && request.State() == old(request.State())
      ensures var m := month.GetOr(months.current);
        Refusal(region, uid, months, m, Some(kind)).None? ==>
          var pg := DetailPager(region.value, uid.value, m, kind);
          && Replies(pg, send, old(request.State()), |seen|) == Read(seen)
          && (r.Err? ==>
                && AllWant(pg, seen)
                && PageAt(pg, send, old(request.State()), |seen|) == Err(r.error)
                && request.State() == StateAfter(pg, send, old(request.State()), |seen| + 1))
          && (r.Ok? ==>
                && |seen| > 0 && AllWant(pg, seen[..|seen| - 1]) && |seen[|seen| - 1].list| == 0
                && r.value == DetailObject(seen[|seen| - 1], SortByTime(Gathered(seen, Entries), time))
                && request.State() == StateAfter(pg, send, old(request.State()), |seen|))
    {
      var m := month.GetOr(months.current);
      var refusal := Refusal(region, uid, months, m, Some(kind));
      if refusal.Some? {
        r := Err(refusal.value);
        seen := [];
        return;
      }
      var pages;
      pages, seen := Walk(request, DetailPager(region.value, uid.value, m, kind), send);
      if pages.Err? {
        r := Err(pages.error);
        return;
      }
      r := Ok(DetailObject(pages.value[|pages.value| - 1], SortByTime(Gathered(pages.value, Entries), time)));
    }
  }
}
