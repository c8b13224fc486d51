/**
 * `GenshinRecordModule`, the battle chronicle of a Genshin Impact account.
 * Every call throws before touching the request when the region or UID is
 * missing, fills the request (query parameters for a GET, a body for a
 * POST) with the `DS` flag on, and applies the `retcode` check.
 */
module GiRecord {
  import opened Wrappers
  import opened Dicts
  import opened Js
  import opened Language
  import opened Request
  import opened Calls

  const RecordIndexApi: string := "GENSHIN_RECORD_INDEX_API"
  const RecordCharacterApi: string := "GENSHIN_RECORD_CHARACTER_API"
  const RecordAvatarBasicInfoApi: string := "GENSHIN_RECORD_AVATAR_BASIC_INFO_API"
  const RecordSpiralAbyssApi: string := "GENSHIN_RECORD_SPIRAL_ABYSS_API"
  const RecordDailyNoteApi: string := "GENSHIN_RECORD_DAILY_NOTE_API"

  /** `SpiralAbyssScheduleEnum`. */
  const CurrentSchedule: int := 1
  const PreviousSchedule: int := 2

  /** `Object.values(SpiralAbyssScheduleEnum).includes(scheduleType)`. */
  predicate ValidSchedule(scheduleType: int)
  {
    scheduleType == CurrentSchedule || scheduleType == PreviousSchedule
  }

  /** The query of `records()`. */
  function IndexParams(region: string, uid: int, lang: Lang): Dict<Value>
  {
    [("server", Str(region)), ("role_id", Num(uid)), ("lang", LangParam(lang))]
  }

  /** The body of `characters()`. */
  function CharacterBody(region: string, uid: int): Dict<Value>
  {
    [("server", Str(region)), ("role_id", Num(uid))]
  }

  /** The character IDs as a JSON array. */
  function IdArray(ids: seq<int>): (v: Value)
    ensures v.Arr? && |v.items| == |ids|
    ensures forall i :: 0 <= i < |ids| ==> v.items[i] == Num(ids[i])
  {
    Arr(seq(|ids|, i requires 0 <= i < |ids| => Num(ids[i])))
  }

  /** The body of `charactersSummary(characterIds)`. */
  function SummaryBody(ids: seq<int>, region: string, uid: int): Dict<Value>
  {
    [("character_ids", IdArray(ids)), ("role_id", Num(uid)), ("server", Str(region))]
  }

  /** The query of `spiralAbyss(scheduleType)`. */
  function AbyssParams(region: string, uid: int, scheduleType: int): Dict<Value>
  {
    [("server", Str(region)), ("role_id", Num(uid)), ("schedule_type", Num(scheduleType))]
  }

  /** The query of `dailyNote()`. */
  function NoteParams(region: string, uid: int): Dict<Value>
  {
    [("server", Str(region)), ("role_id", Num(uid))]
  }

  /**
   * The summary body carries the IDs in the order given, next to the UID
   * and the region, and the abyss query carries the schedule asked for.
   */
  lemma RequestShapes(ids: seq<int>, region: string, uid: int, scheduleType: int)
    ensures var b := SummaryBody(ids, region, uid);
      && KeysDistinct(b)
      && Get(b, "character_ids") == Some(IdArray(ids))
      && Get(b, "role_id") == Some(Num(uid))
      && Get(b, "server") == Some(Str(region))
    ensures var p := AbyssParams(region, uid, scheduleType);
      && KeysDistinct(p)
      && Get(p, "schedule_type") == Some(Num(scheduleType))
  {
    var b := SummaryBody(ids, region, uid);
    assert KeysDistinct(b);
    GetAt(b, 0);
    GetAt(b, 1);
    GetAt(b, 2);
    var p := AbyssParams(region, uid, scheduleType);
    assert KeysDistinct(p);
    GetAt(p, 2);
  }

  class GenshinRecordModule {
    const request: HTTPRequest
    const lang: Lang
    const region: Option<string>
    const uid: Option<int>

    constructor (request: HTTPRequest, lang: Lang, region: Option<string>, uid: Option<int>)
      ensures this.request == request && this.lang == lang && this.region == region && this.uid == uid
    {
      this.request := request;
      this.lang := lang;
      this.region := region;
      this.uid := uid;
    }

    /** `records()`. */
    method Records(send: Exchange) returns (r: Result<Value>)
      modifies request
      ensures !Filled(region, uid) ==> r == Err(MissingUid) && request.State() == old(request.State())
      ensures Filled(region, uid) ==>
        && request.State() == Queried(old(request.State()), IndexParams(region.value, uid.value, lang), true)
        && r == CheckedReply(send(Call(RecordIndexApi, GET, request.State())))
    {
      if !Filled(region, uid) {
        return Err(MissingUid);
      }
      r := QueryChecked(request, RecordIndexApi, IndexParams(region.value, uid.value, lang), send);
    }

    /** `characters()`: a POST whose body names the account. */
    method Characters(send: Exchange) returns (r: Result<Value>)
      modifies request
      ensures !Filled(region, uid) ==> r == Err(MissingUid) && request.State() == old(request.State())
      ensures Filled(region, uid) ==>
        && request.State() == Posted(old(request.State()), CharacterBody(region.value, uid.value), true)
        && r == CheckedReply(send(Call(RecordCharacterApi, POST, request.State())))
    {
      if !Filled(region, uid) {
        return Err(MissingUid);
      }
      r := PostChecked(request, RecordCharacterApi, CharacterBody(region.value, uid.value), send);
    }

    /** `charactersSummary(characterIds)`: a POST whose body lists the characters. */
    method CharactersSummary(characterIds: seq<int>, send: Exchange) returns (r: Result<Value>)
      modifies request
      ensures !Filled(region, uid) ==> r == Err(MissingUid) && request.State() == old(request.State())
      ensures Filled(region, uid) ==>
        && request.State() == Posted(old(request.State()), SummaryBody(characterIds, region.value, uid.value), true)
        && r == CheckedReply(send(Call(RecordAvatarBasicInfoApi, POST, request.State())))
    {
      if !Filled(region, uid) {
        return Err(MissingUid);
      }
      r := PostChecked(request, RecordAvatarBasicInfoApi, SummaryBody(characterIds, region.value, uid.value), send);
    }

    /**
     * `spiralAbyss(scheduleType)`, the schedule defaulting to the current
     * one: a schedule other than 1 or 2 is refused before the request is
     * touched, after the region and UID check.
     */
    method SpiralAbyss(scheduleType: Option<int>, send: Exchange) returns (r: Result<Value>)
      modifies request
      ensures !Filled(region, uid) ==> r == Err(MissingUid) && request.State() == old(request.State())
      ensures var t := scheduleType.GetOr(CurrentSchedule);
        Filled(region, uid) && !ValidSchedule(t) ==> r == Err(InvalidScheduleType) && request.State() == old(request.State())
      ensures var t := scheduleType.GetOr(CurrentSchedule);
        Filled(region, uid) && ValidSchedule(t) ==>
          && request.State() == Queried(old(request.State()), AbyssParams(region.value, uid.value, t), true)
          && r == CheckedReply(send(Call(RecordSpiralAbyssApi, GET, request.State())))
    {
      if !Filled(region, uid) {
        return Err(MissingUid);
      }
      var t := scheduleType.GetOr(CurrentSchedule);
      if !ValidSchedule(t) {
        return Err(InvalidScheduleType);
      }
      r := QueryChecked(request, RecordSpiralAbyssApi, AbyssParams(region.value, uid.value, t), send);
    }

    /** `dailyNote()`. */
    method DailyNote(send: Exchange) returns (r: Result<Value>)
      modifies request
      ensures !Filled(region, uid) ==> r == Err(MissingUid) && request.State() == old(request.State())
      ensures Filled(region, uid) ==>
        && request.State() == Queried(old(request.State()), NoteParams(region.value, uid.value), true)
        && r == CheckedReply(send(Call(RecordDailyNoteApi, GET, request.State())))
    {
      if !Filled(region, uid) {
        return Err(MissingUid);
      }
      r := QueryChecked(request, RecordDailyNoteApi, NoteParams(region.value, uid.value), send);
    }
  }
}
