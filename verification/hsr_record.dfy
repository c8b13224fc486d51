/**
 * `HSRRecordModule`, the battle chronicle of a Honkai: Star Rail account.
 * Every call throws before touching the request when the region or UID is
 * missing, sets its query with the `DS` flag on, and applies the `retcode`
 * check.
 */
module HsrRecord {
  import opened Wrappers
  import opened Dicts
  import opened Js
  import opened Language
  import opened Request
  import opened Calls

  const RecordCharacterApi: string := "HSR_RECORD_CHARACTER_API"
  const RecordIndexApi: string := "HSR_RECORD_INDEX_API"
  const RecordNoteApi: string := "HSR_RECORD_NOTE_API"
  const RecordForgottenHallApi: string := "HSR_RECORD_FORGOTTEN_HALL_API"

  /** `ForgottenHallScheduleEnum`. */
  const CurrentSchedule: int := 1
  const PreviousSchedule: int := 2

  /** `Object.values(ForgottenHallScheduleEnum).includes(scheduleType)`. */
  predicate ValidSchedule(scheduleType: int)
  {
    scheduleType == CurrentSchedule || scheduleType == PreviousSchedule
  }

  /** The query of `characters()`, `records()` and `note()`. */
  function AccountParams(region: string, uid: int, lang: Lang): Dict<Value>
  {
    [("server", Str(region)), ("role_id", Num(uid)), ("lang", LangParam(lang))]
  }

  /** The query of `forgottenHall(scheduleType)`. */
  function HallParams(region: string, uid: int, scheduleType: int, lang: Lang): Dict<Value>
  {
    [("server", Str(region)), ("role_id", Num(uid)), ("schedule_type", Num(scheduleType)),
     ("lang", LangParam(lang)), ("need_all", Str("true"))]
  }

  /** The hall query asks for every floor, of the schedule asked for, in the module's language. */
  lemma HallParamsSpec(region: string, uid: int, scheduleType: int, lang: Lang)
    ensures var p := HallParams(region, uid, scheduleType, lang);
      && KeysDistinct(p)
      && Get(p, "schedule_type") == Some(Num(scheduleType))
      && Get(p, "lang") == Some(Str(Tag(lang)))
      && Get(p, "need_all") == Some(Str("true"))
  {
    var p := HallParams(region, uid, scheduleType, lang);
    assert KeysDistinct(p);
    GetAt(p, 2);
    GetAt(p, 3);
    GetAt(p, 4);
  }

  /** What `characters()` returns of the checked data: its `avatar_list`. */
  function AvatarList(checked: Result<Value>): (r: Result<Value>)
    ensures checked.Err? ==> r == checked
    ensures checked.Ok? && checked.value.Obj? ==> r == Ok(Field(checked.value.fields, "avatar_list"))
    ensures checked.Ok? && checked.value.IsNullish() ==> r.Err?
  {
    var data :- checked;
    Property(data, "avatar_list")
  }

  class HSRRecordModule {
    const request: HTTPRequest
    const lang: Lang
    const region: Option<string>
    const uid: Option<int>

    constructor (request: HTTPRequest, lang: Lang, region: Option<string>, uid: Option<int>)
      ensures this.request == request && this.lang == lang && this.region == region && this.uid == uid
    {
      this.request := request;
      this.lang := lang;
      this.region := region;
      this.uid := uid;
    }

    /** `characters()`: the `avatar_list` of the checked data. */
    method Characters(send: Exchange) returns (r: Result<Value>)
      modifies request
      ensures !Filled(region, uid) ==> r == Err(MissingUid) && request.State() == old(request.State())
      ensures Filled(region, uid) ==>
        && request.State() == Queried(old(request.State()), AccountParams(region.value, uid.value, lang), true)
        && r == AvatarList(CheckedReply(send(Call(RecordCharacterApi, GET, request.State()))))
    {
      if !Filled(region, uid) {
        return Err(MissingUid);
      }
      var checked := QueryChecked(request, RecordCharacterApi, AccountParams(region.value, uid.value, lang), send);
      r := AvatarList(checked);
    }

    /** `records()`. */
    method Records(send: Exchange) returns (r: Result<Value>)
      modifies request
      ensures !Filled(region, uid) ==> r == Err(MissingUid) && request.State() == old(request.State())
      ensures Filled(region, uid) ==>
        && request.State() == Queried(old(request.State()), AccountParams(region.value, uid.value, lang), true)
        && r == CheckedReply(send(Call(RecordIndexApi, GET, request.State())))
    {
      if !Filled(region, uid) {
        return Err(MissingUid);
      }
      r := QueryChecked(request, RecordIndexApi, AccountParams(region.value, uid.value, lang), send);
    }

    /** `note()`. */
    method Note(send: Exchange) returns (r: Result<Value>)
      modifies request
      ensures !Filled(region, uid) ==> r == Err(MissingUid) && request.State() == old(request.State())
      ensures Filled(region, uid) ==>
        && request.State() == Queried(old(request.State()), AccountParams(region.value, uid.value, lang), true)
        && r == CheckedReply(send(Call(RecordNoteApi, GET, request.State())))
    {
      if !Filled(region, uid) {
        return Err(MissingUid);
      }
      r := QueryChecked(request, RecordNoteApi, AccountParams(region.value, uid.value, lang), send);
    }

    /**
     * `forgottenHall(scheduleType)`, the schedule defaulting to the current
     * one: a schedule other than 1 or 2 is refused before the request is
     * touched, after the region and UID check.
     */
    method ForgottenHall(scheduleType: Option<int>, send: Exchange) returns (r: Result<Value>)
      modifies request
      ensures !Filled(region, uid) ==> r == Err(MissingUid) && request.State() == old(request.State())
      ensures var t := scheduleType.GetOr(CurrentSchedule);
        Filled(region, uid) && !ValidSchedule(t) ==> r == Err(InvalidScheduleType) && request.State() == old(request.State())
      ensures var t := scheduleType.GetOr(CurrentSchedule);
        Filled(region, uid) && ValidSchedule(t) ==>
          && request.State() == Queried(old(request.State()), HallParams(region.value, uid.value, t, lang), true)
          && r == CheckedReply(send(Call(RecordForgottenHallApi, GET, request.State())))
    {
      if !Filled(region, uid) {
        return Err(MissingUid);
      }
      var t := scheduleType.GetOr(CurrentSchedule);
      if !ValidSchedule(t) {
        return Err(InvalidScheduleType);
      }
      r := QueryChecked(request, RecordForgottenHallApi, HallParams(region.value, uid.value, t, lang), send);
    }
  }
}
