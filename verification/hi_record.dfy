/**
 * `HIRecordModule`, the battle chronicle of a Honkai Impact 3rd account.
 * All five calls have one shape: they throw before touching the request
 * when the region or UID is missing, set `server`, `role_id` and `lang`
 * with the `DS` flag on, and apply the `retcode` check.
 */
module HiRecord {
  import opened Wrappers
  import opened Dicts
  import opened Js
  import opened Language
  import opened Request
  import opened Calls

  const RecordIndexApi: string := "HI_RECORD_INDEX_API"
  const RecordCharacterApi: string := "HI_RECORD_CHARACTER_API"
  const RecordAbyssApi: string := "HI_RECORD_ABYSS_API"
  const RecordArenaApi: string := "HI_RECORD_ARENA_API"
  const RecordElysianApi: string := "HI_RECORD_ELYSIAN_API"

  /** The query of every call. */
  function AccountParams(region: string, uid: int, lang: Lang): Dict<Value>
  {
    [("server", Str(region)), ("role_id", Num(uid)), ("lang", LangParam(lang))]
  }

  /**
   * The query holds exactly `server`, `role_id` and `lang`; once merged,
   * those three take the account's values and every other pending
   * parameter is left as it was.
   */
  lemma AccountParamsSpec(st: Pending, region: string, uid: int, lang: Lang, k: string)
    ensures Keys(AccountParams(region, uid, lang)) == ["server", "role_id", "lang"]
    ensures var params := Queried(st, AccountParams(region, uid, lang), true).params;
      && Get(params, "server") == Some(Str(region))
      && Get(params, "role_id") == Some(Num(uid))
      && Get(params, "lang") == Some(Str(Tag(lang)))
      && (k != "server" && k != "role_id" && k != "lang" ==> Get(params, k) == Get(st.params, k))
  {
    var p := AccountParams(region, uid, lang);
    assert KeysDistinct(p);
    GetAt(p, 0);
    GetAt(p, 1);
    GetAt(p, 2);
    MergeGet(st.params, p, "server");
    MergeGet(st.params, p, "role_id");
    MergeGet(st.params, p, "lang");
    MergeGet(st.params, p, k);
  }

  /** What `characters()` returns of the checked data: its `characters`. */
  function CharacterList(checked: Result<Value>): (r: Result<Value>)
    ensures checked.Err? ==> r == checked
    ensures checked.Ok? && checked.value.Obj? ==> r == Ok(Field(checked.value.fields, "characters"))
    ensures checked.Ok? && checked.value.IsNullish() ==> r.Err?
  {
    var data :- checked;
    Property(data, "characters")
  }

  class HIRecordModule {
    const request: HTTPRequest
    const lang: Lang
    const region: Option<string>
    const uid: Option<int>

    constructor (request: HTTPRequest, lang: Lang, region: Option<string>, uid: Option<int>)
      ensures this.request == request && this.lang == lang && this.region == region && this.uid == uid
    {
      this.request := request;
      this.lang := lang;
      this.region := region;
      this.uid := uid;
    }

    /** The shape all five calls share, on `route`. */
    method Fetch(route: string, send: Exchange) returns (r: Result<Value>)
      modifies request
      ensures !Filled(region, uid) ==> r == Err(MissingUid) && request.State() == old(request.State())
      ensures Filled(region, uid) ==>
        && request.State() == Queried(old(request.State()), AccountParams(region.value, uid.value, lang), true)
        && r == CheckedReply(send(Call(route, GET, request.State())))
    {
      if !Filled(region, uid) {
        return Err(MissingUid);
      }
      r := QueryChecked(request, route, AccountParams(region.value, uid.value, lang), send);
    }

    /** `records()`. */
    method Records(send: Exchange) returns (r: Result<Value>)
      modifies request
      ensures !Filled(region, uid) ==> r == Err(MissingUid) && request.State() == old(request.State())
      ensures Filled(region, uid) ==>
        && request.State() == Queried(old(request.State()), AccountParams(region.value, uid.value, lang), true)
        && r == CheckedReply(send(Call(RecordIndexApi, GET, request.State())))
    {
      r := Fetch(RecordIndexApi, send);
    }

    /** `characters()`: the `characters` of the checked data. */
    method Characters(send: Exchange) returns (r: Result<Value>)
      modifies request
      ensures !Filled(region, uid) ==> r == Err(MissingUid) && request.State() == old(request.State())
      ensures Filled(region, uid) ==>
        && request.State() == Queried(old(request.State()), AccountParams(region.value, uid.value, lang), true)
        && r == CharacterList(CheckedReply(send(Call(RecordCharacterApi, GET, request.State()))))
    {
      var checked := Fetch(RecordCharacterApi, send);
      if !Filled(region, uid) {
        return checked;
      }
      r := CharacterList(checked);
    }

    /** `abyss()`. */
    method Abyss(send: Exchange) returns (r: Result<Value>)
      modifies request
      ensures !Filled(region, uid) ==> r == Err(MissingUid) && request.State() == old(request.State())
      ensures Filled(region, uid) ==>
        && request.State() == Queried(old(request.State()), AccountParams(region.value, uid.value, lang), true)
        && r == CheckedReply(send(Call(RecordAbyssApi, GET, request.State())))
    {
      r := Fetch(RecordAbyssApi, send);
    }

    /** `arena()`. */
    method Arena(send: Exchange) returns (r: Result<Value>)
      modifies request
      ensures !Filled(region, uid) ==> r == Err(MissingUid) && request.State() == old(request.State())
      ensures Filled(region, uid) ==>
        && request.State() == Queried(old(request.State()), AccountParams(region.value, uid.value, lang), true)
        && r == CheckedReply(send(Call(RecordArenaApi, GET, request.State())))
    {
      r := Fetch(RecordArenaApi, send);
    }

    /** `elysian()`. */
    method Elysian(send: Exchange) returns (r: Result<Value>)
      modifies request
      ensures !Filled(region, uid) ==> r == Err(MissingUid) && request.State() == old(request.State())
      ensures Filled(region, uid) ==>
        && request.State() == Queried(old(request.State()), AccountParams(region.value, uid.value, lang), true)
        && r == CheckedReply(send(Call(RecordElysianApi, GET, request.State())))
    {
      r := Fetch(RecordElysianApi, send);
    }
  }
}
