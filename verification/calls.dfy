/**
 * What the client modules share: the `send` they await, seen from the
 * caller, the `!region || !uid` guard, the way they fill the shared request
 * before sending, and the `retcode` check most of them apply to the reply.
 *
 * A caller's `send` is an input: `Exchange` maps the route, the verb and the
 * request state handed to `send` to what the call settles with. What `send`
 * itself then does to the request is `Request.HTTPRequest.Send`'s business
 * and is not replayed by the callers.
 */
module Calls {
  import opened Wrappers
  import opened Dicts
  import opened Js
  import opened Language
  import opened Request

  /** One `send` as the caller issues it: the route constant, the verb and the request as configured. */
  datatype Call = Call(route: string, verb: HttpMethod, request: Pending)

  /** The caller's `send`: the envelope it resolves with, or what it rejects with. */
  type Exchange = Call -> Result<Envelope>

  /** The message of the `retcode` check when the reply carries none. */
  const Unfilled: string := "Failed to retrieve data, please double-check the provided UID."

  /** What the schedule checks of the record modules throw. */
  const InvalidScheduleType: Error := HoyoAPIError("The given scheduleType parameter is invalid !")

  /** `!this.region || !this.uid` is false: a non-empty region and a non-zero UID. */
  predicate Filled(region: Option<string>, uid: Option<int>)
  {
    region.Some? && region.value != "" && uid.Some? && uid.value != 0
  }

  /** `region` as a parameter value: the string, or `null`. */
  function RegionParam(region: Option<string>): Value
  {
    if region.Some? then Str(region.value) else Null
  }

  /** `uid` as a parameter value: the number, or `null`. */
  function UidParam(uid: Option<int>): Value
  {
    if uid.Some? then Num(uid.value) else Null
  }

  /** A language as a parameter value: its tag. */
  function LangParam(lang: Lang): Value
  {
    Str(Tag(lang))
  }

  /** `setQueryParams(p).setDs(flag)` on request state `st`. */
  function Queried(st: Pending, p: Dict<Value>, flag: bool): (r: Pending)
    ensures r.body == st.body && r.headers == st.headers && r.retries == st.retries
  {
    st.(params := Merge(st.params, p), ds := flag)
  }

  /** `setBody(b).setDs(flag)` on request state `st`. */
  function Posted(st: Pending, b: Dict<Value>, flag: bool): (r: Pending)
    ensures r.params == st.params && r.headers == st.headers && r.retries == st.retries
  {
    st.(body := Merge(st.body, b), ds := flag)
  }

  /**
   * `if (res.retcode !== 0) throw new HoyoAPIError(res.message ?? …)`,
   * otherwise `res.data`. Only the number zero passes; the error keeps the
   * reply's message, or the stock text when the reply has none.
   */
  function Checked(res: Envelope): (r: Result<Value>)
    ensures r.Ok? <==> res.retcode == Num(0)
    ensures r.Ok? ==> r.value == res.data
    ensures r.Err? && !res.message.IsNullish() ==> r.error == HoyoAPIError(ToString(res.message))
    ensures r.Err? && res.message.IsNullish() ==> r.error == HoyoAPIError(Unfilled)
  {
    if res.retcode != Num(0) then Err(HoyoAPIError(ToString(OrElse(res.message, Str(Unfilled)))))
    else Ok(res.data)
  }

  /** A reply after the `retcode` check: a failed `send` fails as it is, a reply passes only with `retcode` zero. */
  function CheckedReply(reply: Result<Envelope>): (r: Result<Value>)
    ensures reply.Err? ==> r == Err(reply.error)
    ensures r.Ok? <==> reply.Ok? && reply.value.retcode == Num(0)
    ensures r.Ok? ==> r.value == reply.value.data
  {
    var res :- reply;
    Checked(res)
  }

  /** `setQueryParams(p).setDs()`, a GET of `route`, and the `retcode` check. */
  method QueryChecked(request: HTTPRequest, route: string, p: Dict<Value>, send: Exchange) returns (r: Result<Value>)
    modifies request
    ensures request.State() == Queried(old(request.State()), p, true)
    ensures r == CheckedReply(send(Call(route, GET, request.State())))
  {
    var self := request.SetQueryParams(p);
    self := self.SetDs(true);
    r := CheckedReply(send(Call(route, GET, request.State())));
  }

  /** `setBody(b).setDs()`, a POST to `route`, and the `retcode` check. */
  method PostChecked(request: HTTPRequest, route: string, b: Dict<Value>, send: Exchange) returns (r: Result<Value>)
    modifies request
    ensures request.State() == Posted(old(request.State()), b, true)
    ensures r == CheckedReply(send(Call(route, POST, request.State())))
  {
    var self := request.SetBody(b);
    self := self.SetDs(true);
    r := CheckedReply(send(Call(route, POST, request.State())));
  }

  /**
   * The stock message is never used on an envelope `send` builds: its
   * `message` defaults to `''`, never `null` or `undefined`, so the error
   * carries the reply's own message.
   */
  lemma FallbackUnreachable(decoded: Value)
    ensures var res := EnvelopeOf(decoded);
      Checked(res).Err? ==> Checked(res).error == HoyoAPIError(ToString(res.message))
  {
  }

  /** A `retcode` that is not a number, such as the string `"0"`, fails the strict check. */
  lemma StrictZero(data: Value, message: Value)
    ensures Checked(Envelope(data, message, Str("0"))).Err?
    ensures Checked(Envelope(data, message, Num(0))) == Ok(data)
  {
  }
}
