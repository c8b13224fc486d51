/**
 * `HTTPRequest`: the shared request builder every client module configures
 * before calling `send`. It keeps pending query parameters, a pending body,
 * the header set, the dynamic-secret flag and a retry counter.
 *
 * The network exchange is an input: `Env.replies(n)` is what the server
 * (after decompression and JSON decoding) answers to the `n`-th dispatch of
 * one `send` call, and the clock, the random draws and MD5 used for the
 * `DS` header of that dispatch are inputs in the same way.
 */
module Request {
  import opened Wrappers
  import opened Strings
  import opened Dicts
  import opened Js
  import opened RequestHelper

  datatype HttpMethod = GET | POST

  /** `new URL(url)`: where the request goes and the search parameters the URL already carries. */
  datatype Target = Target(address: string, search: seq<(string, string)>)

  /** What one dispatch yields. */
  datatype Reply =
    /** The response stream emitted `'error'`. */
    | StreamError(message: string)
    /**
     * The response ended: status code and message (either may be absent),
     * the `content-type` header, and the decoded body (`None` when the text
     * is not JSON, so that `JSON.parse` throws).
     */
    | Response(status: Option<int>, statusMessage: Option<string>, contentType: Option<string>, json: Option<Value>)

  /** `{ data, message, retcode }`, what `send` resolves with. */
  datatype Envelope = Envelope(data: Value, message: Value, retcode: Value)

  /**
   * How `send` settles: with an envelope, with a rejection, or `Escaped` when
   * `JSON.parse` throws inside the response listener, outside the promise
   * (neither resolved nor rejected by `send` itself).
   */
  datatype Outcome = Resolved(envelope: Envelope) | Rejected(error: Error) | Escaped

  /** One request put on the wire: method, address, query pairs, headers and, for POST, the JSON body. */
  datatype Dispatch = Dispatch(verb: HttpMethod, address: string, query: seq<(string, string)>, headers: Dict<string>, body: Option<Dict<Value>>)

  /** The environment of one `send` call, indexed by dispatch number. */
  datatype Env = Env(replies: nat -> Reply, clock: nat -> int, draws: nat -> nat -> LetterIndex, md5: string -> string)

  /** What a reply leads to: another attempt, if the counter allows, or settling. */
  datatype Judgement = Retry(envelope: Envelope) | Settle(outcome: Outcome)

  /** The fields of an `HTTPRequest` as a value. */
  datatype Pending = Pending(params: Dict<Value>, body: Dict<Value>, headers: Dict<string>, ds: bool, retries: int)

  /** A whole `send` call: how it settles, the request state afterwards and every dispatch in order. */
  datatype Run = Run(outcome: Outcome, final: Pending, sent: seq<Dispatch>)

  const JsonType: string := "application/json"
  const NotJson: string := "Response Content-Type is not application/json"
  /** The `retcode` the server answers when it wants the call repeated. */
  const Busy: int := -2016
  /** `retries` may reach this value and still trigger one more attempt. */
  const MaxRetries: int := 60

  /** The headers every request starts with. */
  const DefaultHeaders: Dict<string> := [
    ("Accept", "application/json, text/plain, */*"),
    ("Content-Type", "application/json"),
    ("Accept-Encoding", "gzip, deflate, br"),
    ("sec-ch-ua", "\"Chromium\";v=\"112\", \"Microsoft Edge\";v=\"112\", \"Not:A-Brand\";v=\"99\""),
    ("sec-ch-ua-mobile", "?0"),
    ("sec-ch-ua-platform", "\"Windows\""),
    ("sec-fetch-dest", "empty"),
    ("sec-fetch-mode", "cors"),
    ("sec-fetch-site", "same-site"),
    ("user-agent", "Mozilla/5.0 (Windows NT 10.0; Win64; x64) AppleWebKit/537.36 (KHTML, like Gecko) "
      + "Chrome/112.0.0.0 Safari/537.36 Edg/112.0.1722.46"),
    ("x-rpc-app_version", "1.5.0"),
    ("x-rpc-client_type", "5"),
    ("x-rpc-language", "en-us")
  ]

  /** `v?.key` read as a value: `undefined` on `null`/`undefined` and on primitives. */
  function Member(v: Value, key: string): Value
  {
    if v.Obj? then Field(v.fields, key) else Undefined
  }

  /** `v ?? d`. */
  function OrElse(v: Value, d: Value): Value
  {
    if v.IsNullish() then d else v
  }

  /** The headers of a fresh request: `Cookie` is added when `options?.cookie` is truthy. */
  function InitialHeaders(options: Value): Dict<string>
  {
    var cookie := Member(options, "cookie");
    if Truthy(cookie) then Put(DefaultHeaders, "Cookie", ToString(cookie)) else DefaultHeaders
  }

  /** The value appended for one pending parameter: `v?.toString() ?? ''`. */
  function Rendered(v: Value): string
  {
    if v.IsNullish() then "" else ToString(v)
  }

  /** The search parameters of the URL followed by one pair per pending parameter, in key order. */
  function QueryOf(search: seq<(string, string)>, params: Dict<Value>): seq<(string, string)>
  {
    search + seq(|params|, i requires 0 <= i < |params| => (params[i].0, Rendered(params[i].1)))
  }

  /** The envelope built from a decoded body, with its three defaults. */
  function EnvelopeOf(response: Value): (e: Envelope)
    ensures !e.data.Undefined? && !e.message.IsNullish() && !e.retcode.IsNullish()
  {
    Envelope(
      OrElse(Member(response, "data"), Null),
      OrElse(Member(response, "message"), Str("")),
      OrElse(Member(response, "retcode"), Num(-1)))
  }

  /** `req.status.message ?? result.message`, as the text of the error. */
  function StatusText(statusMessage: Option<string>, message: Value): string
  {
    if statusMessage.Some? then statusMessage.value else ToString(message)
  }

  /** Whether a status code counts as success: `[200, 201].includes(code)`. */
  predicate StatusOk(code: int)
  {
    code == 200 || code == 201
  }

  /**
   * The end handler and the status check of `send`: a stream error rejects
   * with its message, a content type other than exactly `application/json`
   * rejects with a plain object, undecodable JSON escapes, a status outside
   * 200/201 (an absent one reads -1) rejects with `HoyoAPIError`, a
   * `retcode` of -2016 asks for another attempt, anything else resolves.
   */
  function Judge(reply: Reply): Judgement
  {
    match reply
    case StreamError(message) => Settle(Rejected(HoyoAPIError(message)))
    case Response(status, statusMessage, contentType, json) =>
      if contentType != Some(JsonType) then Settle(Rejected(PlainRejection(NotJson)))
      else if json.None? then Settle(Escaped)
      else
        var e := EnvelopeOf(json.value);
        if !StatusOk(status.GetOr(-1)) then Settle(Rejected(HoyoAPIError(StatusText(statusMessage, e.message))))
        else if e.retcode == Num(Busy) then Retry(e)
        else Settle(Resolved(e))
  }

  /** How a call settles on a judgement when no further attempt is made. */
  function Verdict(j: Judgement): Outcome
  {
    match j
    case Retry(e) => Resolved(e)
    case Settle(outcome) => outcome
  }

  /** The judgement on each dispatch of a call. */
  function Judgements(env: Env): nat -> Judgement
  {
    (n: nat) => Judge(env.replies(n))
  }

  /** The `DS` value `generateDS` produces at each dispatch of a call. */
  function Secrets(env: Env): nat -> string
  {
    (n: nat) => DynamicSecret(env.clock(n), env.draws(n), env.md5)
  }

  /** The headers of dispatch `n`: a fresh `DS` is written when the flag is set. */
  function DsHeaders(st: Pending, secrets: nat -> string, n: nat): Dict<string>
  {
    if st.ds then Put(st.headers, "DS", secrets(n)) else st.headers
  }

  /** A bound on the attempts still possible from a retry count. */
  function AttemptsLeft(retries: int): nat
  {
    if retries <= MaxRetries then MaxRetries + 1 - retries else 0
  }

  /** The dispatch made from state `st` as dispatch number `n`. */
  function Dispatched(st: Pending, target: Target, m: HttpMethod, secrets: nat -> string, n: nat): Dispatch
  {
    Dispatch(m, target.address, QueryOf(target.search, st.params), DsHeaders(st, secrets, n),
      if m == POST then Some(st.body) else None)
  }

  /** The request state right after dispatch: parameters and body emptied, the headers as sent. */
  function Cleared(st: Pending, secrets: nat -> string, n: nat): Pending
  {
    Pending([], [], DsHeaders(st, secrets, n), st.ds, st.retries)
  }

  /** The state the next attempt starts from: the counter one higher. */
  function Next(st: Pending, secrets: nat -> string, n: nat): Pending
  {
    Cleared(st, secrets, n).(retries := st.retries + 1)
  }

  /** The state a call is left in when it settles at dispatch `n`: a resolved call resets the counter. */
  function Settled(st: Pending, judged: nat -> Judgement, secrets: nat -> string, n: nat): Pending
  {
    if Verdict(judged(n)).Resolved? then Cleared(st, secrets, n).(retries := 1) else Cleared(st, secrets, n)
  }

  /** Whether dispatch `n` is followed by another: a retry judgement while the counter is at most 60. */
  predicate Again(st: Pending, judged: nat -> Judgement, n: nat)
  {
    judged(n).Retry? && st.retries <= MaxRetries
  }

  /**
   * `send(url, method)` from request state `st`, starting at dispatch `n`,
   * with `judged(k)` the judgement on the reply to dispatch `k` and
   * `secrets(k)` the secret generated for it: dispatch, clear the pending
   * parameters and body, then either try again or settle. A resolved call
   * resets the counter.
   */
  function SendFrom(st: Pending, target: Target, m: HttpMethod, judged: nat -> Judgement, secrets: nat -> string, n: nat): Run
    decreases AttemptsLeft(st.retries)
  {
    var d := Dispatched(st, target, m, secrets, n);
    if Again(st, judged, n) then
      var rest := SendFrom(Next(st, secrets, n), target, m, judged, secrets, n + 1);
      Run(rest.outcome, rest.final, [d] + rest.sent)
    else
      Run(Verdict(judged(n)), Settled(st, judged, secrets, n), [d])
  }

  /** The `forEach` that appends the pending parameters to the URL's own. */
  method BuildQuery(search: seq<(string, string)>, params: Dict<Value>) returns (q: seq<(string, string)>)
    ensures q == QueryOf(search, params)
  {
    q := search;
    for i := 0 to |params|
      invariant |q| == |search| + i && q[..|search|] == search
      invariant forall j :: 0 <= j < i ==> q[|search| + j] == (params[j].0, Rendered(params[j].1))
    {
      q := q + [(params[i].0, Rendered(params[i].1))];
    }
  }

  class HTTPRequest {
    var params: Dict<Value>
    var body: Dict<Value>
    var headers: Dict<string>
    var ds: bool
    var retries: int

    function State(): Pending
      reads this
    {
      Pending(params, body, headers, ds, retries)
    }

    /** `new HTTPRequest(options)`. */
    constructor (options: Value)
      ensures State() == Pending([], [], InitialHeaders(options), false, 1)
    {
      params := [];
      body := [];
      var cookie := Member(options, "cookie");
      headers := if Truthy(cookie) then Put(DefaultHeaders, "Cookie", ToString(cookie)) else DefaultHeaders;
      ds := false;
      retries := 1;
    }

    /** `setQueryParams(p)`: `{ ...params, ...p }`, returning the same request. */
    method SetQueryParams(p: Dict<Value>) returns (self: HTTPRequest)
      modifies this
      ensures self == this
      ensures State() == old(State()).(params := Merge(old(params), p))
    {
      params := Merge(params, p);
      self := this;
    }

    /** `setBody(data)`: `{ ...body, ...data }`, returning the same request. */
    method SetBody(data: Dict<Value>) returns (self: HTTPRequest)
      modifies this
      ensures self == this
      ensures State() == old(State()).(body := Merge(old(body), data))
    {
      body := Merge(body, data);
      self := this;
    }

    /** `setReferer(url)`: the same text as `Referer` and as `Origin`. */
    method SetReferer(url: string) returns (self: HTTPRequest)
      modifies this
      ensures self == this
      ensures State() == old(State()).(headers := Put(Put(old(headers), "Referer", url), "Origin", url))
    {
      headers := Put(headers, "Referer", url);
      headers := Put(headers, "Origin", url);
      self := this;
    }

    /** `setLang(lang)`: the `x-rpc-language` header. */
    method SetLang(lang: string) returns (self: HTTPRequest)
      modifies this
      ensures self == this
      ensures State() == old(State()).(headers := Put(old(headers), "x-rpc-language", lang))
    {
      headers := Put(headers, "x-rpc-language", lang);
      self := this;
    }

    /** `setDs(flag)`. */
    method SetDs(flag: bool) returns (self: HTTPRequest)
      modifies this
      ensures self == this
      ensures State() == old(State()).(ds := flag)
    {
      ds := flag;
      self := this;
    }

    /**
     * One dispatch of `send`: a fresh `DS` header when the flag is set, the
     * query built, the request put on the wire, then the pending parameters
     * and body emptied.
     */
    method DispatchOnce(target: Target, m: HttpMethod, env: Env, n: nat) returns (d: Dispatch)
      modifies this
      ensures d == Dispatched(old(State()), target, m, Secrets(env), n)
      ensures State() == Cleared(old(State()), Secrets(env), n)
    {
      if ds {
        var secret := GenerateDS(env.clock(n), env.draws(n), env.md5);
        headers := Put(headers, "DS", secret);
      }
      var query := BuildQuery(target.search, params);
      d := Dispatch(m, target.address, query, headers, if m == POST then Some(body) else None);
      body := [];
      params := [];
    }

    /**
     * One attempt of `send`: dispatch, judge the reply, then either count
     * the retry or settle, resetting the counter and emptying what is
     * pending when the call resolves.
     */
    method Attempt(target: Target, m: HttpMethod, env: Env, n: nat) returns (d: Dispatch, again: bool, outcome: Outcome)
      modifies this
      ensures d == Dispatched(old(State()), target, m, Secrets(env), n)
      ensures again == Again(old(State()), Judgements(env), n)
      ensures again ==> State() == Next(old(State()), Secrets(env), n)
      ensures !again ==> outcome == Verdict(Judgements(env)(n)) && State() == Settled(old(State()), Judgements(env), Secrets(env), n)
    {
      d := DispatchOnce(target, m, env, n);
      var judgement := Judge(env.replies(n));
      assert judgement == Judgements(env)(n);
      again := judgement.Retry? && retries <= MaxRetries;
      outcome := Verdict(judgement);
      if again {
        retries := retries + 1;
      } else if outcome.Resolved? {
        retries := 1;
        body := [];
        params := [];
      }
    }

    /**
     * `send(url, method)`: the recursive retry of the source as a loop, one
     * attempt per iteration. Returns how the call settles and the dispatches made.
     */
    method Send(target: Target, m: HttpMethod, env: Env) returns (outcome: Outcome, sent: seq<Dispatch>)
      modifies this
      ensures Run(outcome, State(), sent) == SendFrom(old(State()), target, m, Judgements(env), Secrets(env), 0)
    {
      var n: nat := 0;
      sent := [];
      ghost var judged := Judgements(env);
      ghost var secrets := Secrets(env);
      ghost var cur := State();
      ghost var whole := SendFrom(cur, target, m, judged, secrets, 0);
      while true
        invariant State() == cur
        invariant var rest := SendFrom(cur, target, m, judged, secrets, n);
          whole == Run(rest.outcome, rest.final, sent + rest.sent)
        decreases AttemptsLeft(cur.retries)
      {
        var d, again, settled := Attempt(target, m, env, n);
        ghost var earlier := sent;
        sent := sent + [d];
        if again {
          SendAgain(cur, target, m, judged, secrets, n);
          cur := Next(cur, secrets, n);
          n := n + 1;
          AppendAssociates(earlier, [d], SendFrom(cur, target, m, judged, secrets, n).sent);
        } else {
          SendSettles(cur, target, m, judged, secrets, n);
          AppendAssociates(earlier, [d], []);
          return settled, sent;
        }
      }
    }
  }

  /** After `setReferer(url)` both `Referer` and `Origin` read `url`; every other header is as before. */
  lemma RefererHeaders(headers: Dict<string>, url: string, k: string)
    ensures var h := Put(Put(headers, "Referer", url), "Origin", url);
      && Get(h, "Referer") == Some(url)
      && Get(h, "Origin") == Some(url)
      && (k != "Referer" && k != "Origin" ==> Get(h, k) == Get(headers, k))
  {
    var once := Put(headers, "Referer", url);
    GetPut(headers, "Referer", url, k);
    GetPut(headers, "Referer", url, "Referer");
    GetPut(once, "Origin", url, k);
    GetPut(once, "Origin", url, "Referer");
    GetPut(once, "Origin", url, "Origin");
  }

  /** `setLang(lang)` changes the language header and no other. */
  lemma LangHeader(headers: Dict<string>, lang: string, k: string)
    ensures Get(Put(headers, "x-rpc-language", lang), "x-rpc-language") == Some(lang)
    ensures k != "x-rpc-language" ==> Get(Put(headers, "x-rpc-language", lang), k) == Get(headers, k)
  {
    GetPut(headers, "x-rpc-language", lang, k);
    GetPut(headers, "x-rpc-language", lang, "x-rpc-language");
  }

  /**
   * A fresh request carries a `Cookie` header exactly when `options.cookie`
   * is truthy; a plain string as options never yields one.
   */
  lemma InitialCookie(options: Value)
    ensures Get(InitialHeaders(options), "Cookie")
         == if Truthy(Member(options, "cookie")) then Some(ToString(Member(options, "cookie"))) else None
    ensures options.Str? ==> Get(InitialHeaders(options), "Cookie") == None
  {
    var cookie := Member(options, "cookie");
    assert "Cookie" !in Keys(DefaultHeaders);
    if Truthy(cookie) {
      GetPut(DefaultHeaders, "Cookie", ToString(cookie), "Cookie");
    }
  }

  /**
   * The query is the URL's own pairs followed by one pair per pending key,
   * in key order, with `null` and `undefined` rendered as empty text.
   */
  lemma QueryShape(search: seq<(string, string)>, params: Dict<Value>)
    ensures var q := QueryOf(search, params);
      && |q| == |search| + |params|
      && q[..|search|] == search
      && (forall i :: 0 <= i < |params| ==> q[|search| + i].0 == params[i].0)
      && (forall i :: 0 <= i < |params| && params[i].1.IsNullish() ==> q[|search| + i].1 == "")
      && (forall i :: 0 <= i < |params| && params[i].1.Str? ==> q[|search| + i].1 == params[i].1.s)
  {
  }

  /** The defaults of the envelope: present, non-nullish fields are kept, the rest default. */
  lemma EnvelopeDefaults(response: Value)
    ensures var e := EnvelopeOf(response);
      && (e.data == Null <==> Member(response, "data").IsNullish() || Member(response, "data") == Null)
      && (!Member(response, "message").IsNullish() ==> e.message == Member(response, "message"))
      && (Member(response, "message").IsNullish() ==> e.message == Str(""))
      && (!Member(response, "retcode").IsNullish() ==> e.retcode == Member(response, "retcode"))
      && (Member(response, "retcode").IsNullish() ==> e.retcode == Num(-1))
    ensures !response.Obj? ==> EnvelopeOf(response) == Envelope(Null, Str(""), Num(-1))
  {
  }

  /** An empty JSON object gives `{ data: null, message: '', retcode: -1 }`. */
  lemma EmptyBodyEnvelope()
    ensures EnvelopeOf(Obj([])) == Envelope(Null, Str(""), Num(-1))
  {
  }

  /** One unfolding of `SendFrom` when no further attempt follows. */
  lemma SendSettles(st: Pending, target: Target, m: HttpMethod, judged: nat -> Judgement, secrets: nat -> string, n: nat)
    requires !Again(st, judged, n)
    ensures SendFrom(st, target, m, judged, secrets, n)
         == Run(Verdict(judged(n)), Settled(st, judged, secrets, n), [Dispatched(st, target, m, secrets, n)])
  {
  }

  /** One unfolding of `SendFrom` when another attempt follows. */
  lemma SendAgain(st: Pending, target: Target, m: HttpMethod, judged: nat -> Judgement, secrets: nat -> string, n: nat)
    requires Again(st, judged, n)
    ensures var rest := SendFrom(Next(st, secrets, n), target, m, judged, secrets, n + 1);
      SendFrom(st, target, m, judged, secrets, n) == Run(rest.outcome, rest.final, [Dispatched(st, target, m, secrets, n)] + rest.sent)
  {
  }

  lemma TailAt<T>(a: seq<T>, b: seq<T>, i: nat)
    requires |a| == 1 && 0 < i < 1 + |b|
    ensures (a + b)[i] == b[i - 1]
  {
  }

  /**
   * The judgement on a reply: a stream error rejects with its message, a
   * content type other than exactly `application/json` rejects with a plain
   * object, undecodable JSON escapes, a status outside 200/201 rejects with
   * `HoyoAPIError` (an absent status among them), and a retry is asked for
   * exactly when a JSON reply with a good status has `retcode` -2016.
   */
  lemma JudgeCases(reply: Reply)
    ensures reply.StreamError? ==> Judge(reply) == Settle(Rejected(HoyoAPIError(reply.message)))
    ensures reply.Response? && reply.contentType != Some(JsonType) ==> Judge(reply) == Settle(Rejected(PlainRejection(NotJson)))
    ensures reply.Response? && reply.contentType == Some(JsonType) && reply.json.None? ==> Judge(reply) == Settle(Escaped)
    ensures reply.Response? && reply.contentType == Some(JsonType) && reply.json.Some? && !StatusOk(reply.status.GetOr(-1))
      ==> Judge(reply).Settle? && Judge(reply).outcome.Rejected? && Judge(reply).outcome.error.HoyoAPIError?
    ensures reply.Response? && reply.status.None? ==> !Verdict(Judge(reply)).Resolved?
    ensures Verdict(Judge(reply)).Resolved? <==>
      reply.Response? && reply.contentType == Some(JsonType) && reply.json.Some? && StatusOk(reply.status.GetOr(-1))
    ensures Verdict(Judge(reply)).Resolved? ==> Verdict(Judge(reply)).envelope == EnvelopeOf(reply.json.value)
    ensures Judge(reply).Retry? <==> Verdict(Judge(reply)).Resolved? && Verdict(Judge(reply)).envelope.retcode == Num(Busy)
  {
  }

  /**
   * One `send` call dispatches at least once and at most `61 - retries`
   * more times; from a valid counter (at least 1) that is at most 61.
   */
  lemma {:induction false} DispatchBound(st: Pending, target: Target, m: HttpMethod, judged: nat -> Judgement, secrets: nat -> string, n: nat)
    ensures var r := SendFrom(st, target, m, judged, secrets, n);
      1 <= |r.sent| <= AttemptsLeft(st.retries) + 1
    ensures st.retries >= 1 ==> |SendFrom(st, target, m, judged, secrets, n).sent| <= 61
    decreases AttemptsLeft(st.retries)
  {
    if Again(st, judged, n) {
      DispatchBound(Next(st, secrets, n), target, m, judged, secrets, n + 1);
    }
  }

  /**
   * The call settles on the judgement of its last reply; every reply before
   * that asked for a retry, and the last one did not, unless the counter had
   * passed 60 by then.
   */
  lemma {:induction false} RetryOnlyWhenBusy(st: Pending, target: Target, m: HttpMethod, judged: nat -> Judgement, secrets: nat -> string, n: nat)
    ensures var r := SendFrom(st, target, m, judged, secrets, n);
      && |r.sent| >= 1
      && r.outcome == Verdict(judged(n + |r.sent| - 1))
      && (forall k :: n <= k < n + |r.sent| - 1 ==> judged(k).Retry?)
      && (judged(n + |r.sent| - 1).Retry? ==> st.retries + |r.sent| - 1 > MaxRetries)
    decreases AttemptsLeft(st.retries)
  {
    if Again(st, judged, n) {
      RetryOnlyWhenBusy(Next(st, secrets, n), target, m, judged, secrets, n + 1);
    }
  }

  /** A dispatch to `target` by `m` that adds no parameters and, for POST, sends an empty body. */
  predicate Bare(d: Dispatch, target: Target, m: HttpMethod)
  {
    && d.verb == m && d.address == target.address
    && d.query == target.search
    && d.body == (if m == POST then Some([]) else None)
  }

  /**
   * The first dispatch carries the pending parameters and, for POST, the
   * pending body; every later one carries only the URL's own parameters
   * and, for POST, an empty body.
   */
  lemma DispatchPayloads(st: Pending, target: Target, m: HttpMethod, judged: nat -> Judgement, secrets: nat -> string, n: nat)
    ensures var r := SendFrom(st, target, m, judged, secrets, n);
      && |r.sent| >= 1
      && r.sent[0].verb == m && r.sent[0].address == target.address
      && r.sent[0].query == QueryOf(target.search, st.params)
      && r.sent[0].body == (if m == POST then Some(st.body) else None)
      && (forall d :: d in r.sent[1..] ==> Bare(d, target, m))
  {
    if Again(st, judged, n) {
      var next := Next(st, secrets, n);
      PayloadsOfRest(next, target, m, judged, secrets, n + 1);
      assert SendFrom(st, target, m, judged, secrets, n).sent[1..] == SendFrom(next, target, m, judged, secrets, n + 1).sent;
    }
  }

  /** Dispatches made from a state with nothing pending carry nothing added. */
  lemma {:induction false} PayloadsOfRest(st: Pending, target: Target, m: HttpMethod, judged: nat -> Judgement, secrets: nat -> string, n: nat)
    requires st.params == [] && st.body == []
    ensures forall d :: d in SendFrom(st, target, m, judged, secrets, n).sent ==> Bare(d, target, m)
    decreases AttemptsLeft(st.retries)
  {
    assert QueryOf(target.search, []) == target.search;
    if Again(st, judged, n) {
      PayloadsOfRest(Next(st, secrets, n), target, m, judged, secrets, n + 1);
    }
  }

  /** The first dispatch of a call is made from the state the call starts in. */
  lemma FirstSent(st: Pending, target: Target, m: HttpMethod, judged: nat -> Judgement, secrets: nat -> string, n: nat)
    ensures var r := SendFrom(st, target, m, judged, secrets, n);
      |r.sent| >= 1 && r.sent[0] == Dispatched(st, target, m, secrets, n)
  {
  }

  /** Dispatch `i > 0` of a call is dispatch `i - 1` of the attempt that follows the first. */
  lemma LaterSent(st: Pending, target: Target, m: HttpMethod, judged: nat -> Judgement, secrets: nat -> string, n: nat, i: nat)
    requires 0 < i < |SendFrom(st, target, m, judged, secrets, n).sent|
    ensures Again(st, judged, n)
    ensures var rest := SendFrom(Next(st, secrets, n), target, m, judged, secrets, n + 1);
      i - 1 < |rest.sent| && SendFrom(st, target, m, judged, secrets, n).sent[i] == rest.sent[i - 1]
  {
    SendAgain(st, target, m, judged, secrets, n);
    var rest := SendFrom(Next(st, secrets, n), target, m, judged, secrets, n + 1);
    TailAt([Dispatched(st, target, m, secrets, n)], rest.sent, i);
  }

  /** With the flag set, the first dispatch carries the secret generated for it. */
  lemma FirstSecret(st: Pending, target: Target, m: HttpMethod, judged: nat -> Judgement, secrets: nat -> string, n: nat)
    requires st.ds
    ensures Get(SendFrom(st, target, m, judged, secrets, n).sent[0].headers, "DS") == Some(secrets(n))
  {
    FirstSent(st, target, m, judged, secrets, n);
    GetPut(st.headers, "DS", secrets(n), "DS");
  }

  /** With the flag set, dispatch `n + i` carries the secret generated for it. */
  lemma {:induction false} FreshSecretPerDispatch(st: Pending, target: Target, m: HttpMethod, judged: nat -> Judgement, secrets: nat -> string, n: nat, i: nat)
    requires st.ds && i < |SendFrom(st, target, m, judged, secrets, n).sent|
    ensures Get(SendFrom(st, target, m, judged, secrets, n).sent[i].headers, "DS") == Some(secrets(n + i))
    decreases i
  {
    if i == 0 {
      FirstSecret(st, target, m, judged, secrets, n);
    } else {
      LaterSent(st, target, m, judged, secrets, n, i);
      FreshSecretPerDispatch(Next(st, secrets, n), target, m, judged, secrets, n + 1, i - 1);
      assert secrets((n + 1) + (i - 1)) == secrets(n + i);
    }
  }

  /**
   * With the flag clear, every dispatch carries the headers as they were,
   * including any `DS` left from an earlier call, and they stay so.
   */
  lemma {:induction false} NoSecretWhenClear(st: Pending, target: Target, m: HttpMethod, judged: nat -> Judgement, secrets: nat -> string, n: nat)
    requires !st.ds
    ensures var r := SendFrom(st, target, m, judged, secrets, n);
      && r.final.headers == st.headers && !r.final.ds
      && forall d :: d in r.sent ==> d.headers == st.headers
    decreases AttemptsLeft(st.retries)
  {
    if Again(st, judged, n) {
      NoSecretWhenClear(Next(st, secrets, n), target, m, judged, secrets, n + 1);
    }
  }

  /** `send` changes no header but `DS`: every dispatch carries the other headers as they were. */
  lemma {:induction false} OtherHeadersSent(st: Pending, target: Target, m: HttpMethod, judged: nat -> Judgement, secrets: nat -> string, n: nat, i: nat, k: string)
    requires k != "DS" && i < |SendFrom(st, target, m, judged, secrets, n).sent|
    ensures Get(SendFrom(st, target, m, judged, secrets, n).sent[i].headers, k) == Get(st.headers, k)
    decreases i
  {
    if st.ds {
      GetPut(st.headers, "DS", secrets(n), k);
    }
    if i == 0 {
      FirstSent(st, target, m, judged, secrets, n);
    } else {
      LaterSent(st, target, m, judged, secrets, n, i);
      OtherHeadersSent(Next(st, secrets, n), target, m, judged, secrets, n + 1, i - 1, k);
    }
  }

  /** `send` never changes the flag and leaves the headers as they were last sent. */
  lemma {:induction false} FinalHeaders(st: Pending, target: Target, m: HttpMethod, judged: nat -> Judgement, secrets: nat -> string, n: nat)
    ensures var r := SendFrom(st, target, m, judged, secrets, n);
      && |r.sent| >= 1
      && r.final.ds == st.ds
      && r.final.headers == r.sent[|r.sent| - 1].headers
    decreases AttemptsLeft(st.retries)
  {
    if Again(st, judged, n) {
      FinalHeaders(Next(st, secrets, n), target, m, judged, secrets, n + 1);
    }
  }

  /**
   * After `send` the pending parameters and body are empty on every path.
   * A resolved call leaves the counter at 1; any other outcome leaves it
   * where the retries brought it.
   */
  lemma {:induction false} FinalState(st: Pending, target: Target, m: HttpMethod, judged: nat -> Judgement, secrets: nat -> string, n: nat)
    ensures var r := SendFrom(st, target, m, judged, secrets, n);
      && r.final.params == [] && r.final.body == []
      && (r.outcome.Resolved? ==> r.final.retries == 1)
      && (!r.outcome.Resolved? ==> r.final.retries == st.retries + |r.sent| - 1)
    decreases AttemptsLeft(st.retries)
  {
    if Again(st, judged, n) {
      FinalState(Next(st, secrets, n), target, m, judged, secrets, n + 1);
    }
  }

  /**
   * The example of the library's tests: status 200 with an empty JSON
   * object resolves after one dispatch with the three defaults.
   */
  lemma EmptyObjectReply(st: Pending, target: Target, m: HttpMethod, env: Env)
    requires env.replies(0) == Response(Some(200), Some("OK"), Some(JsonType), Some(Obj([])))
    ensures var r := SendFrom(st, target, m, Judgements(env), Secrets(env), 0);
      r.outcome == Resolved(Envelope(Null, Str(""), Num(-1))) && |r.sent| == 1 && r.final.retries == 1
  {
    EmptyBodyEnvelope();
    assert Judgements(env)(0) == Settle(Resolved(Envelope(Null, Str(""), Num(-1))));
  }
}
