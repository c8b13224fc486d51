/**
 * `Cookie.parseCookieString` and `Cookie.parseCookie`: reading the HoYoLAB
 * cookie header into an object with camel-case keys, and writing such an
 * object back as a header.
 */
module Cookie {
  import opened Wrappers
  import opened Strings
  import opened Dicts
  import opened Js
  import opened Language
  import opened CookieHelper

  /** The cookie names that are kept; every other name is ignored. */
  const Whitelist: seq<string> := [
    "ltoken", "ltuid", "account_id", "cookie_token",
    "account_id_v2", "cookie_token_v2", "mi18nLang"
  ]

  /** The names whose value is read with `parseInt(value, 10)`. */
  const NumericNames: seq<string> := ["ltuid", "account_id", "account_id_v2"]

  const MissingKey: Error := HoyoAPIError("Cookie key ltuid or ltoken doesnt exist !")

  /** The object key a cookie name is stored under: `toCamelCase(name).trim()`. */
  function KeyOf(name: string): string
  {
    Trim(ToCamelCase(name))
  }

  /**
   * A snake-case name and its camel-case key: `toCamelCase` maps the name to
   * the key and `toSnakeCase` maps the key back to the name.
   */
  lemma NameAndKey(ws: seq<string>, name: string, key: string)
    requires |ws| >= 1 && forall i :: 0 <= i < |ws| ==> SnakeWord(ws[i])
    requires name == Join(ws, "_")
    requires key == Join([ws[0]] + Capitalized(ws[1..]), "")
    requires key != [] && !IsJsSpace(key[0]) && !IsJsSpace(key[|key| - 1])
    ensures KeyOf(name) == key && ToSnakeCase(key) == name
  {
    SnakeWordsAvoidUnderscore(ws);
    CamelOfWords(ws, name);
    SnakeUndoesCamel(ws);
    TrimUntouched(key);
  }

  lemma AccountIdKey()
    ensures KeyOf("account_id") == "accountId" && ToSnakeCase("accountId") == "account_id"
  {
    var ws := ["account", "id"];
    assert ws[1..] == ["id"];
    assert ToUpperChar('i') == 'I';
    assert Capitalize("id") == "Id";
    assert Capitalized(["id"]) == ["Id"];
    assert Join(["account", "Id"], "") == "accountId";
    assert ["account"] + ["Id"] == ["account", "Id"];
    assert Join(ws, "_") == "account_id";
    NameAndKey(ws, "account_id", "accountId");
  }

  lemma CookieTokenKey()
    ensures KeyOf("cookie_token") == "cookieToken" && ToSnakeCase("cookieToken") == "cookie_token"
  {
    var ws := ["cookie", "token"];
    assert ws[1..] == ["token"];
    assert ToUpperChar('t') == 'T';
    assert Capitalize("token") == "Token";
    assert Capitalized(["token"]) == ["Token"];
    assert Join(["cookie", "Token"], "") == "cookieToken";
    assert ["cookie"] + ["Token"] == ["cookie", "Token"];
    assert Join(ws, "_") == "cookie_token";
    NameAndKey(ws, "cookie_token", "cookieToken");
  }

  lemma AccountIdV2Key()
    ensures KeyOf("account_id_v2") == "accountIdV2" && ToSnakeCase("accountIdV2") == "account_id_v2"
  {
    var ws := ["account", "id", "v2"];
    assert ws[1..] == ["id", "v2"] && ws[1..][1..] == ["v2"];
    assert ToUpperChar('i') == 'I' && ToUpperChar('v') == 'V';
    assert Capitalize("id") == "Id" && Capitalize("v2") == "V2";
    assert Capitalized(["id", "v2"]) == ["Id", "V2"];
    var camel := ["account", "Id", "V2"];
    assert camel[1..] == ["Id", "V2"] && ["Id", "V2"][1..] == ["V2"];
    assert Join(camel, "") == "accountIdV2";
    assert ["account"] + ["Id", "V2"] == camel;
    assert Join(ws, "_") == "account_id_v2";
    NameAndKey(ws, "account_id_v2", "accountIdV2");
  }

  lemma CookieTokenV2Key()
    ensures KeyOf("cookie_token_v2") == "cookieTokenV2" && ToSnakeCase("cookieTokenV2") == "cookie_token_v2"
  {
    var ws := ["cookie", "token", "v2"];
    assert ws[1..] == ["token", "v2"] && ws[1..][1..] == ["v2"];
    assert ToUpperChar('t') == 'T' && ToUpperChar('v') == 'V';
    assert Capitalize("token") == "Token" && Capitalize("v2") == "V2";
    assert Capitalized(["token", "v2"]) == ["Token", "V2"];
    var camel := ["cookie", "Token", "V2"];
    assert camel[1..] == ["Token", "V2"] && ["Token", "V2"][1..] == ["V2"];
    assert Join(camel, "") == "cookieTokenV2";
    assert ["cookie"] + ["Token", "V2"] == camel;
    assert Join(ws, "_") == "cookie_token_v2";
    NameAndKey(ws, "cookie_token_v2", "cookieTokenV2");
  }

  lemma PlainKey(name: string)
    requires '_' !in name && name != [] && !IsJsSpace(name[0]) && !IsJsSpace(name[|name| - 1])
    ensures KeyOf(name) == name
  {
    TrimUntouched(name);
  }

  /** The value text: the part after the first `=` up to the next, first `;` dropped, trimmed. */
  function RawValue(parts: seq<string>): string
  {
    var second := if |parts| > 1 then parts[1] else "undefined";
    Trim(RemoveFirst(second, ';'))
  }

  /** The stored value: an integer (or `NaN`), a normalised language tag, or the text. */
  function Convert(name: string, raw: string): (v: Value)
    ensures name in NumericNames ==> (v.Num? || v.NaN?) && (v.Num? <==> ParseInt(raw).Some?)
    ensures name == "mi18nLang" ==> v == Str(Tag(ParseLang(Some(raw))))
    ensures name !in NumericNames && name != "mi18nLang" ==> v == Str(raw)
  {
    if name in NumericNames then
      match ParseInt(raw)
      case Some(n) => Num(n)
      case None => NaN
    else if name == "mi18nLang" then Str(Tag(ParseLang(Some(raw))))
    else Str(raw)
  }

  /** The name of a piece: the text before its first `=`, after trimming. */
  function NameOf(piece: string): string
  {
    Split(Trim(piece), "=")[0]
  }

  /** The entries the whitelisted pieces contribute, in order. */
  function Entries(pieces: seq<string>): Dict<Value>
  {
    if pieces == [] then []
    else Entries(pieces[..|pieces| - 1]) + EntryOf(pieces[|pieces| - 1])
  }

  /** Every entry comes from a whitelisted piece and is stored under that piece's key. */
  lemma {:induction false} EntriesKnown(pieces: seq<string>, i: nat)
    requires i < |Entries(pieces)|
    ensures exists p :: p in pieces && NameOf(p) in Whitelist && Entries(pieces)[i].0 == KeyOf(NameOf(p))
    decreases |pieces|
  {
    var front := pieces[..|pieces| - 1];
    var last := pieces[|pieces| - 1];
    if i < |Entries(front)| {
      EntriesKnown(front, i);
      var p :| p in front && NameOf(p) in Whitelist && Entries(front)[i].0 == KeyOf(NameOf(p));
      assert p in pieces;
    } else {
      assert Entries(pieces)[i] == EntryOf(last)[0];
    }
  }

  /** What one piece contributes: its key and converted value, or nothing. */
  function EntryOf(piece: string): (es: Dict<Value>)
    ensures |es| <= 1
    ensures es != [] ==> NameOf(piece) in Whitelist && es[0].0 == KeyOf(NameOf(piece))
  {
    var parts := Split(Trim(piece), "=");
    var name := parts[0];
    if name in Whitelist then [(KeyOf(name), Convert(name, RawValue(parts)))] else []
  }

  lemma EntriesStep(pieces: seq<string>, i: nat)
    requires i < |pieces|
    ensures Entries(pieces[..i + 1]) == Entries(pieces[..i]) + EntryOf(pieces[i])
  {
    assert pieces[..i + 1][..i] == pieces[..i];
  }

  /** The map the `forEach` over the pieces leaves behind. */
  function Collected(cookieString: string): Dict<Value>
  {
    Merge([], Entries(Split(cookieString, "; ")))
  }

  /**
   * The `ltuid`/`accountId`/`accountIdV2` fallbacks. Each reads the values
   * as they were before any fallback was applied.
   */
  function Fallbacks(c: Dict<Value>): (r: Dict<Value>)
    ensures var ltuid, accountId, v2 := Field(c, "ltuid"), Field(c, "accountId"), Field(c, "accountIdV2");
      var either := if Truthy(accountId) then accountId else ltuid;
      && (Truthy(ltuid) ==> Field(r, "ltuid") == ltuid)
      && (Truthy(accountId) ==> Field(r, "accountId") == accountId)
      && (Truthy(ltuid) && !Truthy(accountId) ==> Field(r, "accountId") == ltuid)
      && (!Truthy(ltuid) && Truthy(accountId) ==> Field(r, "ltuid") == accountId)
      && (!Truthy(ltuid) && !Truthy(accountId) ==> Field(r, "ltuid") == ltuid && Field(r, "accountId") == accountId)
      && (Truthy(v2) || either == Null ==> Field(r, "accountIdV2") == v2)
      && (!Truthy(v2) && either != Null ==> Field(r, "accountIdV2") == either)
    ensures forall k :: k != "ltuid" && k != "accountId" && k != "accountIdV2" ==> Get(r, k) == Get(c, k)
    ensures KeysDistinct(c) ==> KeysDistinct(r)
  {
    var ltuid, accountId, v2 := Field(c, "ltuid"), Field(c, "accountId"), Field(c, "accountIdV2");
    var c1 :=
      if Truthy(ltuid) && !Truthy(accountId) then Put(c, "accountId", ltuid)
      else if !Truthy(ltuid) && Truthy(accountId) then Put(c, "ltuid", accountId)
      else c;
    var either := if Truthy(accountId) then accountId else ltuid;
    var r := if !Truthy(v2) && either != Null then Put(c1, "accountIdV2", either) else c1;
    PutFacts(c, "accountId", ltuid);
    PutFacts(c, "ltuid", accountId);
    PutFacts(c1, "accountIdV2", either);
    r
  }

  lemma PutFacts(d: Dict<Value>, k: string, v: Value)
    ensures Field(Put(d, k, v), k) == v
    ensures forall k' :: k' != k ==> Get(Put(d, k, v), k') == Get(d, k') && Field(Put(d, k, v), k') == Field(d, k')
    ensures KeysDistinct(d) ==> KeysDistinct(Put(d, k, v))
  {
    forall k' ensures Get(Put(d, k, v), k') == if k' == k then Some(v) else Get(d, k') {
      GetPut(d, k, v, k');
    }
    if KeysDistinct(d) {
      PutKeepsDistinct(d, k, v);
    }
  }

  /** `parseCookieString(cookieString)`, as one expression. */
  function ParseCookieStringSpec(cookieString: string): Result<Dict<Value>>
  {
    var c := Fallbacks(Collected(cookieString));
    if !Truthy(Field(c, "ltoken")) || !Truthy(Field(c, "ltuid")) then Err(MissingKey) else Ok(c)
  }

  /**
   * Parsing succeeds exactly when the pieces give a truthy `ltoken` and a
   * truthy `ltuid` or `accountId`; a failure is the missing-key error, and a
   * success holds truthy `ltoken`, `ltuid` and `accountId`.
   */
  lemma ParseCookieStringOutcome(cookieString: string)
    ensures var c, r := Collected(cookieString), ParseCookieStringSpec(cookieString);
      && (r.Ok? <==> Truthy(Field(c, "ltoken")) && (Truthy(Field(c, "ltuid")) || Truthy(Field(c, "accountId"))))
      && (r.Err? ==> r.error == MissingKey)
      && (r.Ok? ==> Truthy(Field(r.value, "ltoken")) && Truthy(Field(r.value, "ltuid")) && Truthy(Field(r.value, "accountId")))
  {
    var c := Collected(cookieString);
    var f := Fallbacks(c);
    assert Get(f, "ltoken") == Get(c, "ltoken");
  }

  /**
   * `Cookie.parseCookieString`: fills a map piece by piece, then applies
   * the fallbacks and the check for `ltoken` and `ltuid`.
   */
  method ParseCookieString(cookieString: string) returns (r: Result<Dict<Value>>)
    ensures r == ParseCookieStringSpec(cookieString)
  {
    var cookies: Dict<Value> := [];
    var pieces := Split(cookieString, "; ");
    var i := 0;
    assert pieces[..0] == [];
    while i < |pieces|
      invariant 0 <= i <= |pieces|
      invariant cookies == Merge([], Entries(pieces[..i]))
    {
      EntriesStep(pieces, i);
      MergeAppend([], Entries(pieces[..i]), EntryOf(pieces[i]));
      cookies := StoreCookie(cookies, pieces[i]);
      i := i + 1;
    }
    assert pieces[..i] == pieces;
    ghost var collected := cookies;

    var ltuid := Field(cookies, "ltuid");
    var accountId := Field(cookies, "accountId");
    var accountIdV2 := Field(cookies, "accountIdV2");
    if Truthy(ltuid) && !Truthy(accountId) {
      cookies := Put(cookies, "accountId", ltuid);
    } else if !Truthy(ltuid) && Truthy(accountId) {
      cookies := Put(cookies, "ltuid", accountId);
    }
    var either := if Truthy(accountId) then accountId else ltuid;
    if !Truthy(accountIdV2) && either != Null {
      cookies := Put(cookies, "accountIdV2", either);
    }
    assert cookies == Fallbacks(collected);

    if !Truthy(Field(cookies, "ltoken")) || !Truthy(Field(cookies, "ltuid")) {
      return Err(MissingKey);
    }
    return Ok(cookies);
  }

  /**
   * The `forEach` callback: a whitelisted piece is stored as text under its
   * camel-case key, then replaced by its integer or language value.
   */
  method StoreCookie(cookies: Dict<Value>, piece: string) returns (updated: Dict<Value>)
    ensures updated == Merge(cookies, EntryOf(piece))
  {
    var parts := Split(Trim(piece), "=");
    if parts[0] !in Whitelist {
      EntryOfSkipped(piece);
      return cookies;
    }
    var key := KeyOf(parts[0]);
    var val := RawValue(parts);
    updated := Put(cookies, key, Str(val));
    if parts[0] in NumericNames {
      var n := ParseInt(val);
      updated := Put(updated, key, if n.Some? then Num(n.value) else NaN);
    } else if parts[0] == "mi18nLang" {
      updated := Put(updated, key, Str(Tag(ParseLang(Some(val)))));
    }
    EntryOfStored(cookies, piece, updated);
  }

  lemma EntryOfSkipped(piece: string)
    requires Split(Trim(piece), "=")[0] !in Whitelist
    ensures EntryOf(piece) == []
  {
  }

  /** Writing the text and then, for some names, the converted value stores the converted value. */
  lemma EntryOfStored(cookies: Dict<Value>, piece: string, updated: Dict<Value>)
    requires var parts := Split(Trim(piece), "=");
      && parts[0] in Whitelist
      && var key := KeyOf(parts[0]);
      var val := RawValue(parts);
      var text := Put(cookies, key, Str(val));
      updated == (if parts[0] in NumericNames || parts[0] == "mi18nLang" then Put(text, key, Convert(parts[0], val)) else text)
    ensures updated == Merge(cookies, EntryOf(piece))
  {
    var parts := Split(Trim(piece), "=");
    var key := KeyOf(parts[0]);
    var val := RawValue(parts);
    var stored := Convert(parts[0], val);
    assert EntryOf(piece) == [(key, stored)];
    MergeOne(cookies, key, stored);
    PutPut(cookies, key, Str(val), stored);
  }

  /**
   * A stored value is the converted value of the last whitelisted piece with
   * that key; a key no piece mentions is absent.
   */
  lemma {:induction false} CollectedLastWins(cookieString: string, k: string)
    ensures var es := Entries(Split(cookieString, "; "));
      Get(Collected(cookieString), k) == LastGet(es, k)
  {
    var es := Entries(Split(cookieString, "; "));
    MergeLastWins([], es, k);
  }

  /**
   * Every key of a parsed cookie object is a fallback key or the camel-case
   * key of a whitelisted piece of the string.
   */
  lemma {:induction false} ParsedKeysKnown(cookieString: string, k: string)
    requires ParseCookieStringSpec(cookieString).Ok?
    requires k in Keys(ParseCookieStringSpec(cookieString).value)
    ensures || k in ["ltuid", "accountId", "accountIdV2"]
            || exists p :: p in Split(cookieString, "; ") && NameOf(p) in Whitelist && k == KeyOf(NameOf(p))
  {
    var es := Entries(Split(cookieString, "; "));
    var r := ParseCookieStringSpec(cookieString).value;
    if k !in ["ltuid", "accountId", "accountIdV2"] {
      assert Get(r, k) == Get(Collected(cookieString), k);
      MergeLastWins([], es, k);
      var i :| 0 <= i < |es| && es[i].0 == k;
      EntriesKnown(Split(cookieString, "; "), i);
    }
  }

  /** No `ltoken` piece: parsing throws, whatever else the string holds. */
  lemma {:induction false} MissingLtokenThrows(cookieString: string)
    requires Get(Collected(cookieString), "ltoken").None?
    ensures ParseCookieStringSpec(cookieString) == Err(MissingKey)
  {
    ParseCookieStringOutcome(cookieString);
  }

  // ---------------------------------------------------------------------------
  // parseCookie

  /** The keys written back in snake case. */
  const SnakeKeys: seq<string> := ["cookieToken", "accountId", "cookieTokenV2", "accountIdV2"]

  /** `${key}=${value}`, the key snake-cased when it is one of `SnakeKeys`. */
  function Pair(key: string, value: Value): string
  {
    (if key in SnakeKeys then ToSnakeCase(key) else key) + "=" + ToString(value)
  }

  /** `if (!cookie.accountId) cookie.accountId = cookie.ltuid`. */
  function WithAccountId(c: Dict<Value>): (r: Dict<Value>)
    ensures Truthy(Field(c, "accountId")) ==> r == c
    ensures !Truthy(Field(c, "accountId")) ==> Field(r, "accountId") == Field(c, "ltuid")
    ensures forall k :: k != "accountId" ==> Get(r, k) == Get(c, k)
    ensures Keys(r) == if "accountId" in Keys(c) then Keys(c) else Keys(c) + ["accountId"]
  {
    if Truthy(Field(c, "accountId")) then c
    else
      PutFacts(c, "accountId", Field(c, "ltuid"));
      Put(c, "accountId", Field(c, "ltuid"))
  }

  /** The pairs `parseCookie` emits as written: only entries whose value is falsy. */
  function FalsyPairs(c: Dict<Value>): seq<string>
  {
    if c == [] then []
    else if !Truthy(c[0].1) then [Pair(c[0].0, c[0].1)] + FalsyPairs(c[1..])
    else FalsyPairs(c[1..])
  }

  /** The emitted pairs are exactly those of the entries whose value is falsy. */
  lemma {:induction false} FalsyPairsMembers(c: Dict<Value>, p: string)
    ensures p in FalsyPairs(c) <==> exists e :: e in c && !Truthy(e.1) && p == Pair(e.0, e.1)
    decreases |c|
  {
    if c != [] {
      FalsyPairsMembers(c[1..], p);
      assert c == [c[0]] + c[1..];
    }
  }

  /** The string `parseCookie` returns as written. */
  function SerializeAsWritten(c: Dict<Value>): string
  {
    Join(FalsyPairs(c), "; ")
  }

  /** The pairs `parseCookie` is meant to emit: every entry with a truthy value. */
  function TruthyPairs(c: Dict<Value>): seq<string>
  {
    if c == [] then []
    else if Truthy(c[0].1) then [Pair(c[0].0, c[0].1)] + TruthyPairs(c[1..])
    else TruthyPairs(c[1..])
  }

  /** The emitted pairs are exactly those of the entries whose value is truthy. */
  lemma {:induction false} TruthyPairsMembers(c: Dict<Value>, p: string)
    ensures p in TruthyPairs(c) <==> exists e :: e in c && Truthy(e.1) && p == Pair(e.0, e.1)
    decreases |c|
  {
    if c != [] {
      TruthyPairsMembers(c[1..], p);
      assert c == [c[0]] + c[1..];
    }
  }

  /** The string `parseCookie` is meant to return. */
  function Serialize(c: Dict<Value>): string
  {
    Join(TruthyPairs(c), "; ")
  }

  /** A cookie object as the library's callers hold it, updated in place by `parseCookie`. */
  class CookieObject {
    var entries: Dict<Value>

    constructor (entries: Dict<Value>)
      ensures this.entries == entries
    {
      this.entries := entries;
    }
  }

  /**
   * `Cookie.parseCookie(cookie)`: back-fills `accountId` on the argument,
   * then, as the code stands, writes only the entries whose value is falsy
   * as `key=value`, joined by `; ` (see `SerializeAsWritten`).
   */
  method ParseCookie(cookie: CookieObject) returns (header: string)
    modifies cookie
    ensures cookie.entries == WithAccountId(old(cookie.entries))
    ensures header == SerializeAsWritten(cookie.entries)
  {
    if !Truthy(Field(cookie.entries, "accountId")) {
      cookie.entries := Put(cookie.entries, "accountId", Field(cookie.entries, "ltuid"));
    }
    header := Join(FalsyPairs(cookie.entries), "; ");
  }

  /** The cookie object of the serialiser's example, before `accountId` is back-filled. */
  const ExampleCookie: Dict<Value> := [
    ("ltoken", Str("ltoken")), ("ltuid", Num(1)), ("cookieToken", Str("cookieToken")),
    ("mi18nLang", Str("id-id")), ("cookieTokenV2", Str("cookieTokenV2"))
  ]

  /** `accountId` is absent from the example and `ltuid` reads 1. */
  lemma ExampleFields()
    ensures Field(ExampleCookie, "accountId") == Undefined
    ensures Field(ExampleCookie, "ltuid") == Num(1)
    ensures WithAccountId(ExampleCookie) == ExampleCookie + [("accountId", Num(1))]
  {
    assert Keys(ExampleCookie) == ["ltoken", "ltuid", "cookieToken", "mi18nLang", "cookieTokenV2"];
    assert KeysDistinct(ExampleCookie);
    GetAt(ExampleCookie, 1);
    assert IndexOf(ExampleCookie, "accountId") < 0;
  }

  /** With every value truthy, the intended serialiser writes every entry, in order. */
  lemma {:induction false} TruthyPairsAll(c: Dict<Value>)
    requires forall i :: 0 <= i < |c| ==> Truthy(c[i].1)
    ensures |TruthyPairs(c)| == |c|
    ensures forall i :: 0 <= i < |c| ==> TruthyPairs(c)[i] == Pair(c[i].0, c[i].1)
    decreases |c|
  {
    if c != [] {
      TruthyPairsAll(c[1..]);
    }
  }

  /** With every value truthy, the serialiser as written emits no pair at all. */
  lemma FalsyPairsNone(c: Dict<Value>)
    requires forall i :: 0 <= i < |c| ==> Truthy(c[i].1)
    ensures FalsyPairs(c) == []
  {
    assert forall e :: e in c ==> Truthy(e.1);
    var ps := FalsyPairs(c);
    if ps != [] {
      assert ps[0] in ps;
      FalsyPairsMembers(c, ps[0]);
      assert false;
    }
  }

  /** As written, every entry of the example has a truthy value, so nothing is emitted. */
  lemma SerializeAsWrittenDropsEverything(c: Dict<Value>)
    requires c == WithAccountId(ExampleCookie)
    ensures SerializeAsWritten(c) == ""
  {
    ExampleFields();
    assert AllTruthy: forall i :: 0 <= i < |c| ==> Truthy(c[i].1) by {
      assert c == ExampleCookie + [("accountId", Num(1))];
    }
    FalsyPairsNone(c);
  }

  /**
   * The intended serialiser writes one pair for each of the six entries of
   * the back-filled example, in insertion order.
   */
  lemma SerializeExample(c: Dict<Value>)
    requires c == WithAccountId(ExampleCookie)
    ensures |TruthyPairs(c)| == 6
    ensures forall i :: 0 <= i < 6 ==> TruthyPairs(c)[i] == Pair(c[i].0, c[i].1)
  {
    ExampleFields();
    assert forall i :: 0 <= i < |c| ==> Truthy(c[i].1);
    TruthyPairsAll(c);
  }
}
