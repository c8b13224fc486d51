# hoyoapi, modelled in Dafny

A model of the local logic of `hoyoapi`, a TypeScript client for the HoYoLAB
web APIs of Genshin Impact, Honkai: Star Rail and Honkai Impact 3rd, with
the properties the library promises proved about it.

What is modelled, one Dafny module per source file:

- `HTTPRequest` (`Request`), the request builder every client shares. It
  keeps pending query parameters and body, headers, the dynamic-secret (`DS`)
  flag and a retry counter. `send` is a loop over an oracle that gives the
  server's decoded reply to each dispatch. It covers the exact content-type
  check, the 200/201 status check, the `{data, message, retcode}` defaults,
  and the retry on `retcode` -2016 while the counter is at most 60. It also
  covers clearing the pending parameters and body right after every dispatch.
- `generateDS` (`RequestHelper`). The clock reading, the six random draws
  and MD5 are inputs.
- The bounded TTL `Cache` (`Caching`): an insertion-ordered map with lazy
  expiry and first-in-first-out eviction.
- Cookie parsing and serialisation (`Cookie`, `CookieHelper`): whitelisting,
  camelCase and snake_case conversion, integer parsing, the account-id
  fallbacks, the missing-key error, and the serialiser, both as written and
  as evidently intended (see Findings).
- Language normalisation (`Language`) and the three UID-to-region helpers
  (`GenshinHelper`, `HsrHelper`, `HonkaiHelper`).
- The call sites:
  - `Hoyolab`: language choice, `gamesList`, and `gameAccount`'s
    highest-level choice.
  - `Daily` and `CommonDaily`: the two daily check-in modules.
  - `Redeem`.
  - `Tcg`: the card game, with its paged `cards()`.
  - `Diary`: the traveler's diary, with its paged, sorted `detail()`.
  - `GiRecord`, `HsrRecord` and `HiRecord`: the three battle-chronicle
    modules.

Support modules:

- `Wrappers`: `Option`, `Result` and the error kinds.
- `Strings`: JavaScript `split`/`join`, `trim`, `parseInt`, decimal text,
  and case mapping on the ASCII range.
- `Dicts`: an insertion-ordered string-keyed dictionary, as a `Map` keeps
  its keys and as a JavaScript object keeps keys that are not array indices.
- `Js`: JavaScript values, truthiness, `String(v)` and property access.
- `Calls`: what the callers share. This is the region/UID guard, the
  request states they leave behind, and the `retcode` check.
- `Paging`: the generic page loop behind `cards()` and `detail()`.

How the model is set up:

- Callers hold the shared `HTTPRequest` and configure it through its setter
  methods. What their `send` resolves with is an input, an `Exchange` from the
  call (route, method, request state) to a result. The callers' `send`
  takes a different shape from the `send` of `src/request/request.ts`, so the
  two are not joined.
- Numbers are integers, with `NaN` as a separate value.
- Routes are named by constants, since the route table is not part of this
  model.

## Model

| member | source | states |
|---|---|---|
| Request.HTTPRequest.constructor | src/request/request.ts:26-68 | A fresh request has no pending parameters or body, the default headers plus `Cookie` exactly when `options.cookie` is truthy, the flag off and the counter at 1 |
| Request.HTTPRequest.SetQueryParams | src/request/request.ts:76-79 | The pending parameters become the right-biased merge `{...params, ...p}`; nothing else changes; the same request is returned |
| Request.HTTPRequest.SetBody | src/request/request.ts:87-90 | The pending body becomes `{...body, ...data}`; nothing else changes; the same request is returned |
| Request.HTTPRequest.SetReferer | src/request/request.ts:98-102 | `Referer` and then `Origin` are set to the same text; nothing else changes |
| Request.HTTPRequest.SetLang | src/request/request.ts:110-114 | Only `x-rpc-language` is written |
| Request.HTTPRequest.SetDs | src/request/request.ts:122-125 | Only the flag changes |
| Request.RefererHeaders | src/request/request.ts:98-102 | After `setReferer(url)` both headers read `url`, and every other header reads as before |
| Request.LangHeader | src/request/request.ts:110-114 | After `setLang` the language header reads the new tag, and every other header reads as before |
| Request.InitialCookie | src/request/request.ts:64-68 | `Cookie` is present exactly when `options.cookie` is truthy; a plain string passed as options never sets it |
| Request.BuildQuery | src/request/request.ts:142-149 | The `forEach` loop produces the URL's own pairs followed by one pair per pending key, in key order |
| Request.QueryShape | src/request/request.ts:142-149 | The query has the URL's pairs first, then one pair per pending key with that key; `null`/`undefined` render as empty text and strings as themselves |
| Request.EnvelopeOf | src/request/request.ts:189-194 | The envelope never has an `undefined` data, a nullish message or a nullish retcode |
| Request.EnvelopeDefaults | src/request/request.ts:189-194 | Present values are kept; a missing or nullish `data` becomes `null`, `message` becomes `''` and `retcode` becomes -1; a body that is not an object gives all three defaults |
| Request.EmptyBodyEnvelope | src/request/request.ts:189-194 | `{}` gives `{data: null, message: '', retcode: -1}` |
| Request.JudgeCases | src/request/request.ts:163-235 | A stream error rejects with its message. A content type other than exactly `application/json` rejects with a plain object. Undecodable JSON escapes the promise. A status outside 200/201, an absent one included, rejects with `HoyoAPIError`. The call resolves exactly on a JSON reply with a good status. A retry is asked for exactly when that envelope's `retcode` is -2016 |
| Request.HTTPRequest.DispatchOnce | src/request/request.ts:140-221 | One dispatch writes a fresh `DS` when the flag is on and carries the built query (and the body for POST); the pending parameters and body are emptied right after |
| Request.HTTPRequest.Attempt | src/request/request.ts:223-240 | One attempt retries exactly on -2016 while the counter is at most 60, bumping the counter; otherwise it settles, and a resolved call resets the counter to 1 |
| Request.HTTPRequest.Send | src/request/request.ts:135-241 | The retry loop's outcome, final state and dispatches are those of the recursive `send` (`SendFrom`) |
| Request.DispatchBound | src/request/request.ts:231-235 | A call dispatches at least once and at most `61 - retries` more times; from a valid counter that is at most 61 |
| Request.RetryOnlyWhenBusy | src/request/request.ts:231-240 | The call settles on its last reply's judgement. Every earlier reply asked for a retry, and the last one did not unless the counter had passed 60 |
| Request.DispatchPayloads | src/request/request.ts:208-215 | Only the first dispatch carries the pending parameters and body; every retry carries only the URL's own parameters and, for POST, an empty body |
| Request.PayloadsOfRest | src/request/request.ts:208-215 | From a state with nothing pending, every dispatch adds nothing |
| Request.FirstSecret | src/request/request.ts:219-221 | With the flag on, the first dispatch carries the secret generated for it |
| Request.FreshSecretPerDispatch | src/request/request.ts:219-234 | With the flag on, every dispatch, retries included, carries its own freshly generated secret |
| Request.NoSecretWhenClear | src/request/request.ts:219-221 | With the flag off, headers are sent and left exactly as they were, including any stale `DS` |
| Request.OtherHeadersSent | src/request/request.ts:151-155 | Every dispatch carries every header other than `DS` as it was before the call |
| Request.FinalHeaders | src/request/request.ts:219-221 | `send` never changes the flag, and leaves the headers as last sent (a written `DS` stays) |
| Request.FinalState | src/request/request.ts:208-240 | After every call the pending parameters and body are empty. A resolved call leaves the counter at 1; a rejected one leaves it where the retries brought it |
| Request.EmptyObjectReply | tests/request.test.ts:45-63 | Status 200 with `{}` resolves after one dispatch with the three defaults, and the counter at 1 |
| RequestHelper.Seconds | src/request/request.helper.ts:10-11 | The time is the floor of milliseconds / 1000 |
| RequestHelper.LetterAt | src/request/request.helper.ts:14-17 | Draws 0..25 pick `a`..`z` and draws 26..51 pick `A`..`Z` |
| RequestHelper.LettersInOrder | src/request/request.helper.ts:14 | The alphabet has 52 letters and letter `i` is `LetterAt(i)` |
| RequestHelper.LetterAtInjective | src/request/request.helper.ts:14 | No letter occurs twice in the alphabet |
| RequestHelper.Drawn | src/request/request.helper.ts:13-19 | The random segment has exactly six characters; character `k` is the letter of draw `k` |
| RequestHelper.GenerateDS | src/request/request.helper.ts:8-26 | The loop-built secret is `time + "," + random + "," + md5("salt=" + salt + "&t=" + time + "&r=" + random)` |
| RequestHelper.SecretFields | src/request/request.helper.ts:21-25 | Splitting the secret on commas gives back exactly the decimal time, the six letters and the digest |
| RequestHelper.RandomSegmentDeterminesDraws | src/request/request.helper.ts:13-19 | The random segment determines the six draws it came from |
| Caching.MaxCapacity | src/cache/cache.ts:28-33 | The capacity is the largest whole number of 50 KiB units within a fifth of the total memory |
| Caching.Cache.constructor | src/cache/cache.ts:20-22 | A new cache is empty and its capacity is fixed from the memory size |
| Caching.Cache.Get | src/cache/cache.ts:40-46 | Returns the stored value exactly when the key is present and `now` is before its expiry, else `null`; nothing is removed |
| Caching.Cache.Has | src/cache/cache.ts:81-83 | `has(k)` holds exactly when `get(k)` is not `null` |
| Caching.Cache.Set | src/cache/cache.ts:54-66 | A TTL below 1 changes nothing. Otherwise the oldest entry goes first when the cache is full, then the key is written with expiry `now + ttl * 1000`. Keys stay distinct |
| Caching.Cache.Delete | src/cache/cache.ts:72-74 | Removes exactly the key's entry; keys stay distinct |
| Caching.SetThenLookup | src/cache/cache.ts:54-66 | A value written with TTL at least 1 reads back until `now + ttl * 1000`, then reads `null` |
| Caching.SmallTtlIgnored | src/cache/cache.ts:55-57 | A TTL below one second leaves the cache exactly as it was |
| Caching.SetKeepsOthers | src/cache/cache.ts:59-65 | Writing a key leaves every other key as the eviction step left it, and untouched when the cache was not full |
| Caching.FullCacheEvictsOldest | src/cache/cache.ts:59-62 | A full cache drops its oldest key on every write, even when the written key is present. The oldest key survives only when it is the one written, and it then moves to the end |
| Caching.SetKeepsOrder | src/cache/cache.ts:59-65 | Overwriting a surviving key keeps its place in the eviction order; a new key goes last |
| Caching.SetWithinCapacity | src/cache/cache.ts:59-65 | With capacity at least 1, the entries never exceed the capacity after a write (capacity 0 behaves as 1), and keys stay distinct |
| Caching.DeleteThenLookup | src/cache/cache.ts:72-74 | After `delete(k)`, `k` reads `null` and every other key reads as before |
| Caching.HasExamples | src/cache/cache.ts:40-46 | A stored `null` reads as absent, an entry at its expiry time reads as absent, and a live entry reads back |
| CookieHelper.ToCamelCase | src/cookie/cookie.helper.ts:7-16 | The result has no `_`, and a name without `_` comes back unchanged |
| CookieHelper.Capitalized | src/cookie/cookie.helper.ts:10-14 | Each later word gets its first character upper-cased and keeps the rest; the word count is kept |
| CookieHelper.CamelOfWords | src/cookie/cookie.helper.ts:7-16 | For words without `_`, `toCamelCase` of their `_`-join is the first word followed by the others capitalized |
| CookieHelper.ToSnakeCase | src/cookie/cookie.helper.ts:24-30 | The result has no upper-case letter |
| CookieHelper.ToSnakeCaseCharwise | src/cookie/cookie.helper.ts:25-29 | Each upper-case letter becomes `_` plus its lower-case form, each space becomes `_`, and every other character is kept |
| CookieHelper.SnakeUndoesCamel | src/cookie/cookie.helper.ts:7-30 | For non-empty lower-case words joined by single underscores, `toSnakeCase(toCamelCase(s)) == s` |
| CookieHelper.SnakeOfCamelWords | src/cookie/cookie.helper.ts:24-30 | The snake-case reading of the camel-cased words is the words joined by `_` |
| CookieHelper.ConversionExamples | tests/helpers.test.ts:14-24 | `toCamelCase('test_error') == 'testError'` and `toSnakeCase('testError') == 'test_error'` |
| Cookie.NameAndKey | src/cookie/cookie.ts:40 | A snake-case name is stored under its camel-case key, and `toSnakeCase` maps that key back to the name |
| Cookie.AccountIdKey | src/cookie/cookie.ts:40 | `account_id` is stored as `accountId`, and snake-cases back |
| Cookie.CookieTokenKey | src/cookie/cookie.ts:40 | `cookie_token` is stored as `cookieToken`, and snake-cases back |
| Cookie.AccountIdV2Key | src/cookie/cookie.ts:40 | `account_id_v2` is stored as `accountIdV2`, and snake-cases back |
| Cookie.CookieTokenV2Key | src/cookie/cookie.ts:40 | `cookie_token_v2` is stored as `cookieTokenV2`, and snake-cases back |
| Cookie.PlainKey | src/cookie/cookie.ts:40 | `ltoken`, `ltuid`, `mi18nLang` (any trimmed name without `_`) keep their name as key |
| Cookie.Convert | src/cookie/cookie.ts:41-49 | `ltuid`, `account_id` and `account_id_v2` become an integer when `parseInt` reads one and `NaN` otherwise; `mi18nLang` becomes the normalised tag; everything else stays text |
| Cookie.EntryOf | src/cookie/cookie.ts:34-43 | A piece contributes at most one entry, and only when its name is whitelisted, under that name's camel-case key |
| Cookie.EntriesKnown | src/cookie/cookie.ts:33-50 | Every collected entry comes from a whitelisted piece, under that piece's key |
| Cookie.StoreCookie | src/cookie/cookie.ts:33-50 | One `forEach` step: the map becomes the old one with the piece's entry written in, and is unchanged for a piece not whitelisted |
| Cookie.CollectedLastWins | src/cookie/cookie.ts:33-50 | A key holds the converted value of the last whitelisted piece with that key; a key no piece mentions is absent |
| Cookie.Fallbacks | src/cookie/cookie.ts:52-64 | When only one of `ltuid`/`accountId` is truthy, the other copies it. A falsy `accountIdV2` becomes `accountId`, or `ltuid` when `accountId` is falsy, unless that is `null`. Every other key is untouched |
| Cookie.ParseCookieString | src/cookie/cookie.ts:20-71 | The loop-built map, after the fallbacks and the check, is `ParseCookieStringSpec` |
| Cookie.ParseCookieStringOutcome | src/cookie/cookie.ts:66-68 | Parsing succeeds exactly when `ltoken` is truthy and `ltuid` or `accountId` is truthy. Failure is the missing-key error. Success holds truthy `ltoken`, `ltuid` and `accountId` |
| Cookie.ParsedKeysKnown | src/cookie/cookie.ts:33-70 | Every key of a parsed object is a fallback key or the key of a whitelisted piece |
| Cookie.MissingLtokenThrows | src/cookie/cookie.ts:66-68 | Without an `ltoken` piece, parsing throws whatever else the string holds |
| Cookie.WithAccountId | src/cookie/cookie.ts:80-82 | A falsy `accountId` is set to `ltuid` (appended when absent); a truthy one leaves the object as it is |
| Cookie.ParseCookie | src/cookie/cookie.ts:79-104 | The argument is updated in place with the back-filled `accountId`. The header is the serialisation as written: only the entries whose value is falsy, as `key=value` joined by `; ` (see Findings) |
| Cookie.FalsyPairsMembers | src/cookie/cookie.ts:84-101 | As written, the emitted pairs are exactly those of entries whose value is falsy |
| Cookie.SerializeAsWrittenDropsEverything | src/cookie/cookie.ts:84-103 | As written, the test's cookie (every value truthy) serialises to the empty string |
| Cookie.FalsyPairsNone | src/cookie/cookie.ts:86-88 | As written, an object whose values are all truthy emits no pair |
| Cookie.TruthyPairsMembers | src/cookie/cookie.ts:84-101 | Intended: the emitted pairs are exactly those of entries whose value is truthy |
| Cookie.TruthyPairsAll | src/cookie/cookie.ts:84-103 | Intended: with every value truthy, every entry is written, in order, with `cookieToken`/`accountId`/`cookieTokenV2`/`accountIdV2` snake-cased |
| Cookie.SerializeExample | tests/cookie.test.ts:4-17 | Intended: the test's cookie, back-filled, writes one pair per each of its six entries in insertion order |
| Cookie.ExampleFields | src/cookie/cookie.ts:80-82 | The test's cookie lacks `accountId`, so the back-fill appends `accountId = 1` |
| Language.Tag | src/language/language.interface.ts:4-79 | Each of the fifteen members has its enum string |
| Language.TagShape | src/language/language.interface.ts:4-79 | Every tag is two characters, a `-` and two characters |
| Language.IsTagLength | src/language/language.interface.ts:4-79 | Only five-character strings are tags, so the empty string is none |
| Language.TagInjective | src/language/language.interface.ts:4-79 | No two members share a tag |
| Language.Position | src/language/language.ts:22 | Every member occurs among `Object.keys(LanguageEnum)` |
| Language.Find | src/language/language.ts:23-25 | `find` yields a member whose tag is the input, or nothing when no member's tag is |
| Language.ParseLang | src/language/language.ts:17-30 | A missing or empty input gives `en-us`. An input equal to a tag gives that member. Anything else gives `en-us`. The result is always a member |
| Language.ParseLangOfTag | src/language/language.ts:22-29 | Every member's own tag parses back to that member |
| Language.ParseLangIdempotent | src/language/language.ts:17-30 | `parseLang` is idempotent |
| Language.ParseLangExamples | tests/helpers.test.ts:58-68 | `en` and `EN-US` give English, `id-id` gives Indonesian, and no input gives English |
| GenshinHelper.RegionByLeadingDigit | src/client/gi/gi.helper.ts:11-33 | A positive UID is accepted exactly when its leading digit is 6, 7, 8 or 9, which select USA, Europe, Asia and China/Taiwan; every other UID, zero and negatives included, throws `Given UID … is invalid !` |
| GenshinHelper.OnlyLeadingDigitMatters | src/client/gi/gi.helper.ts:12-31 | Two positive UIDs with the same leading digit get the same answer |
| GenshinHelper.RegionValuesDistinct | src/client/gi/gi.interface.ts:12-21 | The four regions have four different values |
| HsrHelper.RegionByLeadingDigit | src/client/hsr/hsr.helper.ts:10-32 | A positive UID is accepted exactly when its leading digit is 6, 7, 8 or 9; 6 and 8 give `prod_official_asia`, 7 gives `prod_official_euro` and 9 gives `prod_official_cht`; every other UID throws |
| HsrHelper.OnlyLeadingDigitMatters | src/client/hsr/hsr.helper.ts:11-30 | Two positive UIDs with the same leading digit get the same answer |
| HsrHelper.UsaIsAsia | src/client/hsr/hsr.interface.ts:3-8 | The USA and Asia keys share one value, so UIDs led by 6 and by 8 land on the same server |
| HonkaiHelper.RegionByRange | src/client/hi/hi.helper.ts:11-27 | UIDs strictly between 10,000,000 and 100,000,000 give `overseas01`, between 100,000,000 and 200,000,000 give `usa01`, and between 200,000,000 and 300,000,000 give `undefined`, since the key `EURO` names no member; `eur01` is never produced; exactly the other UIDs throw |
| HonkaiHelper.ConstantOnRanges | src/client/hi/hi.helper.ts:15-23 | Two accepted UIDs in the same hundred-million band get the same answer |
| HonkaiHelper.IntendedByRange | src/client/hi/hi.helper.ts:11-27 | Corrected lookup: the three ranges give `overseas01`, `usa01` and `eur01`. It rejects exactly the UIDs the source rejects and agrees with the source wherever the source yields a value |
| HonkaiHelper.EuroRangeUndefined | src/client/hi/hi.helper.ts:19-20 | Every UID of the third range shows the difference: `undefined` as written, `eur01` as intended |
| Strings.JoinSplit | src/cookie/cookie.ts:33-34 | `split(sep)` loses nothing: joining the pieces with the same separator gives back the string |
| Strings.SplitPiecesAvoidSeparator | src/cookie/cookie.ts:33-34 | No piece of `split(c)` contains `c` |
| Strings.SplitJoin | src/cookie/cookie.helper.ts:8-15 | Words free of `c`, joined with `c` and split again, come back unchanged |
| Strings.SplitJoinReplaces | src/cookie/cookie.helper.ts:26-28 | `split(' ').join('_')` replaces every space by an underscore and changes nothing else |
| Strings.RemoveFirst | src/cookie/cookie.ts:41 | `replace(';', '')` removes exactly one `;` when there is one and otherwise leaves the text alone |
| Strings.RemoveAll | src/module/redeem/redeem.ts:51 | A global replace by `''` leaves no occurrence, shortens the text by the number of occurrences, and keeps every other character's count |
| Strings.ParseInt | src/cookie/cookie.ts:45-46 | `parseInt` is `NaN` exactly when no digit follows the leading white space and sign |
| Strings.ParseIntOfIntToString | src/cookie/cookie.ts:45-46 | `parseInt` reads a number's decimal text back as that number |
| Strings.FirstDigitSpec | src/client/gi/gi.helper.ts:12 | The first character of a positive number's text is its leading digit; zero gives 0 and a negative number gives `NaN` |
| Dicts.MergeKeys | src/request/request.ts:77 | `{...a, ...b}` keeps `a`'s keys first and in order, holds exactly the keys of `a` and `b`, and keeps keys distinct |
| Dicts.MergeGet | src/request/request.ts:77 | In `{...a, ...b}` a key of `b` reads `b`'s value and any other key reads `a`'s |
| Dicts.GetPut | src/cookie/cookie.ts:43 | After `set(k, v)` the key `k` reads `v` and every other key reads as before |
| Dicts.PutKeys | src/cookie/cookie.ts:43 | `set` on a new key appends it to the insertion order and on an existing key keeps the order |
| Js.Property | src/module/daily/daily.ts:50-54 | Reading a property throws exactly on `null` or `undefined`; on an object it reads the field, `undefined` when absent; on any other value it gives `undefined` |
| Js.Spread | src/client/gi/tcg/tcg.ts:58 | Spreading succeeds exactly on arrays and strings; an array spreads to its own elements |
| Calls.Checked | src/client/gi/tcg/tcg.ts:66-82 | A reply passes exactly when its `retcode` is the number 0, giving its `data`. Otherwise the error carries the reply's message, or the stock text when the message is nullish |
| Calls.CheckedReply | src/client/gi/tcg/tcg.ts:59-82 | A failed `send` fails unchanged. A reply passes exactly when its `retcode` is 0, and then yields its `data` |
| Calls.QueryChecked | src/client/gi/tcg/tcg.ts:51-82 | The query is merged into the pending parameters with `DS` on. The GET is sent on that state, and its reply is checked |
| Calls.PostChecked | src/client/gi/record/record.ts:109-140 | The body is merged into the pending body with `DS` on. The POST is sent on that state, and its reply is checked |
| Calls.FallbackUnreachable | src/request/request.ts:189-194 | An envelope built by `send` always has a message, so a failed check never uses the stock text |
| Calls.StrictZero | src/client/gi/tcg/tcg.ts:66 | The string `"0"` fails the strict `!== 0` test and the number 0 passes it |
| Hoyolab.ChosenLangSpec | src/client/hoyolab/hoyolab.ts:60-65 | A `lang` option that is a tag is kept. A non-empty option naming no language gives English. Only a missing or empty option falls back to the cookie's `mi18nLang` |
| Hoyolab.ClientHeaders | src/client/hoyolab/hoyolab.ts:71-72 | The client's request carries the chosen language header. It has no `Cookie` header, because the constructor passes a string as the request's options |
| Hoyolab.Hoyolab.constructor | src/client/hoyolab/hoyolab.ts:48-79 | The client holds the cookie with `accountId` back-filled and the chosen language. Its fresh request is given the as-written serialisation of that cookie and has the default headers plus the language header |
| Hoyolab.Hoyolab.Create | src/client/hoyolab/hoyolab.ts:53-58 | A cookie string is parsed first, and its parse error is thrown. A cookie object is always accepted |
| Hoyolab.GamesListParamsSpec | src/client/hoyolab/hoyolab.ts:101-110 | `uid` and `sLangKey` always carry the cookie's values. `game_biz` is the game when one is given and is left as it was otherwise. Every other pending parameter is kept |
| Hoyolab.GamesListResult | src/client/hoyolab/hoyolab.ts:117-135 | The call yields `data.list` only when `data` and the list are truthy. Otherwise it throws `HoyoAPIError`, and a failed `send` passes through |
| Hoyolab.Hoyolab.GamesList | src/client/hoyolab/hoyolab.ts:94-136 | Without a truthy `cookieTokenV2` it throws before touching the request. Otherwise it adds its parameters, sends, and checks the list |
| Hoyolab.BestIsEarliestMaximum | src/client/hoyolab/hoyolab.ts:161-163 | With numeric levels, `reduce` keeps a game of the highest level. Every game before it has a strictly lower level, so the earliest of the highest wins |
| Hoyolab.EarliestMaximumUnique | src/client/hoyolab/hoyolab.ts:161-163 | The earliest game of the highest level is the only position `reduce` can keep |
| Hoyolab.BestIsIn | src/client/hoyolab/hoyolab.ts:161-163 | The game kept is one of the list's games |
| Hoyolab.AccountOf | src/client/hoyolab/hoyolab.ts:155-163 | An empty list throws that there is no game account. A non-empty array yields one of its games. Anything that cannot be reduced throws a `TypeError` |
| Hoyolab.Hoyolab.GameAccount | src/client/hoyolab/hoyolab.ts:151-164 | This is `gamesList(game)` reduced to the highest-level account, with the list's errors passed through |
| Hoyolab.Hoyolab.GameRecordCard | src/client/hoyolab/hoyolab.ts:172-182 | `uid` is the first truthy of `ltuidV2`, `accountId` and `accountIdV2`. The result is `data.list` of the reply |
| Daily.DaysInMonth | src/module/daily/daily.ts:56-60 | A month has 28 to 31 days. February has 29 exactly in a Gregorian leap year and 28 otherwise |
| Daily.YearLength | src/module/daily/daily.ts:136-139 | The twelve month lengths add up to 365 days, or 366 in a leap year |
| Daily.DefaultField | src/module/daily/daily.ts:50-52 | A field that is `undefined` gets the default, and every other field is untouched |
| Daily.InfoDefaultsField | src/module/daily/daily.ts:50-71 | Present fields are kept. Missing `first_bind`, `month_last_day`, `sign_cnt_missed` and `short_sign_day` get false, whether today is the month's last day, 0 and 0 |
| Daily.InfoSpec | src/module/daily/daily.ts:41-78 | On an object, `info()` keeps every field and applies the four defaults. An empty `region` becomes the module's non-empty region |
| Daily.Biz | src/module/daily/daily.ts:98-107 | `biz` is `hk4e` exactly for Genshin Impact and Honkai Impact 3rd, `hkrpg` exactly for Star Rail, and empty otherwise |
| Daily.RoundSecondsNearest | src/module/daily/daily.ts:95 | The default `now` is the nearest second to the clock |
| Daily.RewardsSpec | src/module/daily/daily.ts:85-115 | `biz` is always overwritten. `now` and `resign` are defaulted only when missing, and every other field is kept |
| Daily.RewardSpec | src/module/daily/daily.ts:136-154 | A day outside `1 .. daysInMonth` throws. A valid day yields that day's award, or `undefined` past the end of the array, because the second test never holds |
| Daily.ClassifySpec | src/module/daily/daily.ts:175-203 | The claim keeps the reply's message and the info, and its code is the reply's `retcode`. It carries the reward exactly on -5003, or on `retcode` 0 with `data.code` equal to `ok` in any case. It throws exactly when `data` is present but its `code` is nullish |
| Daily.ClassifyIgnoresCase | src/module/daily/daily.ts:184-188 | `OK` counts as `ok` |
| Daily.LangSetTwice | src/module/daily/daily.ts:163-171 | Setting the language a second time, as `info()` and `reward()` do inside `claim()`, changes nothing |
| Daily.DailyModule.SetLanguage | src/module/daily/daily.ts:42-46 | Merges `lang` into the pending parameters and writes the language header |
| Daily.DailyModule.Info | src/module/daily/daily.ts:41-78 | The language is set, the GET is sent, and the result is `InfoOf` of the reply's data, with failures passed through |
| Daily.DailyModule.Rewards | src/module/daily/daily.ts:85-115 | The language is set, the GET is sent, and the result is `RewardsOf` of the reply's data |
| Daily.DailyModule.Reward | src/module/daily/daily.ts:124-155 | This is `rewards()`, then the given day's award, or the award of the day of `now` when no day is given |
| Daily.DailyModule.Claim | src/module/daily/daily.ts:162-205 | The claim POST, then `info()` and `reward()`, then the classification, all on the request state the language setting leaves |
| CommonDaily.CommonInfoSpec | src/module/common/daily/daily.ts:44-77 | This module applies the same four defaults and leaves `region` exactly as the reply has it |
| CommonDaily.AgreesWithoutRegion | src/module/common/daily/daily.ts:51-53 | Both `info()` versions agree on every non-nullish reply to a module without a region, and fail on the same replies |
| CommonDaily.DailyModule.Info | src/module/common/daily/daily.ts:44-77 | The language is set, the GET is sent, and the result is `CommonInfoOf` of the reply's data |
| CommonDaily.DailyModule.Rewards | src/module/common/daily/daily.ts:84-112 | The same rewards step as `Daily` |
| CommonDaily.DailyModule.Reward | src/module/common/daily/daily.ts:121-150 | The same reward step as `Daily` |
| CommonDaily.DailyModule.Claim | src/module/common/daily/daily.ts:157-198 | The claim POST, this module's `info()`, `reward()`, then the classification |
| Redeem.LangPrefixBefore | src/module/redeem/redeem.ts:52 | `split('-')[0]` keeps the text before the first `-` |
| Redeem.LangPrefixOfTag | src/module/redeem/redeem.ts:52 | For every language, the short code is the tag's first two letters |
| Redeem.RedeemParamsSpec | src/module/redeem/redeem.ts:47-54 | `uid`, `region` and `game_biz` pass through, `cdkey` is the code without replacement characters, `lang` is the short code and `sLangKey` the full tag |
| Redeem.RedeemModule.Claim | src/module/redeem/redeem.ts:42-59 | Without a region or UID it throws before touching the request. Otherwise it sets the parameters, leaving `DS` as it was, and returns the reply unchecked |
| Paging.AllWantEach | src/client/gi/tcg/tcg.ts:97-142 | Every page before the last asked for more, exactly when each of them did |
| Paging.RepliesAt | src/client/gi/tcg/tcg.ts:97-142 | The `i`-th of the replies read so far is the `i`-th reply of the walk |
| Paging.AskedNext | src/client/gi/tcg/tcg.ts:135-136 | The page after one that reads asks with that page |
| Paging.AskedShape | src/client/gi/diary/diary.ts:103-113 | Each page sets its parameters, with `DS` on, over the state the pages before it left |
| Paging.RepliesStep | src/client/gi/tcg/tcg.ts:97-142 | One more page that reads extends the replies read so far, and keeps "each page asked for more" when it asks too |
| Paging.Beyond | src/client/gi/tcg/tcg.ts:142 | A page that reads and asks for more is not where the loop stops |
| Paging.Step | src/client/gi/tcg/tcg.ts:98-115 | One turn sets the page's parameters with `DS` on, sends, and reads the reply as that page |
| Paging.Walk | src/client/gi/tcg/tcg.ts:97-142 | The loop rejects with the failure of the first page that does not read. Otherwise it stops at the first page that asks for no more, and returns every page read, in order, each before the last asking for more |
| Paging.GatheredPrefix | src/client/gi/tcg/tcg.ts:138 | The items of earlier pages come first, unchanged |
| Paging.GatheredMember | src/client/gi/diary/diary.ts:125 | An item is gathered exactly when some page read carries it |
| Tcg.PageOf | src/client/gi/tcg/tcg.ts:117-141 | A page reads only after the `retcode` check, from an object, and the check's failure is passed through |
| Tcg.CardsParamsSpec | src/client/gi/tcg/tcg.ts:99-107 | Each page asks for `limit` 100 at the given `offset` |
| Tcg.OffsetFollowsServer | src/client/gi/tcg/tcg.ts:94-136 | Each page asks with `DS` on for 100 cards. The offset is 0 on the first page and the previous page's `next_offset` after it |
| Tcg.CardsObjectSpec | src/client/gi/tcg/tcg.ts:138-144 | The result reports the last page's `is_last`, `next_offset` and `stats` next to the cards gathered |
| Tcg.GenshinTCGModule.BasicInfo | src/client/gi/tcg/tcg.ts:50-83 | Sets `server`, `role_id` and `lang` with `DS` on, sends, and checks the reply |
| Tcg.GenshinTCGModule.Matchs | src/client/gi/tcg/tcg.ts:153-186 | Sets the same three parameters with `DS` on, sends, and checks the reply |
| Tcg.GenshinTCGModule.ChallengeSchedule | src/client/gi/tcg/tcg.ts:194-227 | The checked reply's `schedule_list` |
| Tcg.GenshinTCGModule.ChallengeRecord | src/client/gi/tcg/tcg.ts:236-270 | Adds `schedule_id`, sends, and checks the reply |
| Tcg.GenshinTCGModule.ChallangeDeck | src/client/gi/tcg/tcg.ts:280-318 | Adds `schedule_id` and `deck_id`, sends, and checks the reply |
| Tcg.GenshinTCGModule.Cards | src/client/gi/tcg/tcg.ts:91-145 | The paged card list. Any failing page rejects the whole call. Otherwise the pages run up to the first whose `is_last` is not exactly `false`, and the result gathers all their cards with the last page's metadata |
| Diary.MonthEnumSpec | src/client/gi/diary/diary.interface.ts:149-162 | The intended enum is this month and the two calendar months before it, all different, so each of the last three months is accepted |
| Diary.MonthEnumEarlyInMonth | src/client/gi/diary/diary.interface.ts:138-162 | Up to the 28th the computed enum is the intended one |
| Diary.MonthEnumAsWrittenCollapses | src/client/gi/diary/diary.interface.ts:139-140 | On a day the previous month does not have, the computed "one month ago" is the current month again |
| Diary.MonthEnumAsWrittenOnMarch31 | src/client/gi/diary/diary.interface.ts:138-162 | Loaded on 31 March 2023 the computed enum is 3, 3, 1 and refuses February, which the intended enum accepts |
| Diary.FebruaryRefusedOnMarch31 | src/client/gi/diary/diary.ts:55-57 | With the enum computed on 31 March 2023, a call for February with the account filled is refused with the month error |
| Diary.Refusal | src/client/gi/diary/diary.ts:87-97 | A call is refused exactly when the region or UID is missing, the month is not in the enum, or the kind is neither primogems nor mora |
| Diary.RefusalOrder | src/client/gi/diary/diary.ts:87-97 | A missing region or UID is reported first, a bad month next, and a bad kind last |
| Diary.DiaryPageOf | src/client/gi/diary/diary.ts:115-125 | A page reads exactly when the reply is present, `data` is not nullish and `list` can be spread. A nullish `data` fails on reading `uid` |
| Diary.DiaryPageIgnoresRetcode | src/client/gi/diary/diary.ts:115-117 | The detail does no `retcode` check: the page does not depend on `retcode` or `message` |
| Diary.InsertByTime | src/client/gi/diary/diary.ts:134-143 | Insertion keeps the multiset of entries and adds the new one |
| Diary.SortByTime | src/client/gi/diary/diary.ts:134-143 | The sort is a permutation of its input |
| Diary.InsertSorted | src/client/gi/diary/diary.ts:134-143 | Inserting into a sorted list keeps it sorted |
| Diary.SortByTimeSorted | src/client/gi/diary/diary.ts:134-143 | The sorted list is in ascending order of time |
| Diary.InsertWithTime | src/client/gi/diary/diary.ts:134-143 | Inserting an entry adds it behind the entries of the same time that were already present |
| Diary.SortByTimeStable | src/client/gi/diary/diary.ts:134-143 | The sort is stable: entries of equal time keep their order |
| Diary.DetailObjectSpec | src/client/gi/diary/diary.ts:119-145 | The header fields come from the last page read. `list` holds every gathered entry as often as it came, in ascending order of time, with ties in fetch order |
| Diary.DetailParamsSpec | src/client/gi/diary/diary.ts:105-112 | A page asks for the given month, kind, page number and a page size of 100 |
| Diary.DetailAsk | src/client/gi/diary/diary.ts:101-131 | Page `k` from 0 asks for `current_page` `k + 1`, whatever came before |
| Diary.DetailPagesCount | src/client/gi/diary/diary.ts:101-131 | The `k`-th request asks with `DS` on for page `k + 1` of 100 entries of the chosen month and kind |
| Diary.DiaryModule.constructor | src/client/gi/diary/diary.interface.ts:138-162 | The module's enum is the one the library computes on its load date, `setMonth` overflow included |
| Diary.DiaryModule.Diaries | src/client/gi/diary/diary.ts:48-70 | A refused call leaves the request as it was. Otherwise the call sets the parameters with `DS` on and returns the reply's `data` unchecked |
| Diary.DiaryModule.Detail | src/client/gi/diary/diary.ts:83-146 | After the checks, pages 1, 2, 3 and so on are fetched up to the first empty one, and any failing page rejects the call. The result has the last page's header and every entry, sorted by time |
| GiRecord.RequestShapes | src/client/gi/record/record.ts:161-165 | The summary body carries the IDs in the order given, the UID and the region, and the abyss query carries the schedule asked for |
| GiRecord.IdArray | src/client/gi/record/record.ts:162 | The array holds the IDs, one element each, in order |
| GiRecord.GenshinRecordModule.Records | src/client/gi/record/record.ts:55-92 | Without a region or UID it throws before touching the request. Otherwise it sets `server`, `role_id` and `lang` with `DS` on and checks the reply |
| GiRecord.GenshinRecordModule.Characters | src/client/gi/record/record.ts:105-141 | The same guard, then a POST whose body names the account, with the reply checked |
| GiRecord.GenshinRecordModule.CharactersSummary | src/client/gi/record/record.ts:153-192 | The same guard, then a POST whose body lists the characters, with the reply checked |
| GiRecord.GenshinRecordModule.SpiralAbyss | src/client/gi/record/record.ts:204-249 | The same guard. Then a schedule other than 1 or 2 throws before the request is touched; 1 is the default. Otherwise the query carries the schedule and the reply is checked |
| GiRecord.GenshinRecordModule.DailyNote | src/client/gi/record/record.ts:259-295 | The same guard, then `server` and `role_id` with `DS` on, with the reply checked |
| HsrRecord.HallParamsSpec | src/client/hsr/record/record.ts:203-209 | The hall query asks for every floor (`need_all`) of the chosen schedule, in the module's language |
| HsrRecord.AvatarList | src/client/hsr/record/record.ts:66-85 | `characters()` yields the checked data's `avatar_list`. A nullish `data` fails, and a failed check passes through |
| HsrRecord.HSRRecordModule.Characters | src/client/hsr/record/record.ts:48-86 | Without a region or UID it throws before touching the request. Otherwise the query is set with `DS` on, and the result is `avatar_list` of the checked reply |
| HsrRecord.HSRRecordModule.Records | src/client/hsr/record/record.ts:95-132 | The same guard and query, with the reply checked |
| HsrRecord.HSRRecordModule.Note | src/client/hsr/record/record.ts:141-178 | The same guard and query, with the reply checked |
| HsrRecord.HSRRecordModule.ForgottenHall | src/client/hsr/record/record.ts:189-236 | The same guard, then a schedule other than 1 or 2 throws before the request is touched. Otherwise the hall query is set and the reply checked |
| HiRecord.AccountParamsSpec | src/client/hi/record/record.ts:55-61 | The query holds exactly `server`, `role_id` and `lang`. Once merged they take the account's values, and every other pending parameter is kept |
| HiRecord.CharacterList | src/client/hi/record/record.ts:116-132 | `characters()` yields the checked data's `characters`. A nullish `data` fails, and a failed check passes through |
| HiRecord.HIRecordModule.Fetch | src/client/hi/record/record.ts:50-87 | Without a region or UID it throws before touching the request. Otherwise it sets the account query with `DS` on and checks the reply |
| HiRecord.HIRecordModule.Records | src/client/hi/record/record.ts:50-87 | `Fetch` on the index route |
| HiRecord.HIRecordModule.Characters | src/client/hi/record/record.ts:96-133 | `Fetch` on the character route, then the `characters` of the data |
| HiRecord.HIRecordModule.Abyss | src/client/hi/record/record.ts:147-184 | `Fetch` on the abyss route |
| HiRecord.HIRecordModule.Arena | src/client/hi/record/record.ts:198-235 | `Fetch` on the arena route |
| HiRecord.HIRecordModule.Elysian | src/client/hi/record/record.ts:249-286 | `Fetch` on the elysian route |

## Left out

- Network I/O inside `send` is not modelled: the request, its stream events, writing the body and ending the request. Each dispatch instead takes a decoded reply from an oracle, as status, content type and parsed JSON body.
- Decompression (gzip, deflate, brotli), UTF-8 decoding and `JSON.parse` are foreign calls. The oracle gives their result, and a body that fails to parse is the separate outcome `Escaped`. How that exception surfaces depends on the runtime.
- MD5, `Math.random`, the clock, `os.totalmem` and `delay` are inputs: a hash function, six draws, milliseconds, a memory size. The wait itself is not modelled.
- Percent-encoding by `URL`/`URLSearchParams` and `decodeURIComponent` are left out. The query is the list of appended pairs, and cookie values are taken as already decoded.
- Floating point is left out. Numbers are integers plus `NaN`. Cache capacity is `floor(totalMem / 256000)`, which is the source's `floor(totalMem * 0.2 / 51200)` over the reals; float rounding of that product is not modelled.
- Concurrency is left out. Overlapping `send` calls on one shared request would mix their parameters and body; one caller at a time is assumed.
- The callers' `send` is not joined to `Request.HTTPRequest.Send`. Records, TCG, Hoyolab and redeem destructure `{response, …}` from it, while `src/request/request.ts` resolves with the bare envelope. Each caller therefore takes what its `send` settles with as an `Exchange`, and does not replay what `send` does to the request (clearing, counter).
- Routes are named by constants; `src/routes/routes.ts` is not part of this model.
- The enums' reverse mappings are not modelled. The schedule and diary checks compare numbers only.
- `HoyoAPIError` carries its message only. The source's constructor (src/error/error.ts:23) takes only a message, so the `retcode` and request details the callers pass are dropped there too.
- The client wiring in `gi.ts`, `hi.ts` and `hsr.ts` is not part of this model; their `create` path goes over the network. The same holds for the documentation site and the build script.
- Paging.Walk: the listing is assumed to end (`requires` that some page stops the walk). Otherwise the source's `do … while` loop never returns.
- Tcg.GenshinTCGModule.Cards: carries the same assumption that the server ends the list.
- Diary.DiaryModule.Detail: carries the same assumption that an empty page arrives in the end. The comparison `new Date(a.time) < new Date(b.time)` is the `time` parameter, a map from entry to instant; unparseable times, which give `NaN` in the source, are not modelled.
- Daily.DailyModule.Reward: the day of `now`, used when no day is given, is the input `nowDay`. Today's date is the input `today`.
- Diary.MonthEnumAsWritten: models `setMonth` only for the dates the calendar can have. The enum is computed once when the library loads, so its load date is an input.
- CookieHelper.Capitalized: upper-cases the first character on the ASCII range only. JavaScript's `toUpperCase` is Unicode-aware (`é` becomes `É`, `ß` becomes `SS`), so non-ASCII first characters are kept here where the source changes them.
- CookieHelper.ToSnakeCase: "no upper-case letter" is stated for ASCII letters only. The source's final `toLowerCase` also lowers non-ASCII upper case, which the model keeps as it is.
- CookieHelper.ToSnakeCaseCharwise: "every other character is kept" holds here, but the source lowers non-ASCII upper-case characters (`É` becomes `é`), so on such input the model and the source differ.
- Daily.ClassifySpec: the case-insensitive test of `data.code` against `ok` lowers ASCII letters only. JavaScript's `toLowerCase` also maps, for example, the Kelvin sign U+212A to `k`, so a code the source reads as `ok` can be refused here.
- Dicts.MergeKeys: the key order is that of a `Map`. A JavaScript object lists array-index keys (such as `"0"` or `"42"`) first, in ascending order, before its other keys; that order is not modelled for the objects `setQueryParams` and `setBody` merge.
- Js.Property: `length` and index reads on an array or a string give `undefined` here, where JavaScript gives the length or the element. No modelled caller reads them.
- Hoyolab.Hoyolab.constructor: the mutation of `options.lang` is not modelled. The chosen language is returned instead.

## Findings

| source | as written | input that shows it | evidently intended | confidence | as-written member | corrected member |
|---|---|---|---|---|---|---|
| src/cookie/cookie.ts:86-88 | `parseCookie` drops every entry whose value is truthy, so it writes only the falsy ones | the cookie of tests/cookie.test.ts:4-17, whose values are all truthy, serialises to the empty string | write the truthy entries, as that test expects | not executed | Cookie.SerializeAsWrittenDropsEverything | Cookie.TruthyPairsAll |
| src/client/gi/diary/diary.interface.ts:138-162 | "one month ago" is `setMonth(month - 1)` on today's date, which runs over into the next month when the earlier month is shorter | loaded on 31 March 2023 the enum is 3, 3, 1, so February is refused | the three calendar months up to this one: 3, 2, 1 | not executed | Diary.MonthEnumAsWrittenOnMarch31 | Diary.MonthEnumSpec |
| src/client/hi/hi.helper.ts:19-26 | the third range selects the key `EURO`, which `HonkaiRegion` does not have, so the result is `undefined` | any UID between 200,000,000 and 300,000,000 | `eur01`, the value of `HonkaiRegion.EUROPE` | not executed | HonkaiHelper.EuroRangeUndefined | HonkaiHelper.IntendedByRange |
