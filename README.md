# yareq core, modelled in Dafny

yareq is a small HTTP client for Node.js. This project models the logic that
decides what goes on the wire and what is kept afterwards:

- the ordered request-header list and its case-insensitive upsert `setHeader`
  (both the early-`return` version of src/utils.ts and the `break` version of
  src/utils.js, proved to give the same list);
- the URL helpers `rewrite` and `parseUrl` (both versions), `pickAssign`, and
  the request-descriptor rewrite done by `setProxy` for socks, plain http and
  tunnelling proxies;
- `buildRequest`: method, port, URL credentials, the default or caller headers,
  `Content-Type`, `Host`, `Authorization`, proxy and `Cookie`, including the
  error for an unsupported authorisation type;
- `setCookie`, and the redirect loop of `requestInternal` (`_request` and
  `_resolve`) with its redirect counter, as an explicit loop whose every
  state is tied to a recursive specification `Run`;
- the `Response` classes of src/response.ts and src/response.js: their
  constructors, accessors, `toHeaders`, the compression decision, and the
  byte framing of `save` and `load` (head, one newline, payload).

Layout, one module per file:

| file | module | models |
|---|---|---|
| wrappers.dfy | Wrappers | `Option` and `Result` |
| text.dfy | Text | ASCII `toLowerCase`, JavaScript string `<`, substring and `\b…\b` word search |
| framing.dfy | Framing | bytes, `indexOf(0x0a)` / `slice` split, the JSON and gzip codec as parameters |
| headers.dfy | Headers | `setHeader` (specification `Upsert`, class `HeaderList` with both loops) |
| urls.dfy | Urls | `rewrite`, `parseUrl` of both versions, the `string \| WithUrl` target |
| pick.dfy | Pick | `pickAssign` over a mutable record |
| descriptor.dfy | Descriptor | the request descriptor, `parseInt`, `setProxy` |
| response.dfy | Responses | src/response.ts and `toHeaders` |
| legacy_response.dfy | LegacyResponses | src/response.js |
| request.dfy | Requests | `buildRequest`, `setCookie`, the redirect loop |

Everything the program gets from Node or from libraries — `url.parse`,
`url.resolve`, JSON, base64, gzip/gunzip, inflate, the HTTP exchange itself
and the clock — is a function-valued parameter (`Parser`, `Codec`,
`Foreign`). The save/load round trips assume only the laws in
`Framing.Lawful`: the JSON encoding of a head contains no newline byte and
decodes back to the head, and gunzip undoes gzip.

Where the code and its documentation disagree, the model follows the code:

- the redirect counter goes up twice per followed redirect and is compared
  with `maxRedirect || 50` before the first increment, so at most
  ceil(L/2) redirects are followed (25 by default), not L;
- caller headers given as an object are pushed in key order, without an
  upsert, so duplicate names in different case are kept;
- a JSON-like body always upserts `Content-Type: application/json`
  (`typeof null === 'object'`, so a `null` body does too); the upsert
  replaces a caller's `Content-Type` only when the scan reaches it before a
  name that sorts after `content-type`; on an unsorted caller list it may
  stop earlier, insert there, and both entries are sent;
- URL credentials are lost: `url.parse` of Node puts them in an `auth` field
  and leaves `username` and `password` unset, so the test
  `url.username || url.password` never holds and no `auth` is sent
  (`Requests.CredentialsDropped`);
- `Response.load` in src/response.ts does not restore `effectiveUrl` (the
  constructor sets it to `null`), and a `null` timestamp comes back as the
  epoch (`new Date(null)`);
- `Response.save` in src/response.js writes `this.statusMessage`, which the
  class never sets, so `statusText` is lost on every round trip;
- an unsupported authorisation type throws inside the asynchronous
  `_request`, whose promise nobody awaits: the promise of `request` then
  never settles (`Outcome.Unsettled`, `Settled.NeverSettles`);
- in both `load` functions a malformed head makes `JSON.parse` throw inside
  the `readFile` callback, so that promise never settles either
  (`Framing.HeadThrows`), while a gunzip error rejects it.

## Model

| member | source | states |
|---|---|---|
| Headers.Upsert | src/utils.ts:42-63 | the upsert replaces a slot (length kept) exactly when the key's stopping entry matches it case-insensitively, else grows the list by one; the new header sits at the scan's stopping index |
| Headers.UpsertShape | src/utils.ts:50-62 | the result is the list with the stopping slot replaced, or with the header inserted before the first greater name, or appended |
| Headers.ReplacesIff | src/utils.ts:50-62 | a slot is replaced iff some entry matches the key case-insensitively and no earlier entry has a greater lower-cased name |
| Headers.UpsertAppendsIff | src/utils.js:47-61 | the header is appended iff no entry matches or is greater than the key, i.e. the scan runs to the end |
| Headers.UpsertKeepsOthers | src/utils.ts:50-62 | ignoring the key's name, the list is unchanged: every other entry survives in its original order |
| Headers.UpsertKeepsEntry | src/utils.ts:50-62 | an entry whose name differs from the key case-insensitively is still in the list |
| Headers.UpsertSorted | src/utils.ts:42-63 | on a list strictly sorted by lower-cased name the result stays strictly sorted (hence duplicate-free), and the key occurs exactly once, with the caller's spelling and value |
| Headers.HeaderList.SetHeader | src/utils.ts:42-63 | the early-return loop leaves the list equal to `Upsert` of the old list |
| Headers.HeaderList.SetHeaderBreak | src/utils.js:43-62 | the break loop with its post-loop index check leaves the list equal to `Upsert` of the old list and grows it by at most one |
| Headers.VariantsAgree | src/utils.js:43-62 | both loops, run on the same list, produce the same list |
| Headers.ExampleAfterAcceptEncoding | test/utils.test.ts:6-9 | `Cookie` into `[accept-encoding]` gives two entries, `Cookie` at index 1 |
| Headers.ExampleBetweenTwo | test/utils.test.ts:11-14 | `cookie` into `[accept-encoding, User-Agent]` gives three entries, `cookie` at index 1 |
| Headers.ExampleIntoEmpty | test/utils.test.ts:16-19 | `Cookie` into `[]` gives one entry, `Cookie` |
| Headers.ExampleBeforeUserAgent | test/utils.test.ts:21-24 | `Cookie` into `[User-Agent]` gives two entries, `Cookie` at index 0 |
| Headers.ExampleUnsortedKeepsOld | src/utils.ts:56-58 | `Content-Type` into the unsorted `[X-Foo, Content-Type: text/plain]` is inserted at index 0 before `X-Foo`, and the old `text/plain` entry stays: three entries |
| Urls.Rewrite | src/utils.ts:9-18 | a URL with a `\w+:` scheme is unchanged; one starting with `//` gets `http:`; any other gets `http://`; the result always has a scheme |
| Urls.HasSchemeIff | src/utils.ts:10 | the scheme test holds iff the string starts with one or more word characters followed by `:` |
| Urls.RewriteIdempotent | src/utils.js:5-14 | rewriting twice is rewriting once |
| Urls.RewriteKeepsUrl | src/utils.js:5-14 | the result is the input behind one of the prefixes "", `http:` or `http://` |
| Urls.ParseUrl | src/utils.ts:20-23 | the parser is always applied to a string with a scheme |
| Urls.ParseUrlIgnoresExtra | src/utils.ts:21 | a record parses like its `url` field alone; its other fields are ignored |
| Urls.ParseUrlNormalised | src/utils.ts:20-23 | parsing a target is parsing the rewritten href |
| Urls.ParseUrlWithScheme | src/utils.ts:20-23 | a href that already has a scheme is parsed as it is |
| Urls.ParseUrlLegacy | src/utils.js:16-30 | falsy and already-parsed arguments come back unchanged; a non-empty string or an object with `url` is parsed after `rewrite`; any other value gives `null` |
| Urls.LegacyAgrees | src/utils.js:16-30 | on a non-empty string or a record with `url` the two versions of `parseUrl` agree |
| Pick.Picked | src/utils.ts:29-38 | the specification of `pickAssign` on a defined source: the target after the assignments for the listed keys, in order (its properties are `PickedAt` and `PickedSameKeys`) |
| Pick.PickedAt | src/utils.ts:29-38 | after the copy a key is defined iff it was in the target or is listed and defined in the source; listed defined keys take the source's value, all other keys keep theirs |
| Pick.PickedSameKeys | src/utils.js:32-41 | only the set of listed keys matters, not their order or repetition |
| Pick.PickAssign | src/utils.ts:29-38 | the target object itself is returned; a missing source leaves it unchanged, otherwise its fields become `Picked` of the old fields |
| Descriptor.Proxied | src/utils.ts:87-104 | the specification of `setProxy`: the descriptor's properties after the socks, http-proxy or tunnelling rewrite (its properties are the three lemmas below) |
| Descriptor.ProxiedSocks | src/utils.ts:89-91 | a socks proxy only adds the agent (http or https flavour, by target protocol); every other property is unchanged |
| Descriptor.ProxiedHttp | src/utils.ts:93-97 | an http target gets the proxy's protocol, hostname and port and the target href as path; nothing else changes |
| Descriptor.ProxiedTunnel | src/utils.ts:98-102 | any other target keeps protocol, hostname and path, keeps a truthy port or gets 443, and gets the tunnelling agent |
| Descriptor.ProxiedVersionsAgree | src/utils.js:88-105 | the two versions of `setProxy` differ only in the tunnelling agent, which in src/utils.ts also carries the server name |
| Descriptor.SetProxy | src/utils.ts:87-104 | the descriptor's properties become `Proxied` of the old ones under the rewritten and parsed proxy URL |
| Descriptor.ParseInt | src/request.ts:125 | the specification of `parseInt` with no radix: leading white space, sign, `0x` prefix, longest digit run, `NaN` without a digit; its values are stated by the four lemmas below |
| Descriptor.ParseIntDecimal | src/request.ts:125 | `parseInt` of a string of decimal digits is its decimal value |
| Descriptor.ParseIntStopsAtNonDigit | src/request.ts:125 | `parseInt` reads the leading decimal digits and ignores the rest |
| Descriptor.ParseIntEmpty | src/request.ts:125 | `parseInt("")` is `NaN` |
| Descriptor.ParseIntSkipsSpace | src/request.ts:125 | a leading white-space or line-terminator character of any kind JavaScript trims (no-break space, BOM and the Unicode space separators included) does not change the result |
| Requests.BuildRequest | src/request.ts:118-194 | fails exactly for an unsupported authorisation type, with the message `Unsupported authorisation type: <type>`; otherwise returns a new descriptor whose properties are `RequestProps` and whose headers are `RequestHeaders` |
| Requests.CopyHeaders | src/request.ts:138-148 | the new list is the caller's pairs copied in order, or the caller's map entries pushed in order |
| Requests.AddAuthorization | src/request.ts:166-180 | reports success iff the authorisation is absent or basic, and then leaves the list as `WithAuthorization` of the old one |
| Requests.MethodChosen | src/request.ts:132-136 | the method is the caller's when truthy, else GET without data and POST with data, and a proxy does not change it |
| Requests.PortAndAuth | src/request.ts:124-130 | without a proxy, the port is set (to `parseInt` of the URL's port) only when the URL has one, and `auth` is `user:pass` exactly when the URL has credentials |
| Requests.AuthFromCredentials | src/request.ts:128-130 | whatever the proxy, `auth` is set exactly when the parsed URL has a non-empty user name or password |
| Requests.CredentialsDropped | src/request.ts:128-130 | with a parser that, like Node's `url.parse`, never fills `username` or `password`, no request ever carries `auth`, whatever the target URL |
| Requests.CallerHeadersKept | src/request.ts:138-191 | apart from Content-Type, Host, Authorization and Cookie, the final headers are the initial ones, in order |
| Requests.ContentTypeSet | src/request.ts:158-160 | a non-Buffer object body puts `Content-Type: application/json` in the headers |
| Requests.HostSet | src/request.ts:162-164 | unless `setHost` is `false`, the headers hold `Host` with the URL's host |
| Requests.AuthorizationSet | src/request.ts:166-176 | basic authorisation puts `Authorization: Basic base64(user:pass)` in the headers |
| Requests.CookieSet | src/request.ts:186-191 | a truthy cookie from `getCookie` is in the headers; a falsy one leaves them as with no `getCookie` |
| Requests.DefaultHeadersSorted | src/request.ts:150-155 | the four default headers are strictly sorted by lower-cased name |
| Requests.DefaultRequestSorted | src/request.ts:149-191 | without caller headers the final list is strictly sorted by lower-cased name |
| Requests.CookieCalls | src/request.ts:102-116 | no calls without cookies or without a callback; one call for a single value; one call per array element, in order, each with the current URL string |
| Requests.SetCookie | src/request.ts:102-116 | the loop makes exactly the calls `CookieCalls` lists |
| Requests.HopResponse | src/request.ts:56-65 | a hop's response keeps the hop's target, status (or -1), headers and version; its body is inflated exactly when `inflate` is not `false` and the encoding mentions gzip or deflate |
| Requests.Run | src/request.ts:48-100 | the specification of the redirect loop: from a hop target and counter, the outcome (resolved, rejected or never settled), the `setCookie` calls, the URLs requested and the redirects followed (its properties are the lemmas below) |
| Requests.RunFollows | src/request.ts:72-86 | a followed redirect records the hop's cookies and URL and continues at the resolved location with the counter two higher |
| Requests.RunStops | src/request.ts:72-96 | a hop that is not followed ends the run: never settling for an unsupported authorisation, rejected on a failed exchange, rejected with `Too many redirects` at the limit, else resolved with the final response |
| Requests.HopBound | src/request.ts:70-86 | from any counter value, at most ceil((L - count)/2) redirects are followed, and exactly that many when the run ends with `Too many redirects` |
| Requests.RedirectBound | src/request.ts:70-86 | from the start at most ceil(L/2) redirects are followed (25 with the default limit of 50), exactly ceil(L/2) when the run fails with `Too many redirects` |
| Requests.UnsettledIff | src/request.ts:52-53 | the request never settles iff the authorisation type is unsupported, and then no URL is requested |
| Requests.VisitedShape | src/request.ts:82-85 | one URL is requested per hop, the first being the target |
| Requests.ResolvedShape | src/request.ts:88-94 | a resolved response carries the fetch times, is not a redirect to follow, and after a redirect reports the original target with the last URL requested as `effectiveUrl`; without one it keeps its own URL and no `effectiveUrl` |
| Requests.NoFollowNoHops | src/request.ts:73-74 | without `followLocation` no redirect is followed |
| Requests.FollowedWasRedirect | src/request.ts:73-79 | a followed redirect had a 3xx status, a `location` header and a counter below the limit |
| Requests.Request | src/request.ts:52-68 | one hop: no request for an unsupported authorisation; otherwise the exchange's error, or its reply with the cookie calls and a new response equal to `HopFields` |
| Requests.Resolve | src/request.ts:72-96 | `_resolve` on a hop's result either settles as `Run` does or steps to the next target with the counter two higher, having recorded the hop as `Run` does |
| Requests.Hop | src/request.ts:52-96 | a built-and-resolved hop steps exactly as `Run` describes |
| Requests.RequestInternal | src/request.ts:48-100 | the loop settles exactly as `Run` from the target with counter 0, and makes the same cookie calls, requests the same URLs and follows the same number of redirects |
| Responses.StatusOr | src/response.ts:31 | the status is the message's when non-zero, else -1; it is never 0 |
| Responses.Response.constructor | src/response.ts:29-40 | copies URL, body and version, the status (or -1), the headers (folded when given as pairs); the timestamps and `effectiveUrl` start empty |
| Responses.AccessorsFolded | src/response.ts:42-59 | for headers given as pairs, `contentType` and `contentEncoding` are the folded values of the pairs of that name in any case, and absent exactly when there are none |
| Responses.AccessorsRoundTrip | src/response.ts:42-59 | after a save and a load, `contentLength`, `contentType` and `contentEncoding` are the original ones |
| Responses.FoldHeaders | src/response.ts:139-154 | the specification of `toHeaders`: the pairs folded in order under their lower-cased names (its properties are `FoldHeadersAt` and `ExpectedAppend`) |
| Responses.ToHeaders | src/response.ts:139-154 | the loop builds `FoldHeaders` of the pairs |
| Responses.FoldHeadersAt | src/response.ts:139-154 | a lower-cased key is present iff some pair has that name; its value is the single value, or all values in order, where an earlier empty string counts as absent |
| Responses.FoldHeadersKeys | src/response.ts:142 | every key of the result is the lower-cased name of some pair |
| Responses.ExpectedAppend | src/response.ts:145-151 | one more pair turns a missing or empty value into the new one, a single value into a two-element array, and appends to an array |
| Responses.CompressIff | src/response.ts:66-68 | compression is on iff `compress` is set and the content type contains the word `text` or `json`, case-insensitively |
| Responses.EncodingMarker | src/response.ts:78 | the head is marked `gzip` iff compression is on, even for an empty body |
| Responses.PayloadIff | src/response.ts:93-103 | the payload is the gzipped body iff compression is on and the body is non-empty, else the raw body |
| Responses.NoCompressWithoutText | src/response.ts:66-68 | without `compress`, or for a non-text type, payload and head are uncompressed |
| Responses.SaveBytes | src/response.ts:65-105 | the specification of `save`: the bytes written, head, newline and payload, or the payload alone when body-only |
| Responses.SaveLayout | src/response.ts:85-87 | a full file splits at its first newline into the encoded head and the payload |
| Responses.BodyOnlyLayout | src/response.ts:85-86 | a body-only file is the payload alone |
| Responses.LoadValue | src/response.ts:107-136 | the specification of `load`: split at the first newline, decode the head, gunzip when marked and non-empty; a malformed head never settles, a gunzip error rejects |
| Responses.Load | src/response.ts:107-136 | never settles exactly when the head does not decode, rejects exactly when gunzip fails, and otherwise resolves with a new response equal to `LoadValue` |
| Responses.RoundTrip | src/response.ts:65-136 | loading a saved file gives back URL, status, headers, version, timestamps (a missing one as the epoch) and the body; `effectiveUrl` is not restored |
| Responses.RoundTripBody | test/response.test.ts:25-58 | after saving and loading, body, status and headers are the original ones |
| Framing.SplitFramed | src/response.ts:112-114 | a newline-free head, a newline and a payload split back into head and payload |
| LegacyResponses.Response.constructor | src/response.js:7-16 | copies every field of the message, `statusText` from `statusMessage` |
| LegacyResponses.EncodingMarker | src/response.js:28 | the head is marked `gzip` iff the `gzip` argument is set |
| LegacyResponses.SaveLayout | src/response.js:40-50 | the file is head, newline and payload; the payload is the gzipped body iff `gzip` is set and the body is non-empty, else the body or, when missing, the empty buffer |
| LegacyResponses.Load | src/response.js:54-73 | never settles exactly when the head does not decode, rejects exactly when gunzip fails, and otherwise resolves with a new response equal to `LoadValue` |
| LegacyResponses.RoundTrip | src/response.js:18-73 | loading a saved file gives back every field (timestamps taken as JSON numbers) except `statusText`, which is lost, and a missing body, which comes back empty |
| LegacyResponses.StatusTextLost | src/response.js:10-23 | a set `statusText` never survives a save and load |
| LegacyResponses.ExampleBodies | tests/response.js:15-42 | the bodies `hello` and empty come back unchanged, with and without gzip |

## Left out

- The https tunnelling agent (src/https-agent.ts, src/https-agent.js): CONNECT over a socket, timers and TLS; in the model an agent is a tag holding its constructor arguments.
- `execute` (src/request.ts): sending the request, socket timeouts, abort and stream piping; the exchange is the `Foreign.exchange` parameter, which returns a reply or an error.
- The promise plumbing around `_request`: ordering of callbacks and errors thrown inside them are not modelled; the model runs the hops as one loop.
- `inflate` and zlib errors while inflating, and errors of `zlib.gzip` in `save` (which reject its promise): `Foreign.inflate` and `Codec.gzip` are total functions; the argument of `inflate` is the `content-encoding` header as text.
- JSON, base64, MD5 (`contentMD5`) and `json()`: foreign library calls, given as parameters or left out.
- `url.parse` and `url.resolve`, and the socks agents: foreign; a parsed URL is a record, resolution a parameter.
- The clock: `fetchStart` and `fetchEnd` are parameters.
- `fs.readFile` and `fs.writeFile`: `save` and `load` are functions between a response and bytes; write and read errors are not modelled.
- index.js: a legacy callback client that only repeats `rewrite`.
- Responses.ToHeaders: the result object of `toHeaders` inherits from `Object.prototype`, so for a header named `constructor`, `toString`, `__proto__` and the like the lookup finds an inherited value; `ToHeaders` and `FoldHeadersAt` describe the fold for all other names.
- Urls.ParseUrlLegacy: an object's `url` field is taken to be a string; other values in it are not modelled.
- Descriptor.ParseIntDecimal: the lemmas about `parseInt` cover decimal digit strings and leading white space; `ParseInt` itself also reads a sign and a `0x` prefix, and no lemma is stated about those paths.
- Descriptor.ParseInt: the result is an unbounded integer, where JavaScript's `parseInt` returns a double; digit runs above 2^53 are rounded there and exact here, so `ParseIntDecimal` and `ParseIntStopsAtNonDigit` are exact only up to 2^53 in the source.
- LegacyResponses.RoundTrip: timestamps are taken to be JSON numbers; a `Date` (the type the declarations give them) is written as its ISO string and comes back from src/response.js as that string, where src/response.ts wraps it in a new `Date`.
- Text.Lower: `toLowerCase` is modelled on ASCII letters only; string `<` compares characters as UTF-16 code units would within the Basic Multilingual Plane.
- Requests.ContentTypeSet: `Content-Type` and `Host` are asserted present in the list, not at a given index and not as the only entry of that name; `UpsertSorted` gives both on sorted lists, and `Headers.ExampleUnsortedKeepsOld` shows a caller's entry surviving on an unsorted one.
- Requests.RequestInternal: the ensures relates the loop to `Run`; the response objects of intermediate hops, which the program discards, are not described.
