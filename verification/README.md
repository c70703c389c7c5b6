# RZ_Fetch gateway: a Dafny model of its decision logic

RZ_Fetch is a small HTTP gateway. It sits between IPTV players and several
stream catalogs. It checks a subscriber against a subscription service, and it
looks channels up in three catalogs:

- a JSON playlist fetched fresh on every request;
- an nvision M3U text playlist behind a time-boxed cache;
- a BDIX JSON catalog behind a second such cache.

Each route answers with a redirect to the stream, a redirect to an "expired"
video, or an error. A manifest proxy wraps MP4 sources in a one-entry HLS
playlist. For other sources it fetches the HLS playlist and rewrites its URI
lines into absolute or proxied URLs. When the fetch fails, it falls back to a
redirect, the wrapper, or a 502.

The whole core is in `src/server.js`. This project models it as pure
functions over immutable values. Network requests, the clock and the
library routines the gateway calls are inputs to those functions. Their
outcome is a datatype, and the caches are values passed in and handed back.

| file | module | models |
|---|---|---|
| `wrappers.dfy` | `Wrappers` | `Option` |
| `text.dfy` | `Text` | `toLowerCase`, `trim`, `includes`, `split(/\r?\n/)`, `join('\n')` |
| `js.dfy` | `Js` | JSON values, property reads that throw on null, truthiness, `String()`, `Number()`; the `Platform` parameters |
| `subscription.dfy` | `Subscription` | `checkSubscription` |
| `cache.dfy` | `Cache` | `fetchNvisionM3U` / `fetchBdixChannels` caching |
| `catalog.dfy` | `Catalog` | the channel-number lookup, `findBdixChannelByNumber`, `findStreamByXuiId` |
| `http.dfy` | `Http` | the reply a handler sends |
| `manifest.dfy` | `Manifest` | `proxyM3U8`: MP4 wrapper, retry and fallback, line rewrite |
| `routes.dfy` | `Routes` | the `/rz/ch_no`, `/all/*/direct`, `/nvision`, `/bdix` and `/_m3u` handlers |

`Js.Platform` bundles the library behaviour the model leaves uninterpreted:

- `Number(s)` on a string;
- `String(n)` on a number;
- `new URL(input, base).href`;
- `encodeURIComponent`;
- `decodeURIComponent`.

Where a property depends on how these behave, the lemma states the assumption
as a `requires`. Three such assumptions are used:

- `Manifest.BreakFreeUrls`: URLs never contain line breaks.
- `Manifest.SettledHrefs`: a serialised URL parses back to itself.
- Injectivity of the encoder.

Where the code and the design description disagree, the model follows the code:

- An unrecognised `PROXY_FALLBACK_MODE` gives a 502 (`src/server.js:244`), not the wrapper.
- `/nvision` and `/bdix` ask the subscription service before looking the channel up. An inactive subscriber is sent to the expired video even for a channel that does not exist (`src/server.js:322-326`, `:353-357`).
- `/rz/ch_no` with `m3u=1` and no subscriber redirects to the channel URL (`src/server.js:167-169`).
- A throw of the first playlist request in `proxyM3U8` is not caught by the retry logic, so it ends in a 500 (`src/server.js:205`, `:279-282`). A throw of the retry keeps the first non-2xx answer and leads to the fallback (`src/server.js:220-222`).
- The `xui-id` attribute name matches in any letter case. The value must equal the id exactly (`src/server.js:130-131`).

## Model

| member | source | states |
|---|---|---|
| Text.TrimStripsSpace | src/server.js:134 | `trim()` removes white space, and only white space, from both ends |
| Text.JoinSplitLines | src/server.js:249-273 | re-joining the `\r?\n` split of a text without carriage returns with "\n" gives the text back |
| Text.SplitJoinLines | src/server.js:249-273 | splitting the "\n"-join of lines free of line breaks gives back the same lines |
| Text.SplitJoinLineCount | src/server.js:249-273 | splitting the "\n"-join of lines free of "\n" gives back as many lines |
| Text.SplitLinesKeepOut | src/server.js:127 | a character missing from a text is missing from each line of its split |
| Js.Get | src/server.js:55 | a property read throws exactly on null and undefined; on an object with that own member it yields the member, and anything other than undefined it yields is that member |
| Js.ToJsString | src/server.js:59 | `String(v)` is the string itself for strings, never throws for primitives, and throws for a parsed object exactly when it has an own `toString` member |
| Js.ToNumber | src/server.js:67 | `Number(v)` is the number itself, parses strings, and throws only where `String(v)` throws |
| Subscription.JsonVerdict | src/server.js:48-74 | the JSON rules apply in order: null throws; a number, string or `false` is never active; a rule met before any conversion throws decides; a conversion that throws before any rule is met throws; with conversions that succeed the result is whether any rule holds |
| Subscription.Verdict | src/server.js:32-91 | no id, a thrown request or a non-2xx answer is inactive; with conversions that succeed, a parsed body is active iff one of the JSON rules holds; a rule met before any conversion throws makes it active; a `status` conversion that throws after `active` failed, or a `code` conversion that throws after the earlier rules failed, hands over to the text test, as do an unparseable body and a `null` body; a number, string or `false` body is never active |
| Subscription.NullBodyIsInactive | src/server.js:48-86 | the body `null` throws at `.active`, and the text test on "null" finds nothing |
| Subscription.ThrowingStatusHidesCodeRule | src/server.js:48-86 | a body meeting the `code` rule whose `status` conversion throws goes to the text test, and so is inactive for a text without its words |
| Subscription.NumberBodySkipsTextTest | src/server.js:48-86 | the body `1` is inactive although the text test would accept it |
| Cache.LoadCached | src/server.js:93-117 | a missing source URL throws without touching the cache; the request is made iff the stored value is falsy or expired; a served value leaves the cache as it was; a failed request keeps the cache; a successful one stores its value until now + TTL·1000 |
| Cache.FirstCallRequests | src/server.js:93-97 | with a source configured, the first call on the empty cache makes the request |
| Cache.RefreshedValueIsServedUntilExpiry | src/server.js:97-103 | after a refresh with a truthy value, every call before the expiry is answered from the cache whatever the source would answer |
| Cache.FalsyValueIsRequestedAgain | src/server.js:97 | a falsy value is stored but never served |
| Cache.ExpiredValueIsRequestedAgain | src/server.js:97 | once the expiry instant is reached the source is requested again |
| Catalog.FindFrom | src/server.js:122 | `find` returns the first passing element after elements that all fail; none iff all fail; a throw comes from an element whose test throws after elements that all fail |
| Catalog.PlaylistChannels | src/server.js:153 | reading `channels` throws exactly for a null playlist; an array gives exactly its elements, and a non-array gives no channels |
| Catalog.FindChannelByNumber | src/server.js:154 | the channel found is the first whose `Number(channel_number)` equals the number; none iff every channel's number differs; a throw comes from the first channel whose conversion throws, after channels that all differ |
| Catalog.FindBdixChannelByNumber | src/server.js:119-123 | no result for falsy data or non-array `channels`; otherwise the first channel whose `String(number)` equals `String(n)`, none iff no channel's does, and a throw comes from the first channel whose conversion throws, after channels that all differ |
| Catalog.QuoteFreeRun | src/server.js:130 | the `[^"]+` run stops at the first quote or the end of the line |
| Catalog.LeftmostMatchIsLeftmost | src/server.js:130 | the match reported is the leftmost one, and none is reported only when the pattern matches nowhere |
| Catalog.XuiAttribute | src/server.js:130-131 | a captured `xui-id` value is non-empty and holds no quote |
| Catalog.FirstTagFrom | src/server.js:128-131 | the first line whose `xui-id` value equals the id, with no such line before it |
| Catalog.FirstContentFrom | src/server.js:133-135 | the first line whose trimmed text is non-empty and not a comment |
| Catalog.StreamForXuiId | src/server.js:125-141 | nothing for empty text or id; a result is trimmed, non-empty and does not start with '#' |
| Catalog.StreamIsAfterFirstTag | src/server.js:128-137 | a result is the trimmed first content line after the first tag line for the id |
| Catalog.NoStreamMeansNoContentAfterTags | src/server.js:125-140 | nothing is found only when no tag line for the id has a content line anywhere after it |
| Catalog.FindStreamByXuiId | src/server.js:125-141 | the nested loop of the source returns exactly the reference lookup |
| Catalog.ScanForContent | src/server.js:133-137 | the inner loop finds the first content line from its start, or none |
| Catalog.TagOnLastLine | src/server.js:128-140 | a tag line on the last line, with no earlier tag line, resolves to nothing |
| Manifest.WrapperText | src/server.js:197 | the wrapper is "#EXTM3U\n#EXTINF:-1,\n" followed by the source URL in its original case |
| Manifest.WrapperLines | src/server.js:197 | splitting the wrapper gives the two header lines and the source URL |
| Manifest.FallbackModeOf | src/server.js:231-244 | redirect iff the setting lower-cases to "redirect"; wrapper iff it is unset, empty or lower-cases to "wrapper"; anything else is refused |
| Manifest.SchemeRunEnd | src/server.js:254 | the run of scheme characters ends at the first other character or the end |
| Manifest.SchemePrefixIsPatternMatch | src/server.js:254 | the scheme test holds iff `^[a-zA-Z][a-zA-Z0-9+.-]*://` matches somewhere it can |
| Manifest.RewriteLine | src/server.js:250-272 | a blank or comment line stays as it is; with segment proxying, a changed line goes to `/_m3u` or `/_segment` |
| Manifest.ProxiedUrl | src/server.js:265-271 | the route is `/_m3u` iff the lower-cased URL contains ".m3u8", `/_segment` otherwise |
| Manifest.ProxiedUrlInjective | src/server.js:268-270 | distinct absolute URLs get distinct proxied lines |
| Manifest.RewriteLines | src/server.js:250 | each line is rewritten in place, none added or dropped |
| Manifest.RewriteLineBreakFree | src/server.js:250-272 | a rewritten line has a line break character only when the original had one |
| Manifest.RewriteKeepsLineCount | src/server.js:249-273 | the rewritten playlist has as many lines as the `\r?\n` split of the original |
| Manifest.RewriteIsLineByLine | src/server.js:249-273 | without carriage returns, line i of the rewritten playlist is line i of the original, rewritten |
| Manifest.RewriteLineIdempotent | src/server.js:250-272 | without segment proxying, rewriting a rewritten line changes nothing |
| Manifest.RewriteManifestIdempotent | src/server.js:249-273 | without segment proxying, rewriting a rewritten playlist changes nothing |
| Manifest.Upstream | src/server.js:205-225 | a throw of the first request escapes; the playlist comes from the first 2xx answer, the first request's before the retry's |
| Manifest.FallbackReply | src/server.js:231-244 | redirect to the source, the wrapper, or 502 "Bad gateway", each exactly for its mode |
| Manifest.ProxyM3U8 | src/server.js:190-283 | an MP4 source is wrapped whatever the requests would answer; a throwing first request is a 500; two failures go to the fallback; a success is rewritten against the source URL, or is a 500 when the body or the source URL cannot be read; a 502 happens only for a refused mode after two failures |
| Routes.ConfigOf | src/server.js:10-13 | the expired-video URL is never empty and is the configured one when set; segment proxying is on only for a four-letter setting, and on for "TRUE" |
| Routes.ChNoTarget | src/server.js:159-177 | a found channel leads to its URL, or to the expired video exactly when an inactive subscriber asked for m3u |
| Routes.PlaylistChannel | src/server.js:152-154 | a playlist that cannot be fetched, or a null one, throws; a fetched non-null playlist never throws and gives the lookup in its channels |
| Routes.ChNo | src/server.js:145-182 | a NaN number is a 400 before anything is fetched; an unreadable playlist or a throwing lookup a 500; no matching channel a 404; a found channel is redirected to its target, or is a 500 when its log line throws; every redirect goes to a matching channel's target |
| Routes.ChNoAsksOnlyForM3uWithSubscriber | src/server.js:159-177 | without m3u and a subscriber, the subscription answer changes nothing |
| Routes.Direct | src/server.js:286-311 | an empty target is a 400; m3u without a subscriber a 400; otherwise a redirect to the decoded (or raw) target, or to the expired video for an inactive subscriber who asked for m3u |
| Routes.Nvision | src/server.js:313-341 | missing m3u, then a missing subscriber, is a 400; an inactive subscriber is redirected to the expired video and the cache is untouched; an active one is answered from the cached or fetched playlist |
| Routes.StreamReply | src/server.js:329-336 | a found stream is a redirect to it; an unknown id is a 404, and an empty text or id is a 404 before the text is converted |
| Routes.NvisionServesFreshPlaylist | src/server.js:322-336 | a fresh stored playlist listing the stream answers an active subscriber with no request and no cache change |
| Routes.BdixReply | src/server.js:360-367 | a failed lookup is a 500, a missing channel a 404; a found channel is redirected to its `m3u8_url`, or is a 500 when its log line throws; every redirect goes to a found channel |
| Routes.Bdix | src/server.js:343-372 | a NaN number, then a missing subscriber, is a 400; an inactive subscriber is redirected to the expired video and the cache is untouched; an active one is answered from the cached or fetched catalog |
| Routes.BdixInactiveIgnoresCatalog | src/server.js:353-357 | an inactive subscriber's reply does not depend on the catalog or the cache |
| Routes.NestedPlaylist | src/server.js:433-444 | a missing `u` is a 400; an undecodable one a 500; otherwise the decoded URL is proxied |

## Left out

- Express routing, response headers (`Content-Type`, CORS), logging and `app.listen`: framework plumbing. Two log lines are kept because they can throw. Their `${channel.name}`-style conversions at `src/server.js:157` and `:366` turn a channel whose field has no string form into a 500.
- node-fetch, timeouts and the browser-like headers of the retry: network input. Each request is an input datatype: it threw, it answered non-2xx, or it answered with a body.
- The body preview read after a failed retry (`src/server.js:226-229`): it only feeds a log line.
- The subscription request URL built from `SUBSCRIPTION_URL_TEMPLATE`: the request itself is an input.
- `/_segment`, `/_health` and `/_refresh-playlist`: byte piping and trivial I/O endpoints.
- The internals of `JSON.parse`, the URL parser, `encodeURIComponent`, `decodeURIComponent`, `Number(string)` and `String(number)`: library behaviour. They are `Platform` parameters.
- The query-string and path decoding that express performs before a handler runs. Handlers receive the values already decoded. Repeated query parameters, which express turns into arrays, are left out.
- How `res.redirect` renders a target that is not a string, such as a channel whose `url` is missing: the reply keeps the raw value.
- Numbers are reals, and `Number.isNaN` is the `None` of `Platform.numberOf`; parsing JSON never yields NaN. Infinities are not representable: neither the one `JSON.parse` gives for an out-of-range literal such as `1e400`, nor `Number("Infinity")`. Negative zero, which `JSON.parse("-0")` gives, is not distinguished from zero; every use of a number here (`===`, truthiness, `String`) treats the two alike.
- `CACHE_TTL_SECONDS` is an integer. A non-numeric setting, which the source turns into NaN so that the cache is never fresh, is not modelled.
- `Date.now` is the `now` parameter. Concurrent requests that race to refresh a cache are not modelled: each call is one step of the cache.
- `toLowerCase` is ASCII lower-casing. Every comparison after it is against an ASCII pattern, and no non-ASCII character lower-cases into one that could complete those patterns.
- Routes.ConfigOf: states the `PROXY_SEGMENTS` reading only partly (a four-letter setting, and "TRUE"), because the exact reading is its one-line body.
- Manifest.RewriteLine: states the blank and comment lines and the proxied shapes. What a URI line becomes is given by its body and by the lemmas about it, not by its own contract.
