# Instagram media proxy worker — a Dafny model

The site's Cloudflare Worker answers one endpoint, `GET /api/instagram`. It reads the
site's Instagram Graph API token from its environment, asks the upstream API for the
latest media, keeps the images and carousel albums, cuts the list to the configured
photo count, and reshapes each item into a photo record. The JSON it sends carries
CORS headers negotiated against a comma-separated allow-list of origins. `OPTIONS`
requests get a bare preflight answer, and every other request gets 404.

The model is pure, as the worker is. `Worker.Fetch` maps a request, the environment
bindings and the outcome of the single upstream `fetch` to a response. Bodies are
datatypes (`Body`), not JSON text, and headers are a `map<string, string>`.

- `wrappers.dfy`: `Option`, which stands for JavaScript's `undefined`/`null`.
- `js_string.dfy` (module `JsString`): the JavaScript string built-ins the worker relies on:
  - `split` on a one-character separator, with its inverse `Join`;
  - `trim`, over ECMAScript's WhiteSpace and LineTerminator characters;
  - the decimal text of a positive integer in a template literal.
- `worker.dfy` (module `Worker`): the data model, CORS negotiation, `jsonResponse`,
  the filter/slice/map chain, `handleInstagramRequest` and the `fetch` entry point.
- `worker_properties.dfy` (module `WorkerProperties`): what the worker promises, stated over
  the whole request path.

Where JavaScript's falsy coercions make the behaviour easy to misread, the model keeps the JavaScript behaviour:
- JavaScript's falsy fallbacks are kept. A field that is present but empty (`Some("")`)
  counts as missing. This applies to the token, the thumbnail, the caption, the
  `Origin` header and `ALLOWED_ORIGINS`.
- When `ALLOWED_ORIGINS` is unset, the allow-list is `[""]`. A request without an
  `Origin` header then matches that empty entry and is granted `""`, not `*`
  (`WorkerProperties.UnconfiguredOrigins`).
- `PHOTO_COUNT` defaults to 6 when it parses to NaN *or to 0* (`parseInt(...) || 6`).
  A negative count is kept, and `slice(0, n)` then drops the last `-n` items
  (`WorkerProperties.NegativeCountDropsTail`). Both cases are easy to miss.
- `response.ok` is a status in 200..299.
- The 404 answer has `Content-Type: application/json` without the charset suffix that
  `jsonResponse` adds. It has no `Cache-Control`.

The upstream outcome is an input: `Threw`, or `Responded(status, payload)`.
- `payload` is `Malformed` when reading a 2xx body throws. That happens when the body is
  not JSON, when it is `null`, when its `data` field is truthy but not a list, or when
  that list has a `null` entry. That answer becomes 500.
- Otherwise `payload` is `Feed(data)`. `data` is `None` when the `data` field is absent or
  falsy. This includes a body that is a primitive or a list rather than an object, so
  such a body gives 200 with no photos.
- An entry of the list that is a primitive is not an error. It has no fields, so it is a
  `MediaItem` whose fields are all `None`, and the filter drops it.

Because the model is a function, repeating the same request against the same upstream
outcome gives the same response.

## Model

| member | source | states |
|---|---|---|
| Worker.Fetch | worker/src/worker.js:27-55 | the status is one of 200/204/404/500/502; 204 exactly for `OPTIONS`; 404 exactly for a non-`OPTIONS` request other than `GET /api/instagram`; the body is null exactly on 204 |
| Worker.HandleInstagramRequest | worker/src/worker.js:66-128 | the handler answers 200, 500 or 502, always with a body; its headers are the CORS headers plus `Content-Type: application/json; charset=utf-8`, plus `Cache-Control: public, max-age=3600` exactly on 200 |
| Worker.RequestOrigin | worker/src/worker.js:31 | a missing or empty `Origin` header reads as `""`, any other is taken as is |
| Worker.OriginList | worker/src/worker.js:32 | the split and trimmed allow-list has at least one entry, and each entry is free of commas and of white space at either end |
| Worker.AllowedOrigins | worker/src/worker.js:32 | an unset or empty `ALLOWED_ORIGINS` gives the one-entry list `[""]` |
| Worker.NegotiateOrigin | worker/src/worker.js:33 | a listed origin is echoed; otherwise the first entry, or `*` when that entry is empty; the result is always listed or `*` |
| Worker.GrantedOrigin | worker/src/worker.js:31-33 | the request's origin is granted when it is in the allow-list; otherwise the first entry, or `*` when that entry is empty |
| Worker.CorsHeaders | worker/src/worker.js:35-40 | exactly the four CORS header names, with the negotiated origin as `Access-Control-Allow-Origin`, `GET, OPTIONS` as the allowed methods, `Content-Type` as the allowed headers and `86400` as the max age |
| Worker.JsonResponse | worker/src/worker.js:166-177 | status and body are passed through; the headers are the CORS headers plus `Content-Type: application/json; charset=utf-8`, plus `Cache-Control: public, max-age=<ttl>` if and only if `ttl > 0` |
| Worker.FilterPhotoMedia | worker/src/worker.js:101-102 | an item is in the result exactly when it is in the input and is an `IMAGE` or `CAROUSEL_ALBUM` |
| Worker.SliceEnd | worker/src/worker.js:103 | the length `slice(0, end)` keeps: `min(end, len)` for `end >= 0`, `max(len + end, 0)` for negative `end` |
| Worker.ToPhoto | worker/src/worker.js:104-112 | id, media type, media URL, permalink and timestamp are copied; the thumbnail falls back to the media URL and the caption to `""` when missing or empty |
| Worker.PhotoCount | worker/src/worker.js:77 | the count is never 0: NaN and 0 become 6, any other parsed value is kept |
| Worker.SelectPhotos | worker/src/worker.js:101-112 | the photos are the mapped first `slice` entries of the filtered upstream list, in order |
| WorkerProperties.OptionsIsPreflight | worker/src/worker.js:42-44 | an `OPTIONS` request, on any path, gets 204, a null body and exactly the four CORS headers |
| WorkerProperties.ApiRouteIsHandled | worker/src/worker.js:47-49 | `GET /api/instagram` is answered by the photo handler, given the negotiated CORS headers |
| WorkerProperties.UnknownRouteIsNotFound | worker/src/worker.js:47-54 | any other route gets 404 `{error: "Not found"}`, with `Content-Type: application/json` (no charset) and no `Cache-Control` |
| WorkerProperties.EveryResponseCarriesCors | worker/src/worker.js:35-54 | every response carries all four CORS headers with the negotiated values |
| WorkerProperties.OnlySuccessIsCacheable | worker/src/worker.js:114-119 | a response has `Cache-Control` if and only if its status is 200, and then it is `public, max-age=3600` |
| WorkerProperties.CacheControlIffPositiveTtl | worker/src/worker.js:172-174 | `jsonResponse` adds `Cache-Control` if and only if the time to live is positive |
| WorkerProperties.GrantedOriginIsListedOrWildcard | worker/src/worker.js:31-36 | the granted `Access-Control-Allow-Origin` is an allow-list entry or `*` |
| WorkerProperties.ListedOriginIsEchoed | worker/src/worker.js:31-36 | a request whose origin is listed has that origin granted |
| WorkerProperties.UnlistedOriginFallsBack | worker/src/worker.js:31-33 | a request whose origin is not listed is granted the first configured entry in its answer, or `*` when that entry is empty |
| WorkerProperties.UnconfiguredOrigins | worker/src/worker.js:31-33 | without an allow-list, a request with no `Origin` is granted `""` and one with an origin is granted `*` |
| WorkerProperties.ConfiguredOrigins | worker/src/worker.js:32 | a configured `ALLOWED_ORIGINS` is read as its comma-separated fields, each trimmed (`OriginList`, determined by `OriginListOfJoin`) |
| WorkerProperties.OriginListOfJoin | worker/src/worker.js:32 | any allow-list text, written as its comma-separated fields, is read as exactly those fields, each trimmed |
| WorkerProperties.PaddedSecondEntryIsAllowed | worker/src/worker.js:32-33 | in a setting like `a, b`, the second origin is allowed despite the space after the comma |
| WorkerProperties.ConfiguredOriginsReadBack | worker/src/worker.js:32 | a list of trimmed, comma-free origins joined with commas is read back entry for entry |
| WorkerProperties.PaddedEntryMatches | worker/src/worker.js:32 | an origin written with white space around it is read as the bare origin |
| WorkerProperties.TokenCheckedFirst | worker/src/worker.js:67-75 | without a token the answer is 500 "not configured" whatever the upstream would have done |
| WorkerProperties.UpstreamErrorIsBadGateway | worker/src/worker.js:88-95 | a non-2xx upstream status becomes 502 with that status in the body |
| WorkerProperties.ThrowIsInternalError | worker/src/worker.js:120-127 | a throw in the `try` (the fetch, or reading a 2xx body) becomes 500 "Internal server error" |
| WorkerProperties.FeedIsSuccess | worker/src/worker.js:98-119 | a readable 2xx feed becomes 200 with the selected photos, and `count` equals the number of photos |
| WorkerProperties.FilterIsSubsequence | worker/src/worker.js:101-102 | the filtered items occur in the upstream list in the same order |
| WorkerProperties.FilterCounts | worker/src/worker.js:101-102 | every image and album is kept as often as it occurs, and no other item is kept |
| WorkerProperties.FilterAppend | worker/src/worker.js:101-102 | filtering a concatenation is concatenating the filtered parts |
| WorkerProperties.FilterKeepsPhotoFeed | worker/src/worker.js:101-102 | a list of images and albums only passes the filter unchanged |
| WorkerProperties.PhotosAreImagesOrAlbums | worker/src/worker.js:101-106 | every returned photo has media type `IMAGE` or `CAROUSEL_ALBUM` |
| WorkerProperties.PhotosComeFromUpstream | worker/src/worker.js:101-112 | every returned photo is the mapping of an image or album in the upstream list |
| WorkerProperties.PhotosArePrefix | worker/src/worker.js:101-112 | for `count >= 0` the photos are the first `min(count, filtered length)` filtered items, mapped, in order |
| WorkerProperties.NegativeCountDropsTail | worker/src/worker.js:103 | for a negative count, `max(filtered length + count, 0)` photos are returned |
| WorkerProperties.FirstCountOfPhotoFeed | worker/src/worker.js:101-112 | given at least `count` images or albums only, exactly the first `count` come back |
| WorkerProperties.VideoIsDropped | worker/src/worker.js:101-112 | a `VIDEO` between an image and an album is dropped, and the other two come back in order |
| JsString.Split | worker/src/worker.js:32 | `split(",")` yields at least one part, and no part contains the separator |
| JsString.JoinSplit | worker/src/worker.js:32 | joining the parts of a split gives back the original string |
| JsString.SplitJoin | worker/src/worker.js:32 | splitting a join of separator-free parts gives back the parts |
| JsString.Trim | worker/src/worker.js:32 | the trimmed string starts and ends with a character that is not white space |
| JsString.TrimIsInfix | worker/src/worker.js:32 | the trimmed string is a slice of the input, with only white space cut from either end |
| JsString.TrimPadded | worker/src/worker.js:32 | trimming white-space padding around a trimmed string gives exactly that string |
| JsString.TrimTrimmed | worker/src/worker.js:32 | `trim` leaves an already trimmed string unchanged |
| JsString.DecimalString | worker/src/worker.js:173 | the decimal rendering of the time to live is digits only, with no leading zero |
| JsString.DecimalRoundTrip | worker/src/worker.js:173 | reading the rendered digits back gives the number |

## Left out

- The `scheduled` entry point and `refreshLongLivedToken` (worker/src/worker.js:58-60, 133-161) are left out. They only make a network call and log, and they persist nothing.
- The upstream request is left out: the URL with its field list, limit and token, and the `cf` cache options (worker/src/worker.js:78-86). Its outcome is an input of the model. The model does not tie that outcome to the `limit` it was asked for.
- Reading the body of a non-2xx answer (`response.text()`) is left out. A throw there is covered by the `Threw` outcome.
- Upstream fields are taken to be strings or absent. JSON numbers, booleans, objects and arrays in a field are not modelled. So the fallbacks for non-string falsy values are not modelled either: `caption: 0` giving `""`, or `thumbnail_url: false` giving `media_url`. Nor is a non-string value copied as it is, such as `caption: 5`.
- JSON text is left out. `JSON.stringify` and `response.json()` are replaced by the `Body` and `Payload` datatypes. Because of this, a field whose value is `null` and a field that is missing are both `None`.
- `parseInt` is left out. `PHOTO_COUNT` arrives already parsed, as `Option<int>`.
- URL parsing is left out. The request's pathname and method arrive as given by the platform.
- Logging (`console.error`) is left out. It is a side effect only.
- All of js/main.js is left out. It is browser DOM scripting, not part of the proxy.
- JsString.DecimalString: covers non-negative integers only. The worker renders only the integer 3600, so JavaScript's number-to-string for fractions and large values is not modelled.
