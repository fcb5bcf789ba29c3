/**
 * The Cloudflare Worker that proxies the Instagram Graph API for the site: CORS origin
 * negotiation, routing, the photo handler and the JSON response helper of
 * worker/src/worker.js, as pure functions from the request, the worker's environment and
 * the outcome of the one upstream call to the response.
 */
module Worker {
  import opened Wrappers
  import opened JsString

  /* ------------------------------------------------------------ constants */

  const ApiPath := "/api/instagram"

  const AllowOrigin := "Access-Control-Allow-Origin"
  const AllowMethods := "Access-Control-Allow-Methods"
  const AllowHeaders := "Access-Control-Allow-Headers"
  const MaxAge := "Access-Control-Max-Age"
  const ContentType := "Content-Type"
  const CacheControl := "Cache-Control"

  const JsonContentType := "application/json; charset=utf-8"
  const NotFoundContentType := "application/json"

  const DefaultPhotoCount := 6
  /** Seconds a successful photo list may be cached by clients. */
  const SuccessCacheTtl := 3600

  const TokenMissingMessage := "Instagram access token is not configured."
  const UpstreamErrorMessage := "Instagram API error"
  const InternalErrorMessage := "Internal server error"
  const NotFoundMessage := "Not found"

  /* ----------------------------------------------------------- data model */

  type Headers = map<string, string>

  /** What the worker reads of an incoming request: `verb` is `request.method`, `path` the URL's pathname, `origin` the `Origin` header if any. */
  datatype Request = Request(verb: string, path: string, origin: Option<string>)

  /**
   * The worker's environment bindings. `photoCount` is `parseInt(PHOTO_COUNT, 10)`,
   * with `None` standing for NaN (an unset or non-numeric setting).
   */
  datatype Env = Env(allowedOrigins: Option<string>, accessToken: Option<string>, photoCount: Option<int>)

  /** One entry of the upstream `data` list; every field may be absent. */
  datatype MediaItem = MediaItem(
    id: Option<string>,
    mediaType: Option<string>,
    mediaUrl: Option<string>,
    thumbnailUrl: Option<string>,
    permalink: Option<string>,
    caption: Option<string>,
    timestamp: Option<string>)

  /** A photo as the worker returns it. */
  datatype Photo = Photo(
    id: Option<string>,
    mediaType: Option<string>,
    mediaUrl: Option<string>,
    thumbnailUrl: Option<string>,
    permalink: Option<string>,
    caption: string,
    timestamp: Option<string>)

  /**
   * The body of a 2xx upstream answer. `Malformed` when reading it throws: the body is not
   * JSON, is `null`, has a truthy `data` field that is not a list, or has a `null` entry in
   * that list. Otherwise `Feed(data)`, with `data` being `None` when the field is absent or
   * falsy, which includes any body that is a primitive or a list rather than an object. An
   * entry that is a primitive has no fields: it is a `MediaItem` whose fields are all `None`.
   */
  datatype Payload = Malformed | Feed(data: Option<seq<MediaItem>>)

  /** The outcome of the upstream `fetch`: it threw, or it answered with a status and a body. */
  datatype Upstream = Threw | Responded(status: int, payload: Payload)

  /** The JSON bodies the worker sends; `NoBody` is the `null` body of a preflight answer. */
  datatype Body =
    | NoBody
    | ErrorBody(error: string)
    | UpstreamErrorBody(error: string, status: int)
    | PhotosBody(photos: seq<Photo>, count: int)

  datatype Response = Response(status: int, headers: Headers, body: Body)

  /* ------------------------------------------------------------- JS values */

  /** A string value that JavaScript treats as true: present and not empty. */
  predicate Truthy(v: Option<string>) {
    v.Some? && v.value != ""
  }

  /** `response.ok`: the upstream status is in the 2xx range. */
  predicate IsOk(status: int) {
    200 <= status <= 299
  }

  /* -------------------------------------------------------- CORS handling */

  /** The request's `Origin` header, with a missing or empty header read as the empty string (worker.js:31). */
  function RequestOrigin(req: Request): (o: string)
    ensures Truthy(req.origin) ==> o == req.origin.value
    ensures !Truthy(req.origin) ==> o == ""
  {
    if Truthy(req.origin) then req.origin.value else ""
  }

  /** The allow-list read from its configured text: the comma-separated fields, each trimmed (worker.js:32). */
  function OriginList(raw: string): (list: seq<string>)
    ensures |list| >= 1
    ensures forall i :: 0 <= i < |list| ==> IsTrimmed(list[i]) && ',' !in list[i]
  {
    var parts := Split(raw, ',');
    var list := seq(|parts|, i requires 0 <= i < |parts| => Trim(parts[i]));
    assert forall i :: 0 <= i < |list| ==> ',' !in list[i] by {
      forall i | 0 <= i < |list| ensures ',' !in list[i] {
        if ',' in list[i] { TrimKeepsCharacters(parts[i], ','); }
      }
    }
    list
  }

  /** The allow-list of the environment; a missing or empty setting is read as the empty text (worker.js:32). */
  function AllowedOrigins(env: Env): (list: seq<string>)
    ensures !Truthy(env.allowedOrigins) ==> list == [""]
  {
    OriginList(if Truthy(env.allowedOrigins) then env.allowedOrigins.value else "")
  }

  /** The value of `Access-Control-Allow-Origin`: the request origin when allowed, else the first entry or `*`. */
  function NegotiateOrigin(origin: string, allowed: seq<string>): (r: string)
    requires |allowed| >= 1
    ensures origin in allowed ==> r == origin
    ensures origin !in allowed && allowed[0] != "" ==> r == allowed[0]
    ensures origin !in allowed && allowed[0] == "" ==> r == "*"
    ensures r in allowed || r == "*"
  {
    if origin in allowed then origin else if allowed[0] != "" then allowed[0] else "*"
  }

  function CorsHeaders(allowOrigin: string): (h: Headers)
    ensures h.Keys == {AllowOrigin, AllowMethods, AllowHeaders, MaxAge}
    ensures h[AllowOrigin] == allowOrigin
    ensures h[AllowMethods] == "GET, OPTIONS" && h[AllowHeaders] == "Content-Type" && h[MaxAge] == "86400"
  {
    map[AllowOrigin := allowOrigin,
        AllowMethods := "GET, OPTIONS",
        AllowHeaders := "Content-Type",
        MaxAge := "86400"]
  }

  /** The origin the worker grants to `req` under `env` (worker.js:31-33). */
  function GrantedOrigin(req: Request, env: Env): (granted: string)
    ensures RequestOrigin(req) in AllowedOrigins(env) ==> granted == RequestOrigin(req)
    ensures RequestOrigin(req) !in AllowedOrigins(env) && AllowedOrigins(env)[0] != ""
            ==> granted == AllowedOrigins(env)[0]
    ensures RequestOrigin(req) !in AllowedOrigins(env) && AllowedOrigins(env)[0] == "" ==> granted == "*"
  {
    NegotiateOrigin(RequestOrigin(req), AllowedOrigins(env))
  }

  /* -------------------------------------------------------- JSON response */

  /** A JSON answer: the CORS headers, a JSON content type, and a cache directive for a positive time to live (worker.js:166-177). */
  function JsonResponse(body: Body, status: int, cors: Headers, cacheTtl: int): (r: Response)
    ensures r.status == status && r.body == body
    ensures r.headers.Keys == cors.Keys + {ContentType} + (if cacheTtl > 0 then {CacheControl} else {})
    ensures r.headers[ContentType] == JsonContentType
    ensures cacheTtl > 0 ==> r.headers[CacheControl] == "public, max-age=" + DecimalString(cacheTtl)
    ensures forall k :: k in cors && k != ContentType && !(cacheTtl > 0 && k == CacheControl)
                        ==> r.headers[k] == cors[k]
  {
    var headers := cors[ContentType := JsonContentType];
    var headers := if cacheTtl > 0 then headers[CacheControl := "public, max-age=" + DecimalString(cacheTtl)]
                   else headers;
    Response(status, headers, body)
  }

  /* ------------------------------------------------------------- photos */

  /** The upstream item is an image or a carousel album. */
  predicate IsPhotoMedia(item: MediaItem) {
    item.mediaType == Some("IMAGE") || item.mediaType == Some("CAROUSEL_ALBUM")
  }

  /** The images and carousel albums of the upstream list, in their order (worker.js:101-102). */
  function FilterPhotoMedia(items: seq<MediaItem>): (r: seq<MediaItem>)
    ensures |r| <= |items|
    ensures forall x :: x in r <==> x in items && IsPhotoMedia(x)
  {
    if items == [] then []
    else if IsPhotoMedia(items[0]) then [items[0]] + FilterPhotoMedia(items[1..])
    else FilterPhotoMedia(items[1..])
  }

  /** How many leading items a slice from 0 to `end` keeps; a negative `end` counts from the back (worker.js:103). */
  function SliceEnd(len: nat, end: int): (k: nat)
    ensures k <= len
    ensures end >= 0 ==> k == if end < len then end else len
    ensures end < 0 ==> k == if len + end > 0 then len + end else 0
  {
    if end < 0 then (if len + end > 0 then len + end else 0)
    else if end < len then end else len
  }

  /** The mapping of one upstream item to the returned photo. */
  function ToPhoto(item: MediaItem): (p: Photo)
    ensures p.id == item.id && p.mediaType == item.mediaType && p.mediaUrl == item.mediaUrl
    ensures p.permalink == item.permalink && p.timestamp == item.timestamp
    ensures !Truthy(item.thumbnailUrl) ==> p.thumbnailUrl == item.mediaUrl
    ensures Truthy(item.thumbnailUrl) ==> p.thumbnailUrl == item.thumbnailUrl
    ensures !Truthy(item.caption) ==> p.caption == ""
    ensures Truthy(item.caption) ==> p.caption == item.caption.value
  {
    Photo(
      item.id,
      item.mediaType,
      item.mediaUrl,
      if Truthy(item.thumbnailUrl) then item.thumbnailUrl else item.mediaUrl,
      item.permalink,
      if Truthy(item.caption) then item.caption.value else "",
      item.timestamp)
  }

  /** The number of photos to return: the parsed setting, or 6 when it is NaN or zero (worker.js:77). */
  function PhotoCount(parsed: Option<int>): (n: int)
    ensures n != 0
    ensures parsed == None || parsed == Some(0) ==> n == DefaultPhotoCount
    ensures parsed.Some? && parsed.value != 0 ==> n == parsed.value
  {
    if parsed.Some? && parsed.value != 0 then parsed.value else DefaultPhotoCount
  }

  /** The filter, slice and map chain that turns the upstream list into the returned photos. */
  function SelectPhotos(items: seq<MediaItem>, count: int): (photos: seq<Photo>)
    ensures |photos| == SliceEnd(|FilterPhotoMedia(items)|, count)
    ensures forall i :: 0 <= i < |photos| ==> photos[i] == ToPhoto(FilterPhotoMedia(items)[i])
  {
    var kept := FilterPhotoMedia(items);
    var prefix := kept[..SliceEnd(|kept|, count)];
    seq(|prefix|, i requires 0 <= i < |prefix| => ToPhoto(prefix[i]))
  }

  /* ------------------------------------------------------------ handlers */

  /** The photo endpoint (worker.js:66-128), with `upstream` the outcome of its one upstream call. */
  function HandleInstagramRequest(env: Env, cors: Headers, upstream: Upstream): (r: Response)
    ensures r.status in {200, 500, 502}
    ensures r.body != NoBody
    ensures r.headers.Keys == cors.Keys + {ContentType} + (if r.status == 200 then {CacheControl} else {})
    ensures r.headers[ContentType] == JsonContentType
    ensures forall k :: k in cors && k != ContentType && k != CacheControl ==> r.headers[k] == cors[k]
    ensures r.status == 200 ==> r.headers[CacheControl] == "public, max-age=3600"
  {
    assert DecimalString(SuccessCacheTtl) == "3600" by {
      assert DecimalString(3) == "3";
      assert DecimalString(36) == "36";
      assert DecimalString(360) == "360";
    }
    if !Truthy(env.accessToken) then
      JsonResponse(ErrorBody(TokenMissingMessage), 500, cors, 0)
    else
      var count := PhotoCount(env.photoCount);
      match upstream
      case Threw => JsonResponse(ErrorBody(InternalErrorMessage), 500, cors, 0)
      case Responded(status, payload) =>
        if !IsOk(status) then
          JsonResponse(UpstreamErrorBody(UpstreamErrorMessage, status), 502, cors, 0)
        else
          match payload
          case Malformed => JsonResponse(ErrorBody(InternalErrorMessage), 500, cors, 0)
          case Feed(data) =>
            var photos := SelectPhotos(data.GetOr([]), count);
            JsonResponse(PhotosBody(photos, |photos|), 200, cors, SuccessCacheTtl)
  }

  /** The worker's `fetch` entry point: CORS negotiation, then routing. */
  function Fetch(req: Request, env: Env, upstream: Upstream): (r: Response)
    ensures r.status in {200, 204, 404, 500, 502}
    ensures r.status == 204 <==> req.verb == "OPTIONS"
    ensures r.status == 404 <==> req.verb != "OPTIONS" && !(req.path == ApiPath && req.verb == "GET")
    ensures r.body == NoBody <==> r.status == 204
  {
    var cors := CorsHeaders(GrantedOrigin(req, env));
    if req.verb == "OPTIONS" then
      Response(204, cors, NoBody)
    else if req.path == ApiPath && req.verb == "GET" then
      HandleInstagramRequest(env, cors, upstream)
    else
      Response(404, cors[ContentType := NotFoundContentType], ErrorBody(NotFoundMessage))
  }
}
