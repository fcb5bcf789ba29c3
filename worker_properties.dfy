/**
 * What the worker promises its callers, stated over the model in worker.dfy:
 * the routing table, the CORS headers on every answer, the order of the checks in the
 * photo handler, the shape of the photo list and which answers are cacheable.
 */
module WorkerProperties {
  import opened Wrappers
  import opened JsString
  import opened Worker

  /* -------------------------------------------------------------- routing */

  /** A preflight request gets 204, a null body and exactly the four CORS headers, whatever its path. */
  lemma OptionsIsPreflight(req: Request, env: Env, upstream: Upstream)
    requires req.verb == "OPTIONS"
    ensures Fetch(req, env, upstream).status == 204
    ensures Fetch(req, env, upstream).body == NoBody
    ensures Fetch(req, env, upstream).headers == CorsHeaders(GrantedOrigin(req, env))
    ensures |Fetch(req, env, upstream).headers.Keys| == 4
  {
  }

  /** `GET /api/instagram` is answered by the photo handler, with the negotiated CORS headers. */
  lemma ApiRouteIsHandled(req: Request, env: Env, upstream: Upstream)
    requires req.path == ApiPath && req.verb == "GET"
    ensures Fetch(req, env, upstream) == HandleInstagramRequest(env, CorsHeaders(GrantedOrigin(req, env)), upstream)
  {
  }

  /** Any other request that is not `GET /api/instagram` gets 404 with a plain JSON content type and no caching. */
  lemma UnknownRouteIsNotFound(req: Request, env: Env, upstream: Upstream)
    requires req.verb != "OPTIONS" && !(req.path == ApiPath && req.verb == "GET")
    ensures Fetch(req, env, upstream).status == 404
    ensures Fetch(req, env, upstream).body == ErrorBody(NotFoundMessage)
    ensures Fetch(req, env, upstream).headers[ContentType] == NotFoundContentType
    ensures Fetch(req, env, upstream).headers.Keys == CorsHeaders(GrantedOrigin(req, env)).Keys + {ContentType}
    ensures CacheControl !in Fetch(req, env, upstream).headers
  {
    var cors := CorsHeaders(GrantedOrigin(req, env));
    assert CacheControl !in cors && CacheControl != ContentType;
    assert Fetch(req, env, upstream) == Response(404, cors[ContentType := NotFoundContentType], ErrorBody(NotFoundMessage));
  }

  /** Every answer carries the CORS headers with the negotiated origin. */
  lemma EveryResponseCarriesCors(req: Request, env: Env, upstream: Upstream)
    ensures var cors := CorsHeaders(GrantedOrigin(req, env));
            forall k :: k in cors ==> k in Fetch(req, env, upstream).headers
                                      && Fetch(req, env, upstream).headers[k] == cors[k]
  {
    var cors := CorsHeaders(GrantedOrigin(req, env));
    var r := Fetch(req, env, upstream);
    assert ContentType !in cors && CacheControl !in cors;
    if req.verb == "OPTIONS" {
      assert r.headers == cors;
    } else if req.path == ApiPath && req.verb == "GET" {
      assert r == HandleInstagramRequest(env, cors, upstream);
      forall k | k in cors ensures k in r.headers && r.headers[k] == cors[k] {
        assert k != ContentType && k != CacheControl;
      }
    } else {
      assert r.headers == cors[ContentType := NotFoundContentType];
    }
  }

  /** Only the 200 answer is cacheable, and then for an hour. */
  lemma OnlySuccessIsCacheable(req: Request, env: Env, upstream: Upstream)
    ensures CacheControl in Fetch(req, env, upstream).headers <==> Fetch(req, env, upstream).status == 200
    ensures Fetch(req, env, upstream).status == 200
            ==> Fetch(req, env, upstream).headers[CacheControl] == "public, max-age=3600"
  {
    var cors := CorsHeaders(GrantedOrigin(req, env));
    assert CacheControl !in cors;
    var r := Fetch(req, env, upstream);
    if req.verb == "OPTIONS" {
      assert r.headers == cors && r.status == 204;
    } else if req.path == ApiPath && req.verb == "GET" {
      assert r == HandleInstagramRequest(env, cors, upstream);
    } else {
      assert r.headers == cors[ContentType := NotFoundContentType] && r.status == 404;
    }
  }

  /** `jsonResponse` adds `Cache-Control` exactly when the time to live is positive. */
  lemma CacheControlIffPositiveTtl(body: Body, status: int, origin: string, ttl: int)
    ensures CacheControl in JsonResponse(body, status, CorsHeaders(origin), ttl).headers <==> ttl > 0
  {
  }

  /* ------------------------------------------------------- CORS negotiation */

  /** The granted origin is one the operator listed, or the wildcard. */
  lemma GrantedOriginIsListedOrWildcard(req: Request, env: Env, upstream: Upstream)
    ensures var granted := Fetch(req, env, upstream).headers[AllowOrigin];
            granted in AllowedOrigins(env) || granted == "*"
  {
    EveryResponseCarriesCors(req, env, upstream);
  }

  /** A listed origin is echoed back. */
  lemma ListedOriginIsEchoed(req: Request, env: Env, upstream: Upstream)
    requires Truthy(req.origin) && req.origin.value in AllowedOrigins(env)
    ensures Fetch(req, env, upstream).headers[AllowOrigin] == req.origin.value
  {
    EveryResponseCarriesCors(req, env, upstream);
  }

  /** An unlisted origin is granted the first configured entry, or `*` when that entry is empty. */
  lemma UnlistedOriginFallsBack(req: Request, env: Env, upstream: Upstream)
    requires RequestOrigin(req) !in AllowedOrigins(env)
    ensures AllowedOrigins(env)[0] != "" ==> Fetch(req, env, upstream).headers[AllowOrigin] == AllowedOrigins(env)[0]
    ensures AllowedOrigins(env)[0] == "" ==> Fetch(req, env, upstream).headers[AllowOrigin] == "*"
  {
    EveryResponseCarriesCors(req, env, upstream);
  }

  /**
   * With no allow-list configured the list is `[""]`: a request without an `Origin`
   * header then matches the empty entry and is granted `""`, while one with an origin gets `*`.
   */
  lemma UnconfiguredOrigins(req: Request, env: Env, upstream: Upstream)
    requires !Truthy(env.allowedOrigins)
    ensures !Truthy(req.origin) ==> Fetch(req, env, upstream).headers[AllowOrigin] == ""
    ensures Truthy(req.origin) ==> Fetch(req, env, upstream).headers[AllowOrigin] == "*"
  {
    EveryResponseCarriesCors(req, env, upstream);
  }

  /** A configured allow-list setting is read by `OriginList`: its comma-separated fields, each trimmed. */
  lemma ConfiguredOrigins(env: Env)
    requires Truthy(env.allowedOrigins)
    ensures AllowedOrigins(env) == OriginList(env.allowedOrigins.value)
  {
  }

  /**
   * Any allow-list text, written as its comma-separated fields, is read as those fields
   * each trimmed. Every text has this form (`JoinSplit`), so this determines `OriginList`.
   */
  lemma OriginListOfJoin(fields: seq<string>)
    requires |fields| >= 1
    requires forall i :: 0 <= i < |fields| ==> ',' !in fields[i]
    ensures OriginList(Join(fields, ',')) == seq(|fields|, i requires 0 <= i < |fields| => Trim(fields[i]))
  {
    SplitJoin(fields, ',');
  }

  /** A setting such as `"https://a.example, https://b.example"` allows `https://b.example`. */
  lemma PaddedSecondEntryIsAllowed(first: string, pad: string, second: string, env: Env)
    requires ',' !in first && ',' !in pad && ',' !in second
    requires AllWhiteSpace(pad) && IsTrimmed(second)
    requires env.allowedOrigins == Some(first + [','] + pad + second)
    ensures second in AllowedOrigins(env)
  {
    var raw := first + [','] + pad + second;
    assert raw == Join([first, pad + second], ',');
    assert ',' !in pad + second by {
      forall n | 0 <= n < |pad + second| ensures (pad + second)[n] != ',' {
        if n < |pad| { assert (pad + second)[n] == pad[n]; }
        else { assert (pad + second)[n] == second[n - |pad|]; }
      }
    }
    OriginListOfJoin([first, pad + second]);
    assert AllowedOrigins(env) == OriginList(raw);
    TrimPadded(pad, second, []);
    assert pad + second + [] == pad + second;
    assert AllowedOrigins(env)[1] == second;
  }

  /** An allow-list written as trimmed, comma-free entries joined by commas is read back entry for entry. */
  lemma ConfiguredOriginsReadBack(parts: seq<string>, env: Env)
    requires |parts| >= 1
    requires forall i :: 0 <= i < |parts| ==> IsTrimmed(parts[i]) && ',' !in parts[i]
    requires env.allowedOrigins == Some(Join(parts, ','))
    ensures AllowedOrigins(env) == parts
  {
    OriginListOfJoin(parts);
    assert AllowedOrigins(env) == OriginList(Join(parts, ','));
    var list := OriginList(Join(parts, ','));
    assert |list| == |parts|;
    forall i | 0 <= i < |parts| ensures list[i] == parts[i] {
      TrimTrimmed(parts[i]);
    }
  }

  /** An entry surrounded by white space in the configuration still matches the bare origin. */
  lemma PaddedEntryMatches(pad1: string, origin: string, pad2: string, env: Env)
    requires AllWhiteSpace(pad1) && AllWhiteSpace(pad2) && IsTrimmed(origin) && ',' !in origin
    requires env.allowedOrigins == Some(pad1 + origin + pad2)
    requires ',' !in pad1 && ',' !in pad2
    ensures AllowedOrigins(env) == [origin]
  {
    assert AllowedOrigins(env) == OriginList(pad1 + origin + pad2);
    var raw := pad1 + origin + pad2;
    assert ',' !in raw by {
      forall n | 0 <= n < |raw| ensures raw[n] != ',' {
        if n < |pad1| { assert raw[n] == pad1[n]; }
        else if n < |pad1| + |origin| { assert raw[n] == origin[n - |pad1|]; }
        else { assert raw[n] == pad2[n - |pad1| - |origin|]; }
      }
    }
    SplitNoSeparator(raw, ',');
    TrimPadded(pad1, origin, pad2);
  }

  /* ------------------------------------------------------ the photo handler */

  /** Without a token the handler answers 500 before the upstream is consulted: its outcome does not matter. */
  lemma TokenCheckedFirst(env: Env, cors: Headers, up1: Upstream, up2: Upstream)
    requires !Truthy(env.accessToken)
    ensures HandleInstagramRequest(env, cors, up1) == HandleInstagramRequest(env, cors, up2)
    ensures HandleInstagramRequest(env, cors, up1).status == 500
    ensures HandleInstagramRequest(env, cors, up1).body == ErrorBody(TokenMissingMessage)
  {
  }

  /** A non-2xx upstream answer becomes 502 carrying the upstream status. */
  lemma UpstreamErrorIsBadGateway(env: Env, cors: Headers, status: int, payload: Payload)
    requires Truthy(env.accessToken) && !IsOk(status)
    ensures HandleInstagramRequest(env, cors, Responded(status, payload)).status == 502
    ensures HandleInstagramRequest(env, cors, Responded(status, payload)).body
            == UpstreamErrorBody(UpstreamErrorMessage, status)
  {
  }

  /** A throw inside the `try` (the call itself, or reading a 2xx body) becomes 500 "Internal server error". */
  lemma ThrowIsInternalError(env: Env, cors: Headers, upstream: Upstream)
    requires Truthy(env.accessToken)
    requires upstream.Threw? || (IsOk(upstream.status) && upstream.payload.Malformed?)
    ensures HandleInstagramRequest(env, cors, upstream).status == 500
    ensures HandleInstagramRequest(env, cors, upstream).body == ErrorBody(InternalErrorMessage)
  {
  }

  /** A readable 2xx feed becomes 200 with the selected photos and their number. */
  lemma FeedIsSuccess(env: Env, cors: Headers, status: int, data: Option<seq<MediaItem>>)
    requires Truthy(env.accessToken) && IsOk(status)
    ensures var r := HandleInstagramRequest(env, cors, Responded(status, Feed(data)));
            r.status == 200
            && r.body == PhotosBody(SelectPhotos(data.GetOr([]), PhotoCount(env.photoCount)), |r.body.photos|)
            && r.body.count == |r.body.photos|
  {
  }

  /* ------------------------------------------------- filtering and slicing */

  /** Greedy matching: `a` occurs in `b` in order, possibly with gaps. */
  ghost predicate IsSubsequence<T>(a: seq<T>, b: seq<T>)
    decreases |b|
  {
    a == [] || (b != [] && if a[0] == b[0] then IsSubsequence(a[1..], b[1..]) else IsSubsequence(a, b[1..]))
  }

  /** The filter keeps the upstream order. */
  lemma {:induction false} FilterIsSubsequence(items: seq<MediaItem>)
    ensures IsSubsequence(FilterPhotoMedia(items), items)
  {
    if items != [] {
      FilterIsSubsequence(items[1..]);
    }
  }

  /** The filter keeps every image and album as often as it occurs, and nothing else. */
  lemma {:induction false} FilterCounts(items: seq<MediaItem>, x: MediaItem)
    ensures multiset(FilterPhotoMedia(items))[x] == if IsPhotoMedia(x) then multiset(items)[x] else 0
  {
    if items != [] {
      FilterCounts(items[1..], x);
      assert items == [items[0]] + items[1..];
    }
  }

  /** Filtering distributes over concatenation. */
  lemma {:induction false} FilterAppend(xs: seq<MediaItem>, ys: seq<MediaItem>)
    ensures FilterPhotoMedia(xs + ys) == FilterPhotoMedia(xs) + FilterPhotoMedia(ys)
  {
    if xs != [] {
      FilterAppend(xs[1..], ys);
      assert (xs + ys)[0] == xs[0];
      assert (xs + ys)[1..] == xs[1..] + ys;
      if IsPhotoMedia(xs[0]) {
        assert FilterPhotoMedia(xs + ys) == [xs[0]] + FilterPhotoMedia(xs[1..] + ys);
        assert FilterPhotoMedia(xs) == [xs[0]] + FilterPhotoMedia(xs[1..]);
      } else {
        assert FilterPhotoMedia(xs + ys) == FilterPhotoMedia(xs[1..] + ys);
      }
    } else {
      assert xs + ys == ys;
    }
  }

  /** A feed of images and albums only passes the filter unchanged. */
  lemma {:induction false} FilterKeepsPhotoFeed(items: seq<MediaItem>)
    requires forall i :: 0 <= i < |items| ==> IsPhotoMedia(items[i])
    ensures FilterPhotoMedia(items) == items
  {
    if items != [] {
      FilterKeepsPhotoFeed(items[1..]);
    }
  }

  /** Every returned photo is an image or an album. */
  lemma PhotosAreImagesOrAlbums(items: seq<MediaItem>, count: int)
    ensures forall i :: 0 <= i < |SelectPhotos(items, count)|
              ==> SelectPhotos(items, count)[i].mediaType in {Some("IMAGE"), Some("CAROUSEL_ALBUM")}
  {
    var kept := FilterPhotoMedia(items);
    forall i | 0 <= i < |SelectPhotos(items, count)|
      ensures SelectPhotos(items, count)[i].mediaType in {Some("IMAGE"), Some("CAROUSEL_ALBUM")}
    {
      assert kept[i] in kept;
    }
  }

  /** Every returned photo is the mapping of an image or album of the upstream list. */
  lemma PhotosComeFromUpstream(items: seq<MediaItem>, count: int, i: nat)
    requires i < |SelectPhotos(items, count)|
    ensures exists j :: 0 <= j < |items| && IsPhotoMedia(items[j])
                        && SelectPhotos(items, count)[i] == ToPhoto(items[j])
  {
    var kept := FilterPhotoMedia(items);
    assert kept[i] in kept;
    var j :| 0 <= j < |items| && items[j] == kept[i];
  }

  /** For a non-negative count the photos are the first `min(count, |filtered|)` images and albums, in order. */
  lemma PhotosArePrefix(items: seq<MediaItem>, count: int)
    requires count >= 0
    ensures var kept := FilterPhotoMedia(items);
            var n := if count < |kept| then count else |kept|;
            |SelectPhotos(items, count)| == n
            && forall i :: 0 <= i < n ==> SelectPhotos(items, count)[i] == ToPhoto(kept[i])
  {
  }

  /** A negative count, as `slice(0, n)` reads it, drops the last `-n` images and albums. */
  lemma NegativeCountDropsTail(items: seq<MediaItem>, count: int)
    requires count < 0
    ensures var kept := FilterPhotoMedia(items);
            |SelectPhotos(items, count)| == if |kept| + count > 0 then |kept| + count else 0
  {
  }

  /** A photo-only feed of at least `count` items yields exactly its first `count` entries. */
  lemma FirstCountOfPhotoFeed(items: seq<MediaItem>, count: int)
    requires forall i :: 0 <= i < |items| ==> IsPhotoMedia(items[i])
    requires 0 <= count <= |items|
    ensures |SelectPhotos(items, count)| == count
    ensures forall i :: 0 <= i < count ==> SelectPhotos(items, count)[i] == ToPhoto(items[i])
  {
    FilterKeepsPhotoFeed(items);
  }

  /** A video between an image and an album is dropped; the two others come back in order. */
  lemma VideoIsDropped(video: MediaItem, image: MediaItem, album: MediaItem)
    requires video.mediaType == Some("VIDEO")
    requires image.mediaType == Some("IMAGE") && album.mediaType == Some("CAROUSEL_ALBUM")
    ensures SelectPhotos([video, image, album], DefaultPhotoCount) == [ToPhoto(image), ToPhoto(album)]
  {
    assert [video, image, album][1..] == [image, album];
    assert [image, album][1..] == [album];
    assert [album][1..] == [];
    assert FilterPhotoMedia([album]) == [album];
    assert FilterPhotoMedia([image, album]) == [image, album];
    assert FilterPhotoMedia([video, image, album]) == [image, album];
  }
}
