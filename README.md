# gothumb: the resize handler, modelled in Dafny

gothumb is a small HTTP service that serves thumbnails. A request to
`/resize/:size/*source` names a size token (looked up in the configured `sizes`
table, e.g. `thumb` → `100x100`) and a source image. The source is either an
absolute URL on an origin web server or a key in an S3 bucket. The request must carry
a `Signature` header that signs its escaped path. The handler goes through these steps:

1. it resolves the size;
2. it checks the signature;
3. it derives a cache key `cache/<dir><size>/<file>` from the stripped source, which
   is the parsed source with its scheme and host cleared;
4. with no bucket configured, it fetches the source (scheme and host stripped),
   renders it with vips and sends it, and stores nothing;
5. with a bucket, on a hit, it serves the cached object from S3;
6. with a bucket, on a miss, it renders from the object in the bucket (a source
   without a host) or from the origin (a source with one), sends it, and schedules a
   store of the result under the cache key.

Every error reported with `http.Error` uses a status in 601–611. The exceptions
listed further down are answered otherwise: with 200, or with no status at all when
the handler panics.

The model covers these parts of `main.go`:

- `parseWidthAndHeight`, over the pieces of `strings.Split` and `strconv.Atoi` it uses;
- the cache-key expression;
- `validateSignature` and its `subtle.ConstantTimeCompare`;
- the status check of `getImageFromURL`;
- `generateThumbnail` (marker classification, the `result` record, headers, write, store);
- `setResultHeaders` / `setCacheHeaders`;
- `handleResize`, as one straight-line method over its collaborators.

Module guide:

- **Wrappers**: `Option`, and `Result` with the error kept as its message.
- **Strconv**: `Atoi` as Go defines it on 64-bit platforms (sign, digits, overflow
  against 2^64 and then against the int64 range, syntax and range errors with their
  messages), and `FormatInt` in base 10.
- **GoStrings**: the string functions the handler calls:
  - `strings.Split` on a one-character separator, with `Count` and `Join`;
  - `strings.TrimPrefix`;
  - `path.Split`.
- **Sizes**: `parseWidthAndHeight`.
- **CacheKey**: the key `"cache/" + dir + size + "/" + file`.
- **Signature**: the signature comparison. The expected value, base64 of an
  HMAC-SHA3-256, is a function parameter.
- **Records**: the values that pass through a request. `Env` collects the
  collaborators, each as a deterministic function:
  - HMAC signing;
  - `url.Parse` (its result is the host, the full `String()`, and the `String()` with
    scheme and host cleared);
  - the S3 session error, and `GetObject`;
  - `http.Get`;
  - `vips.Resize`;
  - the MD5 hex digest.
- **Http**: the part of `net/http` the handler relies on:
  - a `Response` class holding the header map, the status line, the header snapshot
    sent with it, the declared Content-Length, the bytes written and the body chunks,
    plus the scheduled stores and a log of collaborator calls;
  - `Header().Set` canonicalises its key;
  - the first `WriteHeader` wins;
  - a write without a status line sends 200 first;
  - a write past the declared Content-Length fails;
  - `http.Error` sets Content-Type and nosniff, writes the status and then the message
    with a newline;
  - `io.Copy` writes the body's bytes, then reports the body's read error.

  Every method is specified by a function on the value `Exchange`.
- **Thumbnail**: `generateThumbnail` and the header setters. Each is a method on
  `Response`, specified by a function.
- **Origin**: `getImageFromURL`'s decision on the origin's reply.
- **Handler**: `handleResize`. The method `HandleResize` is proved equal to the
  function `HandleResizeSpec`, which follows the source branch by branch. Its outcome
  is `Completed`, `Rejected(code)` (the last `http.Error` code) or `Aborted` (a
  panic). The properties of the handler are lemmas about that function.

The model keeps what the code does at these points:

- The size is checked (601) before the signature (602).
- Without a bucket, the handler fetches the source with scheme and host stripped.
- The stored-origin lookup uses the untrimmed `source` parameter (with its leading
  '/').
- After the 610 error there is no `return`. `generateThumbnail` then runs on a nil
  body and panics (`Aborted`), after the 610 text has been written.
- After a stored-origin render succeeds, control falls through to `setResultHeaders`
  and `io.Copy` on the origin object, whose body `generateThumbnail` has already
  closed. The copy fails with "http: read on closed response body", so the handler
  calls `http.Error(…, 611)`. By then the response already carries status 200, the
  thumbnail and its Content-Length, so the 611 text is refused (lemma
  `StoredOriginFallsThrough`).

Where the code and the service's own description differ, the model follows the code:

- the size is checked before the signature;
- a size side may be any int64, including zero or a negative number;
- `Atoi`'s own message is returned for a non-numeric side, instead of "Invalid size
  requested";
- statuses are 601–611, not 400/401/404;
- no scheme is checked: with a bucket, a miss on a source with a host fetches that URL
  whatever its scheme, and without a bucket the stripped source is fetched as it is;
- no `Expires` header is set;
- the key is built from the stripped source. For the source URL
  `http://example.com/a.jpg` the stripped source is `/a.jpg`, so with size `thumb`
  the key is `cache//thumb/a.jpg` (`RootSourceKey`). A bucket source parameter
  `/a.jpg` is first trimmed to `a.jpg`, and its key is `cache/thumb/a.jpg`;
- keys identify (stripped source, size) only for a `/`-free size token
  (`ResultPathInjective`). `SlashInTokenCollides` shows a collision when the token
  holds a slash;
- sources that differ only in scheme or host, such as `http://a.example/x.jpg` and
  `https://b.example/x.jpg`, share one key, and a cache hit for one is served for the
  other (`HostsShareCacheKey`);
- a session error is fatal (606), while any `GetObject` error on the cache key is
  treated as a miss;
- errors after 610 are ignored;
- a render error on the remote path is dropped: the handler returns having written
  nothing, so the client gets 200 with an empty body (`RemoteRenderErrorDropped`);
- a panic (a nil body after 610, or a rendered buffer under two bytes) sends no status;
- a stored-origin render ends with a 611 attempt.

## Model

| member | source | states |
|---|---|---|
| Sizes.ParseWidthAndHeight | main.go:363-388 | every error returns (0, 0); an unknown token, or a value without exactly one 'x', gives exactly "Invalid size requested"; success means the token is mapped to "W x H" with both sides decimal int64 values equal to the result |
| Sizes.ParseSides | main.go:365-383 | for a value a+"x"+b, success iff both sides Atoi-parse, the result is exactly the two parsed values, and a failing side's own Atoi error is returned (first side first) |
| Sizes.ParseComplete | main.go:365-383 | whenever the mapped value is a valid "WxH", the parse returns exactly (W, H) with no error |
| Sizes.ParseFormatted | main.go:365-383 | a value written as FormatInt(w)+"x"+FormatInt(h) resolves to (w, h) |
| Sizes.ThumbIs100By100 | main.go:363-388 | the token "thumb" mapped to "100x100" resolves to (100, 100) |
| Strconv.AtoiMeaning | main.go:371-381 | Atoi succeeds iff the text is an optional sign and decimal digits whose value lies in the int64 range; it then returns that value, otherwise a syntax or range error quoting the text |
| Strconv.AtoiFormat | main.go:396 | parsing the decimal text of any int64 gives that int64 back |
| Strconv.FormatInjective | main.go:396 | distinct int64 values have distinct decimal texts |
| Strconv.FormatIsDecimal | main.go:396 | FormatInt's text is a signed decimal of its argument and holds neither 'x' nor '/' |
| Strconv.Digits | main.go:396 | the digits of n have value n and no leading zero |
| GoStrings.SplitLength | main.go:365-367 | Split yields one more piece than there are separators |
| GoStrings.SplitPiecesFree | main.go:365-367 | no piece of Split holds the separator |
| GoStrings.JoinSplit | main.go:365 | joining the pieces with the separator rebuilds the string |
| GoStrings.SplitPair | main.go:365-367 | a+"x"+b with separator-free sides splits into exactly [a, b] |
| GoStrings.IndexOf | main.go:365 | the first position of the character, or -1 exactly when it is absent |
| GoStrings.LastIndex | main.go:185 | the last position of the character, or -1 exactly when it is absent |
| GoStrings.TrimPrefix | main.go:176 | with the prefix present the result is the rest after it; otherwise the string is unchanged |
| GoStrings.PathSplit | main.go:185 | dir + file is the path, file holds no '/', and dir is empty or ends in '/' |
| GoStrings.PathSplitUnique | main.go:185 | the split is the only one with those properties |
| CacheKey.ResultPath | main.go:183-186 | the key starts with "cache/" and is as long as prefix, source, size and one '/' together |
| CacheKey.ResultPathOfParts | main.go:183-186 | for dir + file split as path.Split does, the key is "cache/" + dir + size + "/" + file |
| CacheKey.ResultPathKeepsFileName | main.go:185-186 | the key ends in the source's file name |
| CacheKey.RootSourceKey | main.go:183-186 | the source "/a.jpg" with size "thumb" gives "cache//thumb/a.jpg" (any slash-free file, any size) |
| CacheKey.ResultPathInjective | main.go:183-186 | for slash-free size tokens, equal keys mean equal source and equal size |
| CacheKey.SlashInTokenCollides | main.go:186 | a size token holding '/' makes two different (source, size) pairs share a key |
| Signature.ConstantTimeCompare | main.go:444 | returns 1 exactly when the two byte strings are equal (length mismatches included), 0 otherwise |
| Signature.ValidateSignature | main.go:435-449 | no error iff the supplied signature equals the expected signature of the path under the key; otherwise "Signature mismatch" |
| Origin.GetImageFromUrl | main.go:349-361 | success iff the GET succeeded with status 200, and then the body is the reply's; a transport error is passed on; any other status gives "Unexpected status code from source: N" |
| Origin.StatusErrorReadable | main.go:356-358 | the status message is the fixed prefix followed by the decimal that reads back as the status |
| Origin.StatusErrorInjective | main.go:357 | different statuses give different messages |
| Thumbnail.ContentTypeOf | main.go:317-326 | "image/jpeg" iff the first two bytes are the JPEG marker, "image/png" iff they are the PNG marker, none otherwise |
| Thumbnail.Prepare | main.go:304-334 | a thumbnail is ready iff vips succeeds with at least two bytes of a known format, and then the result holds those bytes, their length, their MD5 hex digest and the given path; fewer than two bytes panics |
| Thumbnail.UnknownFormatTouchesNothing | main.go:319-326 | an unknown marker returns "Unknown image format" with no header set, no byte written and no store scheduled |
| Thumbnail.ResultHeaders | main.go:394-399 | the header map gains exactly "Content-Type" (the type), "Content-Length" (the decimal length), "Etag" (the quoted digest) and "Cache-Control"; nothing else in the exchange changes |
| Thumbnail.QuotedETag | main.go:397 | the ETag value is the digest between two double quotes |
| Thumbnail.CacheControlReadsBack | main.go:391 | Cache-Control is "max-age=" + the decimal age + ",public" and the age reads back |
| Thumbnail.DeclaredLength | main.go:336-338 | the status line sent after the result headers declares exactly the result's Content-Length |
| Thumbnail.ThumbnailLog | main.go:296-347 | rendering adds at most its one vips call and at most one store, under the given path, and never one without a bucket |
| Thumbnail.StoreOnlyAfterWrite | main.go:336-346 | a store is scheduled only with a bucket and only after the body write succeeded; it holds the bytes sent with their length and the given path |
| Thumbnail.FreshSend | main.go:336-346 | on a fresh response the thumbnail is sent with status 200 and exactly the result headers, all its bytes are written, and the result is stored iff a bucket is configured |
| Thumbnail.FreshThumbnail | main.go:296-346 | a successful render on a fresh response sends status 200, the result headers and the image, after exactly one vips call |
| Thumbnail.SetCacheHeaders | main.go:390-392 | the writer's header state becomes the Cache-Control update of the old one |
| Thumbnail.SetResultHeaders | main.go:394-399 | the writer's header state becomes the four-header update of the old one |
| Thumbnail.GenerateThumbnail | main.go:296-347 | the outcome and the writer's new state are those of the rendering function on the old state |
| Http.CanonicalUnique | main.go:395-397 | the canonical key is the one spelling of the same letters with capitals exactly at word starts |
| Http.CanonicalCapitalises | main.go:395-397 | canonicalising keeps the letters and capitalises word starts only |
| Http.CanonicalKeyIdempotent | main.go:395-397 | canonicalising a canonical key changes nothing |
| Http.ETagKey | main.go:397 | "ETag" is filed under "Etag" |
| Http.ContentTypeKey | main.go:395 | "Content-Type" is its own canonical key |
| Http.ContentLengthKey | main.go:396 | "Content-Length" is its own canonical key |
| Http.CacheControlKey | main.go:391 | "Cache-Control" is its own canonical key |
| Http.NosniffKey | main.go:165 | "X-Content-Type-Options", set by http.Error, is its own canonical key |
| Http.WriteHeaderOnce | main.go:165 | the first status line wins and snapshots the header map; later ones change nothing |
| Http.WriteKeepsConsistent | main.go:338 | a write keeps the writer consistent and appends the chunk exactly when it is accepted |
| Http.WriteAccepted | main.go:338 | a non-empty write is accepted iff the connection holds and it stays within the declared length; its size is counted either way |
| Http.FirstWrite | main.go:338 | the first write on a fresh writer sends 200 with the current headers and is accepted whole |
| Http.ErrorOnUntouched | main.go:165 | http.Error on a fresh writer sends the code, the text/plain and nosniff headers and the message with a newline |
| Http.ErrorSetsStatus | main.go:165 | http.Error on a writer without a status line sends the given code |
| Http.ErrorAfterStatus | main.go:277 | http.Error after a status line leaves status, sent headers and declared length alone |
| Http.CopyKeepsConsistent | main.go:276-277 | io.Copy keeps the writer consistent, appends the body on success, and reports any read error of the body |
| Http.Response.Set | main.go:395-397 | the header map gains the value under the canonical key |
| Http.Response.WriteHeader | main.go:165 | the writer's new state is the status-line update of the old one |
| Http.Response.Write | main.go:338 | the error and the new state are those of the write function on the old state |
| Http.Error | main.go:165 | the new state is the http.Error update of the old one |
| Http.Copy | main.go:276 | the error and the new state are those of the copy function on the old state |
| Handler.HandleResize | main.go:160-280 | the outcome and the final state of the response, store list and call log are those of the handler function on the initial state |
| Handler.InvalidSizeFirst | main.go:162-167 | an unresolvable size returns 601 before any signature is computed, with nothing stored or fetched; an unknown token's message is "Invalid size requested" |
| Handler.MismatchStopsEarly | main.go:169-174 | a wrong signature returns 602 after only the signing call: no lookup, no fetch, no store |
| Handler.NoBucketNoLookup | main.go:188-204 | without a bucket nothing is looked up in S3 or stored; the only fetch is of the stripped source |
| Handler.CacheHitServesObject | main.go:222-228 | a cache hit is served from the object under the cache key (its type, length and ETag, then its body) after exactly the signing and lookup calls: no origin fetch, no render, no store |
| Handler.ServeFresh | main.go:269-279 | a cached object served on a fresh response completes with status 200, headers carrying the object's type, length and ETag, and its bytes as the body |
| Handler.RejectionCodes | main.go:160-280 | every rejection code is between 601 and 611, and the handler never ends on 607 or 610 |
| Handler.RemoteFetchFailure | main.go:257-266 | a failed remote fetch writes 610 and then panics in the render, after the signing, lookup and fetch calls |
| Handler.RemoteRenderErrorDropped | main.go:257-266 | after a successful remote fetch, an unreadable body or a failed or unrecognised render returns without writing: no status line (the client sees 200), no body, no store |
| Handler.HostsShareCacheKey | main.go:183-186 | two requests whose sources strip to the same string get the same key, and on a hit both get the same outcome and the same response, apart from the call log |
| Handler.ServeCached | main.go:222-267 | the outcome and the writer's new state are those of the lookup function (hit, stored-origin miss or remote miss) on the old state |
| Handler.ServeObject | main.go:269-279 | the outcome and the writer's new state are those of the serving function (result headers from the object's metadata, then io.Copy, 611 on a copy error) on the old state |
| Handler.RenderRemote | main.go:257-266 | the outcome and the writer's new state are those of the remote-miss function on the old state: log the origin GET, 610 on a failed fetch with no return, then render a nil or the fetched body |
| Handler.ServeClosedBody | main.go:276-278 | copying a closed body after the headers were sent ends in 611 without changing the status, the headers or the body |
| Handler.StoredOriginFallsThrough | main.go:238-279 | a successful stored-origin render sends status 200 and the thumbnail, stores it once, and then ends in 611 from the copy of the closed origin body |
| Handler.StoresUnderLookupKey | main.go:183-186 | without a bucket nothing is stored; otherwise at most one result is stored, under the same key that was looked up |

## Left out

- `main`, the router and server setup, `getFile`, `handleUpload` and `storeResult`'s
  upload: these are I/O. A scheduled store is recorded as the `result` it would upload.
- `go storeResult(result)` runs concurrently and may `log.Fatal`. The model records the
  scheduled result only.
- HMAC-SHA3-256, base64, MD5, `url.Parse`/`URL.String`, `session.NewSession`,
  `GetObject`, `http.Get` and `vips.Resize` are function parameters (`Records.Env`).
  Their internals, and the vips options (crop, quality, interpolator, gravity), are
  not modelled. The parameters are deterministic, so the second `url.Parse` in the
  miss branch returns what the first did and status 607 cannot occur.
- The S3 object's metadata fields are plain values. The nil-pointer panic on a
  missing ContentType, ContentLength or ETag is not modelled.
- Signature.ConstantTimeCompare: only the result is stated, not how long the
  comparison takes.
- Strconv.NumError: the number is quoted with plain double quotes. The escaping of
  `strconv.Quote` for non-printable characters is not modelled.
- GoStrings.Split: only a one-character separator is modelled, which is the only kind
  the handler uses.
- Strings hold one character per byte; UTF-8 is not modelled.
- The `sizes` table is taken as viper returns it, with its keys already lower-cased.
- Http.Copy: models `io.Copy` as a single write of the body's bytes, followed by the
  body's read error. Chunked reads and the `ReaderFrom` path are not modelled.
- Http.Response.Write: a failing connection is a fixed per-request error that fails
  every non-empty write at once. Buffered-write timing is not modelled.
- Http.Error: models the classic `http.Error`, which leaves Content-Length alone.
  Content-Type sniffing is not modelled, since every path sets Content-Type before it
  writes.
- A panic is the outcome `Aborted`. The recovery in net/http and the dropped
  connection are not modelled.
- The origin response body is never closed on a non-200 reply. That leak is not
  modelled.
- Handler.ServeCached: `handleResize` is modelled as two methods, with this one
  holding the bucket branch (from the cache lookup on), because a single method
  would be too large to prove in one piece. `Handler.ServeObject` is the tail shared
  by the hit and the stored-origin paths (main.go:269-279), and `Handler.RenderRemote`
  is the remote-miss path (main.go:257-266), split off for the same reason.
