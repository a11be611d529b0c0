/** Rendering and answering with a thumbnail (`generateThumbnail`), and the response
    headers that describe a result (`setResultHeaders`, `setCacheHeaders`). */
module Thumbnail {
  import opened Wrappers
  import opened Strconv
  import opened Records
  import opened Http

  /** The first two bytes vips reports for a JPEG and for a PNG image. */
  const MarkerJpeg: seq<byte> := [0xff, 0xd8]
  const MarkerPng: seq<byte> := [0x89, 0x50]

  const UnknownFormat := "Unknown image format"

  /** The marker `switch`: the content type of a rendered image, by its first two
      bytes. */
  function ContentTypeOf(buf: seq<byte>): (r: Option<string>)
    requires |buf| >= 2
    ensures r == Some("image/jpeg") <==> buf[..2] == MarkerJpeg
    ensures r == Some("image/png") <==> buf[..2] == MarkerPng
    ensures r == None <==> buf[..2] != MarkerJpeg && buf[..2] != MarkerPng
  {
    if buf[..2] == MarkerJpeg then Some("image/jpeg")
    else if buf[..2] == MarkerPng then Some("image/png")
    else None
  }

  /** The `Cache-Control` value for a maximum age of `maxAge` seconds. */
  function CacheControl(maxAge: int): string {
    "max-age=" + Format(maxAge) + ",public"
  }

  function Quoted(etag: string): string { "\"" + etag + "\"" }

  /** `setCacheHeaders`. */
  function SetCacheHeadersSpec(e: Exchange, maxAge: int): Exchange {
    SetSpec(e, "Cache-Control", CacheControl(maxAge))
  }

  /** `setResultHeaders`. */
  function SetResultHeadersSpec(e: Exchange, r: RenderResult, maxAge: int): Exchange {
    var e1 := SetSpec(e, "Content-Type", r.contentType);
    var e2 := SetSpec(e1, "Content-Length", Format(r.contentLength));
    var e3 := SetSpec(e2, "ETag", Quoted(r.etag));
    SetCacheHeadersSpec(e3, maxAge)
  }

  /** How rendering ended: the thumbnail was sent, an error is returned, or the code
      panicked (reading a nil body, or slicing a buffer shorter than two bytes). */
  datatype ThumbOutcome = Done | Failed(error: string) | Panicked

  datatype Thumb = Thumb(outcome: ThumbOutcome, exchange: Exchange)

  /** `generateThumbnail(w, body, path, width, height)`, with `None` for a nil body. */
  function GenerateThumbnailSpec(
    e: Exchange, failure: Option<string>, cfg: Config, env: Env,
    body: Option<Body>, path: string, width: int, height: int): Thumb
  {
    match body
    case None => Thumb(Panicked, e)
    case Some(b) =>
      if b.readError.Some? then Thumb(Failed(b.readError.value), e)
      else
        var e1 := e.(calls := e.calls + [Render(width, height)]);
        match Prepare(env, b.data, path, width, height)
        case Crashed => Thumb(Panicked, e1)
        case Refused(msg) => Thumb(Failed(msg), e1)
        case Ready(result) => SendSpec(e1, failure, cfg, result)
  }

  /** What rendering the image read from the body gives: a result to send, an error
      to return, or a panic. */
  datatype Prepared = Ready(result: RenderResult) | Refused(error: string) | Crashed

  /** The middle of `generateThumbnail`: resize, classify by marker, and build the
      result record. */
  function Prepare(env: Env, img: seq<byte>, path: string, width: int, height: int): (p: Prepared)
    ensures p.Ready? <==>
      && env.resize(img, width, height).Ok?
      && |env.resize(img, width, height).value| >= 2
      && ContentTypeOf(env.resize(img, width, height).value).Some?
    ensures p.Ready? ==>
      var r := p.result;
      && env.resize(img, width, height) == Ok(r.data)
      && ContentTypeOf(r.data) == Some(r.contentType)
      && r.contentLength == |r.data| && r.etag == env.md5Hex(r.data) && r.path == path
    ensures p.Crashed? <==> env.resize(img, width, height).Ok? && |env.resize(img, width, height).value| < 2
  {
    match env.resize(img, width, height)
    case Err(msg) => Refused(msg)
    case Ok(buf) =>
      if |buf| < 2 then Crashed
      else match ContentTypeOf(buf)
        case None => Refused(UnknownFormat)
        case Some(contentType) => Ready(RenderResult(buf, contentType, |buf|, env.md5Hex(buf), path))
  }

  /** The end of `generateThumbnail`: describe the result in the headers, write its
      bytes, and schedule its store when a bucket is configured. */
  function SendSpec(e: Exchange, failure: Option<string>, cfg: Config, result: RenderResult): Thumb {
    DeliverSpec(SetResultHeadersSpec(e, result, cfg.maxAge), failure, cfg, result)
  }

  /** Writing the result's bytes, then scheduling its store when a bucket is
      configured and the write succeeded. */
  function DeliverSpec(e: Exchange, failure: Option<string>, cfg: Config, result: RenderResult): Thumb {
    var (err, e1) := WriteSpec(e, failure, Bytes(result.data));
    if err.Some? then Thumb(Failed(err.value), e1)
    else if cfg.bucket != "" then Thumb(Done, e1.(stores := e1.stores + [result]))
    else Thumb(Done, e1)
  }

  // ---------------------------------------------------------------------------
  // Properties

  /** The header block of a sent result: the writer's own headers with the four
      result headers over them. */
  function ResultHeaderBlock(h: map<string, string>, r: RenderResult, maxAge: int): map<string, string> {
    h["Content-Type" := r.contentType]
     ["Content-Length" := Format(r.contentLength)]
     ["Etag" := Quoted(r.etag)]
     ["Cache-Control" := CacheControl(maxAge)]
  }

  /** The four headers are set, under their canonical keys, and nothing else in the
      exchange changes. */
  lemma ResultHeaders(e: Exchange, r: RenderResult, maxAge: int)
    ensures var h := SetResultHeadersSpec(e, r, maxAge);
      && h.header == ResultHeaderBlock(e.header, r, maxAge)
      && h.header["Content-Type"] == r.contentType
      && h.header["Content-Length"] == Format(r.contentLength)
      && h.header["Etag"] == Quoted(r.etag)
      && h.header["Cache-Control"] == CacheControl(maxAge)
      && h.(header := e.header) == e
  {
    ETagKey();
    ContentTypeKey();
    ContentLengthKey();
    CacheControlKey();
  }

  /** The entity tag is the digest between double quotes. */
  lemma QuotedETag(etag: string)
    ensures var q := Quoted(etag);
      |q| == |etag| + 2 && q[0] == '"' && q[|q| - 1] == '"' && q[1..|q| - 1] == etag
  {
  }

  /** Cache-Control carries the age in decimal between "max-age=" and ",public". */
  lemma CacheControlReadsBack(maxAge: int)
    requires MinInt64 <= maxAge <= MaxInt64
    ensures var c := CacheControl(maxAge);
      && |c| > 15 && c[..8] == "max-age=" && c[|c| - 7..] == ",public"
      && Atoi(c[8..|c| - 7]) == Ok(maxAge)
  {
    var n := Format(maxAge);
    FormatIsDecimal(maxAge);
    var c := CacheControl(maxAge);
    assert c == "max-age=" + n + ",public";
    assert c[8..|c| - 7] == n;
    AtoiFormat(maxAge);
  }

  /** A length-`n` response declares exactly `n` bytes once its status line is out. */
  lemma DeclaredLength(e: Exchange, r: RenderResult, maxAge: int)
    requires e.status == 0 && 0 <= r.contentLength <= MaxInt64
    ensures WriteHeaderSpec(SetResultHeadersSpec(e, r, maxAge), 200).declared == r.contentLength
  {
    var h := SetResultHeadersSpec(e, r, maxAge);
    ResultHeaders(e, r, maxAge);
    ContentLengthKey();
    assert h.header[CanonicalKey("Content-Length")] == Format(r.contentLength);
    AtoiFormat(r.contentLength);
  }

  /** An image in neither format is refused before any header, body or store. */
  lemma UnknownFormatTouchesNothing(
    e: Exchange, failure: Option<string>, cfg: Config, env: Env,
    b: Body, path: string, width: int, height: int, buf: seq<byte>)
    requires b.readError.None? && env.resize(b.data, width, height) == Ok(buf)
    requires |buf| >= 2 && buf[..2] != MarkerJpeg && buf[..2] != MarkerPng
    ensures GenerateThumbnailSpec(e, failure, cfg, env, Some(b), path, width, height)
      == Thumb(Failed(UnknownFormat), e.(calls := e.calls + [Render(width, height)]))
  {
  }

  /** Delivering schedules a store only when a bucket is configured and the body
      write succeeded, and then it is the result that was sent; nothing else is
      scheduled. */
  lemma DeliverStores(e: Exchange, failure: Option<string>, cfg: Config, result: RenderResult)
    requires Consistent(e) && (e.status == 0 || BodyAllowed(e.status))
    ensures var t := DeliverSpec(e, failure, cfg, result);
      && Consistent(t.exchange)
      && t.exchange.stores == e.stores + (if cfg.bucket != "" && t.outcome == Done then [result] else [])
      && (t.outcome == Done ==> |result.data| == 0 || t.exchange.body == e.body + [Bytes(result.data)])
      && (t.outcome.Done? || t.outcome.Failed?)
  {
    WriteKeepsConsistent(e, failure, Bytes(result.data));
  }

  lemma SendStores(e: Exchange, failure: Option<string>, cfg: Config, result: RenderResult)
    requires Consistent(e) && (e.status == 0 || BodyAllowed(e.status))
    ensures var t := SendSpec(e, failure, cfg, result);
      && Consistent(t.exchange)
      && t.exchange.stores == e.stores + (if cfg.bucket != "" && t.outcome == Done then [result] else [])
      && (t.outcome == Done ==> |result.data| == 0 || t.exchange.body == e.body + [Bytes(result.data)])
      && (t.outcome.Done? || t.outcome.Failed?)
  {
    ResultHeaders(e, result, cfg.maxAge);
    DeliverStores(SetResultHeadersSpec(e, result, cfg.maxAge), failure, cfg, result);
  }

  /** `after` is `before`, or `before` with one more store under `path`. */
  predicate AtMostOneStore(before: seq<RenderResult>, after: seq<RenderResult>, path: string) {
    || after == before
    || (|after| == |before| + 1 && after[..|before|] == before && after[|before|].path == path)
  }

  /** Rendering adds at most its one render call to the log, and at most one
      store, under the given path and only when a bucket is configured. */
  lemma ThumbnailLog(
    e: Exchange, failure: Option<string>, cfg: Config, env: Env,
    body: Option<Body>, path: string, width: int, height: int)
    ensures var t := GenerateThumbnailSpec(e, failure, cfg, env, body, path, width, height);
      && (t.exchange.calls == e.calls || t.exchange.calls == e.calls + [Render(width, height)])
      && AtMostOneStore(e.stores, t.exchange.stores, path)
      && (cfg.bucket == "" ==> t.exchange.stores == e.stores)
  {
    if body.Some? && body.value.readError.None? {
      var e1 := e.(calls := e.calls + [Render(width, height)]);
      var p := Prepare(env, body.value.data, path, width, height);
      if p.Ready? {
        var e2 := SetResultHeadersSpec(e1, p.result, cfg.maxAge);
        WriteLeavesLog(e2, failure, Bytes(p.result.data));
        var stores := e.stores + [p.result];
        assert stores[..|e.stores|] == e.stores;
      }
    }
  }

  /** A store is scheduled only when a bucket is configured and the body write
      succeeded, and then it holds the bytes sent, their length, type and digest, under
      the given path; nothing else is ever scheduled. */
  lemma StoreOnlyAfterWrite(
    e: Exchange, failure: Option<string>, cfg: Config, env: Env,
    body: Option<Body>, path: string, width: int, height: int)
    requires Consistent(e) && (e.status == 0 || BodyAllowed(e.status))
    ensures var t := GenerateThumbnailSpec(e, failure, cfg, env, body, path, width, height);
      && Consistent(t.exchange)
      && (t.exchange.stores == e.stores
          || (&& cfg.bucket != "" && t.outcome == Done
              && |t.exchange.stores| == |e.stores| + 1
              && t.exchange.stores[..|e.stores|] == e.stores
              && var s := t.exchange.stores[|e.stores|];
                 && |s.data| >= 2 && s.path == path && s.contentLength == |s.data|
                 && ContentTypeOf(s.data) == Some(s.contentType)
                 && s.etag == env.md5Hex(s.data)
                 && t.exchange.body == e.body + [Bytes(s.data)]))
      && (t.outcome == Done ==> (cfg.bucket != "" <==> t.exchange.stores != e.stores))
  {
    if body.Some? && body.value.readError.None? {
      var e1 := e.(calls := e.calls + [Render(width, height)]);
      var p := Prepare(env, body.value.data, path, width, height);
      if p.Ready? {
        var t := SendSpec(e1, failure, cfg, p.result);
        assert GenerateThumbnailSpec(e, failure, cfg, env, body, path, width, height) == t;
        SendStores(e1, failure, cfg, p.result);
        if t.exchange.stores != e.stores {
          assert t.exchange.stores == e.stores + [p.result];
          assert t.exchange.stores[..|e.stores|] == e.stores;
        }
      }
    }
  }

  /** Sending a non-empty result on an untouched writer over a working connection:
      status 200, the result headers on the wire, the declared length, the bytes
      as the body, and a store exactly when a bucket is configured. */
  lemma FreshSend(e: Exchange, cfg: Config, result: RenderResult)
    requires e.status == 0 && Consistent(e)
    requires result.contentLength == |result.data| && 0 < |result.data| <= MaxInt64
    ensures var t := SendSpec(e, None, cfg, result);
      && t.outcome == Done
      && t.exchange.status == 200
      && t.exchange.sent == ResultHeaderBlock(e.header, result, cfg.maxAge)
      && t.exchange.declared == |result.data|
      && t.exchange.written == |result.data|
      && t.exchange.body == [Bytes(result.data)]
      && t.exchange.calls == e.calls
      && t.exchange.stores == e.stores + (if cfg.bucket != "" then [result] else [])
  {
    var e2 := SetResultHeadersSpec(e, result, cfg.maxAge);
    DeclaredLength(e, result, cfg.maxAge);
    ResultHeaders(e, result, cfg.maxAge);
    FirstWrite(e2, Bytes(result.data));
  }

  /** On an untouched writer and a working connection, a recognised render is sent
      whole: status 200, the four result headers, the image as the body, and a
      store only if a bucket is configured. */
  lemma FreshThumbnail(
    e: Exchange, cfg: Config, env: Env,
    b: Body, path: string, width: int, height: int, buf: seq<byte>)
    requires e.status == 0 && Consistent(e) && b.readError.None?
    requires env.resize(b.data, width, height) == Ok(buf)
    requires 2 <= |buf| <= MaxInt64 && ContentTypeOf(buf).Some?
    ensures var t := GenerateThumbnailSpec(e, None, cfg, env, Some(b), path, width, height);
      var result := RenderResult(buf, ContentTypeOf(buf).value, |buf|, env.md5Hex(buf), path);
      && t.outcome == Done
      && t.exchange.status == 200
      && t.exchange.sent == ResultHeaderBlock(e.header, result, cfg.maxAge)
      && t.exchange.declared == |buf|
      && t.exchange.written == |buf|
      && t.exchange.body == [Bytes(buf)]
      && t.exchange.calls == e.calls + [Render(width, height)]
      && t.exchange.stores == e.stores + (if cfg.bucket != "" then [result] else [])
  {
    var result := RenderResult(buf, ContentTypeOf(buf).value, |buf|, env.md5Hex(buf), path);
    var e1 := e.(calls := e.calls + [Render(width, height)]);
    assert Prepare(env, b.data, path, width, height) == Ready(result);
    FreshSend(e1, cfg, result);
  }

  // ---------------------------------------------------------------------------
  // The operations on a writer

  method SetCacheHeaders(w: Response, maxAge: int)
    modifies w
    ensures w.State() == SetCacheHeadersSpec(old(w.State()), maxAge)
  {
    w.Set("Cache-Control", CacheControl(maxAge));
  }

  method SetResultHeaders(w: Response, r: RenderResult, maxAge: int)
    modifies w
    ensures w.State() == SetResultHeadersSpec(old(w.State()), r, maxAge)
  {
    w.Set("Content-Type", r.contentType);
    w.Set("Content-Length", Format(r.contentLength));
    w.Set("ETag", Quoted(r.etag));
    SetCacheHeaders(w, maxAge);
  }

  method GenerateThumbnail(
    w: Response, cfg: Config, env: Env,
    body: Option<Body>, path: string, width: int, height: int)
    returns (outcome: ThumbOutcome)
    modifies w
    ensures Thumb(outcome, w.State())
      == GenerateThumbnailSpec(old(w.State()), w.failure, cfg, env, body, path, width, height)
  {
    if body.None? {
      return Panicked;
    }
    var img := body.value.data;
    if body.value.readError.Some? {
      return Failed(body.value.readError.value);
    }
    w.Record(Render(width, height));
    var resized := env.resize(img, width, height);
    if resized.Err? {
      return Failed(resized.error);
    }
    var buf := resized.value;
    if |buf| < 2 {
      return Panicked;
    }
    var contentType := ContentTypeOf(buf);
    if contentType.None? {
      return Failed(UnknownFormat);
    }
    var result := RenderResult(buf, contentType.value, |buf|, env.md5Hex(buf), path);
    SetResultHeaders(w, result, cfg.maxAge);
    var err := w.Write(Bytes(result.data));
    if err.Some? {
      return Failed(err.value);
    }
    if cfg.bucket != "" {
      w.Schedule(result);
    }
    return Done;
  }
}
