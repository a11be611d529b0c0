/** The resize endpoint (`handleResize`): resolve the size, authenticate the path,
    derive the cache key from the source, then either render straight from the
    origin (no bucket configured) or serve the cached rendering, rendering it from
    the bucket or the origin on a miss. Error statuses 601-611 are sent with
    `http.Error`. */
module Handler {
  import opened Wrappers
  import opened Strconv
  import opened GoStrings
  import opened Records
  import opened Http
  import opened Sizes
  import opened CacheKey
  import opened Signature
  import opened Origin
  import opened Thumbnail

  /** How a request ends: the handler returns without sending an error, it sends the
      error status `code` and returns, or a panic aborts it. */
  datatype Outcome = Completed | Rejected(code: int) | Aborted

  datatype Run = Run(outcome: Outcome, exchange: Exchange)

  /** The error a closed response body gives when read again. */
  const ErrReadOnClosed := "http: read on closed response body"

  /** A body that `generateThumbnail` has already read to the end and closed. */
  const ClosedBody := Body([], Some(ErrReadOnClosed))

  /** `http.Error(w, msg, code)` followed by `return`. */
  function Reject(e: Exchange, failure: Option<string>, msg: string, code: int): Run
    requires 100 <= code <= 999
  {
    Run(Rejected(code), ErrorSpec(e, failure, msg, code))
  }

  function Log(e: Exchange, c: Call): Exchange {
    e.(calls := e.calls + [c])
  }

  /** The source parameter with its leading slash removed, as it is parsed. */
  function SourceText(req: Request): string {
    TrimPrefix(req.source, "/")
  }

  /** `handleResize` on a connection whose writes fail with `failure` (if any). */
  function HandleResizeSpec(e: Exchange, failure: Option<string>, cfg: Config, req: Request, env: Env): Run {
    var dims := ParseWidthAndHeight(cfg.sizes, req.size);
    if dims.err.Some? then Reject(e, failure, dims.err.value, 601)
    else
      var e1 := Log(e, Sign(req.path));
      if req.signature != env.sign(cfg.key, req.path) then Reject(e1, failure, Mismatch, 602)
      else match env.parseUrl(SourceText(req))
        case Err(msg) => Reject(e1, failure, msg, 603)
        case Ok(src) =>
          if cfg.bucket == "" then Direct(e1, failure, cfg, req, env, src, dims)
          else if env.session.Some? then Reject(e1, failure, env.session.value, 606)
          else Lookup(e1, failure, cfg, req, env, src, dims)
  }

  /** No bucket: render the stripped source fetched from the origin, under the
      request path. */
  function Direct(
    e: Exchange, failure: Option<string>, cfg: Config, req: Request, env: Env,
    src: SourceUrl, dims: Dimensions): Run
  {
    var e1 := Log(e, HttpGet(src.stripped));
    match GetImageFromUrl(env.httpGet(src.stripped))
    case Err(msg) => Reject(e1, failure, msg, 604)
    case Ok(body) =>
      Finish(GenerateThumbnailSpec(e1, failure, cfg, env, Some(body), req.path, dims.width, dims.height), failure, 605)
  }

  /** The request's end after rendering: an error from rendering is sent as `code`. */
  function Finish(t: Thumb, failure: Option<string>, code: int): Run
    requires 100 <= code <= 999
  {
    match t.outcome
    case Failed(msg) => Reject(t.exchange, failure, msg, code)
    case Panicked => Run(Aborted, t.exchange)
    case Done => Run(Completed, t.exchange)
  }

  /** With a bucket: look the cache key up, and on a miss render from the bucket (a
      source without a host) or from the origin. */
  function Lookup(
    e: Exchange, failure: Option<string>, cfg: Config, req: Request, env: Env,
    src: SourceUrl, dims: Dimensions): Run
  {
    var key := ResultPath(src.stripped, req.size);
    var e1 := Log(e, GetObject(key));
    match env.getObject(cfg.bucket, key)
    case Ok(obj) => Serve(e1, failure, cfg, obj, key)
    case Err(_) =>
      if src.host == "" then StoredOrigin(e1, failure, cfg, req, env, key, dims)
      else RemoteOrigin(e1, failure, cfg, env, src, key, dims)
  }

  /** The object under the source parameter itself, leading slash included, is
      rendered; on success control falls through to serving that object, whose body
      has been read and closed. */
  function StoredOrigin(
    e: Exchange, failure: Option<string>, cfg: Config, req: Request, env: Env,
    key: string, dims: Dimensions): Run
  {
    var e1 := Log(e, GetObject(req.source));
    match env.getObject(cfg.bucket, req.source)
    case Err(msg) => Reject(e1, failure, msg, 608)
    case Ok(obj) =>
      var t := GenerateThumbnailSpec(e1, failure, cfg, env, Some(obj.body), key, dims.width, dims.height);
      match t.outcome
      case Failed(msg) => Reject(t.exchange, failure, msg, 609)
      case Panicked => Run(Aborted, t.exchange)
      case Done => Serve(t.exchange, failure, cfg, obj.(body := ClosedBody), key)
  }

  /** The full source URL is fetched; a failed fetch sends 610 and rendering goes
      on with a nil body. Whatever rendering returns is dropped. */
  function RemoteOrigin(
    e: Exchange, failure: Option<string>, cfg: Config, env: Env,
    src: SourceUrl, key: string, dims: Dimensions): Run
  {
    var e1 := Log(e, HttpGet(src.full));
    var (e2, body) := match GetImageFromUrl(env.httpGet(src.full))
      case Err(msg) => (ErrorSpec(e1, failure, msg, 610), None)
      case Ok(b) => (e1, Some(b));
    var t := GenerateThumbnailSpec(e2, failure, cfg, env, body, key, dims.width, dims.height);
    Run(if t.outcome.Panicked? then Aborted else Completed, t.exchange)
  }

  /** The tail of `handleResize`: the object's metadata as the result headers, then
      its body copied out. */
  function Serve(e: Exchange, failure: Option<string>, cfg: Config, obj: Object, key: string): Run {
    var e1 := SetResultHeadersSpec(e, Served(obj, key), cfg.maxAge);
    var (err, e2) := CopySpec(e1, failure, obj.body);
    if err.Some? then Reject(e2, failure, err.value, 611) else Run(Completed, e2)
  }

  /** The `result` record built from an object's metadata. */
  function Served(obj: Object, key: string): RenderResult {
    RenderResult([], obj.contentType, obj.contentLength, obj.etag, key)
  }

  // ---------------------------------------------------------------------------
  // The handler on a writer

  method HandleResize(w: Response, cfg: Config, req: Request, env: Env) returns (outcome: Outcome)
    modifies w
    ensures Run(outcome, w.State()) == HandleResizeSpec(old(w.State()), w.failure, cfg, req, env)
  {
    var dims := ParseWidthAndHeight(cfg.sizes, req.size);
    if dims.err.Some? {
      Error(w, dims.err.value, 601);
      return Rejected(601);
    }
    w.Record(Sign(req.path));
    var err := ValidateSignature(req.signature, req.path, cfg.key, env.sign);
    if err.Some? {
      Error(w, err.value, 602);
      return Rejected(602);
    }
    var parsed := env.parseUrl(SourceText(req));
    if parsed.Err? {
      Error(w, parsed.error, 603);
      return Rejected(603);
    }
    var src := parsed.value;
    ghost var e1 := w.State();

    if cfg.bucket == "" {
      assert HandleResizeSpec(old(w.State()), w.failure, cfg, req, env) == Direct(e1, w.failure, cfg, req, env, src, dims);
      w.Record(HttpGet(src.stripped));
      var body := GetImageFromUrl(env.httpGet(src.stripped));
      if body.Err? {
        Error(w, body.error, 604);
        return Rejected(604);
      }
      var e := GenerateThumbnail(w, cfg, env, Some(body.value), req.path, dims.width, dims.height);
      if e.Failed? {
        Error(w, e.error, 605);
        return Rejected(605);
      }
      return if e.Panicked? then Aborted else Completed;
    }

    if env.session.Some? {
      Error(w, env.session.value, 606);
      return Rejected(606);
    }
    outcome := ServeCached(w, cfg, req, env, src, dims);
  }

  /** The bucket branch of `handleResize`, from the cache lookup on. */
  method ServeCached(w: Response, cfg: Config, req: Request, env: Env, src: SourceUrl, dims: Dimensions)
    returns (outcome: Outcome)
    modifies w
    ensures Run(outcome, w.State()) == Lookup(old(w.State()), w.failure, cfg, req, env, src, dims)
  {
    var resultPath := ResultPath(src.stripped, req.size);
    ghost var e0 := w.State();
    w.Record(GetObject(resultPath));
    var output := env.getObject(cfg.bucket, resultPath);
    if output.Ok? {
      LookupHit(e0, w.failure, cfg, req, env, src, dims, output.value);
      outcome := ServeObject(w, cfg, output.value, resultPath);
      return;
    }
    LookupMiss(e0, w.failure, cfg, req, env, src, dims);
    // The source is parsed a second time; parsing is a function of its input, so
    // this gives `src` again and the 607 branch is never taken.
    if src.host == "" {
      w.Record(GetObject(req.source));
      output := env.getObject(cfg.bucket, req.source);
      if output.Err? {
        Error(w, output.error, 608);
        return Rejected(608);
      }
      var e := GenerateThumbnail(w, cfg, env, Some(output.value.body), resultPath, dims.width, dims.height);
      if e.Failed? {
        Error(w, e.error, 609);
        return Rejected(609);
      }
      if e.Panicked? {
        return Aborted;
      }
      // No return follows either: control falls through to serving the source
      // object, whose body the rendering has read and closed.
      outcome := ServeObject(w, cfg, output.value.(body := ClosedBody), resultPath);
    } else {
      outcome := RenderRemote(w, cfg, env, src, resultPath, dims);
    }
  }

  /** A miss on a source with a host: fetch it from the origin and render it. */
  method RenderRemote(w: Response, cfg: Config, env: Env, src: SourceUrl, resultPath: string, dims: Dimensions)
    returns (outcome: Outcome)
    modifies w
    ensures Run(outcome, w.State()) == RemoteOrigin(old(w.State()), w.failure, cfg, env, src, resultPath, dims)
  {
    w.Record(HttpGet(src.full));
    var body := GetImageFromUrl(env.httpGet(src.full));
    var image: Option<Body> := None;
    if body.Err? {
      // No return follows: rendering goes on with a nil body.
      Error(w, body.error, 610);
    } else {
      image := Some(body.value);
    }
    var e := GenerateThumbnail(w, cfg, env, image, resultPath, dims.width, dims.height);
    return if e.Panicked? then Aborted else Completed;
  }

  /** The tail of `handleResize`: result headers from the object's metadata, then
      its body. */
  method ServeObject(w: Response, cfg: Config, obj: Object, resultPath: string) returns (outcome: Outcome)
    modifies w
    ensures Run(outcome, w.State()) == Serve(old(w.State()), w.failure, cfg, obj, resultPath)
  {
    SetResultHeaders(w, Served(obj, resultPath), cfg.maxAge);
    var err := Copy(w, obj.body);
    if err.Some? {
      Error(w, err.value, 611);
      return Rejected(611);
    }
    return Completed;
  }

  // ---------------------------------------------------------------------------
  // Properties

  /** The size is resolved first: an unusable size token ends the request with 601
      before the signature is computed, and an unknown one says so. */
  lemma InvalidSizeFirst(e: Exchange, failure: Option<string>, cfg: Config, req: Request, env: Env)
    requires ParseWidthAndHeight(cfg.sizes, req.size).err.Some?
    ensures var r := HandleResizeSpec(e, failure, cfg, req, env);
      && r == Reject(e, failure, ParseWidthAndHeight(cfg.sizes, req.size).err.value, 601)
      && r.exchange.calls == e.calls && r.exchange.stores == e.stores
      && (req.size !in cfg.sizes ==> r == Reject(e, failure, InvalidSize, 601))
  {
    ErrorLeavesLog(e, failure, ParseWidthAndHeight(cfg.sizes, req.size).err.value, 601);
  }

  /** A wrong signature ends the request with 602: nothing is looked up, fetched,
      rendered or stored. */
  lemma MismatchStopsEarly(e: Exchange, failure: Option<string>, cfg: Config, req: Request, env: Env)
    requires ParseWidthAndHeight(cfg.sizes, req.size).err.None?
    requires req.signature != env.sign(cfg.key, req.path)
    ensures var r := HandleResizeSpec(e, failure, cfg, req, env);
      && r.outcome == Rejected(602)
      && r.exchange.calls == e.calls + [Sign(req.path)]
      && r.exchange.stores == e.stores
  {
    ErrorLeavesLog(Log(e, Sign(req.path)), failure, Mismatch, 602);
  }

  /** Without a bucket nothing is looked up or stored: the calls made are, in this
      order, at most the signing, the fetch of the source with scheme and host
      removed, and the rendering. */
  lemma NoBucketNoLookup(e: Exchange, failure: Option<string>, cfg: Config, req: Request, env: Env)
    requires cfg.bucket == ""
    ensures var r := HandleResizeSpec(e, failure, cfg, req, env);
      var dims := ParseWidthAndHeight(cfg.sizes, req.size);
      && r.exchange.stores == e.stores
      && e.calls <= r.exchange.calls
      && match env.parseUrl(SourceText(req))
         case Err(_) => r.exchange.calls <= e.calls + [Sign(req.path)]
         case Ok(src) =>
           r.exchange.calls <= e.calls + [Sign(req.path), HttpGet(src.stripped), Render(dims.width, dims.height)]
  {
    var dims := ParseWidthAndHeight(cfg.sizes, req.size);
    var e1 := Log(e, Sign(req.path));
    if dims.err.Some? {
      InvalidSizeFirst(e, failure, cfg, req, env);
    } else if req.signature != env.sign(cfg.key, req.path) {
      MismatchStopsEarly(e, failure, cfg, req, env);
    } else if env.parseUrl(SourceText(req)).Err? {
      ErrorLeavesLog(e1, failure, env.parseUrl(SourceText(req)).error, 603);
    } else {
      var src := env.parseUrl(SourceText(req)).value;
      var r := Direct(e1, failure, cfg, req, env, src, dims);
      assert HandleResizeSpec(e, failure, cfg, req, env) == r;
      DirectLog(e1, failure, cfg, req, env, src, dims);
      LogThen(e, Sign(req.path), HttpGet(src.stripped), Render(dims.width, dims.height));
    }
  }

  /** One call logged, then two more appended, are the three together. */
  lemma LogThen(e: Exchange, a: Call, b: Call, c: Call)
    ensures Log(e, a).calls + [b] == e.calls + [a, b]
    ensures Log(e, a).calls + [b, c] == e.calls + [a, b, c]
  {
  }

  lemma DirectLog(
    e: Exchange, failure: Option<string>, cfg: Config, req: Request, env: Env,
    src: SourceUrl, dims: Dimensions)
    requires cfg.bucket == ""
    ensures var r := Direct(e, failure, cfg, req, env, src, dims);
      && r.exchange.stores == e.stores
      && e.calls + [HttpGet(src.stripped)] <= r.exchange.calls
      && r.exchange.calls <= e.calls + [HttpGet(src.stripped), Render(dims.width, dims.height)]
  {
    var e1 := Log(e, HttpGet(src.stripped));
    match GetImageFromUrl(env.httpGet(src.stripped))
    case Err(msg) =>
      ErrorLeavesLog(e1, failure, msg, 604);
    case Ok(body) =>
      var t := GenerateThumbnailSpec(e1, failure, cfg, env, Some(body), req.path, dims.width, dims.height);
      ThumbnailLog(e1, failure, cfg, env, Some(body), req.path, dims.width, dims.height);
      FinishLog(t, failure, 605);
      assert e1.calls + [Render(dims.width, dims.height)]
        == e.calls + [HttpGet(src.stripped), Render(dims.width, dims.height)];
  }

  lemma FinishLog(t: Thumb, failure: Option<string>, code: int)
    requires 100 <= code <= 999
    ensures var r := Finish(t, failure, code);
      r.exchange.calls == t.exchange.calls && r.exchange.stores == t.exchange.stores
  {
    if t.outcome.Failed? {
      ErrorLeavesLog(t.exchange, failure, t.outcome.error, code);
    }
  }

  /** Past the size, signature and parse checks, a request with a bucket and a
      session goes to the cache lookup. */
  lemma ToLookup(e: Exchange, failure: Option<string>, cfg: Config, req: Request, env: Env, src: SourceUrl)
    requires ParseWidthAndHeight(cfg.sizes, req.size).err.None?
    requires req.signature == env.sign(cfg.key, req.path)
    requires env.parseUrl(SourceText(req)) == Ok(src)
    requires cfg.bucket != "" && env.session.None?
    ensures HandleResizeSpec(e, failure, cfg, req, env)
      == Lookup(Log(e, Sign(req.path)), failure, cfg, req, env, src, ParseWidthAndHeight(cfg.sizes, req.size))
  {
  }

  /** Serving an object only touches the response. */
  lemma ServeLog(e: Exchange, failure: Option<string>, cfg: Config, obj: Object, key: string)
    ensures var r := Serve(e, failure, cfg, obj, key);
      r.exchange.calls == e.calls && r.exchange.stores == e.stores
  {
    var e1 := SetResultHeadersSpec(e, Served(obj, key), cfg.maxAge);
    CopyLeavesLog(e1, failure, obj.body);
    var (err, e2) := CopySpec(e1, failure, obj.body);
    if err.Some? {
      ErrorLeavesLog(e2, failure, err.value, 611);
    }
  }

  /** A cache hit is served from the stored object, with nothing fetched, rendered
      or stored. */
  lemma CacheHitServesObject(
    e: Exchange, failure: Option<string>, cfg: Config, req: Request, env: Env,
    src: SourceUrl, obj: Object)
    requires ParseWidthAndHeight(cfg.sizes, req.size).err.None?
    requires req.signature == env.sign(cfg.key, req.path)
    requires env.parseUrl(SourceText(req)) == Ok(src)
    requires cfg.bucket != "" && env.session.None?
    requires env.getObject(cfg.bucket, ResultPath(src.stripped, req.size)) == Ok(obj)
    ensures var key := ResultPath(src.stripped, req.size);
      var r := HandleResizeSpec(e, failure, cfg, req, env);
      && r == Serve(e.(calls := e.calls + [Sign(req.path), GetObject(key)]), failure, cfg, obj, key)
      && r.exchange.calls == e.calls + [Sign(req.path), GetObject(key)]
      && r.exchange.stores == e.stores
  {
    var key := ResultPath(src.stripped, req.size);
    var dims := ParseWidthAndHeight(cfg.sizes, req.size);
    var e1 := Log(e, Sign(req.path));
    var e2 := Log(e1, GetObject(key));
    LogTwo(e, Sign(req.path), GetObject(key));
    calc {
      HandleResizeSpec(e, failure, cfg, req, env);
      { ToLookup(e, failure, cfg, req, env, src); }
      Lookup(e1, failure, cfg, req, env, src, dims);
      { LookupHit(e1, failure, cfg, req, env, src, dims, obj); }
      Serve(e2, failure, cfg, obj, key);
    }
    ServeLog(e2, failure, cfg, obj, key);
  }

  /** Two calls logged one by one are the two calls logged at once. */
  lemma LogTwo(e: Exchange, a: Call, b: Call)
    ensures Log(Log(e, a), b) == e.(calls := e.calls + [a, b])
  {
    assert e.calls + [a] + [b] == e.calls + [a, b];
  }

  /** A hit serves the object found under the cache key. */
  lemma LookupHit(
    e: Exchange, failure: Option<string>, cfg: Config, req: Request, env: Env,
    src: SourceUrl, dims: Dimensions, obj: Object)
    requires env.getObject(cfg.bucket, ResultPath(src.stripped, req.size)) == Ok(obj)
    ensures var key := ResultPath(src.stripped, req.size);
      Lookup(e, failure, cfg, req, env, src, dims) == Serve(Log(e, GetObject(key)), failure, cfg, obj, key)
  {
  }

  /** Serving depends on the calls logged before it only through the log itself. */
  lemma ServeIgnoresLog(e: Exchange, calls: seq<Call>, failure: Option<string>, cfg: Config, obj: Object, key: string)
    ensures var r := Serve(e, failure, cfg, obj, key);
      Serve(e.(calls := calls), failure, cfg, obj, key) == Run(r.outcome, r.exchange.(calls := calls))
  {
    var e1 := SetResultHeadersSpec(e, Served(obj, key), cfg.maxAge);
    var (err, e2) := CopySpec(e1, failure, obj.body);
    CopyLeavesLog(e1, failure, obj.body);
    ResultHeaders(e, Served(obj, key), cfg.maxAge);
    ResultHeaders(e.(calls := calls), Served(obj, key), cfg.maxAge);
    assert SetResultHeadersSpec(e.(calls := calls), Served(obj, key), cfg.maxAge) == e1.(calls := calls);
    CopyIgnoresLog(e1, calls, failure, obj.body);
    if err.Some? {
      ErrorIgnoresLog(e2, calls, failure, err.value, 611);
    }
  }

  /** Two sources that differ only in scheme or host, such as "http://a.example/x.jpg"
      and "https://b.example/x.jpg", strip to the same string and so share a cache
      key: a hit for one is served, byte for byte, for the other. */
  lemma HostsShareCacheKey(
    e: Exchange, failure: Option<string>, cfg: Config, req1: Request, req2: Request, env: Env,
    src1: SourceUrl, src2: SourceUrl, obj: Object)
    requires ParseWidthAndHeight(cfg.sizes, req1.size).err.None? && req2.size == req1.size
    requires req1.signature == env.sign(cfg.key, req1.path)
    requires req2.signature == env.sign(cfg.key, req2.path)
    requires env.parseUrl(SourceText(req1)) == Ok(src1) && env.parseUrl(SourceText(req2)) == Ok(src2)
    requires src1.stripped == src2.stripped
    requires cfg.bucket != "" && env.session.None?
    requires env.getObject(cfg.bucket, ResultPath(src1.stripped, req1.size)) == Ok(obj)
    ensures ResultPath(src1.stripped, req1.size) == ResultPath(src2.stripped, req2.size)
    ensures var r1 := HandleResizeSpec(e, failure, cfg, req1, env);
      var r2 := HandleResizeSpec(e, failure, cfg, req2, env);
      r1.outcome == r2.outcome && r1.exchange.(calls := e.calls) == r2.exchange.(calls := e.calls)
  {
    var key := ResultPath(src1.stripped, req1.size);
    CacheHitServesObject(e, failure, cfg, req1, env, src1, obj);
    CacheHitServesObject(e, failure, cfg, req2, env, src2, obj);
    ServeIgnoresLog(e, e.calls + [Sign(req1.path), GetObject(key)], failure, cfg, obj, key);
    ServeIgnoresLog(e, e.calls + [Sign(req2.path), GetObject(key)], failure, cfg, obj, key);
  }

  /** Serving an intact object on an untouched writer over a working connection:
      status 200, the object's type, length and entity tag in the result headers,
      and its bytes as the whole body. */
  lemma ServeFresh(e: Exchange, cfg: Config, obj: Object, key: string)
    requires e.status == 0 && Consistent(e)
    requires obj.body.readError.None?
    requires obj.contentLength == |obj.body.data| && 0 < |obj.body.data| <= MaxInt64
    ensures var r := Serve(e, None, cfg, obj, key);
      && r.outcome == Completed
      && r.exchange.status == 200
      && r.exchange.sent == ResultHeaderBlock(e.header, Served(obj, key), cfg.maxAge)
      && r.exchange.body == [Bytes(obj.body.data)]
  {
    var e1 := SetResultHeadersSpec(e, Served(obj, key), cfg.maxAge);
    DeclaredLength(e, Served(obj, key), cfg.maxAge);
    ResultHeaders(e, Served(obj, key), cfg.maxAge);
    FirstWrite(e1, Bytes(obj.body.data));
    assert CopySpec(e1, None, obj.body) == WriteSpec(e1, None, Bytes(obj.body.data));
  }

  /** Every error a request can end with is one of 601-611 except 607, which needs
      the same source to parse differently the second time, and 610, after which
      the handler goes on. */
  lemma RejectionCodes(e: Exchange, failure: Option<string>, cfg: Config, req: Request, env: Env)
    ensures var r := HandleResizeSpec(e, failure, cfg, req, env);
      r.outcome.Rejected? ==> 601 <= r.outcome.code <= 611 && r.outcome.code != 607 && r.outcome.code != 610
  {
    var dims := ParseWidthAndHeight(cfg.sizes, req.size);
    var e1 := Log(e, Sign(req.path));
    if dims.err.None? && req.signature == env.sign(cfg.key, req.path) && env.parseUrl(SourceText(req)).Ok? {
      var src := env.parseUrl(SourceText(req)).value;
      if cfg.bucket == "" {
        assert HandleResizeSpec(e, failure, cfg, req, env) == Direct(e1, failure, cfg, req, env, src, dims);
        DirectCodes(e1, failure, cfg, req, env, src, dims);
      } else if env.session.None? {
        ToLookup(e, failure, cfg, req, env, src);
        LookupCodes(e1, failure, cfg, req, env, src, dims);
      }
    }
  }

  lemma DirectCodes(
    e: Exchange, failure: Option<string>, cfg: Config, req: Request, env: Env,
    src: SourceUrl, dims: Dimensions)
    ensures var r := Direct(e, failure, cfg, req, env, src, dims);
      r.outcome.Rejected? ==> r.outcome.code == 604 || r.outcome.code == 605
  {
  }

  lemma LookupCodes(
    e: Exchange, failure: Option<string>, cfg: Config, req: Request, env: Env,
    src: SourceUrl, dims: Dimensions)
    ensures var r := Lookup(e, failure, cfg, req, env, src, dims);
      r.outcome.Rejected? ==> r.outcome.code in {608, 609, 611}
  {
    var key := ResultPath(src.stripped, req.size);
    var e1 := Log(e, GetObject(key));
    match env.getObject(cfg.bucket, key)
    case Ok(obj) =>
      ServeCodes(e1, failure, cfg, obj, key);
    case Err(_) =>
      if src.host == "" {
        assert Lookup(e, failure, cfg, req, env, src, dims) == StoredOrigin(e1, failure, cfg, req, env, key, dims);
        StoredOriginCodes(e1, failure, cfg, req, env, key, dims);
      } else {
        assert Lookup(e, failure, cfg, req, env, src, dims) == RemoteOrigin(e1, failure, cfg, env, src, key, dims);
        RemoteOriginCodes(e1, failure, cfg, env, src, key, dims);
      }
  }

  lemma ServeCodes(e: Exchange, failure: Option<string>, cfg: Config, obj: Object, key: string)
    ensures var r := Serve(e, failure, cfg, obj, key); r.outcome == Completed || r.outcome == Rejected(611)
  {
  }

  lemma StoredOriginCodes(
    e: Exchange, failure: Option<string>, cfg: Config, req: Request, env: Env,
    key: string, dims: Dimensions)
    ensures var r := StoredOrigin(e, failure, cfg, req, env, key, dims);
      r.outcome.Rejected? ==> r.outcome.code in {608, 609, 611}
  {
    var e1 := Log(e, GetObject(req.source));
    if env.getObject(cfg.bucket, req.source).Ok? {
      var obj := env.getObject(cfg.bucket, req.source).value;
      var t := GenerateThumbnailSpec(e1, failure, cfg, env, Some(obj.body), key, dims.width, dims.height);
      if t.outcome.Done? {
        ServeCodes(t.exchange, failure, cfg, obj.(body := ClosedBody), key);
      }
    }
  }

  /** The origin branch never ends with an error status of its own making. */
  lemma RemoteOriginCodes(
    e: Exchange, failure: Option<string>, cfg: Config, env: Env,
    src: SourceUrl, key: string, dims: Dimensions)
    ensures !RemoteOrigin(e, failure, cfg, env, src, key, dims).outcome.Rejected?
  {
  }

  /** When the origin fetch after a miss fails, 610 is sent and rendering is still
      attempted, on a nil body: the request ends in a panic before anything is
      rendered. */
  lemma RemoteFetchFailure(
    e: Exchange, failure: Option<string>, cfg: Config, req: Request, env: Env, src: SourceUrl)
    requires ParseWidthAndHeight(cfg.sizes, req.size).err.None?
    requires req.signature == env.sign(cfg.key, req.path)
    requires env.parseUrl(SourceText(req)) == Ok(src)
    requires cfg.bucket != "" && env.session.None?
    requires env.getObject(cfg.bucket, ResultPath(src.stripped, req.size)).Err? && src.host != ""
    requires GetImageFromUrl(env.httpGet(src.full)).Err?
    ensures var key := ResultPath(src.stripped, req.size);
      var r := HandleResizeSpec(e, failure, cfg, req, env);
      var e3 := Log(Log(Log(e, Sign(req.path)), GetObject(key)), HttpGet(src.full));
      && r == Run(Aborted, ErrorSpec(e3, failure, GetImageFromUrl(env.httpGet(src.full)).error, 610))
      && r.exchange.calls == e.calls + [Sign(req.path), GetObject(key), HttpGet(src.full)]
      && (e.status == 0 ==> r.exchange.status == 610)
  {
    var key := ResultPath(src.stripped, req.size);
    var dims := ParseWidthAndHeight(cfg.sizes, req.size);
    var msg := GetImageFromUrl(env.httpGet(src.full)).error;
    var e1 := Log(e, Sign(req.path));
    var e2 := Log(e1, GetObject(key));
    var e3 := Log(e2, HttpGet(src.full));
    calc {
      HandleResizeSpec(e, failure, cfg, req, env);
      { ToLookup(e, failure, cfg, req, env, src); }
      Lookup(e1, failure, cfg, req, env, src, dims);
      { LookupMiss(e1, failure, cfg, req, env, src, dims); }
      RemoteOrigin(e2, failure, cfg, env, src, key, dims);
      { RemoteFailureBranch(e2, failure, cfg, env, src, key, dims); }
      Run(Aborted, ErrorSpec(e3, failure, msg, 610));
    }
    ErrorLeavesLog(e3, failure, msg, 610);
    LogThree(e, Sign(req.path), GetObject(key), HttpGet(src.full));
    if e.status == 0 {
      ErrorSetsStatus(e3, failure, msg, 610);
    }
  }

  /** Three calls logged one by one are the three calls logged at once. */
  lemma LogThree(e: Exchange, a: Call, b: Call, c: Call)
    ensures var e3 := Log(Log(Log(e, a), b), c);
      && e3.calls == e.calls + [a, b, c]
      && (forall d :: e3.calls + [d] == e.calls + [a, b, c, d])
      && e3.(calls := e.calls) == e
  {
    assert e.calls + [a] + [b] + [c] == e.calls + [a, b, c];
  }

  /** A miss renders from the bucket for a source without a host, and from the
      origin otherwise. */
  lemma LookupMiss(
    e: Exchange, failure: Option<string>, cfg: Config, req: Request, env: Env,
    src: SourceUrl, dims: Dimensions)
    requires env.getObject(cfg.bucket, ResultPath(src.stripped, req.size)).Err?
    ensures var key := ResultPath(src.stripped, req.size);
      Lookup(e, failure, cfg, req, env, src, dims)
      == if src.host == "" then StoredOrigin(Log(e, GetObject(key)), failure, cfg, req, env, key, dims)
         else RemoteOrigin(Log(e, GetObject(key)), failure, cfg, env, src, key, dims)
  {
  }

  lemma RemoteFailureBranch(
    e: Exchange, failure: Option<string>, cfg: Config, env: Env,
    src: SourceUrl, key: string, dims: Dimensions)
    requires GetImageFromUrl(env.httpGet(src.full)).Err?
    ensures RemoteOrigin(e, failure, cfg, env, src, key, dims)
      == Run(Aborted, ErrorSpec(Log(e, HttpGet(src.full)), failure, GetImageFromUrl(env.httpGet(src.full)).error, 610))
  {
  }

  /** On the remote path a rendering error is dropped: when the fetch succeeds but
      the image cannot be read or rendered, the handler returns without writing
      anything, so the client gets status 200 and an empty body. */
  lemma RemoteRenderErrorDropped(
    e: Exchange, failure: Option<string>, cfg: Config, env: Env,
    src: SourceUrl, key: string, dims: Dimensions, b: Body)
    requires e.status == 0 && e.body == []
    requires GetImageFromUrl(env.httpGet(src.full)) == Ok(b)
    requires b.readError.Some? || Prepare(env, b.data, key, dims.width, dims.height).Refused?
    ensures var r := RemoteOrigin(e, failure, cfg, env, src, key, dims);
      && r.outcome == Completed
      && r.exchange.status == 0 && FinalStatus(r.exchange) == 200
      && r.exchange.body == []
      && r.exchange.stores == e.stores
  {
  }

  /** Serving an object whose body was already read and closed, after the thumbnail
      went out in full: the copy fails, and so does the 611 message, since it would
      exceed the declared length; the client keeps what it got. */
  lemma ServeClosedBody(e: Exchange, failure: Option<string>, cfg: Config, obj: Object, key: string)
    requires e.status != 0 && BodyAllowed(e.status) && e.declared == e.written >= 0
    ensures var r := Serve(e, failure, cfg, obj.(body := ClosedBody), key);
      && r.outcome == Rejected(611)
      && r.exchange.status == e.status && r.exchange.sent == e.sent
      && r.exchange.body == e.body
      && r.exchange.stores == e.stores && r.exchange.calls == e.calls
  {
    var e1 := SetResultHeadersSpec(e, Served(obj, key), cfg.maxAge);
    assert CopySpec(e1, failure, ClosedBody) == (Some(ErrReadOnClosed), e1);
    ErrorLeavesLog(e1, failure, ErrReadOnClosed, 611);
  }

  /** A source kept in the bucket is looked up under the source parameter as given,
      leading slash included, and rendered under the cache key; after a successful
      render control falls through to serving that source object. Its body has
      been read already, so the request ends with 611 although the client has
      received status 200 and the thumbnail. */
  lemma StoredOriginFallsThrough(
    e: Exchange, cfg: Config, req: Request, env: Env, src: SourceUrl, obj: Object, result: RenderResult)
    requires e.status == 0 && Consistent(e)
    requires ParseWidthAndHeight(cfg.sizes, req.size).err.None?
    requires req.signature == env.sign(cfg.key, req.path)
    requires env.parseUrl(SourceText(req)) == Ok(src)
    requires cfg.bucket != "" && env.session.None?
    requires env.getObject(cfg.bucket, ResultPath(src.stripped, req.size)).Err? && src.host == ""
    requires env.getObject(cfg.bucket, req.source) == Ok(obj) && obj.body.readError.None?
    requires var dims := ParseWidthAndHeight(cfg.sizes, req.size);
      Prepare(env, obj.body.data, ResultPath(src.stripped, req.size), dims.width, dims.height) == Ready(result)
    requires |result.data| <= MaxInt64
    ensures var key := ResultPath(src.stripped, req.size);
      var dims := ParseWidthAndHeight(cfg.sizes, req.size);
      var r := HandleResizeSpec(e, None, cfg, req, env);
      && r.outcome == Rejected(611)
      && r.exchange.status == 200
      && r.exchange.sent == ResultHeaderBlock(e.header, result, cfg.maxAge)
      && r.exchange.body == [Bytes(result.data)]
      && r.exchange.stores == e.stores + [result]
      && r.exchange.calls
         == e.calls + [Sign(req.path), GetObject(key), GetObject(req.source), Render(dims.width, dims.height)]
  {
    var key := ResultPath(src.stripped, req.size);
    var dims := ParseWidthAndHeight(cfg.sizes, req.size);
    var e1 := Log(e, Sign(req.path));
    var e2 := Log(e1, GetObject(key));
    var e3 := Log(e2, GetObject(req.source));
    LogThree(e, Sign(req.path), GetObject(key), GetObject(req.source));
    var t := GenerateThumbnailSpec(e3, None, cfg, env, Some(obj.body), key, dims.width, dims.height);
    FreshThumbnail(e3, cfg, env, obj.body, key, dims.width, dims.height, result.data);
    calc {
      HandleResizeSpec(e, None, cfg, req, env);
      { ToLookup(e, None, cfg, req, env, src); }
      Lookup(e1, None, cfg, req, env, src, dims);
      { LookupMiss(e1, None, cfg, req, env, src, dims); }
      StoredOrigin(e2, None, cfg, req, env, key, dims);
      Serve(t.exchange, None, cfg, obj.(body := ClosedBody), key);
    }
    ServeClosedBody(t.exchange, None, cfg, obj, key);
  }

  /** Stores are scheduled only with a bucket, at most one per request, and under
      the key the lookup uses, so a later request for the same source and size
      finds it. */
  lemma StoresUnderLookupKey(e: Exchange, failure: Option<string>, cfg: Config, req: Request, env: Env)
    ensures var r := HandleResizeSpec(e, failure, cfg, req, env);
      && (cfg.bucket == "" ==> r.exchange.stores == e.stores)
      && (r.exchange.stores != e.stores ==>
            && env.parseUrl(SourceText(req)).Ok?
            && AtMostOneStore(e.stores, r.exchange.stores,
                 ResultPath(env.parseUrl(SourceText(req)).value.stripped, req.size)))
  {
    var dims := ParseWidthAndHeight(cfg.sizes, req.size);
    var e1 := Log(e, Sign(req.path));
    if cfg.bucket == "" {
      NoBucketNoLookup(e, failure, cfg, req, env);
    } else if dims.err.Some? {
      InvalidSizeFirst(e, failure, cfg, req, env);
    } else if req.signature != env.sign(cfg.key, req.path) {
      MismatchStopsEarly(e, failure, cfg, req, env);
    } else if env.parseUrl(SourceText(req)).Err? {
      ErrorLeavesLog(e1, failure, env.parseUrl(SourceText(req)).error, 603);
    } else if env.session.Some? {
      ErrorLeavesLog(e1, failure, env.session.value, 606);
    } else {
      var src := env.parseUrl(SourceText(req)).value;
      ToLookup(e, failure, cfg, req, env, src);
      LookupStores(e1, failure, cfg, req, env, src, dims);
    }
  }

  lemma LookupStores(
    e: Exchange, failure: Option<string>, cfg: Config, req: Request, env: Env,
    src: SourceUrl, dims: Dimensions)
    ensures AtMostOneStore(e.stores, Lookup(e, failure, cfg, req, env, src, dims).exchange.stores,
      ResultPath(src.stripped, req.size))
  {
    var key := ResultPath(src.stripped, req.size);
    var e1 := Log(e, GetObject(key));
    match env.getObject(cfg.bucket, key)
    case Ok(obj) =>
      ServeLog(e1, failure, cfg, obj, key);
    case Err(_) =>
      LookupMiss(e, failure, cfg, req, env, src, dims);
      if src.host == "" {
        StoredOriginStores(e1, failure, cfg, req, env, key, dims);
      } else {
        RemoteOriginStores(e1, failure, cfg, env, src, key, dims);
      }
  }

  lemma StoredOriginStores(
    e: Exchange, failure: Option<string>, cfg: Config, req: Request, env: Env,
    key: string, dims: Dimensions)
    ensures AtMostOneStore(e.stores, StoredOrigin(e, failure, cfg, req, env, key, dims).exchange.stores, key)
  {
    var e1 := Log(e, GetObject(req.source));
    match env.getObject(cfg.bucket, req.source)
    case Err(msg) =>
      ErrorLeavesLog(e1, failure, msg, 608);
    case Ok(obj) =>
      var t := GenerateThumbnailSpec(e1, failure, cfg, env, Some(obj.body), key, dims.width, dims.height);
      ThumbnailLog(e1, failure, cfg, env, Some(obj.body), key, dims.width, dims.height);
      match t.outcome
      case Failed(msg) =>
        ErrorLeavesLog(t.exchange, failure, msg, 609);
      case Panicked =>
      case Done =>
        ServeLog(t.exchange, failure, cfg, obj.(body := ClosedBody), key);
  }

  lemma RemoteOriginStores(
    e: Exchange, failure: Option<string>, cfg: Config, env: Env,
    src: SourceUrl, key: string, dims: Dimensions)
    ensures AtMostOneStore(e.stores, RemoteOrigin(e, failure, cfg, env, src, key, dims).exchange.stores, key)
  {
    var e1 := Log(e, HttpGet(src.full));
    match GetImageFromUrl(env.httpGet(src.full))
    case Err(msg) =>
      RemoteFailureBranch(e, failure, cfg, env, src, key, dims);
      ErrorLeavesLog(e1, failure, msg, 610);
    case Ok(b) =>
      ThumbnailLog(e1, failure, cfg, env, Some(b), key, dims.width, dims.height);
  }
}
