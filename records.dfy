/** The values that flow through one resize request: configuration, the inbound
    request, what the collaborators (S3, the origin web server, vips, the hash
    functions) return, and the `result` record of a rendered thumbnail. */
module Records {
  import opened Wrappers

  type byte = bv8

  /** A readable body: the bytes it yields, then the error that ends the stream
      (`None` for a clean end of file). */
  datatype Body = Body(data: seq<byte>, readError: Option<string>)

  /** An S3 object as `GetObject` returns it: metadata and body. */
  datatype Object = Object(contentType: string, contentLength: int, etag: string, body: Body)

  /** The origin web server's reply to a GET. */
  datatype Reply = Reply(status: int, body: Body)

  /** The source parameter after `url.Parse`: its host, its `String()`, and its
      `String()` once scheme and host are cleared. */
  datatype SourceUrl = SourceUrl(host: string, full: string, stripped: string)

  /** The `result` record: a rendered (or cached) image and its response metadata;
      `path` is the storage key it is served or stored under. */
  datatype RenderResult = RenderResult(
    data: seq<byte>, contentType: string, contentLength: int, etag: string, path: string)

  /** A call into a collaborator, in the order the handler makes them. */
  datatype Call =
    | Sign(path: string)               // HMAC of the request path
    | GetObject(key: string)           // S3 GetObject in the configured bucket
    | HttpGet(url: string)             // GET to the origin web server
    | Render(width: int, height: int)  // vips.Resize

  /** What the handler reads from the configuration: the `sizes` table (as viper
      returns it, keys already lower-cased), `s3.bucket`, `server.key` and
      `cache-control.max-age`. */
  datatype Config = Config(sizes: map<string, string>, bucket: string, key: string, maxAge: int)

  /** The inbound request: `URL.EscapedPath()`, the `:size` and `*source` router
      parameters (the latter with its leading '/'), and the bytes of the `Signature`
      header (empty when absent). */
  datatype Request = Request(path: string, size: string, source: string, signature: seq<byte>)

  /** The collaborators, as functions of their inputs. */
  datatype Env = Env(
    sign: (string, string) -> seq<byte>,          // base64(HMAC-SHA3-256(key, path))
    parseUrl: string -> Result<SourceUrl>,         // url.Parse
    session: Option<string>,                       // the error of session.NewSession, if any
    getObject: (string, string) -> Result<Object>, // S3 GetObject(bucket, key)
    httpGet: string -> Result<Reply>,              // http.Get
    resize: (seq<byte>, int, int) -> Result<seq<byte>>, // vips.Resize with the configured options
    md5Hex: seq<byte> -> string)                   // hex MD5 digest
}
