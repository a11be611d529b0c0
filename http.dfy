/** The part of net/http the handler drives: a response writer whose header map is
    edited in place, whose status line is written once, and whose body is checked
    against the declared Content-Length; `http.Error`; and `io.Copy` into it.

    `Exchange` is the writer's state as a value, together with the stores the handler
    scheduled and the collaborator calls it made; class `Response` holds the same
    state in fields, and each of its methods is specified by the function on
    `Exchange` of the same name with suffix `Spec`. */
module Http {
  import opened Wrappers
  import opened Strconv
  import opened Records

  // ---------------------------------------------------------------------------
  // Header keys (`textproto.CanonicalMIMEHeaderKey`, applied by `Header().Set`)

  predicate IsTokenChar(c: char) {
    || ('a' <= c <= 'z') || ('A' <= c <= 'Z') || ('0' <= c <= '9')
    || c == '!' || c == '#' || c == '$' || c == '%' || c == '&' || c == '\'' || c == '*'
    || c == '+' || c == '-' || c == '.' || c == '^' || c == '_' || c == '`' || c == '|' || c == '~'
  }

  predicate IsToken(s: string) { forall i :: 0 <= i < |s| ==> IsTokenChar(s[i]) }

  predicate IsLower(c: char) { 'a' <= c <= 'z' }
  predicate IsUpper(c: char) { 'A' <= c <= 'Z' }

  /** Upper-case the first letter and every letter after a hyphen, lower-case the rest;
      `upper` says whether the next letter starts a word. */
  function Canonical(s: string, upper: bool): (r: string)
    ensures |r| == |s|
  {
    if s == [] then []
    else
      var c := if upper && IsLower(s[0]) then (s[0] as int - 32) as char
               else if !upper && IsUpper(s[0]) then (s[0] as int + 32) as char
               else s[0];
      [c] + Canonical(s[1..], c == '-')
  }

  /** The canonical form of a header key; a key with a non-token character is kept as
      it is. */
  function CanonicalKey(key: string): (r: string)
    ensures |r| == |key|
  {
    if IsToken(key) then Canonical(key, true) else key
  }

  /** Canonicalising twice changes nothing more. */
  lemma {:induction false} CanonicalIdempotent(s: string, upper: bool)
    ensures Canonical(Canonical(s, upper), upper) == Canonical(s, upper)
    decreases |s|
  {
    if s != [] {
      var r := Canonical(s, upper);
      var c := r[0];
      assert r == [c] + Canonical(s[1..], c == '-');
      assert r[1..] == Canonical(s[1..], c == '-');
      CanonicalIdempotent(s[1..], c == '-');
    }
  }

  lemma {:induction false} CanonicalKeepsTokens(s: string, upper: bool)
    requires IsToken(s)
    ensures IsToken(Canonical(s, upper))
    decreases |s|
  {
    if s != [] {
      var r := Canonical(s, upper);
      assert IsToken(s[1..]) by { assert forall i :: 0 <= i < |s| - 1 ==> s[1..][i] == s[i + 1]; }
      CanonicalKeepsTokens(s[1..], r[0] == '-');
      assert r[1..] == Canonical(s[1..], r[0] == '-');
      assert forall i :: 1 <= i < |r| ==> r[i] == r[1..][i - 1];
    }
  }

  lemma CanonicalKeyIdempotent(key: string)
    ensures CanonicalKey(CanonicalKey(key)) == CanonicalKey(key)
  {
    if IsToken(key) {
      CanonicalKeepsTokens(key, true);
      CanonicalIdempotent(key, true);
    }
  }

  /** `c` with an upper-case ASCII letter lowered. */
  function Lower(c: char): char { if IsUpper(c) then (c as int + 32) as char else c }

  predicate IsLetter(c: char) { IsLower(c) || IsUpper(c) }

  /** Whether position `i` of `t` starts a word: it comes first (and `upper` holds)
      or follows a hyphen. */
  predicate StartsWord(t: string, i: int, upper: bool)
    requires 0 <= i < |t|
  {
    if i == 0 then upper else t[i - 1] == '-'
  }

  /** Every letter of `t` is upper-case exactly when it starts a word. */
  predicate Capitalised(t: string, upper: bool) {
    forall i :: 0 <= i < |t| && IsLetter(t[i]) ==> (IsUpper(t[i]) <==> StartsWord(t, i, upper))
  }

  predicate SameUpToCase(s: string, t: string) {
    |s| == |t| && forall i :: 0 <= i < |s| ==> Lower(s[i]) == Lower(t[i])
  }

  /** One step of `Canonical`: the letter it writes is the one the capitalised
      spelling has. */
  lemma CaseStep(a: char, b: char, upper: bool)
    requires Lower(a) == Lower(b) && (IsLetter(b) ==> (IsUpper(b) <==> upper))
    ensures (if upper && IsLower(a) then (a as int - 32) as char
             else if !upper && IsUpper(a) then (a as int + 32) as char
             else a) == b
  {
  }

  /** `Canonical` gives the one capitalised spelling of the same letters. */
  lemma {:induction false} CanonicalUnique(s: string, t: string, upper: bool)
    requires SameUpToCase(s, t) && Capitalised(t, upper)
    ensures Canonical(s, upper) == t
    decreases |s|
  {
    if s != [] {
      var r := Canonical(s, upper);
      assert IsLetter(t[0]) ==> (IsUpper(t[0]) <==> upper);
      CaseStep(s[0], t[0], upper);
      assert SameUpToCase(s[1..], t[1..]) by {
        assert forall i :: 0 <= i < |s| - 1 ==> s[1..][i] == s[i + 1] && t[1..][i] == t[i + 1];
      }
      assert Capitalised(t[1..], t[0] == '-') by {
        forall i | 0 <= i < |t| - 1 && IsLetter(t[1..][i])
          ensures IsUpper(t[1..][i]) <==> StartsWord(t[1..], i, t[0] == '-')
        {
          assert t[1..][i] == t[i + 1];
        }
      }
      CanonicalUnique(s[1..], t[1..], t[0] == '-');
      assert r == [t[0]] + t[1..];
    }
  }

  /** Conversely, what `Canonical` returns is the capitalised spelling of `s`. */
  lemma {:induction false} CanonicalCapitalises(s: string, upper: bool)
    ensures SameUpToCase(s, Canonical(s, upper)) && Capitalised(Canonical(s, upper), upper)
    decreases |s|
  {
    if s != [] {
      var r := Canonical(s, upper);
      CanonicalCapitalises(s[1..], r[0] == '-');
      assert r[1..] == Canonical(s[1..], r[0] == '-');
      assert forall i :: 1 <= i < |s| ==> s[i] == s[1..][i - 1] && r[i] == r[1..][i - 1];
    }
  }

  /** `Header().Set("ETag", …)` files the value under "Etag". */
  lemma ETagKey() ensures CanonicalKey("ETag") == "Etag" {
    CanonicalUnique("ETag", "Etag", true);
  }

  /** The other keys the handler sets are canonical as written. */
  lemma ContentTypeKey() ensures CanonicalKey("Content-Type") == "Content-Type" {
    CanonicalUnique("Content-Type", "Content-Type", true);
  }

  lemma ContentLengthKey() ensures CanonicalKey("Content-Length") == "Content-Length" {
    CanonicalUnique("Content-Length", "Content-Length", true);
  }

  lemma CacheControlKey() ensures CanonicalKey("Cache-Control") == "Cache-Control" {
    CanonicalUnique("Cache-Control", "Cache-Control", true);
  }

  lemma NosniffKey() ensures CanonicalKey("X-Content-Type-Options") == "X-Content-Type-Options" {
    CanonicalUnique("X-Content-Type-Options", "X-Content-Type-Options", true);
  }

  // ---------------------------------------------------------------------------
  // The response writer's state

  /** A piece of response body: raw bytes, or text (one byte per character). */
  datatype Chunk = Bytes(data: seq<byte>) | Text(text: string)

  function Size(c: Chunk): nat {
    match c
    case Bytes(data) => |data|
    case Text(text) => |text|
  }

  function Total(body: seq<Chunk>): nat {
    if body == [] then 0 else Total(body[..|body| - 1]) + Size(body[|body| - 1])
  }

  /** One request's response as the handler sees it: the header map it edits
      (canonical key to value), the status line once written (0 before) with the
      header snapshot sent with it, the Content-Length declared then (-1 for none),
      the byte count of every non-empty write attempted after the status line, the
      body chunks accepted; and, beside the response, the stores scheduled and the
      collaborator calls made while serving it. */
  datatype Exchange = Exchange(
    header: map<string, string>,
    status: int,
    sent: map<string, string>,
    declared: int,
    written: int,
    body: seq<Chunk>,
    stores: seq<RenderResult>,
    calls: seq<Call>)

  const Untouched := Exchange(map[], 0, map[], -1, 0, [], [], [])

  const ErrContentLength := "http: wrote more than the declared Content-Length"
  const ErrBodyNotAllowed := "http: request method or response status code does not allow body"

  /** Informational, 204 and 304 responses carry no body. */
  predicate BodyAllowed(status: int) {
    !(100 <= status <= 199 || status == 204 || status == 304)
  }

  /** `Header().Set(key, value)`. */
  function SetSpec(e: Exchange, key: string, value: string): Exchange {
    e.(header := e.header[CanonicalKey(key) := value])
  }

  /** `WriteHeader(code)`: only the first call has an effect. It sends the current
      header map and takes the declared length from its Content-Length value; a
      value that is not a non-negative decimal is dropped from the map. */
  function WriteHeaderSpec(e: Exchange, code: int): Exchange
    requires 100 <= code <= 999
  {
    if e.status != 0 then e
    else
      var e1 := e.(status := code, sent := e.header);
      var k := CanonicalKey("Content-Length");
      var cl := if k in e.header then e.header[k] else "";
      if cl == "" then e1
      else match Atoi(cl)
        case Ok(v) => if v >= 0 then e1.(declared := v) else e1.(header := e.header - {k})
        case Err(_) => e1.(header := e.header - {k})
  }

  /** `Write(c)` on a connection whose writes fail with `failure` (if any): writes a
      200 status line first if none was written; an empty write does nothing more;
      the size of any other write is counted before the declared length is checked. */
  function WriteSpec(e: Exchange, failure: Option<string>, c: Chunk): (Option<string>, Exchange) {
    AcceptSpec(Opened(e), failure, c)
  }

  /** The status line a write goes out behind: the one written, or else 200. */
  function Opened(e: Exchange): Exchange {
    if e.status == 0 then WriteHeaderSpec(e, 200) else e
  }

  /** A write after the status line. */
  function AcceptSpec(e: Exchange, failure: Option<string>, c: Chunk): (Option<string>, Exchange) {
    if Size(c) == 0 then (None, e)
    else if !BodyAllowed(e.status) then (Some(ErrBodyNotAllowed), e)
    else
      var e1 := e.(written := e.written + Size(c));
      if e1.declared != -1 && e1.written > e1.declared then (Some(ErrContentLength), e1)
      else if failure.Some? then (failure, e1)
      else (None, e1.(body := e1.body + [c]))
  }

  /** `http.Error(w, msg, code)`: a plain-text, non-sniffable body holding the message
      and a newline, behind status `code`; whether that write succeeds is not
      reported. */
  function ErrorSpec(e: Exchange, failure: Option<string>, msg: string, code: int): Exchange
    requires 100 <= code <= 999
  {
    var e1 := SetSpec(e, "Content-Type", "text/plain; charset=utf-8");
    var e2 := SetSpec(e1, "X-Content-Type-Options", "nosniff");
    var e3 := WriteHeaderSpec(e2, code);
    WriteSpec(e3, failure, Text(msg + "\n")).1
  }

  /** `io.Copy(w, body)`: the body's bytes in one write, then the error that ended the
      body; a failed write is reported instead. */
  function CopySpec(e: Exchange, failure: Option<string>, body: Body): (Option<string>, Exchange) {
    if body.data == [] then (body.readError, e)
    else
      var (err, e1) := WriteSpec(e, failure, Bytes(body.data));
      if err.Some? then (err, e1) else (body.readError, e1)
  }

  /** The status the client receives: a handler that wrote nothing gets 200. */
  function FinalStatus(e: Exchange): int {
    if e.status == 0 then 200 else e.status
  }

  // ---------------------------------------------------------------------------
  // Properties of the writer

  /** What every reachable state satisfies: nothing is sent or counted before the
      status line, the accepted body never exceeds the bytes attempted, and never
      exceeds the declared Content-Length. */
  predicate Consistent(e: Exchange) {
    && (e.status == 0 ==> e.written == 0 && e.body == [] && e.declared == -1)
    && e.declared >= -1
    && Total(e.body) <= e.written
    && (e.declared != -1 ==> Total(e.body) <= e.declared)
  }

  lemma UntouchedConsistent() ensures Consistent(Untouched) { }

  lemma SetKeepsConsistent(e: Exchange, key: string, value: string)
    requires Consistent(e)
    ensures Consistent(SetSpec(e, key, value))
    ensures SetSpec(e, key, value).(header := e.header) == e
  {
  }

  /** The first `WriteHeader` wins; later ones change nothing. */
  lemma WriteHeaderOnce(e: Exchange, code: int)
    requires Consistent(e) && 100 <= code <= 999
    ensures var r := WriteHeaderSpec(e, code);
      && Consistent(r)
      && (e.status != 0 ==> r == e)
      && (e.status == 0 ==> r.status == code && r.sent == e.header && r.body == [])
  {
  }

  lemma TotalAppend(body: seq<Chunk>, c: Chunk)
    ensures Total(body + [c]) == Total(body) + Size(c)
  {
    assert (body + [c])[..|body|] == body;
  }

  lemma OpenedConsistent(e: Exchange)
    requires Consistent(e)
    ensures var r := Opened(e);
      && Consistent(r) && r.status == (if e.status == 0 then 200 else e.status)
      && r.written == e.written && r.body == e.body && r.stores == e.stores && r.calls == e.calls
  {
    WriteHeaderOnce(e, 200);
  }

  lemma {:induction false} AcceptKeepsConsistent(e: Exchange, failure: Option<string>, c: Chunk)
    requires Consistent(e) && e.status != 0
    ensures var (err, r) := AcceptSpec(e, failure, c);
      && Consistent(r) && r.status == e.status && r.stores == e.stores && r.calls == e.calls
      && r.body == (if err.None? && Size(c) > 0 then e.body + [c] else e.body)
  {
    if Size(c) > 0 && BodyAllowed(e.status) {
      var e1 := e.(written := e.written + Size(c));
      if !(e1.declared != -1 && e1.written > e1.declared) && failure.None? {
        TotalAppend(e1.body, c);
      }
    }
  }

  /** A write keeps the state consistent and touches neither stores nor calls; the
      body grows by the chunk when the write is accepted, and not otherwise. */
  lemma WriteKeepsConsistent(e: Exchange, failure: Option<string>, c: Chunk)
    requires Consistent(e) && (e.status == 0 || BodyAllowed(e.status))
    ensures var (err, r) := WriteSpec(e, failure, c);
      && Consistent(r) && r.stores == e.stores && r.calls == e.calls
      && r.body == (if err.None? && Size(c) > 0 then e.body + [c] else e.body)
  {
    OpenedConsistent(e);
    AcceptKeepsConsistent(Opened(e), failure, c);
  }

  /** A non-empty write is accepted exactly when it stays within the declared length
      and the connection holds; either way its size is counted, after a 200 status line
      if none was written. */
  lemma WriteAccepted(e: Exchange, failure: Option<string>, c: Chunk)
    requires Consistent(e) && (e.status == 0 || BodyAllowed(e.status)) && Size(c) > 0
    ensures var (err, r) := WriteSpec(e, failure, c);
      && r.status == Opened(e).status
      && r.written == e.written + Size(c)
      && (err.None? <==> failure.None? && (Opened(e).declared == -1 || e.written + Size(c) <= Opened(e).declared))
  {
    OpenedConsistent(e);
  }

  /** The first write on an untouched writer over a working connection, within the
      length the headers declare: it goes out behind status 200 and the current
      headers, as the whole body. */
  lemma FirstWrite(e: Exchange, c: Chunk)
    requires e.status == 0 && Consistent(e) && Size(c) > 0
    requires var d := WriteHeaderSpec(e, 200).declared; d == -1 || Size(c) <= d
    ensures var (err, r) := WriteSpec(e, None, c);
      && err.None? && r.status == 200 && r.sent == e.header
      && r.declared == WriteHeaderSpec(e, 200).declared && r.written == Size(c)
      && r.body == [c] && r.stores == e.stores && r.calls == e.calls
  {
    var o := WriteHeaderSpec(e, 200);
    WriteHeaderOnce(e, 200);
    assert Opened(e) == o;
    assert o.body + [c] == [c];
  }

  /** Writing, copying and `http.Error` touch the response only, never the log of
      scheduled stores and collaborator calls. */
  lemma WriteLeavesLog(e: Exchange, failure: Option<string>, c: Chunk)
    ensures var r := WriteSpec(e, failure, c).1; r.stores == e.stores && r.calls == e.calls
  {
  }

  lemma CopyLeavesLog(e: Exchange, failure: Option<string>, body: Body)
    ensures var r := CopySpec(e, failure, body).1; r.stores == e.stores && r.calls == e.calls
  {
    WriteLeavesLog(e, failure, Bytes(body.data));
  }

  lemma ErrorLeavesLog(e: Exchange, failure: Option<string>, msg: string, code: int)
    requires 100 <= code <= 999
    ensures var r := ErrorSpec(e, failure, msg, code); r.stores == e.stores && r.calls == e.calls
  {
    var e2 := SetSpec(SetSpec(e, "Content-Type", "text/plain; charset=utf-8"), "X-Content-Type-Options", "nosniff");
    WriteLeavesLog(WriteHeaderSpec(e2, code), failure, Text(msg + "\n"));
  }

  /** `http.Error` does not look at the call log. */
  lemma ErrorIgnoresLog(e: Exchange, calls: seq<Call>, failure: Option<string>, msg: string, code: int)
    requires 100 <= code <= 999
    ensures ErrorSpec(e.(calls := calls), failure, msg, code) == ErrorSpec(e, failure, msg, code).(calls := calls)
  {
    var e2 := SetSpec(SetSpec(e, "Content-Type", "text/plain; charset=utf-8"), "X-Content-Type-Options", "nosniff");
    var d2 := SetSpec(SetSpec(e.(calls := calls), "Content-Type", "text/plain; charset=utf-8"), "X-Content-Type-Options", "nosniff");
    assert d2 == e2.(calls := calls);
    WriteHeaderIgnoresLog(e2, calls, code);
    WriteIgnoresLog(WriteHeaderSpec(e2, code), calls, failure, Text(msg + "\n"));
  }

  /** The status line does not look at the call log. */
  lemma WriteHeaderIgnoresLog(e: Exchange, calls: seq<Call>, code: int)
    requires 100 <= code <= 999
    ensures WriteHeaderSpec(e.(calls := calls), code) == WriteHeaderSpec(e, code).(calls := calls)
  {
  }

  /** A write does not look at the call log. */
  lemma WriteIgnoresLog(e: Exchange, calls: seq<Call>, failure: Option<string>, c: Chunk)
    ensures var (err, r) := WriteSpec(e, failure, c);
      WriteSpec(e.(calls := calls), failure, c) == (err, r.(calls := calls))
  {
    if e.status == 0 {
      WriteHeaderIgnoresLog(e, calls, 200);
    }
  }

  /** `io.Copy` does not look at the call log. */
  lemma CopyIgnoresLog(e: Exchange, calls: seq<Call>, failure: Option<string>, body: Body)
    ensures var (err, r) := CopySpec(e, failure, body);
      CopySpec(e.(calls := calls), failure, body) == (err, r.(calls := calls))
  {
    WriteIgnoresLog(e, calls, failure, Bytes(body.data));
  }

  lemma ErrorKeepsConsistent(e: Exchange, failure: Option<string>, msg: string, code: int)
    requires Consistent(e) && 100 <= code <= 999 && BodyAllowed(code) && (e.status == 0 || BodyAllowed(e.status))
    ensures Consistent(ErrorSpec(e, failure, msg, code))
  {
    var e2 := SetSpec(SetSpec(e, "Content-Type", "text/plain; charset=utf-8"), "X-Content-Type-Options", "nosniff");
    WriteHeaderOnce(e2, code);
    WriteKeepsConsistent(WriteHeaderSpec(e2, code), failure, Text(msg + "\n"));
  }

  /** `http.Error` on a writer that has not written its status line sends `code`
      with a plain-text, non-sniffable header and, when the connection holds, the
      message and a newline as the whole body. */
  lemma ErrorOnUntouched(e: Exchange, failure: Option<string>, msg: string, code: int)
    requires e.status == 0 && Consistent(e) && "Content-Length" !in e.header
    requires 100 <= code <= 999 && BodyAllowed(code)
    ensures var r := ErrorSpec(e, failure, msg, code);
      && r.status == code
      && r.sent == e.header["Content-Type" := "text/plain; charset=utf-8"]
                           ["X-Content-Type-Options" := "nosniff"]
      && (failure.None? ==> r.body == [Text(msg + "\n")])
      && (failure.Some? ==> r.body == [])
  {
    ContentTypeKey();
    ContentLengthKey();
    NosniffKey();
    var e2 := SetSpec(SetSpec(e, "Content-Type", "text/plain; charset=utf-8"), "X-Content-Type-Options", "nosniff");
    assert e2.header == e.header["Content-Type" := "text/plain; charset=utf-8"]["X-Content-Type-Options" := "nosniff"];
    assert "Content-Length" !in e2.header;
    var e3 := WriteHeaderSpec(e2, code);
    assert e3 == e2.(status := code, sent := e2.header);
    assert [] + [Text(msg + "\n")] == [Text(msg + "\n")];
  }

  /** `http.Error` on a writer without a status line sends `code`. */
  lemma ErrorSetsStatus(e: Exchange, failure: Option<string>, msg: string, code: int)
    requires e.status == 0 && 100 <= code <= 999
    ensures ErrorSpec(e, failure, msg, code).status == code
  {
    var e2 := SetSpec(SetSpec(e, "Content-Type", "text/plain; charset=utf-8"), "X-Content-Type-Options", "nosniff");
    var e3 := WriteHeaderSpec(e2, code);
    assert e3.status == code;
    assert Opened(e3) == e3;
  }

  /** `http.Error` after the status line leaves status and sent header alone. */
  lemma ErrorAfterStatus(e: Exchange, failure: Option<string>, msg: string, code: int)
    requires e.status != 0 && 100 <= code <= 999
    ensures var r := ErrorSpec(e, failure, msg, code);
      r.status == e.status && r.sent == e.sent && r.declared == e.declared
  {
  }

  lemma CopyKeepsConsistent(e: Exchange, failure: Option<string>, body: Body)
    requires Consistent(e) && (e.status == 0 || BodyAllowed(e.status))
    ensures var (err, r) := CopySpec(e, failure, body);
      && Consistent(r)
      && (err.None? ==> r.body == e.body + (if body.data == [] then [] else [Bytes(body.data)]))
      && (body.readError.Some? ==> err.Some?)
  {
    if body.data != [] {
      WriteKeepsConsistent(e, failure, Bytes(body.data));
    }
  }

  // ---------------------------------------------------------------------------
  // The writer as an object

  /** An `http.ResponseWriter` together with the handler's log of scheduled stores
      and collaborator calls. */
  class Response {
    var header: map<string, string>
    var status: int
    var sent: map<string, string>
    var declared: int
    var written: int
    var body: seq<Chunk>
    var stores: seq<RenderResult>
    var calls: seq<Call>
    /** The error every non-empty write of the connection fails with, if any. */
    const failure: Option<string>

    function State(): Exchange
      reads this
    {
      Exchange(header, status, sent, declared, written, body, stores, calls)
    }

    constructor(failure: Option<string>)
      ensures State() == Untouched && this.failure == failure
    {
      header, status, sent, declared, written, body := map[], 0, map[], -1, 0, [];
      stores, calls := [], [];
      this.failure := failure;
    }

    method Set(key: string, value: string)
      modifies this
      ensures State() == SetSpec(old(State()), key, value)
    {
      header := header[CanonicalKey(key) := value];
    }

    method WriteHeader(code: int)
      requires 100 <= code <= 999
      modifies this
      ensures State() == WriteHeaderSpec(old(State()), code)
    {
      if status != 0 {
        return;
      }
      status, sent := code, header;
      var k := CanonicalKey("Content-Length");
      var cl := if k in header then header[k] else "";
      if cl != "" {
        var v := Atoi(cl);
        if v.Ok? && v.value >= 0 {
          declared := v.value;
        } else {
          header := header - {k};
        }
      }
    }

    method Write(c: Chunk) returns (err: Option<string>)
      modifies this
      ensures (err, State()) == WriteSpec(old(State()), failure, c)
    {
      if status == 0 {
        WriteHeader(200);
      }
      assert State() == Opened(old(State()));
      if Size(c) == 0 {
        return None;
      }
      if !BodyAllowed(status) {
        return Some(ErrBodyNotAllowed);
      }
      written := written + Size(c);
      if declared != -1 && written > declared {
        return Some(ErrContentLength);
      }
      if failure.Some? {
        return failure;
      }
      body := body + [c];
      return None;
    }

    /** `go storeResult(result)`: the upload is recorded, not performed. */
    method Schedule(r: RenderResult)
      modifies this
      ensures State() == old(State()).(stores := old(stores) + [r])
    {
      stores := stores + [r];
    }

    method Record(c: Call)
      modifies this
      ensures State() == old(State()).(calls := old(calls) + [c])
    {
      calls := calls + [c];
    }
  }

  method Error(w: Response, msg: string, code: int)
    requires 100 <= code <= 999
    modifies w
    ensures w.State() == ErrorSpec(old(w.State()), w.failure, msg, code)
  {
    w.Set("Content-Type", "text/plain; charset=utf-8");
    w.Set("X-Content-Type-Options", "nosniff");
    w.WriteHeader(code);
    var _ := w.Write(Text(msg + "\n"));
  }

  method Copy(w: Response, body: Body) returns (err: Option<string>)
    modifies w
    ensures (err, w.State()) == CopySpec(old(w.State()), w.failure, body)
  {
    if body.data == [] {
      return body.readError;
    }
    err := w.Write(Bytes(body.data));
    if err.None? {
      err := body.readError;
    }
  }
}
