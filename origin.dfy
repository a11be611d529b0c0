/** Fetching a source image from the origin web server (`getImageFromURL`): only a
    200 reply yields a body. */
module Origin {
  import opened Wrappers
  import opened Strconv
  import opened Records

  const StatusPrefix := "Unexpected status code from source: "

  /** The error for a reply with any status other than 200. */
  function StatusError(status: int): string {
    StatusPrefix + Format(status)
  }

  /** `getImageFromURL`, given what `http.Get` returned for the URL: a transport
      error is passed on, a reply other than 200 is refused with its status, and a
      200 reply gives its body. */
  function GetImageFromUrl(reply: Result<Reply>): (r: Result<Body>)
    ensures r.Ok? <==> reply.Ok? && reply.value.status == 200
    ensures r.Ok? ==> r.value == reply.value.body
    ensures reply.Err? ==> r == Err(reply.error)
    ensures reply.Ok? && reply.value.status != 200 ==> r == Err(StatusError(reply.value.status))
  {
    match reply
    case Err(msg) => Err(msg)
    case Ok(response) =>
      if response.status != 200 then Err(StatusError(response.status))
      else Ok(response.body)
  }

  /** The refusal names the status: the text after the prefix reads back as it. */
  lemma StatusErrorReadable(status: int)
    requires MinInt64 <= status <= MaxInt64
    ensures var m := StatusError(status);
      && StatusPrefix <= m
      && Atoi(m[|StatusPrefix|..]) == Ok(status)
  {
    var m := StatusError(status);
    assert m[|StatusPrefix|..] == Format(status);
    AtoiFormat(status);
  }

  /** So two different statuses are refused with different messages. */
  lemma StatusErrorInjective(a: int, b: int)
    requires MinInt64 <= a <= MaxInt64 && MinInt64 <= b <= MaxInt64
    requires StatusError(a) == StatusError(b)
    ensures a == b
  {
    StatusErrorReadable(a);
    StatusErrorReadable(b);
  }
}
