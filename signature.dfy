/** Request authentication (`validateSignature`). The expected signature is the
    standard base64 encoding of HMAC-SHA3-256 over the escaped request path, keyed with
    the configured server key; that computation is a parameter of the model. */
module Signature {
  import opened Wrappers
  import opened Records

  const Mismatch := "Signature mismatch"

  /** The bytes of a Go string, as `[]byte(s)` gives them. */
  type Octets = seq<byte>

  /** `crypto/subtle.ConstantTimeCompare`: 1 when the two byte strings are equal, else
      0; every byte pair is visited, the differences are OR-ed together. */
  method ConstantTimeCompare(x: Octets, y: Octets) returns (r: int)
    ensures r == 1 <==> x == y
    ensures r == 0 || r == 1
  {
    if |x| != |y| {
      return 0;
    }
    var v: byte := 0;
    for i := 0 to |x|
      invariant v == 0 <==> x[..i] == y[..i]
    {
      assert x[..i + 1] == x[..i] + [x[i]] && y[..i + 1] == y[..i] + [y[i]];
      v := v | (x[i] ^ y[i]);
    }
    assert x[..|x|] == x && y[..|y|] == y;
    r := if v == 0 then 1 else 0;
  }

  /** `validateSignature`: `sign(key, path)` stands for the bytes of the base64 HMAC
      the server computes. Succeeds exactly when the supplied signature is that string. */
  method ValidateSignature(sig: Octets, pathPart: string, key: string, sign: (string, string) -> Octets)
    returns (err: Option<string>)
    ensures err.None? <==> sig == sign(key, pathPart)
    ensures err.Some? ==> err.value == Mismatch
  {
    var actualSig := sign(key, pathPart);
    var same := ConstantTimeCompare(sig, actualSig);
    if same != 1 {
      return Some(Mismatch);
    }
    return None;
  }
}
