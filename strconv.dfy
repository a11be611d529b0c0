/** Decimal integers as Go's `strconv` package reads and writes them on a 64-bit
    platform: `Atoi` (also what net/http uses to read a Content-Length) and
    `FormatInt(n, 10)` / `fmt` `%d`. */
module Strconv {
  import opened Wrappers

  const MaxInt64: int := 0x7fff_ffff_ffff_ffff
  const MinInt64: int := -0x8000_0000_0000_0000
  const MaxUint64: int := 0xffff_ffff_ffff_ffff

  const ErrSyntax := "invalid syntax"
  const ErrRange := "value out of range"

  predicate IsDigit(c: char) { '0' <= c <= '9' }

  predicate AllDigits(s: string) { forall i :: 0 <= i < |s| ==> IsDigit(s[i]) }

  function DigitValue(c: char): (d: nat)
    requires IsDigit(c)
    ensures d < 10
  { c as int - '0' as int }

  function DigitChar(d: nat): (c: char)
    requires d < 10
    ensures IsDigit(c) && DigitValue(c) == d
  { ('0' as int + d) as char }

  /** The value of a run of decimal digits, most significant first. */
  function Value(s: string): nat
    requires AllDigits(s)
  {
    if s == [] then 0 else 10 * Value(s[..|s| - 1]) + DigitValue(s[|s| - 1])
  }

  /** The text of `strconv.NumError.Error()` for `Atoi`; `strconv.Quote` is taken to
      add only the surrounding double quotes. */
  function NumError(num: string, reason: string): string {
    "strconv.Atoi: parsing \"" + num + "\": " + reason
  }

  /** The digits after an optional leading sign. */
  function Unsigned(s: string): string {
    if |s| > 0 && (s[0] == '-' || s[0] == '+') then s[1..] else s
  }

  /** Reference reading of a decimal literal: an optional sign and at least one digit. */
  predicate IsDecimal(s: string) {
    |Unsigned(s)| > 0 && AllDigits(Unsigned(s))
  }

  function SignedValue(s: string): int
    requires IsDecimal(s)
  {
    var v: int := Value(Unsigned(s));
    if s[0] == '-' then -v else v
  }

  /** How the digit loop of `strconv.ParseUint` ends: with the value of all the
      digits, at a character that is not a digit, or as soon as the accumulated value
      no longer fits 64 bits. */
  datatype Scanned = Number(n: nat) | BadDigit | Overflow

  /** The digit loop from position `i` on, with `acc` accumulated so far. */
  function Scan(s: string, i: nat, acc: nat): Scanned
    requires i <= |s|
    decreases |s| - i
  {
    if i == |s| then Number(acc)
    else if !IsDigit(s[i]) then BadDigit
    else
      var n := 10 * acc + DigitValue(s[i]);
      if n > MaxUint64 then Overflow else Scan(s, i + 1, n)
  }

  /** `strconv.Atoi`: an optional sign, then the digit loop, then the signed 64-bit
      range check. */
  function Atoi(s: string): Result<int> {
    var body := Unsigned(s);
    var neg := |s| > 0 && s[0] == '-';
    if body == [] then Err(NumError(s, ErrSyntax))
    else match Scan(body, 0, 0)
      case BadDigit => Err(NumError(s, ErrSyntax))
      case Overflow => Err(NumError(s, ErrRange))
      case Number(n) =>
        var v: int := n;
        if !neg && n > MaxInt64 then Err(NumError(s, ErrRange))
        else if neg && n > -MinInt64 then Err(NumError(s, ErrRange))
        else Ok(if neg then -v else v)
  }

  /** A longer run of digits is worth at least as much as its prefix. */
  lemma {:induction false} ValueGrows(s: string, j: nat)
    requires AllDigits(s) && j <= |s|
    ensures AllDigits(s[..j]) && Value(s[..j]) <= Value(s)
    decreases |s| - j
  {
    if j < |s| {
      ValueGrows(s, j + 1);
      var p := s[..j + 1];
      assert p[..|p| - 1] == s[..j];
    } else {
      assert s[..j] == s;
    }
  }

  /** The digit loop succeeds exactly on a string of digits whose value fits 64 bits,
      and then yields that value. */
  lemma {:induction false} ScanMeaning(s: string, i: nat)
    requires i <= |s| && AllDigits(s[..i]) && Value(s[..i]) <= MaxUint64
    ensures var r := Scan(s, i, Value(s[..i]));
      && (r.Number? <==> AllDigits(s) && Value(s) <= MaxUint64)
      && (r.Number? ==> r.n == Value(s))
    decreases |s| - i
  {
    if i == |s| {
      assert s[..i] == s;
    } else if !IsDigit(s[i]) {
    } else {
      var p := s[..i + 1];
      assert p[..|p| - 1] == s[..i];
      assert AllDigits(p);
      if 10 * Value(s[..i]) + DigitValue(s[i]) > MaxUint64 {
        if AllDigits(s) {
          ValueGrows(s, i + 1);
        }
      } else {
        ScanMeaning(s, i + 1);
      }
    }
  }

  /** What `Atoi` accepts is exactly a decimal literal within the signed 64-bit range,
      read at its value; anything else is a syntax or a range error. */
  lemma AtoiMeaning(s: string)
    ensures Atoi(s).Ok? <==> IsDecimal(s) && MinInt64 <= SignedValue(s) <= MaxInt64
    ensures Atoi(s).Ok? ==> Atoi(s).value == SignedValue(s)
    ensures Atoi(s).Err? ==> Atoi(s).error == NumError(s, ErrSyntax) || Atoi(s).error == NumError(s, ErrRange)
  {
    var body := Unsigned(s);
    if body != [] {
      assert body[..0] == [];
      ScanMeaning(body, 0);
    }
  }

  /** The decimal digits of a natural number, without leading zeros. */
  function Digits(n: nat): (s: string)
    ensures |s| > 0 && AllDigits(s)
    ensures Value(s) == n
    ensures s[0] == '0' ==> n == 0
  {
    if n < 10 then [DigitChar(n)]
    else
      var s := Digits(n / 10) + [DigitChar(n % 10)];
      assert s[..|s| - 1] == Digits(n / 10);
      s
  }

  /** `strconv.FormatInt(n, 10)` and `fmt.Sprintf("%d", n)`. */
  function Format(n: int): string {
    if n < 0 then "-" + Digits(-n) else Digits(n)
  }

  lemma FormatIsDecimal(n: int)
    ensures IsDecimal(Format(n)) && SignedValue(Format(n)) == n
    ensures 'x' !in Format(n) && '/' !in Format(n)
  {
    var s := Format(n);
    if n < 0 {
      assert Unsigned(s) == Digits(-n);
    } else {
      assert Unsigned(s) == Digits(n);
    }
    assert forall i :: 0 <= i < |s| ==> s[i] == '-' || IsDigit(s[i]);
  }

  /** Reading back what `Format` writes gives the number itself, for every 64-bit int. */
  lemma AtoiFormat(n: int)
    requires MinInt64 <= n <= MaxInt64
    ensures Atoi(Format(n)) == Ok(n)
  {
    FormatIsDecimal(n);
    AtoiMeaning(Format(n));
  }

  /** Two 64-bit ints with the same decimal text are equal. */
  lemma FormatInjective(a: int, b: int)
    requires MinInt64 <= a <= MaxInt64 && MinInt64 <= b <= MaxInt64
    requires Format(a) == Format(b)
    ensures a == b
  {
    AtoiFormat(a);
    AtoiFormat(b);
  }
}
