/** Size-token resolution (`parseWidthAndHeight`): a token names an entry of the
    configured `sizes` table whose value reads "<width>x<height>". */
module Sizes {
  import opened Wrappers
  import opened Strconv
  import opened GoStrings

  const InvalidSize := "Invalid size requested"

  /** The three results of `parseWidthAndHeight`: width, height and error. */
  datatype Dimensions = Dimensions(width: int, height: int, err: Option<string>)

  /** Reference reading of a size value: exactly one 'x', with a 64-bit decimal
      integer on each side. */
  predicate IsSize(v: string, width: int, height: int) {
    var i := IndexOf(v, 'x');
    && i >= 0
    && 'x' !in v[i + 1..]
    && IsDecimal(v[..i]) && SignedValue(v[..i]) == width && MinInt64 <= width <= MaxInt64
    && IsDecimal(v[i + 1..]) && SignedValue(v[i + 1..]) == height && MinInt64 <= height <= MaxInt64
  }

  /** `parseWidthAndHeight`, with the `sizes` table that the configuration holds. */
  function ParseWidthAndHeight(sizes: map<string, string>, token: string): (r: Dimensions)
    ensures r.err.Some? ==> r.width == 0 && r.height == 0
    ensures token !in sizes ==> r == Dimensions(0, 0, Some(InvalidSize))
    ensures token in sizes && Count(sizes[token], 'x') != 1 ==> r == Dimensions(0, 0, Some(InvalidSize))
    ensures r.err.None? ==> token in sizes && IsSize(sizes[token], r.width, r.height)
  {
    if token in sizes then
      var parts := Split(sizes[token], 'x');
      SplitLength(sizes[token], 'x');
      if |parts| != 2 then Dimensions(0, 0, Some(InvalidSize))
      else
        AtoiMeaning(parts[0]);
        AtoiMeaning(parts[1]);
        match Atoi(parts[0])
        case Err(e) => Dimensions(0, 0, Some(e))
        case Ok(width) =>
          match Atoi(parts[1])
          case Err(e) => Dimensions(0, 0, Some(e))
          case Ok(height) => Dimensions(width, height, None)
    else
      Dimensions(0, 0, Some(InvalidSize))
  }

  /** For a value with one 'x', resolution succeeds exactly when both sides parse, and
      the width's error is the one reported when both fail. */
  lemma ParseSides(sizes: map<string, string>, token: string, a: string, b: string)
    requires token in sizes && sizes[token] == a + "x" + b
    requires 'x' !in a && 'x' !in b
    ensures var r := ParseWidthAndHeight(sizes, token);
      && (r.err.None? <==> Atoi(a).Ok? && Atoi(b).Ok?)
      && (r.err.None? ==> r.width == Atoi(a).value && r.height == Atoi(b).value)
      && (Atoi(a).Err? ==> r.err == Some(Atoi(a).error))
      && (Atoi(a).Ok? && Atoi(b).Err? ==> r.err == Some(Atoi(b).error))
  {
    SplitPair(a, b, 'x');
  }

  /** Every well-formed value resolves to exactly its two numbers. */
  lemma ParseComplete(sizes: map<string, string>, token: string, width: int, height: int)
    requires token in sizes && IsSize(sizes[token], width, height)
    ensures ParseWidthAndHeight(sizes, token) == Dimensions(width, height, None)
  {
    var v := sizes[token];
    var i := IndexOf(v, 'x');
    assert v == v[..i] + "x" + v[i + 1..];
    AtoiMeaning(v[..i]);
    AtoiMeaning(v[i + 1..]);
    ParseSides(sizes, token, v[..i], v[i + 1..]);
  }

  /** A table entry written as `Format(width) + "x" + Format(height)` resolves to
      exactly that width and height. */
  lemma ParseFormatted(sizes: map<string, string>, token: string, width: int, height: int)
    requires MinInt64 <= width <= MaxInt64 && MinInt64 <= height <= MaxInt64
    requires token in sizes && sizes[token] == Format(width) + "x" + Format(height)
    ensures ParseWidthAndHeight(sizes, token) == Dimensions(width, height, None)
  {
    FormatIsDecimal(width);
    FormatIsDecimal(height);
    AtoiFormat(width);
    AtoiFormat(height);
    ParseSides(sizes, token, Format(width), Format(height));
  }

  /** The example table entry "thumb" -> "100x100". */
  lemma ThumbIs100By100()
    ensures ParseWidthAndHeight(map["thumb" := "100x100"], "thumb") == Dimensions(100, 100, None)
  {
    var hundred := Format(100);
    assert hundred == "100" by {
      assert Digits(100) == Digits(10) + [DigitChar(0)];
      assert Digits(10) == Digits(1) + [DigitChar(0)];
    }
    ParseFormatted(map["thumb" := "100x100"], "thumb", 100, 100);
  }
}
