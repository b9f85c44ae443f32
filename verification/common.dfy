/**
  Small shared vocabulary: optional values, results with an error, the
  Windows line terminator and the fixed-width decimal numbers that the
  .NET custom format strings "yyyy", "MM", "dd", "HH", "mm" and "ss" write.
 */
module Common {

  datatype Option<+T> = None | Some(value: T) {
    function GetOr(default: T): T {
      match this
      case Some(v) => v
      case None => default
    }
  }

  datatype Result<+T, +E> = Success(value: T) | Failure(error: E)

  /** Environment.NewLine on Windows. */
  const NewLine: string := "\r\n"

  function Pow10(k: nat): (p: nat)
    ensures p >= 1
  {
    if k == 0 then 1 else 10 * Pow10(k - 1)
  }

  predicate IsDigit(c: char) {
    '0' <= c <= '9'
  }

  function DigitChar(d: nat): (c: char)
    requires d < 10
    ensures IsDigit(c)
  {
    ('0' as int + d) as char
  }

  function DigitValue(c: char): (d: nat)
    requires IsDigit(c)
    ensures d < 10 && DigitChar(d) == c
  {
    c as int - '0' as int
  }

  /**
    The last `width` decimal digits of `n`, zero-padded on the left: the text a
    custom format of `width` placeholder letters writes for a value below 10^width.
   */
  function Decimal(n: nat, width: nat): (s: string)
    ensures |s| == width
    ensures forall i :: 0 <= i < |s| ==> IsDigit(s[i])
  {
    if width == 0 then "" else Decimal(n / 10, width - 1) + [DigitChar(n % 10)]
  }

  /** Reads a string of decimal digits back; None as soon as one character is not a digit. */
  function ParseDecimal(s: string): (r: Option<nat>)
    ensures r.Some? <==> forall i :: 0 <= i < |s| ==> IsDigit(s[i])
    ensures r.Some? ==> r.value < Pow10(|s|)
  {
    if s == [] then Some(0)
    else
      match ParseDecimal(s[..|s| - 1])
      case None => None
      case Some(v) =>
        if IsDigit(s[|s| - 1]) then Some(10 * v + DigitValue(s[|s| - 1])) else None
  }

  /** Formatting a number that fits the width and reading it back gives the number. */
  lemma {:induction false} DecimalRoundTrip(n: nat, width: nat)
    requires n < Pow10(width)
    ensures ParseDecimal(Decimal(n, width)) == Some(n)
  {
    if width > 0 {
      assert n / 10 < Pow10(width - 1);
      DecimalRoundTrip(n / 10, width - 1);
      var s := Decimal(n, width);
      assert s[..|s| - 1] == Decimal(n / 10, width - 1);
      assert s[|s| - 1] == DigitChar(n % 10);
    }
  }

  /** Reading a digit string and formatting the value at the same width gives the string back. */
  lemma {:induction false} ParseDecimalRoundTrip(s: string)
    requires ParseDecimal(s).Some?
    ensures Decimal(ParseDecimal(s).value, |s|) == s
  {
    if s != [] {
      var init := s[..|s| - 1];
      ParseDecimalRoundTrip(init);
      var v := ParseDecimal(init).value;
      var n := ParseDecimal(s).value;
      assert n == 10 * v + DigitValue(s[|s| - 1]);
      assert n / 10 == v && n % 10 == DigitValue(s[|s| - 1]);
      assert s == init + [s[|s| - 1]];
    }
  }
}
