/** The .NET integer semantics the client relies on: fixed-width integers,
    truncating division, `int.ToString()` and `Convert.ToInt32(string)`. */
module Conversions {
  import opened Wrappers

  newtype int32 = x: int | -0x8000_0000 <= x < 0x8000_0000
  newtype int64 = x: int | -0x8000_0000_0000_0000 <= x < 0x8000_0000_0000_0000

  /** C#'s `/` on integers: the quotient truncated toward zero. */
  function TruncDiv(a: int, b: int): (q: int)
    requires b > 0
    ensures 0 <= a ==> 0 <= a - q * b < b
    ensures a < 0 ==> -b < a - q * b <= 0
  {
    if a >= 0 then a / b else -((-a) / b)
  }

  /** C#'s `%` on integers: the remainder takes the sign of the dividend. */
  function TruncRem(a: int, b: int): (r: int)
    requires b > 0
    ensures a == TruncDiv(a, b) * b + r
    ensures -b < r < b
    ensures 0 <= a ==> 0 <= r
    ensures a <= 0 ==> r <= 0
  {
    a - TruncDiv(a, b) * b
  }

  predicate IsDigit(c: char) {
    '0' <= c <= '9'
  }

  predicate AllDigits(s: string) {
    forall i :: 0 <= i < |s| ==> IsDigit(s[i])
  }

  function DigitChar(d: nat): (c: char)
    requires d < 10
    ensures IsDigit(c) && c as int - '0' as int == d
  {
    ('0' as int + d) as char
  }

  /** The number a run of decimal digits denotes, or `None` as soon as a
      character is not a digit. */
  function ReadDigits(s: string): Option<nat>
    decreases |s|
  {
    if |s| == 0 then Some(0)
    else if !IsDigit(s[|s| - 1]) then None
    else match ReadDigits(s[..|s| - 1])
      case None => None
      case Some(high) => Some(10 * high + (s[|s| - 1] as int - '0' as int))
  }

  /** `ReadDigits` accepts exactly the all-digit strings. */
  lemma {:induction false} ReadDigitsAccepts(s: string)
    ensures ReadDigits(s).Some? <==> AllDigits(s)
    decreases |s|
  {
    if |s| > 0 {
      var init := s[..|s| - 1];
      ReadDigitsAccepts(init);
      assert AllDigits(s) ==> AllDigits(init) by {
        if AllDigits(s) {
          forall i | 0 <= i < |init| ensures IsDigit(init[i]) { assert init[i] == s[i]; }
        }
      }
      assert AllDigits(init) && IsDigit(s[|s| - 1]) ==> AllDigits(s) by {
        if AllDigits(init) && IsDigit(s[|s| - 1]) {
          forall i | 0 <= i < |s| ensures IsDigit(s[i]) {
            if i < |init| { assert s[i] == init[i]; }
          }
        }
      }
    }
  }

  /** Shortest decimal digits of a natural number. */
  function NatToDigits(n: nat): (s: string)
    ensures 1 <= |s| && AllDigits(s)
    ensures |s| > 1 ==> s[0] != '0'
    decreases n
  {
    if n < 10 then [DigitChar(n)] else NatToDigits(n / 10) + [DigitChar(n % 10)]
  }

  lemma {:induction false} DigitsRoundTrip(n: nat)
    ensures ReadDigits(NatToDigits(n)) == Some(n)
  {
    if n >= 10 {
      DigitsRoundTrip(n / 10);
      var s := NatToDigits(n);
      assert s[..|s| - 1] == NatToDigits(n / 10);
    }
  }

  /** `int.ToString()` / `long.ToString()` in an invariant culture: a minus
      sign for negatives, then the decimal digits. */
  function IntToString(n: int): (s: string)
    ensures 1 <= |s|
    ensures s[0] == '-' <==> n < 0
    ensures IsDigit(s[|s| - 1])
  {
    if n < 0 then "-" + NatToDigits(-n) else NatToDigits(n)
  }

  /** The characters `Int32.Parse` skips around a number (U+0009..U+000D, U+0020). */
  predicate IsWhite(c: char) {
    c == ' ' || '\t' <= c <= '\r'
  }

  function TrimStart(s: string): (r: string)
    ensures |r| == 0 || !IsWhite(r[0])
    decreases |s|
  {
    if |s| > 0 && IsWhite(s[0]) then TrimStart(s[1..]) else s
  }

  function TrimEnd(s: string): (r: string)
    ensures |r| == 0 || !IsWhite(r[|r| - 1])
    decreases |s|
  {
    if |s| > 0 && IsWhite(s[|s| - 1]) then TrimEnd(s[..|s| - 1]) else s
  }

  function Trim(s: string): string {
    TrimEnd(TrimStart(s))
  }

  datatype ConvertError =
    | FormatError    // System.FormatException: not an optionally signed run of digits
    | OverflowError  // System.OverflowException: outside the Int32 range

  /** `Int32.Parse` with `NumberStyles.Integer`: surrounding white space,
      one optional sign, at least one digit, and a range check. */
  function ParseInt32(s: string): Result<int32, ConvertError>
  {
    var t := Trim(s);
    var signed := |t| > 0 && (t[0] == '-' || t[0] == '+');
    var digits := if signed then t[1..] else t;
    if |digits| == 0 then Failure(FormatError)
    else match ReadDigits(digits)
      case None => Failure(FormatError)
      case Some(magnitude) =>
        var v := if signed && t[0] == '-' then -(magnitude as int) else magnitude as int;
        if -0x8000_0000 <= v < 0x8000_0000 then Success(v as int32) else Failure(OverflowError)
  }

  /** `Convert.ToInt32(string)`: a null string converts to 0. */
  function ConvertToInt32(s: Option<string>): (r: Result<int32, ConvertError>)
    ensures s.None? ==> r == Success(0)
    ensures s.Some? ==> r == ParseInt32(s.value)
  {
    match s
    case None => Success(0)
    case Some(str) => ParseInt32(str)
  }

  /** `10^n`. */
  function Pow10(n: nat): (p: nat)
    ensures p >= 1
  {
    if n == 0 then 1 else 10 * Pow10(n - 1)
  }

  /** The number a run of digits denotes, read most significant digit
      first: each digit weighted by the power of ten of its position. */
  function DigitsValue(s: string): int
    decreases |s|
  {
    if |s| == 0 then 0 else (s[0] as int - '0' as int) * Pow10(|s| - 1) + DigitsValue(s[1..])
  }

  /** Appending a digit shifts the value one decimal place. */
  lemma {:induction false} DigitsValueSnoc(init: string, c: char)
    ensures DigitsValue(init + [c]) == 10 * DigitsValue(init) + (c as int - '0' as int)
    decreases |init|
  {
    if |init| > 0 {
      var d := init[0] as int - '0' as int;
      assert (init + [c])[1..] == init[1..] + [c];
      DigitsValueSnoc(init[1..], c);
      assert d * Pow10(|init|) == 10 * (d * Pow10(|init| - 1));
    } else {
      assert init + [c] == [c];
    }
  }

  /** Reading digits from the back agrees with the positional value. */
  lemma {:induction false} ReadDigitsValue(s: string)
    ensures AllDigits(s) ==> ReadDigits(s) == Some(DigitsValue(s))
    decreases |s|
  {
    if |s| > 0 && AllDigits(s) {
      var init := s[..|s| - 1];
      assert AllDigits(init) by {
        forall i | 0 <= i < |init| ensures IsDigit(init[i]) { assert init[i] == s[i]; }
      }
      ReadDigitsValue(init);
      assert s == init + [s[|s| - 1]];
      DigitsValueSnoc(init, s[|s| - 1]);
    }
  }

  /** The text after one optional leading sign. */
  function Unsigned(t: string): string {
    if |t| > 0 && (t[0] == '-' || t[0] == '+') then t[1..] else t
  }

  /** `NumberStyles.Integer` after trimming: an optional sign, then at least
      one decimal digit and nothing else. */
  predicate IsIntegerText(t: string) {
    |Unsigned(t)| > 0 && AllDigits(Unsigned(t))
  }

  /** The value such a text denotes. */
  function TextValue(t: string): int {
    if |t| > 0 && t[0] == '-' then -DigitsValue(Unsigned(t)) else DigitsValue(Unsigned(t))
  }

  predicate InInt32Range(v: int) {
    -0x8000_0000 <= v < 0x8000_0000
  }

  /** What `Convert.ToInt32` accepts and what it yields: null is 0; other
      text must be white space around an optionally signed digit run whose
      value fits an Int32 (else a format error, or an overflow error for a
      well-formed run out of range). */
  lemma ConvertToInt32Accepts(s: Option<string>)
    ensures s.None? ==> ConvertToInt32(s) == Success(0)
    ensures s.Some? ==>
      var t := Trim(s.value);
      && (ConvertToInt32(s).Success? <==> IsIntegerText(t) && InInt32Range(TextValue(t)))
      && (ConvertToInt32(s).Success? ==> ConvertToInt32(s).value as int == TextValue(t))
      && (!IsIntegerText(t) ==> ConvertToInt32(s) == Failure(FormatError))
      && (IsIntegerText(t) && !InInt32Range(TextValue(t)) ==> ConvertToInt32(s) == Failure(OverflowError))
  {
    if s.Some? {
      var t := Trim(s.value);
      ReadDigitsAccepts(Unsigned(t));
      ReadDigitsValue(Unsigned(t));
    }
  }

  predicate AllWhite(s: string) {
    forall i :: 0 <= i < |s| ==> IsWhite(s[i])
  }

  lemma {:induction false} TrimStartWhite(lead: string, x: string)
    requires AllWhite(lead)
    requires x == [] || !IsWhite(x[0])
    ensures TrimStart(lead + x) == x
    decreases |lead|
  {
    if |lead| == 0 {
      assert lead + x == x;
    } else {
      assert (lead + x)[0] == lead[0];
      assert (lead + x)[1..] == lead[1..] + x;
      TrimStartWhite(lead[1..], x);
    }
  }

  lemma {:induction false} TrimEndWhite(x: string, trail: string)
    requires AllWhite(trail)
    requires x == [] || !IsWhite(x[|x| - 1])
    ensures TrimEnd(x + trail) == x
    decreases |trail|
  {
    if |trail| == 0 {
      assert x + trail == x;
    } else {
      var all := x + trail;
      assert all[|all| - 1] == trail[|trail| - 1];
      assert all[..|all| - 1] == x + trail[..|trail| - 1];
      TrimEndWhite(x, trail[..|trail| - 1]);
    }
  }

  /** A printed Int32 with any white space around it converts back to the
      same number. */
  lemma ConvertPaddedIntToString(n: int32, lead: string, trail: string)
    requires AllWhite(lead) && AllWhite(trail)
    ensures ConvertToInt32(Some(lead + IntToString(n as int) + trail)) == Success(n)
  {
    var s := IntToString(n as int);
    assert !IsWhite(s[0]) by {
      assert s[0] == '-' || IsDigit(s[0]);
    }
    assert lead + s + trail == lead + (s + trail);
    TrimStartWhite(lead, s + trail);
    TrimEndWhite(s, trail);
    assert Trim(lead + s + trail) == s;
    ParseIntToString(n);
    assert Trim(s) == s;
  }

  /** Printing an Int32 and parsing it back yields the same number. */
  lemma {:induction false} ParseIntToString(n: int32)
    ensures ParseInt32(IntToString(n as int)) == Success(n)
  {
    var s := IntToString(n as int);
    assert TrimStart(s) == s by {
      assert s[0] == '-' || IsDigit(s[0]);
    }
    assert Trim(s) == s;
    DigitsRoundTrip(if n < 0 then -(n as int) else n as int);
    if n < 0 {
      assert s[1..] == NatToDigits(-(n as int));
    }
  }
}
