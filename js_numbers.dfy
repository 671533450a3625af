/** Conversions between integers and strings as the browser performs them on
  * the values this client writes to and reads back from local storage:
  * `String(n)` for an integral Number and the global `parseInt(s)` called
  * without a radix. Numbers are unbounded integers here. */
module JsNumbers {

  /** What `parseInt` returns: NaN when no digit follows the sign and prefix. */
  datatype ParsedInt = NaN | Finite(value: int)

  /** The character of a decimal digit. */
  function DigitChar(d: nat): (c: char)
    requires d < 10
    ensures '0' <= c <= '9'
    ensures DigitValue(c) == d
  {
    ('0' as int + d) as char
  }

  /** The decimal digits of `n`, most significant first, with no leading zero. */
  function NaturalDigits(n: nat): (s: string)
    ensures 1 <= |s| && '0' <= s[0] <= '9'
    ensures s[0] == '0' ==> n == 0 && |s| == 1
  {
    if n < 10 then [DigitChar(n)] else NaturalDigits(n / 10) + [DigitChar(n % 10)]
  }

  /** `String(n)` for an integral Number: an optional minus sign, then the digits. */
  function IntToString(n: int): (s: string)
    ensures 1 <= |s|
    ensures s[0] == '-' <==> n < 0
    ensures n != 0 ==> s[0] != '0'
  {
    if n < 0 then ['-'] + NaturalDigits(-n) else NaturalDigits(n)
  }

  /** The white space and line terminators that `parseInt` skips before the number. */
  predicate IsJsSpace(c: char)
  {
    || c == '\t' || c == '\n' || c == '\U{000B}' || c == '\U{000C}' || c == '\r' || c == ' '
    || c == '\U{00A0}' || c == '\U{1680}' || ('\U{2000}' <= c <= '\U{200A}')
    || c == '\U{2028}' || c == '\U{2029}' || c == '\U{202F}' || c == '\U{205F}'
    || c == '\U{3000}' || c == '\U{FEFF}'
  }

  /** The value of `c` as a digit in any base up to 36, or 36 when `c` is no digit. */
  function DigitValue(c: char): (d: nat)
    ensures d <= 36
    ensures d < 10 <==> '0' <= c <= '9'
  {
    if '0' <= c <= '9' then c as int - '0' as int
    else if 'a' <= c <= 'z' then c as int - 'a' as int + 10
    else if 'A' <= c <= 'Z' then c as int - 'A' as int + 10
    else 36
  }


  /** The length of the longest prefix of `s` made of digits of the given radix. */
  function DigitRun(s: string, radix: nat): (k: nat)
    ensures k <= |s|
    ensures k < |s| ==> radix <= DigitValue(s[k])
  {
    if s == [] || radix <= DigitValue(s[0]) then 0 else 1 + DigitRun(s[1..], radix)
  }

  /** The number the digit string `s` denotes in the given radix. */
  function DigitsValue(s: string, radix: nat): nat
  {
    if s == [] then 0 else DigitsValue(s[..|s| - 1], radix) * radix + DigitValue(s[|s| - 1])
  }

  /** The digits at the head of `s` in the given radix, read up to the first
    * character that is not one; NaN when `s` does not start with one. */
  function ParseDigits(s: string, radix: nat): (r: ParsedInt)
    ensures r.Finite? ==> 0 <= r.value
    ensures r.NaN? <==> s == [] || radix <= DigitValue(s[0])
  {
    var k := DigitRun(s, radix);
    if k == 0 then NaN else Finite(DigitsValue(s[..k], radix))
  }

  /** The unsigned part of `parseInt`: base 16 after a `0x` or `0X` prefix,
    * else base 10. */
  function ParseUnsigned(u: string): (r: ParsedInt)
    ensures r.Finite? ==> 0 <= r.value
    ensures u == [] ==> r == NaN
  {
    if 2 <= |u| && u[0] == '0' && (u[1] == 'x' || u[1] == 'X') then ParseDigits(u[2..], 16)
    else ParseDigits(u, 10)
  }

  /** `parseInt(s)` with no radix: skip white space, read one sign, then the
    * unsigned part. */
  function ParseInt(s: string): (r: ParsedInt)
    ensures s == [] ==> r == NaN
    ensures s != [] && '1' <= s[0] <= '9' ==> r.Finite? && 0 <= r.value
    ensures s != [] && !IsJsSpace(s[0]) && s[0] != '-' && s[0] != '+' && 10 <= DigitValue(s[0]) ==> r == NaN
  {
    if s == [] then NaN
    else if IsJsSpace(s[0]) then ParseInt(s[1..])
    else if s[0] == '-' then Negated(ParseUnsigned(s[1..]))
    else if s[0] == '+' then ParseUnsigned(s[1..])
    else ParseUnsigned(s)
  }

  /** The sign applied to a parsed magnitude; NaN stays NaN. */
  function Negated(r: ParsedInt): ParsedInt
  {
    match r
    case NaN => NaN
    case Finite(v) => Finite(0 - v)
  }

  /** Every character `String` writes for a natural number is a decimal digit. */
  lemma {:induction false} NaturalDigitsAreDigits(n: nat)
    ensures forall i :: 0 <= i < |NaturalDigits(n)| ==> '0' <= NaturalDigits(n)[i] <= '9'
  {
    if n >= 10 {
      NaturalDigitsAreDigits(n / 10);
    }
  }

  /** Reading back the decimal digits of `n` gives `n`. */
  lemma {:induction false} DigitsValueOfNaturalDigits(n: nat)
    ensures DigitsValue(NaturalDigits(n), 10) == n
  {
    var s := NaturalDigits(n);
    if n >= 10 {
      DigitsValueOfNaturalDigits(n / 10);
      assert s[..|s| - 1] == NaturalDigits(n / 10);
    }
  }

  /** A string made only of digits is read to its end. */
  lemma {:induction false} DigitRunOfDigits(d: string, radix: nat)
    requires forall i :: 0 <= i < |d| ==> DigitValue(d[i]) < radix
    ensures DigitRun(d, radix) == |d|
  {
    if d != [] {
      DigitRunOfDigits(d[1..], radix);
    }
  }

  /** The decimal digits of `m` are read as `m`. */
  lemma ParseUnsignedOfNaturalDigits(m: nat)
    ensures ParseUnsigned(NaturalDigits(m)) == Finite(m)
  {
    var d := NaturalDigits(m);
    NaturalDigitsAreDigits(m);
    DigitRunOfDigits(d, 10);
    assert d[..|d|] == d;
    DigitsValueOfNaturalDigits(m);
  }

  /** White space before the number does not change what `parseInt` reads. */
  lemma LeadingSpaceSkipped(c: char, s: string)
    requires IsJsSpace(c)
    ensures ParseInt([c] + s) == ParseInt(s)
  {
    assert ([c] + s)[1..] == s;
  }

  /** `parseInt` reads back what `String` wrote. */
  lemma ParseIntRoundTrip(n: int)
    ensures ParseInt(IntToString(n)) == Finite(n)
  {
    var s := IntToString(n);
    if n < 0 {
      ParseUnsignedOfNaturalDigits(-n);
      assert s[1..] == NaturalDigits(-n);
    } else {
      ParseUnsignedOfNaturalDigits(n);
    }
  }
}
