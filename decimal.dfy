/** Decimal text for 32-bit integers, as the menu-tag wire format uses it:
    rendering is Kotlin string templating of an `Int` ("$subType"), parsing is
    Kotlin's `String.toInt()`, which on the JVM is `Integer.parseInt(s, 10)`. */
module Decimal {
  import opened Kotlin

  const MinInt: int := -0x8000_0000
  const MaxInt: int := 0x7fff_ffff

  /** The values of a Kotlin `Int`. */
  type Int32 = x: int | MinInt <= x <= MaxInt

  predicate IsDigit(c: char) {
    '0' <= c <= '9'
  }

  predicate AllDigits(s: string) {
    forall i :: 0 <= i < |s| ==> IsDigit(s[i])
  }

  function DigitValue(c: char): (d: nat)
    requires IsDigit(c)
    ensures d < 10
  {
    c as int - '0' as int
  }

  function DigitChar(d: nat): (c: char)
    requires d < 10
    ensures IsDigit(c) && DigitValue(c) == d
  {
    ('0' as int + d) as char
  }

  /** The number a string of decimal digits denotes (most significant first). */
  function DigitsValue(s: string): nat
    requires AllDigits(s)
  {
    if s == [] then 0 else DigitsValue(s[..|s| - 1]) * 10 + DigitValue(s[|s| - 1])
  }

  /** The shortest decimal digit string of `n`: no leading zero, "0" for zero. */
  function NatToString(n: nat): (s: string)
    ensures |s| > 0 && AllDigits(s)
    ensures |s| > 1 ==> s[0] != '0'
  {
    if n < 10 then [DigitChar(n)] else NatToString(n / 10) + [DigitChar(n % 10)]
  }

  /** `Int.toString()`: a minus sign before the digits of a negative number. */
  function IntToString(n: int): (s: string)
    ensures |s| > 0
    ensures n < 0 <==> s[0] == '-'
    ensures forall i :: 0 < i < |s| ==> IsDigit(s[i])
  {
    if n < 0 then "-" + NatToString(-n) else NatToString(n)
  }

  /** `Integer.parseInt(s, 10)`: an optional leading '-' or '+', then at least one
      digit, and a value within the range of `Int`; anything else raises
      NumberFormatException, modelled as None. The JVM reads the digits with
      `Character.digit`; the model accepts only the ASCII digits. */
  function ParseInt(s: string): (r: Option<Int32>)
    ensures r.Some? ==> |s| > 0 && forall i :: 0 < i < |s| ==> IsDigit(s[i])
    ensures r.Some? ==> s[0] == '-' || s[0] == '+' || IsDigit(s[0])
  {
    if |s| == 0 then None
    else if s[0] == '-' || s[0] == '+' then
      if |s| == 1 || !AllDigits(s[1..]) then None
      else
        var v: int := if s[0] == '-' then -(DigitsValue(s[1..]) as int) else DigitsValue(s[1..]);
        if MinInt <= v <= MaxInt then Some(v) else None
    else if AllDigits(s) then
      var v := DigitsValue(s);
      if v <= MaxInt then Some(v) else None
    else None
  }

  /** Reading back the digits of `n` gives `n`. */
  lemma {:induction false} NatRoundTrip(n: nat)
    ensures DigitsValue(NatToString(n)) == n
  {
    var s := NatToString(n);
    if n >= 10 {
      NatRoundTrip(n / 10);
      assert s[..|s| - 1] == NatToString(n / 10);
      assert s[|s| - 1] == DigitChar(n % 10);
    }
  }

  /** Parsing the text of a 32-bit integer gives that integer back. */
  lemma ParseRendered(n: Int32)
    ensures ParseInt(IntToString(n)) == Some(n)
  {
    var s := IntToString(n);
    if n < 0 {
      var m: nat := -(n as int);
      assert s[1..] == NatToString(m);
      NatRoundTrip(m);
    } else {
      NatRoundTrip(n);
    }
  }

  /** Distinct integers are rendered as distinct strings. */
  lemma RenderInjective(m: Int32, n: Int32)
    requires IntToString(m) == IntToString(n)
    ensures m == n
  {
    ParseRendered(m);
    ParseRendered(n);
  }

  /** An unsigned digit string within range reads as its value. */
  lemma ParseDigits(ds: string)
    requires |ds| > 0 && AllDigits(ds) && DigitsValue(ds) <= MaxInt
    ensures ParseInt(ds) == Some(DigitsValue(ds))
  {
  }

  /** A sign followed by a digit string reads as the signed value when it is in
      range, and is rejected when it is not; leading zeros are accepted. */
  lemma ParseSigned(sign: char, ds: string)
    requires sign == '-' || sign == '+'
    requires |ds| > 0 && AllDigits(ds)
    ensures var v := if sign == '-' then -(DigitsValue(ds) as int) else DigitsValue(ds) as int;
            ParseInt([sign] + ds) == if MinInt <= v <= MaxInt then Some(v) else None
  {
    var s := [sign] + ds;
    assert s[0] == sign && s[1..] == ds;
    var d := DigitsValue(ds);
    if sign == '-' {
      assert ParseInt(s) == if MinInt <= -(d as int) then Some(-(d as int)) else None;
    } else {
      assert ParseInt(s) == if d <= MaxInt then Some(d as int) else None;
    }
  }

  /** A string that contains a character other than a digit after its first
      position (a second '|', say) is never a number. */
  lemma ParseRejects(s: string, i: int)
    requires 0 < i < |s| && !IsDigit(s[i])
    ensures ParseInt(s) == None
  {
  }

  /** The empty string, a lone sign and a non-digit start are rejected. */
  lemma ParseRejectsExamples()
    ensures ParseInt("") == None && ParseInt("-") == None && ParseInt("+") == None
    ensures ParseInt("notanumber") == None && ParseInt("1|2") == None
  {
    assert !IsDigit("notanumber"[0]);
    assert !IsDigit("1|2"[1]);
  }

  /** Signed and unsigned single digits; the accepted leading '+' does not
      change the value. */
  lemma ParseAcceptsExamples()
    ensures ParseInt("0") == Some(0) && ParseInt("-1") == Some(-1) && ParseInt("+7") == Some(7)
  {
    assert "-1"[1..] == "1" && "1"[..0] == "";
    assert "+7"[1..] == "7" && "7"[..0] == "";
    assert "0"[..0] == "";
  }
}
