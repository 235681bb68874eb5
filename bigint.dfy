/** `BigInt(text)` for the strings the adapter hands it (the raw `insertId`):
    the StringToBigInt conversion of section 7.1.14 of ECMA-262. The text is
    trimmed; an empty remainder is zero; otherwise it must be a signed
    decimal integer or an unsigned `0x`/`0o`/`0b` literal, or the call
    throws a SyntaxError. */
module BigIntText {
  import opened Types
  import opened JsText

  /** The value of `c` as a digit of base up to 36; 36 for any other character. */
  function DigitValue(c: char): (d: nat)
    ensures d <= 36
  {
    if '0' <= c <= '9' then c as int - '0' as int
    else if 'a' <= c <= 'z' then c as int - 'a' as int + 10
    else if 'A' <= c <= 'Z' then c as int - 'A' as int + 10
    else 36
  }

  predicate AllDigits(s: string, base: nat) {
    forall i :: 0 <= i < |s| ==> DigitValue(s[i]) < base
  }

  /** The value of a string of digits of `base`, most significant first. */
  function DigitsValue(s: string, base: nat): nat {
    if s == [] then 0 else DigitsValue(s[..|s| - 1], base) * base + DigitValue(s[|s| - 1])
  }

  /** A non-empty run of digits of `base`, or nothing. */
  function ParseDigits(s: string, base: nat): Option<nat> {
    if s != [] && AllDigits(s, base) then Some(DigitsValue(s, base)) else None
  }

  function Negate(r: Option<nat>): Option<int> {
    match r
    case None => None
    case Some(n) => Some(-(n as int))
  }

  /** `BigInt(s)`: `Some` of the value, or `None` where BigInt throws. */
  function ParseBigInt(s: string): (r: Option<int>)
    // text made only of white space is zero
    ensures AllSpace(s) ==> r == Some(0)
    // text that ends on anything but a digit is refused
    ensures r.Some? && Trim(s) != [] ==> DigitValue(Trim(s)[|Trim(s)| - 1]) < 16
  {
    ParseLiteral(Trim(s))
  }

  /** The literal that remains once the text is trimmed. */
  function ParseLiteral(t: string): (r: Option<int>)
    ensures t == [] ==> r == Some(0)
    // a value is negative only after a minus sign
    ensures r.Some? && r.value < 0 ==> t[0] == '-'
    // an accepted literal ends on a digit of its base, so trailing garbage is refused
    ensures r.Some? && t != [] ==> DigitValue(t[|t| - 1]) < 16
    // plain decimal digits are read as a decimal number
    ensures t != [] && AllDigits(t, 10) ==> r == Some(DigitsValue(t, 10))
  {
    if t == [] then Some(0)
    else if |t| >= 2 && t[0] == '0' && (t[1] == 'x' || t[1] == 'X') then ParseDigits(t[2..], 16)
    else if |t| >= 2 && t[0] == '0' && (t[1] == 'o' || t[1] == 'O') then ParseDigits(t[2..], 8)
    else if |t| >= 2 && t[0] == '0' && (t[1] == 'b' || t[1] == 'B') then ParseDigits(t[2..], 2)
    else if t[0] == '+' then ParseDigits(t[1..], 10)
    else if t[0] == '-' then Negate(ParseDigits(t[1..], 10))
    else ParseDigits(t, 10)
  }

  function DigitChar(d: nat): (c: char)
    requires d < 10
    ensures DigitValue(c) == d
  {
    ('0' as int + d) as char
  }

  /** The canonical decimal text of a natural number, as `toString()` writes it. */
  function DecimalText(n: nat): (s: string)
    ensures s != [] && AllDigits(s, 10)
    ensures n < 10 <==> |s| == 1
  {
    if n < 10 then [DigitChar(n)] else DecimalText(n / 10) + [DigitChar(n % 10)]
  }

  /** The canonical text of an integer: a minus sign before negative values. */
  function IntegerText(i: int): string {
    if i < 0 then "-" + DecimalText(-i) else DecimalText(i)
  }

  lemma {:induction false} DecimalTextValue(n: nat)
    ensures DigitsValue(DecimalText(n), 10) == n
  {
    if n >= 10 {
      var s := DecimalText(n);
      assert s[..|s| - 1] == DecimalText(n / 10);
      DecimalTextValue(n / 10);
    }
  }

  /** Text that starts with a non-space and ends on a digit has nothing to trim. */
  lemma TrimUntouched(s: string)
    requires s != [] && !IsJsSpace(s[0]) && DigitValue(s[|s| - 1]) < 10
    ensures Trim(s) == s
  {
    assert [] + s + [] == s;
    TrimCharacterised([], s, []);
  }

  lemma LiteralNegative(d: string)
    requires d != [] && AllDigits(d, 10)
    ensures ParseLiteral("-" + d) == Some(-(DigitsValue(d, 10) as int))
  {
    assert ("-" + d)[0] == '-' && ("-" + d)[1..] == d;
  }

  /** Reading back the canonical decimal text gives the number. */
  lemma DecimalRoundTrip(n: nat)
    ensures ParseBigInt(DecimalText(n)) == Some(n)
  {
    var s := DecimalText(n);
    assert DigitValue(s[0]) < 10 && DigitValue(s[|s| - 1]) < 10;
    TrimUntouched(s);
    DecimalTextValue(n);
  }

  lemma LiteralOfNegative(i: int)
    requires i < 0
    ensures ParseLiteral("-" + DecimalText(-i)) == Some(i)
  {
    LiteralNegative(DecimalText(-i));
    DecimalTextValue(-i);
  }

  lemma TrimOfNegative(i: int)
    requires i < 0
    ensures Trim("-" + DecimalText(-i)) == "-" + DecimalText(-i)
  {
    var d := DecimalText(-i);
    var s := "-" + d;
    assert s[|s| - 1] == d[|d| - 1] && DigitValue(d[|d| - 1]) < 10;
    TrimUntouched(s);
  }

  /** The canonical text of a negative integer reads back as that integer. */
  lemma NegativeRoundTrip(i: int)
    requires i < 0
    ensures ParseBigInt(IntegerText(i)) == Some(i)
  {
    TrimOfNegative(i);
    LiteralOfNegative(i);
  }

  /** Reading back the canonical text of any integer gives the integer. */
  lemma IntegerRoundTrip(i: int)
    ensures ParseBigInt(IntegerText(i)) == Some(i)
  {
    if i >= 0 {
      DecimalRoundTrip(i);
    } else {
      NegativeRoundTrip(i);
    }
  }

  lemma TwoZeros(s: string)
    requires |s| == 2 && s[0] == '0' && s[1] == '0'
    ensures ParseBigInt(s) == Some(0)
  {
    assert AllDigits(s, 10);
    TrimUntouched(s);
    var first := s[..1];
    assert first[..0] == [] && first[0] == '0';
    assert DigitsValue(first, 10) == 0;
    assert s[..|s| - 1] == first;
    assert DigitsValue(s, 10) == DigitsValue(first, 10) * 10 + DigitValue(s[1]);
  }

  /** Leading zeros are allowed: `BigInt("00")` is zero. */
  lemma DoubleZero()
    ensures ParseBigInt("00") == Some(0)
  {
    TwoZeros("00");
  }

  /** The canonical text is `"0"` exactly for zero. */
  lemma IntegerTextZero(i: int)
    ensures IntegerText(i) == "0" <==> i == 0
  {
    if i < 0 {
      assert IntegerText(i)[0] == '-';
    } else if 0 < i < 10 {
      assert DigitValue(IntegerText(i)[0]) == i;
    }
  }
}
