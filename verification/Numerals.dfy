/**
 Numerals and fields as section 7.21.6.1 of ISO/IEC 9899:2011 describes them, independently of how they are
 produced.
 */
module Numerals {

  type Base = b: int | 2 <= b <= 16 witness 10

  /** firstletter is the digit ten; it is not looked at for smaller bases. */
  function DigitChar(d: nat, letter: char): char
    requires d < 16 && letter < 'z'
  {
    if d >= 10 then (d - 10 + letter as int) as char else (d + '0' as int) as char
  }

  function DigitValue(c: char, letter: char): int {
    if '0' <= c <= '9' then c as int - '0' as int else c as int - letter as int + 10
  }

  /** The numeral of a value, without leading zeros; empty for zero. */
  function Numeral(value: nat, base: Base, letter: char): string
    requires letter == 'a' || letter == 'A'
  {
    if value == 0 then "" else Numeral(value / base, base, letter) + [DigitChar(value % base, letter)]
  }

  /** What a string of digits denotes. */
  function Denotes(s: string, base: Base, letter: char): int {
    if s == "" then 0 else Denotes(s[..|s| - 1], base, letter) * base + DigitValue(s[|s| - 1], letter)
  }

  lemma DigitRoundTrip(d: nat, letter: char)
    requires d < 16 && (letter == 'a' || letter == 'A')
    ensures DigitValue(DigitChar(d, letter), letter) == d
    ensures DigitChar(d, letter) == '0' <==> d == 0
  {
  }

  /** The numeral denotes its value, every digit is one of the base, and the first is not zero. */
  lemma {:induction false} NumeralDenotes(value: nat, base: Base, letter: char)
    requires letter == 'a' || letter == 'A'
    ensures Denotes(Numeral(value, base, letter), base, letter) == value
    ensures forall c :: c in Numeral(value, base, letter) ==> 0 <= DigitValue(c, letter) < base
    ensures value > 0 ==> Numeral(value, base, letter) != "" && Numeral(value, base, letter)[0] != '0'
  {
    hide DigitValue, DigitChar;
    if value > 0 {
      var q, r := value / base, value % base;
      DivMod(value, base);
      NumeralDenotes(q, base, letter);
      DigitRoundTrip(r, letter);
      var rest, numeral := Numeral(q, base, letter), Numeral(value, base, letter);
      assert numeral == rest + [DigitChar(r, letter)];
      assert numeral[..|rest|] == rest;
    }
  }

  lemma DivMod(x: nat, b: Base)
    ensures x / b * b + x % b == x && x / b >= 0 && 0 <= x % b < b
    ensures x / b == 0 ==> x % b == x
    ensures x > 0 ==> x / b < x
  {
  }

  function Power(base: Base, n: nat): (p: nat)
    ensures p > 0
  {
    if n == 0 then 1 else base * Power(base, n - 1)
  }

  /** A numeral has at most n digits exactly when the value is below base^n. */
  lemma {:induction false} NumeralLength(value: nat, base: Base, letter: char, n: nat)
    requires letter == 'a' || letter == 'A'
    ensures |Numeral(value, base, letter)| <= n <==> value < Power(base, n)
    decreases n
  {
    if value > 0 && n > 0 {
      NumeralLength(value / base, base, letter, n - 1);
      QuotientBelow(value, base, Power(base, n - 1));
    } else if n == 0 {
      assert value > 0 ==> |Numeral(value, base, letter)| > 0;
    }
  }

  lemma QuotientBelow(x: nat, b: Base, p: nat)
    ensures x / b < p <==> x < b * p
  {
    var q, r := x / b, x % b;
    assert x == b * q + r;
    if q < p {
      assert b * (q + 1) <= b * p && b * (q + 1) == b * q + b;
    } else {
      assert b * p <= b * q;
    }
  }

  // ---------------------------------------------------------------------------
  // Fields
  // ---------------------------------------------------------------------------

  function Repeat(c: char, n: int): (s: string)
    ensures |s| == if n > 0 then n else 0
    ensures forall i :: 0 <= i < |s| ==> s[i] == c
  {
    if n <= 0 then "" else [c] + Repeat(c, n - 1)
  }

  lemma RepeatUnique(c: char, s: string)
    requires forall i :: 0 <= i < |s| ==> s[i] == c
    ensures s == Repeat(c, |s|)
  {
  }

  /** A converted value in its field: padded on the left with spaces or, behind the prefix, zeros; or on the right. */
  function Field(prefix: string, digits: string, left: bool, zeros: bool, width: int): string {
    var pad := width - |prefix| - |digits|;
    if left then prefix + digits + Repeat(' ', pad)
    else if zeros then prefix + Repeat('0', pad) + digits
    else Repeat(' ', pad) + prefix + digits
  }

  /** At least `precision` digits, one if the precision is omitted, and none for zero with precision zero. */
  function Digits(value: nat, base: Base, letter: char, precision: int): string
    requires letter == 'a' || letter == 'A'
  {
    var numeral := Numeral(value, base, letter);
    Repeat('0', (if precision < 0 then 1 else precision) - |numeral|) + numeral
  }

  datatype Spec = Spec(left: bool, zero: bool, alternate: bool, width: int, precision: int)

  /** The 0 flag is ignored with the - flag or a precision. */
  predicate ZeroPads(s: Spec) {
    s.zero && !s.left && s.precision < 0
  }

  function Decimal(value: nat, prefix: string, s: Spec): string {
    Field(prefix, Digits(value, 10, 'a', s.precision), s.left, ZeroPads(s), s.width)
  }

  /** d and i: a sign, or what the + and space flags ask for. */
  function SignedConversion(value: int, positive: string, s: Spec): string {
    if value < 0 then Decimal(-value, "-", s) else Decimal(value, positive, s)
  }

  /** o: the alternative form makes the first digit a zero if it is not one already. */
  function OctalConversion(value: nat, s: Spec): string {
    var digits := Digits(value, 8, 'a', s.precision);
    var shown := if s.alternate && (digits == "" || digits[0] != '0') then "0" + digits else digits;
    Field("", shown, s.left, ZeroPads(s), s.width)
  }

  /** x and X: the alternative form puts 0x or 0X before a value that is not zero. */
  function HexConversion(value: nat, upper: bool, s: Spec): string {
    var prefix := if s.alternate && value != 0 then (if upper then "0X" else "0x") else "";
    Field(prefix, Digits(value, 16, if upper then 'A' else 'a', s.precision), s.left, ZeroPads(s), s.width)
  }

  /** The converted length is the width or the content, whichever is more. */
  lemma FieldLength(prefix: string, digits: string, left: bool, zeros: bool, width: int)
    ensures |Field(prefix, digits, left, zeros, width)|
            == if width > |prefix| + |digits| then width else |prefix| + |digits|
  {
  }

  /** Where everything is: on the left or on the right, with zeros between prefix and digits only, and spaces elsewhere. */
  lemma FieldLayout(prefix: string, digits: string, left: bool, zeros: bool, width: int)
    ensures var f := Field(prefix, digits, left, zeros, width);
            var n := |prefix| + |digits|;
            && |f| >= n
            && (left ==> f[..|prefix|] == prefix && f[|prefix|..n] == digits && forall i :: n <= i < |f| ==> f[i] == ' ')
            && (!left ==> f[|f| - |digits|..] == digits)
            && (!left && zeros ==> f[..|prefix|] == prefix && forall i :: |prefix| <= i < |f| - |digits| ==> f[i] == '0')
            && (!left && !zeros ==> f[|f| - n..|f| - |digits|] == prefix && forall i :: 0 <= i < |f| - n ==> f[i] == ' ')
  {
  }

  /** The characters a numeral is made of. */
  predicate NumeralChar(c: char, base: Base, letter: char) {
    '0' <= c <= '9' || (base > 10 && letter <= c && c as int < letter as int + base - 10)
  }

  lemma {:induction false} NumeralChars(value: nat, base: Base, letter: char)
    requires letter == 'a' || letter == 'A'
    ensures forall c :: c in Numeral(value, base, letter) ==> NumeralChar(c, base, letter)
  {
    if value > 0 {
      DivMod(value, base);
      NumeralChars(value / base, base, letter);
    }
  }

  /** Leading zeros change nothing. */
  lemma {:induction false} LeadingZeros(zeros: nat, digits: string, base: Base, letter: char)
    ensures Denotes(Repeat('0', zeros) + digits, base, letter) == Denotes(digits, base, letter)
    decreases zeros + |digits|
  {
    var s := Repeat('0', zeros) + digits;
    if digits != "" {
      LeadingZeros(zeros, digits[..|digits| - 1], base, letter);
      assert s[..|s| - 1] == Repeat('0', zeros) + digits[..|digits| - 1];
    } else if zeros > 0 {
      LeadingZeros(zeros - 1, "", base, letter);
      assert s[..|s| - 1] == Repeat('0', zeros - 1) + "";
    }
  }

  /** How many digits are shown: those of the value, at least one, and at least as many as the precision asks for. */
  function DigitCount(value: nat, base: Base, precision: int): nat {
    var n := |Numeral(value, base, 'a')|;
    var least := if precision < 0 then 1 else precision;
    if n < least then least else n
  }

  lemma DigitsDenote(value: nat, base: Base, letter: char, precision: int)
    requires letter == 'a' || letter == 'A'
    ensures var digits := Digits(value, base, letter, precision);
            && Denotes(digits, base, letter) == value && |digits| == DigitCount(value, base, precision)
            && forall c :: c in digits ==> NumeralChar(c, base, letter)
  {
    hide Denotes, Numeral;
    var numeral := Numeral(value, base, letter);
    NumeralDenotes(value, base, letter);
    NumeralChars(value, base, letter);
    SameLength(value, base, letter);
    var zeros := (if precision < 0 then 1 else precision) - |numeral|;
    LeadingZeros(if zeros < 0 then 0 else zeros, numeral, base, letter);
    assert Repeat('0', zeros) == Repeat('0', if zeros < 0 then 0 else zeros);
  }

  lemma {:induction false} SameLength(value: nat, base: Base, letter: char)
    requires letter == 'a' || letter == 'A'
    ensures |Numeral(value, base, letter)| == |Numeral(value, base, 'a')|
  {
    hide DigitChar;
    if value > 0 {
      SameLength(value / base, base, letter);
      assert |Numeral(value, base, letter)| == |Numeral(value / base, base, letter)| + 1;
    }
  }
}
