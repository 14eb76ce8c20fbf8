/**
 Conversion specifications as section 7.21.6.1 of ISO/IEC 9899:2011 has them written, and the proof that the
 parser reads back exactly what was written.
 */
module Directives {
  import opened Numerals
  import opened FormatString
  import opened ReadBack

  /** A field width or a precision: left out, written in decimal digits, or taken from the arguments. */
  datatype Size = Omitted | Fixed(digits: string) | Star

  datatype Written = Written(flags: string, width: Size, precision: Size, modifier: string, conversion: char)

  ghost predicate AllDigits(digits: string) {
    forall c :: c in digits ==> '0' <= c <= '9'
  }

  /**
   Flags in any order and number; a width in digits, the first of which is no zero, as a zero there would be a
   flag; a precision in any digits, leading zeros included, or in none at all.
   */
  ghost predicate WellFormed(w: Written) {
    && (forall c :: c in w.flags ==> c == '-' || c == '+' || c == ' ' || c == '#' || c == '0')
    && (w.width.Fixed? ==> AllDigits(w.width.digits) && w.width.digits != "" && w.width.digits[0] != '0')
    && (w.precision.Fixed? ==> AllDigits(w.precision.digits))
    && w.modifier in ["", "l", "ll", "h", "hh"]
    && w.conversion in "scdiuoxXfF"
  }

  function WidthText(w: Size): string {
    match w case Omitted => "" case Fixed(digits) => digits case Star => "*"
  }

  function PrecisionText(p: Size): string {
    match p case Omitted => "" case Fixed(digits) => "." + digits case Star => ".*"
  }

  function Render(w: Written): string {
    w.flags + WidthText(w.width) + PrecisionText(w.precision) + w.modifier + [w.conversion]
  }

  function SizeValue(z: Size, omitted: int, args: Arguments, n: nat): int {
    match z case Omitted => omitted case Fixed(digits) => DecimalValue(digits) case Star => Signed(args(n).number, 0x8000_0000)
  }

  function Used(z: Size): nat {
    if z.Star? then 1 else 0
  }

  function ModifierValue(m: string): int {
    if m == "l" then 1 else if m == "ll" then 2 else if m == "h" then -1 else if m == "hh" then -2 else 0
  }

  /** What the standard makes of it: a negative width argument is a - flag followed by a width. */
  function Meaning(w: Written, args: Arguments, n: nat): Directive {
    var width := SizeValue(w.width, 0, args, n);
    var left := '-' in w.flags || width < 0;
    Directive(Positive(w.flags), left, '0' in w.flags && !left, '#' in w.flags, if width < 0 then -width else width,
              SizeValue(w.precision, -1, args, n + Used(w.width)), ModifierValue(w.modifier), w.conversion)
  }

  lemma {:induction false} FlagEndIs(s: CString, i: nat, j: nat)
    requires i <= j <= |s| && (forall k :: i <= k < j ==> IsFlag(s[k])) && !IsFlag(At(s, j))
    ensures FlagEnd(s, i) == j
    decreases j - i
  {
    if i < j {
      FlagEndIs(s, i + 1, j);
    }
  }

  lemma {:induction false} DigitEndIs(s: CString, i: nat, j: nat)
    requires i <= j <= |s| && (forall k :: i <= k < j ==> IsDigit(s[k])) && !IsDigit(At(s, j))
    ensures DigitEnd(s, i) == j
    decreases j - i
  {
    if i < j {
      DigitEndIs(s, i + 1, j);
    }
  }

  /** A number, or none at all, that ends where no digit follows. */
  lemma NumberRead(s: CString, args: Arguments, i: nat, j: nat, n: nat)
    requires i <= j <= |s| && AllDigits(s[i..j]) && !IsDigit(At(s, j)) && (i == j ==> At(s, i) != '*')
    ensures IntegerAt(s, args, i, n) == IntegerRead(DecimalValue(s[i..j]), j, n)
  {
    hide Signed;
    forall k | i <= k < j
      ensures IsDigit(s[k])
    {
      assert s[k] == s[i..j][k - i] && s[k] in s[i..j];
    }
    DigitEndIs(s, i, j);
  }

  lemma WidthRead(s: CString, args: Arguments, i: nat, j: nat, n: nat, z: Size)
    requires i <= j <= |s| && s[i..j] == WidthText(z) && (z.Fixed? ==> AllDigits(z.digits)) && !IsDigit(At(s, j)) && At(s, j) != '*'
    ensures IntegerAt(s, args, i, n) == IntegerRead(SizeValue(z, 0, args, n), j, n + Used(z))
  {
    hide Signed;
    match z {
      case Star => assert s[i] == s[i..j][0];
      case Omitted => NumberRead(s, args, i, j, n);
      case Fixed(_) => NumberRead(s, args, i, j, n);
    }
  }

  lemma PrecisionRead(s: CString, args: Arguments, i: nat, j: nat, n: nat, z: Size)
    requires i <= j <= |s| && s[i..j] == PrecisionText(z) && (z.Fixed? ==> AllDigits(z.digits))
    requires !IsDigit(At(s, j)) && At(s, j) != '*' && At(s, j) != '.'
    ensures PrecisionAt(s, args, i, n) == IntegerRead(SizeValue(z, -1, args, n), j, n + Used(z))
  {
    hide Signed;
    match z {
      case Star =>
        assert s[i] == s[i..j][0] && s[i + 1] == s[i..j][1];
      case Omitted =>
      case Fixed(_) =>
        assert s[i] == s[i..j][0] && s[i + 1..j] == s[i..j][1..];
        NumberRead(s, args, i + 1, j, n);
    }
  }

  lemma LengthRead(s: CString, i: nat, j: nat, m: string)
    requires i <= j < |s| && s[i..j] == m && m in ["", "l", "ll", "h", "hh"] && s[j] in "scdiuoxXfF"
    ensures ModifierAt(s, i) == ModifierRead(ModifierValue(m), j)
  {
    if |m| > 0 { assert s[i] == s[i..j][0]; }
    if |m| > 1 { assert s[i + 1] == s[i..j][1]; }
  }

  /** The positions at which the parts of a directive end. */
  ghost predicate Laid(s: CString, w: Written, a: nat, b: nat, c: nat, d: nat, e: nat) {
    && a <= b <= c <= d <= e < |s|
    && s[a..b] == w.flags && s[b..c] == WidthText(w.width) && s[c..d] == PrecisionText(w.precision)
    && s[d..e] == w.modifier && s[e] == w.conversion
  }

  /** A character that continues none of the earlier parts. */
  predicate Neutral(c: char) {
    !IsFlag(c) && !IsDigit(c) && c != '*'
  }

  // What comes after a part never continues it.

  lemma AfterPrecision(s: CString, w: Written, a: nat, b: nat, c: nat, d: nat, e: nat)
    requires WellFormed(w) && Laid(s, w, a, b, c, d, e)
    ensures Neutral(At(s, d)) && At(s, d) != '.'
  {
    if d < e { assert s[d] == s[d..e][0]; }
  }

  lemma AfterWidth(s: CString, w: Written, a: nat, b: nat, c: nat, d: nat, e: nat)
    requires WellFormed(w) && Laid(s, w, a, b, c, d, e)
    ensures Neutral(At(s, c))
  {
    hide Neutral;
    AfterPrecision(s, w, a, b, c, d, e);
    if c < d {
      assert s[c] == s[c..d][0] == '.';
      assert Neutral('.') by { NeutralPeriod(); }
    }
  }

  lemma NeutralPeriod()
    ensures Neutral('.')
  {
  }

  lemma AfterFlags(s: CString, w: Written, a: nat, b: nat, c: nat, d: nat, e: nat)
    requires WellFormed(w) && Laid(s, w, a, b, c, d, e)
    ensures !IsFlag(At(s, b))
  {
    hide IsFlag;
    AfterWidth(s, w, a, b, c, d, e);
    if b < c {
      assert s[b] == s[b..c][0] == WidthText(w.width)[0];
      assert w.width.Fixed? ==> s[b] in w.width.digits;
      NotFlag(s[b]);
    }
  }

  lemma NotFlag(c: char)
    ensures IsDigit(c) && c != '0' ==> !IsFlag(c)
    ensures !IsFlag('*')
  {
  }

  lemma LaidRead(s: CString, args: Arguments, n: nat, w: Written, a: nat, b: nat, c: nat, d: nat, e: nat)
    requires WellFormed(w) && Laid(s, w, a, b, c, d, e)
    ensures ParseDirective(s, args, a, n) == Parsed(Meaning(w, args, n), e, n + Used(w.width) + Used(w.precision))
  {
    hide WidthText, PrecisionText, IntegerAt, PrecisionAt, ModifierAt, SizeValue, Positive, ModifierValue;
    AfterPrecision(s, w, a, b, c, d, e);
    AfterWidth(s, w, a, b, c, d, e);
    AfterFlags(s, w, a, b, c, d, e);
    forall k | a <= k < b
      ensures IsFlag(s[k])
    {
      assert s[k] == s[a..b][k - a] && s[k] in w.flags;
    }
    FlagEndIs(s, a, b);
    WidthRead(s, args, b, c, n, w.width);
    PrecisionRead(s, args, c, d, n + Used(w.width), w.precision);
    LengthRead(s, d, e, w.modifier);
  }

  /** Whatever surrounds it, a directive written by the standard's grammar is read as what it means. */
  lemma ReadsWhatIsWritten(before: string, w: Written, after: string, args: Arguments, n: nat)
    requires WellFormed(w) && TERMINATOR !in before + Render(w) + after
    ensures ParseDirective(before + Render(w) + after, args, |before|, n)
            == Parsed(Meaning(w, args, n), |before| + |Render(w)| - 1, n + Used(w.width) + Used(w.precision))
  {
    hide WidthText, PrecisionText, WellFormed, ParseDirective, Meaning;
    var s: CString := before + Render(w) + after;
    var a := |before|;
    var b := a + |w.flags|;
    var c := b + |WidthText(w.width)|;
    var d := c + |PrecisionText(w.precision)|;
    var e := d + |w.modifier|;
    assert s[a..b] == w.flags;
    assert s[b..c] == WidthText(w.width);
    assert s[c..d] == PrecisionText(w.precision);
    assert s[d..e] == w.modifier;
    assert s[e] == w.conversion;
    LaidRead(s, args, n, w, a, b, c, d, e);
  }

  /**
   A whole format, up to and through its first directive: the ordinary characters, then what the directive means for its
   argument, then the rest with the arguments that are left.
   */
  lemma PrintsWhatIsWritten(s: CString, before: string, w: Written, after: string, args: Arguments,
                            floating: (FormatString.Directive, Argument) -> string, n: nat, j: nat, m: nat)
    requires WellFormed(w) && '%' !in before && s == before + "%" + Render(w) + after
    requires j == |before| + |Render(w)| && m == n + Used(w.width) + Used(w.precision)
    ensures j < |s|
    ensures Formatted(s, args, floating, 0, n)
            == before + (Converted(Meaning(w, args, n), args(m), floating) + Formatted(s, args, floating, j + 1, m + 1))
  {
    hide Converted, ParseDirective, Render, WellFormed, Meaning, Formatted;
    NoPercent(w);
    Placed(before, Render(w), after);
    ReadAfterText(s, before, w, after, args, n);
    MeaningConverts(w, args, n);
    PrintsAt(s, before, Render(w)[0], args, floating, n, Meaning(w, args, n), j, m);
  }

  lemma ReadAfterText(s: CString, before: string, w: Written, after: string, args: Arguments, n: nat)
    requires WellFormed(w) && s == before + "%" + Render(w) + after
    ensures |before| + 1 <= |s|
    ensures ParseDirective(s, args, |before| + 1, n)
            == Parsed(Meaning(w, args, n), |before| + |Render(w)|, n + Used(w.width) + Used(w.precision))
  {
    hide ParseDirective, Render, WellFormed, Meaning;
    assert s == (before + "%") + Render(w) + after;
    ReadsWhatIsWritten(before + "%", w, after, args, n);
  }

  lemma PrintsAt(s: CString, before: string, first: char, args: Arguments, floating: (FormatString.Directive, Argument) -> string,
                 n: nat, d: FormatString.Directive, j: nat, m: nat)
    requires |s| > |before| + 1 && s[0..|before|] == before && '%' !in before && first != '%'
    requires s[|before|] == '%' && s[|before| + 1] == first
    requires ParseDirective(s, args, |before| + 1, n) == Parsed(d, j, m) && TakesArgument(d.conversion)
    ensures j < |s|
    ensures Formatted(s, args, floating, 0, n) == before + (Converted(d, args(m), floating) + Formatted(s, args, floating, j + 1, m + 1))
  {
    hide ParseDirective, Converted, Formatted;
    LiteralPrints(s, args, floating, 0, |before|, n);
    DirectivePrints(s, args, floating, |before|, n, d, j, m);
  }

  lemma Placed(before: string, r: string, after: string)
    requires r != ""
    ensures var s := before + "%" + r + after;
            && s == (before + "%") + r + after && s[0..|before|] == before && |s| > |before| + 1
            && s[|before|] == '%' && s[|before| + 1] == r[0]
  {
  }

  lemma MeaningConverts(w: Written, args: Arguments, n: nat)
    requires WellFormed(w)
    ensures TakesArgument(w.conversion) && Meaning(w, args, n).conversion == w.conversion
  {
  }

  lemma NoPercent(w: Written)
    requires WellFormed(w)
    ensures Render(w) != "" && Render(w)[0] != '%'
  {
    if w.flags != "" {
      assert Render(w)[0] == w.flags[0];
      assert w.flags[0] in w.flags;
    } else if WidthText(w.width) != "" {
      assert Render(w)[0] == WidthText(w.width)[0];
      assert w.width.Fixed? ==> w.width.digits[0] in w.width.digits;
    } else if PrecisionText(w.precision) != "" {
      assert Render(w)[0] == PrecisionText(w.precision)[0];
    } else if w.modifier != "" {
      assert Render(w)[0] == w.modifier[0];
    }
  }

  lemma NumeralIsDecimal(n: nat)
    ensures DecimalValue(Numeral(n, 10, 'a')) == n && AllDigits(Numeral(n, 10, 'a'))
  {
    NumeralDenotes(n, 10, 'a');
    NumeralChars(n, 10, 'a');
  }

  /** So a width and a precision are read as the numbers they denote, whatever zeros a precision starts with. */
  lemma ReadsNumbers(before: string, w: Written, after: string, args: Arguments, n: nat, width: nat, zeros: nat, precision: nat)
    requires WellFormed(w) && TERMINATOR !in before + Render(w) + after
    requires width > 0 && w.width == Fixed(Numeral(width, 10, 'a'))
    requires w.precision == Fixed(Repeat('0', zeros) + Numeral(precision, 10, 'a'))
    ensures var p := ParseDirective(before + Render(w) + after, args, |before|, n);
            p.Parsed? && p.directive.width == width && p.directive.precision == precision
  {
    hide Numeral, ParseDirective, Render, WellFormed;
    ReadsWhatIsWritten(before, w, after, args, n);
    NumeralIsDecimal(width);
    NumeralIsDecimal(precision);
    LeadingZeros(zeros, Numeral(precision, 10, 'a'), 10, 'a');
  }
}
