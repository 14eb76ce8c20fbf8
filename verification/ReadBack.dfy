/**
 Reading back what the integer conversions print.  A reader that knows nothing of how the output was put together,
 only where numbers stand between spaces and what digits denote, gets back the value, for every value, flag, width
 and precision.
 */
module ReadBack {
  import Division
  import opened Numerals
  import opened FormatString

  // ---------------------------------------------------------------------------
  // The reader
  // ---------------------------------------------------------------------------

  function SkipSpaces(s: string): string {
    if s != "" && s[0] == ' ' then SkipSpaces(s[1..]) else s
  }

  function UpToSpace(s: string): string {
    if s == "" || s[0] == ' ' then "" else [s[0]] + UpToSpace(s[1..])
  }

  /** What stands between the spaces. */
  function Core(s: string): string {
    UpToSpace(SkipSpaces(s))
  }

  function ReadSigned(s: string): int {
    var t := Core(s);
    if t != "" && t[0] == '-' then -Denotes(t[1..], 10, 'a')
    else if t != "" && t[0] == '+' then Denotes(t[1..], 10, 'a')
    else Denotes(t, 10, 'a')
  }

  function ReadHex(s: string, letter: char): int {
    var t := Core(s);
    if |t| >= 2 && t[0] == '0' && t[1] in "xX" then Denotes(t[2..], 16, letter) else Denotes(t, 16, letter)
  }

  predicate NoSpace(s: string) {
    ' ' !in s
  }

  lemma {:induction false} SkipsSpaces(a: nat, s: string)
    requires s == "" || s[0] != ' '
    ensures SkipSpaces(Repeat(' ', a) + s) == s
  {
    if a == 0 {
      assert Repeat(' ', 0) + s == s;
    } else {
      SkipsSpaces(a - 1, s);
      assert (Repeat(' ', a) + s)[1..] == Repeat(' ', a - 1) + s;
    }
  }

  lemma {:induction false} AllSpaces(a: nat)
    ensures SkipSpaces(Repeat(' ', a)) == ""
  {
    SkipsSpaces(a, "");
    assert Repeat(' ', a) + "" == Repeat(' ', a);
  }

  lemma {:induction false} StopsAtSpace(core: string, b: nat)
    requires NoSpace(core)
    ensures UpToSpace(core + Repeat(' ', b)) == core
  {
    var s := core + Repeat(' ', b);
    if core == "" {
      assert s == Repeat(' ', b);
    } else {
      StopsAtSpace(core[1..], b);
      assert s[1..] == core[1..] + Repeat(' ', b);
    }
  }

  lemma CoreIs(a: nat, core: string, b: nat)
    requires NoSpace(core)
    ensures Core(Repeat(' ', a) + core + Repeat(' ', b)) == core
  {
    if core == "" {
      assert Repeat(' ', a) + "" + Repeat(' ', b) == Repeat(' ', a + b) by { RepeatJoin(' ', a, b); assert Repeat(' ', a) + "" == Repeat(' ', a); }
      AllSpaces(a + b);
    } else {
      assert Repeat(' ', a) + core + Repeat(' ', b) == Repeat(' ', a) + (core + Repeat(' ', b));
      SkipsSpaces(a, core + Repeat(' ', b));
      StopsAtSpace(core, b);
    }
  }

  // ---------------------------------------------------------------------------
  // Fields
  // ---------------------------------------------------------------------------

  /** A field is its prefix and digits, with some zeros between, and spaces around. */
  lemma FieldParts(prefix: string, digits: string, left: bool, zeros: bool, width: int)
    returns (a: nat, z: nat, b: nat)
    ensures Field(prefix, digits, left, zeros, width) == Repeat(' ', a) + (prefix + Repeat('0', z) + digits) + Repeat(' ', b)
    ensures a + z + b + |prefix| + |digits| == if width > |prefix| + |digits| then width else |prefix| + |digits|
    ensures (left ==> a == 0) && (!left ==> b == 0) && (zeros && !left ==> a == 0) && (left || !zeros ==> z == 0)
  {
    var n := width - |prefix| - |digits|;
    var pad := if n < 0 then 0 else n;
    assert Repeat(' ', n) == Repeat(' ', pad) && Repeat('0', n) == Repeat('0', pad);
    assert Repeat(' ', 0) == "" && Repeat('0', 0) == "";
    hide Repeat;
    a, z, b := if left || zeros then 0 else pad, if zeros && !left then pad else 0, if left then pad else 0;
    assert prefix + "" == prefix;
    assert "" + (prefix + digits) == prefix + digits;
    assert (prefix + Repeat('0', z) + digits) + "" == prefix + Repeat('0', z) + digits;
    assert Repeat(' ', a) + (prefix + digits) == Repeat(' ', a) + prefix + digits;
    assert "" + (prefix + Repeat('0', z) + digits) == prefix + Repeat('0', z) + digits;
  }

  lemma NoSpaceInside(prefix: string, z: nat, digits: string)
    requires NoSpace(prefix) && NoSpace(digits)
    ensures NoSpace(prefix + Repeat('0', z) + digits)
    ensures prefix + Repeat('0', z) + digits == prefix + (Repeat('0', z) + digits)
  {
  }

  /** What a reader finds in a field whose prefix is a sign, a number prefix, or nothing. */
  lemma FieldCore(prefix: string, digits: string, left: bool, zeros: bool, width: int) returns (z: nat)
    requires NoSpace(prefix) && NoSpace(digits)
    ensures Core(Field(prefix, digits, left, zeros, width)) == prefix + (Repeat('0', z) + digits)
  {
    hide Core, Field;
    var a, b;
    a, z, b := FieldParts(prefix, digits, left, zeros, width);
    var core := prefix + Repeat('0', z) + digits;
    NoSpaceInside(prefix, z, digits);
    CoreIs(a, core, b);
  }

  /** A space in front of the number is padding to the reader. */
  lemma SpacedCore(digits: string, left: bool, zeros: bool, width: int) returns (z: nat)
    requires NoSpace(digits)
    ensures Core(Field(" ", digits, left, zeros, width)) == Repeat('0', z) + digits
  {
    var a, b;
    a, z, b := FieldParts(" ", digits, left, zeros, width);
    RepeatJoin(' ', a, 1);
    assert Repeat(' ', 1) == " ";
    CoreIs(a + 1, Repeat('0', z) + digits, b);
    assert Repeat(' ', a) + (" " + Repeat('0', z) + digits) + Repeat(' ', b)
        == Repeat(' ', a) + " " + (Repeat('0', z) + digits) + Repeat(' ', b);
  }

  /** Nothing but the prefix, the digits, zeros and spaces is in a field. */
  lemma FieldChars(prefix: string, digits: string, left: bool, zeros: bool, width: int, c: char)
    requires c != ' ' && c != '0'
    ensures c in Field(prefix, digits, left, zeros, width) <==> c in prefix || c in digits
  {
    var a, z, b := FieldParts(prefix, digits, left, zeros, width);
  }

  /**
   What the flags say about the place of a number in its field: the - flag puts it on the left; the 0 flag, without -
   and without a precision, fills the field with zeros behind the prefix; otherwise it stands on the right.
   */
  lemma FlagsPlace(prefix: string, digits: string, s: Spec)
    ensures var out := Field(prefix, digits, s.left, ZeroPads(s), s.width);
            var n := |prefix| + |digits|;
            && |out| == (if s.width > n then s.width else n)
            && (s.left ==> out[..|prefix|] == prefix && out[|prefix|..n] == digits && forall i :: n <= i < |out| ==> out[i] == ' ')
            && (!s.left && s.zero && s.precision < 0 ==>
                  && out[..|prefix|] == prefix && out[|out| - |digits|..] == digits
                  && forall i :: |prefix| <= i < |out| - |digits| ==> out[i] == '0')
            && (!s.left && !(s.zero && s.precision < 0) ==>
                  && out[|out| - n..|out| - |digits|] == prefix && out[|out| - |digits|..] == digits
                  && forall i :: 0 <= i < |out| - n ==> out[i] == ' ')
  {
    FieldLayout(prefix, digits, s.left, ZeroPads(s), s.width);
    FieldLength(prefix, digits, s.left, ZeroPads(s), s.width);
  }

  // ---------------------------------------------------------------------------
  // Decimal
  // ---------------------------------------------------------------------------

  lemma DecimalDigits(value: nat, precision: int)
    ensures var digits := Digits(value, 10, 'a', precision);
            && Denotes(digits, 10, 'a') == value && |digits| == DigitCount(value, 10, precision)
            && NoSpace(digits) && '+' !in digits && '-' !in digits && (digits != "" ==> digits[0] != '+' && digits[0] != '-')
  {
    hide Digits, Denotes;
    DigitsDenote(value, 10, 'a', precision);
    assert NumeralChar(' ', 10, 'a') || NumeralChar('+', 10, 'a') || NumeralChar('-', 10, 'a') ==> false;
  }

  /** u: the reader gets the value, there is no sign, and the length is that of the digits or the width. */
  lemma DecimalReadsBack(value: nat, s: Spec)
    ensures var out := Decimal(value, "", s);
            var n := DigitCount(value, 10, s.precision);
            && ReadSigned(out) == value && '-' !in out && '+' !in out && |out| == if s.width > n then s.width else n
  {
    hide Digits, Denotes, Field;
    var digits := Digits(value, 10, 'a', s.precision);
    DecimalDigits(value, s.precision);
    FieldLength("", digits, s.left, ZeroPads(s), s.width);
    FieldChars("", digits, s.left, ZeroPads(s), s.width, '-');
    FieldChars("", digits, s.left, ZeroPads(s), s.width, '+');
    var z := FieldCore("", digits, s.left, ZeroPads(s), s.width);
    PlainRead(z, digits);
  }

  lemma PlainRead(z: nat, digits: string)
    requires digits != "" ==> digits[0] != '+' && digits[0] != '-'
    ensures var t := "" + (Repeat('0', z) + digits);
            && t == Repeat('0', z) + digits && (t != "" ==> t[0] != '+' && t[0] != '-')
            && Denotes(t, 10, 'a') == Denotes(digits, 10, 'a')
  {
    hide Denotes;
    LeadingZeros(z, digits, 10, 'a');
    assert "" + (Repeat('0', z) + digits) == Repeat('0', z) + digits;
  }

  /** The sign shown, from the flags themselves. */
  function SignShown(value: int, flags: string): string {
    if value < 0 then "-" else if '+' in flags then "+" else if ' ' in flags then " " else ""
  }

  lemma SignOf(value: int, flags: string, s: Spec)
    ensures SignedConversion(value, Positive(flags), s)
            == Decimal(if value < 0 then -value else value, SignShown(value, flags), s)
  {
  }

  /**
   d and i: the reader gets the value back; a minus sign is there exactly when the value is negative, a plus sign
   exactly when it is not and the flags have one; with the space flag alone the output of such a value starts with a
   space, and without it there are no spaces but those that fill up the width.
   */
  lemma SignedReadsBack(value: int, flags: string, s: Spec)
    ensures var out := SignedConversion(value, Positive(flags), s);
            var n := DigitCount(if value < 0 then -value else value, 10, s.precision)
                     + if value < 0 || '+' in flags || ' ' in flags then 1 else 0;
            && ReadSigned(out) == value
            && ('-' in out <==> value < 0)
            && ('+' in out <==> value >= 0 && '+' in flags)
            && |out| == (if s.width > n then s.width else n)
            && (value >= 0 && ' ' in flags && '+' !in flags ==> out[0] == ' ')
            && (s.width <= n && !(value >= 0 && ' ' in flags && '+' !in flags) ==> ' ' !in out)
  {
    hide Digits, Denotes, Field, Positive, SignedConversion;
    var size := if value < 0 then -value else value;
    var digits := Digits(size, 10, 'a', s.precision);
    var sign := SignShown(value, flags);
    SignOf(value, flags, s);
    DecimalDigits(size, s.precision);
    FieldLength(sign, digits, s.left, ZeroPads(s), s.width);
    FieldChars(sign, digits, s.left, ZeroPads(s), s.width, '-');
    FieldChars(sign, digits, s.left, ZeroPads(s), s.width, '+');
    SignRead(sign, digits, s);
    SpacesShown(sign, digits, s);
  }

  lemma SignRead(sign: string, digits: string, s: Spec)
    requires sign in ["-", "+", " ", ""] && NoSpace(digits) && (digits != "" ==> digits[0] != '+' && digits[0] != '-')
    ensures ReadSigned(Field(sign, digits, s.left, ZeroPads(s), s.width))
            == if sign == "-" then -Denotes(digits, 10, 'a') else Denotes(digits, 10, 'a')
  {
    hide Denotes, Field;
    if sign == " " {
      var z := SpacedCore(digits, s.left, ZeroPads(s), s.width);
      PlainRead(z, digits);
    } else {
      var z := FieldCore(sign, digits, s.left, ZeroPads(s), s.width);
      PlainRead(z, digits);
      if sign != "" {
        assert (sign + (Repeat('0', z) + digits))[1..] == Repeat('0', z) + digits;
      }
    }
  }

  lemma SpacesShown(sign: string, digits: string, s: Spec)
    requires sign in ["-", "+", " ", ""] && NoSpace(digits)
    ensures var out := Field(sign, digits, s.left, ZeroPads(s), s.width);
            && (sign == " " ==> out != "" && out[0] == ' ')
            && (s.width <= |sign| + |digits| && sign != " " ==> ' ' !in out)
  {
    var a, z, b := FieldParts(sign, digits, s.left, ZeroPads(s), s.width);
  }

  // ---------------------------------------------------------------------------
  // Octal and hexadecimal
  // ---------------------------------------------------------------------------

  lemma OctalDigits(value: nat, precision: int)
    ensures var digits := Digits(value, 8, 'a', precision);
            && Denotes(digits, 8, 'a') == value && Denotes("0" + digits, 8, 'a') == value && NoSpace(digits)
  {
    hide Digits, Denotes;
    DigitsDenote(value, 8, 'a', precision);
    LeadingZeros(1, Digits(value, 8, 'a', precision), 8, 'a');
    assert Repeat('0', 1) == "0";
    assert !NumeralChar(' ', 8, 'a');
  }

  /** o: the reader gets the value, and with the alternative form the number starts with a zero. */
  lemma OctalReadsBack(value: nat, s: Spec)
    ensures var out := OctalConversion(value, s);
            && Denotes(Core(out), 8, 'a') == value
            && (s.alternate ==> Core(out) != "" && Core(out)[0] == '0')
  {
    hide Digits, Denotes, Field;
    var digits := Digits(value, 8, 'a', s.precision);
    OctalDigits(value, s.precision);
    var shown := if s.alternate && (digits == "" || digits[0] != '0') then "0" + digits else digits;
    var z := FieldCore("", shown, s.left, ZeroPads(s), s.width);
    LeadingZeros(z, shown, 8, 'a');
    assert "" + (Repeat('0', z) + shown) == Repeat('0', z) + shown;
  }

  lemma HexDigits(value: nat, letter: char, precision: int)
    requires letter == 'a' || letter == 'A'
    ensures var digits := Digits(value, 16, letter, precision);
            && Denotes(digits, 16, letter) == value && NoSpace(digits)
            && forall c :: c in digits ==> '0' <= c <= '9' || (letter <= c && c as int < letter as int + 6)
  {
    hide Digits, Denotes;
    DigitsDenote(value, 16, letter, precision);
    assert !NumeralChar(' ', 16, letter);
  }

  /** x and X: the reader gets the value, the 0x or 0X is there exactly when asked for, and letters have one case. */
  lemma HexReadsBack(value: nat, upper: bool, s: Spec)
    ensures var out := HexConversion(value, upper, s);
            && ReadHex(out, if upper then 'A' else 'a') == value
            && ('x' in out <==> s.alternate && value != 0 && !upper)
            && ('X' in out <==> s.alternate && value != 0 && upper)
            && (forall c :: c in out && 'a' <= c <= 'f' ==> !upper) && (forall c :: c in out && 'A' <= c <= 'F' ==> upper)
  {
    hide Digits, Denotes, Field;
    var letter := if upper then 'A' else 'a';
    var digits := Digits(value, 16, letter, s.precision);
    var prefix := if s.alternate && value != 0 then (if upper then "0X" else "0x") else "";
    HexDigits(value, letter, s.precision);
    forall c | c != ' ' && c != '0'
      ensures c in HexConversion(value, upper, s) <==> c in prefix || c in digits
    {
      FieldChars(prefix, digits, s.left, ZeroPads(s), s.width, c);
    }
    var z := FieldCore(prefix, digits, s.left, ZeroPads(s), s.width);
    LeadingZeros(z, digits, 16, letter);
    HexRead(prefix, z, digits, letter);
  }

  lemma HexRead(prefix: string, z: nat, digits: string, letter: char)
    requires prefix in ["", "0x", "0X"] && 'x' !in digits && 'X' !in digits
    ensures var t := prefix + (Repeat('0', z) + digits);
            && (prefix == "" ==> t == Repeat('0', z) + digits && !(|t| >= 2 && t[0] == '0' && t[1] in "xX"))
            && (prefix != "" ==> |t| >= 2 && t[0] == '0' && t[1] in "xX" && t[2..] == Repeat('0', z) + digits)
  {
    var t := prefix + (Repeat('0', z) + digits);
    if prefix == "" {
      assert t == Repeat('0', z) + digits;
      assert forall c :: c in t ==> c == '0' || c in digits;
    }
  }

  // ---------------------------------------------------------------------------
  // Arguments and strings
  // ---------------------------------------------------------------------------

  /** Read as a type of 2 * half values: in range, and equal to the argument modulo that many. */
  ghost predicate ReadsAt(a: Argument, modifier: int, half: int)
    requires half > 0
  {
    && -half <= SignedArgument(a, modifier) < half && (a.number - SignedArgument(a, modifier)) % (2 * half) == 0
    && UnsignedArgument(a, modifier) < 2 * half && (a.number - UnsignedArgument(a, modifier)) % (2 * half) == 0
  }

  lemma Multiple(m: nat, q: int)
    requires m > 0
    ensures (m * q) % m == 0
  {
    var r := (m * q) % m;
    var d := q - (m * q) / m;
    assert r == m * d by { assert m * q == m * ((m * q) / m) + r; assert m * (q - (m * q) / m) == m * q - m * ((m * q) / m); }
    if d >= 1 {
      Division.OneApart(m, 0, d);
    } else if d < 0 {
      Division.OneApart(m, d, 0);
    }
  }

  lemma ReadAtWidth(a: Argument, modifier: int, half: int)
    requires half > 0 && HalfRange(modifier) == half
    ensures ReadsAt(a, modifier, half)
  {
    hide HalfRange;
    var m := 2 * half;
    var x, y := a.number + half, a.number;
    assert x == m * (x / m) + x % m && y == m * (y / m) + y % m;
    assert a.number - SignedArgument(a, modifier) == m * (x / m);
    assert a.number - UnsignedArgument(a, modifier) == m * (y / m);
    Multiple(m, x / m);
    Multiple(m, y / m);
  }

  /** A conversion sees its argument at the width of the length modifier: hh 8 bits, h 16, l and none 32, ll 64. */
  lemma ArgumentWidths(a: Argument)
    ensures ReadsAt(a, -2, 0x80) && ReadsAt(a, -1, 0x8000) && ReadsAt(a, 0, 0x8000_0000) && ReadsAt(a, 1, 0x8000_0000)
    ensures ReadsAt(a, 2, 0x8000_0000_0000_0000)
  {
    hide ReadsAt;
    ReadAtWidth(a, -2, 0x80);
    ReadAtWidth(a, -1, 0x8000);
    ReadAtWidth(a, 0, 0x8000_0000);
    ReadAtWidth(a, 1, 0x8000_0000);
    ReadAtWidth(a, 2, 0x8000_0000_0000_0000);
  }

  /** s: as much of the text as the precision allows, on the side the flags ask for, filled up to the width. */
  lemma StringShown(text: string, left: bool, zero: bool, width: int, precision: int)
    ensures var out := StringConversion(text, left, zero, width, precision);
            var n := if 0 <= precision < |text| then precision else |text|;
            && |out| == (if width > n then width else n)
            && (left ==> out[..n] == text[..n] && forall i :: n <= i < |out| ==> out[i] == ' ')
            && (!left ==> out[|out| - n..] == text[..n]
                          && forall i :: 0 <= i < |out| - n ==> out[i] == if zero then '0' else ' ')
  {
    assert text[..|text|] == text;
  }

  /** What each conversion prints can be read back as the argument; other characters print nothing and take none. */
  lemma ConversionsReadBack(d: Directive, flags: string, a: Argument, floating: (Directive, Argument) -> string)
    requires d.positive == Positive(flags)
    ensures d.conversion == 'd' || d.conversion == 'i' ==> ReadSigned(Converted(d, a, floating)) == SignedArgument(a, d.modifier)
    ensures d.conversion == 'u' ==> ReadSigned(Converted(d, a, floating)) == UnsignedArgument(a, d.modifier)
    ensures d.conversion == 'o' ==> Denotes(Core(Converted(d, a, floating)), 8, 'a') == UnsignedArgument(a, d.modifier)
    ensures d.conversion == 'x' ==> ReadHex(Converted(d, a, floating), 'a') == UnsignedArgument(a, d.modifier)
    ensures d.conversion == 'X' ==> ReadHex(Converted(d, a, floating), 'A') == UnsignedArgument(a, d.modifier)
    ensures d.conversion !in "scdiuoxXfF" ==> Converted(d, a, floating) == "" && !TakesArgument(d.conversion)
    ensures d.conversion in "scdiuoxXfF" ==> TakesArgument(d.conversion)
  {
    hide SignedConversion, Decimal, OctalConversion, HexConversion, StringConversion, ReadSigned, ReadHex, Core, Denotes,
         SignedArgument, UnsignedArgument;
    var s := SpecOf(d);
    SignedReadsBack(SignedArgument(a, d.modifier), flags, s);
    DecimalReadsBack(UnsignedArgument(a, d.modifier), s);
    OctalReadsBack(UnsignedArgument(a, d.modifier), s);
    HexReadsBack(UnsignedArgument(a, d.modifier), false, s);
    HexReadsBack(UnsignedArgument(a, d.modifier), true, s);
  }

  /** Without a width, s prints its text up to the precision, (null) for none, and c its character whatever the precision. */
  lemma TextsPrinted(d: Directive, a: Argument, floating: (Directive, Argument) -> string)
    requires d.width <= 0
    ensures var text := if a.isNull then "(null)" else a.text;
            d.conversion == 's' ==> Converted(d, a, floating) == text[..if 0 <= d.precision < |text| then d.precision else |text|]
    ensures d.conversion == 'c' && 0 < a.number < 256 ==> Converted(d, a, floating) == [a.number as char]
    ensures d.conversion == 'c' && a.number == 0 ==> Converted(d, a, floating) == ""
  {
    if d.conversion == 's' {
      PlainText(TextOf(a), d.right, d.zero, d.width, d.precision);
    } else if d.conversion == 'c' {
      PlainText(CharacterText(a), d.right, d.zero, d.width, -1);
    }
  }

  lemma PlainText(text: string, left: bool, zero: bool, width: int, precision: int)
    requires width <= 0
    ensures StringConversion(text, left, zero, width, precision) == text[..if 0 <= precision < |text| then precision else |text|]
  {
    StringShown(text, left, zero, width, precision);
  }

  /** Every integer conversion is a number, with a sign or number prefix or none, in the place its directive's flags say. */
  lemma ConversionsPlaced(d: Directive, flags: string, a: Argument, floating: (Directive, Argument) -> string)
    returns (prefix: string, digits: string)
    requires d.positive == Positive(flags) && d.conversion in "diuoxX"
    ensures NoSpace(digits) && prefix in ["", "-", "+", " ", "0x", "0X"]
    ensures prefix in ["0x", "0X"] ==> d.alternate
    ensures var out := Converted(d, a, floating);
            var n := |prefix| + |digits|;
            && |out| == (if d.width > n then d.width else n)
            && (d.right ==> out[..|prefix|] == prefix && out[|prefix|..n] == digits && forall i :: n <= i < |out| ==> out[i] == ' ')
            && (!d.right && d.zero && d.precision < 0 ==>
                  && out[..|prefix|] == prefix && out[|out| - |digits|..] == digits
                  && forall i :: |prefix| <= i < |out| - |digits| ==> out[i] == '0')
            && (!d.right && !(d.zero && d.precision < 0) ==>
                  && out[|out| - n..|out| - |digits|] == prefix && out[|out| - |digits|..] == digits
                  && forall i :: 0 <= i < |out| - n ==> out[i] == ' ')
  {
    prefix, digits := PartsConverted(d, flags, a, floating);
    FlagsPlace(prefix, digits, Spec(d.right, d.zero, d.alternate, d.width, d.precision));
  }

  lemma PartsConverted(d: Directive, flags: string, a: Argument, floating: (Directive, Argument) -> string)
    returns (prefix: string, digits: string)
    requires d.positive == Positive(flags) && d.conversion in "diuoxX"
    ensures NoSpace(digits) && prefix in ["", "-", "+", " ", "0x", "0X"] && (prefix in ["0x", "0X"] ==> d.alternate)
    ensures var s := Spec(d.right, d.zero, d.alternate, d.width, d.precision);
            Converted(d, a, floating) == Field(prefix, digits, s.left, ZeroPads(s), s.width)
  {
    hide Digits, Field, ZeroPads, SignedArgument, UnsignedArgument, Positive;
    var value := UnsignedArgument(a, d.modifier);
    if d.conversion == 'd' || d.conversion == 'i' {
      var x := SignedArgument(a, d.modifier);
      var size := if x < 0 then -x else x;
      SignOf(x, flags, SpecOf(d));
      DecimalDigits(size, d.precision);
      prefix, digits := SignShown(x, flags), Digits(size, 10, 'a', d.precision);
    } else if d.conversion == 'u' {
      DecimalDigits(value, d.precision);
      prefix, digits := "", Digits(value, 10, 'a', d.precision);
    } else if d.conversion == 'o' {
      OctalDigits(value, d.precision);
      var plain := Digits(value, 8, 'a', d.precision);
      prefix, digits := "", if d.alternate && (plain == "" || plain[0] != '0') then "0" + plain else plain;
    } else {
      var upper := d.conversion == 'X';
      HexDigits(value, if upper then 'A' else 'a', d.precision);
      prefix := if d.alternate && value != 0 then (if upper then "0X" else "0x") else "";
      digits := Digits(value, 16, if upper then 'A' else 'a', d.precision);
    }
  }

  // ---------------------------------------------------------------------------
  // Whole formats
  // ---------------------------------------------------------------------------

  /** Ordinary characters print themselves. */
  lemma {:induction false} LiteralPrints(s: CString, args: Arguments, floating: (Directive, Argument) -> string, i: nat, j: nat, n: nat)
    requires i <= j <= |s| && '%' !in s[i..j]
    ensures Formatted(s, args, floating, i, n) == s[i..j] + Formatted(s, args, floating, j, n)
    decreases j - i
  {
    hide ParseDirective, Converted;
    if i == j {
      assert s[i..j] == "";
    } else {
      assert s[i..j] == [s[i]] + s[i + 1..j];
      LiteralPrints(s, args, floating, i + 1, j, n);
    }
  }

  /** Two percent signs print one. */
  lemma PercentPrints(s: CString, args: Arguments, floating: (Directive, Argument) -> string, i: nat, n: nat)
    requires i + 1 < |s| && s[i] == '%' && s[i + 1] == '%'
    ensures Formatted(s, args, floating, i, n) == "%" + Formatted(s, args, floating, i + 2, n)
  {
  }

  /** A directive prints what it means for the next argument. */
  lemma DirectivePrints(s: CString, args: Arguments, floating: (Directive, Argument) -> string, i: nat, n: nat,
                        d: Directive, j: nat, m: nat)
    requires i < |s| && s[i] == '%' && At(s, i + 1) != '%' && ParseDirective(s, args, i + 1, n) == Parsed(d, j, m)
    requires TakesArgument(d.conversion)
    ensures i < j < |s| && Formatted(s, args, floating, i, n) == Converted(d, args(m), floating) + Formatted(s, args, floating, j + 1, m + 1)
  {
    hide ParseDirective, Converted;
  }
}
