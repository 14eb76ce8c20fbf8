/**
 The printf engine: a cursor over the format string, a list of arguments, and an output function that is
 given one character at a time.
 */
module FormatString {
  import opened Numerals

  const TERMINATOR := '\0'

  /** The characters of a C string, up to its terminator. */
  type CString = s: string | TERMINATOR !in s

  /** An argument as the caller passed it; a conversion reads it at the width of its length modifier. */
  datatype Argument = Argument(number: int, text: CString, isNull: bool)

  /** The arguments, one after the other. */
  type Arguments = nat -> Argument

  /** A directive between its percent sign and its conversion character. */
  datatype Directive = Directive(positive: string, right: bool, zero: bool, alternate: bool, width: int, precision: int,
                                 modifier: int, conversion: char)

  // ---------------------------------------------------------------------------
  // Integers of the machine
  // ---------------------------------------------------------------------------

  function Wrapped(n: int, m: int): (r: int)
    requires m > 0
    ensures 0 <= r < m
    ensures 0 <= n < m ==> r == n
  {
    n % m
  }

  function Signed(n: int, half: int): (r: int)
    requires half > 0
    ensures -half <= r < half
    ensures -half <= n < half ==> r == n
  {
    var w := Wrapped(n + half, 2 * half);
    w - half
  }

  /** Half the number of values of the type a length modifier selects; int and long have 32 bits. */
  function HalfRange(modifier: int): (h: int)
    ensures 0 < h <= 0x8000_0000_0000_0000
  {
    if modifier == 2 then 0x8000_0000_0000_0000
    else if modifier == -1 then 0x8000
    else if modifier == -2 then 0x80
    else 0x8000_0000
  }

  function SignedArgument(a: Argument, modifier: int): int {
    Signed(a.number, HalfRange(modifier))
  }

  function UnsignedArgument(a: Argument, modifier: int): (n: nat)
    ensures n < 2 * HalfRange(modifier) <= 0x1_0000_0000_0000_0000
  {
    Wrapped(a.number, 2 * HalfRange(modifier))
  }

  // ---------------------------------------------------------------------------
  // What the integer printer prints
  // ---------------------------------------------------------------------------

  /** The digits the printer generates: none for zero with precision zero. */
  function Generated(value: nat, base: Base, letter: char, precision: int): string
    requires letter == 'a' || letter == 'A'
  {
    if value == 0 then (if precision != 0 then "0" else "") else Numeral(value, base, letter)
  }

  /** Negative extra zeros stand for as many as fill the field. */
  function Zeros(prefix: string, extra: int, digits: string, width: int): int {
    if extra >= 0 then extra else if width > |digits| + |prefix| then width - |digits| - |prefix| else 0
  }

  function Printed(prefix: string, extra: int, digits: string, right: bool, width: int): string {
    var body := prefix + Repeat('0', Zeros(prefix, extra, digits, width)) + digits;
    if right then body + Repeat(' ', width - |body|) else Repeat(' ', width - |body|) + body
  }

  function ExtraZeros(prefix: string, numDigits: nat, zero: bool, precision: int): int {
    if zero && precision < 0 then -1
    else
      var n := precision - numDigits - if prefix == "0" then 1 else 0;
      if n < 0 then 0 else n
  }

  function PrintedInteger(value: nat, base: Base, letter: char, prefix: string, s: Spec): string
    requires letter == 'a' || letter == 'A'
  {
    var digits := Generated(value, base, letter, s.precision);
    Printed(prefix, ExtraZeros(prefix, |digits|, s.zero, s.precision), digits, s.left, s.width)
  }

  // The standard's description and the printer's arithmetic agree.

  lemma NumeralOfZero(base: Base, letter: char)
    requires letter == 'a' || letter == 'A'
    ensures Numeral(0, base, letter) == ""
  {
  }

  lemma RepeatJoin(c: char, a: nat, b: nat)
    ensures Repeat(c, a) + Repeat(c, b) == Repeat(c, a + b)
  {
    RepeatUnique(c, Repeat(c, a) + Repeat(c, b));
  }

  /** The zeros demanded by a precision, and the digits generated, make the digits of the standard. */
  lemma DigitsGenerated(value: nat, base: Base, letter: char, precision: int)
    requires letter == 'a' || letter == 'A'
    ensures var g := Generated(value, base, letter, precision);
            Digits(value, base, letter, precision) == Repeat('0', if precision < |g| then 0 else precision - |g|) + g
  {
    if value == 0 {
      NumeralOfZero(base, letter);
      if precision > 0 {
        RepeatJoin('0', precision - 1, 1);
        assert Repeat('0', 1) == "0";
      } else if precision < 0 {
        assert Repeat('0', 1) == "0";
      }
    } else {
      NumeralDenotes(value, base, letter);
    }
  }

  /** A prefix other than the octal one: sign, 0x, 0X or nothing. */
  lemma PrefixedAgrees(value: nat, base: Base, letter: char, prefix: string, s: Spec)
    requires (letter == 'a' || letter == 'A') && prefix != "0" && !(s.left && s.zero)
    ensures PrintedInteger(value, base, letter, prefix, s)
            == Field(prefix, Digits(value, base, letter, s.precision), s.left, ZeroPads(s), s.width)
  {
    hide Generated, Digits, Repeat;
    var g := Generated(value, base, letter, s.precision);
    var digits := Digits(value, base, letter, s.precision);
    DigitsGenerated(value, base, letter, s.precision);
    assert Repeat('0', 0) == "";
    var extra := ExtraZeros(prefix, |g|, s.zero, s.precision);
    var body := prefix + Repeat('0', Zeros(prefix, extra, g, s.width)) + g;
    if ZeroPads(s) {
      assert digits == g;
      assert Repeat('0', s.width - |prefix| - |g|) == Repeat('0', Zeros(prefix, extra, g, s.width)) by {
        RepeatNegative('0', s.width - |prefix| - |g|);
      }
      assert Repeat(' ', s.width - |body|) == "";
    } else {
      assert body == prefix + digits;
    }
  }

  lemma RepeatNegative(c: char, n: int)
    ensures n <= 0 ==> Repeat(c, n) == Repeat(c, 0) == ""
  {
  }

  function OctalPrefix(value: nat, s: Spec): string {
    if s.alternate && (value != 0 || s.precision == 0) then "0" else ""
  }

  /** The digits shown by the alternative octal form, as the printer puts them together. */
  lemma OctalShown(value: nat, s: Spec)
    requires OctalPrefix(value, s) == "0"
    ensures var g := Generated(value, 8, 'a', s.precision);
            var digits := Digits(value, 8, 'a', s.precision);
            var shown := if s.alternate && (digits == "" || digits[0] != '0') then "0" + digits else digits;
            shown == "0" + Repeat('0', if s.precision - |g| - 1 < 0 then 0 else s.precision - |g| - 1) + g
  {
    hide Generated, Digits;
    var g := Generated(value, 8, 'a', s.precision);
    DigitsGenerated(value, 8, 'a', s.precision);
    FirstDigit(value, s.precision);
    assert Repeat('0', 1) == "0";
    if s.precision > |g| {
      RepeatJoin('0', 1, s.precision - |g| - 1);
    }
  }

  lemma FirstDigit(value: nat, precision: int)
    ensures var g := Generated(value, 8, 'a', precision); g != "" && value != 0 ==> g[0] != '0'
    ensures value == 0 && precision == 0 ==> Generated(value, 8, 'a', precision) == ""
    ensures value == 0 && precision != 0 ==> Generated(value, 8, 'a', precision) == "0"
  {
    NumeralDenotes(value, 8, 'a');
  }

  lemma OctalAgrees(value: nat, s: Spec)
    requires !(s.left && s.zero)
    ensures PrintedInteger(value, 8, 'a', OctalPrefix(value, s), s) == OctalConversion(value, s)
  {
    if OctalPrefix(value, s) == "0" {
      OctalPrefixed(value, s);
    } else {
      PrefixedAgrees(value, 8, 'a', "", s);
      hide Generated, Digits;
      DigitsGenerated(value, 8, 'a', s.precision);
      FirstDigit(value, s.precision);
    }
  }

  lemma PlainField(body: string, left: bool, width: int)
    ensures Field("", body, left, false, width)
            == if left then body + Repeat(' ', width - |body|) else Repeat(' ', width - |body|) + body
  {
    assert "" + body == body;
    assert Repeat(' ', width - |body|) + "" == Repeat(' ', width - |body|);
  }

  lemma ZeroField(g: string, width: int)
    ensures Printed("0", -1, g, false, width) == Field("", "0" + g, false, true, width)
  {
    hide Repeat;
    var zeros := Zeros("0", -1, g, width);
    var pad := width - |"0" + g|;
    RepeatNegative('0', pad);
    ZeroInFront(zeros);
    var body := "0" + Repeat('0', zeros) + g;
    RepeatNegative(' ', width - |body|);
    assert Repeat('0', pad) + ("0" + g) == (Repeat('0', pad) + "0") + g;
    assert "" + Repeat('0', pad) == Repeat('0', pad);
    assert "" + body == body;
  }

  lemma OctalPrefixed(value: nat, s: Spec)
    requires !(s.left && s.zero) && OctalPrefix(value, s) == "0"
    ensures PrintedInteger(value, 8, 'a', "0", s) == OctalConversion(value, s)
  {
    hide Generated, Digits, Repeat, Printed, Field;
    var g := Generated(value, 8, 'a', s.precision);
    OctalShown(value, s);
    if ZeroPads(s) {
      RepeatNegative('0', 0);
      assert "0" + Repeat('0', 0) + g == "0" + g;
      ZeroField(g, s.width);
    } else {
      var extra := ExtraZeros("0", |g|, s.zero, s.precision);
      var body := "0" + Repeat('0', extra) + g;
      PlainField(body, s.left, s.width);
      PrintedBody("0", extra, g, s.left, s.width);
    }
  }

  lemma PrintedBody(prefix: string, extra: nat, digits: string, right: bool, width: int)
    ensures var body := prefix + Repeat('0', extra) + digits;
            Printed(prefix, extra, digits, right, width)
            == if right then body + Repeat(' ', width - |body|) else Repeat(' ', width - |body|) + body
  {
  }

  lemma ZeroInFront(n: int)
    ensures Repeat('0', n) + "0" == "0" + Repeat('0', n)
  {
    assert Repeat('0', 1) == "0";
    if n > 0 {
      RepeatJoin('0', n, 1);
      RepeatJoin('0', 1, n);
    }
  }

  // ---------------------------------------------------------------------------
  // The digit buffer
  // ---------------------------------------------------------------------------

  const BUFFER_SIZE := 21

  /** The buffer holds the digits exactly unless they are octal and the value is 8^21 or more. */
  lemma BufferSuffices(value: nat, base: Base, letter: char, precision: int)
    requires (letter == 'a' || letter == 'A') && value < 0x1_0000_0000_0000_0000
    requires base == 8 || base == 10 || base == 16
    ensures |Generated(value, base, letter, precision)| <= BUFFER_SIZE
            <==> !(base == 8 && value >= 0x8000_0000_0000_0000)
  {
    NumeralLength(value, base, letter, BUFFER_SIZE);
    PowersOf21();
  }

  lemma {:induction false} PowerSum(base: Base, a: nat, b: nat)
    ensures Power(base, a + b) == Power(base, a) * Power(base, b)
  {
    if a > 0 {
      PowerSum(base, a - 1, b);
      Associate(base, Power(base, a - 1), Power(base, b));
    }
  }

  lemma Associate(a: int, b: int, c: int)
    ensures a * (b * c) == (a * b) * c
  {
  }

  lemma PowersOf21()
    ensures Power(8, 21) == 0x8000_0000_0000_0000
    ensures Power(10, 21) > 0x1_0000_0000_0000_0000 && Power(16, 21) > 0x1_0000_0000_0000_0000
  {
    Powers7(8, 2097152);
    Powers7(10, 10000000);
    Powers7(16, 268435456);
  }

  lemma Powers7(base: Base, seventh: nat)
    requires (base == 8 && seventh == 2097152) || (base == 10 && seventh == 10000000) || (base == 16 && seventh == 268435456)
    ensures Power(base, 21) == seventh * seventh * seventh
  {
    assert Power(base, 7) == seventh by {
      assert Power(base, 3) == base * base * base;
      PowerSum(base, 3, 3);
      PowerSum(base, 6, 1);
    }
    PowerSum(base, 7, 7);
    PowerSum(base, 14, 7);
  }

  /** For instance %llo of the largest value needs 22 digits. */
  lemma BufferOverrun()
    ensures |Generated(0xffff_ffff_ffff_ffff, 8, 'a', -1)| > BUFFER_SIZE
  {
    BufferSuffices(0xffff_ffff_ffff_ffff, 8, 'a', -1);
  }

  // ---------------------------------------------------------------------------
  // Parsing
  // ---------------------------------------------------------------------------

  /** The character under the cursor; past the last one there is the terminator. */
  function At(s: CString, i: nat): char {
    if i < |s| then s[i] else TERMINATOR
  }

  predicate IsFlag(c: char) {
    c in "#-0+ "
  }

  predicate IsDigit(c: char) {
    '0' <= c <= '9'
  }

  function FlagEnd(s: CString, i: nat): (j: nat)
    requires i <= |s|
    ensures i <= j <= |s| && (forall k :: i <= k < j ==> IsFlag(s[k])) && !IsFlag(At(s, j))
    decreases |s| - i
  {
    if IsFlag(At(s, i)) then FlagEnd(s, i + 1) else i
  }

  function DigitEnd(s: CString, i: nat): (j: nat)
    requires i <= |s|
    ensures i <= j <= |s| && (forall k :: i <= k < j ==> IsDigit(s[k])) && !IsDigit(At(s, j))
    decreases |s| - i
  {
    if IsDigit(At(s, i)) then DigitEnd(s, i + 1) else i
  }

  /** The sign shown before numbers that are not negative: a plus sign overrides a space. */
  function Positive(run: string): string {
    if '+' in run then "+" else if ' ' in run then " " else ""
  }

  function DecimalValue(digits: string): int {
    Denotes(digits, 10, 'a')
  }

  datatype IntegerRead = IntegerRead(value: int, position: nat, nextArg: nat)

  /** A number, or an asterisk that takes one from the arguments. */
  function IntegerAt(s: CString, args: Arguments, i: nat, n: nat): (r: IntegerRead)
    requires i <= |s|
    ensures i <= r.position <= |s|
  {
    if At(s, i) == '*' then IntegerRead(Signed(args(n).number, 0x8000_0000), i + 1, n + 1)
    else IntegerRead(DecimalValue(s[i..DigitEnd(s, i)]), DigitEnd(s, i), n)
  }

  datatype ModifierRead = ModifierRead(modifier: int, position: nat)

  function ModifierAt(s: CString, i: nat): (r: ModifierRead)
    requires i <= |s|
    ensures i <= r.position <= |s|
  {
    if At(s, i) == 'l' then (if At(s, i + 1) == 'l' then ModifierRead(2, i + 2) else ModifierRead(1, i + 1))
    else if At(s, i) == 'h' then (if At(s, i + 1) == 'h' then ModifierRead(-2, i + 2) else ModifierRead(-1, i + 1))
    else ModifierRead(0, i)
  }

  /** A directive, the position of its conversion character, and the next argument; or the end of the format. */
  datatype Parsed = Truncated | Parsed(directive: Directive, position: nat, nextArg: nat)

  function PrecisionAt(s: CString, args: Arguments, i: nat, n: nat): (r: IntegerRead)
    requires i <= |s|
    ensures i <= r.position <= |s|
  {
    if At(s, i) == '.' then IntegerAt(s, args, i + 1, n) else IntegerRead(-1, i, n)
  }

  /** A directive from behind its percent sign; a negative width stands for the - flag. */
  function ParseDirective(s: CString, args: Arguments, i: nat, n: nat): (p: Parsed)
    requires i <= |s|
    ensures p.Parsed? ==> i <= p.position < |s| && p.directive.conversion == s[p.position]
    ensures p.Parsed? ==> !(p.directive.right && p.directive.zero) && p.directive.positive != "0"
  {
    var j := FlagEnd(s, i);
    var run := s[i..j];
    if j == |s| then Truncated
    else
      var w := IntegerAt(s, args, j, n);
      var p := PrecisionAt(s, args, w.position, w.nextArg);
      if p.position == |s| then Truncated
      else
        var m := ModifierAt(s, p.position);
        if m.position == |s| then Truncated
        else
          var right := '-' in run || w.value < 0;
          Parsed(Directive(Positive(run), right, '0' in run && !right, '#' in run,
                           if w.value < 0 then -w.value else w.value, p.value, m.modifier, s[m.position]),
                 m.position, p.nextArg)
  }

  // ---------------------------------------------------------------------------
  // The meaning of a format
  // ---------------------------------------------------------------------------

  function SpecOf(d: Directive): Spec {
    Spec(d.right, d.zero, d.alternate, d.width, d.precision)
  }

  function StringConversion(text: string, right: bool, zero: bool, width: int, precision: int): string {
    var shown := if 0 <= precision < |text| then text[..precision] else text;
    if right then shown + Repeat(' ', width - |shown|)
    else Repeat(if zero then '0' else ' ', width - |shown|) + shown
  }

  /** A character argument, as a string; the zero character is an empty one. */
  function CharacterText(a: Argument): (t: CString) {
    var c := Wrapped(a.number, 256) as char;
    if c == TERMINATOR then "" else [c]
  }

  function TextOf(a: Argument): CString {
    if a.isNull then "(null)" else a.text
  }

  /** Whether a conversion takes an argument. */
  predicate TakesArgument(c: char) {
    c in "scdiuoxXfF"
  }

  /** What a directive prints; floating-point output is a parameter. */
  function Converted(d: Directive, a: Argument, floating: (Directive, Argument) -> string): string {
    match d.conversion
    case 's' => StringConversion(TextOf(a), d.right, d.zero, d.width, d.precision)
    case 'c' => StringConversion(CharacterText(a), d.right, d.zero, d.width, -1)
    case 'd' => SignedConversion(SignedArgument(a, d.modifier), d.positive, SpecOf(d))
    case 'i' => SignedConversion(SignedArgument(a, d.modifier), d.positive, SpecOf(d))
    case 'u' => Decimal(UnsignedArgument(a, d.modifier), "", SpecOf(d))
    case 'o' => OctalConversion(UnsignedArgument(a, d.modifier), SpecOf(d))
    case 'x' => HexConversion(UnsignedArgument(a, d.modifier), false, SpecOf(d))
    case 'X' => HexConversion(UnsignedArgument(a, d.modifier), true, SpecOf(d))
    case 'f' => floating(d, a)
    case 'F' => floating(d, a)
    case _ => ""
  }

  /** What a format prints from position i on, with the n-th argument the next. */
  function Formatted(s: CString, args: Arguments, floating: (Directive, Argument) -> string, i: nat, n: nat): string
    requires i <= |s|
    decreases |s| - i
  {
    if i == |s| then ""
    else if s[i] != '%' then [s[i]] + Formatted(s, args, floating, i + 1, n)
    else if At(s, i + 1) == '%' then "%" + Formatted(s, args, floating, i + 2, n)
    else match ParseDirective(s, args, i + 1, n)
      case Truncated => ""
      case Parsed(d, j, m) =>
        Converted(d, args(m), floating)
        + Formatted(s, args, floating, j + 1, if TakesArgument(d.conversion) then m + 1 else m)
  }

  /** The digit buffer suffices for a directive. */
  predicate Fits(d: Directive, a: Argument) {
    d.conversion == 'o' ==> UnsignedArgument(a, d.modifier) < 0x8000_0000_0000_0000
  }

  predicate AllFit(s: CString, args: Arguments, i: nat, n: nat)
    requires i <= |s|
    decreases |s| - i
  {
    i == |s| ||
    (if s[i] != '%' then AllFit(s, args, i + 1, n)
     else if At(s, i + 1) == '%' then AllFit(s, args, i + 2, n)
     else match ParseDirective(s, args, i + 1, n)
       case Truncated => true
       case Parsed(d, j, m) =>
         Fits(d, args(m)) && AllFit(s, args, j + 1, if TakesArgument(d.conversion) then m + 1 else m))
  }

  // ---------------------------------------------------------------------------
  // The engine
  // ---------------------------------------------------------------------------

  class Printer {
    const format: CString
    const args: Arguments
    const floating: (Directive, Argument) -> string
    var cursor: nat
    var nextArg: nat
    var output: string

    constructor (format: CString, args: Arguments, floating: (Directive, Argument) -> string)
      ensures this.format == format && this.args == args && this.floating == floating
      ensures cursor == 0 && nextArg == 0 && output == ""
    {
      this.format, this.args, this.floating := format, args, floating;
      cursor, nextArg, output := 0, 0, "";
    }

    function Here(): char
      reads this
    {
      At(format, cursor)
    }

    method Emit(c: char)
      modifies this`output
      ensures output == old(output) + [c]
    {
      output := output + [c];
    }

    method EmitRepeated(c: char, n: int)
      modifies this`output
      ensures output == old(output) + Repeat(c, n)
    {
      var i := 0;
      while i < n
        invariant 0 <= i && (n >= 0 ==> i <= n) && (n < 0 ==> i == 0)
        invariant output == old(output) + Repeat(c, i)
      {
        RepeatJoin(c, i, 1);
        assert Repeat(c, 1) == [c];
        Emit(c);
        i := i + 1;
      }
    }

    method EmitAll(s: string)
      modifies this`output
      ensures output == old(output) + s
    {
      var i := 0;
      while i < |s|
        invariant 0 <= i <= |s| && output == old(output) + s[..i]
      {
        Emit(s[i]);
        i := i + 1;
      }
    }

    // Parsing.

    method ParseFlags() returns (ok: bool, positive: string, right: bool, zero: bool, alternate: bool)
      requires cursor <= |format|
      modifies this`cursor
      ensures cursor == FlagEnd(format, old(cursor)) && ok == (cursor < |format|)
      ensures var run := format[old(cursor)..cursor];
              && positive == Positive(run) && (right <==> '-' in run)
              && (zero <==> '0' in run && '-' !in run) && (alternate <==> '#' in run)
    {
      positive, right, zero, alternate := "", false, false, false;
      while IsFlag(Here())
        invariant old(cursor) <= cursor <= |format| && FlagEnd(format, cursor) == FlagEnd(format, old(cursor))
        invariant var run := format[old(cursor)..cursor];
                  && positive == Positive(run) && (right <==> '-' in run)
                  && (zero <==> '0' in run && '-' !in run) && (alternate <==> '#' in run)
        decreases |format| - cursor
      {
        assert format[old(cursor)..cursor + 1] == format[old(cursor)..cursor] + [Here()];
        match Here() {
          case '#' => alternate := true;
          case '-' => right, zero := true, false;
          case '0' => if !right { zero := true; }
          case '+' => positive := "+";
          case _ => if positive == "" { positive := " "; }
        }
        cursor := cursor + 1;
      }
      ok := Here() != TERMINATOR;
    }

    method ParseInteger() returns (value: int)
      requires cursor <= |format|
      modifies this`cursor, this`nextArg
      ensures IntegerRead(value, cursor, nextArg) == IntegerAt(format, args, old(cursor), old(nextArg))
    {
      if Here() == '*' {
        cursor := cursor + 1;
        value := Signed(args(nextArg).number, 0x8000_0000);
        nextArg := nextArg + 1;
      } else {
        value := 0;
        while IsDigit(Here())
          invariant old(cursor) <= cursor <= |format| && DigitEnd(format, cursor) == DigitEnd(format, old(cursor))
          invariant nextArg == old(nextArg) && value == DecimalValue(format[old(cursor)..cursor])
          decreases |format| - cursor
        {
          assert format[old(cursor)..cursor + 1][..cursor - old(cursor)] == format[old(cursor)..cursor];
          value := value * 10;
          value := value + (Here() as int - '0' as int);
          cursor := cursor + 1;
        }
      }
    }

    method ParseSizes(right: bool, zero: bool) returns (ok: bool, width: int, precision: int, right': bool, zero': bool)
      requires cursor <= |format|
      modifies this`cursor, this`nextArg
      ensures var w := IntegerAt(format, args, old(cursor), old(nextArg));
              var p := PrecisionAt(format, args, w.position, w.nextArg);
              && width == (if w.value < 0 then -w.value else w.value) && right' == (right || w.value < 0)
              && zero' == (zero && w.value >= 0) && precision == p.value
              && cursor == p.position && nextArg == p.nextArg && ok == (cursor < |format|)
    {
      right', zero' := right, zero;
      width := ParseInteger();
      if width < 0 {
        width, right', zero' := -width, true, false;
      }
      if Here() == '.' {
        cursor := cursor + 1;
        precision := ParseInteger();
      } else {
        precision := -1;
      }
      ok := Here() != TERMINATOR;
    }

    method ParseLengthModifier() returns (ok: bool, modifier: int)
      requires cursor <= |format|
      modifies this`cursor
      ensures ModifierRead(modifier, cursor) == ModifierAt(format, old(cursor)) && ok == (cursor < |format|)
    {
      modifier := 0;
      if Here() == 'l' {
        modifier, cursor := 1, cursor + 1;
        if Here() == 'l' {
          modifier, cursor := 2, cursor + 1;
        }
      } else if Here() == 'h' {
        modifier, cursor := -1, cursor + 1;
        if Here() == 'h' {
          modifier, cursor := -2, cursor + 1;
        }
      }
      ok := Here() != TERMINATOR;
    }

    // Output.

    method OutputDigitString(prefix: string, numExtraZeros: int, digits: string, right: bool, width: int)
      returns (length: nat)
      modifies this`output
      ensures output == old(output) + Printed(prefix, numExtraZeros, digits, right, width)
      ensures length == |Printed(prefix, numExtraZeros, digits, right, width)|
    {
      var zeros := numExtraZeros;
      if zeros < 0 {
        zeros := width - |digits| - |prefix|;
        if zeros < 0 {
          zeros := 0;
        }
      }
      var numCharacters := |digits| + zeros + |prefix|;
      var numPadding := width - numCharacters;
      if numPadding < 0 {
        numPadding := 0;
      }
      hide Repeat;
      RepeatClipped(' ', width - numCharacters);
      ghost var body := prefix + Repeat('0', zeros) + digits;
      assert |body| == numCharacters;
      Assembled(old(output), prefix, Repeat('0', zeros), digits, Repeat(' ', numPadding));
      if !right {
        EmitRepeated(' ', numPadding);
      }
      EmitAll(prefix);
      EmitRepeated('0', zeros);
      EmitAll(digits);
      if right {
        EmitRepeated(' ', numPadding);
      }
      length := numCharacters + numPadding;
    }

    /** Digits are generated from the last to the first, into the end of a fixed buffer. */
    method OutputUnsignedInteger(value: nat, base: Base, letter: char, prefix: string, right: bool, zero: bool, width: int,
                                 precision: int) returns (length: nat)
      requires letter == 'a' || letter == 'A'
      requires |Generated(value, base, letter, precision)| <= BUFFER_SIZE
      modifies this`output
      ensures output == old(output) + PrintedInteger(value, base, letter, prefix, Spec(right, zero, false, width, precision))
    {
      hide Printed, Generated;
      var buffer, start := FillBuffer(value, base, letter, precision);
      var digits := buffer[start..];
      var numDigits := BUFFER_SIZE - start;
      var numExtraZeros: int;
      if zero && precision < 0 {
        numExtraZeros := -1;
      } else {
        numExtraZeros := precision - numDigits;
        if prefix == "0" {
          numExtraZeros := numExtraZeros - 1;
        }
        if numExtraZeros < 0 {
          numExtraZeros := 0;
        }
      }
      length := OutputDigitString(prefix, numExtraZeros, digits, right, width);
    }

    /** The digits at the end of a fresh buffer. */
    method FillBuffer(value: nat, base: Base, letter: char, precision: int) returns (buffer: array<char>, start: nat)
      requires letter == 'a' || letter == 'A'
      requires |Generated(value, base, letter, precision)| <= BUFFER_SIZE
      ensures fresh(buffer) && buffer.Length == BUFFER_SIZE && start <= BUFFER_SIZE
      ensures buffer[start..] == Generated(value, base, letter, precision)
    {
      hide Numeral;
      buffer := new char[BUFFER_SIZE];
      start := BUFFER_SIZE;
      if value == 0 {
        if precision != 0 {
          start := start - 1;
          buffer[start] := '0';
        }
      } else {
        start := GenerateDigits(value, base, letter, buffer);
      }
    }

    method GenerateDigits(value: nat, base: Base, letter: char, buffer: array<char>) returns (start: nat)
      requires letter == 'a' || letter == 'A'
      requires value > 0 && |Numeral(value, base, letter)| <= buffer.Length
      modifies buffer
      ensures start <= buffer.Length && buffer[start..] == Numeral(value, base, letter)
    {
      hide DigitChar, Numeral;
      var rest: nat := value;
      start := buffer.Length;
      ghost var written := "";
      while rest != 0
        invariant start <= buffer.Length && written == buffer[start..]
        invariant Numeral(value, base, letter) == Numeral(rest, base, letter) + written
        decreases rest
      {
        NumeralStep(rest, base, letter, written);
        var digit := rest % base;
        start := start - 1;
        buffer[start] := DigitChar(digit, letter);
        written := [DigitChar(digit, letter)] + written;
        rest := rest / base;
      }
      NumeralOfZero(base, letter);
    }

    method OutputSignedInteger(value: int, positive: string, right: bool, zero: bool, width: int, precision: int)
      requires -0x8000_0000_0000_0000 <= value < 0x8000_0000_0000_0000
      requires !(right && zero) && positive != "0"
      modifies this`output
      ensures output == old(output) + SignedConversion(value, positive, Spec(right, zero, false, width, precision))
    {
      hide Generated, PrintedInteger, Decimal;
      var absValue, prefix;
      if value >= 0 {
        absValue, prefix := value, positive;
      } else {
        absValue, prefix := -value, "-";
      }
      BufferSuffices(absValue, 10, 'a', precision);
      DecimalAgrees(absValue, prefix, Spec(right, zero, false, width, precision));
      var length := OutputUnsignedInteger(absValue, 10, 'a', prefix, right, zero, width, precision);
    }

    method OutputString(text: CString, right: bool, zero: bool, width: int, precision: int)
      modifies this`output
      ensures output == old(output) + StringConversion(text, right, zero, width, precision)
    {
      var length := |text|;
      if precision >= 0 && length > precision {
        length := precision;
      }
      var count := 0;
      hide Repeat;
      ghost var shown := text[..length];
      assert text[..|text|] == text;
      if width > 0 && !right {
        EmitRepeated(if zero then '0' else ' ', width - length);
        count := if width > length then width - length else 0;
      }
      EmitAll(text[..length]);
      count := count + length;
      RepeatNegative(' ', width - count);
      RepeatNegative(if zero then '0' else ' ', width - length);
      EmitRepeated(' ', width - count);
    }

    /** The conversions d and i. */
    method ConvertSigned(d: Directive, a: Argument)
      requires !(d.right && d.zero) && d.positive != "0"
      modifies this`output
      ensures output == old(output) + SignedConversion(SignedArgument(a, d.modifier), d.positive, SpecOf(d))
    {
      var value := SignedArgument(a, d.modifier);
      IgnoresAlternate(value, d.positive, SpecOf(d));
      OutputSignedInteger(value, d.positive, d.right, d.zero, d.width, d.precision);
    }

    /** The conversions u, o, x and X. */
    method ConvertUnsigned(d: Directive, a: Argument)
      requires d.conversion in "uoxX" && !(d.right && d.zero) && Fits(d, a)
      modifies this`output
      ensures output == old(output) + Converted(d, a, floating)
    {
      hide Generated, PrintedInteger, OctalConversion, HexConversion, Decimal, UnsignedArgument;
      var value := UnsignedArgument(a, d.modifier);
      var s := SpecOf(d);
      PrintedIgnoresAlternate(value, s);
      var length;
      match d.conversion {
        case 'u' =>
          BufferSuffices(value, 10, 'a', d.precision);
          DecimalAgrees(value, "", s);
          length := OutputUnsignedInteger(value, 10, 'a', "", d.right, d.zero, d.width, d.precision);
        case 'o' =>
          BufferSuffices(value, 8, 'a', d.precision);
          OctalAgrees(value, s);
          length := OutputUnsignedInteger(value, 8, 'a', if d.alternate && (value != 0 || d.precision == 0) then "0" else "",
                                          d.right, d.zero, d.width, d.precision);
        case 'x' =>
          BufferSuffices(value, 16, 'a', d.precision);
          HexAgrees(value, false, s);
          length := OutputUnsignedInteger(value, 16, 'a', if d.alternate && value != 0 then "0x" else "",
                                          d.right, d.zero, d.width, d.precision);
        case _ =>
          BufferSuffices(value, 16, 'A', d.precision);
          HexAgrees(value, true, s);
          length := OutputUnsignedInteger(value, 16, 'A', if d.alternate && value != 0 then "0X" else "",
                                          d.right, d.zero, d.width, d.precision);
      }
    }

    /** The switch on the conversion character. */
    method Convert(d: Directive)
      requires !(d.right && d.zero) && d.positive != "0" && Fits(d, args(nextArg))
      modifies this`output, this`nextArg
      ensures output == old(output) + Converted(d, args(old(nextArg)), floating)
      ensures nextArg == if TakesArgument(d.conversion) then old(nextArg) + 1 else old(nextArg)
    {
      hide SignedConversion, StringConversion, OctalConversion, HexConversion, Decimal, UnsignedArgument, SignedArgument;
      var a := args(nextArg);
      match d.conversion {
        case 's' => OutputString(TextOf(a), d.right, d.zero, d.width, d.precision);
        case 'c' => OutputString(CharacterText(a), d.right, d.zero, d.width, -1);
        case 'd' => ConvertSigned(d, a);
        case 'i' => ConvertSigned(d, a);
        case 'u' => ConvertUnsigned(d, a);
        case 'o' => ConvertUnsigned(d, a);
        case 'x' => ConvertUnsigned(d, a);
        case 'X' => ConvertUnsigned(d, a);
        case 'f' => EmitAll(floating(d, a));
        case 'F' => EmitAll(floating(d, a));
        case _ =>
      }
      if TakesArgument(d.conversion) {
        nextArg := nextArg + 1;
      }
    }

    /** A directive from behind its percent sign; false at the end of the format. */
    method ParseOne() returns (ok: bool, d: Directive)
      requires cursor <= |format|
      modifies this`cursor, this`nextArg
      ensures cursor <= |format|
      ensures ok == ParseDirective(format, args, old(cursor), old(nextArg)).Parsed?
      ensures ok ==> ParseDirective(format, args, old(cursor), old(nextArg)) == Parsed(d, cursor, nextArg) && cursor < |format|
    {
      hide Positive, IntegerAt, PrecisionAt, ModifierAt;
      var positive, right, zero, alternate;
      d := Directive("", false, false, false, 0, 0, 0, TERMINATOR);
      ok, positive, right, zero, alternate := ParseFlags();
      if ok {
        var width, precision;
        ok, width, precision, right, zero := ParseSizes(right, zero);
        if ok {
          var modifier;
          ok, modifier := ParseLengthModifier();
          if ok {
            d := Directive(positive, right, zero, alternate, width, precision, modifier, Here());
          }
        }
      }
    }

    /** One character of the format, or one directive. */
    method FormatOne() returns (going: bool)
      requires cursor < |format| && AllFit(format, args, cursor, nextArg)
      modifies this
      ensures old(cursor) < cursor <= |format| || (!going && cursor <= |format|)
      ensures going ==> AllFit(format, args, cursor, nextArg)
      ensures old(output) + Formatted(format, args, floating, old(cursor), old(nextArg))
              == output + if going then Formatted(format, args, floating, cursor, nextArg) else ""
    {
      hide Converted, ParseDirective, Fits, Formatted, AllFit;
      FormattedStep(format, args, floating, cursor, nextArg);
      ghost var printed := "";
      going := true;
      if Here() == '%' {
        cursor := cursor + 1;
        if Here() == '%' {
          Emit('%');
          printed := "%";
          cursor := cursor + 1;
        } else {
          var d;
          going, d := ParseOne();
          if going {
            printed := Converted(d, args(nextArg), floating);
            Convert(d);
            cursor := cursor + 1;
          }
        }
      } else {
        Emit(Here());
        printed := [Here()];
        cursor := cursor + 1;
      }
      Associates(old(output), printed, if going then Formatted(format, args, floating, cursor, nextArg) else "");
    }

    /** The main loop; the cursor never passes the terminator. */
    method Run()
      requires cursor == 0 && nextArg == 0 && output == "" && AllFit(format, args, 0, 0)
      modifies this
      ensures output == Formatted(format, args, floating, 0, 0)
      ensures cursor <= |format|
    {
      hide AllFit;
      ghost var meaning := Formatted(format, args, floating, 0, 0);
      assert output + meaning == meaning;
      var going := true;
      while going && Here() != TERMINATOR
        invariant cursor <= |format|
        invariant going ==> AllFit(format, args, cursor, nextArg)
        invariant meaning == output + if going then Formatted(format, args, floating, cursor, nextArg) else ""
        decreases going, |format| - cursor
      {
        going := FormatOne();
      }
    }
  }

  lemma Associates(a: string, b: string, c: string)
    ensures a + (b + c) == (a + b) + c
    ensures b == "" && c == "" ==> a + (b + c) == a && a + "" == a
  {
  }

  /** The meaning of a format, one step on. */
  lemma FormattedStep(s: CString, args: Arguments, floating: (Directive, Argument) -> string, i: nat, n: nat)
    requires i < |s| && AllFit(s, args, i, n)
    ensures s[i] != '%' ==>
              && Formatted(s, args, floating, i, n) == [s[i]] + Formatted(s, args, floating, i + 1, n)
              && AllFit(s, args, i + 1, n)
    ensures s[i] == '%' && At(s, i + 1) == '%' ==>
              && Formatted(s, args, floating, i, n) == "%" + Formatted(s, args, floating, i + 2, n)
              && AllFit(s, args, i + 2, n)
    ensures s[i] == '%' && At(s, i + 1) != '%' ==>
              match ParseDirective(s, args, i + 1, n)
              case Truncated => Formatted(s, args, floating, i, n) == "" == "" + ""
              case Parsed(d, j, m) =>
                var m' := if TakesArgument(d.conversion) then m + 1 else m;
                && Formatted(s, args, floating, i, n) == Converted(d, args(m), floating) + Formatted(s, args, floating, j + 1, m')
                && Fits(d, args(m)) && AllFit(s, args, j + 1, m')
  {
    hide ParseDirective, Converted, Fits;
  }

  lemma Assembled(before: string, prefix: string, zeros: string, digits: string, spaces: string)
    ensures before + spaces + prefix + zeros + digits == before + (spaces + (prefix + zeros + digits))
    ensures before + prefix + zeros + digits + spaces == before + (prefix + zeros + digits + spaces)
  {
  }

  /** Moving the last digit of what is left in front of the digits already written. */
  lemma NumeralStep(rest: nat, base: Base, letter: char, written: string)
    requires (letter == 'a' || letter == 'A') && rest > 0
    ensures rest / base < rest && 0 <= rest % base < 16
    ensures Numeral(rest, base, letter) + written
            == Numeral(rest / base, base, letter) + ([DigitChar(rest % base, letter)] + written)
    ensures |Numeral(rest, base, letter)| > 0
  {
    hide DigitChar;
    DivMod(rest, base);
  }

  lemma RepeatClipped(c: char, n: int)
    ensures Repeat(c, if n < 0 then 0 else n) == Repeat(c, n)
  {
  }

  /** The alternative form means nothing to signed and decimal conversions, nor to the printer itself. */
  lemma IgnoresAlternate(value: int, positive: string, s: Spec)
    ensures SignedConversion(value, positive, s) == SignedConversion(value, positive, s.(alternate := false))
  {
  }

  lemma PrintedIgnoresAlternate(value: nat, s: Spec)
    ensures forall base: Base, prefix: string, letter | letter == 'a' || letter == 'A' ::
              PrintedInteger(value, base, letter, prefix, s.(alternate := false)) == PrintedInteger(value, base, letter, prefix, s)
  {
  }

  lemma HexAgrees(value: nat, upper: bool, s: Spec)
    requires !(s.left && s.zero)
    ensures var prefix := if s.alternate && value != 0 then (if upper then "0X" else "0x") else "";
            PrintedInteger(value, 16, if upper then 'A' else 'a', prefix, s) == HexConversion(value, upper, s)
  {
    var prefix := if s.alternate && value != 0 then (if upper then "0X" else "0x") else "";
    PrefixedAgrees(value, 16, if upper then 'A' else 'a', prefix, s);
  }

  lemma DecimalAgrees(value: nat, prefix: string, s: Spec)
    requires !(s.left && s.zero) && prefix != "0"
    ensures PrintedInteger(value, 10, 'a', prefix, s) == Decimal(value, prefix, s)
  {
    PrefixedAgrees(value, 10, 'a', prefix, s);
  }
}
