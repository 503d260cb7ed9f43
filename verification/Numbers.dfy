/** Texts converted to numbers by unary plus, as far as order numbers go: natural numbers in any notation.

    The grammar is that of `StringNumericLiteral` in section 7.1.4.1 of ECMA-262. Values are exact decimals here; the
    source rounds them to doubles. */
module Numbers {
  import opened Options
  import Amounts

  function Trim(s: string): string
    decreases |s|
  {
    if s == "" then s
    else if Amounts.IsSpace(s[0]) then Trim(s[1..])
    else if Amounts.IsSpace(s[|s| - 1]) then Trim(s[..|s| - 1])
    else s
  }

  // ---------------------------------------------------------------------------
  // Hexadecimal, octal and binary notation
  // ---------------------------------------------------------------------------

  function DigitIn(c: char): Option<nat> {
    if Amounts.IsDigit(c) then Some(Amounts.DigitValue(c))
    else if 'a' <= c <= 'f' then Some(10 + (c - 'a') as nat)
    else if 'A' <= c <= 'F' then Some(10 + (c - 'A') as nat)
    else None
  }

  predicate AllIn(radix: nat, s: string) {
    forall c | c in s :: DigitIn(c).Some? && DigitIn(c).value < radix
  }

  function ValueIn(radix: nat, s: string): nat
    requires AllIn(radix, s)
  {
    if s == "" then 0 else radix * ValueIn(radix, s[..|s| - 1]) + DigitIn(s[|s| - 1]).value
  }

  function Radix(c: char): Option<nat> {
    if c == 'x' || c == 'X' then Some(16)
    else if c == 'o' || c == 'O' then Some(8)
    else if c == 'b' || c == 'B' then Some(2)
    else None
  }

  predicate HasRadix(t: string) {
    2 <= |t| && t[0] == '0' && Radix(t[1]).Some?
  }

  function WithRadix(t: string): Option<nat>
    requires HasRadix(t)
  {
    var radix, digits := Radix(t[1]).value, t[2..];
    if digits != "" && AllIn(radix, digits) then Some(ValueIn(radix, digits)) else None
  }

  // ---------------------------------------------------------------------------
  // Decimal notation
  // ---------------------------------------------------------------------------

  function FirstE(s: string): (i: nat)
    ensures i <= |s| && 'e' !in s[..i] && 'E' !in s[..i] && (i < |s| ==> s[i] == 'e' || s[i] == 'E')
  {
    if s == "" || s[0] == 'e' || s[0] == 'E' then 0 else 1 + FirstE(s[1..])
  }

  predicate Signed(s: string) {
    s != "" && (s[0] == '+' || s[0] == '-')
  }

  function Unsigned(s: string): string {
    if Signed(s) then s[1..] else s
  }

  predicate IsNegative(s: string) {
    s != "" && s[0] == '-'
  }

  /** Digits with an optional sign. */
  function Exponent(s: string): Option<int> {
    var digits := Unsigned(s);
    if digits == "" || !Amounts.AllDigits(digits) then None
    else
      var size: int := Amounts.Value(digits);
      Some(if IsNegative(s) then -size else size)
  }

  /** `value` times ten to the power of `exponent`, if that is a natural number. */
  function Scaled(value: nat, exponent: int): (r: Option<nat>)
    ensures r.Some? ==> if 0 <= exponent then r.value == value * Amounts.Pow10(exponent)
                        else r.value * Amounts.Pow10(-exponent) == value
  {
    if 0 <= exponent then Some(value * Amounts.Pow10(exponent))
    else
      PowIsPositive(-exponent);
      if value % Amounts.Pow10(-exponent) == 0 then Some(value / Amounts.Pow10(-exponent)) else None
  }

  lemma PowIsPositive(n: nat)
    ensures 0 < Amounts.Pow10(n)
  {
  }

  /** Digits with an optional point among them, before an exponent. */
  function Mantissa(m: string, exponent: int): Option<nat> {
    var i := Amounts.FirstDot(m);
    var whole, fraction := m[..i], if i == |m| then "" else m[i + 1..];
    if whole + fraction == "" || !Amounts.AllDigits(whole + fraction) then None
    else Scaled(Amounts.Value(whole + fraction), exponent - |fraction|)
  }

  function Decimal(t: string): Option<nat> {
    var u := Unsigned(t);
    var i := FirstE(u);
    var exponent := if i == |u| then Some(0) else Exponent(u[i + 1..]);
    if exponent.None? then None
    else
      var n := Mantissa(u[..i], exponent.value);
      if IsNegative(t) && n != Some(0) then None else n
  }

  /** The natural number that a text is converted to. Spaces around it are ignored, and nothing but spaces is zero.
      Infinite, negative and fractional numbers are no order numbers, as little as what is no number at all. */
  function NumberOf(s: string): Option<nat> {
    var t := Trim(s);
    if t == "" then Some(0) else if HasRadix(t) then WithRadix(t) else Decimal(t)
  }

  // ---------------------------------------------------------------------------
  // What is and what is not a number
  // ---------------------------------------------------------------------------

  lemma {:induction false} TrimKeepsFirst(s: string)
    requires s != "" && !Amounts.IsSpace(s[0])
    ensures Trim(s) != "" && Trim(s)[0] == s[0]
    decreases |s|
  {
    if Amounts.IsSpace(s[|s| - 1]) {
      TrimKeepsFirst(s[..|s| - 1]);
    }
  }

  lemma MantissaStartsRight(m: string, exponent: int)
    ensures Mantissa(m, exponent).Some? ==> m != "" && (Amounts.IsDigit(m[0]) || m[0] == '.')
  {
    var i := Amounts.FirstDot(m);
    if 0 < i {
      assert m[0] == m[..i][0] && m[..i][0] in m[..i] + (if i == |m| then "" else m[i + 1..]);
    }
  }

  lemma DecimalStartsRight(t: string)
    ensures Decimal(t).Some? ==> t != "" && (Amounts.IsDigit(t[0]) || t[0] == '.' || Signed(t))
  {
    hide Mantissa, Exponent;
    var i := FirstE(t);
    if i == |t| {
      assert t[..i] == t;
      MantissaStartsRight(t, 0);
    } else if Exponent(t[i + 1..]).Some? {
      MantissaStartsRight(t[..i], Exponent(t[i + 1..]).value);
    }
  }

  /** A text that begins with neither a digit nor a sign nor a point is no number. */
  lemma LetterFirstIsNoNumber(s: string)
    requires s != "" && !Amounts.IsSpace(s[0])
    requires !Amounts.IsDigit(s[0]) && s[0] != '+' && s[0] != '-' && s[0] != '.'
    ensures NumberOf(s).None?
  {
    hide Decimal, Trim, Amounts.IsSpace;
    TrimKeepsFirst(s);
    DecimalStartsRight(Trim(s));
  }

  lemma DigitsAreMantissa(m: string, exponent: nat)
    requires m != "" && Amounts.AllDigits(m)
    ensures Mantissa(m, exponent) == Some(Amounts.Value(m) * Amounts.Pow10(exponent))
  {
    hide Amounts.Value, Amounts.Pow10;
    var i := Amounts.FirstDot(m);
    assert forall j | 0 <= j < |m| :: m[j] in m && Amounts.IsDigit(m[j]);
    assert m[..i] + "" == m;
  }

  /** Digits and signs are no spaces. */
  lemma IsVisible(c: char)
    requires Amounts.IsDigit(c) || c == '+' || c == '-'
    ensures !Amounts.IsSpace(c)
  {
  }

  lemma NoTrim(s: string)
    requires s != "" && !Amounts.IsSpace(s[0]) && !Amounts.IsSpace(s[|s| - 1])
    ensures Trim(s) == s
  {
    hide Amounts.IsSpace;
  }

  lemma DigitsAreDecimal(m: string)
    requires m != "" && Amounts.AllDigits(m)
    ensures !HasRadix(m) && Decimal(m) == Mantissa(m, 0)
  {
    hide Mantissa, Exponent;
    assert forall j | 0 <= j < |m| :: m[j] in m && Amounts.IsDigit(m[j]);
    assert m[..|m|] == m;
  }

  /** A printed number is read back. */
  lemma NumeralIsNumber(n: nat)
    ensures NumberOf(Amounts.Numeral(n)) == Some(n)
  {
    hide Amounts.Numeral, Amounts.Value, Decimal, Mantissa, HasRadix, Amounts.IsSpace;
    var m := Amounts.Numeral(n);
    assert m[0] in m && m[|m| - 1] in m;
    IsVisible(m[0]);
    IsVisible(m[|m| - 1]);
    NoTrim(m);
    DigitsAreDecimal(m);
    DigitsAreMantissa(m, 0);
    Amounts.ValueOfNumeral(n);
    assert Amounts.Pow10(0) == 1;
  }

  lemma FirstEAfterDigits(m: string, x: string)
    requires Amounts.AllDigits(m)
    ensures FirstE(m + "e" + x) == |m|
  {
    var t := m + "e" + x;
    var i := FirstE(t);
    assert forall j | 0 <= j < |m| :: t[j] == m[j] && m[j] in m && Amounts.IsDigit(t[j]);
    assert t[|m|] == 'e' && 'e' in t[..|m| + 1];
  }

  lemma ExponentOfDigits(x: string)
    requires x != "" && Amounts.AllDigits(x)
    ensures Exponent(x) == Some(Amounts.Value(x))
  {
    hide Amounts.Value;
    assert x[0] in x;
  }

  lemma DigitsWithExponent(m: string, x: string)
    requires m != "" && x != "" && Amounts.AllDigits(m) && Amounts.AllDigits(x)
    ensures Decimal(m + "e" + x) == Mantissa(m, Amounts.Value(x))
  {
    hide Amounts.AllDigits, Amounts.Value, Mantissa, FirstE, Exponent;
    var t := m + "e" + x;
    StartsWithDigit(m, "e" + x);
    FirstEAfterDigits(m, x);
    assert t[..|m|] == m && t[|m| + 1..] == x;
    ExponentOfDigits(x);
  }

  lemma StartsWithDigit(m: string, rest: string)
    requires m != "" && Amounts.AllDigits(m)
    ensures !Signed(m + rest)
  {
    assert (m + rest)[0] == m[0] && m[0] in m;
  }

  lemma FramedByDigits(t: string)
    requires 2 <= |t| && Amounts.IsDigit(t[|t| - 1])
    requires Amounts.IsDigit(t[0]) || Signed(t)
    requires t[0] == '0' ==> Radix(t[1]).None?
    ensures NumberOf(t) == Decimal(t)
  {
    hide Decimal, Amounts.IsSpace, Radix;
    IsVisible(t[0]);
    IsVisible(t[|t| - 1]);
    NoTrim(t);
  }

  /** Another way to write a number: with an exponent. */
  lemma ExponentIsNumber(n: nat, k: nat)
    ensures NumberOf(Amounts.Numeral(n) + "e" + Amounts.Numeral(k)) == Some(n * Amounts.Pow10(k))
  {
    hide Amounts.Numeral, Amounts.Value, Amounts.Pow10, Mantissa, NumberOf, Decimal;
    var m, x := Amounts.Numeral(n), Amounts.Numeral(k);
    var t := m + "e" + x;
    assert t[0] == m[0] && m[0] in m && t[|t| - 1] == x[|x| - 1] && x[|x| - 1] in x;
    assert if 1 < |m| then t[1] == m[1] && m[1] in m else t[1] == 'e';
    FramedByDigits(t);
    DigitsWithExponent(m, x);
    DigitsAreMantissa(m, k);
    Amounts.ValueOfNumeral(n);
    Amounts.ValueOfNumeral(k);
  }

  lemma SignedDecimal(m: string, c: char)
    requires m != "" && Amounts.AllDigits(m) && (c == '+' || c == '-')
    ensures var n := Mantissa(m, 0); Decimal([c] + m) == if c == '-' && n != Some(0) then None else n
  {
    hide Mantissa, Exponent;
    var t := [c] + m;
    assert Unsigned(t) == m;
    assert forall j | 0 <= j < |m| :: m[j] in m && Amounts.IsDigit(m[j]);
    assert m[..|m|] == m;
  }

  /** A plus changes nothing; with a minus only zero is left. */
  lemma SignedIsNumber(n: nat)
    ensures NumberOf("+" + Amounts.Numeral(n)) == Some(n)
    ensures NumberOf("-" + Amounts.Numeral(n)) == if n == 0 then Some(0) else None
  {
    hide Amounts.Numeral, Amounts.Value, Mantissa, NumberOf, Decimal;
    var m := Amounts.Numeral(n);
    assert ("+" + m)[|m|] == ("-" + m)[|m|] == m[|m| - 1] && m[|m| - 1] in m;
    FramedByDigits("+" + m);
    FramedByDigits("-" + m);
    SignedDecimal(m, '+');
    SignedDecimal(m, '-');
    DigitsAreMantissa(m, 0);
    Amounts.ValueOfNumeral(n);
    assert Amounts.Pow10(0) == 1;
  }

  /** Letters stand for ten to fifteen, small and capital ones alike, and there are no other digits. */
  lemma DigitsOfSixteen(d: nat, c: char)
    requires d < 16
    ensures DigitIn("0123456789abcdef"[d]) == DigitIn("0123456789ABCDEF"[d]) == Some(d)
    ensures DigitIn(c).Some? ==> c in "0123456789abcdefABCDEF"
  {
  }

  lemma OneMoreDigit(radix: nat, digits: string, c: char)
    requires AllIn(radix, digits)
    ensures AllIn(radix, digits + [c]) <==> DigitIn(c).Some? && DigitIn(c).value < radix
    ensures AllIn(radix, digits + [c]) ==>
              ValueIn(radix, digits + [c]) == radix * ValueIn(radix, digits) + DigitIn(c).value
  {
    hide DigitIn;
    assert (digits + [c])[..|digits|] == digits && c in digits + [c];
  }

  /** Notations with a radix have digits below it, at least one, and each further one multiplies what is before it. */
  lemma RadixIsPositional(x: char, digits: string, c: char)
    requires Radix(x).Some? && AllIn(Radix(x).value, digits)
    ensures var radix := Radix(x).value;
            WithRadix("0" + [x] + digits + [c]) ==
            if DigitIn(c).Some? && DigitIn(c).value < radix
            then Some(radix * ValueIn(radix, digits) + DigitIn(c).value)
            else None
    ensures WithRadix("0" + [x] + digits) == if digits == "" then None else Some(ValueIn(Radix(x).value, digits))
  {
    hide AllIn, ValueIn, DigitIn;
    OneMoreDigit(Radix(x).value, digits, c);
    assert ("0" + [x] + digits + [c])[2..] == digits + [c];
    assert ("0" + [x] + digits)[2..] == digits;
  }

  /** Nothing is zero. */
  lemma EmptyIsZero()
    ensures NumberOf("") == Some(0)
  {
  }

  /** Hexadecimal notation. */
  lemma HexadecimalIsNumber()
    ensures NumberOf("0x10") == Some(16)
  {
    hide Decimal;
    assert "0x10"[2..] == "10" && ValueIn(16, "10") == 16;
  }

  /** Octal notation. */
  lemma OctalIsNumber()
    ensures NumberOf("0o10") == Some(8)
  {
    hide Decimal;
    assert "0o10"[2..] == "10" && ValueIn(8, "10") == 8;
  }

  /** Binary notation. */
  lemma BinaryIsNumber()
    ensures NumberOf("0b10") == Some(2)
  {
    hide Decimal;
    assert "0b10"[2..] == "10" && ValueIn(2, "10") == 2;
  }
}
