/** Amounts as the payment page prints them and as its notifications are read back.

    Amounts are exact decimals here; the source goes through doubles. */
module Amounts {
  import opened Options

  // ---------------------------------------------------------------------------
  // Decimal numerals
  // ---------------------------------------------------------------------------

  predicate IsDigit(c: char) {
    '0' <= c <= '9'
  }

  predicate AllDigits(s: string) {
    forall c | c in s :: IsDigit(c)
  }

  function DigitChar(d: nat): (c: char)
    requires d < 10
    ensures IsDigit(c)
  {
    '0' + d as char
  }

  function DigitValue(c: char): (d: nat)
    requires IsDigit(c)
    ensures d < 10
  {
    (c - '0') as nat
  }

  function Numeral(n: nat): (s: string)
    ensures s != "" && AllDigits(s)
  {
    if n < 10 then [DigitChar(n)] else Numeral(n / 10) + [DigitChar(n % 10)]
  }

  function Value(s: string): nat
    requires AllDigits(s)
  {
    if s == "" then 0 else 10 * Value(s[..|s| - 1]) + DigitValue(s[|s| - 1])
  }

  lemma {:induction false} ValueOfNumeral(n: nat)
    ensures Value(Numeral(n)) == n
  {
    if n < 10 {
      assert [DigitChar(n)][..0] == "";
    } else {
      ValueOfNumeral(n / 10);
      assert Numeral(n)[..|Numeral(n)| - 1] == Numeral(n / 10);
    }
  }

  /** One more digit on the right. */
  lemma ValueOfLonger(s: string, c: char)
    requires AllDigits(s) && IsDigit(c)
    ensures AllDigits(s + [c]) && Value(s + [c]) == 10 * Value(s) + DigitValue(c)
  {
    assert (s + [c])[..|s|] == s;
  }

  // ---------------------------------------------------------------------------
  // Printing and reading
  // ---------------------------------------------------------------------------

  function FormatAmount(kopecks: int): string {
    var safe: nat := if kopecks < 0 then 0 else kopecks;
    var rest := Numeral(safe % 100);
    Numeral(safe / 100) + "." + (if |rest| < 2 then "0" + rest else rest)
  }

  predicate IsSpace(c: char) {
    c in [' ', '\t', '\n', '\r', '\U{0B}', '\U{0C}', '\U{A0}', '\U{1680}', '\U{2028}', '\U{2029}', '\U{202F}',
          '\U{205F}', '\U{3000}', '\U{FEFF}'] || '\U{2000}' <= c <= '\U{200A}'
  }

  /** The white space and line terminators of sections 12.2 and 12.3 of ECMA-262, by their code points. */
  lemma SpacesByCodePoint(c: char)
    ensures IsSpace(c) <==>
            var n := c as int;
            || 9 <= n <= 13 || n == 32 || n == 160 || n == 5760 || 8192 <= n <= 8202 || 8232 <= n <= 8233
            || n == 8239 || n == 8287 || n == 12288 || n == 65279
  {
  }

  function Strip(s: string): string {
    if s == "" then "" else (if IsSpace(s[0]) then "" else [s[0]]) + Strip(s[1..])
  }

  function ReplaceComma(s: string): string {
    if s == "" then "" else if s[0] == ',' then "." + s[1..] else [s[0]] + ReplaceComma(s[1..])
  }

  function Normalize(s: string): string {
    ReplaceComma(Strip(s))
  }

  function FirstDot(s: string): (i: nat)
    ensures i <= |s| && '.' !in s[..i] && (i < |s| ==> s[i] == '.')
  {
    if s == "" || s[0] == '.' then 0 else 1 + FirstDot(s[1..])
  }

  function ToKopecks(value: Option<string>): Option<nat> {
    if value.None? then None
    else
      var s := Normalize(value.value);
      var i := FirstDot(s);
      if s[..i] == "" || !AllDigits(s[..i]) then None
      else if i == |s| then Some(100 * Value(s))
      else
        var f := s[i + 1..];
        if !(1 <= |f| <= 2 && AllDigits(f)) then None
        else Some(100 * Value(s[..i]) + (if |f| == 1 then 10 else 1) * Value(f))
  }

  // ---------------------------------------------------------------------------
  // The grammar: digits, optionally a point and one or two more digits
  // ---------------------------------------------------------------------------

  predicate IsDecimal(whole: string, fraction: string) {
    whole != "" && AllDigits(whole) && |fraction| <= 2 && AllDigits(fraction)
  }

  function Written(whole: string, fraction: string): string {
    if fraction == "" then whole else whole + "." + fraction
  }

  function Pow10(n: nat): nat {
    if n == 0 then 1 else 10 * Pow10(n - 1)
  }

  lemma FirstDotOfWritten(whole: string, fraction: string)
    requires IsDecimal(whole, fraction)
    ensures FirstDot(Written(whole, fraction)) == |whole|
  {
    var s := Written(whole, fraction);
    var i := FirstDot(s);
    assert forall j | 0 <= j < |whole| :: s[j] == whole[j] && IsDigit(whole[j]);
    assert forall j | 0 <= j < |s| && s[j] == '.' :: |whole| <= j;
    assert i < |s| ==> s[i] == '.';
    assert |whole| < |s| ==> s[|whole|] == '.' && '.' in s[..|whole| + 1];
  }

  lemma {:induction false} ValueOfJoined(whole: string, fraction: string)
    requires AllDigits(whole) && AllDigits(fraction)
    ensures AllDigits(whole + fraction)
    ensures Value(whole + fraction) == Pow10(|fraction|) * Value(whole) + Value(fraction)
    decreases |fraction|
  {
    if fraction == "" {
      assert whole + fraction == whole;
    } else {
      var n := |fraction| - 1;
      var shorter, c := fraction[..n], fraction[n];
      ValueOfJoined(whole, shorter);
      assert whole + fraction == whole + shorter + [c];
      ValueOfLonger(whole + shorter, c);
      assert Value(whole + fraction) == 10 * (Pow10(n) * Value(whole)) + 10 * Value(shorter) + DigitValue(c);
      Tenfold(Pow10(n), Value(whole));
    }
  }

  lemma Tenfold(p: nat, v: nat)
    ensures 10 * (p * v) == (10 * p) * v
  {
  }

  ghost predicate Reads(s: string, v: nat, whole: string, fraction: string) {
    && IsDecimal(whole, fraction)
    && s == Written(whole, fraction)
    && AllDigits(whole + fraction)
    && v * Pow10(|fraction|) == 100 * Value(whole + fraction)
  }

  lemma DecimalIsRead(raw: string, whole: string, fraction: string, v: nat)
    requires Reads(Normalize(raw), v, whole, fraction)
    ensures ToKopecks(Some(raw)) == Some(v)
  {
    hide Normalize;
    FirstDotOfWritten(whole, fraction);
    ValueOfJoined(whole, fraction);
    var s := Normalize(raw);
    assert s[..|whole|] == whole;
    if fraction != "" {
      assert s[|whole| + 1..] == fraction;
      assert Pow10(1) == 10 && Pow10(2) == 100;
    }
  }

  lemma ReadIsDecimal(raw: string, v: nat) returns (whole: string, fraction: string)
    requires ToKopecks(Some(raw)) == Some(v)
    ensures Reads(Normalize(raw), v, whole, fraction)
  {
    var s := Normalize(raw);
    var i := FirstDot(s);
    whole, fraction := s[..i], if i == |s| then "" else s[i + 1..];
    assert s == Written(whole, fraction);
    ReadValue(whole, fraction, v);
  }

  lemma ReadValue(whole: string, fraction: string, v: nat)
    requires IsDecimal(whole, fraction)
    requires v == 100 * Value(whole) +
                  (if fraction == "" then 0 else (if |fraction| == 1 then 10 else 1) * Value(fraction))
    ensures AllDigits(whole + fraction) && v * Pow10(|fraction|) == 100 * Value(whole + fraction)
  {
    ValueOfJoined(whole, fraction);
    assert Pow10(1) == 10 && Pow10(2) == 100;
  }

  /** Exactly the strings of the grammar are read, with exactly their decimal value times one hundred. */
  lemma ReadsExactlyDecimals(raw: string, v: nat)
    ensures ToKopecks(Some(raw)) == Some(v) <==> exists whole, fraction :: Reads(Normalize(raw), v, whole, fraction)
  {
    if ToKopecks(Some(raw)) == Some(v) {
      var whole, fraction := ReadIsDecimal(raw, v);
    } else if whole, fraction :| Reads(Normalize(raw), v, whole, fraction) {
      DecimalIsRead(raw, whole, fraction, v);
    }
  }

  // ---------------------------------------------------------------------------
  // Round trip
  // ---------------------------------------------------------------------------

  lemma {:induction false} NormalizedAlready(s: string)
    requires forall c | c in s :: !IsSpace(c) && c != ','
    ensures Strip(s) == s && ReplaceComma(s) == s
    decreases |s|
  {
    if s != "" {
      NormalizedAlready(s[1..]);
    }
  }

  function Kopecks(rest: nat): (s: string)
    requires rest < 100
    ensures |s| == 2 && AllDigits(s)
  {
    [DigitChar(rest / 10), DigitChar(rest % 10)]
  }

  lemma KopecksValue(rest: nat)
    requires rest < 100
    ensures Value(Kopecks(rest)) == rest
    ensures Kopecks(rest) == var s := Numeral(rest); if |s| < 2 then "0" + s else s
  {
    ValueOfLonger("", DigitChar(rest / 10));
    ValueOfLonger([DigitChar(rest / 10)], DigitChar(rest % 10));
    assert "" + [DigitChar(rest / 10)] == [DigitChar(rest / 10)];
    assert Kopecks(rest) == [DigitChar(rest / 10)] + [DigitChar(rest % 10)];
    if rest >= 10 {
      assert Numeral(rest) == Numeral(rest / 10) + [DigitChar(rest % 10)];
    }
  }

  lemma FormatIsDecimal(kopecks: nat)
    ensures Reads(FormatAmount(kopecks), kopecks, Numeral(kopecks / 100), Kopecks(kopecks % 100))
  {
    hide Numeral, Kopecks, Value;
    var whole, fraction := Numeral(kopecks / 100), Kopecks(kopecks % 100);
    KopecksValue(kopecks % 100);
    ValueOfNumeral(kopecks / 100);
    ValueOfJoined(whole, fraction);
    assert Pow10(2) == 100;
    assert Value(whole + fraction) == 100 * (kopecks / 100) + kopecks % 100 == kopecks;
  }

  lemma FormatIsNormal(kopecks: int)
    ensures Normalize(FormatAmount(kopecks)) == FormatAmount(kopecks)
  {
    var s := FormatAmount(kopecks);
    forall c | c in s ensures !IsSpace(c) && c != ',' {
      assert IsDigit(c) || c == '.';
    }
    NormalizedAlready(s);
  }

  /** Every printed amount is read back; a negative amount is printed, and read, as zero. */
  lemma FormattedAmountIsReadBack(kopecks: int)
    ensures ToKopecks(Some(FormatAmount(kopecks))) == Some(if kopecks < 0 then 0 else kopecks)
  {
    var safe: nat := if kopecks < 0 then 0 else kopecks;
    assert FormatAmount(kopecks) == FormatAmount(safe);
    FormatIsNormal(safe);
    FormatIsDecimal(safe);
    DecimalIsRead(FormatAmount(safe), Numeral(safe / 100), Kopecks(safe % 100), safe);
  }

  lemma {:induction false} StripConcat(a: string, b: string)
    ensures Strip(a + b) == Strip(a) + Strip(b)
    decreases |a|
  {
    if a == "" {
      assert a + b == b;
    } else {
      assert (a + b)[1..] == a[1..] + b;
      StripConcat(a[1..], b);
    }
  }

  lemma {:induction false} FirstCommaReplaced(a: string, b: string)
    requires ',' !in a
    ensures ReplaceComma(a + "," + b) == a + "." + b
    decreases |a|
  {
    if a == "" {
      assert a + "," + b == "," + b;
    } else {
      assert (a + "," + b)[1..] == a[1..] + "," + b;
      FirstCommaReplaced(a[1..], b);
    }
  }

  predicate IsPlain(s: string) {
    forall c | c in s :: !IsSpace(c) && c != ','
  }

  lemma CommaIsPoint(a: string, b: string)
    requires IsPlain(a) && IsPlain(b)
    ensures Normalize(a + "," + b) == a + "." + b == Normalize(a + "." + b)
  {
    hide IsSpace;
    NormalizedAlready(a);
    NormalizedAlready(b);
    StripConcat(a + ",", b);
    StripConcat(a, ",");
    NoSpace();
    FirstCommaReplaced(a, b);
    NormalizedAlready(a + "." + b);
  }

  lemma NoSpace()
    ensures Strip(",") == "," && !IsSpace('.') && Strip(" ") == ""
  {
  }

  /** Spaces anywhere are ignored, and a comma is as good as a point. */
  lemma AmountsAsPeopleWriteThem(a: string, b: string)
    ensures ToKopecks(Some(a + " " + b)) == ToKopecks(Some(a + b))
    ensures IsPlain(a) && IsPlain(b) ==> ToKopecks(Some(a + "," + b)) == ToKopecks(Some(a + "." + b))
  {
    hide FirstDot, Strip, IsPlain, ReplaceComma, AllDigits;
    StripConcat(a + " ", b);
    StripConcat(a, " ");
    StripConcat(a, b);
    NoSpace();
    assert Strip(a) + "" + Strip(b) == Strip(a) + Strip(b);
    if IsPlain(a) && IsPlain(b) {
      CommaIsPoint(a, b);
    }
  }

  /** Different amounts are printed differently. */
  lemma FormatIsInjective(a: nat, b: nat)
    requires FormatAmount(a) == FormatAmount(b)
    ensures a == b
  {
    FormattedAmountIsReadBack(a);
    FormattedAmountIsReadBack(b);
  }
}
