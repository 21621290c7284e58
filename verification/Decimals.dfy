/** Simple finite decimals as text: parsing to (unscaled integer, scale), and printing back. */
module Decimals {

  datatype Parsed = Decimal(unscaled: int, scale: nat) | Refused(reason: Reason)

  datatype Reason = TooLong | NotSimple

  const MAX_LENGTH: nat := 100

  function Pow10(n: nat): (p: nat)
    ensures p >= 1
  {
    if n == 0 then 1 else 10 * Pow10(n - 1)
  }

  // ---------- digits ----------

  predicate IsDigit(c: char) { '0' <= c <= '9' }

  predicate AllDigits(s: string) { forall i :: 0 <= i < |s| ==> IsDigit(s[i]) }

  function DigitValue(c: char): (d: nat)
    requires IsDigit(c)
    ensures d < 10
  {
    (c - '0') as nat
  }

  /** int(digits); leading zeros count for nothing. */
  function Value(s: string): nat
    requires AllDigits(s)
  {
    if s == "" then 0 else 10 * Value(s[..|s| - 1]) + DigitValue(s[|s| - 1])
  }

  function DigitOf(d: nat): (c: char)
    requires d < 10
    ensures IsDigit(c) && DigitValue(c) == d
  {
    '0' + d as char
  }

  /** str(n) */
  function Numeral(n: nat): (s: string)
    ensures s != "" && AllDigits(s)
  {
    if n < 10 then [DigitOf(n)] else Numeral(n / 10) + [DigitOf(n % 10)]
  }

  function Zeros(n: nat): (s: string)
    ensures |s| == n && AllDigits(s)
  {
    seq(n, i => '0')
  }

  /** s.rjust(width, "0") */
  function RightJustified(s: string, width: nat): string {
    if |s| >= width then s else Zeros(width - |s|) + s
  }

  lemma {:induction false} NumeralValue(n: nat)
    ensures Value(Numeral(n)) == n
  {
    if n < 10 {
      assert Numeral(n)[..0] == "";
    } else {
      NumeralValue(n / 10);
      assert Numeral(n)[..|Numeral(n)| - 1] == Numeral(n / 10);
    }
  }

  lemma {:induction false} LeadingZeros(k: nat, s: string)
    requires AllDigits(s)
    ensures Value(Zeros(k) + s) == Value(s)
  {
    if s == "" {
      if k > 0 {
        LeadingZeros(k - 1, s);
        assert Zeros(k) + s == Zeros(k);
        assert Zeros(k)[..k - 1] == Zeros(k - 1) + s;
      } else {
        assert Zeros(k) + s == "";
      }
    } else {
      LeadingZeros(k, s[..|s| - 1]);
      assert (Zeros(k) + s)[..k + |s| - 1] == Zeros(k) + s[..|s| - 1];
    }
  }

  lemma {:induction false} ValueAppend(a: string, b: string)
    requires AllDigits(a) && AllDigits(b)
    ensures Value(a + b) == Value(a) * Pow10(|b|) + Value(b)
  {
    if b == "" {
      assert a + b == a;
    } else {
      var init := b[..|b| - 1];
      ValueAppend(a, init);
      assert (a + b)[..|a + b| - 1] == a + init;
      TenTimes(Value(a), Pow10(|init|));
    }
  }

  lemma TenTimes(v: int, p: int)
    ensures v * (10 * p) == 10 * (v * p)
  {
  }

  // ---------- parsing ----------

  function StripSign(s: string): string {
    if s != "" && (s[0] == '+' || s[0] == '-') then s[1..] else s
  }

  /** Where the first "." is, or the length. */
  function DotAt(s: string): (i: nat)
    ensures i <= |s|
    ensures forall j :: 0 <= j < i ==> s[j] != '.'
    ensures i < |s| ==> s[i] == '.'
  {
    if s == "" || s[0] == '.' then 0 else 1 + DotAt(s[1..])
  }

  function Whole(s: string): string { StripSign(s)[..DotAt(StripSign(s))] }

  function Fraction(s: string): string {
    var u := StripSign(s);
    if DotAt(u) < |u| then u[DotAt(u) + 1..] else ""
  }

  /** `[+-]?(\d+(\.\d*)?|\.\d+)`, with the ASCII digits. */
  predicate Simple(s: string) { AllDigits(Whole(s)) && AllDigits(Fraction(s)) && Whole(s) + Fraction(s) != "" }

  /** _parse_decimal without its length cap. */
  function ParseSimple(s: string): Parsed {
    if !Simple(s) then Refused(NotSimple)
    else
      var digits := (if Whole(s) == "" then "0" else Whole(s)) + Fraction(s);
      Decimal(Signed(s, Value(digits)), |Fraction(s)|)
  }

  function Negate(negative: bool, n: int): int { if negative then -n else n }

  function Signed(s: string, n: int): int { Negate(s != "" && s[0] == '-', n) }

  function Parse(s: string): Parsed {
    if |s| > MAX_LENGTH then Refused(TooLong) else ParseSimple(s)
  }

  /** _scaled_decimal_string */
  function Print(value: int, scale: nat): string {
    var digits := RightJustified(Numeral(if value < 0 then -value else value), scale + 1);
    var text := if scale == 0 then digits else digits[..|digits| - scale] + "." + digits[|digits| - scale..];
    if value < 0 then "-" + text else text
  }

  // ---------- what they mean ----------

  lemma ParseDigits(s: string)
    requires Simple(s)
    ensures AllDigits(Whole(s) + Fraction(s))
    ensures ParseSimple(s) == Decimal(Signed(s, Value(Whole(s) + Fraction(s))), |Fraction(s)|)
  {
    if Whole(s) == "" {
      assert Zeros(1) == "0";
      LeadingZeros(1, Fraction(s));
      assert "" + Fraction(s) == Fraction(s);
    }
  }

  /** The number written: sign, whole part and fraction over a power of ten. */
  lemma ParseMeaning(s: string)
    requires Simple(s)
    ensures
      ParseSimple(s) == Decimal(Signed(s, Value(Whole(s)) * Pow10(|Fraction(s)|) + Value(Fraction(s))), |Fraction(s)|)
  {
    ParseDigits(s);
    ValueAppend(Whole(s), Fraction(s));
  }

  /** A text of the grammar is accepted, and taken apart as it was put together. */
  lemma GrammarIsSimple(sign: string, whole: string, dot: bool, fraction: string)
    requires sign == "" || sign == "+" || sign == "-"
    requires AllDigits(whole) && AllDigits(fraction) && (whole != "" || (dot && fraction != ""))
    requires (!dot ==> fraction == "")
    ensures var s := sign + whole + (if dot then "." + fraction else "");
      Simple(s) && Whole(s) == whole && Fraction(s) == fraction
  {
    var tail := if dot then "." + fraction else "";
    var s := sign + whole + tail;
    var u := whole + tail;
    assert StripSign(s) == u by {
      if sign == "" {
        assert s == u;
        if whole != "" { assert u[0] == whole[0]; } else { assert u[0] == '.'; }
      } else {
        assert s == [sign[0]] + u;
      }
    }
    DotAfterDigits(whole, tail);
    assert u[..|whole|] == whole;
    if dot { assert u[|whole| + 1..] == fraction; }
  }

  /** `[+-]?(\d+(\.\d*)?|\.\d+)`, read as a way to put the text together. */
  predicate Written(s: string, sign: string, whole: string, dot: bool, fraction: string) {
    && (sign == "" || sign == "+" || sign == "-")
    && AllDigits(whole) && AllDigits(fraction)
    && (whole != "" || (dot && fraction != "")) && (!dot ==> fraction == "")
    && s == sign + whole + (if dot then "." + fraction else "")
  }

  lemma SplitAtDot(u: string)
    ensures u == u[..DotAt(u)] + (if DotAt(u) < |u| then "." + u[DotAt(u) + 1..] else "")
  {
    var i := DotAt(u);
    hide DotAt;
    if i < |u| { CutAt(u, i); }
  }

  lemma CutAt<T>(u: seq<T>, i: nat)
    requires i < |u|
    ensures u == u[..i] + ([u[i]] + u[i + 1..])
  {
  }

  lemma TakenApart(s: string)
    requires Simple(s)
    ensures exists sign: string, whole: string, dot: bool, fraction: string :: Written(s, sign, whole, dot, fraction)
  {
    var u := StripSign(s);
    var sign, dot := s[..|s| - |u|], DotAt(u) < |u|;
    var tail := if dot then "." + Fraction(s) else "";
    SplitAtDot(u);
    assert s == sign + u && (sign == "" || sign == "+" || sign == "-");
    hide DotAt, AllDigits, StripSign;
    assert sign + (Whole(s) + tail) == sign + Whole(s) + tail;
    assert Written(s, sign, Whole(s), dot, Fraction(s));
  }

  /** The accepted texts are exactly those of the grammar, and each is written in one way only. */
  lemma SimpleIsGrammar(s: string)
    ensures Simple(s) <==>
      exists sign: string, whole: string, dot: bool, fraction: string :: Written(s, sign, whole, dot, fraction)
    ensures forall sign: string, whole: string, dot: bool, fraction: string ::
      Written(s, sign, whole, dot, fraction) ==> whole == Whole(s) && fraction == Fraction(s)
  {
    if Simple(s) { TakenApart(s); }
    hide Simple, Whole, Fraction;
    forall sign: string, whole: string, dot: bool, fraction: string | Written(s, sign, whole, dot, fraction)
      ensures Simple(s) && whole == Whole(s) && fraction == Fraction(s)
    {
      GrammarIsSimple(sign, whole, dot, fraction);
    }
  }

  lemma {:induction false} DotAfterDigits(whole: string, tail: string)
    requires AllDigits(whole) && (tail == "" || tail[0] == '.')
    ensures DotAt(whole + tail) == |whole|
  {
    if whole == "" {
      assert whole + tail == tail;
    } else {
      assert (whole + tail)[1..] == whole[1..] + tail;
      DotAfterDigits(whole[1..], tail);
    }
  }

  /** Printing and parsing undo each other for every integer and every scale. */
  lemma ParsePrint(value: int, scale: nat)
    ensures ParseSimple(Print(value, scale)) == Decimal(value, scale)
  {
    var n: nat := if value < 0 then -value else value;
    var digits := RightJustified(Numeral(n), scale + 1);
    JustifiedValue(n, scale + 1);
    PrintShape(value, scale, digits);
    ParseSplit(if value < 0 then "-" else "", digits, scale);
  }

  /** The digits after a sign, with the last `scale` of them behind a point. */
  function Pointed(sign: string, digits: string, scale: nat): string
    requires |digits| >= scale
  {
    sign + digits[..|digits| - scale] + (if scale > 0 then "." + digits[|digits| - scale..] else "")
  }

  lemma ParseSplit(sign: string, digits: string, scale: nat)
    requires sign == "" || sign == "-"
    requires AllDigits(digits) && |digits| > scale
    ensures ParseSimple(Pointed(sign, digits, scale)) == Decimal(Negate(sign == "-", Value(digits)), scale)
  {
    var whole, fraction := digits[..|digits| - scale], digits[|digits| - scale..];
    assert whole + fraction == digits;
    ParseGrammar(sign, whole, scale > 0, fraction);
  }

  lemma ParseGrammar(sign: string, whole: string, dot: bool, fraction: string)
    requires sign == "" || sign == "+" || sign == "-"
    requires AllDigits(whole) && AllDigits(fraction) && (whole != "" || (dot && fraction != ""))
    requires (!dot ==> fraction == "")
    ensures AllDigits(whole + fraction)
    ensures ParseSimple(sign + whole + (if dot then "." + fraction else ""))
      == Decimal(Negate(sign == "-", Value(whole + fraction)), |fraction|)
  {
    var s := sign + whole + (if dot then "." + fraction else "");
    GrammarIsSimple(sign, whole, dot, fraction);
    ParseDigits(s);
    FirstCharacter(sign, whole, if dot then "." + fraction else "");
  }

  lemma FirstCharacter(sign: string, whole: string, tail: string)
    requires sign == "" || sign == "+" || sign == "-"
    requires AllDigits(whole) && (whole == "" ==> tail != "" && tail[0] == '.')
    ensures (sign + whole + tail)[0] == '-' <==> sign == "-"
  {
    if sign == "" {
      if whole != "" {
        assert (sign + whole + tail)[0] == whole[0];
      } else {
        assert (sign + whole + tail)[0] == tail[0];
      }
    } else {
      assert (sign + whole + tail)[0] == sign[0];
    }
  }

  lemma JustifiedValue(n: nat, width: nat)
    ensures var digits := RightJustified(Numeral(n), width);
      AllDigits(digits) && Value(digits) == n && |digits| >= width && |digits| >= 1
  {
    NumeralValue(n);
    if |Numeral(n)| < width { LeadingZeros(width - |Numeral(n)|, Numeral(n)); }
  }

  lemma PrintShape(value: int, scale: nat, digits: string)
    requires digits == RightJustified(Numeral(if value < 0 then -value else value), scale + 1) && |digits| >= scale
    ensures Print(value, scale) == Pointed(if value < 0 then "-" else "", digits, scale)
  {
    var whole := digits[..|digits| - scale];
    var tail := if scale > 0 then "." + digits[|digits| - scale..] else "";
    var text := if scale == 0 then digits else digits[..|digits| - scale] + "." + digits[|digits| - scale..];
    assert text == whole + tail by {
      if scale == 0 {
        assert whole == digits;
      } else {
        assert whole + "." + digits[|digits| - scale..] == whole + tail;
      }
    }
    SignFirst(if value < 0 then "-" else "", whole, tail);
  }

  lemma SignFirst(sign: string, whole: string, tail: string)
    ensures sign + whole + tail == sign + (whole + tail)
    ensures "" + whole + tail == whole + tail
  {
    assert "" + whole == whole;
  }

  /** Printing what was parsed keeps the number and the scale. */
  lemma PrintParsed(s: string)
    requires ParseSimple(s).Decimal?
    ensures ParseSimple(Print(ParseSimple(s).unscaled, ParseSimple(s).scale)) == ParseSimple(s)
  {
    ParsePrint(ParseSimple(s).unscaled, ParseSimple(s).scale);
  }
}
