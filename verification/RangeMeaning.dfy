/** What a numeric range means in exact arithmetic, whatever its texts look like: when it is accepted, how
    many points it has, and which. */
module RangeMeaning {
  import opened Common
  import opened Results
  import opened Decimals
  import opened Parameters

  /** The number a parsed decimal denotes. */
  function Denoted(d: Parsed): real
    requires d.Decimal?
  {
    Number(d.unscaled, d.scale)
  }

  predicate IsInteger(x: real) { x == x.Floor as real }

  function GridPoint(start: real, step: real, k: nat): real { start + k as real * step }

  /** The k-th point does not lie beyond the end. */
  predicate Reaches(start: real, end: real, step: real, k: nat) {
    if step > 0.0 then GridPoint(start, step, k) <= end else end <= GridPoint(start, step, k)
  }

  /** The scalar is this number, written as the type asks. */
  predicate IsNumber(t: ValueType, v: Scalar, x: real) {
    if t.IntegerType? then v.Whole? && v.n as real == x else v == Float(x)
  }

  // ---------- numbers at one scale ----------

  lemma AtScaleDenotes(d: Parsed, scale: nat)
    requires d.Decimal? && d.scale <= scale
    ensures Number(AtScale(d, scale), scale) == Denoted(d)
  {
    Pow10Add(d.scale, scale - d.scale);
    var p, q := Pow10(d.scale), Pow10(scale - d.scale);
    assert (d.unscaled * q) * p == d.unscaled * (p * q);
    SameReal(AtScale(d, scale), d.unscaled, Pow10(scale), p);
  }

  lemma NumberTimes(x: int, scale: nat)
    ensures Number(x, scale) * Pow10(scale) as real == x as real
  {
  }

  lemma NumberOrder(x: int, y: int, scale: nat)
    ensures x <= y <==> Number(x, scale) <= Number(y, scale)
  {
    var p := Pow10(scale) as real;
    NumberTimes(x, scale);
    NumberTimes(y, scale);
    RealOrder(Number(x, scale), Number(y, scale), p);
  }

  lemma RealOrder(x: real, y: real, p: real)
    requires p > 0.0
    ensures x <= y <==> x * p <= y * p
  {
    assert (y - x) * p == y * p - x * p;
    if x <= y { assert (y - x) * p >= 0.0; } else { assert (x - y) * p > 0.0; }
  }

  lemma NumberGrid(a: int, b: int, k: nat, scale: nat)
    ensures Number(a + k * b, scale) == GridPoint(Number(a, scale), Number(b, scale), k)
  {
    var p := Pow10(scale) as real;
    NumberTimes(a, scale);
    NumberTimes(b, scale);
    NumberTimes(a + k * b, scale);
    var x, y, z := Number(a, scale), Number(b, scale), Number(a + k * b, scale);
    assert (a + k * b) as real == a as real + k as real * b as real;
    assert (x + k as real * y) * p == x * p + k as real * (y * p);
    RealOrder(z, x + k as real * y, p);
    RealOrder(x + k as real * y, z, p);
  }

  lemma NumberIntegral(x: int, scale: nat)
    ensures x % Pow10(scale) == 0 <==> IsInteger(Number(x, scale))
    ensures x % Pow10(scale) == 0 ==> (x / Pow10(scale)) as real == Number(x, scale)
  {
    var p := Pow10(scale);
    NumberTimes(x, scale);
    hide Pow10, Number;
    if x % p == 0 { Quotient(Number(x, scale), x, p, x / p); }
    if IsInteger(Number(x, scale)) { Multiple(x, p, Number(x, scale).Floor); }
  }

  lemma Quotient(y: real, x: int, p: nat, q: int)
    requires p > 0 && y * p as real == x as real && x == q * p
    ensures y == q as real
  {
    assert q as real * p as real == (q * p) as real;
    RealOrder(y, q as real, p as real);
    RealOrder(q as real, y, p as real);
  }

  lemma Multiple(x: int, p: nat, z: int)
    requires p > 0 && z as real * p as real == x as real
    ensures x % p == 0
  {
    assert z as real * p as real == (z * p) as real;
    MultipleRemainder(z, p);
  }

  // ---------- the range ----------

  ghost predicate TypeFits(t: ValueType, start: real, end: real, step: real) {
    t.IntegerType? ==> IsInteger(start) && IsInteger(end) && IsInteger(step)
  }

  predicate Towards(start: real, end: real, step: real) { end == start || (end > start) == (step > 0.0) }

  lemma ReachesScaled(s: int, e: int, d: int, scale: nat, k: nat)
    requires d != 0 && (e == s || (e > s) == (d > 0))
    ensures Reaches(Number(s, scale), Number(e, scale), Number(d, scale), k) <==> k < Abs(e - s) / Abs(d) + 1
  {
    NumberGrid(s, d, k, scale);
    NumberOrder(s + k * d, e, scale);
    NumberOrder(e, s + k * d, scale);
    NumberOrder(d, 0, scale);
    QuotientBound(Abs(e - s), Abs(d), k);
    if d < 0 { assert k * Abs(d) == -(k * d); }
  }

  /** Which ranges are accepted, and why the others are not. */
  lemma RangeDecided(t: ValueType, start: Parsed, end: Parsed, step: Parsed)
    requires start.Decimal? && end.Decimal? && step.Decimal?
    ensures var s, e, d, r := Denoted(start), Denoted(end), Denoted(step), MetaOf(t, start, end, step);
      && (r == Err(ZeroStep) <==> d == 0.0)
      && (r == Err(NotIntegral) <==> d != 0.0 && !TypeFits(t, s, e, d))
      && (r == Err(WrongDirection) <==> d != 0.0 && TypeFits(t, s, e, d) && !Towards(s, e, d))
      && (r == Err(TooManyValues) <==>
            d != 0.0 && TypeFits(t, s, e, d) && Towards(s, e, d) && Reaches(s, e, d, MAX_RANGE_VALUES))
      && (r.Err? ==> r.error in {ZeroStep, NotIntegral, WrongDirection, TooManyValues})
  {
    var scale := Max3(start.scale, end.scale, step.scale);
    var s, e, d := AtScale(start, scale), AtScale(end, scale), AtScale(step, scale);
    Scaled(start, end, step);
    if d != 0 && (e == s || (e > s) == (d > 0)) { ReachesScaled(s, e, d, scale, MAX_RANGE_VALUES); }
    hide Reaches, IsInteger, Number, AtScale;
  }

  lemma Scaled(start: Parsed, end: Parsed, step: Parsed)
    requires start.Decimal? && end.Decimal? && step.Decimal?
    ensures var scale := Max3(start.scale, end.scale, step.scale);
      var s, e, d := AtScale(start, scale), AtScale(end, scale), AtScale(step, scale);
      && Denoted(start) == Number(s, scale) && Denoted(end) == Number(e, scale) && Denoted(step) == Number(d, scale)
      && (d == 0 <==> Denoted(step) == 0.0) && (d > 0 <==> Denoted(step) > 0.0)
      && (e == s <==> Denoted(end) == Denoted(start)) && (e > s <==> Denoted(end) > Denoted(start))
      && (s % Pow10(scale) == 0 <==> IsInteger(Denoted(start)))
      && (e % Pow10(scale) == 0 <==> IsInteger(Denoted(end)))
      && (d % Pow10(scale) == 0 <==> IsInteger(Denoted(step)))
  {
    var scale := Max3(start.scale, end.scale, step.scale);
    var s, e, d := AtScale(start, scale), AtScale(end, scale), AtScale(step, scale);
    AtScaleDenotes(start, scale);
    AtScaleDenotes(end, scale);
    AtScaleDenotes(step, scale);
    NumberOrder(d, 0, scale);
    NumberOrder(0, d, scale);
    NumberOrder(s, e, scale);
    NumberOrder(e, s, scale);
    NumberIntegral(s, scale);
    NumberIntegral(e, scale);
    NumberIntegral(d, scale);
    hide Number, AtScale, IsInteger;
    assert Number(0, scale) == 0.0;
  }

  /** An accepted range has as many points as do not lie beyond its end, and they are start, start + step and
      so on, exactly. */
  lemma RangePoints(t: ValueType, start: Parsed, end: Parsed, step: Parsed, k: nat)
    requires start.Decimal? && end.Decimal? && step.Decimal? && MetaOf(t, start, end, step).Ok?
    ensures var m := MetaOf(t, start, end, step).value;
      && (k < m.count <==> Reaches(Denoted(start), Denoted(end), Denoted(step), k))
      && IsNumber(t, Point(t, m, k), GridPoint(Denoted(start), Denoted(step), k))
  {
    var scale := Max3(start.scale, end.scale, step.scale);
    var s, e, d := AtScale(start, scale), AtScale(end, scale), AtScale(step, scale);
    Scaled(start, end, step);
    ReachesScaled(s, e, d, scale, k);
    NumberGrid(s, d, k, scale);
    var m := MetaOf(t, start, end, step).value;
    if t.IntegerType? {
      PointExact(m, k);
      MultipleRemainder((s + k * d) / Pow10(scale), Pow10(scale));
      NumberIntegral(s + k * d, scale);
    }
    hide Reaches, GridPoint, Number, AtScale, IsInteger;
  }

  /** A point can be written down exactly if it is a safe integer, or if every decimal text of it is read back
      as the point. */
  lemma PointFitsExactly(nearest: Rounding, t: ValueType, start: Parsed, end: Parsed, step: Parsed, k: nat)
    requires start.Decimal? && end.Decimal? && step.Decimal? && MetaOf(t, start, end, step).Ok?
    requires ReadsNumbers(nearest)
    ensures var x := GridPoint(Denoted(start), Denoted(step), k);
      PointFits(nearest, t, MetaOf(t, start, end, step).value, k) <==>
        if t.IntegerType? then -MAX_SAFE_INTEGER as real <= x <= MAX_SAFE_INTEGER as real
        else forall text :: TextNumber(text) == Some(x) ==> nearest(text) == Some(x)
  {
    var m := MetaOf(t, start, end, step).value;
    RangePoints(t, start, end, step, k);
    hide MetaOf;
    if !t.IntegerType? { RoundTripsMeaning(nearest, m, k, GridPoint(Denoted(start), Denoted(step), k)); }
    hide RoundTrips;
  }

  lemma RoundTripsMeaning(nearest: Rounding, m: Meta, k: nat, x: real)
    requires ReadsNumbers(nearest) && x == Number(m.start + k * m.step, m.scale)
    ensures RoundTrips(nearest, m, k) <==> forall text :: TextNumber(text) == Some(x) ==> nearest(text) == Some(x)
  {
    var text := Print(m.start + k * m.step, m.scale);
    PrintDenotes(m.start + k * m.step, m.scale);
    hide Print, ParseSimple, Number, TextNumber, Pow10, ReadsNumbers;
    if nearest(text) == Some(x) {
      forall other | TextNumber(other) == Some(x) ensures nearest(other) == Some(x) {
        SameReading(nearest, text, other);
      }
    }
  }

  lemma PrintDenotes(value: int, scale: nat)
    ensures TextNumber(Print(value, scale)) == Some(Number(value, scale))
  {
    ParsePrint(value, scale);
    hide Print, ParseSimple;
  }

  lemma SameReading(nearest: Rounding, a: string, b: string)
    requires ReadsNumbers(nearest) && TextNumber(a) == TextNumber(b)
    ensures nearest(a) == nearest(b)
  {
    hide TextNumber;
  }

  // ---------- its texts ----------

  predicate Readable(text: string) { |text| <= MAX_LENGTH && Simple(text) }

  /** A text's own fault: an overlong one is not looked at. */
  function FaultOf(text: string): Reason { if |text| > MAX_LENGTH then TooLong else NotSimple }

  /** The checks come in this order: the type, the three texts, then the numbers they denote. */
  lemma RangeTextsDecided(t: ValueType, range: Range)
    ensures var r := RangeMeta(t, range);
      var readable := Readable(range.start) && Readable(range.end) && Readable(range.step);
      && (r == Err(NotNumeric) <==> !t.IntegerType? && !t.FloatType?)
      && (r.Err? && r.error.BadDecimal? <==> r != Err(NotNumeric) && !readable)
      && (r.Err? && r.error.BadDecimal? ==>
            var worst := if !Readable(range.start) then range.start
                         else if !Readable(range.end) then range.end else range.step;
            r.error.reason == FaultOf(worst))
      && ((t.IntegerType? || t.FloatType?) && readable ==>
            && TextNumber(range.start) == Some(Denoted(Parse(range.start)))
            && TextNumber(range.end) == Some(Denoted(Parse(range.end)))
            && TextNumber(range.step) == Some(Denoted(Parse(range.step)))
            && r == MetaOf(t, Parse(range.start), Parse(range.end), Parse(range.step)))
  {
    TextRead(range.start);
    TextRead(range.end);
    TextRead(range.step);
    var start, end, step := Parse(range.start), Parse(range.end), Parse(range.step);
    if start.Decimal? && end.Decimal? && step.Decimal? { NumericErrors(t, start, end, step); }
    hide Parse, MetaOf, Readable, FaultOf, TextNumber, Denoted;
  }

  lemma NumericErrors(t: ValueType, start: Parsed, end: Parsed, step: Parsed)
    requires start.Decimal? && end.Decimal? && step.Decimal?
    ensures var r := MetaOf(t, start, end, step); r.Err? ==> !r.error.NotNumeric? && !r.error.BadDecimal?
  {
  }

  lemma TextRead(text: string)
    ensures Readable(text) <==> Parse(text).Decimal?
    ensures Readable(text) ==> TextNumber(text) == Some(Denoted(Parse(text)))
    ensures !Readable(text) ==> Parse(text) == Refused(FaultOf(text))
  {
    hide Simple;
  }
}
