/** Parameter alternatives, exact numeric ranges, and their materialisation. */
module Parameters {
  import opened Common
  import opened Results
  import opened Decimals

  /** One alternative; Base leaves the workflow's own value in place. A finite float is the number
      its shortest decimal text denotes. */
  datatype Scalar = Base | Text(text: string) | Whole(n: int) | Float(x: real) | NotFinite | Flag(b: bool)

  datatype Error =
    | EmptyAlternatives | UnsafeScalar | DuplicateAlternative | BaseNotFirst
    | BadDecimal(reason: Reason) | NotNumeric | ZeroStep | NotIntegral | WrongDirection | TooManyValues
    | NotRepresentable | DuplicateKey | UnknownKey | WrongType | TooManyCombinations

  type Result<+T> = Try<T, Error>

  const MAX_RANGE_VALUES: nat := 10_000

  // ---------- alternatives ----------

  predicate Safe(v: Scalar) {
    match v
    case Whole(n) => -MAX_SAFE_INTEGER <= n <= MAX_SAFE_INTEGER
    case NotFinite => false
    case _ => true
  }

  /** Duplicate identity: numbers compare together, booleans stay apart. */
  datatype Identity = BaseKey | TextKey(s: string) | NumberKey(x: real) | FlagKey(b: bool) | NoKey

  function IdentityOf(v: Scalar): Identity {
    match v
    case Base => BaseKey
    case Text(s) => TextKey(s)
    case Whole(n) => NumberKey(n as real)
    case Float(x) => NumberKey(x)
    case NotFinite => NoKey
    case Flag(b) => FlagKey(b)
  }

  ghost predicate Distinct(values: seq<Scalar>) {
    forall i, j :: 0 <= i < j < |values| ==> IdentityOf(values[i]) != IdentityOf(values[j])
  }

  ghost predicate ValidAlternatives(values: seq<Scalar>) {
    && values != []
    && (forall i :: 0 <= i < |values| ==> Safe(values[i]))
    && Distinct(values)
    && (Base in values ==> values[0] == Base)
  }

  /** Accepts exactly the nonempty lists of safe, pairwise different alternatives with Base first. */
  method ValidateAlternatives(values: seq<Scalar>) returns (r: Result<()>)
    ensures r.Ok? <==> ValidAlternatives(values)
  {
    if values == [] {
      return Err(EmptyAlternatives);
    }
    for i := 0 to |values|
      invariant forall j :: 0 <= j < i ==> Safe(values[j])
    {
      if !Safe(values[i]) {
        return Err(UnsafeScalar);
      }
    }
    var seen: set<Identity> := {};
    for i := 0 to |values|
      invariant seen == set j | 0 <= j < i :: IdentityOf(values[j])
      invariant Distinct(values[..i])
    {
      var key := IdentityOf(values[i]);
      if key in seen {
        var j :| 0 <= j < i && IdentityOf(values[j]) == key;
        return Err(DuplicateAlternative);
      }
      seen := seen + {key};
      assert forall j :: 0 <= j < i ==> values[..i + 1][j] == values[..i][j];
    }
    assert values[..|values|] == values;
    if Base in values && values[0] != Base {
      return Err(BaseNotFirst);
    }
    return Ok(());
  }

  // ---------- ranges on a common scale ----------

  /** start, step and the common scale as integers, and how many points there are. */
  datatype Meta = Meta(start: int, step: int, scale: nat, count: nat)

  datatype Range = Range(start: string, end: string, step: string)

  function Max3(a: nat, b: nat, c: nat): (m: nat)
    ensures m >= a && m >= b && m >= c && (m == a || m == b || m == c)
  {
    if a >= b && a >= c then a else if b >= c then b else c
  }

  function Abs(x: int): nat { if x < 0 then -x else x }

  /** The decimal's integer at a larger scale. */
  function AtScale(d: Parsed, scale: nat): int
    requires d.Decimal? && d.scale <= scale
  {
    d.unscaled * Pow10(scale - d.scale)
  }

  /** _range_metadata after parsing. */
  function MetaOf(t: ValueType, start: Parsed, end: Parsed, step: Parsed): Result<Meta>
    requires start.Decimal? && end.Decimal? && step.Decimal?
  {
    var scale := Max3(start.scale, end.scale, step.scale);
    var s, e, d := AtScale(start, scale), AtScale(end, scale), AtScale(step, scale);
    if d == 0 then Err(ZeroStep)
    else if t.IntegerType? && !(s % Pow10(scale) == 0 && e % Pow10(scale) == 0 && d % Pow10(scale) == 0) then
      Err(NotIntegral)
    else if e != s && (e > s) != (d > 0) then Err(WrongDirection)
    else
      var count := Abs(e - s) / Abs(d) + 1;
      if count > MAX_RANGE_VALUES then Err(TooManyValues) else Ok(Meta(s, d, scale, count))
  }

  function RangeMeta(t: ValueType, range: Range): Result<Meta> {
    if t.StringType? || t.BooleanType? then Err(NotNumeric)
    else if Parse(range.start).Refused? then Err(BadDecimal(Parse(range.start).reason))
    else if Parse(range.end).Refused? then Err(BadDecimal(Parse(range.end).reason))
    else if Parse(range.step).Refused? then Err(BadDecimal(Parse(range.step).reason))
    else MetaOf(t, Parse(range.start), Parse(range.end), Parse(range.step))
  }

  /** p lies between start and end, both included, whichever way the step goes. */
  predicate Between(start: int, end: int, step: int, p: int) {
    if step > 0 then start <= p <= end else end <= p <= start
  }

  lemma QuotientBound(a: nat, b: nat, k: nat)
    requires b > 0
    ensures k <= a / b <==> k * b <= a
  {
    var q := a / b;
    assert a == q * b + a % b;
    if k <= q {
      MulMonotone(k, q, b);
    } else {
      MulMonotone(q + 1, k, b);
      assert (q + 1) * b == q * b + b;
    }
  }

  lemma MulMonotone(a: nat, b: nat, c: nat)
    requires a <= b
    ensures a * c <= b * c
  {
    assert (b - a) * c >= 0;
    assert b * c == a * c + (b - a) * c;
  }

  /** The count is exact: the k-th grid point lies in the range iff k is below it. So all the points
      counted are inside and the next one overshoots. */
  lemma CountIsGrid(t: ValueType, start: Parsed, end: Parsed, step: Parsed, k: nat)
    requires start.Decimal? && end.Decimal? && step.Decimal?
    requires MetaOf(t, start, end, step).Ok?
    ensures var m := MetaOf(t, start, end, step).value;
      Between(m.start, AtScale(end, m.scale), m.step, m.start + k * m.step) <==> k < m.count
  {
    var m := MetaOf(t, start, end, step).value;
    var e := AtScale(end, m.scale);
    QuotientBound(Abs(e - m.start), Abs(m.step), k);
    if m.step < 0 { assert k * Abs(m.step) == -(k * m.step); }
  }

  // ---------- the materialised points ----------

  /** The number unscaled / 10^scale. */
  function Number(unscaled: int, scale: nat): real { unscaled as real / Pow10(scale) as real }

  function Point(t: ValueType, m: Meta, i: nat): Scalar {
    var scaled := m.start + i * m.step;
    if t.IntegerType? then Whole(scaled / Pow10(m.scale)) else Float(Number(scaled, m.scale))
  }

  ghost predicate Integral(m: Meta) { m.start % Pow10(m.scale) == 0 && m.step % Pow10(m.scale) == 0 }

  /** Floor division loses nothing: every integer point times the divisor is the scaled value. */
  lemma PointExact(m: Meta, i: nat)
    requires Integral(m)
    ensures (m.start + i * m.step) / Pow10(m.scale) == m.start / Pow10(m.scale) + i * (m.step / Pow10(m.scale))
    ensures (m.start + i * m.step) / Pow10(m.scale) * Pow10(m.scale) == m.start + i * m.step
  {
    var p := Pow10(m.scale);
    var a, b := m.start / p, m.step / p;
    assert m.start == a * p && m.step == b * p;
    Collect(a, b, i, p);
    ExactQuotient(a + i * b, p);
  }

  lemma Collect(a: int, b: int, i: int, p: int)
    ensures a * p + i * (b * p) == (a + i * b) * p
  {
  }

  lemma ExactQuotient(q: int, p: int)
    requires p > 0
    ensures q * p / p == q
  {
    var r, m := q * p / p, q * p % p;
    assert q * p == r * p + m;
    assert (q - r) * p == m by { assert (q - r) * p == q * p - r * p; }
    if q > r { MulMonotoneInt(1, q - r, p); }
    if q < r { MulMonotoneInt(q - r, -1, p); }
  }

  /** The points stay between the first and the last one. */
  lemma PointsBetweenEnds(a: int, b: int, i: nat, count: nat)
    requires i < count
    ensures b >= 0 ==> a <= a + i * b <= a + (count - 1) * b
    ensures b <= 0 ==> a + (count - 1) * b <= a + i * b <= a
  {
    if b >= 0 { MulMonotone(i, count - 1, b); MulMonotone(0, i, b); }
    if b <= 0 {
      MulMonotone(i, count - 1, -b);
      MulMonotone(0, i, -b);
      assert i * -b == -(i * b) && (count - 1) * -b == -((count - 1) * b);
    }
  }

  function SafePoint(m: Meta, i: nat): bool { Safe(Point(IntegerType, m, i)) }

  /** An integer range is refused exactly when its first or its last value is unsafe. */
  lemma SafeIffEndsSafe(m: Meta)
    requires Integral(m) && m.count >= 1
    ensures (forall i :: 0 <= i < m.count ==> SafePoint(m, i)) <==> SafePoint(m, 0) && SafePoint(m, m.count - 1)
  {
    var a, b := m.start / Pow10(m.scale), m.step / Pow10(m.scale);
    PointExact(m, 0);
    PointExact(m, m.count - 1);
    if SafePoint(m, 0) && SafePoint(m, m.count - 1) {
      forall i | 0 <= i < m.count ensures SafePoint(m, i) {
        PointExact(m, i);
        PointsBetweenEnds(a, b, i, m.count);
      }
    }
  }

  lemma DifferentPoints(t: ValueType, m: Meta, i: nat, j: nat)
    requires i < j && m.step != 0 && (t.IntegerType? ==> Integral(m))
    ensures IdentityOf(Point(t, m, i)) != IdentityOf(Point(t, m, j))
  {
    var x, y := m.start + i * m.step, m.start + j * m.step;
    assert x != y by {
      assert (j - i) * m.step != 0;
      assert y == x + (j - i) * m.step;
    }
    if t.IntegerType? {
      PointExact(m, i);
      PointExact(m, j);
      assert x / Pow10(m.scale) != y / Pow10(m.scale);
    } else {
      DifferentNumbers(x, y, Pow10(m.scale));
    }
  }

  lemma DifferentNumbers(x: int, y: int, p: nat)
    requires p > 0 && x != y
    ensures x as real / p as real != y as real / p as real
  {
    assert x as real / p as real * p as real == x as real;
    assert y as real / p as real * p as real == y as real;
  }

  /** The first k grid points. */
  function FirstPoints(t: ValueType, m: Meta, k: nat): (values: seq<Scalar>)
    ensures |values| == k
    ensures forall i :: 0 <= i < k ==> values[i] == Point(t, m, i)
  {
    if k == 0 then [] else FirstPoints(t, m, k - 1) + [Point(t, m, k - 1)]
  }

  function Points(t: ValueType, m: Meta, includeBase: bool): (values: seq<Scalar>)
    ensures |values| == m.count + if includeBase then 1 else 0
  {
    (if includeBase then [Base] else []) + FirstPoints(t, m, m.count)
  }

  lemma PointsSafe(t: ValueType, m: Meta, includeBase: bool, k: nat)
    requires t.IntegerType? ==> forall i :: 0 <= i < m.count ==> SafePoint(m, i)
    requires t.IntegerType? || t.FloatType?
    requires k < |Points(t, m, includeBase)|
    ensures Safe(Points(t, m, includeBase)[k])
    ensures Points(t, m, includeBase)[k] == Base <==> includeBase && k == 0
  {
    if !includeBase || k > 0 {
      var i := k - if includeBase then 1 else 0;
      assert Points(t, m, includeBase)[k] == Point(t, m, i);
      if t.IntegerType? { assert SafePoint(m, i); }
    }
  }

  lemma PointsDistinct(t: ValueType, m: Meta, includeBase: bool, i: nat, j: nat)
    requires i < j < |Points(t, m, includeBase)|
    requires m.step != 0 && (t.IntegerType? || t.FloatType?) && (t.IntegerType? ==> Integral(m))
    ensures IdentityOf(Points(t, m, includeBase)[i]) != IdentityOf(Points(t, m, includeBase)[j])
  {
    var shift := if includeBase then 1 else 0;
    assert Points(t, m, includeBase)[j] == Point(t, m, j - shift);
    if i >= shift {
      assert Points(t, m, includeBase)[i] == Point(t, m, i - shift);
      DifferentPoints(t, m, i - shift, j - shift);
    }
  }

  /** Points are pairwise different, so the closing duplicate check never refuses a range. */
  lemma PointsAreAlternatives(t: ValueType, m: Meta, includeBase: bool)
    requires m.count >= 1 && m.step != 0 && (t.IntegerType? || t.FloatType?)
    requires t.IntegerType? ==> Integral(m) && forall i :: 0 <= i < m.count ==> SafePoint(m, i)
    ensures ValidAlternatives(Points(t, m, includeBase))
  {
    var values := Points(t, m, includeBase);
    forall k | 0 <= k < |values|
      ensures Safe(values[k]) && (values[k] == Base <==> includeBase && k == 0)
    {
      PointsSafe(t, m, includeBase, k);
    }
    forall i, j | 0 <= i < j < |values| ensures IdentityOf(values[i]) != IdentityOf(values[j]) {
      PointsDistinct(t, m, includeBase, i, j);
    }
  }

  lemma MetaFacts(t: ValueType, start: Parsed, end: Parsed, step: Parsed)
    requires start.Decimal? && end.Decimal? && step.Decimal? && MetaOf(t, start, end, step).Ok?
    ensures var m := MetaOf(t, start, end, step).value;
      1 <= m.count <= MAX_RANGE_VALUES && m.step != 0 && (t.IntegerType? ==> Integral(m))
  {
  }

  /** `nearest` is the number that a decimal text comes back as after being read as a binary float
      and printed again; None when the float is infinite. */
  type Rounding = string -> Option<real>

  /** The number a decimal text denotes. */
  function TextNumber(text: string): Option<real> {
    match ParseSimple(text)
    case Decimal(unscaled, scale) => Some(Number(unscaled, scale))
    case Refused(_) => None
  }

  predicate RoundTrips(nearest: Rounding, m: Meta, i: nat) {
    nearest(Print(m.start + i * m.step, m.scale)) == Some(Number(m.start + i * m.step, m.scale))
  }

  predicate PointFits(nearest: Rounding, t: ValueType, m: Meta, i: nat) {
    if t.IntegerType? then SafePoint(m, i) else RoundTrips(nearest, m, i)
  }

  ghost predicate Representable(nearest: Rounding, t: ValueType, m: Meta) {
    forall i :: 0 <= i < m.count ==> PointFits(nearest, t, m, i)
  }

  /** One pass of the loop: the point as an integer or through its decimal text. */
  method NumericPoint(t: ValueType, m: Meta, nearest: Rounding, index: nat) returns (r: Option<Scalar>)
    ensures r == if PointFits(nearest, t, m, index) then Some(Point(t, m, index)) else None
  {
    hide Print, ParseSimple, Pow10;
    var scaled := m.start + index * m.step;
    if t.IntegerType? {
      var value := scaled / Pow10(m.scale);
      if !(-MAX_SAFE_INTEGER <= value <= MAX_SAFE_INTEGER) {
        return None;
      }
      return Some(Whole(value));
    }
    var text := Print(scaled, m.scale);
    var value := nearest(text);
    ParsePrint(scaled, m.scale);
    if value.None? || value != TextNumber(text) {
      return None;
    }
    return Some(Float(value.value));
  }

  /** The loop over the grid: each point in order, or a refusal at the first unrepresentable one. */
  method NumericPoints(t: ValueType, m: Meta, nearest: Rounding) returns (r: Result<seq<Scalar>>)
    ensures !Representable(nearest, t, m) ==> r == Err(NotRepresentable)
    ensures Representable(nearest, t, m) ==> r == Ok(FirstPoints(t, m, m.count))
  {
    var numeric: seq<Scalar> := [];
    for index := 0 to m.count
      invariant numeric == FirstPoints(t, m, index)
      invariant forall i :: 0 <= i < index ==> PointFits(nearest, t, m, i)
    {
      var value := NumericPoint(t, m, nearest, index);
      if value.None? {
        return Err(NotRepresentable);
      }
      numeric := numeric + [value.value];
    }
    return Ok(numeric);
  }

  /** A representable range passes the closing check of the alternatives. */
  lemma RangeValuesValid(t: ValueType, range: Range, includeBase: bool, nearest: Rounding)
    requires RangeMeta(t, range).Ok? && Representable(nearest, t, RangeMeta(t, range).value)
    ensures ValidAlternatives(Points(t, RangeMeta(t, range).value, includeBase))
  {
    var m := RangeMeta(t, range).value;
    MetaFacts(t, Parse(range.start), Parse(range.end), Parse(range.step));
    if t.IntegerType? {
      forall i | 0 <= i < m.count ensures SafePoint(m, i) { assert PointFits(nearest, t, m, i); }
    }
    PointsAreAlternatives(t, m, includeBase);
  }

  /** _materialize_range: the grid points, after Base if asked for. The closing check of the
      alternatives never refuses. */
  method MaterializeRange(t: ValueType, range: Range, includeBase: bool, nearest: Rounding)
    returns (r: Result<seq<Scalar>>)
    ensures RangeMeta(t, range).Err? ==> r == Err(RangeMeta(t, range).error)
    ensures
      RangeMeta(t, range).Ok? && !Representable(nearest, t, RangeMeta(t, range).value) ==> r == Err(NotRepresentable)
    ensures RangeMeta(t, range).Ok? && Representable(nearest, t, RangeMeta(t, range).value) ==>
      r == Ok(Points(t, RangeMeta(t, range).value, includeBase))
  {
    var meta := RangeMeta(t, range);
    if meta.Err? {
      return Err(meta.error);
    }
    var numeric := NumericPoints(t, meta.value, nearest);
    if numeric.Err? {
      return Err(numeric.error);
    }
    var values := numeric.value;
    if includeBase {
      values := [Base] + values;
    }
    assert values == Points(t, meta.value, includeBase);
    RangeValuesValid(t, range, includeBase, nearest);
    var checked := ValidateAlternatives(values);
    assert checked.Ok?;
    return Ok(values);
  }

  // ---------- the scale does not matter ----------

  /** a / 10^s and b / 10^t are the same number. */
  predicate SameNumber(a: int, s: nat, b: int, t: nat) { a * Pow10(t) == b * Pow10(s) }

  predicate SameDecimal(a: Parsed, b: Parsed) {
    a.Decimal? && b.Decimal? && SameNumber(a.unscaled, a.scale, b.unscaled, b.scale)
  }

  lemma {:induction false} Pow10Add(a: nat, b: nat)
    ensures Pow10(a + b) == Pow10(a) * Pow10(b)
  {
    if a > 0 {
      Pow10Add(a - 1, b);
      assert 10 * (Pow10(a - 1) * Pow10(b)) == (10 * Pow10(a - 1)) * Pow10(b);
    }
  }

  /** Two decimals denoting one number, brought to two scales, still denote it. */
  lemma AtScaleSame(a: Parsed, s: nat, b: Parsed, t: nat)
    requires SameDecimal(a, b) && a.scale <= s && b.scale <= t
    ensures SameNumber(AtScale(a, s), s, AtScale(b, t), t)
  {
    var p, q := Pow10(s - a.scale), Pow10(t - b.scale);
    Pow10Add(a.scale, s - a.scale);
    Pow10Add(b.scale, t - b.scale);
    CrossScale(a.unscaled, Pow10(a.scale), b.unscaled, Pow10(b.scale), p, q);
  }

  lemma CrossScale(a: int, pa: int, b: int, pb: int, p: int, q: int)
    requires a * pb == b * pa
    ensures (a * p) * (pb * q) == (b * q) * (pa * p)
  {
    calc {
      (a * p) * (pb * q);
      (a * pb) * (p * q);
      (b * pa) * (p * q);
      (b * q) * (pa * p);
    }
  }

  lemma SameQuotient(a: nat, b: nat, c: nat, d: nat, p: nat, q: nat)
    requires b > 0 && d > 0 && p > 0 && q > 0
    requires a * q == c * p && b * q == d * p
    ensures a / b == c / d
  {
    var k := a / b;
    QuotientScaled(a, b, c, d, p, q, k);
    QuotientScaled(a, b, c, d, p, q, k + 1);
    QuotientBound(a, b, k);
    QuotientBound(a, b, k + 1);
    QuotientBound(c, d, k);
    QuotientBound(c, d, k + 1);
  }

  lemma QuotientScaled(a: nat, b: nat, c: nat, d: nat, p: nat, q: nat, k: nat)
    requires p > 0 && q > 0 && a * q == c * p && b * q == d * p
    ensures k * b <= a <==> k * d <= c
  {
    assert (k * b) * q == (k * d) * p by {
      assert (k * b) * q == k * (b * q) && (k * d) * p == k * (d * p);
    }
    CompareScaled(k * b, a, q);
    CompareScaled(k * d, c, p);
  }

  lemma CompareScaled(x: int, y: int, p: int)
    requires p > 0
    ensures x <= y <==> x * p <= y * p
  {
    if x <= y { MulMonotoneInt(x, y, p); } else { MulMonotoneInt(y + 1, x, p); assert (y + 1) * p == y * p + p; }
  }

  lemma MulMonotoneInt(x: int, y: int, p: int)
    requires x <= y && p >= 0
    ensures x * p <= y * p
  {
    assert (y - x) * p >= 0;
    assert y * p == x * p + (y - x) * p;
  }

  lemma SameZero(a: int, b: int, p: nat, q: nat)
    requires p > 0 && q > 0 && a * q == b * p
    ensures (a == 0 <==> b == 0) && (a > 0 <==> b > 0)
  {
    CompareScaled(a, 0, q);
    CompareScaled(0, a, q);
    CompareScaled(b, 0, p);
    CompareScaled(0, b, p);
  }

  lemma SameIntegral(a: int, b: int, p: nat, q: nat)
    requires p > 0 && q > 0 && a * q == b * p && a % p == 0
    ensures b % q == 0
  {
    var k := a / p;
    assert a == k * p;
    assert (k * q) * p == b * p by {
      assert (k * p) * q == (k * q) * p;
    }
    assert k * q == b by {
      if k * q < b { CompareScaled(b, k * q, p); }
      if k * q > b { CompareScaled(k * q, b, p); }
    }
    MultipleRemainder(k, q);
  }

  lemma MultipleRemainder(k: int, q: nat)
    requires q > 0
    ensures k * q % q == 0
  {
    ExactQuotient(k, q);
  }

  lemma SamePoint(t: ValueType, m: Meta, n: Meta, i: nat)
    requires SameNumber(m.start, m.scale, n.start, n.scale) && SameNumber(m.step, m.scale, n.step, n.scale)
    requires t.IntegerType? ==> Integral(m) && Integral(n)
    ensures SameNumber(m.start + i * m.step, m.scale, n.start + i * n.step, n.scale)
    ensures Point(t, m, i) == Point(t, n, i)
  {
    var p, q := Pow10(m.scale), Pow10(n.scale);
    var x, y := m.start + i * m.step, n.start + i * n.step;
    SameCombination(m.start, m.step, n.start, n.step, i, p, q);
    if t.IntegerType? {
      PointExact(m, i);
      PointExact(n, i);
      SameWhole(x, y, p, q);
    } else {
      SameReal(x, y, p, q);
    }
  }

  lemma SameCombination(a: int, b: int, c: int, d: int, i: int, p: int, q: int)
    requires a * q == c * p && b * q == d * p
    ensures (a + i * b) * q == (c + i * d) * p
  {
    assert (a + i * b) * q == a * q + i * (b * q);
    assert (c + i * d) * p == c * p + i * (d * p);
  }

  lemma SameWhole(x: int, y: int, p: nat, q: nat)
    requires p > 0 && q > 0 && x * q == y * p && x / p * p == x && y / q * q == y
    ensures x / p == y / q
  {
    var j, k := x / p, y / q;
    assert j * (p * q) == k * (p * q) by {
      assert (j * p) * q == j * (p * q) && (k * q) * p == k * (p * q);
    }
    assert p * q > 0 by { MulMonotone(1, p, q); }
    CompareScaled(j, k, p * q);
    CompareScaled(k, j, p * q);
  }

  lemma SameReal(x: int, y: int, p: nat, q: nat)
    requires p > 0 && q > 0 && x * q == y * p
    ensures x as real / p as real == y as real / q as real
  {
    assert x as real * q as real == y as real * p as real by {
      assert (x * q) as real == (y * p) as real;
    }
    var u, v := x as real / p as real, y as real / q as real;
    assert u * p as real == x as real && v * q as real == y as real;
    assert u * (p as real * q as real) == v * (p as real * q as real);
  }

  lemma {:induction false} SamePoints(t: ValueType, m: Meta, n: Meta, k: nat)
    requires SameNumber(m.start, m.scale, n.start, n.scale) && SameNumber(m.step, m.scale, n.step, n.scale)
    requires t.IntegerType? ==> Integral(m) && Integral(n)
    ensures FirstPoints(t, m, k) == FirstPoints(t, n, k)
  {
    if k > 0 {
      SamePoints(t, m, n, k - 1);
      SamePoint(t, m, n, k - 1);
    }
  }

  /** Writing the operands with more trailing zeros, hence on a larger common scale, changes neither
      the verdict, nor the count, nor any value. */
  lemma PaddingChangesNothing(t: ValueType, start: Parsed, end: Parsed, step: Parsed, start': Parsed, end': Parsed,
                              step': Parsed)
    requires SameDecimal(start, start') && SameDecimal(end, end') && SameDecimal(step, step')
    ensures var m, m' := MetaOf(t, start, end, step), MetaOf(t, start', end', step');
      && (m.Err? <==> m'.Err?)
      && (m.Err? ==> m.error == m'.error)
      && (m.Ok? ==> m.value.count == m'.value.count
                    && SameNumber(m.value.start, m.value.scale, m'.value.start, m'.value.scale)
                    && SameNumber(m.value.step, m.value.scale, m'.value.step, m'.value.scale)
                    && forall includeBase :: Points(t, m.value, includeBase) == Points(t, m'.value, includeBase))
  {
    var scale, scale' := Max3(start.scale, end.scale, step.scale), Max3(start'.scale, end'.scale, step'.scale);
    AtScaleSame(start, scale, start', scale');
    AtScaleSame(end, scale, end', scale');
    AtScaleSame(step, scale, step', scale');
    SameMeta(AtScale(start, scale), AtScale(end, scale), AtScale(step, scale), Pow10(scale),
             AtScale(start', scale'), AtScale(end', scale'), AtScale(step', scale'), Pow10(scale'));
    var m, m' := MetaOf(t, start, end, step), MetaOf(t, start', end', step');
    if m.Ok? {
      MetaFacts(t, start, end, step);
      MetaFacts(t, start', end', step');
      SamePoints(t, m.value, m'.value, m.value.count);
    }
  }

  /** Reading a decimal text as a float depends on the number alone. */
  ghost predicate ReadsNumbers(nearest: Rounding) {
    forall a, b :: TextNumber(a) == TextNumber(b) ==> nearest(a) == nearest(b)
  }

  /** Nor does it change what can be written down exactly. */
  lemma PaddingKeepsRepresentable(nearest: Rounding, t: ValueType, start: Parsed, end: Parsed, step: Parsed,
                                  start': Parsed, end': Parsed, step': Parsed)
    requires SameDecimal(start, start') && SameDecimal(end, end') && SameDecimal(step, step') && ReadsNumbers(nearest)
    requires MetaOf(t, start, end, step).Ok?
    ensures MetaOf(t, start', end', step').Ok?
    ensures Representable(nearest, t, MetaOf(t, start, end, step).value)
      <==> Representable(nearest, t, MetaOf(t, start', end', step').value)
  {
    hide ReadsNumbers, MetaOf;
    PaddingChangesNothing(t, start, end, step, start', end', step');
    MetaFacts(t, start, end, step);
    MetaFacts(t, start', end', step');
    var m, n := MetaOf(t, start, end, step).value, MetaOf(t, start', end', step').value;
    forall i | 0 <= i < m.count ensures PointFits(nearest, t, m, i) <==> PointFits(nearest, t, n, i) {
      SamePoint(t, m, n, i);
      SameRoundTrip(nearest, m, n, i);
    }
  }

  lemma SameRoundTrip(nearest: Rounding, m: Meta, n: Meta, i: nat)
    requires ReadsNumbers(nearest)
    requires SameNumber(m.start + i * m.step, m.scale, n.start + i * n.step, n.scale)
    ensures RoundTrips(nearest, m, i) <==> RoundTrips(nearest, n, i)
  {
    var x, y := m.start + i * m.step, n.start + i * n.step;
    ParsePrint(x, m.scale);
    ParsePrint(y, n.scale);
    SameReal(x, y, Pow10(m.scale), Pow10(n.scale));
    assert TextNumber(Print(x, m.scale)) == TextNumber(Print(y, n.scale));
  }

  lemma SameMeta(s: int, e: int, d: int, p: nat, s': int, e': int, d': int, q: nat)
    requires p > 0 && q > 0 && s * q == s' * p && e * q == e' * p && d * q == d' * p
    ensures d == 0 <==> d' == 0
    ensures (s % p == 0 && e % p == 0 && d % p == 0) <==> (s' % q == 0 && e' % q == 0 && d' % q == 0)
    ensures (e != s <==> e' != s') && (e > s <==> e' > s') && (d > 0 <==> d' > 0)
    ensures d != 0 ==> Abs(e - s) / Abs(d) == Abs(e' - s') / Abs(d')
  {
    assert (e - s) * q == (e' - s') * p by {
      assert (e - s) * q == e * q - s * q && (e' - s') * p == e' * p - s' * p;
    }
    SameZero(d, d', p, q);
    SameZero(e - s, e' - s', p, q);
    BothIntegral(s, s', p, q);
    BothIntegral(e, e', p, q);
    BothIntegral(d, d', p, q);
    if d != 0 {
      SameAbs(e - s, e' - s', p, q);
      SameAbs(d, d', p, q);
      SameQuotient(Abs(e - s), Abs(d), Abs(e' - s'), Abs(d'), p, q);
    }
  }

  lemma BothIntegral(a: int, b: int, p: nat, q: nat)
    requires p > 0 && q > 0 && a * q == b * p
    ensures a % p == 0 <==> b % q == 0
  {
    if a % p == 0 { SameIntegral(a, b, p, q); }
    if b % q == 0 { SameIntegral(b, a, q, p); }
  }

  lemma SameAbs(a: int, b: int, p: nat, q: nat)
    requires p > 0 && q > 0 && a * q == b * p
    ensures Abs(a) * q == Abs(b) * p
  {
    SameZero(a, b, p, q);
    assert (-a) * q == -(a * q) && (-b) * p == -(b * p);
  }

  // ---------- bindings of a whole batch ----------

  datatype WorkflowParameter = WorkflowParameter(key: string, valueType: ValueType)

  datatype Intent =
    | ValuesIntent(key: string, values: seq<Scalar>)
    | RangeIntent(key: string, includeBase: bool, range: Range)

  datatype Count = Count(key: string, size: nat)

  datatype Binding = Binding(key: string, values: seq<Scalar>)

  /** {parameter.key: parameter for parameter in parameters} */
  function Definitions(parameters: seq<WorkflowParameter>): map<string, ValueType> {
    if parameters == [] then map[]
    else Definitions(parameters[..|parameters| - 1])
         [parameters[|parameters| - 1].key := parameters[|parameters| - 1].valueType]
  }

  predicate Matches(t: ValueType, v: Scalar) {
    match v
    case Base => true
    case Text(_) => t.StringType?
    case Whole(_) => t.IntegerType? || t.FloatType?
    case Float(_) => t.FloatType?
    case NotFinite => t.FloatType?
    case Flag(_) => t.BooleanType?
  }

  /** An intent that the count accepts, for a parameter of this type. */
  ghost predicate Countable(t: ValueType, intent: Intent) {
    match intent
    case ValuesIntent(_, values) => ValidAlternatives(values) && forall i :: 0 <= i < |values| ==> Matches(t, values[i])
    case RangeIntent(_, _, range) => RangeMeta(t, range).Ok?
  }

  /** How many alternatives the axis has, without generating them. */
  function AxisSize(t: ValueType, intent: Intent): nat
    requires intent.RangeIntent? ==> RangeMeta(t, intent.range).Ok?
  {
    match intent
    case ValuesIntent(_, values) => |values|
    case RangeIntent(_, includeBase, range) => RangeMeta(t, range).value.count + if includeBase then 1 else 0
  }

  ghost predicate AllCountable(definitions: map<string, ValueType>, intents: seq<Intent>) {
    && (forall i :: 0 <= i < |intents| ==>
          intents[i].key in definitions && Countable(definitions[intents[i].key], intents[i]))
    && (forall i, j :: 0 <= i < j < |intents| ==> intents[i].key != intents[j].key)
  }

  /** Each intent's key and the size of its axis, in the order of the intents. */
  ghost predicate Counts(definitions: map<string, ValueType>, intents: seq<Intent>, counts: seq<Count>)
    requires AllCountable(definitions, intents)
  {
    && |counts| == |intents|
    && forall i :: 0 <= i < |intents| ==>
         counts[i] == Count(intents[i].key, AxisSize(definitions[intents[i].key], intents[i]))
  }

  /** One binding per intent, in order, with exactly the number of alternatives counted for it. */
  ghost predicate Materialized(definitions: map<string, ValueType>, intents: seq<Intent>, bindings: seq<Binding>)
    requires AllCountable(definitions, intents)
  {
    && |bindings| == |intents|
    && forall i :: 0 <= i < |intents| ==> MaterializedAs(definitions[intents[i].key], intents[i], bindings[i])
  }

  ghost predicate MaterializedAs(t: ValueType, intent: Intent, binding: Binding)
    requires Countable(t, intent)
  {
    && binding.key == intent.key
    && ValidAlternatives(binding.values)
    && |binding.values| == AxisSize(t, intent)
    && binding.values ==
         if intent.ValuesIntent? then intent.values else Points(t, RangeMeta(t, intent.range).value, intent.includeBase)
  }

  lemma OneMoreCounted(definitions: map<string, ValueType>, intents: seq<Intent>, intent: Intent, counts: seq<Count>)
    requires AllCountable(definitions, intents) && Counts(definitions, intents, counts)
    requires intent.key in definitions && Countable(definitions[intent.key], intent)
    requires forall j :: 0 <= j < |intents| ==> intents[j].key != intent.key
    ensures AllCountable(definitions, intents + [intent])
    ensures
      Counts(definitions, intents + [intent], counts + [Count(intent.key, AxisSize(definitions[intent.key], intent))])
  {
  }

  lemma OneMoreMaterialized(definitions: map<string, ValueType>, intents: seq<Intent>, intent: Intent,
                            bindings: seq<Binding>, binding: Binding)
    requires AllCountable(definitions, intents + [intent])
    requires AllCountable(definitions, intents) && Materialized(definitions, intents, bindings)
    requires intent.key in definitions && Countable(definitions[intent.key], intent)
    requires MaterializedAs(definitions[intent.key], intent, binding)
    ensures Materialized(definitions, intents + [intent], bindings + [binding])
  {
  }

  lemma PrefixCountable(definitions: map<string, ValueType>, intents: seq<Intent>, i: nat)
    requires AllCountable(definitions, intents) && i <= |intents|
    ensures AllCountable(definitions, intents[..i])
  {
  }

  /** parameter_binding_counts: the dict of sizes, in insertion order. */
  method BindingCounts(parameters: seq<WorkflowParameter>, intents: seq<Intent>) returns (r: Result<seq<Count>>)
    ensures r.Ok? <==> AllCountable(Definitions(parameters), intents)
    ensures r.Ok? ==> Counts(Definitions(parameters), intents, r.value)
  {
    var definitions := Definitions(parameters);
    var counts: seq<Count> := [];
    var keys: set<string> := {};
    for i := 0 to |intents|
      invariant keys == set j | 0 <= j < i :: intents[j].key
      invariant AllCountable(definitions, intents[..i])
      invariant Counts(definitions, intents[..i], counts)
    {
      var intent := intents[i];
      assert intents[..i + 1] == intents[..i] + [intent];
      if intent.key in keys {
        var j :| 0 <= j < i && intents[j].key == intent.key;
        return Err(DuplicateKey);
      }
      if intent.key !in definitions {
        return Err(UnknownKey);
      }
      var size := CountIntent(definitions[intent.key], intent);
      if size.Err? {
        return Err(size.error);
      }
      OneMoreCounted(definitions, intents[..i], intent, counts);
      keys := keys + {intent.key};
      counts := counts + [Count(intent.key, size.value)];
    }
    assert intents[..|intents|] == intents;
    return Ok(counts);
  }

  method CountIntent(t: ValueType, intent: Intent) returns (r: Result<nat>)
    ensures r.Ok? <==> Countable(t, intent)
    ensures r.Ok? ==> r.value == AxisSize(t, intent)
  {
    match intent {
      case ValuesIntent(_, values) =>
        var checked := ValidateAlternatives(values);
        if checked.Err? {
          return Err(checked.error);
        }
        for i := 0 to |values|
          invariant forall j :: 0 <= j < i ==> Matches(t, values[j])
        {
          if !Matches(t, values[i]) {
            return Err(WrongType);
          }
        }
        return Ok(|values|);
      case RangeIntent(_, includeBase, range) =>
        var meta := RangeMeta(t, range);
        if meta.Err? {
          return Err(meta.error);
        }
        return Ok(meta.value.count + if includeBase then 1 else 0);
    }
  }

  function Product(sizes: seq<nat>): nat {
    if sizes == [] then 1 else sizes[0] * Product(sizes[1..])
  }

  function Sizes(counts: seq<Count>): (sizes: seq<nat>)
    ensures |sizes| == |counts|
  {
    seq(|counts|, i requires 0 <= i < |counts| => counts[i].size)
  }

  /** Every value of the intent can be written down exactly. */
  ghost predicate RangeFits(nearest: Rounding, t: ValueType, intent: Intent) {
    intent.RangeIntent? ==>
      RangeMeta(t, intent.range).Ok? && Representable(nearest, t, RangeMeta(t, intent.range).value)
  }

  ghost predicate IntentFits(nearest: Rounding, definitions: map<string, ValueType>, intent: Intent) {
    intent.key in definitions && RangeFits(nearest, definitions[intent.key], intent)
  }

  ghost predicate AllRepresentable(nearest: Rounding, definitions: map<string, ValueType>, intents: seq<Intent>) {
    forall i :: 0 <= i < |intents| ==> IntentFits(nearest, definitions, intents[i])
  }

  lemma CountsAreSizes(definitions: map<string, ValueType>, intents: seq<Intent>, counts: seq<Count>)
    requires AllCountable(definitions, intents) && Counts(definitions, intents, counts)
    ensures Sizes(counts) == AxisSizes(definitions, intents)
  {
    forall i | 0 <= i < |intents| ensures counts[i].size == SizeOrZero(definitions, intents[i]) {
      assert Countable(definitions[intents[i].key], intents[i]);
    }
  }

  method MaterializeIntent(t: ValueType, intent: Intent, nearest: Rounding) returns (r: Result<Binding>)
    requires Countable(t, intent)
    ensures r.Ok? <==> RangeFits(nearest, t, intent)
    ensures r.Ok? ==> MaterializedAs(t, intent, r.value)
  {
    match intent {
      case ValuesIntent(key, values) => return Ok(Binding(key, values));
      case RangeIntent(key, includeBase, range) =>
        var values := MaterializeRange(t, range, includeBase, nearest);
        if values.Err? {
          return Err(values.error);
        }
        RangeValuesValid(t, range, includeBase, nearest);
        return Ok(Binding(key, values.value));
    }
  }

  /** materialize_parameter_bindings: one binding per intent in order, each with exactly the number of
      alternatives counted beforehand, and never more combinations than allowed. */
  method MaterializeBindings(parameters: seq<WorkflowParameter>, intents: seq<Intent>, maxCombinations: Option<nat>,
                             nearest: Rounding)
    returns (r: Result<seq<Binding>>)
    ensures r.Ok? <==>
      (AllCountable(Definitions(parameters), intents)
       && (maxCombinations.Some? ==> Combinations(Definitions(parameters), intents) <= maxCombinations.value)
       && AllRepresentable(nearest, Definitions(parameters), intents))
    ensures r.Ok? ==> Materialized(Definitions(parameters), intents, r.value)
    ensures (AllCountable(Definitions(parameters), intents) && maxCombinations.Some?
             && Combinations(Definitions(parameters), intents) > maxCombinations.value) ==>
      r == Err(TooManyCombinations)
  {
    hide Definitions, Countable, RangeMeta, Representable, MaterializedAs, Product;
    var definitions := Definitions(parameters);
    var counts := BindingCounts(parameters, intents);
    if counts.Err? {
      return Err(counts.error);
    }
    CountsAreSizes(definitions, intents, counts.value);
    if maxCombinations.Some? && Product(Sizes(counts.value)) > maxCombinations.value {
      return Err(TooManyCombinations);
    }
    var bindings: seq<Binding> := [];
    for i := 0 to |intents|
      invariant AllCountable(definitions, intents[..i]) && Materialized(definitions, intents[..i], bindings)
      invariant AllRepresentable(nearest, definitions, intents[..i])
    {
      assert IntentFits(nearest, definitions, intents[i]) <==>
        RangeFits(nearest, definitions[intents[i].key], intents[i]);
      assert intents[..i + 1] == intents[..i] + [intents[i]];
      PrefixCountable(definitions, intents, i + 1);
      var binding := MaterializeIntent(definitions[intents[i].key], intents[i], nearest);
      if binding.Err? {
        return Err(binding.error);
      }
      OneMoreMaterialized(definitions, intents[..i], intents[i], bindings, binding.value);
      bindings := bindings + [binding.value];
    }
    assert intents[..|intents|] == intents;
    return Ok(bindings);
  }

  function AxisSizes(definitions: map<string, ValueType>, intents: seq<Intent>): (sizes: seq<nat>)
    ensures |sizes| == |intents|
  {
    seq(|intents|, i requires 0 <= i < |intents| => SizeOrZero(definitions, intents[i]))
  }

  function SizeOrZero(definitions: map<string, ValueType>, intent: Intent): nat {
    if intent.key in definitions && (intent.RangeIntent? ==> RangeMeta(definitions[intent.key], intent.range).Ok?)
    then AxisSize(definitions[intent.key], intent) else 0
  }

  function Combinations(definitions: map<string, ValueType>, intents: seq<Intent>): nat {
    Product(AxisSizes(definitions, intents))
  }
}
