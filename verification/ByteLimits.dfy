/** Declared and received lengths against a byte limit, on decimal strings of any length. */
module ByteLimits {
  import opened Common
  import opened Decimals
  import K = Keyset

  /** s.lstrip("0") */
  function LeftStripped(s: string): string {
    if s == "" || s[0] != '0' then s else LeftStripped(s[1..])
  }

  /** s.lstrip("0") or "0" */
  function Normalized(s: string): string { if LeftStripped(s) == "" then "0" else LeftStripped(s) }

  /** Digits without a needless leading zero. */
  predicate Canonical(s: string) { s != "" && AllDigits(s) && (|s| > 1 ==> s[0] != '0') }

  lemma {:induction false} StrippedValue(s: string)
    requires AllDigits(s)
    ensures AllDigits(LeftStripped(s)) && Value(LeftStripped(s)) == Value(s)
    ensures LeftStripped(s) != "" ==> LeftStripped(s)[0] != '0'
  {
    if s != "" && s[0] == '0' {
      StrippedValue(s[1..]);
      assert s == Zeros(1) + s[1..];
      LeadingZeros(1, s[1..]);
    }
  }

  lemma NormalizedValue(s: string)
    requires s != "" && AllDigits(s)
    ensures Canonical(Normalized(s)) && Value(Normalized(s)) == Value(s)
  {
    StrippedValue(s);
    assert "0"[..0] == "";
  }

  /** n digits write a number below 10^n, and at least 10^(n-1) unless they begin with a zero. */
  lemma {:induction false} DigitBounds(s: string)
    requires AllDigits(s)
    ensures Value(s) < Pow10(|s|)
    ensures s != "" && s[0] != '0' ==> Value(s) >= Pow10(|s| - 1)
  {
    if s != "" {
      DigitBounds(s[..|s| - 1]);
      if |s| == 1 {
        assert s[..0] == "";
        assert s[0] != '0' ==> DigitValue(s[0]) >= 1;
      }
    }
  }

  lemma {:induction false} Pow10Rises(a: nat, b: nat)
    requires a <= b
    ensures Pow10(a) <= Pow10(b)
  {
    if a < b { Pow10Rises(a, b - 1); }
  }

  /** Between canonical numerals, more digits mean a larger number. */
  lemma LongerIsLarger(a: string, b: string)
    requires Canonical(a) && Canonical(b) && |a| > |b|
    ensures Value(a) > Value(b)
  {
    DigitBounds(a);
    DigitBounds(b);
    Pow10Rises(|b|, |a| - 1);
  }

  /** Among numerals of one length, text order is number order. */
  lemma {:induction false} SameLengthOrder(a: string, b: string)
    requires AllDigits(a) && AllDigits(b) && |a| == |b|
    ensures K.TextLess(a, b) <==> Value(a) < Value(b)
    ensures a == b <==> Value(a) == Value(b)
  {
    if a != "" {
      HeadValue(a);
      HeadValue(b);
      SameLengthOrder(a[1..], b[1..]);
      DigitBounds(a[1..]);
      DigitBounds(b[1..]);
      assert a == [a[0]] + a[1..] && b == [b[0]] + b[1..];
      LeadingDigit(DigitValue(a[0]), DigitValue(b[0]), Value(a[1..]), Value(b[1..]), Pow10(|a| - 1));
    }
  }

  lemma HeadValue(s: string)
    requires s != "" && AllDigits(s)
    ensures Value(s) == DigitValue(s[0]) * Pow10(|s| - 1) + Value(s[1..])
  {
    ValueAppend([s[0]], s[1..]);
    assert s == [s[0]] + s[1..];
    assert [s[0]][..0] == "";
  }

  lemma LeadingDigit(x: nat, y: nat, a: nat, b: nat, p: nat)
    requires a < p && b < p
    ensures x < y ==> x * p + a < y * p + b
    ensures x > y ==> x * p + a > y * p + b
    ensures x == y ==> (x * p + a < y * p + b <==> a < b) && (x * p + a == y * p + b <==> a == b)
  {
    if x < y { Gap(x, y, p); }
    if y < x { Gap(y, x, p); }
  }

  lemma Gap(x: nat, y: nat, p: nat)
    requires x < y
    ensures x * p + p <= y * p
  {
    assert (y - x - 1) * p >= 0;
    assert y * p == x * p + p + (y - x - 1) * p;
  }

  lemma {:induction false} NumeralCanonical(n: nat)
    ensures Canonical(Numeral(n)) && (n > 0 ==> Numeral(n)[0] != '0')
  {
    if n >= 10 {
      NumeralCanonical(n / 10);
      assert Numeral(n)[0] == Numeral(n / 10)[0];
    } else {
      assert DigitValue(DigitOf(n)) == n;
    }
  }

  // ---------- the two checks ----------

  /** The server's check: shorter than the limit's own numeral, then numeric. */
  predicate ServerRefuses(length: string, limit: nat)
    requires AllDigits(length)
  {
    var normalized := Normalized(length);
    |normalized| > |Numeral(limit)| || (AllDigits(normalized) && Value(normalized) > limit)
  }

  /** The client's check: by length, then by text. */
  predicate ClientRefuses(length: string, limit: nat) {
    var normalized, maximum := Normalized(length), Numeral(limit);
    |normalized| > |maximum| || (|normalized| == |maximum| && K.TextLess(maximum, normalized))
  }

  /** Both decide exactly whether the declared number is above the limit, whatever its length. */
  lemma RefusalIsNumeric(length: string, limit: nat)
    requires length != "" && AllDigits(length)
    ensures ServerRefuses(length, limit) <==> Value(length) > limit
    ensures ClientRefuses(length, limit) <==> Value(length) > limit
  {
    var normalized, maximum := Normalized(length), Numeral(limit);
    NormalizedValue(length);
    NumeralCanonical(limit);
    NumeralValue(limit);
    if |normalized| > |maximum| {
      LongerIsLarger(normalized, maximum);
    } else if |normalized| < |maximum| {
      LongerIsLarger(maximum, normalized);
    } else {
      SameLengthOrder(maximum, normalized);
    }
  }

  // ---------- bounded accumulation ----------

  function Concat(chunks: seq<seq<bv8>>): seq<bv8> {
    if chunks == [] then [] else Concat(chunks[..|chunks| - 1]) + chunks[|chunks| - 1]
  }

  lemma {:induction false} ConcatGrows(chunks: seq<seq<bv8>>, k: nat)
    requires k <= |chunks|
    ensures |Concat(chunks[..k])| <= |Concat(chunks)|
  {
    if k == |chunks| {
      assert chunks[..k] == chunks;
    } else {
      assert chunks[..|chunks| - 1][..k] == chunks[..k];
      ConcatGrows(chunks[..|chunks| - 1], k);
    }
  }

  /** Collects the response body; refuses as soon as it would exceed the limit, and only then. */
  method Accumulate(chunks: seq<seq<bv8>>, limit: nat) returns (content: Option<seq<bv8>>)
    ensures content == if |Concat(chunks)| <= limit then Some(Concat(chunks)) else None
  {
    var collected: seq<bv8> := [];
    for i := 0 to |chunks|
      invariant collected == Concat(chunks[..i]) && |collected| <= limit
    {
      assert chunks[..i + 1][..i] == chunks[..i];
      if |chunks[i]| > limit - |collected| {
        ConcatGrows(chunks, i + 1);
        return None;
      }
      collected := collected + chunks[i];
    }
    assert chunks[..|chunks|] == chunks;
    return Some(collected);
  }

  datatype Response = BadEncoding | OverLimit | TransportFailure | Body(content: seq<bv8>)

  /** The header declares, in decimal digits, more than the limit. */
  predicate Declares(declared: string, limit: nat) { declared != "" && AllDigits(declared) && Value(declared) > limit }

  /** The size part of _request: a well-formed declaration over the limit refuses at once; a malformed
      one is ignored; the received bytes decide in the end. A response that was read before it came here
      carries its content; any other is read chunk by chunk, and `broken` when the stream ends in an error. */
  method ReadResponse(identity: bool, declared: string, buffered: Option<seq<bv8>>, chunks: seq<seq<bv8>>, broken: bool,
                      limit: nat)
    returns (r: Response)
    ensures r.BadEncoding? <==> !identity
    ensures r.OverLimit? <==> identity && (Declares(declared, limit) || |ContentOf(buffered, chunks)| > limit)
    ensures r.TransportFailure? <==>
      identity && !Declares(declared, limit) && buffered.None? && |Concat(chunks)| <= limit && broken
    ensures r.Body? ==> r.content == ContentOf(buffered, chunks)
  {
    if !identity {
      return BadEncoding;
    }
    if declared != "" && AllDigits(declared) {
      RefusalIsNumeric(declared, limit);
      if ClientRefuses(declared, limit) {
        return OverLimit;
      }
    }
    if buffered.Some? {
      return if |buffered.value| > limit then OverLimit else Body(buffered.value);
    }
    var content := Accumulate(chunks, limit);
    if content.None? {
      return OverLimit;
    }
    return if broken then TransportFailure else Body(content.value);
  }

  function ContentOf(buffered: Option<seq<bv8>>, chunks: seq<seq<bv8>>): seq<bv8> {
    if buffered.Some? then buffered.value else Concat(chunks)
  }
}
