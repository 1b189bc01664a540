/** Converting token amounts to a currency at a decimal rate. */
module Conversion {
  import opened Decimals
  import opened Streaming

  const ONE_DECIMAL: int := 1_000_000_000_000_000_000

  /** The amount times the rate's digits over the rate's power of ten, on big numbers. */
  function ConvertedAmount(amount: int, convertRate: string): int
    requires Plain(convertRate)
  {
    RateDigits(convertRate);
    var parsedDec := TrimTrailing(Frac(convertRate));
    var rate := TrimLeading(Whole(convertRate) + parsedDec);
    var expCarryAmount := Shift(1, |parsedDec|);
    ShiftPositive(|parsedDec|);
    TruncDiv(amount * (Value(rate) * ONE_DECIMAL), ONE_DECIMAL * expCarryAmount)
  }

  lemma {:induction false} ShiftPositive(k: nat)
    ensures Shift(1, k) > 0
  {
    if k > 0 {
      ShiftPositive(k - 1);
    }
  }

  lemma {:induction false} TimesTen(n: int, p: int)
    ensures 10 * (n * p) == n * (10 * p)
  {
  }

  lemma {:induction false} ShiftIsProduct(n: nat, k: nat)
    ensures Shift(n, k) == n * Shift(1, k)
  {
    if k > 0 {
      ShiftIsProduct(n, k - 1);
      TimesTen(n, Shift(1, k - 1));
    }
  }

  lemma {:induction false} FracTrimmed(whole: string, frac: string, f: string)
    requires IsDigits(whole) && IsDigits(frac) && f == TrimTrailing(frac)
    ensures IsDigits(f) && |f| <= |frac|
    ensures ScaledBy(Value(whole + frac), Value(whole + f), |frac| - |f|)
  {
    TrimTrailingPads(frac, f);
    var z := |frac| - |f|;
    assert whole + frac == (whole + f) + Zeros(z);
    ValuePadded(whole + f, z);
  }

  lemma {:induction false} LeadTrimmed(s: string, w: string)
    requires IsDigits(s) && w == TrimLeading(s)
    ensures IsDigits(w) && Value(w) == Value(s)
  {
    TrimLeadingPads(s, w);
    ValuePadded(w, |s| - |w|);
  }

  lemma {:induction false} RateParts(whole: string, frac: string, f: string, w: string)
    requires IsDigits(whole) && IsDigits(frac) && f == TrimTrailing(frac) && w == TrimLeading(whole + f)
    ensures IsDigits(f) && |f| <= |frac| && IsDigits(w)
    ensures ScaledBy(Value(whole + frac), Value(w), |frac| - |f|)
  {
    FracTrimmed(whole, frac, f);
    LeadTrimmed(whole + f, w);
  }

  lemma {:induction false} RateDigits(rate: string)
    requires Plain(rate)
    ensures var f := TrimTrailing(Frac(rate));
            && IsDigits(f) && |f| <= Scale(rate)
            && IsDigits(TrimLeading(Whole(rate) + f))
            && ScaledBy(Num(rate), Value(TrimLeading(Whole(rate) + f)), Scale(rate) - |f|)
  {
    PlainFrac(rate);
    var f := TrimTrailing(Frac(rate));
    RateParts(Whole(rate), Frac(rate), f, TrimLeading(Whole(rate) + f));
  }

  lemma {:induction false} MulAssoc(q: int, b: int, m: int)
    ensures q * (b * m) == (q * b) * m
    ensures (q * b + b) * m == q * (b * m) + b * m
    ensures (q * b - b) * m == q * (b * m) - b * m
  {
  }

  lemma {:induction false} TruncCancel(a: int, b: int, m: int)
    requires b > 0 && m > 0
    ensures b * m > 0
    ensures TruncDiv(a * m, b * m) == TruncDiv(a, b)
  {
    var q := TruncDiv(a, b);
    MulStrict(0, b, m);
    TruncBounds(a, b);
    MulAssoc(q, b, m);
    if a >= 0 {
      MulMono(0, a, m);
      MulMono(q * b, a, m);
      MulStrict(a, q * b + b, m);
    } else {
      MulMono(a, 0, m);
      MulMono(a, q * b, m);
      MulStrict(q * b - b, a, m);
    }
    TruncUnique(a * m, b * m, q);
  }

  lemma {:induction false} CancelBoth(amount: int, x: int, c: int, m: int, e: int)
    requires c > 0 && m > 0 && e > 0
    ensures e * c > 0 && c * m > 0
    ensures TruncDiv(amount * (x * e), e * c) == TruncDiv(amount * (x * m), c * m)
  {
    TruncCancel(amount * x, c, e);
    TruncCancel(amount * x, c, m);
    assert amount * (x * e) == (amount * x) * e;
    assert amount * (x * m) == (amount * x) * m;
    assert e * c == c * e;
  }

  lemma {:induction false} ProductForm(n: nat, x: nat, k: nat, z: nat, s: nat)
    requires ScaledBy(n, x, z) && s == k + z
    ensures n == x * Shift(1, z) && Shift(1, s) == Shift(1, k) * Shift(1, z)
  {
    ShiftIsProduct(x, z);
    ShiftSum(1, k, z);
    ShiftIsProduct(Shift(1, k), z);
  }

  /** The conversion is the truncation of the amount times the exact decimal rate. */
  lemma {:induction false} ConversionIsTruncation(amount: int, rate: string)
    requires Plain(rate)
    ensures Shift(1, Scale(rate)) > 0
    ensures ConvertedAmount(amount, rate) == TruncDiv(amount * Num(rate), Shift(1, Scale(rate)))
  {
    RateDigits(rate);
    var f := TrimTrailing(Frac(rate));
    var x, z := Value(TrimLeading(Whole(rate) + f)), Scale(rate) - |f|;
    ShiftPositive(|f|);
    ShiftPositive(z);
    ProductForm(Num(rate), x, |f|, z, Scale(rate));
    CancelBoth(amount, x, Shift(1, |f|), Shift(1, z), ONE_DECIMAL);
  }

  lemma {:induction false} DriftIdentity(b: int, n: int, t: int, k: int, q: int, p: int, s: int)
    ensures (q + t * p - s) * k == (b + t * n - s * k) - (b - q * k) - t * (n - p * k)
  {
    assert (q + t * p - s) * k == q * k + t * p * k - s * k;
    assert t * (n - p * k) == t * n - t * p * k;
  }

  /** Truncating the parts of b + t * n separately is off by at most t. */
  lemma {:induction false} TruncDrift(b: int, n: int, t: int, k: int)
    requires k > 0 && t >= 0
    ensures -t <= TruncDiv(b, k) + t * TruncDiv(n, k) - TruncDiv(b + t * n, k) <= t
  {
    var q, p, s := TruncDiv(b, k), TruncDiv(n, k), TruncDiv(b + t * n, k);
    TruncBounds(b, k);
    TruncBounds(n, k);
    TruncBounds(b + t * n, k);
    DriftIdentity(b, n, t, k, q, p, s);
    ScaledError(t, n - p * k, k);
    DriftBound(q + t * p - s, t, k, b - q * k, t * (n - p * k), b + t * n - s * k, b, n);
  }

  lemma {:induction false} ScaledError(t: int, e: int, k: int)
    requires -k < e < k && t >= 0
    ensures e >= 0 ==> 0 <= t * e <= t * (k - 1)
    ensures e <= 0 ==> -(t * (k - 1)) <= t * e <= 0
  {
    if e >= 0 {
      MulMono(0, e, t);
      MulMono(e, k - 1, t);
    } else {
      MulMono(e, 0, t);
      MulMono(-(k - 1), e, t);
      assert (-(k - 1)) * t == -(t * (k - 1));
    }
    assert t * e == e * t && t * (k - 1) == (k - 1) * t;
  }

  lemma {:induction false} DriftBound(diff: int, t: int, k: int, x: int, y: int, z: int, b: int, n: int)
    requires k > 0 && t >= 0 && diff * k == z - x - y
    requires (b >= 0 ==> 0 <= x < k) && (b <= 0 ==> -k < x <= 0)
    requires (n >= 0 ==> 0 <= y <= t * (k - 1)) && (n <= 0 ==> -(t * (k - 1)) <= y <= 0)
    requires (b + t * n >= 0 ==> 0 <= z < k) && (b + t * n <= 0 ==> -k < z <= 0)
    ensures -t <= diff <= t
  {
    if t == 0 {
      assert t * (k - 1) == 0 && t * n == 0;
      assert (-1) * k == -k && 1 * k == k;
      MulOrder(-1, diff, k);
      MulOrder(diff, 1, k);
    } else {
      SignsOfDrift(t, n, b);
      var u := t * (k - 1);
      MulMono(1, t, k - 1);
      assert u == t * k - t && u >= k - 1;
      assert (t + 1) * k == t * k + k && (-t - 1) * k == -(t * k) - k;
      MulOrder(-t - 1, diff, k);
      MulOrder(diff, t + 1, k);
    }
  }

  lemma {:induction false} SignsOfDrift(t: int, n: int, b: int)
    requires t >= 0
    ensures b >= 0 && n >= 0 ==> b + t * n >= 0
    ensures b <= 0 && n <= 0 ==> b + t * n <= 0
  {
    if n >= 0 {
      MulMono(0, n, t);
    } else {
      MulMono(n, 0, t);
    }
    assert t * n == n * t;
  }

  lemma {:induction false} StreamedProduct(b: int, n: int, t: int, r: int)
    ensures (b + n * t) * r == b * r + t * (n * r)
  {
    assert (b + n * t) * r == b * r + n * t * r;
    assert n * t * r == t * (n * r);
  }

  /** Streaming the converted balance by the converted net flow for t seconds differs from converting
      the streamed balance by at most t units. */
  lemma {:induction false} ConvertedStreamDrift(balance: int, netFlow: int, rate: string, t: int)
    requires Plain(rate) && t >= 0
    ensures var shown := CurrentAmount(ConvertedAmount(balance, rate), ConvertedAmount(netFlow, rate), 0, 1000 * t);
            var exact := ConvertedAmount(CurrentAmount(balance, netFlow, 0, 1000 * t), rate);
            -t <= shown - exact <= t
  {
    ConversionIsTruncation(balance, rate);
    ConversionIsTruncation(netFlow, rate);
    ConversionIsTruncation(balance + netFlow * t, rate);
    var r, k := Num(rate), Shift(1, Scale(rate));
    assert DifferenceInSeconds(1000 * t, 0) == t;
    TruncDrift(balance * r, netFlow * r, t, k);
    StreamedProduct(balance, netFlow, t, r);
    assert t * TruncDiv(netFlow * r, k) == TruncDiv(netFlow * r, k) * t;
  }
}
