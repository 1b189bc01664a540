/** The decimal printer and parser: strings of digits with at most one point. */
module Decimals {

  // ---------------------------------------------------------------- digits and their value

  predicate IsDigits(s: string) {
    forall i :: 0 <= i < |s| ==> '0' <= s[i] <= '9'
  }

  /** n times 10^k. */
  function Shift(n: nat, k: nat): nat {
    if k == 0 then n else 10 * Shift(n, k - 1)
  }

  /** The value of the first k digits of s. */
  function ValueTo(s: string, k: nat): nat
    requires IsDigits(s) && k <= |s|
  {
    if k == 0 then 0 else 10 * ValueTo(s, k - 1) + (s[k - 1] as int - '0' as int)
  }

  function Value(s: string): nat
    requires IsDigits(s)
  {
    ValueTo(s, |s|)
  }

  function Zeros(n: nat): (r: string)
    ensures |r| == n && IsDigits(r)
  {
    seq(n, _ => '0')
  }

  function PadStart(s: string, n: nat): string {
    if |s| >= n then s else Zeros(n - |s|) + s
  }

  function PadEnd(s: string, n: nat): string {
    if |s| >= n then s else s + Zeros(n - |s|)
  }

  /** The end of the run of zeros that starts at i. */
  function ZerosFrom(s: string, i: nat): (j: nat)
    requires i <= |s|
    ensures i <= j <= |s|
    decreases |s| - i
  {
    if i < |s| && s[i] == '0' then ZerosFrom(s, i + 1) else i
  }

  /** The start of the run of zeros that ends before i. */
  function ZerosUpTo(s: string, i: nat): (j: nat)
    requires i <= |s|
    ensures j <= i
  {
    if i > 0 && s[i - 1] == '0' then ZerosUpTo(s, i - 1) else i
  }

  function TrimLeading(s: string): string {
    s[ZerosFrom(s, 0)..]
  }

  function TrimTrailing(s: string): string {
    s[..ZerosUpTo(s, |s|)]
  }

  lemma {:induction false} ZerosFromStops(s: string, i: nat)
    requires i <= |s|
    ensures var j := ZerosFrom(s, i);
            && (forall k :: i <= k < j ==> s[k] == '0')
            && (j < |s| ==> s[j] != '0')
    decreases |s| - i
  {
    if i < |s| && s[i] == '0' {
      ZerosFromStops(s, i + 1);
    }
  }

  lemma {:induction false} ZerosUpToStops(s: string, i: nat)
    requires i <= |s|
    ensures var j := ZerosUpTo(s, i);
            && (forall k :: j <= k < i ==> s[k] == '0')
            && (j > 0 ==> s[j - 1] != '0')
  {
    if i > 0 && s[i - 1] == '0' {
      ZerosUpToStops(s, i - 1);
    }
  }

  lemma {:induction false} TrimLeadingPads(s: string, r: string)
    requires r == TrimLeading(s)
    ensures |r| <= |s| && s == Zeros(|s| - |r|) + r
    ensures r != "" ==> r[0] != '0'
    ensures IsDigits(s) ==> IsDigits(r)
  {
    ZerosFromStops(s, 0);
  }

  lemma {:induction false} TrimTrailingPads(s: string, r: string)
    requires r == TrimTrailing(s)
    ensures |r| <= |s| && s == r + Zeros(|s| - |r|)
    ensures r != "" ==> r[|r| - 1] != '0'
    ensures IsDigits(s) ==> IsDigits(r)
  {
    ZerosUpToStops(s, |s|);
  }

  // ---------------------------------------------------------------- numerals

  /** The first point at or after i, or the end of the string. */
  function DotFrom(s: string, i: nat): (j: nat)
    requires i <= |s|
    ensures i <= j <= |s|
    decreases |s| - i
  {
    if i == |s| || s[i] == '.' then i else DotFrom(s, i + 1)
  }

  function Dot(s: string): (j: nat)
    ensures j <= |s|
  {
    DotFrom(s, 0)
  }

  lemma {:induction false} DotIsFirst(s: string, i: nat, j: nat)
    requires i <= j <= |s| && (forall k :: i <= k < j ==> s[k] != '.') && (j < |s| ==> s[j] == '.')
    ensures DotFrom(s, i) == j
    decreases j - i
  {
    if i < j {
      DotIsFirst(s, i + 1, j);
    }
  }

  function AfterDot(s: string): string {
    if Dot(s) < |s| then s[Dot(s) + 1..] else ""
  }

  /** The parts before the first and the second point, as splitting at '.' gives them. */
  function Whole(s: string): string {
    s[..Dot(s)]
  }

  function Frac(s: string): string {
    AfterDot(s)[..Dot(AfterDot(s))]
  }

  /** A plain non-negative numeral: digits with at most one point; either part may be empty. */
  predicate Plain(s: string) {
    IsDigits(Whole(s)) && IsDigits(AfterDot(s))
  }

  lemma {:induction false} DigitsHaveNoDot(s: string)
    requires IsDigits(s)
    ensures Dot(s) == |s|
  {
    DotIsFirst(s, 0, |s|);
  }

  lemma {:induction false} PlainFrac(s: string)
    requires Plain(s)
    ensures IsDigits(Frac(s)) && Frac(s) == AfterDot(s)
  {
    DigitsHaveNoDot(AfterDot(s));
  }

  /** A plain numeral denotes Num divided by 10^Scale. */
  function Num(s: string): nat
    requires Plain(s)
  {
    PlainFrac(s);
    Value(Whole(s) + Frac(s))
  }

  function Scale(s: string): nat {
    |Frac(s)|
  }

  lemma {:induction false} JoinSplits(w: string, f: string)
    requires IsDigits(w) && IsDigits(f)
    ensures Whole(w + "." + f) == w && Frac(w + "." + f) == f && Plain(w + "." + f)
    ensures Whole(w) == w && Frac(w) == "" && Plain(w)
  {
    var s := w + "." + f;
    DigitsHaveNoDot(w);
    DigitsHaveNoDot(f);
    assert s[|w|] == '.';
    assert forall i :: 0 <= i < |w| ==> s[i] == w[i];
    DotIsFirst(s, 0, |w|);
    assert s[|w| + 1..] == f;
  }

  /** The numeral with parts w and f, without a point when f is empty. */
  function Join(w: string, f: string): string {
    if f == "" then w else w + "." + f
  }

  lemma {:induction false} JoinDenotes(w: string, f: string)
    requires IsDigits(w) && IsDigits(f)
    ensures Plain(Join(w, f)) && Num(Join(w, f)) == Value(w + f) && Scale(Join(w, f)) == |f|
  {
    JoinSplits(w, f);
  }

  // ---------------------------------------------------------------- the two functions

  function SplitDecimalNumber(num: string): (string, string) {
    (TrimLeading(Whole(num)), TrimTrailing(Frac(num)))
  }

  /** The printed digits before and after the inserted point. */
  function Before(w: string, d: nat): string {
    var p := PadStart(w, d + 1);
    p[..|p| - d]
  }

  function Behind(w: string, d: nat): string {
    var p := PadStart(w, d + 1);
    p[|p| - d..]
  }

  function FromDecimals(num: string, decimals: nat, truncate: bool): string {
    var (whole, dec) := SplitDecimalNumber(num);
    if whole == "" && dec == "" then "0"
    else
      var wholeWithoutBase, decWithoutBase := Before(whole, decimals), Behind(whole, decimals);
      if !truncate && dec != "" then Join(wholeWithoutBase, decWithoutBase + dec)
      else Join(wholeWithoutBase, TrimTrailing(decWithoutBase))
  }

  /** All the digits, padded behind to fill the new whole part. */
  function Full(w: string, f: string, d: nat): (r: string)
    ensures |r| >= |w| + d
  {
    PadEnd(w + f, |w| + d)
  }

  function ToDecimals(num: string, decimals: nat, truncate: bool): string {
    var (whole, dec) := SplitDecimalNumber(num);
    if whole == "" && (dec == "" || decimals == 0) then "0"
    else
      var wholeLengthWithBase := |whole| + decimals;
      var withoutDecimals := Full(whole, dec, decimals);
      var wholeWithBase := withoutDecimals[..wholeLengthWithBase];
      if truncate then wholeWithBase else Join(wholeWithBase, withoutDecimals[wholeLengthWithBase..])
  }

  // ---------------------------------------------------------------- arithmetic of digit strings

  ghost predicate ScaledBy(n: nat, x: nat, z: nat) {
    n == Shift(x, z)
  }

  lemma {:induction false} ShiftSum(n: nat, a: nat, b: nat)
    ensures Shift(Shift(n, a), b) == Shift(n, a + b)
  {
    if b > 0 {
      ShiftSum(n, a, b - 1);
    }
  }

  lemma {:induction false} ShiftAdd(m: nat, n: nat, k: nat)
    ensures Shift(m + n, k) == Shift(m, k) + Shift(n, k)
  {
    if k > 0 {
      ShiftAdd(m, n, k - 1);
    }
  }

  lemma {:induction false} ShiftOrder(m: nat, n: nat, k: nat)
    ensures m < n <==> Shift(m, k) < Shift(n, k)
    ensures m == n <==> Shift(m, k) == Shift(n, k)
  {
    if k > 0 {
      ShiftOrder(m, n, k - 1);
    }
  }

  lemma {:induction false} ShiftZero(k: nat)
    ensures Shift(0, k) == 0
  {
    if k > 0 {
      ShiftZero(k - 1);
    }
  }

  lemma {:induction false} ValueJoinTo(a: string, b: string, k: nat)
    requires IsDigits(a) && IsDigits(b) && k <= |b|
    ensures ValueTo(a + b, |a| + k) == Shift(Value(a), k) + ValueTo(b, k)
    ensures ValueTo(b, k) < Shift(1, k)
  {
    if k > 0 {
      ValueJoinTo(a, b, k - 1);
    } else {
      SamePrefix(a, a + b, |a|);
    }
  }

  lemma {:induction false} SamePrefix(a: string, b: string, k: nat)
    requires IsDigits(a) && IsDigits(b) && k <= |a| && k <= |b|
    requires forall i :: 0 <= i < k ==> a[i] == b[i]
    ensures ValueTo(a, k) == ValueTo(b, k)
  {
    if k > 0 {
      SamePrefix(a, b, k - 1);
    }
  }

  lemma {:induction false} ValueJoin(a: string, b: string)
    requires IsDigits(a) && IsDigits(b)
    ensures Value(a + b) == Shift(Value(a), |b|) + Value(b)
    ensures Value(b) < Shift(1, |b|)
  {
    ValueJoinTo(a, b, |b|);
  }

  lemma {:induction false} ValueZeros(n: nat, k: nat)
    requires k <= n
    ensures ValueTo(Zeros(n), k) == 0
  {
    if k > 0 {
      ValueZeros(n, k - 1);
    }
  }

  lemma {:induction false} ValuePadded(s: string, n: nat)
    requires IsDigits(s)
    ensures Value(Zeros(n) + s) == Value(s)
    ensures Value(s + Zeros(n)) == Shift(Value(s), n)
  {
    ValueJoin(Zeros(n), s);
    ValueJoin(s, Zeros(n));
    ValueZeros(n, n);
    ShiftZero(|s|);
  }

  lemma {:induction false} NonZeroValue(s: string, k: nat)
    requires IsDigits(s) && 0 < k <= |s| && s[0] != '0'
    ensures ValueTo(s, k) >= Shift(1, k - 1)
  {
    if k > 1 {
      NonZeroValue(s, k - 1);
    }
  }

  lemma {:induction false} ValuePaddedBoth(y: nat, w: string, f: string, z: nat)
    requires IsDigits(w) && IsDigits(f)
    ensures Value((Zeros(y) + w) + (f + Zeros(z))) == Shift(Value(w + f), z)
  {
    assert (Zeros(y) + w) + (f + Zeros(z)) == Zeros(y) + ((w + f) + Zeros(z));
    ValuePadded((w + f) + Zeros(z), y);
    ValuePadded(w + f, z);
  }

  lemma {:induction false} TrimmedParts(whole: string, frac: string, w: string, f: string)
    requires IsDigits(whole) && IsDigits(frac) && w == TrimLeading(whole) && f == TrimTrailing(frac)
    ensures IsDigits(w) && IsDigits(f) && |f| <= |frac|
    ensures Value(w) == Value(whole)
    ensures ScaledBy(Value(whole + frac), Value(w + f), |frac| - |f|)
    ensures w != "" ==> w[0] != '0'
    ensures f != "" ==> f[|f| - 1] != '0'
  {
    TrimLeadingPads(whole, w);
    TrimTrailingPads(frac, f);
    ValuePadded(w, |whole| - |w|);
    ValuePaddedBoth(|whole| - |w|, w, f, |frac| - |f|);
  }

  /** w and f are the trimmed parts of a numeral that denotes n / 10^s. */
  ghost predicate Trimmed(n: nat, s: nat, w: string, f: string) {
    && IsDigits(w) && IsDigits(f)
    && (w != "" ==> w[0] != '0') && (f != "" ==> f[|f| - 1] != '0')
    && |f| <= s && ScaledBy(n, Value(w + f), s - |f|)
  }

  /** Trimming a plain numeral's parts scales its numerator and denominator alike. */
  lemma {:induction false} TrimmedValue(num: string, w: string, f: string)
    requires Plain(num) && w == TrimLeading(Whole(num)) && f == TrimTrailing(Frac(num))
    ensures IsDigits(w) && IsDigits(f)
    ensures Value(w) == Value(Whole(num))
    ensures |f| <= Scale(num)
    ensures ScaledBy(Num(num), Value(w + f), Scale(num) - |f|)
    ensures Trimmed(Num(num), Scale(num), w, f)
  {
    PlainFrac(num);
    TrimmedParts(Whole(num), Frac(num), w, f);
  }

  // ---------------------------------------------------------------- parsing is exact or floor

  /** x / 10^f is n / 10^k, cross-multiplied. */
  ghost predicate SameShift(x: nat, f: nat, n: nat, k: nat) {
    Shift(x, f) == Shift(n, k)
  }

  /** x is y times 10^d, as numbers denoted by plain numerals. */
  ghost predicate Shifted(x: string, y: string, d: nat)
    requires Plain(x) && Plain(y)
  {
    SameShift(Num(x), Scale(y), Num(y), d + Scale(x))
  }

  /** v is the floor of n / 10^f * 10^d. */
  ghost predicate IsFloor(v: nat, n: nat, f: nat, d: nat) {
    Shift(v, f) <= Shift(n, d) < Shift(v + 1, f)
  }

  lemma {:induction false} FloorScaled(v: nat, n: nat, f: nat, d: nat, z: nat, n': nat, f': nat)
    requires IsFloor(v, n, f, d) && ScaledBy(n', n, z) && f' == f + z
    ensures IsFloor(v, n', f', d)
  {
    ShiftSum(n, z, d);
    ShiftSum(n, d, z);
    ShiftSum(v, f, z);
    ShiftSum(v + 1, f, z);
    ShiftOrder(Shift(n, d), Shift(v, f), z);
    ShiftOrder(Shift(n, d), Shift(v + 1, f), z);
  }

  lemma {:induction false} EqualScaled(x: nat, f: nat, n: nat, k: nat, z: nat, n': nat, f': nat)
    requires SameShift(x, f, n, k) && ScaledBy(n', n, z) && f' == f + z
    ensures SameShift(x, f', n', k)
  {
    ShiftSum(x, f, z);
    ShiftSum(n, k, z);
    ShiftSum(n, z, k);
  }

  lemma {:induction false} FullShort(w: string, f: string, d: nat)
    requires IsDigits(w) && IsDigits(f) && |f| <= d
    ensures IsDigits(Full(w, f, d)) && |Full(w, f, d)| == |w| + d
    ensures Value(Full(w, f, d)) == Shift(Value(w + f), d - |f|)
  {
    ValuePadded(w + f, d - |f|);
    assert Full(w, f, d) == (w + f) + Zeros(d - |f|);
  }

  lemma {:induction false} FullLong(w: string, f: string, d: nat)
    requires IsDigits(w) && IsDigits(f) && d < |f|
    ensures Full(w, f, d) == w + f
    ensures IsDigits(Full(w, f, d)[..|w| + d]) && IsDigits(Full(w, f, d)[|w| + d..])
    ensures |Full(w, f, d)[|w| + d..]| == |f| - d
    ensures Value(w + f) ==
            Shift(Value(Full(w, f, d)[..|w| + d]), |f| - d) + Value(Full(w, f, d)[|w| + d..])
    ensures Value(Full(w, f, d)[|w| + d..]) < Shift(1, |f| - d)
  {
    var full := Full(w, f, d);
    var a, b := full[..|w| + d], full[|w| + d..];
    assert a + b == full == w + f;
    ValueJoin(a, b);
  }

  lemma {:induction false} FloorOfTrimmed(w: string, f: string, d: nat)
    requires IsDigits(w) && IsDigits(f)
    ensures IsDigits(Full(w, f, d)[..|w| + d])
    ensures IsFloor(Value(Full(w, f, d)[..|w| + d]), Value(w + f), |f|, d)
  {
    var full, n, k := Full(w, f, d), Value(w + f), |f|;
    var r := full[..|w| + d];
    if k <= d {
      FullShort(w, f, d);
      assert r == full;
      FloorOfShort(n, d - k, k);
    } else {
      FullLong(w, f, d);
      FloorOfLong(Value(r), n, k - d, d);
    }
  }

  lemma {:induction false} FloorOfShort(n: nat, k: nat, f: nat)
    ensures IsFloor(Shift(n, k), n, f, k + f)
  {
    ShiftSum(n, k, f);
    ShiftOrder(Shift(n, k), Shift(n, k) + 1, f);
  }

  lemma {:induction false} FloorOfLong(v: nat, n: nat, k: nat, d: nat)
    requires Shift(v, k) <= n < Shift(v, k) + Shift(1, k)
    ensures IsFloor(v, n, k + d, d)
  {
    ShiftAdd(v, 1, k);
    ShiftSum(v, k, d);
    ShiftSum(v + 1, k, d);
    ShiftOrder(n, Shift(v, k), d);
    ShiftOrder(n, Shift(v + 1, k), d);
  }

  lemma {:induction false} ZeroIsFloor(f: string, d: nat)
    requires IsDigits(f) && (f == "" || d == 0)
    ensures IsFloor(0, Value(f), |f|, d)
  {
    ValueJoin("", f);
    ShiftZero(|f|);
    ShiftZero(d);
  }

  lemma {:induction false} FloorCase(num: string, w: string, f: string, d: nat, v: nat)
    requires Plain(num) && w == TrimLeading(Whole(num)) && f == TrimTrailing(Frac(num))
    requires IsDigits(w + f) && IsFloor(v, Value(w + f), |f|, d)
    ensures IsFloor(v, Num(num), Scale(num), d)
  {
    TrimmedValue(num, w, f);
    FloorScaled(v, Value(w + f), |f|, d, Scale(num) - |f|, Num(num), Scale(num));
  }

  /** Parsing with truncation denotes the floor of the numeral times 10^decimals. */
  lemma {:induction false} ToDecimalsIsFloor(num: string, decimals: nat)
    requires Plain(num)
    ensures IsDigits(ToDecimals(num, decimals, true))
    ensures IsFloor(Value(ToDecimals(num, decimals, true)), Num(num), Scale(num), decimals)
  {
    var (w, f) := SplitDecimalNumber(num);
    assert IsDigits(w) && IsDigits(f) by {
      TrimmedValue(num, w, f);
    }
    if w == "" && (f == "" || decimals == 0) {
      assert w + f == f;
      ZeroIsFloor(f, decimals);
      FloorCase(num, w, f, decimals, 0);
      assert Value("0") == 0;
    } else {
      var r := Full(w, f, decimals)[..|w| + decimals];
      assert r == ToDecimals(num, decimals, true);
      FloorOfTrimmed(w, f, decimals);
      assert IsFloor(Value(r), Num(num), Scale(num), decimals) by {
        FloorCase(num, w, f, decimals, Value(r));
      }
    }
  }

  lemma {:induction false} ExactOfTrimmed(w: string, f: string, d: nat, a: string, b: string)
    requires IsDigits(w) && IsDigits(f)
    requires a == Full(w, f, d)[..|w| + d] && b == Full(w, f, d)[|w| + d..]
    ensures IsDigits(a) && IsDigits(b)
    ensures SameShift(Value(a + b), |f|, Value(w + f), d + |b|)
  {
    if |f| <= d {
      FullShort(w, f, d);
      assert a + b == Full(w, f, d);
      ShiftSum(Value(w + f), d - |f|, |f|);
    } else {
      FullLong(w, f, d);
      assert a + b == w + f;
    }
  }

  lemma {:induction false} ExactCase(num: string, x: nat, k: nat, d: nat, a: string, b: string)
    requires Plain(num) && IsDigits(a) && IsDigits(b)
    requires k <= Scale(num) && ScaledBy(Num(num), x, Scale(num) - k)
    requires SameShift(Value(a + b), k, x, d + |b|)
    ensures Plain(Join(a, b)) && Shifted(Join(a, b), num, d)
  {
    EqualScaled(Value(a + b), k, x, d + |b|, Scale(num) - k, Num(num), Scale(num));
    JoinDenotes(a, b);
    ShiftedIf(Join(a, b), num, d, Value(a + b), |b|);
  }

  lemma {:induction false} PartsAreExact(num: string, w: string, f: string, d: nat, a: string, b: string)
    requires Plain(num) && w == TrimLeading(Whole(num)) && f == TrimTrailing(Frac(num))
    requires IsDigits(w) && IsDigits(f)
    requires a == Full(w, f, d)[..|w| + d] && b == Full(w, f, d)[|w| + d..]
    ensures Plain(Join(a, b)) && Shifted(Join(a, b), num, d)
  {
    hide Join, ValueTo, Trimmed, DotFrom;
    ExactOfTrimmed(w, f, d, a, b);
    TrimmedValue(num, w, f);
    ExactCase(num, Value(w + f), |f|, d, a, b);
  }

  lemma {:induction false} ShiftedIf(x: string, y: string, d: nat, n: nat, k: nat)
    requires Plain(x) && Plain(y) && Num(x) == n && Scale(x) == k
    requires SameShift(n, Scale(y), Num(y), d + k)
    ensures Shifted(x, y, d)
  {
  }

  /** Without truncation parsing is exact, except that a proper fraction shifted by no decimals is
      returned as 0: it is exact if and only if that is not the case. */
  lemma {:induction false} ToDecimalsIsExact(num: string, decimals: nat)
    requires Plain(num)
    ensures Plain(ToDecimals(num, decimals, false))
    ensures Shifted(ToDecimals(num, decimals, false), num, decimals) <==>
            !(decimals == 0 && 0 < Num(num) < Shift(1, Scale(num)))
  {
    var (w, f) := SplitDecimalNumber(num);
    assert IsDigits(w) && IsDigits(f) by {
      TrimmedValue(num, w, f);
    }
    if w == "" && (f == "" || decimals == 0) {
      TrimmedValue(num, w, f);
      assert w + f == f;
      ZeroIsExactOnlyForZero(num, f, Scale(num) - |f|, decimals);
    } else {
      NonZeroIsExact(num, w, f, decimals);
      if w != "" {
        WholePartIsAtLeastOne(num, w, f);
      }
    }
  }

  lemma {:induction false} NonZeroIsExact(num: string, w: string, f: string, decimals: nat)
    requires Plain(num) && w == TrimLeading(Whole(num)) && f == TrimTrailing(Frac(num))
    requires IsDigits(w) && IsDigits(f) && !(w == "" && (f == "" || decimals == 0))
    ensures Plain(ToDecimals(num, decimals, false))
    ensures Shifted(ToDecimals(num, decimals, false), num, decimals)
  {
    var a, b := Full(w, f, decimals)[..|w| + decimals], Full(w, f, decimals)[|w| + decimals..];
    assert ToDecimals(num, decimals, false) == Join(a, b);
    PartsAreExact(num, w, f, decimals, a, b);
  }

  lemma {:induction false} WholePartIsAtLeastOne(num: string, w: string, f: string)
    requires Plain(num) && w == TrimLeading(Whole(num)) && f == TrimTrailing(Frac(num)) && w != ""
    ensures Num(num) >= Shift(1, Scale(num))
  {
    TrimmedValue(num, w, f);
    AtLeastOne(w, f, Scale(num) - |f|);
  }

  lemma {:induction false} ZeroIsExactOnlyForZero(num: string, f: string, z: nat, decimals: nat)
    requires Plain(num) && IsDigits(f) && Scale(num) == |f| + z && ScaledBy(Num(num), Value(f), z)
    requires f == "" || decimals == 0
    ensures Plain("0")
    ensures Shifted("0", num, decimals) <==> !(decimals == 0 && 0 < Num(num) < Shift(1, Scale(num)))
  {
    JoinDenotes("0", "");
    assert "0" + "" == "0" && Value("0") == 0;
    ProperFraction(Value(f), |f|, z, Num(num), Scale(num)) by {
      ValueJoin("", f);
    }
    if f == "" {
      assert Value(f) == 0;
    }
    ZeroShifts(Num(num), Scale(num), decimals);
  }

  lemma {:induction false} ProperFraction(v: nat, k: nat, z: nat, n: nat, s: nat)
    requires v < Shift(1, k) && ScaledBy(n, v, z) && s == k + z
    ensures n < Shift(1, s) && (v == 0 ==> n == 0)
  {
    ShiftSum(1, k, z);
    ShiftOrder(v, Shift(1, k), z);
    ShiftZero(z);
  }

  lemma {:induction false} ZeroShifts(n: nat, s: nat, d: nat)
    ensures SameShift(0, s, n, d) <==> n == 0
  {
    ShiftZero(s);
    ShiftZero(d);
    ShiftOrder(0, n, d);
  }

  lemma {:induction false} AtLeastOne(w: string, f: string, z: nat)
    requires IsDigits(w) && IsDigits(f) && w != "" && w[0] != '0'
    ensures Shift(Value(w + f), z) >= Shift(1, |f| + z)
  {
    NonZeroValue(w, |w|);
    ValueJoin(w, f);
    ShiftOrder(0, 1, |w| - 1);
    ShiftZero(|w| - 1);
    ShiftOrder(Value(w), 1, |f|);
    ShiftSum(1, |f|, z);
    ShiftOrder(Value(w + f), Shift(1, |f|), z);
  }
}
