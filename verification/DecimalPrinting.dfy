/** What the decimal printer prints, and that parsing undoes it. */
module DecimalPrinting {
  import opened Decimals

  /** The parts of a canonical numeral: no superfluous leading or trailing zero. */
  ghost predicate CanonicalParts(w: string, f: string) {
    && IsDigits(w) && IsDigits(f)
    && w != "" && (|w| == 1 || w[0] != '0')
    && (f != "" ==> f[|f| - 1] != '0')
  }

  /** Canonical parts, and a point exactly when there is a fraction. */
  ghost predicate Canonical(s: string) {
    && CanonicalParts(Whole(s), Frac(s))
    && AfterDot(s) == Frac(s)
    && (Dot(s) < |s| <==> Frac(s) != "")
  }

  /** r is the canonical numeral of n / 10^s. */
  ghost predicate Prints(r: string, n: nat, s: nat) {
    Canonical(r) && Plain(r) && SameShift(Num(r), s, n, Scale(r))
  }

  lemma {:induction false} JoinIsCanonical(w: string, f: string)
    requires CanonicalParts(w, f)
    ensures Canonical(Join(w, f))
  {
    JoinSplits(w, f);
    PlainFrac(Join(w, f));
    DigitsHaveNoDot(w);
    if f != "" {
      DotIsFirst(w + "." + f, 0, |w|);
    }
  }

  /** A canonical numeral is its parts with a point between them. */
  lemma {:induction false} CanonicalDenotes(s: string)
    requires Canonical(s)
    ensures s == Join(Whole(s), Frac(s))
    ensures Plain(s) && Num(s) == Value(Whole(s) + Frac(s)) && Scale(s) == |Frac(s)|
  {
    DotSplits(s);
    JoinDenotes(Whole(s), Frac(s));
  }

  lemma {:induction false} DotSplits(s: string)
    ensures Dot(s) < |s| ==> s == Whole(s) + "." + AfterDot(s)
    ensures Dot(s) == |s| ==> s == Whole(s)
  {
    DotIsPoint(s, 0);
  }

  lemma {:induction false} DotIsPoint(s: string, i: nat)
    requires i <= |s|
    ensures DotFrom(s, i) < |s| ==> s[DotFrom(s, i)] == '.'
    decreases |s| - i
  {
    if i < |s| && s[i] != '.' {
      DotIsPoint(s, i + 1);
    }
  }

  // ---------------------------------------------------------------- canonical numerals are unique

  lemma {:induction false} SameValueSameDigits(a: string, b: string, k: nat)
    requires IsDigits(a) && IsDigits(b) && k <= |a| && k <= |b|
    requires ValueTo(a, k) == ValueTo(b, k)
    ensures a[..k] == b[..k]
  {
    if k > 0 {
      SameValueSameDigits(a, b, k - 1);
      assert a[k - 1] == b[k - 1];
      assert a[..k] == a[..k - 1] + [a[k - 1]];
      assert b[..k] == b[..k - 1] + [b[k - 1]];
    }
  }

  /** A numeral with more digits in its whole part and no leading zero is larger. */
  lemma {:induction false} LongerIsLarger(v: string, w: string, g: string, f: string)
    requires CanonicalParts(v, "") && CanonicalParts(w, "") && IsDigits(g) && IsDigits(f)
    requires |v| < |w| && |g| == |f|
    ensures Value(v + g) < Value(w + f)
  {
    var p, q := v + g, w + f;
    ValueJoin("", p);
    NonZeroValue(q, |q|);
    ShiftAtLeast(|p|, |q| - 1);
  }

  lemma {:induction false} ShiftAtLeast(m: nat, n: nat)
    requires m <= n
    ensures Shift(1, m) <= Shift(1, n)
    decreases n - m
  {
    if m < n {
      ShiftAtLeast(m, n - 1);
    }
  }

  lemma {:induction false} AlignedAreEqual(v: string, g: string, w: string, f: string)
    requires CanonicalParts(v, "") && CanonicalParts(w, "") && IsDigits(g) && IsDigits(f)
    requires |g| == |f| && Value(v + g) == Value(w + f)
    ensures v == w && g == f
  {
    if |v| < |w| {
      LongerIsLarger(v, w, g, f);
    } else if |w| < |v| {
      LongerIsLarger(w, v, f, g);
    }
    var p, q := v + g, w + f;
    SameValueSameDigits(p, q, |q|);
    assert p == p[..|p|] == q[..|q|] == q;
    assert v == p[..|v|] && w == q[..|w|] && g == p[|v|..] && f == q[|w|..];
  }

  lemma {:induction false} AlignedValue(x: nat, j: nat, y: nat, k: nat)
    requires j <= k && SameShift(x, k, y, j)
    ensures Shift(x, k - j) == y
  {
    ShiftSum(x, k - j, j);
    ShiftOrder(Shift(x, k - j), y, j);
  }

  lemma {:induction false} UniqueParts(v: string, g: string, w: string, f: string)
    requires CanonicalParts(v, g) && CanonicalParts(w, f) && |g| <= |f|
    requires SameShift(Value(v + g), |f|, Value(w + f), |g|)
    ensures v == w && g == f
  {
    var k := |f| - |g|;
    var g' := g + Zeros(k);
    assert v + g' == (v + g) + Zeros(k);
    ValuePadded(v + g, k);
    AlignedValue(Value(v + g), |g|, Value(w + f), |f|);
    AlignedAreEqual(v, g', w, f);
  }

  /** Two canonical numerals of the same number are the same string. */
  lemma {:induction false} CanonicalIsUnique(x: string, y: string)
    requires Canonical(x) && Canonical(y) && Plain(x) && Plain(y)
    requires Shifted(x, y, 0)
    ensures x == y
  {
    CanonicalDenotes(x);
    CanonicalDenotes(y);
    if Scale(x) <= Scale(y) {
      UniqueParts(Whole(x), Frac(x), Whole(y), Frac(y));
    } else {
      UniqueParts(Whole(y), Frac(y), Whole(x), Frac(x));
    }
  }

  // ---------------------------------------------------------------- the printer

  lemma {:induction false} PaddedDigits(w: string, n: nat, p: string)
    requires IsDigits(w) && (w != "" ==> w[0] != '0') && n > 0 && p == PadStart(w, n)
    ensures IsDigits(p) && |p| >= n && Value(p) == Value(w)
    ensures |p| == n || p[0] != '0'
  {
    if |w| < n {
      ValuePadded(w, n - |w|);
    }
  }

  lemma {:induction false} PaddedSplit(w: string, d: nat, a: string, b: string)
    requires IsDigits(w) && (w != "" ==> w[0] != '0')
    requires a == Before(w, d) && b == Behind(w, d)
    ensures CanonicalParts(a, "") && IsDigits(b) && |b| == d
    ensures Value(a + b) == Value(w)
  {
    var p := PadStart(w, d + 1);
    PaddedDigits(w, d + 1, p);
    assert a + b == p;
  }

  lemma {:induction false} TrimmedFraction(a: string, b: string, f: string)
    requires IsDigits(a) && IsDigits(b) && f == TrimTrailing(b)
    ensures IsDigits(f) && (f != "" ==> f[|f| - 1] != '0')
    ensures SameShift(Value(a + f), |b|, Value(a + b), |f|)
  {
    TrimTrailingPads(b, f);
    var z := |b| - |f|;
    assert a + b == (a + f) + Zeros(z);
    ValuePadded(a + f, z);
    ShiftSum(Value(a + f), z, |f|);
  }

  lemma {:induction false} FromDecimalsShape(num: string, d: nat, truncate: bool, w: string, f: string)
    requires w == TrimLeading(Whole(num)) && f == TrimTrailing(Frac(num)) && (w != "" || f != "")
    ensures FromDecimals(num, d, truncate) ==
            Join(Before(w, d), if !truncate && f != "" then Behind(w, d) + f else TrimTrailing(Behind(w, d)))
  {
  }

  lemma {:induction false} TruncatedDenotes(w: string, d: nat, r: string)
    requires IsDigits(w) && (w != "" ==> w[0] != '0')
    requires r == Join(Before(w, d), TrimTrailing(Behind(w, d)))
    ensures Prints(r, Value(w), d)
  {
    var a, b := Before(w, d), Behind(w, d);
    PaddedSplit(w, d, a, b);
    var g := TrimTrailing(b);
    TrimmedFraction(a, b, g);
    JoinDenotesShift(a, g, d, Value(w));
  }

  /** Printing a whole number of base units gives the canonical numeral of that number over
      10^decimals. */
  lemma {:induction false} PrintsTruncated(num: string, decimals: nat, w: string, f: string, r: string)
    requires Plain(num) && w == TrimLeading(Whole(num)) && f == TrimTrailing(Frac(num)) && (w != "" || f != "")
    requires r == Join(Before(w, decimals), TrimTrailing(Behind(w, decimals)))
    ensures Prints(r, Value(Whole(num)), decimals)
  {
    TrimmedValue(num, w, f);
    TruncatedDenotes(w, decimals, r);
  }

  /** Appending the trimmed fraction f of num behind the inserted point keeps num's digits. */
  lemma {:induction false} FractionParts(w: string, f: string, d: nat, a: string, b: string)
    requires IsDigits(w) && IsDigits(f) && f != "" && f[|f| - 1] != '0'
    requires CanonicalParts(a, "") && IsDigits(b) && |b| == d && Value(a + b) == Value(w)
    ensures CanonicalParts(a, b + f)
    ensures Value(a + (b + f)) == Value(w + f)
  {
    FractionAppended(a, b, w, f);
  }

  lemma {:induction false} PrintsFraction(n: nat, s: nat, d: nat, w: string, f: string, a: string, b: string)
    requires Trimmed(n, s, w, f) && f != ""
    requires CanonicalParts(a, "") && IsDigits(b) && |b| == d && Value(a + b) == Value(w)
    ensures Prints(Join(a, b + f), n, d + s)
  {
    hide Join, ValueTo, DotFrom, Canonical;
    FractionParts(w, f, d, a, b);
    ScaledSelf(Value(w + f), s - |f|, d + |f|, n, d + s);
    JoinDenotesShift(a, b + f, d + s, n);
  }

  lemma {:induction false} JoinDenotesShift(a: string, g: string, s: nat, n: nat)
    requires CanonicalParts(a, g) && SameShift(Value(a + g), s, n, |g|)
    ensures Prints(Join(a, g), n, s)
  {
    JoinIsCanonical(a, g);
    JoinDenotes(a, g);
  }

  lemma {:induction false} FractionAppended(a: string, b: string, w: string, f: string)
    requires IsDigits(a) && IsDigits(b) && IsDigits(w) && IsDigits(f) && Value(a + b) == Value(w)
    ensures Value(a + (b + f)) == Value(w + f)
  {
    assert a + (b + f) == (a + b) + f;
    ValueJoin(a + b, f);
    ValueJoin(w, f);
  }

  lemma {:induction false} ScaledSelf(x: nat, z: nat, k: nat, n: nat, s: nat)
    requires ScaledBy(n, x, z) && s == k + z
    ensures SameShift(x, s, n, k)
  {
    ShiftSum(x, z, k);
  }

  lemma {:induction false} ZeroDenotes(v: nat, n: nat, d: nat, s: nat)
    requires v == 0 && ScaledBy(n, 0, s)
    ensures Prints("0", v, d) && Prints("0", n, d + s)
  {
    JoinIsCanonical("0", "");
    JoinDenotes("0", "");
    assert "0" + "" == "0" && Value("0") == 0;
    ShiftZero(d);
    ShiftZero(d + s);
    ShiftZero(s);
  }

  lemma {:induction false} PrintsZero(num: string, decimals: nat)
    requires Plain(num) && TrimLeading(Whole(num)) == "" && TrimTrailing(Frac(num)) == ""
    ensures Prints("0", Value(Whole(num)), decimals) && Prints("0", Num(num), decimals + Scale(num))
  {
    TrimmedValue(num, "", "");
    assert "" + "" == "" && Value("") == 0;
    ZeroDenotes(Value(Whole(num)), Num(num), decimals, Scale(num));
  }

  /** With truncation the printer gives the canonical numeral of num's whole part over 10^decimals. */
  lemma {:induction false} FromDecimalsTruncates(num: string, decimals: nat, r: string)
    requires Plain(num) && r == FromDecimals(num, decimals, true)
    ensures Prints(r, Value(Whole(num)), decimals)
  {
    var w, f := TrimLeading(Whole(num)), TrimTrailing(Frac(num));
    if w == "" && f == "" {
      PrintsZero(num, decimals);
    } else {
      FromDecimalsShape(num, decimals, true, w, f);
      PrintsTruncated(num, decimals, w, f, r);
    }
  }

  lemma {:induction false} PrintsAll(n: nat, s: nat, d: nat, w: string, f: string, r: string)
    requires Trimmed(n, s, w, f) && (w != "" || f != "")
    requires r == Join(Before(w, d), if f != "" then Behind(w, d) + f else TrimTrailing(Behind(w, d)))
    ensures Prints(r, n, d + s)
  {
    if f != "" {
      var a, b := Before(w, d), Behind(w, d);
      PaddedSplit(w, d, a, b);
      PrintsFraction(n, s, d, w, f, a, b);
    } else {
      assert w + f == w;
      PrintsWhole(n, s, d, w, r);
    }
  }

  /** Without truncation it gives the canonical numeral of num over 10^decimals. */
  lemma {:induction false} FromDecimalsDivides(num: string, decimals: nat, r: string)
    requires Plain(num) && r == FromDecimals(num, decimals, false)
    ensures Prints(r, Num(num), decimals + Scale(num))
  {
    var w, f := TrimLeading(Whole(num)), TrimTrailing(Frac(num));
    if w == "" && f == "" {
      PrintsZero(num, decimals);
    } else {
      FromDecimalsShape(num, decimals, false, w, f);
      PrintsExactly(num, decimals, w, f, r);
    }
  }

  lemma {:induction false} PrintsExactly(num: string, d: nat, w: string, f: string, r: string)
    requires Plain(num) && w == TrimLeading(Whole(num)) && f == TrimTrailing(Frac(num)) && (w != "" || f != "")
    requires r == Join(Before(w, d), if f != "" then Behind(w, d) + f else TrimTrailing(Behind(w, d)))
    ensures Prints(r, Num(num), d + Scale(num))
  {
    hide Join, ValueTo, DotFrom, Canonical;
    TrimmedValue(num, w, f);
    PrintsAll(Num(num), Scale(num), d, w, f, r);
  }

  lemma {:induction false} PrintsWhole(n: nat, s: nat, d: nat, w: string, r: string)
    requires IsDigits(w) && w != "" && w[0] != '0' && ScaledBy(n, Value(w), s)
    requires r == Join(Before(w, d), TrimTrailing(Behind(w, d)))
    ensures Prints(r, n, d + s)
  {
    TruncatedDenotes(w, d, r);
    EqualScaled(Num(r), d, Value(w), Scale(r), s, n, d + s);
  }

  // ---------------------------------------------------------------- round trip and injectivity

  lemma {:induction false} AmountIsItsWhole(n: string)
    requires IsDigits(n)
    ensures Plain(n) && Whole(n) == n
  {
    JoinSplits(n, "");
  }

  /** Printing an amount in base units and parsing the result gives the amount back exactly. */
  lemma {:induction false} PrintThenParse(n: string, decimals: nat)
    requires IsDigits(n)
    ensures var r := ToDecimals(FromDecimals(n, decimals, true), decimals, true);
            IsDigits(r) && Value(r) == Value(n)
  {
    AmountIsItsWhole(n);
    var s := FromDecimals(n, decimals, true);
    FromDecimalsTruncates(n, decimals, s);
    ToDecimalsIsFloor(s, decimals);
    var v := Value(ToDecimals(s, decimals, true));
    FloorOfExact(v, Num(s), Scale(s), decimals, Value(n));
  }

  lemma {:induction false} FloorOfExact(v: nat, n: nat, f: nat, d: nat, x: nat)
    requires IsFloor(v, n, f, d) && SameShift(n, d, x, f)
    ensures v == x
  {
    ShiftOrder(x, v, f);
    ShiftOrder(x, v + 1, f);
  }

  /** Distinct amounts never print the same, and equal amounts never print differently. */
  lemma {:induction false} PrintingIsInjective(m: string, n: string, decimals: nat)
    requires IsDigits(m) && IsDigits(n)
    ensures FromDecimals(m, decimals, true) == FromDecimals(n, decimals, true) <==> Value(m) == Value(n)
  {
    var x, y := FromDecimals(m, decimals, true), FromDecimals(n, decimals, true);
    if x == y {
      PrintThenParse(m, decimals);
      PrintThenParse(n, decimals);
    } else if Value(m) == Value(n) {
      AmountIsItsWhole(m);
      AmountIsItsWhole(n);
      FromDecimalsTruncates(m, decimals, x);
      FromDecimalsTruncates(n, decimals, y);
      SameQuotient(Num(x), Scale(x), Num(y), Scale(y), decimals, Value(n));
      CanonicalIsUnique(x, y);
    }
  }

  lemma {:induction false} SameQuotient(a: nat, j: nat, b: nat, k: nat, d: nat, v: nat)
    requires SameShift(a, d, v, j) && SameShift(b, d, v, k)
    ensures SameShift(a, k, b, 0 + j)
  {
    ShiftSum(a, d, k);
    ShiftSum(a, k, d);
    ShiftSum(b, d, j);
    ShiftSum(b, j, d);
    ShiftSum(v, j, k);
    ShiftSum(v, k, j);
    ShiftOrder(Shift(a, k), Shift(b, j), d);
  }

  // ---------------------------------------------------------------- the parsed string itself

  /** How many digits the parsed whole part has: those of the whole part and the decimals; one for zero. */
  function Width(num: string, decimals: nat): nat {
    var w, f := TrimLeading(Whole(num)), TrimTrailing(Frac(num));
    if w == "" && (f == "" || decimals == 0) then 1 else |w| + decimals
  }

  lemma {:induction false} FullParts(w: string, f: string, d: nat)
    requires IsDigits(w) && IsDigits(f) && (f != "" ==> f[|f| - 1] != '0')
    ensures var a, b := Full(w, f, d)[..|w| + d], Full(w, f, d)[|w| + d..];
            IsDigits(a) && IsDigits(b) && (b != "" ==> b[|b| - 1] != '0')
  {
    hide Full;
    if |f| <= d {
      FullShort(w, f, d);
      assert Full(w, f, d)[..|w| + d] == Full(w, f, d);
    } else {
      FullLong(w, f, d);
    }
  }

  lemma {:induction false} JoinedForm(a: string, b: string)
    requires IsDigits(a) && IsDigits(b)
    ensures Whole(Join(a, b)) == a && Frac(Join(a, b)) == b
  {
    JoinSplits(a, b);
  }

  /** What parsing returns, cut at the new point. */
  lemma {:induction false} ParsedParts(num: string, decimals: nat, w: string, f: string)
    requires w == TrimLeading(Whole(num)) && f == TrimTrailing(Frac(num)) && !(w == "" && (f == "" || decimals == 0))
    ensures var full, k := Full(w, f, decimals), |w| + decimals;
            && ToDecimals(num, decimals, true) == full[..k]
            && ToDecimals(num, decimals, false) == Join(full[..k], full[k..])
            && Width(num, decimals) == k
  {
    hide TrimLeading, TrimTrailing, Whole, Frac, Full, Join;
  }

  /** Truncating cuts off the fraction of the untruncated result, point included. Its whole part has the
      width above, its fraction no trailing zero, and there is a point only before a fraction. */
  lemma {:induction false} ParsedForm(num: string, decimals: nat)
    requires Plain(num)
    ensures var r, s := ToDecimals(num, decimals, true), ToDecimals(num, decimals, false);
            && IsDigits(r) && |r| == Width(num, decimals)
            && Whole(s) == r && s == Join(r, Frac(s))
            && (Frac(s) != "" ==> Frac(s)[|Frac(s)| - 1] != '0')
  {
    var w, f := TrimLeading(Whole(num)), TrimTrailing(Frac(num));
    TrimmedValue(num, w, f);
    TrimTrailingPads(Frac(num), f);
    if w == "" && (f == "" || decimals == 0) {
      ParsedZero(num, decimals);
    } else {
      ParsedNumber(num, decimals, w, f);
    }
  }

  lemma {:induction false} ParsedZero(num: string, decimals: nat)
    requires TrimLeading(Whole(num)) == "" && (TrimTrailing(Frac(num)) == "" || decimals == 0)
    ensures var r, s := ToDecimals(num, decimals, true), ToDecimals(num, decimals, false);
            && r == s == "0" && Width(num, decimals) == 1
            && IsDigits(r) && Whole(s) == r && Frac(s) == "" && s == Join(r, Frac(s))
  {
    hide TrimLeading, TrimTrailing, Full;
    JoinSplits("0", "");
  }

  lemma {:induction false} ParsedNumber(num: string, decimals: nat, w: string, f: string)
    requires w == TrimLeading(Whole(num)) && f == TrimTrailing(Frac(num)) && !(w == "" && (f == "" || decimals == 0))
    requires IsDigits(w) && IsDigits(f) && (f != "" ==> f[|f| - 1] != '0')
    ensures var r, s := ToDecimals(num, decimals, true), ToDecimals(num, decimals, false);
            && IsDigits(r) && |r| == Width(num, decimals)
            && Whole(s) == r && s == Join(r, Frac(s))
            && (Frac(s) != "" ==> Frac(s)[|Frac(s)| - 1] != '0')
  {
    hide ToDecimals, Full, Width, Join, Whole, Frac, TrimLeading, TrimTrailing;
    ParsedParts(num, decimals, w, f);
    FullParts(w, f, decimals);
    var full, k := Full(w, f, decimals), |w| + decimals;
    JoinedForm(full[..k], full[k..]);
  }

  lemma {:induction false} FloorIsUnique(v: nat, x: nat, n: nat, f: nat, d: nat)
    requires IsFloor(v, n, f, d) && IsFloor(x, n, f, d)
    ensures v == x
  {
    ShiftOrder(x, v + 1, f);
    ShiftOrder(v, x + 1, f);
  }

  /** The parsed string is the one digit string of its width that denotes the floor. */
  lemma {:induction false} ToDecimalsIsUnique(num: string, decimals: nat, r: string)
    requires Plain(num) && IsDigits(r)
    ensures r == ToDecimals(num, decimals, true) <==>
            |r| == Width(num, decimals) && IsFloor(Value(r), Num(num), Scale(num), decimals)
  {
    hide Width, ToDecimals, IsFloor;
    var s := ToDecimals(num, decimals, true);
    ParsedForm(num, decimals);
    ToDecimalsIsFloor(num, decimals);
    if |r| == Width(num, decimals) && IsFloor(Value(r), Num(num), Scale(num), decimals) {
      FloorIsUnique(Value(r), Value(s), Num(num), Scale(num), decimals);
      SameValueSameDigits(r, s, |r|);
      assert r[..|r|] == r && s[..|r|] == s;
    }
  }
}
