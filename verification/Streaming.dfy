/** Stream extrapolation, the depletion date, and big-number division. */
module Streaming {

  /** Division that truncates toward zero, as big numbers and second differences do. */
  function TruncDiv(a: int, b: int): int
    requires b > 0
  {
    if a >= 0 then a / b else -((-a) / b)
  }

  lemma {:induction false} DivBounds(a: nat, b: nat)
    requires b > 0
    ensures (a / b) * b <= a < (a / b) * b + b
  {
  }

  lemma {:induction false} MulMono(x: int, y: int, k: int)
    requires k >= 0 && x <= y
    ensures x * k <= y * k
  {
    assert (y - x) * k >= 0;
  }

  lemma {:induction false} MulOrder(x: int, y: int, k: int)
    requires k > 0 && x * k < y * k
    ensures x < y
  {
    if y <= x {
      MulMono(y, x, k);
    }
  }

  lemma {:induction false} MulStrict(x: int, y: int, k: int)
    requires k > 0 && x < y
    ensures x * k < y * k
  {
    MulMono(x, y - 1, k);
    MulSuccessor(y - 1, k);
  }

  lemma {:induction false} MulSuccessor(x: int, k: int)
    ensures (x + 1) * k == x * k + k
    ensures (x - 1) * k == x * k - k
    ensures (-x) * k == -(x * k)
  {
  }

  lemma {:induction false} TruncZero(b: int)
    requires b > 0
    ensures TruncDiv(0, b) == 0
  {
  }

  /** Truncation toward zero is the quotient of the magnitudes, with the sign put back. */
  lemma {:induction false} TruncIsQuotient(a: int, b: int, q: int)
    requires b > 0 && q == (if a >= 0 then a else -a) / b
    ensures TruncDiv(a, b) == if a >= 0 then q else -q
  {
  }

  lemma {:induction false} QuotientNotNegative(a: nat, b: int, q: int)
    requires b > 0 && q * b <= a < q * b + b
    ensures q >= 0
  {
    if q < 0 {
      MulMono(q, -1, b);
    }
  }

  lemma {:induction false} QuotientBounds(a: nat, b: int, q: int)
    requires b > 0 && q == a / b
    ensures q >= 0 && q * b <= a < q * b + b && (-q) * b == -(q * b)
  {
    DivBounds(a, b);
    QuotientNotNegative(a, b, q);
    MulSuccessor(q, b);
  }

  lemma {:induction false} TruncBounds(a: int, b: int)
    requires b > 0
    ensures a >= 0 ==> TruncDiv(a, b) >= 0 && TruncDiv(a, b) * b <= a < TruncDiv(a, b) * b + b
    ensures a <= 0 ==> TruncDiv(a, b) <= 0 && TruncDiv(a, b) * b - b < a <= TruncDiv(a, b) * b
  {
    hide TruncDiv;
    var c := if a >= 0 then a else -a;
    var q := c / b;
    TruncIsQuotient(a, b, q);
    QuotientBounds(c, b, q);
    if a == 0 {
      TruncZero(b);
    }
  }

  lemma {:induction false} TruncUnique(a: int, b: int, q: int)
    requires b > 0
    requires (a >= 0 && q * b <= a < q * b + b) || (a <= 0 && q * b - b < a <= q * b)
    ensures TruncDiv(a, b) == q
  {
    var p := TruncDiv(a, b);
    TruncBounds(a, b);
    MulSuccessor(p, b);
    MulSuccessor(q, b);
    if a >= 0 && q * b <= a < q * b + b {
      MulOrder(p, q + 1, b);
      MulOrder(q, p + 1, b);
    } else {
      MulOrder(q - 1, p, b);
      MulOrder(p - 1, q, b);
    }
  }

  // ---------------------------------------------------------------- dates

  const MAX_DATE_MS: int := 8_640_000_000_000_000
  const MAX_NUMBER: int := 0x20_0000_0000_0000

  function DifferenceInSeconds(later: int, earlier: int): int {
    TruncDiv(later - earlier, 1000)
  }

  function CurrentAmount(accumulated: int, rate: int, lastDate: int, date: int): int {
    accumulated + rate * DifferenceInSeconds(date, lastDate)
  }

  /** No date for a stream that does not drain; converting to a number throws at 2^53 and beyond;
      an instant outside the range of dates is an invalid date. */
  datatype Depletion = Never | Throws | InvalidDate | On(ms: int)

  function DepletionDate(balance: int, netFlow: int, now: int, lastUpdate: int): Depletion {
    if netFlow >= 0 then Never
    else
      var current := CurrentAmount(balance, netFlow, lastUpdate, now);
      var toDepletion := TruncDiv(current, -netFlow) * 1000;
      if toDepletion >= MAX_NUMBER || toDepletion <= -MAX_NUMBER then Throws
      else if now + toDepletion > MAX_DATE_MS || now + toDepletion < -MAX_DATE_MS then InvalidDate
      else On(now + toDepletion)
  }

  /** Whole seconds pass through the truncated difference. */
  lemma {:induction false} SecondsAdd(x: int, s: int)
    requires x % 1000 == 0 || (x >= 0 && s >= 0)
    ensures TruncDiv(x + 1000 * s, 1000) == TruncDiv(x, 1000) + s
  {
  }

  lemma {:induction false} AmountAfterSeconds(balance: int, rate: int, last: int, date: int, s: int)
    requires (date - last) % 1000 == 0 || (date >= last && s >= 0)
    ensures CurrentAmount(balance, rate, last, date + 1000 * s) == CurrentAmount(balance, rate, last, date) + rate * s
  {
    SecondsAdd(date - last, s);
    var d := DifferenceInSeconds(date, last);
    assert date + 1000 * s - last == (date - last) + 1000 * s;
    assert rate * (d + s) == rate * d + rate * s;
  }

  lemma {:induction false} DivMod(a: int, k: int)
    requires k > 0
    ensures a == (a / k) * k + a % k && 0 <= a % k < k
  {
  }

  /** Truncated division is exact for multiples only. */
  lemma {:induction false} ExactMultiple(a: int, k: int)
    requires k > 0
    ensures a == TruncDiv(a, k) * k <==> a % k == 0
  {
    var q, p := TruncDiv(a, k), a / k;
    DivMod(a, k);
    if a % k == 0 {
      TruncUnique(a, k, p);
    } else if a == q * k {
      MulSuccessor(p, k);
      MulOrder(p, q, k);
      MulOrder(q, p + 1, k);
    }
  }

  /** What is left after the whole seconds of flow that a balance pays for. */
  lemma {:induction false} Leftover(current: int, rate: int, s: int)
    requires rate < 0 && s == TruncDiv(current, -rate)
    ensures 0 <= current + rate * s < -rate <==> current >= 0 || current == s * -rate
    ensures rate * (s + 1) == rate * s + rate
    ensures current >= 0 ==> s >= 0
  {
    TruncBounds(current, -rate);
    assert rate * s == -(s * -rate);
    MulSuccessor(s, rate);
    assert rate * (s + 1) == (s + 1) * rate && rate * s == s * rate;
  }

  /** At the depletion date less than one second of flow is left, and nothing is left a second later,
      exactly when the current balance is not negative or is a whole number of seconds of flow. */
  lemma {:induction false} DepletionIsLastSecond(balance: int, netFlow: int, now: int, last: int)
    requires DepletionDate(balance, netFlow, now, last).On?
    requires (now - last) % 1000 == 0
    ensures var d := DepletionDate(balance, netFlow, now, last).ms;
            var current := CurrentAmount(balance, netFlow, last, now);
            && (0 <= CurrentAmount(balance, netFlow, last, d) < -netFlow <==>
                current >= 0 || current % -netFlow == 0)
            && CurrentAmount(balance, netFlow, last, d + 1000) == CurrentAmount(balance, netFlow, last, d) + netFlow
  {
    var current := CurrentAmount(balance, netFlow, last, now);
    var s := TruncDiv(current, -netFlow);
    Leftover(current, netFlow, s);
    ExactMultiple(current, -netFlow);
    AmountAfterSeconds(balance, netFlow, last, now, s);
    AmountAfterSeconds(balance, netFlow, last, now, s + 1);
    assert now + 1000 * (s + 1) == now + 1000 * s + 1000;
  }

  /** The seconds whose milliseconds no longer fit a number. */
  const FAR_SECONDS: int := 9_007_199_254_741

  lemma {:induction false} TruncReaches(a: int, b: int, n: int)
    requires b > 0 && n > 0
    ensures TruncDiv(a, b) >= n <==> a >= n * b
    ensures TruncDiv(a, b) <= -n <==> a <= -(n * b)
  {
    var q := TruncDiv(a, b);
    TruncBounds(a, b);
    MulSuccessor(q, b);
    MulSuccessor(n, b);
    if q >= n {
      MulMono(n, q, b);
    } else {
      MulMono(q, n - 1, b);
    }
    if q <= -n {
      MulMono(q, -n, b);
    } else {
      MulMono(1 - n, q, b);
      MulSuccessor(-n, b);
    }
  }

  /** Computing the date throws exactly for a draining stream whose current balance, or debt, is worth
      FAR_SECONDS or more of its flow. */
  lemma {:induction false} DepletionThrowsExactly(balance: int, netFlow: int, now: int, last: int)
    ensures var current := CurrentAmount(balance, netFlow, last, now);
            DepletionDate(balance, netFlow, now, last).Throws? <==>
            && netFlow < 0
            && (current >= 9_007_199_254_741 * (-netFlow) || current <= -(9_007_199_254_741 * (-netFlow)))
  {
    if netFlow < 0 {
      TruncReaches(CurrentAmount(balance, netFlow, last, now), -netFlow, FAR_SECONDS);
    }
  }

  /** If there is a date, the balance lasts until then and no second longer. */
  lemma {:induction false} OnThatDate(balance: int, netFlow: int, now: int, last: int)
    requires DepletionDate(balance, netFlow, now, last).On?
    requires last <= now && CurrentAmount(balance, netFlow, last, now) >= 0
    ensures var d := DepletionDate(balance, netFlow, now, last).ms;
            && now <= d && d % 1000 == now % 1000
            && 0 <= CurrentAmount(balance, netFlow, last, d) < -netFlow
            && CurrentAmount(balance, netFlow, last, d + 1000) < 0
  {
    var current := CurrentAmount(balance, netFlow, last, now);
    var s := TruncDiv(current, -netFlow);
    Leftover(current, netFlow, s);
    AmountAfterSeconds(balance, netFlow, last, now, s);
    AmountAfterSeconds(balance, netFlow, last, now, s + 1);
    assert now + 1000 * (s + 1) == now + 1000 * s + 1000;
  }

  lemma {:induction false} DepletionCases(balance: int, netFlow: int, now: int, last: int)
    ensures var d := DepletionDate(balance, netFlow, now, last);
            var current := CurrentAmount(balance, netFlow, last, now);
            && (d.Never? <==> netFlow >= 0)
            && (netFlow < 0 && !d.Throws? ==>
                  var date := now + 1000 * TruncDiv(current, -netFlow);
                  && (d.On? <==> -100_000_000 * 86_400_000 <= date <= 100_000_000 * 86_400_000)
                  && (d.On? ==> d.ms == date))
  {
  }

  /** There is no date exactly for a stream that does not drain. Let a draining stream's balance, or debt, be
      worth s whole seconds of its flow and a remainder of the same sign: if converting that does not throw,
      there is a date exactly if s seconds from the clock reading is within 100,000,000 days of the epoch,
      and that is the date. */
  lemma {:induction false} DepletionDatesExactly(balance: int, netFlow: int, now: int, last: int, s: int)
    ensures DepletionDate(balance, netFlow, now, last).Never? <==> netFlow >= 0
    ensures var d, current := DepletionDate(balance, netFlow, now, last), CurrentAmount(balance, netFlow, last, now);
            var left := current + netFlow * s;
            netFlow < 0 && !d.Throws? && (if current >= 0 then 0 <= left < -netFlow else netFlow < left <= 0) ==>
              && (d.On? <==> -8_640_000_000_000_000 <= now + 1000 * s <= 8_640_000_000_000_000)
              && (d.On? ==> d.ms == now + 1000 * s)
  {
    hide DepletionDate;
    var current := CurrentAmount(balance, netFlow, last, now);
    var left := current + netFlow * s;
    DepletionCases(balance, netFlow, now, last);
    if netFlow < 0 && (if current >= 0 then 0 <= left < -netFlow else netFlow < left <= 0) {
      assert netFlow * s == -(s * -netFlow);
      TruncUnique(current, -netFlow, s);
    }
  }

  /** With any clock not before the last update and a balance not yet negative, which lasts for less than
      2^53 milliseconds and not beyond the last day there is, there is a depletion date: an instant with a
      non-negative balance of less than one second of flow. */
  lemma {:induction false} DepletionOnAnyClock(balance: int, netFlow: int, now: int, last: int)
    requires netFlow < 0 && 0 <= last <= now
    requires 0 <= CurrentAmount(balance, netFlow, last, now) < 9_007_199_254_741 * (-netFlow)
    requires now + 1000 * TruncDiv(CurrentAmount(balance, netFlow, last, now), -netFlow) <= 8_640_000_000_000_000
    ensures DepletionDate(balance, netFlow, now, last).On?
    ensures var d := DepletionDate(balance, netFlow, now, last).ms;
            && now <= d && d % 1000 == now % 1000
            && 0 <= CurrentAmount(balance, netFlow, last, d) < -netFlow
            && CurrentAmount(balance, netFlow, last, d + 1000) < 0
  {
    hide DepletionDate;
    var current := CurrentAmount(balance, netFlow, last, now);
    DepletionThrowsExactly(balance, netFlow, now, last);
    DepletionCases(balance, netFlow, now, last);
    TruncBounds(current, -netFlow);
    OnThatDate(balance, netFlow, now, last);
  }

  /** Whichever clock reading it is computed from, the depletion date is in the same second. */
  lemma {:induction false} DepletionIgnoresTheClock(balance: int, netFlow: int, now: int, now': int, last: int)
    requires DepletionDate(balance, netFlow, now, last).On? && DepletionDate(balance, netFlow, now', last).On?
    requires last <= now && CurrentAmount(balance, netFlow, last, now) >= 0
    requires last <= now' && CurrentAmount(balance, netFlow, last, now') >= 0
    ensures var d, d' := DepletionDate(balance, netFlow, now, last).ms, DepletionDate(balance, netFlow, now', last).ms;
            && DifferenceInSeconds(d, last) == DifferenceInSeconds(d', last)
            && (now % 1000 == now' % 1000 ==> d == d')
  {
    OnThatDate(balance, netFlow, now, last);
    OnThatDate(balance, netFlow, now', last);
    var d, d' := DepletionDate(balance, netFlow, now, last).ms, DepletionDate(balance, netFlow, now', last).ms;
    OneSecondLeft(balance, netFlow, DifferenceInSeconds(d, last), DifferenceInSeconds(d', last));
    SameSecondSameRemainder(d, d', last);
  }

  /** Only one number of seconds leaves less than a second of flow. */
  lemma {:induction false} OneSecondLeft(balance: int, rate: int, x: int, y: int)
    requires rate < 0 && 0 <= balance + rate * x < -rate && 0 <= balance + rate * y < -rate
    ensures x == y
  {
    var k := -rate;
    assert rate * x == -(x * k) && rate * y == -(y * k);
    MulSuccessor(x, k);
    MulSuccessor(y, k);
    MulOrder(x, y + 1, k);
    MulOrder(y, x + 1, k);
  }

  lemma {:induction false} SameSecondSameRemainder(d: int, d': int, last: int)
    requires last <= d && last <= d' && DifferenceInSeconds(d, last) == DifferenceInSeconds(d', last)
    ensures d % 1000 == d' % 1000 ==> d == d'
  {
  }
}
