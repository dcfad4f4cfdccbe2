/** Unit conversions shared by every instrument (backend/_shared.py). */
module Shared {
  import opened Wrappers
  import opened Money

  /** Simulation periods in a month. */
  const NPeriodsPerMonth: int := 2
  /** Simulation periods in a year. */
  const PeriodsPerYear: int := 12 * NPeriodsPerMonth

  predicate KnownTermUnit(unit: string) {
    unit == "yr" || unit == "mth" || unit == "prd"
  }

  /** `term_2_period`: a term in years, months or periods as a number of periods. */
  function TermToPeriod(term: int, unit: string): (r: Result<int>)
    ensures r.Ok? <==> KnownTermUnit(unit)
    ensures unit == "yr" ==> r.Ok? && r.value == term * 12 * NPeriodsPerMonth
    ensures unit == "mth" ==> r.Ok? && r.value == term * NPeriodsPerMonth
    ensures unit == "prd" ==> r.Ok? && r.value == term
  {
    if unit == "yr" then Ok(term * 12 * NPeriodsPerMonth)
    else if unit == "mth" then Ok(term * NPeriodsPerMonth)
    else if unit == "prd" then Ok(term)
    else Err("Unrecognized term_unit")
  }

  /** A term in years is the same number of periods as twelve times as many months, and so on down. */
  lemma TermUnitsAgree(term: int)
    ensures TermToPeriod(term, "yr") == TermToPeriod(12 * term, "mth")
    ensures TermToPeriod(term, "mth") == TermToPeriod(NPeriodsPerMonth * term, "prd")
    ensures term >= 0 ==> TermToPeriod(term, "yr").value >= TermToPeriod(term, "mth").value >= TermToPeriod(term, "prd").value >= 0
  {
  }

  /** `periodic_amount`: the share of an amount that falls in one payment of `payFreq` periods. */
  function PeriodicAmount(amount: real, payFreq: int, quote: string): (r: Result<real>)
    ensures r.Ok? <==> quote == "annual" || quote == "one-time"
    ensures quote == "annual" ==> r.Ok? && r.value * PeriodsPerYear as real == amount * payFreq as real
    ensures quote == "one-time" ==> r.Ok? && r.value == amount
  {
    if quote == "annual" then Ok(amount * payFreq as real / PeriodsPerYear as real)
    else if quote == "one-time" then Ok(amount)
    else Err("Unrecognized amt_quote_term")
  }

  /** The payments of a year, one every `payFreq` periods, add back up to the annual amount. */
  lemma AnnualPaymentsSumToAmount(amount: real, payFreq: int)
    requires payFreq > 0 && PeriodsPerYear % payFreq == 0
    ensures Sum(seq(PeriodsPerYear / payFreq, _ => PeriodicAmount(amount, payFreq, "annual").value)) == amount
  {
    var p := PeriodicAmount(amount, payFreq, "annual").value;
    var k := PeriodsPerYear / payFreq;
    SumConstant(k, p);
    assert k * payFreq == PeriodsPerYear;
    calc {
      k as real * p;
      k as real * (amount * payFreq as real / PeriodsPerYear as real);
      (k * payFreq) as real * amount / PeriodsPerYear as real;
      amount;
    }
  }

  /** Python's `a // b`: the quotient rounded towards minus infinity. */
  function PyDiv(a: int, b: int): int
    requires b != 0
  {
    if b > 0 || a % b == 0 then a / b else a / b - 1
  }

  /** Python's `a % b`: the remainder takes the sign of the divisor. */
  function PyMod(a: int, b: int): (r: int)
    requires b != 0
    ensures b > 0 ==> 0 <= r < b
    ensures b < 0 ==> b < r <= 0
  {
    if b > 0 || a % b == 0 then a % b else a % b + b
  }

  /** Python's division identity `a == (a // b) * b + a % b`. */
  lemma PyDivMod(a: int, b: int)
    requires b != 0
    ensures a == PyDiv(a, b) * b + PyMod(a, b)
  {
    assert a == (a / b) * b + a % b;
    if !(b > 0 || a % b == 0) {
      assert (a / b - 1) * b == (a / b) * b - b;
    }
  }

  /** Python's and Dafny's remainders agree on divisibility, so a test `x % b == 0` reads the same in both. */
  lemma PyModZeroIffDivides(a: int, b: int)
    requires b != 0
    ensures PyMod(a, b) == 0 <==> a % b == 0
  {
  }

  /**
   * Period `i` of a schedule is a payment period: `(1 + i) % pay_freq == 0`.
   * Python's remainder is zero exactly when Dafny's is (PyModZeroIffDivides).
   */
  predicate PayPeriod(i: int, payFreq: int)
    requires payFreq != 0
  {
    (1 + i) % payFreq == 0
  }

  /** Rows a `for i in range(n)` loop appends: none when `n` is not positive. */
  function RowCount(n: int): nat {
    if n < 0 then 0 else n
  }

  lemma MulAtLeast(a: int, d: int)
    requires a >= 1 && d > 0
    ensures a * d >= d
  {
    assert a * d == (a - 1) * d + d;
  }

  lemma DivModUnique(x: int, d: int, q: int, s: int)
    requires d > 0 && x == q * d + s && 0 <= s < d
    ensures x / d == q && x % d == s
  {
    var q0, s0 := x / d, x % d;
    assert x == q0 * d + s0;
    if q0 < q {
      MulAtLeast(q - q0, d);
    } else if q0 > q {
      MulAtLeast(q0 - q, d);
    }
  }

  /** Among the first `k + 1` periods there is one payment period more than among the first `k` exactly when period `k` pays. */
  lemma PayCountStep(k: nat, payFreq: int)
    requires payFreq > 0
    ensures (k + 1) / payFreq == k / payFreq + (if PayPeriod(k, payFreq) then 1 else 0)
  {
    var q, s := k / payFreq, k % payFreq;
    assert k == q * payFreq + s;
    if s == payFreq - 1 {
      DivModUnique(k + 1, payFreq, q + 1, 0);
    } else {
      DivModUnique(k + 1, payFreq, q, s + 1);
    }
  }

  /** The level payments due after `k + 1` periods are those due after `k`, plus one if period `k` pays. */
  lemma PaymentsDueStep(k: nat, payFreq: int, p: real)
    requires payFreq > 0
    ensures Times((k + 1) / payFreq, p) == Times(k / payFreq, p) + (if PayPeriod(k, payFreq) then p else 0.0)
  {
    var q := k / payFreq;
    PayCountStep(k, payFreq);
    if PayPeriod(k, payFreq) {
      assert (k + 1) / payFreq == q + 1;
      assert Times(q + 1, p) == Times(q, p) + p;
    } else {
      assert (k + 1) / payFreq == q;
    }
  }
}
