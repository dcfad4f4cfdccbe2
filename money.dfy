/**
 * Money arithmetic of the simulator: Python's `round(x, 2)`, the
 * `math.ceil(x * 100) / 100` used for loan payments, and integer powers.
 * Amounts are exact reals; binary floating point is not modelled.
 */
module Money {

  function Min(a: real, b: real): real {
    if a <= b then a else b
  }

  /** `sum(xs)`, written so that a running total extends by its last element. */
  function Sum(xs: seq<real>): real {
    if |xs| == 0 then 0.0 else Sum(xs[..|xs| - 1]) + xs[|xs| - 1]
  }

  /** Python's `math.ceil` on a real: the least integer not below `x`. */
  function Ceil(x: real): (r: int)
    ensures x <= r as real < x + 1.0
  {
    -((-x).Floor)
  }

  /** `x` is a whole number of cents. */
  predicate CentExact(x: real) {
    (x * 100.0).Floor as real == x * 100.0
  }

  /** Python's `round(y)`: the nearest integer, an exact tie going to the even one. */
  function RoundHalfEven(y: real): (n: int)
    ensures y - 0.5 <= n as real <= y + 0.5
  {
    var n := (y + 0.5).Floor;
    if n as real == y + 0.5 && n % 2 != 0 then n - 1 else n
  }

  /**
   * Python's `round(x, places)` on the exact value, one decimal place at a
   * time: rounding to `places` places is rounding `10 * x` to `places - 1`
   * places, then dividing by 10.
   */
  function RoundTo(x: real, places: nat): real
    decreases places
  {
    if places > 0 then RoundTo(10.0 * x, places - 1) / 10.0
    else RoundHalfEven(x) as real
  }

  lemma RoundToTwoPlaces(x: real)
    ensures RoundTo(x, 2) == RoundHalfEven(100.0 * x) as real / 100.0
  {
    assert RoundTo(x, 2) == RoundTo(10.0 * x, 1) / 10.0;
    assert RoundTo(10.0 * x, 1) == RoundTo(10.0 * (10.0 * x), 0) / 10.0;
    assert 10.0 * (10.0 * x) == 100.0 * x;
  }

  /** Python's `round(x, 2)`: the nearest cent, an exact tie going to the even cent. */
  function Round2(x: real): real {
    RoundTo(x, 2)
  }

  /** The rounded amount is a whole number of cents within half a cent of the exact one. */
  lemma Round2Bounds(x: real)
    ensures CentExact(Round2(x))
    ensures x - 0.005 <= Round2(x) <= x + 0.005
  {
    RoundToTwoPlaces(x);
  }

  /** `math.ceil(x * 100) / 100.0`: the least whole number of cents not below `x`. */
  function CeilCents(x: real): (r: real)
    ensures CentExact(r)
    ensures x <= r < x + 0.01
  {
    Ceil(x * 100.0) as real / 100.0
  }

  /** `x ** k` for an integer exponent. */
  function Pow(x: real, k: int): (r: real)
    requires x != 0.0 || k >= 0
    ensures x > 0.0 ==> r > 0.0
    ensures x != 0.0 ==> r != 0.0
    decreases if k >= 0 then k else 1 - k
  {
    if k == 0 then 1.0
    else if k > 0 then x * Pow(x, k - 1)
    else 1.0 / Pow(x, -k)
  }

  lemma Round2OfCentExact(x: real)
    requires CentExact(x)
    ensures Round2(x) == x
  {
    RoundToTwoPlaces(x);
    var k := (x * 100.0).Floor;
    assert 100.0 * x == k as real;
    assert (k as real + 0.5).Floor == k;
  }

  lemma CentExactAdd(a: real, b: real)
    requires CentExact(a) && CentExact(b)
    ensures CentExact(a + b) && CentExact(a - b)
  {
    var ka, kb := (a * 100.0).Floor, (b * 100.0).Floor;
    assert (a + b) * 100.0 == (ka + kb) as real;
    assert ((a + b) * 100.0).Floor == ka + kb;
    assert (a - b) * 100.0 == (ka - kb) as real;
    assert ((a - b) * 100.0).Floor == ka - kb;
  }

  lemma CentExactMin(a: real, b: real)
    requires CentExact(a) && CentExact(b)
    ensures CentExact(Min(a, b))
  {
  }

  /** Rounding to cents never reverses the order of two amounts. */
  lemma RoundHalfEvenMonotone(x: real, y: real)
    requires x <= y
    ensures RoundHalfEven(x) <= RoundHalfEven(y)
  {
    var fx, fy := x.Floor, y.Floor;
    if fx == fy {
      assert x - fx as real <= y - fy as real;
    }
  }

  /** Rounding to cents never reverses the order of two amounts. */
  lemma Round2Monotone(x: real, y: real)
    requires x <= y
    ensures Round2(x) <= Round2(y)
  {
    RoundToTwoPlaces(x);
    RoundToTwoPlaces(y);
    RoundHalfEvenMonotone(100.0 * x, 100.0 * y);
  }

  lemma Round2NonNegative(x: real)
    requires x >= 0.0
    ensures Round2(x) >= 0.0
  {
    Round2Monotone(0.0, x);
    Round2OfCentExact(0.0);
  }

  /** No whole number of cents lies between `x` and `CeilCents(x)`. */
  lemma CeilCentsLeast(x: real, c: real)
    requires CentExact(c) && x <= c
    ensures CeilCents(x) <= c
  {
    var k := (c * 100.0).Floor;
    var m := Ceil(x * 100.0);
    assert k >= m;
  }

  lemma MulNonNegative(a: real, b: real)
    requires a >= 0.0 && b >= 0.0
    ensures a * b >= 0.0
  {
  }

  /** Products of non-negative amounts respect lower and upper bounds on the factors. */
  lemma MulBounds(a: real, b: real, la: real, ha: real, lb: real, hb: real)
    requires 0.0 <= la <= a <= ha && 0.0 <= lb <= b <= hb
    ensures la * lb <= a * b <= ha * hb
  {
    assert la * lb <= a * lb <= a * b;
    assert a * b <= ha * b <= ha * hb;
  }

  /** `x * (p * q) == (x * p) * q`, with each product named. */
  lemma MulShift(x: real, p: real, q: real, r: real, s: real, t: real)
    requires r == p * q && s == x * r && t == x * p
    ensures s == t * q
  {
  }

  lemma SumAppend(xs: seq<real>, x: real)
    ensures Sum(xs + [x]) == Sum(xs) + x
  {
    assert (xs + [x])[..|xs|] == xs;
  }

  /** `n` payments of `x`, added one at a time. */
  function Times(n: nat, x: real): real {
    if n == 0 then 0.0 else Times(n - 1, x) + x
  }

  lemma {:induction false} TimesIsProduct(n: nat, x: real)
    ensures Times(n, x) == n as real * x
  {
    if n > 0 {
      TimesIsProduct(n - 1, x);
    }
  }

  /** `n` equal amounts `c` add up to `n * c`. */
  lemma {:induction false} SumConstant(n: nat, c: real)
    ensures Sum(seq(n, _ => c)) == n as real * c
  {
    if n > 0 {
      SumConstant(n - 1, c);
      assert seq(n, _ => c)[..n - 1] == seq(n - 1, _ => c);
    }
  }
}
