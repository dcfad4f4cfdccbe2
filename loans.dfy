/**
 * Fixed-payment loans (backend/loan.py): the level payment fixed at
 * construction and the amortization table built period by period.
 */
module Loans {
  import opened Wrappers
  import opened Money
  import opened Shared
  import opened Instruments

  /** One row of the amortization table: one simulation period. */
  datatype LoanRow = LoanRow(
    balInit: real,
    balEnd: real,
    payment: real,
    paymentInterest: real,
    paymentPrincipal: real,
    interest: real,
    pay: real)

  /** What the schedule loop threads from one period to the next. */
  datatype Carry = Carry(balInit: real, balEnd: real, totInt: real)

  /** The fields of a loan that the table is computed from. */
  datatype LoanTerms = LoanTerms(
    base: Base,
    annualRate: real,
    periodicRate: real,
    periodicPayment: real)
  {
    /** The row the loop appends for period `i`, given the balances carried into it. */
    function Step(c: Carry, i: int): LoanRow
      requires base.payFreq != 0
    {
      if PayPeriod(i, base.payFreq) then
        var balInit := Compounded(c.balEnd);
        var payment := Min(periodicPayment, balInit);
        var payInt := InterestOn(c.balEnd);
        LoanRow(balInit, balInit - payment, payment, payInt, payment - payInt, c.totInt + payInt, payment)
      else
        LoanRow(c.balInit, c.balEnd, 0.0, 0.0, 0.0, c.totInt, 0.0)
    }

    /** A balance after one payment interval of interest, to the cent. */
    function Compounded(balance: real): real {
      Round2(balance * (1.0 + periodicRate))
    }

    /** The interest charged on a balance over one payment interval, to the cent. */
    function InterestOn(balance: real): real {
      Round2(balance * periodicRate)
    }

    /** The balances carried into period `k`. */
    function CarryAt(k: nat): Carry
      requires base.payFreq != 0
      decreases k, 0
    {
      if k == 0 then Carry(base.amount, base.amount, 0.0)
      else
        var row := RowAt(k - 1);
        Carry(row.balInit, row.balEnd, row.interest)
    }

    /** Row `i` of the amortization table. */
    function RowAt(i: nat): (row: LoanRow)
      requires base.payFreq != 0
      ensures row.pay == row.payment
      ensures row.paymentInterest + row.paymentPrincipal == row.payment
      ensures PayPeriod(i, base.payFreq) ==> row.payment <= periodicPayment
      ensures PayPeriod(i, base.payFreq) ==> row.payment <= row.balInit && row.balEnd == row.balInit - row.payment
      ensures !PayPeriod(i, base.payFreq) ==>
        row.payment == 0.0 && row.paymentInterest == 0.0 && row.paymentPrincipal == 0.0
      decreases i, 1
    {
      Step(CarryAt(i), i)
    }

  }

  /** A loan: its terms and its amortization table (`self.schedule`). */
  datatype Loan = Loan(terms: LoanTerms, schedule: seq<LoanRow>) {
    /** The stored table is the one the schedule loop builds. */
    predicate Valid() {
      && terms.base.payFreq != 0
      && |schedule| == RowCount(terms.base.nPeriods)
      && forall i :: 0 <= i < |schedule| ==> schedule[i] == terms.RowAt(i)
    }
  }

  /** Row `i` is the step from the balances carried into it, and it fixes the balances carried out. */
  lemma RowFromCarry(t: LoanTerms, i: nat)
    requires t.base.payFreq != 0
    ensures t.RowAt(i) == t.Step(t.CarryAt(i), i)
    ensures t.CarryAt(i + 1) == Carry(t.RowAt(i).balInit, t.RowAt(i).balEnd, t.RowAt(i).interest)
  {
  }

  /**
   * A period without a payment repeats the balances and the interest to
   * date of the period before it (the principal and nothing paid in the
   * first period).
   */
  lemma NonPaymentRowRepeats(t: LoanTerms, i: nat)
    requires t.base.payFreq != 0 && !PayPeriod(i, t.base.payFreq)
    ensures i == 0 ==>
      t.RowAt(i).balInit == t.base.amount && t.RowAt(i).balEnd == t.base.amount && t.RowAt(i).interest == 0.0
    ensures i > 0 ==>
      && t.RowAt(i).balInit == t.RowAt(i - 1).balInit && t.RowAt(i).balEnd == t.RowAt(i - 1).balEnd
      && t.RowAt(i).interest == t.RowAt(i - 1).interest
  {
  }

  /** `Loan.calculate_schedule`: the amortization table, one row per period of the term. */
  method CalculateSchedule(t: LoanTerms) returns (schedule: seq<LoanRow>)
    requires t.base.payFreq != 0
    ensures |schedule| == RowCount(t.base.nPeriods)
    ensures forall i :: 0 <= i < |schedule| ==> schedule[i] == t.RowAt(i)
  {
    var balInit, balEnd, totInt := t.base.amount, t.base.amount, 0.0;
    schedule := [];
    var i := 0;
    while i < t.base.nPeriods
      invariant 0 <= i <= RowCount(t.base.nPeriods)
      invariant |schedule| == i
      invariant forall j :: 0 <= j < i ==> schedule[j] == t.RowAt(j)
      invariant Carry(balInit, balEnd, totInt) == t.CarryAt(i)
    {
      RowFromCarry(t, i);
      // The row of period `i`: the payment-period branch compounds and pays, any other period repeats the balances.
      var row := t.Step(Carry(balInit, balEnd, totInt), i);
      balInit, balEnd, totInt := row.balInit, row.balEnd, row.interest;
      schedule := schedule + [row];
      i := i + 1;
    }
  }

  /**
   * The construction can use an integer power: a loan that charges interest
   * is paid off in a whole number of payments.
   */
  predicate LoanDefSupported(d: BackendDef) {
    d.kind == "loan" && BaseDefOk(d) && d.annualRate != 0.0 ==>
      TermToPeriod(d.term, d.termUnit).value % d.payFreq == 0
  }

  /** `math.ceil(amount / n_payments * 100) / 100` for a loan without interest; Err where Python divides by zero. */
  function ZeroRatePayment(amount: real, nPayments: real): (r: Result<real>)
    ensures r.Ok? <==> nPayments != 0.0
    ensures r.Ok? ==> CentExact(r.value) && amount / nPayments <= r.value < amount / nPayments + 0.01
  {
    if nPayments == 0.0 then Err("float division by zero")
    else Ok(CeilCents(amount / nPayments))
  }

  /**
   * The level payment `math.ceil(amount * r / (1 - (1 + r) ** -n_payments) * 100) / 100`
   * with a whole number of payments; Err where Python divides by zero.
   */
  function PeriodicPayment(amount: real, periodicRate: real, nPayments: int): (r: Result<real>)
    ensures r.Ok? <==>
      (1.0 + periodicRate != 0.0 || nPayments <= 0) && Pow(1.0 + periodicRate, -nPayments) != 1.0
    ensures r.Ok? ==>
      var level := amount * periodicRate / (1.0 - Pow(1.0 + periodicRate, -nPayments));
      CentExact(r.value) && level <= r.value < level + 0.01
  {
    if 1.0 + periodicRate == 0.0 && nPayments > 0 then Err("0.0 cannot be raised to a negative power")
    else
      var denom := 1.0 - Pow(1.0 + periodicRate, -nPayments);
      if denom == 0.0 then Err("float division by zero")
      else Ok(CeilCents(amount * periodicRate / denom))
  }

  /** `Loan.__init__` on the definition: the level payment and the table; Err where Python raises. */
  function LoanFromDef(d: BackendDef): (r: Result<Loan>)
    requires LoanDefSupported(d)
    ensures r.Ok? ==> d.kind == "loan" && Ok(r.value.terms.base) == NewBase(d)
    ensures r.Ok? ==> r.value.terms.annualRate == d.annualRate && r.value.Valid()
    ensures r.Ok? && d.annualRate == 0.0 ==>
      && r.value.terms.periodicRate == 0.0
      && Ok(r.value.terms.periodicPayment) == ZeroRatePayment(d.amt, r.value.terms.base.nPayments)
    ensures r.Ok? && d.annualRate != 0.0 ==>
      && Ok(r.value.terms.periodicRate) == PeriodicAmount(d.annualRate, d.payFreq, "annual")
      && Ok(r.value.terms.periodicPayment)
         == PeriodicPayment(d.amt, r.value.terms.periodicRate, r.value.terms.base.nPeriods / d.payFreq)
    ensures d.kind != "loan" || !BaseDefOk(d) ==> r.Err?
  {
    if d.kind != "loan" then Err("backend_def.type must be \"loan\"")
    else
      var b :- NewBase(d);
      var rate := if d.annualRate == 0.0 then 0.0 else PeriodicAmount(d.annualRate, b.payFreq, "annual").value;
      var payment :- if d.annualRate == 0.0 then ZeroRatePayment(b.amount, b.nPayments)
                     else PeriodicPayment(b.amount, rate, b.nPeriods / b.payFreq);
      var t := LoanTerms(b, d.annualRate, rate, payment);
      Ok(Loan(t, seq(RowCount(b.nPeriods), i requires 0 <= i => t.RowAt(i))))
  }

  /**
   * `Loan.__init__` succeeds exactly when the definition is a loan, its base
   * fields are accepted, and the level payment divides by a non-zero amount.
   */
  lemma LoanFromDefSucceeds(d: BackendDef)
    requires LoanDefSupported(d)
    ensures LoanFromDef(d).Ok? <==>
      && d.kind == "loan" && NewBase(d).Ok?
      && var b := NewBase(d).value;
         if d.annualRate == 0.0 then b.nPayments != 0.0
         else PeriodicPayment(b.amount, PeriodicAmount(d.annualRate, b.payFreq, "annual").value, b.nPeriods / b.payFreq).Ok?
  {
    if d.kind == "loan" && NewBase(d).Ok? {
      var b := NewBase(d).value;
      if d.annualRate == 0.0 {
        assert LoanFromDef(d).Ok? <==> ZeroRatePayment(b.amount, b.nPayments).Ok?;
      } else {
        var rate := PeriodicAmount(d.annualRate, b.payFreq, "annual").value;
        assert LoanFromDef(d).Ok? <==> PeriodicPayment(b.amount, rate, b.nPeriods / b.payFreq).Ok?;
      }
    }
  }

  /** `Loan.__init__`: checks the type, sets the base fields and the payment, then builds the table. */
  method NewLoan(d: BackendDef) returns (r: Result<Loan>)
    requires LoanDefSupported(d)
    ensures r == LoanFromDef(d)
  {
    if d.kind != "loan" {
      return Err("backend_def.type must be \"loan\"");
    }
    var base := NewBase(d);
    if base.Err? {
      return Err(base.msg);
    }
    var b := base.value;
    var rate := if d.annualRate == 0.0 then 0.0 else PeriodicAmount(d.annualRate, b.payFreq, "annual").value;
    var payment;
    if d.annualRate == 0.0 {
      payment := ZeroRatePayment(b.amount, b.nPayments);
    } else {
      payment := PeriodicPayment(b.amount, rate, b.nPeriods / b.payFreq);
    }
    if payment.Err? {
      return Err(payment.msg);
    }
    var t := LoanTerms(b, d.annualRate, rate, payment.value);
    var schedule := CalculateSchedule(t);
    assert schedule == seq(RowCount(b.nPeriods), i requires 0 <= i => t.RowAt(i));
    r := Ok(Loan(t, schedule));
  }

  /** The row of a payment period, spelled out. */
  lemma PayRow(t: LoanTerms, c: Carry, i: int)
    requires t.base.payFreq != 0 && PayPeriod(i, t.base.payFreq)
    ensures var balInit := t.Compounded(c.balEnd);
      t.Step(c, i).balInit == balInit && t.Step(c, i).balEnd == balInit - Min(t.periodicPayment, balInit)
  {
    var balInit := t.Compounded(c.balEnd);
    var payment := Min(t.periodicPayment, balInit);
    var payInt := t.InterestOn(c.balEnd);
    assert t.Step(c, i) == LoanRow(balInit, balInit - payment, payment, payInt, payment - payInt, c.totInt + payInt, payment);
  }

  /** One period never turns non-negative balances negative. */
  lemma StepKeepsBalancesNonNegative(t: LoanTerms, c: Carry, i: int)
    requires t.base.payFreq != 0 && t.periodicRate >= -1.0
    requires c.balInit >= 0.0 && c.balEnd >= 0.0
    ensures t.Step(c, i).balInit >= 0.0 && t.Step(c, i).balEnd >= 0.0
  {
    if PayPeriod(i, t.base.payFreq) {
      PayRow(t, c, i);
      MulNonNegative(c.balEnd, 1.0 + t.periodicRate);
      Round2NonNegative(c.balEnd * (1.0 + t.periodicRate));
    }
  }

  /** No balance ever goes negative when the principal is non-negative and the rate is above -100%. */
  lemma {:induction false} BalancesNonNegative(t: LoanTerms, k: nat)
    requires t.base.payFreq != 0 && t.base.amount >= 0.0 && t.periodicRate >= -1.0
    ensures t.CarryAt(k).balInit >= 0.0 && t.CarryAt(k).balEnd >= 0.0
    ensures t.RowAt(k).balInit >= 0.0 && t.RowAt(k).balEnd >= 0.0
  {
    if k > 0 {
      BalancesNonNegative(t, k - 1);
      RowFromCarry(t, k - 1);
    }
    RowFromCarry(t, k);
    StepKeepsBalancesNonNegative(t, t.CarryAt(k), k);
  }

  /** The payments made in the first `k` periods, added one row at a time. */
  function PaidBefore(t: LoanTerms, k: nat): real
    requires t.base.payFreq != 0
  {
    if k == 0 then 0.0 else PaidBefore(t, k - 1) + t.RowAt(k - 1).payment
  }

  /** The interest paid in the first `k` periods. */
  function InterestBefore(t: LoanTerms, k: nat): real
    requires t.base.payFreq != 0
  {
    Sum(seq(k, j requires 0 <= j < k => t.RowAt(j).paymentInterest))
  }

  /** The `interest` column is the running total of `payment_interest`. */
  lemma {:induction false} InterestIsRunningTotal(t: LoanTerms, i: nat)
    requires t.base.payFreq != 0
    ensures t.CarryAt(i).totInt == InterestBefore(t, i)
    ensures t.RowAt(i).interest == InterestBefore(t, i + 1)
  {
    if i > 0 {
      InterestIsRunningTotal(t, i - 1);
    }
    var s := seq(i + 1, j requires 0 <= j < i + 1 => t.RowAt(j).paymentInterest);
    assert s == seq(i, j requires 0 <= j < i => t.RowAt(j).paymentInterest) + [t.RowAt(i).paymentInterest];
    SumAppend(seq(i, j requires 0 <= j < i => t.RowAt(j).paymentInterest), t.RowAt(i).paymentInterest);
  }

  function MaxZero(x: real): real {
    if x >= 0.0 then x else 0.0
  }

  /** Paying `min(p, balance)` off a balance `max(0, x)` leaves `max(0, x - p)`. */
  lemma PayDownStep(x: real, p: real)
    requires p >= 0.0
    ensures MaxZero(x) - Min(p, MaxZero(x)) == MaxZero(x - p)
  {
  }

  /** The running total of payments is the sum of the `payment` column. */
  lemma {:induction false} PaidBeforeIsSum(t: LoanTerms, k: nat)
    requires t.base.payFreq != 0
    ensures PaidBefore(t, k) == Sum(seq(k, j requires 0 <= j < k => t.RowAt(j).payment))
  {
    if k > 0 {
      PaidBeforeIsSum(t, k - 1);
      var s := seq(k - 1, j requires 0 <= j < k - 1 => t.RowAt(j).payment);
      assert seq(k, j requires 0 <= j < k => t.RowAt(j).payment) == s + [t.RowAt(k - 1).payment];
      SumAppend(s, t.RowAt(k - 1).payment);
    }
  }

  /**
   * One period without interest: a payment period pays `min(p, balance)` off
   * the carried balance `max(0, x)`, leaving `max(0, x - p)`; any other
   * period leaves it alone. Whole cents stay whole cents.
   */
  lemma ZeroRateStep(t: LoanTerms, c: Carry, i: int, x: real, x': real)
    requires t.base.payFreq != 0 && t.periodicRate == 0.0
    requires t.periodicPayment >= 0.0 && CentExact(t.periodicPayment)
    requires CentExact(c.balEnd) && c.balEnd == MaxZero(x)
    requires x' == if PayPeriod(i, t.base.payFreq) then x - t.periodicPayment else x
    ensures CentExact(t.Step(c, i).balEnd)
    ensures t.Step(c, i).balEnd == MaxZero(x')
    ensures t.Step(c, i).payment + t.Step(c, i).balEnd == c.balEnd
  {
    if PayPeriod(i, t.base.payFreq) {
      PayRow(t, c, i);
      assert c.balEnd * (1.0 + t.periodicRate) == c.balEnd;
      Round2OfCentExact(c.balEnd);
      CentExactMin(t.periodicPayment, c.balEnd);
      CentExactAdd(c.balEnd, Min(t.periodicPayment, c.balEnd));
      PayDownStep(x, t.periodicPayment);
    }
  }

  /** Without interest the balance carried into period `k` is what `k / pay_freq` level payments leave, in whole cents. */
  predicate ZeroRateCarry(t: LoanTerms, k: nat)
    requires t.base.payFreq > 0
  {
    PaidDown(t.base.amount, Times(k / t.base.payFreq, t.periodicPayment), t.CarryAt(k).balEnd, PaidBefore(t, k))
  }

  /** A balance of whole cents that `due` in payments leave of `amount` (never below 0), the payments `paid` making up the rest. */
  predicate PaidDown(amount: real, due: real, balance: real, paid: real) {
    CentExact(balance) && balance == MaxZero(amount - due) && paid + balance == amount
  }

  /**
   * Without interest, after `k` periods the balance is what `k / pay_freq`
   * level payments leave of the principal (never below 0), and the payments
   * made account for the rest.
   */
  lemma {:induction false} ZeroRateBalance(t: LoanTerms, k: nat)
    requires t.base.payFreq > 0 && t.periodicRate == 0.0
    requires t.base.amount >= 0.0 && CentExact(t.base.amount)
    requires t.periodicPayment >= 0.0 && CentExact(t.periodicPayment)
    ensures ZeroRateCarry(t, k)
  {
    if k > 0 {
      ZeroRateBalance(t, k - 1);
      ZeroRateCarryStep(t, k - 1);
    }
  }

  lemma ZeroRateCarryStep(t: LoanTerms, k: nat)
    requires t.base.payFreq > 0 && t.periodicRate == 0.0
    requires t.periodicPayment >= 0.0 && CentExact(t.periodicPayment)
    requires ZeroRateCarry(t, k)
    ensures ZeroRateCarry(t, k + 1)
  {
    var b, b' := t.CarryAt(k).balEnd, t.CarryAt(k + 1).balEnd;
    var pay := t.RowAt(k).payment;
    assert CentExact(b') && b' == MaxZero(t.base.amount - Times((k + 1) / t.base.payFreq, t.periodicPayment)) && pay + b' == b by {
      DueBalanceStep(t, k);
    }
  }

  /** Without interest, the balance after `k + 1` periods is what the payments due by then leave of the principal. */
  lemma DueBalanceStep(t: LoanTerms, k: nat)
    requires t.base.payFreq > 0 && t.periodicRate == 0.0
    requires t.periodicPayment >= 0.0 && CentExact(t.periodicPayment)
    requires CentExact(t.CarryAt(k).balEnd)
    requires t.CarryAt(k).balEnd == MaxZero(t.base.amount - Times(k / t.base.payFreq, t.periodicPayment))
    ensures CentExact(t.CarryAt(k + 1).balEnd)
    ensures t.CarryAt(k + 1).balEnd == MaxZero(t.base.amount - Times((k + 1) / t.base.payFreq, t.periodicPayment))
    ensures t.RowAt(k).payment + t.CarryAt(k + 1).balEnd == t.CarryAt(k).balEnd
  {
    var pf, p := t.base.payFreq, t.periodicPayment;
    var x, x' := t.base.amount - Times(k / pf, p), t.base.amount - Times((k + 1) / pf, p);
    assert x' == if PayPeriod(k, pf) then x - p else x by {
      PaymentsDueStep(k, pf, p);
    }
    RowStepBalance(t, k, x, x');
  }

  /** The balance carried out of period `k` follows from the one carried in (ZeroRateStep on row `k`). */
  lemma RowStepBalance(t: LoanTerms, k: nat, x: real, x': real)
    requires t.base.payFreq > 0 && t.periodicRate == 0.0
    requires t.periodicPayment >= 0.0 && CentExact(t.periodicPayment)
    requires CentExact(t.CarryAt(k).balEnd) && t.CarryAt(k).balEnd == MaxZero(x)
    requires x' == if PayPeriod(k, t.base.payFreq) then x - t.periodicPayment else x
    ensures CentExact(t.CarryAt(k + 1).balEnd) && t.CarryAt(k + 1).balEnd == MaxZero(x')
    ensures t.RowAt(k).payment + t.CarryAt(k + 1).balEnd == t.CarryAt(k).balEnd
  {
    RowFromCarry(t, k);
    ZeroRateStep(t, t.CarryAt(k), k, x, x');
  }

  /**
   * A loan without interest whose payment frequency divides its term is paid
   * off exactly: the last row's balance is 0 and the payments add up to the
   * principal.
   */
  lemma ZeroRateLoanPaysOff(d: BackendDef)
    requires d.kind == "loan" && BaseDefOk(d) && d.annualRate == 0.0
    requires d.payFreq > 0 && d.amt >= 0.0 && CentExact(d.amt)
    requires TermToPeriod(d.term, d.termUnit).value > 0
    requires TermToPeriod(d.term, d.termUnit).value % d.payFreq == 0
    ensures LoanFromDef(d).Ok?
    ensures var l := LoanFromDef(d).value;
      && l.schedule[|l.schedule| - 1].balEnd == 0.0
      && Sum(seq(|l.schedule|, j requires 0 <= j < |l.schedule| => l.schedule[j].payment)) == d.amt
  {
    var n := TermToPeriod(d.term, d.termUnit).value;
    var m := n / d.payFreq;
    assert m > 0;
    assert n == m * d.payFreq;
    assert NewBase(d).value.nPayments == m as real by {
      assert n as real == m as real * d.payFreq as real;
    }
    var l := LoanFromDef(d).value;
    var t := l.terms;
    EnoughPayments(d.amt, m, t.periodicPayment);
    ZeroRatePaysOff(t, n);
    PaidBeforeIsSum(t, n);
    RowFromCarry(t, n - 1);
    assert seq(|l.schedule|, j requires 0 <= j < |l.schedule| => l.schedule[j].payment)
        == seq(n, j requires 0 <= j < n => t.RowAt(j).payment);
  }

  /** Once the level payments due cover the principal, nothing is left owing and the payments add up to it. */
  lemma ZeroRatePaysOff(t: LoanTerms, n: nat)
    requires t.base.payFreq > 0 && t.periodicRate == 0.0
    requires t.base.amount >= 0.0 && CentExact(t.base.amount)
    requires t.periodicPayment >= 0.0 && CentExact(t.periodicPayment)
    requires Times(n / t.base.payFreq, t.periodicPayment) >= t.base.amount
    ensures t.CarryAt(n).balEnd == 0.0 && PaidBefore(t, n) == t.base.amount
  {
    ZeroRateBalance(t, n);
  }

  /** `m` payments of at least `a / m` cover `a`. */
  lemma EnoughPayments(a: real, m: int, p: real)
    requires a >= 0.0 && m > 0 && p >= a / m as real
    ensures p >= 0.0 && Times(m, p) >= a
  {
    TimesIsProduct(m, p);
    assert m as real * p >= m as real * (a / m as real) == a;
  }

  /** The balance under exact compounding with a level payment `p` and no rounding. */
  function ExactBalance(amount: real, rate: real, p: real, j: nat): real {
    if j == 0 then amount else ExactBalance(amount, rate, p, j - 1) * (1.0 + rate) - p
  }

  /** `b_j * r == (a * r - p) * (1 + r)^j + p`: the balance after `j` periods in closed form. */
  predicate BalanceClosedForm(amount: real, rate: real, p: real, j: nat) {
    ExactBalance(amount, rate, p, j) * rate == (amount * rate - p) * Pow(1.0 + rate, j) + p
  }

  lemma {:induction false} ExactBalanceClosedForm(amount: real, rate: real, p: real, j: nat)
    ensures BalanceClosedForm(amount, rate, p, j)
  {
    if j > 0 {
      ExactBalanceClosedForm(amount, rate, p, j - 1);
      ClosedFormStep(amount, rate, p, j);
    }
  }

  lemma ClosedFormStep(amount: real, rate: real, p: real, j: nat)
    requires j > 0 && BalanceClosedForm(amount, rate, p, j - 1)
    ensures BalanceClosedForm(amount, rate, p, j)
  {
    var b, x := ExactBalance(amount, rate, p, j - 1), Pow(1.0 + rate, j - 1);
    var e, y := ExactBalance(amount, rate, p, j), Pow(1.0 + rate, j);
    assert e == b * (1.0 + rate) - p;
    assert y == (1.0 + rate) * x;
    CompoundStep(b, rate, p, amount * rate - p, x, e, y);
  }

  /**
   * One period of the closed form: when `b * r == u * x + p`, the balance
   * `e` after compounding `b` and paying `p` satisfies the same relation
   * with `x` grown by `1 + r`.
   */
  lemma CompoundStep(b: real, rate: real, p: real, u: real, x: real, e: real, y: real)
    requires b * rate == u * x + p
    requires e == b * (1.0 + rate) - p && y == (1.0 + rate) * x
    ensures e * rate == u * y + p
  {
    calc {
      (b * (1.0 + rate) - p) * rate;
      (b * rate) * (1.0 + rate) - p * rate;
      (u * x + p) * (1.0 + rate) - p * rate;
    }
  }

  /**
   * The amortization formula means what it says: with a positive rate and
   * exact arithmetic, the unrounded level payment retires the principal in
   * exactly `n` payments.
   */
  lemma LevelPaymentRetiresPrincipal(amount: real, rate: real, n: nat)
    requires rate > 0.0 && n > 0
    ensures Pow(1.0 + rate, -(n as int)) != 1.0
    ensures ExactBalance(amount, rate, amount * rate / (1.0 - Pow(1.0 + rate, -(n as int))), n) == 0.0
  {
    var x := 1.0 + rate;
    var xn := Pow(x, n);
    PowAboveOne(x, n);
    assert Pow(x, -(n as int)) == 1.0 / xn;
    var p := amount * rate / (1.0 - 1.0 / xn);
    ExactBalanceClosedForm(amount, rate, p, n);
    assert (1.0 - 1.0 / xn) * xn == xn - 1.0;
    assert p * (xn - 1.0) == amount * rate * xn;
    assert ExactBalance(amount, rate, p, n) * rate == 0.0;
  }

  lemma {:induction false} PowAboveOne(x: real, n: nat)
    requires x > 1.0 && n > 0
    ensures Pow(x, n) > 1.0
  {
    if n > 1 {
      PowAboveOne(x, n - 1);
    }
  }

  /** The second-hand car loan of the first stage: 5000 at 6.5% over 5 years, paid every two periods. */
  const CarLoan: BackendDef := BackendDef("loan", 5000.0, "car loan", 0, Some(true), "car", 2, 5, "yr",
                                          "one-time", 0.065, None, None, 0, "")

  /** Its level payment is 97.84 (backend/design/eventdef.py:22 states the same). */
  lemma CarLoanPayment(d: BackendDef)
    requires d == CarLoan
    ensures LoanFromDef(d).Ok?
    ensures LoanFromDef(d).value.terms.periodicPayment == 97.84
  {
    var b := NewBase(d).value;
    assert b.nPeriods == 120 && b.nPeriods / b.payFreq == 60;
    var rate := PeriodicAmount(d.annualRate, b.payFreq, "annual").value;
    assert rate == 0.13 / 24.0;
    CarLoanLevelPayment(rate);
  }

  lemma CarLoanLevelPayment(rate: real)
    requires rate == 0.13 / 24.0
    ensures PeriodicPayment(5000.0, rate, 60) == Ok(97.84)
  {
    var x := Pow(1.0 + rate, 60);
    assert 1.382817 <= x <= 1.382818 by {
      CarLoanGrowth(1.0 + rate);
    }
    var level := 5000.0 * rate / (1.0 - 1.0 / x);
    assert 97.83 < level <= 97.84 by {
      CarLoanLevel(x);
    }
    assert CeilCents(level) == 97.84 by {
      CeilCentsLeast(level, 97.84);
    }
    assert Pow(1.0 + rate, -60) == 1.0 / x;
  }

  /**
   * Sixty periods of growth at 6.5% a year, two periods at a time:
   * `(1 + 0.13 / 24) ** 60`, bounded by repeated squaring (60 = 32 + 16 + 8 + 4).
   */
  lemma CarLoanGrowth(x: real)
    requires x == 1.0 + 0.13 / 24.0
    ensures 1.382817 <= Pow(x, 60) <= 1.382818
  {
    PowAdd(x, 1, 1);
    assert Pow(x, 1) == x;
    GrowthFromSquare(x);
  }

  lemma GrowthFromSquare(x: real)
    requires 1.010862673611111 <= Pow(x, 2) <= 1.010862673611112
    ensures 1.382817 <= Pow(x, 60) <= 1.382818
  {
    assert 1.021843344900203 <= Pow(x, 4) <= 1.021843344900206 by {
      PowBounds(x, 2, 2, 1.010862673611111, 1.010862673611112, 1.010862673611111, 1.010862673611112);
    }
    assert 1.044163821516835 <= Pow(x, 8) <= 1.044163821516842 by {
      PowBounds(x, 4, 4, 1.021843344900203, 1.021843344900206, 1.021843344900203, 1.021843344900206);
    }
    assert 1.066971852002541 <= Pow(x, 12) <= 1.066971852002552 by {
      PowBounds(x, 8, 4, 1.044163821516835, 1.044163821516842, 1.021843344900203, 1.021843344900206);
    }
    PowBounds(x, 8, 8, 1.044163821516835, 1.044163821516842, 1.044163821516835, 1.044163821516842);
    GrowthFromSixteen(x);
  }

  lemma GrowthFromSixteen(x: real)
    requires 1.066971852002541 <= Pow(x, 12) <= 1.066971852002552
    requires 1.090278086164640 <= Pow(x, 16) <= 1.090278086164656
    ensures 1.382817 <= Pow(x, 60) <= 1.382818
  {
    assert 1.163296028792871 <= Pow(x, 28) <= 1.163296028792901 by {
      PowBounds(x, 16, 12, 1.090278086164640, 1.090278086164656, 1.066971852002541, 1.066971852002552);
    }
    assert 1.188706305170830 <= Pow(x, 32) <= 1.188706305170866 by {
      PowBounds(x, 16, 16, 1.090278086164640, 1.090278086164656, 1.090278086164640, 1.090278086164656);
    }
    PowBounds(x, 32, 28, 1.188706305170830, 1.188706305170866, 1.163296028792871, 1.163296028792901);
  }

  /** Bounds on `x ** a` and `x ** b` bound `x ** (a + b)`. */
  lemma PowBounds(x: real, a: nat, b: nat, la: real, ha: real, lb: real, hb: real)
    requires 0.0 <= la <= Pow(x, a) <= ha && 0.0 <= lb <= Pow(x, b) <= hb
    ensures la * lb <= Pow(x, a + b) <= ha * hb
  {
    PowAdd(x, a, b);
    MulBounds(Pow(x, a), Pow(x, b), la, ha, lb, hb);
  }

  /** With `(1 + r) ** 60` in that range, the unrounded level payment lies in (97.83, 97.84]. */
  lemma CarLoanLevel(x: real)
    requires 1.382817 <= x <= 1.382818
    ensures 97.83 < 5000.0 * (0.13 / 24.0) / (1.0 - 1.0 / x) <= 97.84
  {
    var y := 1.0 - 1.0 / x;
    assert y * x == x - 1.0;
    var level := 5000.0 * (0.13 / 24.0) / y;
    assert level * y == 5000.0 * (0.13 / 24.0);
    assert level * (x - 1.0) == 5000.0 * (0.13 / 24.0) * x;
  }

  lemma {:induction false} PowAdd(x: real, a: nat, b: nat)
    ensures Pow(x, a + b) == Pow(x, a) * Pow(x, b)
  {
    if a > 0 {
      PowAdd(x, a - 1, b);
      MulShift(x, Pow(x, a - 1), Pow(x, b), Pow(x, a - 1 + b), Pow(x, a + b), Pow(x, a));
    }
  }
}
