/**
 * Expense instruments (backend/expense.py): a payment every `pay_freq`
 * periods whose amount escalates, to the cent, at a rate quoted per
 * `rate_freq` periods.
 */
module Expenses {
  import opened Wrappers
  import opened Money
  import opened Shared
  import opened Instruments

  /** The fields of an expense that its schedule is computed from. */
  datatype ExpenseTerms = ExpenseTerms(
    base: Base,
    annualRate: real,
    periodicRate: real,
    rateFreqNPeriods: int)
  {
    /**
     * The current payment escalates at the start of period `i`: the rate is
     * not zero, a whole escalation interval has passed, and `i % F == 1`
     * with Python's remainder.
     */
    predicate Escalates(i: int) {
      annualRate != 0.0 && rateFreqNPeriods != 0 && i >= rateFreqNPeriods && PyMod(i, rateFreqNPeriods) == 1
    }

    /** The current payment `crnt_pay` in period `i`, after any escalation in that period. */
    function CurrentAt(i: nat): real {
      var before := if i == 0 then base.amount else CurrentAt(i - 1);
      if Escalates(i) then Escalate(before) else before
    }

    /** One escalation of the current payment, to the cent. */
    function Escalate(c: real): real {
      Round2((1.0 + periodicRate) * c)
    }

    /** What the expense charges in period `i`: the current payment in a payment period, nothing otherwise. */
    function Pay(i: nat): real
      requires base.payFreq != 0
    {
      if PayPeriod(i, base.payFreq) then CurrentAt(i) else 0.0
    }
  }

  /** An expense: its terms and its pay column. */
  datatype Expense = Expense(terms: ExpenseTerms, schedule: seq<real>) {
    predicate Valid() {
      && terms.base.payFreq != 0
      && |schedule| == RowCount(terms.base.nPeriods)
      && forall i :: 0 <= i < |schedule| ==> schedule[i] == terms.Pay(i)
    }
  }

  /** `Expense.calculate_schedule`: one entry per period, escalating `crnt_pay` as it goes. */
  method CalculateExpenseSchedule(t: ExpenseTerms) returns (pay: seq<real>)
    requires t.base.payFreq != 0
    requires t.base.nPeriods >= 1 && t.annualRate != 0.0 ==> t.rateFreqNPeriods != 0
    ensures |pay| == RowCount(t.base.nPeriods)
    ensures forall i :: 0 <= i < |pay| ==> pay[i] == t.Pay(i)
  {
    var crnt := t.base.amount;
    pay := [];
    var i := 0;
    while i < t.base.nPeriods
      invariant 0 <= i <= RowCount(t.base.nPeriods)
      invariant |pay| == i
      invariant forall j :: 0 <= j < i ==> pay[j] == t.Pay(j)
      invariant crnt == if i == 0 then t.base.amount else t.CurrentAt(i - 1)
    {
      if t.annualRate != 0.0 && i >= t.rateFreqNPeriods && PyMod(i, t.rateFreqNPeriods) == 1 {
        crnt := t.Escalate(crnt);
      }
      if (1 + i) % t.base.payFreq == 0 {
        pay := pay + [crnt];
      } else {
        pay := pay + [0.0];
      }
      i := i + 1;
    }
  }

  /** `Expense.__init__` on the definition; Err where Python raises. */
  function ExpenseFromDef(d: BackendDef): (r: Result<Expense>)
    ensures r.Ok? <==>
      && d.kind == "expense" && BaseDefOk(d)
      && (d.annualRate != 0.0 ==>
            KnownTermUnit(d.rateFreqUnit) && (NewBase(d).value.nPeriods >= 1 ==> TermToPeriod(d.rateFreq, d.rateFreqUnit).value != 0))
    ensures r.Ok? ==> Ok(r.value.terms.base) == NewBase(d) && r.value.Valid()
    ensures r.Ok? && d.annualRate == 0.0 ==> r.value.terms.periodicRate == 0.0
    ensures r.Ok? && d.annualRate != 0.0 ==>
      && Ok(r.value.terms.rateFreqNPeriods) == TermToPeriod(d.rateFreq, d.rateFreqUnit)
      && r.value.terms.periodicRate * PeriodsPerYear as real == d.annualRate * r.value.terms.rateFreqNPeriods as real
  {
    if d.kind != "expense" then Err("backend_def.type must be \"expense\"")
    else
      var b :- NewBase(d);
      var f :- if d.annualRate == 0.0 then Ok(0) else TermToPeriod(d.rateFreq, d.rateFreqUnit);
      var rate := if d.annualRate == 0.0 then 0.0 else PeriodicAmount(d.annualRate, f, "annual").value;
      var t := ExpenseTerms(b, d.annualRate, rate, f);
      if b.nPeriods >= 1 && d.annualRate != 0.0 && f == 0 then Err("integer division or modulo by zero")
      else Ok(Expense(t, seq(RowCount(b.nPeriods), i requires 0 <= i => t.Pay(i))))
  }

  /** `Expense.__init__`: checks the type, sets the rate fields, then builds the pay column. */
  method NewExpense(d: BackendDef) returns (r: Result<Expense>)
    ensures r == ExpenseFromDef(d)
  {
    if d.kind != "expense" {
      return Err("backend_def.type must be \"expense\"");
    }
    var base := NewBase(d);
    if base.Err? {
      return Err(base.msg);
    }
    var b := base.value;
    var f, rate := 0, 0.0;
    if d.annualRate != 0.0 {
      var n := TermToPeriod(d.rateFreq, d.rateFreqUnit);
      if n.Err? {
        return Err(n.msg);
      }
      f := n.value;
      rate := PeriodicAmount(d.annualRate, f, "annual").value;
    }
    var t := ExpenseTerms(b, d.annualRate, rate, f);
    if b.nPeriods >= 1 && d.annualRate != 0.0 && f == 0 {
      return Err("integer division or modulo by zero");
    }
    var pay := CalculateExpenseSchedule(t);
    assert pay == seq(RowCount(b.nPeriods), i requires 0 <= i => t.Pay(i));
    r := Ok(Expense(t, pay));
  }

  /**
   * The payment escalates exactly in the periods one past a positive
   * multiple of the interval `F`, the first of them being `F + 1`; an
   * interval of one period (or a negative one) never escalates.
   */
  lemma EscalationPeriods(t: ExpenseTerms, i: int)
    ensures t.Escalates(i) <==>
      t.annualRate != 0.0 && t.rateFreqNPeriods > 1 && i > t.rateFreqNPeriods && i % t.rateFreqNPeriods == 1
  {
    var f := t.rateFreqNPeriods;
    if f > 1 && i >= f && i % f == 1 {
      assert f % f == 0;
      assert i != f;
    }
  }

  /** Without a rate the current payment is the amount in every period. */
  lemma {:induction false} ZeroRateIsFlat(t: ExpenseTerms, i: nat)
    requires t.annualRate == 0.0
    ensures t.CurrentAt(i) == t.base.amount
  {
    if i > 0 {
      ZeroRateIsFlat(t, i - 1);
    }
  }

  /** Without a rate the expense charges its amount in every payment period and nothing otherwise. */
  lemma ZeroRateSchedule(e: Expense, i: nat)
    requires e.Valid() && e.terms.annualRate == 0.0 && i < |e.schedule|
    ensures e.schedule[i] == if PayPeriod(i, e.terms.base.payFreq) then e.terms.base.amount else 0.0
  {
    ZeroRateIsFlat(e.terms, i);
  }

  /** A non-negative whole number of cents escalated at a non-negative rate is again one, and no smaller. */
  lemma EscalateGrows(t: ExpenseTerms, c: real)
    requires t.periodicRate >= 0.0 && c >= 0.0 && CentExact(c)
    ensures c <= t.Escalate(c) && CentExact(t.Escalate(c))
  {
    RoundedGrowth(t.periodicRate, c, (1.0 + t.periodicRate) * c);
  }

  lemma RoundedGrowth(rate: real, c: real, grown: real)
    requires rate >= 0.0 && c >= 0.0 && CentExact(c) && grown == (1.0 + rate) * c
    ensures c <= Round2(grown) && CentExact(Round2(grown))
  {
    assert grown == c + rate * c;
    MulNonNegative(rate, c);
    Round2Monotone(c, grown);
    Round2OfCentExact(c);
    Round2Bounds(grown);
  }

  /** The current payment stays a non-negative whole number of cents. */
  predicate CentPayment(t: ExpenseTerms, i: nat) {
    t.CurrentAt(i) >= 0.0 && CentExact(t.CurrentAt(i))
  }

  /** One period never lowers the current payment. */
  lemma CurrentStep(t: ExpenseTerms, i: nat)
    requires t.periodicRate >= 0.0 && CentPayment(t, i)
    ensures t.CurrentAt(i) <= t.CurrentAt(i + 1) && CentPayment(t, i + 1)
  {
    EscalateGrows(t, t.CurrentAt(i));
  }

  /** An amount of non-negative whole cents at a non-negative rate keeps a non-negative whole-cent payment. */
  lemma {:induction false} CurrentIsCents(t: ExpenseTerms, i: nat)
    requires t.periodicRate >= 0.0 && t.base.amount >= 0.0 && CentExact(t.base.amount)
    ensures CentPayment(t, i)
  {
    if i == 0 {
      EscalateGrows(t, t.base.amount);
    } else {
      CurrentIsCents(t, i - 1);
      CurrentStep(t, i - 1);
    }
  }

  /** At a non-negative rate the current payment never decreases. */
  lemma {:induction false} CurrentNondecreasing(t: ExpenseTerms, i: nat, j: nat)
    requires t.periodicRate >= 0.0 && t.base.amount >= 0.0 && CentExact(t.base.amount)
    requires i <= j
    ensures t.base.amount <= t.CurrentAt(i) <= t.CurrentAt(j)
    decreases j
  {
    if i == j {
      if i == 0 {
        EscalateGrows(t, t.base.amount);
      } else {
        CurrentNondecreasing(t, 0, i - 1);
        CurrentIsCents(t, i - 1);
        CurrentStep(t, i - 1);
      }
    } else {
      CurrentNondecreasing(t, i, j - 1);
      CurrentIsCents(t, j - 1);
      CurrentStep(t, j - 1);
    }
  }
}
