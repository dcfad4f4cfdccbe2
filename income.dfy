/**
 * Income instruments (backend/income.py): a salary paying a fixed pay check
 * every `pay_freq` periods, and an asset that appreciates every period,
 * takes recurring contributions, may be capped, and is liquidated in its
 * last period.
 */
module Income {
  import opened Wrappers
  import opened Money
  import opened Shared
  import opened Instruments

  // ---------------------------------------------------------------- Salary

  /** A salary: its base fields, the pay check fixed at construction and its pay column. */
  datatype Salary = Salary(base: Base, payCheck: real, schedule: seq<real>) {
    /** The stored pay column is the one `calculate_schedule` builds from `pay_check`. */
    predicate Valid() {
      && base.payFreq != 0
      && |schedule| == RowCount(base.nPeriods)
      && forall i :: 0 <= i < |schedule| ==> schedule[i] == SalaryPay(payCheck, base.payFreq, i)
    }
  }

  /** What the salary pays in period `i`: the pay check in a payment period, nothing otherwise. */
  function SalaryPay(payCheck: real, payFreq: int, i: int): real
    requires payFreq != 0
  {
    if PayPeriod(i, payFreq) then payCheck else 0.0
  }

  /** `Salary.calculate_schedule`: one entry per period of the term. */
  method CalculateSalarySchedule(payCheck: real, nPeriods: int, payFreq: int) returns (pay: seq<real>)
    requires payFreq != 0
    ensures |pay| == RowCount(nPeriods)
    ensures forall i :: 0 <= i < |pay| ==> (PayPeriod(i, payFreq) ==> pay[i] == payCheck)
    ensures forall i :: 0 <= i < |pay| ==> (!PayPeriod(i, payFreq) ==> pay[i] == 0.0)
  {
    pay := [];
    var i := 0;
    while i < nPeriods
      invariant 0 <= i <= RowCount(nPeriods)
      invariant |pay| == i
      invariant forall j :: 0 <= j < i ==> pay[j] == SalaryPay(payCheck, payFreq, j)
    {
      if (1 + i) % payFreq == 0 {
        pay := pay + [payCheck];
      } else {
        pay := pay + [0.0];
      }
      i := i + 1;
    }
  }

  /** `Salary.__init__` on the definition; Err where Python raises. */
  function SalaryFromDef(d: BackendDef): (r: Result<Salary>)
    ensures r.Ok? <==>
      d.kind == "salary" && BaseDefOk(d) && (d.amtQuoteTerm == "annual" || d.amtQuoteTerm == "one-time")
    ensures r.Ok? ==> Ok(r.value.base) == NewBase(d) && r.value.Valid()
    ensures r.Ok? ==> r.value.payCheck == Round2(PeriodicAmount(d.amt, d.payFreq, d.amtQuoteTerm).value)
  {
    if d.kind != "salary" then Err("backend_def.type must be \"salary\"")
    else
      var b :- NewBase(d);
      var amount :- PeriodicAmount(b.amount, d.payFreq, d.amtQuoteTerm);
      var payCheck := Round2(amount);
      Ok(Salary(b, payCheck, seq(RowCount(b.nPeriods), i requires 0 <= i => SalaryPay(payCheck, b.payFreq, i))))
  }

  /** `Salary.__init__`: checks the type, sets the base fields and the pay check, then builds the pay column. */
  method NewSalary(d: BackendDef) returns (r: Result<Salary>)
    ensures r == SalaryFromDef(d)
  {
    if d.kind != "salary" {
      return Err("backend_def.type must be \"salary\"");
    }
    var base := NewBase(d);
    if base.Err? {
      return Err(base.msg);
    }
    var b := base.value;
    var amount := PeriodicAmount(b.amount, d.payFreq, d.amtQuoteTerm);
    if amount.Err? {
      return Err(amount.msg);
    }
    var payCheck := Round2(amount.value);
    var pay := CalculateSalarySchedule(payCheck, b.nPeriods, b.payFreq);
    assert pay == seq(RowCount(b.nPeriods), i requires 0 <= i => SalaryPay(payCheck, b.payFreq, i));
    r := Ok(Salary(b, payCheck, pay));
  }

  /**
   * An annual salary's pay check is its share of the year to the nearest
   * cent: within half a cent of `amount * pay_freq / 24`.
   */
  lemma AnnualPayCheck(d: BackendDef)
    requires SalaryFromDef(d).Ok? && d.amtQuoteTerm == "annual"
    ensures var p := SalaryFromDef(d).value.payCheck;
      && CentExact(p)
      && d.amt * d.payFreq as real / PeriodsPerYear as real - 0.005 <= p
      && p <= d.amt * d.payFreq as real / PeriodsPerYear as real + 0.005
  {
    Round2Bounds(PeriodicAmount(d.amt, d.payFreq, "annual").value);
  }

  /** Over the first `k` periods the salary pays one pay check per completed pay interval. */
  lemma {:induction false} SalaryPaidBefore(s: Salary, k: nat)
    requires s.Valid() && s.base.payFreq > 0 && k <= |s.schedule|
    ensures Sum(s.schedule[..k]) == Times(k / s.base.payFreq, s.payCheck)
  {
    if k > 0 {
      SalaryPaidBefore(s, k - 1);
      PaidStep(s, k - 1);
      PaymentsDueStep(k - 1, s.base.payFreq, s.payCheck);
    }
  }

  lemma PaidStep(s: Salary, k: nat)
    requires s.Valid() && k < |s.schedule|
    ensures Sum(s.schedule[..k + 1]) == Sum(s.schedule[..k]) + SalaryPay(s.payCheck, s.base.payFreq, k)
  {
    assert s.schedule[..k + 1] == s.schedule[..k] + [s.schedule[k]];
    SumAppend(s.schedule[..k], s.schedule[k]);
  }

  /** The whole pay column adds up to `n_periods // pay_freq` pay checks. */
  lemma SalaryTotal(s: Salary)
    requires s.Valid() && s.base.payFreq > 0
    ensures Sum(s.schedule) == Times(|s.schedule| / s.base.payFreq, s.payCheck)
  {
    SalaryPaidBefore(s, |s.schedule|);
    assert s.schedule[..|s.schedule|] == s.schedule;
  }

  /**
   * The first-job raise (backend/prosperville.py:309-315): the copy's amount
   * is scaled and `calculate_schedule` runs again, but it reads only the pay
   * check fixed at construction, so the pay column is unchanged.
   */
  method BoostSalary(s: Salary, factor: real) returns (boosted: Salary)
    requires s.Valid()
    ensures boosted.base == s.base.(amount := s.base.amount * factor)
    ensures boosted.payCheck == s.payCheck && boosted.schedule == s.schedule
    ensures boosted.Valid()
  {
    var b := s.base.(amount := s.base.amount * factor);
    var pay := CalculateSalarySchedule(s.payCheck, b.nPeriods, b.payFreq);
    boosted := Salary(b, s.payCheck, pay);
  }

  // ----------------------------------------------------------------- Asset

  /** One row of an asset's schedule. */
  datatype AssetRow = AssetRow(
    valueInit: real,
    valueEnd: real,
    appreciation: real,
    totalAppreciation: real,
    pay: real)

  /** What the asset loop threads from one period to the next. */
  datatype AssetCarry = AssetCarry(balInit: real, totApp: real)

  /** The fields of an asset that its schedule is computed from. */
  datatype AssetTerms = AssetTerms(
    base: Base,
    valueCap: real,
    annualRate: real,
    periodicRate: real,
    recurringNPeriods: int,
    recurringEndPeriod: int)
  {
    /** Period `i` adds a recurring contribution of `amount` to the opening balance. */
    predicate Contributes(i: int) {
      recurringNPeriods != 0 && i != 0 && PyMod(i, recurringNPeriods) == 0 && i + base.startPeriod <= recurringEndPeriod
    }

    /**
     * The row of period `i`, every period being a payment period: the opening
     * balance (plus any contribution) appreciates at the periodic rate, to the
     * cent, up to the cap; the appreciation is the rounded difference.
     */
    function Step(c: AssetCarry, i: int): AssetRow {
      var open := c.balInit + (if Contributes(i) then base.amount else 0.0);
      var balEnd := ValueEnd(open);
      var income := Round2(balEnd - open);
      AssetRow(open, balEnd, income, c.totApp + income, 0.0)
    }

    /** The value at the end of a period that opened at `open`: grown to the cent, then capped. */
    function ValueEnd(open: real): real {
      var grown := Round2(open * (1.0 + periodicRate));
      if valueCap != 0.0 && grown > valueCap then valueCap else grown
    }

    /** The balance and total appreciation carried into period `k`. */
    function CarryAt(k: nat): AssetCarry
      decreases k, 0
    {
      if k == 0 then AssetCarry(base.amount, 0.0)
      else
        var row := RawRowAt(k - 1);
        AssetCarry(row.valueEnd, row.totalAppreciation)
    }

    /** Row `i` as the loop appends it, before the last row is liquidated. */
    function RawRowAt(i: nat): (row: AssetRow)
      ensures row.pay == 0.0
      ensures row.totalAppreciation == CarryAt(i).totApp + row.appreciation
      ensures valueCap != 0.0 ==> row.valueEnd <= valueCap
      decreases i, 1
    {
      Step(CarryAt(i), i)
    }

    /** Row `i` of the stored schedule of `n` rows: the last one pays out its value and ends at 0. */
    function RowAt(i: nat, n: nat): AssetRow {
      var row := RawRowAt(i);
      if i + 1 == n then row.(pay := row.valueEnd, valueEnd := 0.0) else row
    }
  }

  /** An asset: its terms and its schedule. */
  datatype Asset = Asset(terms: AssetTerms, schedule: seq<AssetRow>) {
    predicate Valid() {
      && |schedule| == terms.base.nPeriods
      && forall i :: 0 <= i < |schedule| ==> schedule[i] == terms.RowAt(i, |schedule|)
    }
  }

  /** Row `i` is the step from the carried balance, and fixes the balance carried out. */
  lemma AssetRowFromCarry(t: AssetTerms, i: nat)
    ensures t.RawRowAt(i) == t.Step(t.CarryAt(i), i)
    ensures t.CarryAt(i + 1) == AssetCarry(t.RawRowAt(i).valueEnd, t.RawRowAt(i).totalAppreciation)
  {
  }

  /**
   * `Asset.calculate_schedule`: the loop appends one row per period, then the
   * last row is overwritten in place to liquidate the asset.
   */
  method CalculateAssetSchedule(t: AssetTerms) returns (schedule: seq<AssetRow>)
    requires t.base.nPeriods >= 1
    ensures |schedule| == t.base.nPeriods
    ensures forall i :: 0 <= i < |schedule| ==> schedule[i] == t.RowAt(i, |schedule|)
  {
    var n := t.base.nPeriods;
    var balInit, totApp := t.base.amount, 0.0;
    schedule := [];
    var i := 0;
    while i < n
      invariant 0 <= i <= n
      invariant |schedule| == i
      invariant forall j :: 0 <= j < i ==> schedule[j] == t.RawRowAt(j)
      invariant AssetCarry(balInit, totApp) == t.CarryAt(i)
    {
      AssetRowFromCarry(t, i);
      // Every period is a payment period: contribution, appreciation, cap and rounding happen in Step.
      var row := t.Step(AssetCarry(balInit, totApp), i);
      schedule := schedule + [row];
      balInit, totApp := row.valueEnd, row.totalAppreciation;
      i := i + 1;
    }
    var last := schedule[n - 1];
    schedule := schedule[n - 1 := last.(pay := last.valueEnd, valueEnd := 0.0)];
  }

  /**
   * The definition yields a schedule: the loop runs at least once (otherwise
   * `paysch['pay'][-1]` raises IndexError) and period 0 is a payment period,
   * which with `(1 + i) % pay_freq == 0` means `pay_freq` is 1 or -1
   * (otherwise `income` is read before assignment).
   */
  predicate AssetScheduleOk(b: Base) {
    b.nPeriods >= 1 && (b.payFreq == 1 || b.payFreq == -1)
  }

  /** `Asset.__init__` on the definition; Err where Python raises. */
  function AssetFromDef(d: BackendDef): (r: Result<Asset>)
    ensures r.Ok? <==> d.kind == "asset" && BaseDefOk(d) && AssetScheduleOk(NewBase(d).value)
    ensures r.Ok? ==> Ok(r.value.terms.base) == NewBase(d) && r.value.Valid()
    ensures r.Ok? ==> r.value.terms.valueCap == (if d.valueCap.Some? then d.valueCap.value else 0.0)
    ensures r.Ok? ==> r.value.terms.periodicRate * PeriodsPerYear as real == d.annualRate * d.payFreq as real
    ensures r.Ok? && d.recurring.None? ==> r.value.terms.recurringNPeriods == 0
  {
    if d.kind != "asset" then Err("backend_def.type must be \"asset\"")
    else
      var b :- NewBase(d);
      var cap := if d.valueCap.Some? then d.valueCap.value else 0.0;
      var rate := PeriodicAmount(d.annualRate, b.payFreq, "annual").value;
      var rec := if d.recurring.Some? then d.recurring.value else Recurring(0, 0);
      var t := AssetTerms(b, cap, d.annualRate, rate, rec.nPeriods, rec.endPeriod);
      if b.nPeriods < 1 then Err("list index out of range")
      else if b.payFreq != 1 && b.payFreq != -1 then Err("local variable 'income' referenced before assignment")
      else Ok(Asset(t, seq(b.nPeriods, i requires 0 <= i => t.RowAt(i, b.nPeriods))))
  }

  /** `Asset.__init__`: checks the type, sets the fields, then builds the schedule. */
  method NewAsset(d: BackendDef) returns (r: Result<Asset>)
    ensures r == AssetFromDef(d)
  {
    if d.kind != "asset" {
      return Err("backend_def.type must be \"asset\"");
    }
    var base := NewBase(d);
    if base.Err? {
      return Err(base.msg);
    }
    var b := base.value;
    var cap := if d.valueCap.Some? then d.valueCap.value else 0.0;
    var rate := PeriodicAmount(d.annualRate, b.payFreq, "annual").value;
    var rec := if d.recurring.Some? then d.recurring.value else Recurring(0, 0);
    var t := AssetTerms(b, cap, d.annualRate, rate, rec.nPeriods, rec.endPeriod);
    if b.nPeriods < 1 {
      return Err("list index out of range");
    }
    if b.payFreq != 1 && b.payFreq != -1 {
      return Err("local variable 'income' referenced before assignment");
    }
    var schedule := CalculateAssetSchedule(t);
    assert schedule == seq(b.nPeriods, i requires 0 <= i => t.RowAt(i, b.nPeriods));
    r := Ok(Asset(t, schedule));
  }

  /** With a pay frequency of 1 or -1 every period is a payment period. */
  lemma EveryPeriodPays(payFreq: int, i: int)
    requires payFreq == 1 || payFreq == -1
    ensures PayPeriod(i, payFreq)
  {
  }

  /**
   * A contribution of `amount` is added exactly when the recurring interval is
   * set, the period is not the first, the interval divides it, and the global
   * period has not passed the recurring end period.
   */
  lemma ContributionRule(t: AssetTerms, c: AssetCarry, i: int)
    ensures t.Step(c, i).valueInit == c.balInit + t.base.amount <==>
      (t.Contributes(i) || t.base.amount == 0.0)
    ensures t.recurringNPeriods != 0 ==>
      (t.Contributes(i) <==> i != 0 && i % t.recurringNPeriods == 0 && i + t.base.startPeriod <= t.recurringEndPeriod)
  {
    if t.recurringNPeriods != 0 {
      PyModZeroIffDivides(i, t.recurringNPeriods);
    }
  }

  /** The `appreciation` column of some rows. */
  function Appreciations(rows: seq<AssetRow>): (r: seq<real>)
    ensures |r| == |rows|
    ensures forall j :: 0 <= j < |rows| ==> r[j] == rows[j].appreciation
  {
    if |rows| == 0 then [] else Appreciations(rows[..|rows| - 1]) + [rows[|rows| - 1].appreciation]
  }

  /** The appreciation of the first `k` rows as the loop computes them. */
  function RawAppreciations(t: AssetTerms, k: nat): (r: seq<real>)
    ensures |r| == k
  {
    if k == 0 then [] else RawAppreciations(t, k - 1) + [t.RawRowAt(k - 1).appreciation]
  }

  /** The total carried into period `k` is the sum of the appreciation of the periods before it. */
  lemma {:induction false} CarriedTotalIsSum(t: AssetTerms, k: nat)
    ensures t.CarryAt(k).totApp == Sum(RawAppreciations(t, k))
  {
    if k > 0 {
      CarriedTotalIsSum(t, k - 1);
      AssetRowFromCarry(t, k - 1);
      SumAppend(RawAppreciations(t, k - 1), t.RawRowAt(k - 1).appreciation);
    }
  }

  /** Liquidating the last row leaves the appreciation column as the loop computed it. */
  lemma {:induction false} StoredAppreciations(a: Asset, k: nat)
    requires a.Valid() && k <= |a.schedule|
    ensures Appreciations(a.schedule[..k]) == RawAppreciations(a.terms, k)
  {
    if k > 0 {
      StoredAppreciations(a, k - 1);
      assert a.schedule[..k][..k - 1] == a.schedule[..k - 1];
    }
  }

  /** Each row's `total_appreciation` is the running sum of the `appreciation` column up to and including it. */
  lemma TotalAppreciationIsRunningSum(a: Asset, i: nat)
    requires a.Valid() && i < |a.schedule|
    ensures a.schedule[i].totalAppreciation == Sum(Appreciations(a.schedule[..i + 1]))
  {
    StoredAppreciations(a, i + 1);
    CarriedTotalIsSum(a.terms, i + 1);
    AssetRowFromCarry(a.terms, i);
  }

  /** The next row opens at this row's closing value plus any contribution. */
  lemma NextRowOpensAtValueEnd(t: AssetTerms, i: nat)
    ensures t.RawRowAt(i + 1).valueInit ==
      t.RawRowAt(i).valueEnd + (if t.Contributes(i + 1) then t.base.amount else 0.0)
  {
    AssetRowFromCarry(t, i);
    AssetRowFromCarry(t, i + 1);
  }

  /** In the stored schedule, only the last row pays; it pays its pre-liquidation value, and ends at 0. */
  lemma Liquidation(a: Asset, i: nat)
    requires a.Valid() && i < |a.schedule|
    ensures i + 1 < |a.schedule| ==> a.schedule[i].pay == 0.0 && a.schedule[i] == a.terms.RawRowAt(i)
    ensures i + 1 == |a.schedule| ==>
      a.schedule[i].pay == a.terms.RawRowAt(i).valueEnd && a.schedule[i].valueEnd == 0.0
  {
  }

  /** One period keeps a non-negative balance non-negative, given a rate above -100% and a non-negative cap. */
  lemma AssetStepNonNegative(t: AssetTerms, c: AssetCarry, i: int)
    requires t.periodicRate >= -1.0 && t.valueCap >= 0.0 && t.base.amount >= 0.0 && c.balInit >= 0.0
    ensures t.Step(c, i).valueInit >= 0.0 && t.Step(c, i).valueEnd >= 0.0
  {
    var open := c.balInit + (if t.Contributes(i) then t.base.amount else 0.0);
    MulNonNegative(open, 1.0 + t.periodicRate);
    Round2NonNegative(open * (1.0 + t.periodicRate));
    assert t.ValueEnd(open) >= 0.0;
  }

  /** One period passes a non-negative carried value on as a non-negative value. */
  lemma CarriedValueStep(t: AssetTerms, k: nat)
    requires t.periodicRate >= -1.0 && t.valueCap >= 0.0 && t.base.amount >= 0.0
    requires t.CarryAt(k).balInit >= 0.0
    ensures t.RawRowAt(k).valueInit >= 0.0 && t.RawRowAt(k).valueEnd >= 0.0
    ensures t.CarryAt(k + 1).balInit >= 0.0
  {
    AssetRowFromCarry(t, k);
    AssetStepNonNegative(t, t.CarryAt(k), k);
  }

  /** The value carried into every period of an asset bought at a non-negative price is non-negative. */
  lemma {:induction false} CarriedValueNonNegative(t: AssetTerms, k: nat)
    requires t.periodicRate >= -1.0 && t.valueCap >= 0.0 && t.base.amount >= 0.0
    ensures t.CarryAt(k).balInit >= 0.0
  {
    if k > 0 {
      CarriedValueNonNegative(t, k - 1);
      CarriedValueStep(t, k - 1);
    }
  }

  /** An asset bought at a non-negative price never has a negative value. */
  lemma AssetValuesNonNegative(t: AssetTerms, k: nat)
    requires t.periodicRate >= -1.0 && t.valueCap >= 0.0 && t.base.amount >= 0.0
    ensures t.RawRowAt(k).valueInit >= 0.0 && t.RawRowAt(k).valueEnd >= 0.0
  {
    CarriedValueNonNegative(t, k);
    CarriedValueStep(t, k);
  }

  /**
   * From a whole number of cents, a period's appreciation is exactly the
   * change in value, and the closing value is again a whole number of cents.
   */
  lemma AppreciationStep(t: AssetTerms, c: AssetCarry, i: int)
    requires CentExact(t.base.amount) && CentExact(t.valueCap) && CentExact(c.balInit)
    ensures t.Step(c, i).valueEnd == t.Step(c, i).valueInit + t.Step(c, i).appreciation
    ensures CentExact(t.Step(c, i).valueEnd)
  {
    var open := c.balInit + (if t.Contributes(i) then t.base.amount else 0.0);
    CentExactAdd(c.balInit, t.base.amount);
    Round2Bounds(open * (1.0 + t.periodicRate));
    var balEnd := t.ValueEnd(open);
    assert CentExact(balEnd);
    CentExactAdd(balEnd, open);
    Round2OfCentExact(balEnd - open);
  }

  /** One period passes a whole number of cents on, with the appreciation equal to the change in value. */
  lemma CentValueStep(t: AssetTerms, k: nat)
    requires CentExact(t.base.amount) && CentExact(t.valueCap) && CentExact(t.CarryAt(k).balInit)
    ensures t.RawRowAt(k).valueEnd == t.RawRowAt(k).valueInit + t.RawRowAt(k).appreciation
    ensures CentExact(t.CarryAt(k + 1).balInit)
  {
    AssetRowFromCarry(t, k);
    AppreciationStep(t, t.CarryAt(k), k);
  }

  /** Bought and capped at whole numbers of cents, the asset's value stays a whole number of cents. */
  lemma {:induction false} CarriedValueCentExact(t: AssetTerms, k: nat)
    requires CentExact(t.base.amount) && CentExact(t.valueCap)
    ensures CentExact(t.CarryAt(k).balInit)
  {
    if k > 0 {
      CarriedValueCentExact(t, k - 1);
      CentValueStep(t, k - 1);
    }
  }

  /** Every row's closing value is its opening value plus its appreciation. */
  lemma ValueEndIsInitPlusAppreciation(t: AssetTerms, k: nat)
    requires CentExact(t.base.amount) && CentExact(t.valueCap)
    ensures t.RawRowAt(k).valueEnd == t.RawRowAt(k).valueInit + t.RawRowAt(k).appreciation
  {
    CarriedValueCentExact(t, k);
    CentValueStep(t, k);
  }
}
