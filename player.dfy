/**
 * A player (backend/player.py): the backend objects it holds, the score
 * table `__update_score_table` fills one simulation period at a time, the
 * summary `simulate` leaves in the player's fields, and the choice map
 * with its option-availability cache.
 */
module Players {
  import opened Wrappers
  import opened Money
  import opened Shared
  import opened Backend

  const Student := "student"
  const Mortgage := "mortgage"
  const Car := "car"

  // ------------------------------------------------------- Per-period tally

  /** What the loop over the held objects gathers for one period. */
  datatype Tally = Tally(
    income: real,
    spending: real,
    debt: real,
    hpnsSpending: real,
    asset: real,
    annualSalary: real,
    debtStd: real,
    debtMort: real,
    debtCar: real,
    debtOther: real,
    adj: real)

  /** The loop's starting totals: all zero, the adjustment at the player's ratio. */
  function StartTally(adj: real): Tally {
    Tally(0.0, 0.0, 0.0, 0.0, 0.0, 0.0, 0.0, 0.0, 0.0, 0.0, adj)
  }

  /** `0 <= iprd - start_period < n_periods`: the object acts in period `p`. */
  predicate Active(x: Instrument, p: int) {
    0 <= p - x.startPeriod < x.NPeriods()
  }

  predicate AllValid(xs: seq<Instrument>) {
    forall i :: 0 <= i < |xs| ==> xs[i].Valid()
  }

  /** What one object contributes to a period, read off its schedule. */
  datatype Effect =
    | NoEffect
    | SalaryEffect(pay: real, amount: real)
    | LoanEffect(pay: real, bal: real, happy: bool, category: string)
    | ExpenseEffect(pay: real, happy: bool)
    | AssetEffect(value: real, pay: real)
    | HarEffect(rate: real)

  /** The row of `x`'s schedule for period `p`, by the object's type; none out of its term. */
  function EffectOf(x: Instrument, p: int): Effect
    requires x.Valid()
  {
    if !Active(x, p) then NoEffect
    else
      var k := p - x.startPeriod;
      match x.body
      case SalaryBody(_) =>
        RowsCoverTerm(x);
        SalaryEffect(x.Pay(k), x.Amount())
      case LoanBody(_) =>
        RowsCoverTerm(x);
        LoanEffect(x.Pay(k), x.BalEnd(k), x.IsHappinessSpending(), x.Category())
      case ExpenseBody(_) =>
        RowsCoverTerm(x);
        ExpenseEffect(x.Pay(k), x.IsHappinessSpending())
      case AssetBody(_) =>
        RowsCoverTerm(x);
        AssetEffect(x.ValueEnd(k), x.Pay(k))
      case HarBody(h) =>
        HarEffect(h.adjRate)
  }

  /** The loan's balance in the bucket its category names, zero in the others. */
  function DebtBuckets(category: string, bal: real): (real, real, real, real) {
    if category == Student then (bal, 0.0, 0.0, 0.0)
    else if category == Mortgage then (0.0, bal, 0.0, 0.0)
    else if category == Car then (0.0, 0.0, bal, 0.0)
    else (0.0, 0.0, 0.0, bal)
  }

  /**
   * What one object adds to each total, with the factor it applies to the
   * happiness adjustment (backend/player.py:292-336): a salary's pay is
   * income and its amount annual salary; a loan's payment is spending
   * (happiness spending if flagged) and its balance debt, in its
   * category's bucket; an expense is spending; an asset adds its value and
   * its payout; a ratio multiplies the adjustment.
   */
  function Delta(e: Effect): Tally {
    match e
    case NoEffect => StartTally(1.0)
    case SalaryEffect(pay, amount) => StartTally(1.0).(income := pay, annualSalary := amount)
    case LoanEffect(pay, bal, happy, category) =>
      var (s, m, c, o) := DebtBuckets(category, bal);
      StartTally(1.0).(spending := pay, debt := bal, hpnsSpending := if happy then pay else 0.0,
                       debtStd := s, debtMort := m, debtCar := c, debtOther := o)
    case ExpenseEffect(pay, happy) => StartTally(1.0).(spending := pay, hpnsSpending := if happy then pay else 0.0)
    case AssetEffect(value, pay) => StartTally(1.0).(asset := value, income := pay)
    case HarEffect(rate) => StartTally(rate)
  }

  /** `+=` on every total, `*=` on the adjustment. */
  function Combine(t: Tally, d: Tally): Tally {
    Tally(t.income + d.income, t.spending + d.spending, t.debt + d.debt, t.hpnsSpending + d.hpnsSpending,
          t.asset + d.asset, t.annualSalary + d.annualSalary, t.debtStd + d.debtStd, t.debtMort + d.debtMort,
          t.debtCar + d.debtCar, t.debtOther + d.debtOther, t.adj * d.adj)
  }

  function Apply(t: Tally, e: Effect): Tally {
    Combine(t, Delta(e))
  }

  /** The totals after the objects `xs`, in list order. */
  function TallyOf(xs: seq<Instrument>, p: int, adj: real): Tally
    requires AllValid(xs)
  {
    if |xs| == 0 then StartTally(adj)
    else Apply(TallyOf(xs[..|xs| - 1], p, adj), EffectOf(xs[|xs| - 1], p))
  }

  /** The loop over `selected_bked_objs` (backend/player.py:281-336). */
  method GatherTally(xs: seq<Instrument>, p: int, adj: real) returns (t: Tally)
    requires AllValid(xs)
    ensures t == TallyOf(xs, p, adj)
  {
    t := StartTally(adj);
    var i := 0;
    while i < |xs|
      invariant 0 <= i <= |xs|
      invariant t == TallyOf(xs[..i], p, adj)
    {
      assert xs[..i + 1][..i] == xs[..i];
      t := Apply(t, EffectOf(xs[i], p));
      i := i + 1;
    }
    assert xs[..i] == xs;
  }

  /** The objects of `xs` that act in period `p`, in order. */
  function ActiveAt(xs: seq<Instrument>, p: int): (r: seq<Instrument>)
    ensures forall i :: 0 <= i < |r| ==> r[i] in xs && Active(r[i], p)
  {
    if |xs| == 0 then []
    else ActiveAt(xs[..|xs| - 1], p) + (if Active(xs[|xs| - 1], p) then [xs[|xs| - 1]] else [])
  }

  /** Only the objects in their term contribute to a period. */
  lemma {:induction false} TallyOnlyActive(xs: seq<Instrument>, p: int, adj: real)
    requires AllValid(xs)
    ensures AllValid(ActiveAt(xs, p))
    ensures TallyOf(xs, p, adj) == TallyOf(ActiveAt(xs, p), p, adj)
  {
    if |xs| > 0 {
      var init, x := xs[..|xs| - 1], xs[|xs| - 1];
      assert AllValid(init);
      TallyOnlyActive(init, p, adj);
      var a := ActiveAt(init, p);
      if Active(x, p) {
        assert ActiveAt(xs, p) == a + [x];
        assert (a + [x])[..|a|] == a;
      }
      else {
        assert ActiveAt(xs, p) == a;
      }
    }
  }

  /** Two objects added in either order give the same totals. */
  lemma ApplyCommutes(t: Tally, e: Effect, f: Effect)
    ensures Apply(Apply(t, e), f) == Apply(Apply(t, f), e)
  {
    MulSwap(t.adj, Delta(e).adj, Delta(f).adj);
  }

  lemma MulSwap(a: real, b: real, c: real)
    ensures a * b * c == a * c * b
  {
  }

  /** The object at `i` may be taken last. */
  lemma {:induction false} TallyMoveLast(xs: seq<Instrument>, i: int, p: int, adj: real)
    requires AllValid(xs) && 0 <= i < |xs|
    ensures AllValid(xs[..i] + xs[i + 1..])
    ensures TallyOf(xs, p, adj) == Apply(TallyOf(xs[..i] + xs[i + 1..], p, adj), EffectOf(xs[i], p))
    decreases |xs|
  {
    var rest := xs[..i] + xs[i + 1..];
    assert forall j :: 0 <= j < |rest| ==> rest[j] in xs;
    if i < |xs| - 1 {
      var init, z := xs[..|xs| - 1], xs[|xs| - 1];
      assert AllValid(init);
      TallyMoveLast(init, i, p, adj);
      var initRest := init[..i] + init[i + 1..];
      assert rest == initRest + [z];
      assert rest[..|rest| - 1] == initRest;
      ApplyCommutes(TallyOf(initRest, p, adj), EffectOf(xs[i], p), EffectOf(z, p));
    }
    else {
      assert rest == xs[..|xs| - 1];
    }
  }

  /** `har` ratios multiply, and every total adds up, in any order: a permutation of the objects gives the same totals. */
  lemma {:induction false} TallyOrderFree(xs: seq<Instrument>, ys: seq<Instrument>, p: int, adj: real)
    requires AllValid(xs) && multiset(xs) == multiset(ys)
    ensures AllValid(ys) && TallyOf(xs, p, adj) == TallyOf(ys, p, adj)
    decreases |ys|
  {
    if |ys| == 0 {
      assert |multiset(xs)| == 0;
    }
    else {
      var init := ys[..|ys| - 1];
      var i := TakeOut(xs, ys);
      TallyMoveLast(xs, i, p, adj);
      TallyOrderFree(xs[..i] + xs[i + 1..], init, p, adj);
      assert ys == init + [xs[i]];
    }
  }

  /** The last element of a permutation sits somewhere in the original, and the rests are permutations too. */
  lemma TakeOut<T>(xs: seq<T>, ys: seq<T>) returns (i: int)
    requires multiset(xs) == multiset(ys) && |ys| > 0
    ensures 0 <= i < |xs| && xs[i] == ys[|ys| - 1]
    ensures multiset(xs[..i] + xs[i + 1..]) == multiset(ys[..|ys| - 1])
  {
    var init, y := ys[..|ys| - 1], ys[|ys| - 1];
    assert ys == init + [y];
    assert y in multiset(xs);
    i :| 0 <= i < |xs| && xs[i] == y;
    var rest := xs[..i] + xs[i + 1..];
    assert xs == xs[..i] + [y] + xs[i + 1..];
    assert multiset(xs) == multiset(rest) + multiset{y};
    assert multiset(ys) == multiset(init) + multiset{y};
    assert multiset(rest) == multiset(xs) - multiset{y};
    assert multiset(init) == multiset(ys) - multiset{y};
  }

  /** The period's debt is the sum of its four buckets. */
  lemma {:induction false} DebtIsSumOfBuckets(xs: seq<Instrument>, p: int, adj: real)
    requires AllValid(xs)
    ensures var t := TallyOf(xs, p, adj); t.debt == t.debtStd + t.debtMort + t.debtCar + t.debtOther
  {
    if |xs| > 0 {
      assert AllValid(xs[..|xs| - 1]);
      DebtIsSumOfBuckets(xs[..|xs| - 1], p, adj);
    }
  }

  // ------------------------------------------------------------ Score table

  /** One row of `_score_table`: a simulation period. */
  datatype ScoreRow = ScoreRow(
    income: real,
    spending: real,
    netIncome: real,
    debt: real,
    asset: real,
    spdOnHapns: real,
    mthSpdHapns: real,
    wealth: real,
    happiness: real,
    score: real,
    debtStd: real,
    debtMort: real,
    debtCar: real,
    debtOther: real,
    debtRatio: real)

  /** The columns the game sums. */
  datatype Column = IncomeCol | SpendingCol | NetIncomeCol | SpdOnHapnsCol | HappinessCol

  function Cell(r: ScoreRow, c: Column): real {
    match c
    case IncomeCol => r.income
    case SpendingCol => r.spending
    case NetIncomeCol => r.netIncome
    case SpdOnHapnsCol => r.spdOnHapns
    case HappinessCol => r.happiness
  }

  /** `sum()` of a column over some rows, left to right. */
  function ColSum(rows: seq<ScoreRow>, c: Column): real {
    if |rows| == 0 then 0.0 else ColSum(rows[..|rows| - 1], c) + Cell(rows[|rows| - 1], c)
  }

  /**
   * `__calculate_happiness(wealth, mthly_spending, adj_ratio)`: the mood the
   * wealth and spending give (a sigmoid of wealth plus a tanh of spending in
   * the source, a parameter here), scaled by the ratio and halved.
   */
  function Happiness(mood: (real, real) -> real, wealth: real, spending: real, adj: real): real {
    mood(wealth, spending) * adj / 2.0
  }

  /** `score_adj_ratio`: the ratio that puts every player's starting happiness at 100. */
  function AdjRatio(mood: (real, real) -> real, initCash: real): (r: real)
    requires mood(initCash, 0.0) != 0.0
    ensures Happiness(mood, initCash, 0.0, r) == 100.0
  {
    100.0 / Happiness(mood, initCash, 0.0, 1.0)
  }

  /** `debt_ratio`: non-student debt over wealth, 999 or 0 when there is no wealth. */
  function DebtRatio(wealth: real, debt: real, debtStd: real): real {
    if wealth == 0.0 then (if debt - debtStd > 0.0 then 999.0 else 0.0)
    else (debt - debtStd) / wealth
  }

  /** The first row the trailing monthly sum reaches back to. */
  function MonthStart(p: int): int {
    if p - NPeriodsPerMonth + 1 > 0 then p - NPeriodsPerMonth + 1 else 0
  }

  /**
   * The row `__update_score_table` writes for period `|prev|` from the
   * period's totals and the rows before it (backend/player.py:338-381).
   */
  function NewRow(prev: seq<ScoreRow>, t: Tally, initCash: real, mood: (real, real) -> real): ScoreRow {
    var p := |prev|;
    var net := t.income - t.spending;
    var mth := if p == 0 then t.hpnsSpending else ColSum(prev[MonthStart(p)..], SpdOnHapnsCol) + t.hpnsSpending;
    var wealth :=
      if p == 0 then net - t.debt + t.asset + initCash
      else prev[p - 1].wealth + net - (t.debt - prev[p - 1].debt) + (t.asset - prev[p - 1].asset);
    var h := Happiness(mood, wealth, mth, t.adj);
    ScoreRow(t.income, t.spending, net, t.debt, t.asset, t.hpnsSpending, mth, wealth, h,
             (ColSum(prev, HappinessCol) + h) / (p + 1) as real,
             t.debtStd, t.debtMort, t.debtCar, t.debtOther, DebtRatio(wealth, t.debt, t.debtStd))
  }

  /** The bankruptcy rule: wealth net of student debt below minus twice the annual salary. */
  predicate Broke(row: ScoreRow, annualSalary: real) {
    row.wealth + row.debtStd < -2.0 * annualSalary
  }

  /** Row `p` written: appended when the table ends at `p`, overwritten otherwise. */
  function Put(rows: seq<ScoreRow>, p: int, row: ScoreRow): (r: seq<ScoreRow>)
    requires 0 <= p <= |rows|
    ensures |r| == if p == |rows| then p + 1 else |rows|
    ensures r[..p] == rows[..p] && r[p] == row
    ensures forall q :: p < q < |rows| ==> r[q] == rows[q]
  {
    if p == |rows| then rows + [row] else rows[p := row]
  }

  /** Where a run of `simulate` ends: the table, the last period simulated, and whether it went bankrupt there. */
  datatype SimEnd = SimEnd(rows: seq<ScoreRow>, last: int, broke: bool)

  /** The totals of every period for a list of instruments. */
  function Tallies(xs: seq<Instrument>, adj: real): (f: int -> Tally)
    requires AllValid(xs)
  {
    p => TallyOf(xs, p, adj)
  }

  /**
   * `simulate`'s loop from period `p` to `pEnd` given each period's totals
   * `tally`, stopping at the first bankrupt period.
   */
  function SimFrom(rows: seq<ScoreRow>, p: int, pEnd: int, tally: int -> Tally,
                   initCash: real, mood: (real, real) -> real): (r: SimEnd)
    requires 0 <= p <= |rows|
    ensures p <= pEnd ==> p <= r.last <= pEnd && r.last < |r.rows|
    ensures |r.rows| >= |rows| && r.rows[..p] == rows[..p]
    decreases pEnd + 1 - p, 1
  {
    if p > pEnd then SimEnd(rows, pEnd, false) else SimAt(rows, p, pEnd, tally, initCash, mood)
  }

  /** The pass of `simulate`'s loop for period `p`: write its row, then stop if it is bankrupt, else go on. */
  function SimAt(rows: seq<ScoreRow>, p: int, pEnd: int, tally: int -> Tally,
                 initCash: real, mood: (real, real) -> real): (r: SimEnd)
    requires 0 <= p <= |rows| && p <= pEnd
    ensures p <= r.last <= pEnd && r.last < |r.rows|
    ensures |r.rows| >= |rows| && r.rows[..p] == rows[..p]
    decreases pEnd + 1 - p, 0
  {
    var row := NewRow(rows[..p], tally(p), initCash, mood);
    var next := Put(rows, p, row);
    if Broke(row, tally(p).annualSalary) then SimEnd(next, p, true)
    else
      var r := SimFrom(next, p + 1, pEnd, tally, initCash, mood);
      assert r.rows[..p] == r.rows[..p + 1][..p];
      r
  }

  /** One period of a run: write the row, then stop if it is bankrupt, else go on. */
  lemma SimStep(rows: seq<ScoreRow>, p: int, pEnd: int, tally: int -> Tally, initCash: real, mood: (real, real) -> real)
    requires 0 <= p <= |rows| && p <= pEnd
    ensures var next := Put(rows, p, NewRow(rows[..p], tally(p), initCash, mood));
      SimFrom(rows, p, pEnd, tally, initCash, mood) ==
        if Broke(next[p], tally(p).annualSalary) then SimEnd(next, p, true)
        else SimFrom(next, p + 1, pEnd, tally, initCash, mood)
  {
    assert SimFrom(rows, p, pEnd, tally, initCash, mood) == SimAt(rows, p, pEnd, tally, initCash, mood);
  }

  /** The fields `simulate` sets at the end of a run. */
  datatype Summary = Summary(
    score: real,
    happiness: real,
    equity: real,
    debt: real,
    asset: real,
    netIncome: real,
    income: real,
    spending: real,
    debtStd: real,
    debtMort: real,
    debtCar: real,
    debtOther: real)

  /**
   * The summary of periods `a..b`: the three flows averaged per month over
   * the periods simulated, the rest as they stand at `b`.
   */
  function SummaryOf(rows: seq<ScoreRow>, a: int, b: int): Summary
    requires 0 <= a <= b < |rows|
  {
    var r := rows[b];
    Summary(r.score, r.happiness, r.wealth, r.debt, r.asset,
            PerMonth(rows, a, b, NetIncomeCol), PerMonth(rows, a, b, IncomeCol), PerMonth(rows, a, b, SpendingCol),
            r.debtStd, r.debtMort, r.debtCar, r.debtOther)
  }

  /** The monthly average of a column over periods `a..b`. */
  function PerMonth(rows: seq<ScoreRow>, a: int, b: int, c: Column): real
    requires 0 <= a <= b < |rows|
  {
    ColSum(rows[a..b + 1], c) * NPeriodsPerMonth as real / (b - a + 1) as real
  }

  /**
   * The rules a written row keeps with the rows before it: net income is
   * income less spending, wealth moves by net income less the change in
   * debt plus the change in assets (and starts from the initial cash), the
   * monthly happiness spending is this period's plus the previous one's,
   * and the score is the mean happiness so far.
   */
  predicate RowRule(prev: seq<ScoreRow>, row: ScoreRow, initCash: real) {
    var p := |prev|;
    && row.netIncome == row.income - row.spending
    && row.wealth == (if p == 0 then row.netIncome - row.debt + row.asset + initCash
                      else prev[p - 1].wealth + row.netIncome - (row.debt - prev[p - 1].debt) + (row.asset - prev[p - 1].asset))
    && row.mthSpdHapns == (if p == 0 then row.spdOnHapns else prev[p - 1].spdOnHapns + row.spdOnHapns)
    && row.score * (p + 1) as real == ColSum(prev, HappinessCol) + row.happiness
  }

  /** Every row of the table keeps the rules with the rows before it. */
  predicate Follows(rows: seq<ScoreRow>, initCash: real) {
    forall q {:trigger RowRule(rows[..q], rows[q], initCash)} :: 0 <= q < |rows| ==> RowRule(rows[..q], rows[q], initCash)
  }

  /** A row written from any totals keeps the rules. */
  lemma NewRowRule(prev: seq<ScoreRow>, t: Tally, initCash: real, mood: (real, real) -> real)
    ensures RowRule(prev, NewRow(prev, t, initCash, mood), initCash)
  {
    var n := |prev|;
    var row := NewRow(prev, t, initCash, mood);
    if n > 0 {
      var tail := prev[MonthStart(n)..];
      assert tail == [prev[n - 1]];
      assert tail[..0] == [];
      assert ColSum(tail, SpdOnHapnsCol) == prev[n - 1].spdOnHapns;
    }
    var total := ColSum(prev, HappinessCol) + row.happiness;
    assert row.score == total / (n + 1) as real;
    DivMul(total, (n + 1) as real);
  }

  /** A row written from a period's totals keeps the rules, and its debt is the sum of its buckets. */
  lemma NewRowFollows(prev: seq<ScoreRow>, xs: seq<Instrument>, p: int, adj: real, initCash: real, mood: (real, real) -> real)
    requires AllValid(xs)
    ensures var row := NewRow(prev, TallyOf(xs, p, adj), initCash, mood);
      && RowRule(prev, row, initCash)
      && row.debt == row.debtStd + row.debtMort + row.debtCar + row.debtOther
  {
    DebtIsSumOfBuckets(xs, p, adj);
    NewRowRule(prev, TallyOf(xs, p, adj), initCash, mood);
  }

  lemma DivMul(x: real, k: real)
    requires k != 0.0
    ensures x / k * k == x
  {
  }

  /** A run writes each period's row from the rows before it and that period's totals. */
  lemma {:induction false} SimFromWrites(rows: seq<ScoreRow>, p: int, pEnd: int, tally: int -> Tally,
                                         initCash: real, mood: (real, real) -> real)
    requires 0 <= p <= |rows| && p <= pEnd
    ensures var r := SimFrom(rows, p, pEnd, tally, initCash, mood);
      forall q {:trigger tally(q)} :: p <= q <= r.last ==> r.rows[q] == NewRow(r.rows[..q], tally(q), initCash, mood)
    decreases pEnd - p
  {
    var row := NewRow(rows[..p], tally(p), initCash, mood);
    var next := Put(rows, p, row);
    var r := SimFrom(rows, p, pEnd, tally, initCash, mood);
    SimStep(rows, p, pEnd, tally, initCash, mood);
    if !Broke(row, tally(p).annualSalary) {
      if p + 1 <= pEnd {
        SimFromWrites(next, p + 1, pEnd, tally, initCash, mood);
      }
    }
    assert r.rows[..p + 1] == next[..p + 1];
    assert r.rows[p] == row by {
      assert r.rows[p] == r.rows[..p + 1][p];
    }
    forall q | p <= q <= r.last
      ensures r.rows[q] == NewRow(r.rows[..q], tally(q), initCash, mood)
    {
      if q == p {
        assert r.rows[..p] == rows[..p];
      }
    }
  }

  /** A run stops at the first period that breaks the bankruptcy rule, or at `pEnd`. */
  lemma {:induction false} SimFromStops(rows: seq<ScoreRow>, p: int, pEnd: int, tally: int -> Tally,
                                        initCash: real, mood: (real, real) -> real)
    requires 0 <= p <= |rows| && p <= pEnd
    ensures var r := SimFrom(rows, p, pEnd, tally, initCash, mood);
      && (forall q :: p <= q < r.last ==> !Broke(r.rows[q], tally(q).annualSalary))
      && (r.broke ==> Broke(r.rows[r.last], tally(r.last).annualSalary))
      && (!r.broke ==> r.last == pEnd)
    decreases pEnd - p
  {
    var row := NewRow(rows[..p], tally(p), initCash, mood);
    var next := Put(rows, p, row);
    var r := SimFrom(rows, p, pEnd, tally, initCash, mood);
    SimStep(rows, p, pEnd, tally, initCash, mood);
    if !Broke(row, tally(p).annualSalary) {
      if p + 1 <= pEnd {
        SimFromStops(next, p + 1, pEnd, tally, initCash, mood);
        assert r.rows[p] == r.rows[..p + 1][p] == next[p];
      }
    }
  }

  /** A run that starts on a table whose rows keep the rules leaves one whose simulated rows keep them too. */
  lemma SimKeepsRules(rows: seq<ScoreRow>, p: int, pEnd: int, tally: int -> Tally,
                      initCash: real, mood: (real, real) -> real)
    requires 0 <= p <= |rows| && p <= pEnd
    requires Follows(rows[..p], initCash)
    ensures var r := SimFrom(rows, p, pEnd, tally, initCash, mood);
      Follows(r.rows[..r.last + 1], initCash)
  {
    var r := SimFrom(rows, p, pEnd, tally, initCash, mood);
    var big := r.rows[..r.last + 1];
    forall q {:trigger RowRule(big[..q], big[q], initCash)} | 0 <= q < |big|
      ensures RowRule(big[..q], big[q], initCash)
    {
      SimRowKeepsRule(rows, p, pEnd, tally, initCash, mood, q);
      assert big[..q] == r.rows[..q];
    }
  }

  lemma SimRowKeepsRule(rows: seq<ScoreRow>, p: int, pEnd: int, tally: int -> Tally,
                        initCash: real, mood: (real, real) -> real, q: int)
    requires 0 <= p <= |rows| && p <= pEnd
    requires Follows(rows[..p], initCash)
    ensures var r := SimFrom(rows, p, pEnd, tally, initCash, mood);
      0 <= q <= r.last ==> RowRule(r.rows[..q], r.rows[q], initCash)
  {
    var r := SimFrom(rows, p, pEnd, tally, initCash, mood);
    if 0 <= q < p {
      assert r.rows[..p] == rows[..p];
      FollowsAt(r.rows, p, q, initCash);
    } else if p <= q <= r.last {
      SimFromWrites(rows, p, pEnd, tally, initCash, mood);
      NewRowRule(r.rows[..q], tally(q), initCash, mood);
    }
  }

  lemma FollowsAt(rows: seq<ScoreRow>, k: int, q: int, initCash: real)
    requires 0 <= q < k <= |rows| && Follows(rows[..k], initCash)
    ensures RowRule(rows[..q], rows[q], initCash)
  {
    assert RowRule(rows[..k][..q], rows[..k][q], initCash);
    assert rows[..k][..q] == rows[..q];
  }

  lemma ColSumSnoc(rows: seq<ScoreRow>, p: int, c: Column)
    requires 0 <= p < |rows|
    ensures ColSum(rows[..p + 1], c) == ColSum(rows[..p], c) + Cell(rows[p], c)
  {
    assert rows[..p + 1][..p] == rows[..p];
  }

  /** Wealth is the initial cash plus all net income so far, less the debt, plus the assets, of the period. */
  lemma {:induction false} WealthClosedForm(rows: seq<ScoreRow>, initCash: real, p: int)
    requires Follows(rows, initCash) && 0 <= p < |rows|
    ensures rows[p].wealth == initCash + ColSum(rows[..p + 1], NetIncomeCol) - rows[p].debt + rows[p].asset
  {
    assert RowRule(rows[..p], rows[p], initCash);
    ColSumSnoc(rows, p, NetIncomeCol);
    if p > 0 {
      WealthClosedForm(rows, initCash, p - 1);
      assert rows[..p][p - 1] == rows[p - 1];
    }
  }

  /** The score of period `p` is the mean happiness over periods `0..p`. */
  lemma ScoreIsMean(rows: seq<ScoreRow>, initCash: real, p: int)
    requires Follows(rows, initCash) && 0 <= p < |rows|
    ensures rows[p].score == ColSum(rows[..p + 1], HappinessCol) / (p + 1) as real
  {
    assert RowRule(rows[..p], rows[p], initCash);
    ColSumSnoc(rows, p, HappinessCol);
  }

  // ------------------------------------------------------------ Choices

  const College := "stg1_college"
  const NoCollege := "stg1_no_college"
  const Lodging := "stg1_lodging"
  const NotAvailable := "Option is not available to the player"
  const NoSuchOption := "Option index out of range"
  const NoSuchEvent := "Event is not defined"
  const NoOptions := "Event has no options"

  /** The options of each event by name, as option names; an event without options maps to `[]`. */
  type Catalog = map<string, seq<string>>

  /** Every option of an event with `n` options available. */
  function AllAvailable(n: nat): (r: seq<bool>)
    ensures |r| == n && forall i :: 0 <= i < n ==> r[i]
  {
    seq(n, _ => true)
  }

  /**
   * `get_option_availability(e)`: nothing for an unknown event or one
   * without options, else the cached list, else every option available.
   */
  function Availability(catalog: Catalog, avail: map<string, seq<bool>>, e: string): (r: Option<seq<bool>>)
    ensures r.None? <==> e !in catalog || |catalog[e]| == 0
    ensures r.Some? && e !in avail ==> r.value == AllAvailable(|catalog[e]|)
    ensures r.Some? && e in avail ==> r.value == avail[e]
  {
    if e !in catalog || |catalog[e]| == 0 then None
    else if e in avail then Some(avail[e])
    else Some(AllAvailable(|catalog[e]|))
  }

  /** The cache after `get_option_availability(e)`: the first query of an event with options stores its answer. */
  function CacheAfter(catalog: Catalog, avail: map<string, seq<bool>>, e: string): (r: map<string, seq<bool>>)
    ensures forall k :: k in avail ==> k in r && r[k] == avail[k]
    ensures r.Keys <= avail.Keys + {e}
    ensures Availability(catalog, avail, e).Some? ==> e in r && Availability(catalog, avail, e) == Some(r[e])
    ensures Availability(catalog, r, e) == Availability(catalog, avail, e)
  {
    if e !in catalog || |catalog[e]| == 0 || e in avail then avail
    else avail[e := AllAvailable(|catalog[e]|)]
  }

  /** Option `c` of event `e` is offered: the event has options and the availability list marks `c`. */
  predicate Offered(catalog: Catalog, avail: map<string, seq<bool>>, e: string, c: int) {
    var a := Availability(catalog, avail, e);
    a.Some? && 0 <= c < |a.value| && a.value[c]
  }

  /** The lodging availability the college choice leads to. */
  function LodgingAfterCollege(optionName: string): (r: seq<bool>)
    ensures |r| == 3 && r[1] && r[2]
    ensures r[0] <==> optionName != NoCollege
  {
    if optionName == NoCollege then [false, true, true] else [true, true, true]
  }

  /**
   * The first half of `__on_set_choice`: a new or changed choice for the
   * college event rewrites the lodging availability from the chosen
   * option's name, failing where the game has no such event or option.
   */
  function CollegeHook(catalog: Catalog, choices: map<string, int>, avail: map<string, seq<bool>>,
                       e: string, c: int): (r: Result<map<string, seq<bool>>>)
    requires c >= 0
    ensures e != College || (e in choices && choices[e] == c) ==> r == Ok(avail)
    ensures e == College && (e !in choices || choices[e] != c) ==>
      (r.Ok? <==> College in catalog && c < |catalog[College]|)
    ensures r.Ok? && e == College && (e !in choices || choices[e] != c) ==>
      r.value == avail[Lodging := LodgingAfterCollege(catalog[College][c])]
  {
    if e != College || (e in choices && choices[e] == c) then Ok(avail)
    else if College !in catalog then Err(NoSuchEvent)
    else if c >= |catalog[College]| then Err(NoSuchOption)
    else Ok(avail[Lodging := LodgingAfterCollege(catalog[College][c])])
  }

  /** What `choices[e] = c` leaves behind: its outcome, the choice map and the availability cache. */
  datatype Chosen = Chosen(status: Result<int>, choices: map<string, int>, available: map<string, seq<bool>>)

  /**
   * `choices[e] = c` through the choice hook: the college rule runs first,
   * then the choice is refused unless the option is offered; only an
   * accepted choice is stored.
   */
  function SetChoiceOf(catalog: Catalog, choices: map<string, int>, avail: map<string, seq<bool>>,
                       e: string, c: int): (r: Chosen)
    requires c >= 0
    ensures var h := CollegeHook(catalog, choices, avail, e, c);
      r.status.Ok? <==> h.Ok? && Offered(catalog, h.value, e, c)
    ensures r.status.Ok? ==> r.status == Ok(c) && r.choices == choices[e := c]
    ensures r.status.Err? ==> r.choices == choices
  {
    match CollegeHook(catalog, choices, avail, e, c)
    case Err(msg) => Chosen(Err(msg), choices, avail)
    case Ok(hooked) =>
      var a := Availability(catalog, hooked, e);
      var cache := CacheAfter(catalog, hooked, e);
      if a.None? then Chosen(Err(NoOptions), choices, cache)
      else if c >= |a.value| then Chosen(Err(NoSuchOption), choices, cache)
      else if !a.value[c] then Chosen(Err(NotAvailable), choices, cache)
      else Chosen(Ok(c), choices[e := c], cache)
  }

  /** Choosing not to go to college closes the first lodging option (the dorm) for the rest of the game. */
  lemma NoCollegeClosesDorm(catalog: Catalog, choices: map<string, int>, avail: map<string, seq<bool>>, c: int)
    requires College in catalog && 0 <= c < |catalog[College]| && catalog[College][c] == NoCollege
    requires College !in choices || choices[College] != c
    ensures var r := SetChoiceOf(catalog, choices, avail, College, c);
      && Lodging in r.available && r.available[Lodging] == [false, true, true]
      && (Lodging in catalog && |catalog[Lodging]| > 0 ==>
            SetChoiceOf(catalog, r.choices, r.available, Lodging, 0).status.Err?)
  {
    var r := SetChoiceOf(catalog, choices, avail, College, c);
    var hooked := avail[Lodging := [false, true, true]];
    assert CollegeHook(catalog, choices, avail, College, c) == Ok(hooked);
    assert r.available == CacheAfter(catalog, hooked, College);
  }

  // ------------------------------------------------------------ RestrictedDict

  const NotInCollection := "Key is not in the collection"

  /** `d[name]`: the stored value, or an error when the key is absent. */
  function Lookup<V>(data: map<string, V>, name: string): (r: Result<V>)
    ensures r.Ok? <==> name in data
    ensures r.Ok? ==> r.value == data[name]
  {
    if name in data then Ok(data[name]) else Err(NotInCollection)
  }

  /** The map after `d[name] = v`: stored unless the set hook refuses it. */
  function Stored<V>(data: map<string, V>, onSet: Option<(map<string, V>, string, V) -> bool>,
                     name: string, v: V): (r: map<string, V>)
    ensures onSet.Some? && !onSet.value(data, name, v) ==> r == data
    ensures onSet.None? || onSet.value(data, name, v) ==>
      Lookup(r, name) == Ok(v) && forall k :: k != name ==> Lookup(r, k) == Lookup(data, k)
  {
    if onSet.Some? && !onSet.value(data, name, v) then data else data[name := v]
  }

  /** The map after `del d[name]`: unchanged for an absent key or when the delete hook refuses. */
  function Removed<V>(data: map<string, V>, onDelete: Option<(map<string, V>, string) -> bool>,
                      name: string): (r: map<string, V>)
    ensures name !in data || (onDelete.Some? && !onDelete.value(data, name)) ==> r == data
    ensures name in data && (onDelete.None? || onDelete.value(data, name)) ==>
      Lookup(r, name).Err? && forall k :: k != name ==> Lookup(r, k) == Lookup(data, k)
  {
    if name !in data || (onDelete.Some? && !onDelete.value(data, name)) then data else data - {name}
  }

  /** A dictionary whose writes and deletes pass through optional hooks. */
  class RestrictedDict<V> {
    var data: map<string, V>
    const onSet: Option<(map<string, V>, string, V) -> bool>
    const onDelete: Option<(map<string, V>, string) -> bool>

    /** Starts from `init`, which bypasses the hooks. */
    constructor (onSet: Option<(map<string, V>, string, V) -> bool>,
                 onDelete: Option<(map<string, V>, string) -> bool>, init: map<string, V>)
      ensures data == init && this.onSet == onSet && this.onDelete == onDelete
    {
      data := init;
      this.onSet := onSet;
      this.onDelete := onDelete;
    }

    /** `name in d`. */
    predicate Contains(name: string)
      reads this
    {
      name in data
    }

    method Get(name: string) returns (r: Result<V>)
      ensures r == Lookup(data, name)
    {
      if name !in data {
        return Err(NotInCollection);
      }
      r := Ok(data[name]);
    }

    method Set(name: string, v: V)
      modifies this
      ensures data == Stored(old(data), onSet, name, v)
    {
      if onSet.Some? {
        if !onSet.value(data, name, v) {
          return;
        }
      }
      data := data[name := v];
    }

    method Delete(name: string)
      modifies this
      ensures data == Removed(old(data), onDelete, name)
    {
      if name !in data {
        return;
      }
      if onDelete.Some? {
        if !onDelete.value(data, name) {
          return;
        }
      }
      data := data - {name};
    }
  }

  // ------------------------------------------------------------ Player

  const NegativeCash := "init_cash should be non-negative"
  const ZeroStartHappiness := "Starting happiness is zero"

  /** The fields of a player that its methods update, taken together as one value. */
  datatype PlayerState = PlayerState(
    summary: Summary,
    bankrupt: bool,
    bankruptPeriod: int,
    choices: map<string, int>,
    available: map<string, seq<bool>>,
    selected: seq<Instrument>,
    table: seq<ScoreRow>)

  /**
   * The state `simulate(pStart, pEnd)` leaves: the run of `SimFrom` over the
   * table and its summary, or nothing at all once bankrupt.
   */
  function Simulated(st: PlayerState, pStart: int, pEnd: int, adj: real, initCash: real,
                     mood: (real, real) -> real): (r: PlayerState)
    requires 0 <= pStart <= pEnd
    requires !st.bankrupt ==> pStart <= |st.table| && AllValid(st.selected)
    ensures r.choices == st.choices && r.available == st.available && r.selected == st.selected
    ensures st.bankrupt ==> r == st
    ensures !st.bankrupt ==> pStart < |r.table| && r.table[..pStart] == st.table[..pStart]
  {
    if st.bankrupt then st
    else
      var s := SimFrom(st.table, pStart, pEnd, Tallies(st.selected, adj), initCash, mood);
      st.(summary := SummaryOf(s.rows, pStart, s.last), bankrupt := s.broke,
          bankruptPeriod := if s.broke then s.last else st.bankruptPeriod, table := s.rows)
  }

  /** The summary a new player starts with. */
  function StartSummary(initCash: real): Summary {
    Summary(0.0, 100.0, initCash, 0.0, 0.0, 0.0, 0.0, 0.0, 0.0, 0.0, 0.0, 0.0)
  }

  /** A player of the game: a human, or the AI when `isSystem`. */
  class Player {
    const name: string
    const isSystem: bool
    const initCash: real
    /** The wealth-and-spending part of the happiness formula. */
    const mood: (real, real) -> real
    /** The game's events and their options, which the choice rules consult. */
    const catalog: Catalog
    const scoreAdjRatio: real

    /** `score`, `happiness`, `equity`, `debt`, `asset`, `net_income`, `income`, `spending` and the debt buckets. */
    var summary: Summary
    var bankrupt: bool
    var bankruptPeriod: int
    var choices: map<string, int>
    var available: map<string, seq<bool>>
    var selected: seq<Instrument>
    var table: seq<ScoreRow>

    /** The updatable fields as one value. */
    function State(): PlayerState
      reads this`summary, this`bankrupt, this`bankruptPeriod, this`choices, this`available, this`selected, this`table
    {
      PlayerState(summary, bankrupt, bankruptPeriod, choices, available, selected, table)
    }

    constructor (name: string, isSystem: bool, initCash: real, mood: (real, real) -> real, catalog: Catalog)
      requires initCash >= 0.0 && mood(initCash, 0.0) != 0.0
      ensures this.name == name && this.isSystem == isSystem && this.initCash == initCash
      ensures this.mood == mood && this.catalog == catalog
      ensures Happiness(mood, initCash, 0.0, scoreAdjRatio) == 100.0
      ensures summary == StartSummary(initCash) && !bankrupt && bankruptPeriod == -1
      ensures choices == map[] && available == map[] && selected == [] && table == []
    {
      this.name := name;
      this.isSystem := isSystem;
      this.initCash := initCash;
      this.mood := mood;
      this.catalog := catalog;
      scoreAdjRatio := AdjRatio(mood, initCash);
      summary := StartSummary(initCash);
      bankrupt := false;
      bankruptPeriod := -1;
      choices := map[];
      available := map[];
      selected := [];
      table := [];
    }

    /** A deep copy, as the AI search takes before trying a combination of choices. */
    constructor Copy(other: Player)
      ensures name == other.name && isSystem == other.isSystem && initCash == other.initCash
      ensures mood == other.mood && catalog == other.catalog && scoreAdjRatio == other.scoreAdjRatio
      ensures summary == other.summary && bankrupt == other.bankrupt && bankruptPeriod == other.bankruptPeriod
      ensures choices == other.choices && available == other.available
      ensures selected == other.selected && table == other.table
    {
      name := other.name;
      isSystem := other.isSystem;
      initCash := other.initCash;
      mood := other.mood;
      catalog := other.catalog;
      scoreAdjRatio := other.scoreAdjRatio;
      summary := other.summary;
      bankrupt := other.bankrupt;
      bankruptPeriod := other.bankruptPeriod;
      choices := other.choices;
      available := other.available;
      selected := other.selected;
      table := other.table;
    }

    /** The availability of the options of event `e`, caching it on first query. */
    method GetOptionAvailability(e: string) returns (r: Option<seq<bool>>)
      modifies this`available
      ensures r == Availability(catalog, old(available), e)
      ensures available == CacheAfter(catalog, old(available), e)
      ensures choices == old(choices) && selected == old(selected) && table == old(table)
      ensures summary == old(summary) && bankrupt == old(bankrupt) && bankruptPeriod == old(bankruptPeriod)
    {
      if e !in catalog || |catalog[e]| == 0 {
        return None;
      }
      if e !in available {
        available := available[e := AllAvailable(|catalog[e]|)];
      }
      r := Some(available[e]);
    }

    /** `choices[e] = c`: the choice hook runs, and the choice is stored only if the option is offered. */
    method SetChoice(e: string, c: int) returns (r: Result<int>)
      requires c >= 0
      modifies this
      ensures var out := SetChoiceOf(catalog, old(choices), old(available), e, c);
        r == out.status && choices == out.choices && available == out.available
      ensures selected == old(selected) && table == old(table)
      ensures summary == old(summary) && bankrupt == old(bankrupt) && bankruptPeriod == old(bankruptPeriod)
    {
      if e !in choices || choices[e] != c {
        if e == College {
          if College !in catalog {
            return Err(NoSuchEvent);
          }
          if c >= |catalog[College]| {
            return Err(NoSuchOption);
          }
          available := available[Lodging := LodgingAfterCollege(catalog[College][c])];
        }
      }
      var a := GetOptionAvailability(e);
      if a.None? {
        return Err(NoOptions);
      }
      if c >= |a.value| {
        return Err(NoSuchOption);
      }
      if !a.value[c] {
        return Err(NotAvailable);
      }
      choices := choices[e := c];
      r := Ok(c);
    }

    /**
     * `__update_score_table(p)`: totals the instruments active at `p`, then
     * writes row `p` and the bankruptcy flag; nothing once bankrupt.
     */
    method UpdateScoreTable(p: int)
      requires 0 <= p <= |table| && AllValid(selected)
      modifies this
      ensures choices == old(choices) && available == old(available) && selected == old(selected)
      ensures summary == old(summary)
      ensures old(bankrupt) ==> table == old(table) && bankrupt && bankruptPeriod == old(bankruptPeriod)
      ensures !old(bankrupt) ==>
        var t := TallyOf(old(selected), p, scoreAdjRatio);
        && table == Put(old(table), p, NewRow(old(table)[..p], t, initCash, mood))
        && bankrupt == Broke(table[p], t.annualSalary)
        && bankruptPeriod == (if bankrupt then p else old(bankruptPeriod))
    {
      if bankrupt {
        return;
      }
      var t := GatherTally(selected, p, scoreAdjRatio);
      WriteRow(p, t);
    }

    /** Writes row `p` from the period's totals `t`, and the bankruptcy flag. */
    method WriteRow(p: int, t: Tally)
      requires 0 <= p <= |table|
      modifies this
      ensures choices == old(choices) && available == old(available) && selected == old(selected)
      ensures summary == old(summary)
      ensures table == Put(old(table), p, NewRow(old(table)[..p], t, initCash, mood))
      ensures bankrupt == Broke(table[p], t.annualSalary)
      ensures bankruptPeriod == (if bankrupt then p else old(bankruptPeriod))
    {
      var net := t.income - t.spending;
      var mth, wealth;
      if p == 0 {
        mth := t.hpnsSpending;
        wealth := net - t.debt + t.asset + initCash;
      } else {
        mth := ColSum(table[MonthStart(p)..p], SpdOnHapnsCol) + t.hpnsSpending;
        wealth := table[p - 1].wealth + net - (t.debt - table[p - 1].debt) + (t.asset - table[p - 1].asset);
      }
      var h := Happiness(mood, wealth, mth, t.adj);
      var score := (ColSum(table[..p], HappinessCol) + h) / (p + 1) as real;
      var row := ScoreRow(t.income, t.spending, net, t.debt, t.asset, t.hpnsSpending, mth, wealth, h, score,
                          t.debtStd, t.debtMort, t.debtCar, t.debtOther, DebtRatio(wealth, t.debt, t.debtStd));
      assert table[..p][MonthStart(p)..] == table[MonthStart(p)..p];
      assert row == NewRow(table[..p], t, initCash, mood);
      if p == |table| {
        table := table + [row];
      } else {
        table := table[p := row];
      }
      bankrupt := wealth + t.debtStd < -2.0 * t.annualSalary;
      if bankrupt {
        bankruptPeriod := p;
      }
    }

    /**
     * `simulate(pStart, pEnd)`: writes the periods in turn until one goes
     * bankrupt, then sets the summary of the periods written; nothing once
     * bankrupt.
     */
    method Simulate(pStart: int, pEnd: int)
      requires 0 <= pStart <= pEnd && (!bankrupt ==> pStart <= |table| && AllValid(selected))
      modifies this
      ensures State() == Simulated(old(State()), pStart, pEnd, scoreAdjRatio, initCash, mood)
      ensures choices == old(choices) && available == old(available) && selected == old(selected)
      ensures old(bankrupt) ==> table == old(table) && summary == old(summary) && bankrupt
      ensures old(bankrupt) ==> bankruptPeriod == old(bankruptPeriod)
      ensures !old(bankrupt) ==>
        var s := SimFrom(old(table), pStart, pEnd, Tallies(old(selected), scoreAdjRatio), initCash, mood);
        && table == s.rows && bankrupt == s.broke
        && bankruptPeriod == (if s.broke then s.last else old(bankruptPeriod))
        && summary == SummaryOf(s.rows, pStart, s.last)
    {
      if bankrupt {
        return;
      }
      var last := RunPeriods(pStart, pEnd);
      SetSummary(pStart, last);
    }

    /** The loop of `simulate`: writes periods `pStart..pEnd` in turn, stopping at the first bankrupt one. */
    method RunPeriods(pStart: int, pEnd: int) returns (last: int)
      requires 0 <= pStart <= pEnd && pStart <= |table| && AllValid(selected) && !bankrupt
      modifies this
      ensures choices == old(choices) && available == old(available) && selected == old(selected)
      ensures summary == old(summary)
      ensures var s := SimFrom(old(table), pStart, pEnd, Tallies(old(selected), scoreAdjRatio), initCash, mood);
        && table == s.rows && bankrupt == s.broke && last == s.last
        && bankruptPeriod == (if s.broke then s.last else old(bankruptPeriod))
    {
      ghost var s := SimFrom(table, pStart, pEnd, Tallies(selected, scoreAdjRatio), initCash, mood);
      last := pEnd;
      var p := pStart;
      while p <= pEnd
        invariant pStart <= p <= pEnd + 1 && p <= |table|
        invariant !bankrupt && bankruptPeriod == old(bankruptPeriod) && summary == old(summary)
        invariant choices == old(choices) && available == old(available) && selected == old(selected)
        invariant SimFrom(table, p, pEnd, Tallies(selected, scoreAdjRatio), initCash, mood) == s
        decreases pEnd + 1 - p
      {
        StepPeriod(p, pEnd, s);
        if bankrupt {
          last := p;
          break;
        }
        p := p + 1;
      }
    }

    /** One pass of the loop of `simulate`, tracked against the run it belongs to. */
    method StepPeriod(p: int, pEnd: int, ghost s: SimEnd)
      requires 0 <= p <= pEnd && p <= |table| && AllValid(selected) && !bankrupt
      requires SimFrom(table, p, pEnd, Tallies(selected, scoreAdjRatio), initCash, mood) == s
      modifies this
      ensures choices == old(choices) && available == old(available) && selected == old(selected)
      ensures summary == old(summary) && p < |table|
      ensures bankrupt ==> s == SimEnd(table, p, true) && bankruptPeriod == p
      ensures !bankrupt ==> SimFrom(table, p + 1, pEnd, Tallies(selected, scoreAdjRatio), initCash, mood) == s
      ensures !bankrupt ==> bankruptPeriod == old(bankruptPeriod)
    {
      SimStep(table, p, pEnd, Tallies(selected, scoreAdjRatio), initCash, mood);
      UpdateScoreTable(p);
    }

    /** The summary of periods `a..b` of the table, as `simulate` sets it at the end of a run. */
    method SetSummary(a: int, b: int)
      requires 0 <= a <= b < |table|
      modifies this
      ensures table == old(table) && bankrupt == old(bankrupt) && bankruptPeriod == old(bankruptPeriod)
      ensures choices == old(choices) && available == old(available) && selected == old(selected)
      ensures summary == SummaryOf(table, a, b)
    {
      var row := table[b];
      summary := Summary(row.score, row.happiness, row.wealth, row.debt, row.asset,
                         PerMonth(table, a, b, NetIncomeCol),
                         PerMonth(table, a, b, IncomeCol),
                         PerMonth(table, a, b, SpendingCol),
                         row.debtStd, row.debtMort, row.debtCar, row.debtOther);
    }
  }

  /** `Player(...)`: refuses a negative initial cash, and a start whose happiness would divide by zero. */
  method NewPlayer(name: string, isSystem: bool, initCash: real, mood: (real, real) -> real, catalog: Catalog)
    returns (r: Result<Player>)
    ensures r.Ok? <==> initCash >= 0.0 && mood(initCash, 0.0) != 0.0
    ensures r.Ok? ==> fresh(r.value) && r.value.initCash == initCash && r.value.name == name
    ensures r.Ok? ==> Happiness(mood, initCash, 0.0, r.value.scoreAdjRatio) == 100.0
    ensures r.Ok? ==> r.value.table == [] && !r.value.bankrupt && r.value.choices == map[]
    ensures r.Err? ==> r.msg == if initCash < 0.0 then NegativeCash else ZeroStartHappiness
  {
    if initCash < 0.0 {
      return Err(NegativeCash);
    }
    if mood(initCash, 0.0) == 0.0 {
      return Err(ZeroStartHappiness);
    }
    var x := new Player(name, isSystem, initCash, mood, catalog);
    r := Ok(x);
  }
}
