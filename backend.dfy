/**
 * The backend objects a player holds (backend/__init__.py re-exports the
 * five classes; backend/gameitems.py:143 maps a definition's `type` to its
 * class): one value type over loans, salaries, assets, expenses and
 * happiness adjustment ratios, with the fields the player's score table
 * reads.
 */
module Backend {
  import opened Wrappers
  import opened Shared
  import opened Instruments
  import opened Loans
  import opened Income
  import opened Expenses

  /** The object proper, by class. */
  datatype Body =
    | LoanBody(loan: Loan)
    | SalaryBody(salary: Salary)
    | AssetBody(asset: Asset)
    | ExpenseBody(expense: Expense)
    | HarBody(har: Har)

  /**
   * A backend object. `start_period` is kept apart from the body because the
   * game rebinds it on a copy (backend/prosperville.py:299-302) without
   * recomputing the schedule; the body keeps the value it was built with.
   */
  datatype Instrument = Instrument(startPeriod: int, body: Body) {

    function BaseFields(): Base {
      match body
      case LoanBody(l) => l.terms.base
      case SalaryBody(s) => s.base
      case AssetBody(a) => a.terms.base
      case ExpenseBody(e) => e.terms.base
      case HarBody(h) => h.base
    }

    /** `type`. */
    function Kind(): string {
      BaseFields().kind
    }

    function NPeriods(): int {
      BaseFields().nPeriods
    }

    function Amount(): real {
      BaseFields().amount
    }

    function Category(): string {
      BaseFields().category
    }

    predicate IsHappinessSpending() {
      BaseFields().isHappinessSpending
    }

    /** The object is what its constructor built, up to the start period. */
    predicate Valid() {
      match body
      case LoanBody(l) => l.Valid() && l.terms.base.kind == "loan"
      case SalaryBody(s) => s.Valid() && s.base.kind == "salary"
      case AssetBody(a) => a.Valid() && a.terms.base.kind == "asset"
      case ExpenseBody(e) => e.Valid() && e.terms.base.kind == "expense"
      case HarBody(h) => h.base.kind == "har"
    }

    /** Rows of the schedule (a happiness adjustment ratio has none). */
    function Rows(): nat {
      match body
      case LoanBody(l) => |l.schedule|
      case SalaryBody(s) => |s.schedule|
      case AssetBody(a) => |a.schedule|
      case ExpenseBody(e) => |e.schedule|
      case HarBody(_) => 0
    }

    /** `schedule['pay'][k]`. */
    function Pay(k: nat): real
      requires k < Rows()
    {
      match body
      case LoanBody(l) => l.schedule[k].pay
      case SalaryBody(s) => s.schedule[k]
      case AssetBody(a) => a.schedule[k].pay
      case ExpenseBody(e) => e.schedule[k]
    }

    /** `schedule['bal_end'][k]` of a loan. */
    function BalEnd(k: nat): real
      requires body.LoanBody? && k < Rows()
    {
      body.loan.schedule[k].balEnd
    }

    /** `schedule['value_end'][k]` of an asset. */
    function ValueEnd(k: nat): real
      requires body.AssetBody? && k < Rows()
    {
      body.asset.schedule[k].valueEnd
    }

    /** The same object with `start_period` rebound; the schedule is not recomputed. */
    function WithStart(p: int): (r: Instrument)
      ensures r.startPeriod == p && r.body == body
    {
      Instrument(p, body)
    }
  }

  /** Every object other than a happiness adjustment ratio has one schedule row per period of its term. */
  lemma RowsCoverTerm(x: Instrument)
    requires x.Valid() && !x.body.HarBody?
    ensures x.Rows() == RowCount(x.NPeriods())
    ensures x.Kind() != "har"
  {
  }

  /** The kind names the variant, so the score table's dispatch on `type` picks the right fields. */
  lemma KindNamesBody(x: Instrument)
    requires x.Valid()
    ensures x.Kind() == "loan" <==> x.body.LoanBody?
    ensures x.Kind() == "salary" <==> x.body.SalaryBody?
    ensures x.Kind() == "asset" <==> x.body.AssetBody?
    ensures x.Kind() == "expense" <==> x.body.ExpenseBody?
    ensures x.Kind() == "har" <==> x.body.HarBody?
  {
  }

  /** The definitions the model can construct: a loan that charges interest pays in whole payments. */
  predicate Constructible(d: BackendDef) {
    d.kind == "loan" ==> LoanDefSupported(d)
  }

  /**
   * `bked_obj_map[crntDef['type']](crntDef)`: the class named by `type`
   * builds the object; an unknown type is a KeyError. What it builds is
   * stated by `InstrumentFromDefBuilds`.
   */
  function InstrumentFromDef(d: BackendDef): Result<Instrument>
    requires Constructible(d)
  {
    match d.kind
    case "loan" =>
      var l :- LoanFromDef(d);
      Ok(Instrument(l.terms.base.startPeriod, LoanBody(l)))
    case "salary" =>
      var s :- SalaryFromDef(d);
      Ok(Instrument(s.base.startPeriod, SalaryBody(s)))
    case "asset" =>
      var a :- AssetFromDef(d);
      Ok(Instrument(a.terms.base.startPeriod, AssetBody(a)))
    case "expense" =>
      var e :- ExpenseFromDef(d);
      Ok(Instrument(e.terms.base.startPeriod, ExpenseBody(e)))
    case "har" =>
      var h :- NewHar(d);
      Ok(Instrument(h.base.startPeriod, HarBody(h)))
    case _ => Err("KeyError: unknown backend object type")
  }

  /**
   * The class named by `type` decides: the object exists exactly when that
   * class's constructor succeeds, it is well formed, keeps the definition's
   * kind, start and base fields; any other type fails.
   */
  lemma InstrumentFromDefBuilds(d: BackendDef)
    requires Constructible(d)
    ensures d.kind == "loan" ==> (InstrumentFromDef(d).Ok? <==> LoanFromDef(d).Ok?)
    ensures d.kind == "salary" ==> (InstrumentFromDef(d).Ok? <==> SalaryFromDef(d).Ok?)
    ensures d.kind == "asset" ==> (InstrumentFromDef(d).Ok? <==> AssetFromDef(d).Ok?)
    ensures d.kind == "expense" ==> (InstrumentFromDef(d).Ok? <==> ExpenseFromDef(d).Ok?)
    ensures d.kind == "har" ==> (InstrumentFromDef(d).Ok? <==> NewHar(d).Ok?)
    ensures d.kind !in {"loan", "salary", "asset", "expense", "har"} ==> InstrumentFromDef(d).Err?
    ensures InstrumentFromDef(d).Ok? ==>
      var x := InstrumentFromDef(d).value;
      && x.Valid() && x.Kind() == d.kind && x.startPeriod == d.startPeriod
      && Ok(x.BaseFields()) == NewBase(d)
  {
  }
}
