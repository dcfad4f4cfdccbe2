/**
 * Instrument definitions and the fields every instrument shares
 * (backend/othrbkendobj.py): the definition record an event carries, the
 * common base built from it, and the happiness adjustment ratio.
 */
module Instruments {
  import opened Wrappers
  import opened Shared

  /** Recurring contribution settings of an asset. */
  datatype Recurring = Recurring(nPeriods: int, endPeriod: int)

  /**
   * An instrument definition (`backend_def`). Keys the source reads only
   * when present are `Option`s; every other key a constructor reads is a field.
   */
  datatype BackendDef = BackendDef(
    kind: string,
    amt: real,
    title: string,
    startPeriod: int,
    happinessSpending: Option<bool>,
    category: string,
    payFreq: int,
    term: int,
    termUnit: string,
    amtQuoteTerm: string,
    annualRate: real,
    valueCap: Option<real>,
    recurring: Option<Recurring>,
    rateFreq: int,
    rateFreqUnit: string)

  /** The fields `BackendObjectBase` sets. */
  datatype Base = Base(
    kind: string,
    amount: real,
    title: string,
    startPeriod: int,
    isHappinessSpending: bool,
    category: string,
    payFreq: int,
    term: int,
    termUnit: string,
    nPeriods: int,
    nPayments: real)

  /** The definition can be turned into a base: a known term unit and a non-zero payment frequency. */
  predicate BaseDefOk(d: BackendDef) {
    KnownTermUnit(d.termUnit) && d.payFreq != 0
  }

  /** `BackendObjectBase.__init__`. */
  function NewBase(d: BackendDef): (r: Result<Base>)
    ensures r.Ok? <==> BaseDefOk(d)
    ensures r.Ok? ==>
      && r.value.kind == d.kind && r.value.amount == d.amt && r.value.title == d.title
      && r.value.startPeriod == d.startPeriod && r.value.category == d.category
      && r.value.payFreq == d.payFreq && r.value.term == d.term && r.value.termUnit == d.termUnit
    ensures r.Ok? ==> (r.value.isHappinessSpending <==> d.happinessSpending == Some(true))
    ensures r.Ok? ==> Ok(r.value.nPeriods) == TermToPeriod(d.term, d.termUnit)
    ensures r.Ok? ==> r.value.nPayments * d.payFreq as real == r.value.nPeriods as real
  {
    var n :- TermToPeriod(d.term, d.termUnit);
    if d.payFreq == 0 then Err("division by zero")
    else
      var spending := if d.happinessSpending.Some? then d.happinessSpending.value else false;
      Ok(Base(d.kind, d.amt, d.title, d.startPeriod, spending, d.category,
              d.payFreq, d.term, d.termUnit, n, n as real / d.payFreq as real))
  }

  /** A happiness adjustment ratio: it has no schedule, only a factor. */
  datatype Har = Har(base: Base, adjRate: real)

  /** `HappinessAdjustmentRatio.__init__`. */
  function NewHar(d: BackendDef): (r: Result<Har>)
    ensures r.Ok? <==> d.kind == "har" && BaseDefOk(d)
    ensures r.Ok? ==> Ok(r.value.base) == NewBase(d) && r.value.adjRate == d.amt
  {
    if d.kind != "har" then Err("backend_def.type must be \"har\"")
    else
      var b :- NewBase(d);
      Ok(Har(b, b.amount))
  }
}
