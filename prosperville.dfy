/**
 * The game engine (backend/prosperville.py): the step and player counters
 * that `next` and `back` move, the scoring of the human players at the end
 * of a turn, their ranking, the attachment of backend objects to a player,
 * and the AI's brute-force search over the choices of a turn.
 */
module Prosperville {
  import opened Wrappers
  import opened Instruments
  import opened Income
  import opened Backend
  import opened GameItems
  import opened Players

  // ------------------------------------------------------ Attaching objects

  /** `gamedef.pvBkEndObj_by_name`: the backend objects of an option or event, by name. */
  type Objects = map<string, seq<Instrument>>

  const FirstJob := "stg2_firstjob"
  const PublicInState := "stg1_college_public_in_state"
  const PublicOutState := "stg1_college_public_out_state"
  const IvyLeague := "stg1_college_ivy_league"
  const FirstHouseRent := "stg2_firsthouse_rent"
  const HouseSmall := "stg3_house_small"
  const HouseMid := "stg3_house_mid"
  const HouseBig := "stg3_house_big"

  predicate ObjectsValid(objs: Objects) {
    forall name :: name in objs ==> AllValid(objs[name])
  }

  /** The name of the option a stored choice picks, when it names one. */
  function ChosenOption(catalog: Catalog, choices: map<string, int>, e: string): (r: Option<string>)
    ensures r.Some? <==> e in choices && e in catalog && 0 <= choices[e] < |catalog[e]|
    ensures r.Some? ==> r.value == catalog[e][choices[e]]
  {
    if e in choices && e in catalog && 0 <= choices[e] < |catalog[e]| then Some(catalog[e][choices[e]]) else None
  }

  /**
   * The objects event `e` contributes: those of the chosen option when the
   * player chose one (none when the option has no object), otherwise the
   * event's own, otherwise none.
   */
  function ObjectsFor(catalog: Catalog, objs: Objects, choices: map<string, int>, e: string): (r: seq<Instrument>)
    ensures ObjectsValid(objs) ==> AllValid(r)
  {
    if e in choices then
      match ChosenOption(catalog, choices, e)
      case Some(o) => if o in objs then objs[o] else []
      case None => []
    else if e in objs then objs[e]
    else []
  }

  /** The first-job raise a college choice earns: 10% for a public school, 15% for the ivy league. */
  function CollegeRaise(catalog: Catalog, choices: map<string, int>): (r: Option<real>)
    ensures r.Some? ==> r.value == 1.1 || r.value == 1.15
  {
    match ChosenOption(catalog, choices, College)
    case Some(o) =>
      if o == PublicInState || o == PublicOutState then Some(1.1)
      else if o == IvyLeague then Some(1.15)
      else None
    case None => None
  }

  /**
   * The rental-income skip as the source writes it: it looks the names of
   * options up among the choice keys, which are names of events.
   */
  predicate RentalSkip(choices: map<string, int>, x: Instrument) {
    && FirstHouseRent in choices
    && (HouseSmall in choices || HouseMid in choices || HouseBig in choices)
    && x.Kind() == "salary"
  }

  /** A salary with its amount scaled; the pay column is kept, as `BoostSalary` computes it. */
  function Boosted(x: Instrument, f: real): (r: Instrument)
    requires x.body.SalaryBody?
    ensures r.startPeriod == x.startPeriod && r.body.SalaryBody?
  {
    var s := x.body.salary;
    Instrument(x.startPeriod, SalaryBody(Salary(s.base.(amount := s.base.amount * f), s.payCheck, s.schedule)))
  }

  /** Scaling the amount leaves a salary valid: its schedule reads only the pay check. */
  lemma SalaryScaledValid(s: Salary, b: Base)
    requires s.Valid() && s.base.kind == "salary"
    requires b == s.base.(amount := b.amount)
    ensures Salary(b, s.payCheck, s.schedule).Valid()
  {
  }

  /**
   * One object as the player receives it: the start period bound to `pf`
   * when unset, the first-job salary raised for a college degree, and
   * nothing when the rental skip drops it.
   */
  function Prepared(catalog: Catalog, choices: map<string, int>, e: string, x: Instrument, pf: int): (r: Option<Instrument>)
    requires x.Valid()
    ensures r.Some? ==> r.value.Valid()
  {
    var y := if x.startPeriod == -1 then x.WithStart(pf) else x;
    var raise := CollegeRaise(catalog, choices);
    var z :=
      if e == FirstJob && y.Kind() == "salary" && raise.Some? then
        var s := y.body.salary;
        SalaryScaledValid(s, s.base.(amount := s.base.amount * raise.value));
        Boosted(y, raise.value)
      else y;
    if RentalSkip(choices, z) then None else Some(z)
  }

  /** The objects of list `xs` the player receives, in order. */
  function PreparedAll(catalog: Catalog, choices: map<string, int>, e: string, xs: seq<Instrument>, pf: int): (r: seq<Instrument>)
    requires AllValid(xs)
    ensures AllValid(r) && |r| <= |xs|
  {
    if xs == [] then []
    else
      var rest := PreparedAll(catalog, choices, e, xs[..|xs| - 1], pf);
      match Prepared(catalog, choices, e, xs[|xs| - 1], pf)
      case Some(y) => rest + [y]
      case None => rest
  }

  /** The objects the events `names` add to a player with `choices`, in order; all of them valid. */
  function Attached(catalog: Catalog, objs: Objects, choices: map<string, int>, names: seq<string>, pf: int): (r: seq<Instrument>)
    requires ObjectsValid(objs)
    ensures AllValid(r)
  {
    if names == [] then []
    else
      var e := names[|names| - 1];
      Attached(catalog, objs, choices, names[..|names| - 1], pf) + PreparedAll(catalog, choices, e, ObjectsFor(catalog, objs, choices, e), pf)
  }

  /** A player state after the attachment: the objects appended, nothing else touched. */
  function AttachTo(st: PlayerState, catalog: Catalog, objs: Objects, names: seq<string>, pf: int): PlayerState
    requires ObjectsValid(objs)
  {
    st.(selected := st.selected + Attached(catalog, objs, st.choices, names, pf))
  }

  /**
   * What becomes of one object: a copy with the start period bound, the
   * kind and the schedule length kept, and the amount raised only for the
   * first job's salary after a public or ivy-league college; dropped exactly
   * when the rental skip fires.
   */
  lemma PreparedShape(catalog: Catalog, choices: map<string, int>, e: string, x: Instrument, pf: int)
    requires x.Valid()
    ensures Prepared(catalog, choices, e, x, pf).None? <==> RentalSkip(choices, x)
    ensures Prepared(catalog, choices, e, x, pf).Some? ==>
      var y := Prepared(catalog, choices, e, x, pf).value;
      && y.Kind() == x.Kind() && y.Rows() == x.Rows()
      && y.startPeriod == (if x.startPeriod == -1 then pf else x.startPeriod)
      && (y.Amount() == x.Amount() || (e == FirstJob && x.Kind() == "salary" && CollegeRaise(catalog, choices).Some?
                                       && y.Amount() == x.Amount() * CollegeRaise(catalog, choices).value))
  {
    var y := if x.startPeriod == -1 then x.WithStart(pf) else x;
    assert y.Kind() == x.Kind() && y.body == x.body;
  }

  /**
   * The rental skip never fires: the choice keys are events of the catalog,
   * and `stg2_firsthouse_rent` is not one.
   */
  lemma RentalSkipNeverFires(catalog: Catalog, objs: Objects, choices: map<string, int>, names: seq<string>, pf: int)
    requires ObjectsValid(objs)
    requires choices.Keys <= catalog.Keys && FirstHouseRent !in catalog
    ensures forall e: string, x: Instrument :: x.Valid() ==> Prepared(catalog, choices, e, x, pf).Some?
  {
  }

  // ---------------------------------------------- Enumerating combinations

  /** The number of combinations of options, one per event. */
  function Product(sizes: seq<nat>): nat {
    if sizes == [] then 1 else Product(sizes[..|sizes| - 1]) * sizes[|sizes| - 1]
  }

  predicate Positive(sizes: seq<nat>) {
    forall i :: 0 <= i < |sizes| ==> sizes[i] > 0
  }

  /** The `k`-th combination of `product(*options)`: mixed-radix digits, the last event's varying fastest. */
  function Combo(sizes: seq<nat>, k: nat): (d: seq<nat>)
    requires Positive(sizes)
    ensures |d| == |sizes|
  {
    if sizes == [] then []
    else
      var m := sizes[|sizes| - 1];
      Combo(sizes[..|sizes| - 1], k / m) + [k % m]
  }

  /** The position of the combination `d` in that enumeration. */
  function Index(sizes: seq<nat>, d: seq<nat>): nat
    requires |d| == |sizes|
  {
    if sizes == [] then 0
    else Index(sizes[..|sizes| - 1], d[..|d| - 1]) * sizes[|sizes| - 1] + d[|d| - 1]
  }

  predicate InRange(sizes: seq<nat>, d: seq<nat>) {
    |d| == |sizes| && forall i :: 0 <= i < |d| ==> d[i] < sizes[i]
  }

  /** `a` comes before `b` in lexicographic order. */
  predicate LexLess(a: seq<nat>, b: seq<nat>) {
    |a| == |b| && exists i :: 0 <= i < |a| && a[..i] == b[..i] && a[i] < b[i]
  }

  lemma DivBelow(k: nat, m: nat, p: nat)
    requires m > 0 && k < p * m
    ensures k / m < p
  {
    if k / m >= p {
      assert (k / m) * m >= p * m by { MulLe(p, k / m, m); }
    }
  }

  lemma MulLe(a: nat, b: nat, m: nat)
    requires a <= b
    ensures a * m <= b * m
  {
  }

  /** Digit `x` appended to the position `q` of the prefix, in mixed radix `m`. */
  lemma Encode(q: nat, p: nat, m: nat, x: nat)
    requires q < p && x < m
    ensures q * m + x < p * m
    ensures (q * m + x) / m == q && (q * m + x) % m == x
  {
    MulLe(q + 1, p, m);
    var n := q * m + x;
    var q2, x2 := n / m, n % m;
    assert q2 * m + x2 == q * m + x;
    if q2 > q {
      MulLe(q + 1, q2, m);
    } else if q2 < q {
      MulLe(q2 + 1, q, m);
    }
  }

  /** Positions compare as their prefixes do, or as their last digits when the prefixes agree. */
  lemma DivSplit(k1: nat, k2: nat, m: nat)
    requires m > 0 && k1 < k2
    ensures k1 / m < k2 / m || (k1 / m == k2 / m && k1 % m < k2 % m)
  {
    if k1 / m > k2 / m {
      MulLe(k2 / m + 1, k1 / m, m);
    }
  }

  /** Every position below the product decodes to a combination within range. */
  lemma {:induction false} ComboInRange(sizes: seq<nat>, k: nat)
    requires Positive(sizes) && k < Product(sizes)
    ensures InRange(sizes, Combo(sizes, k))
    decreases |sizes|
  {
    if sizes != [] {
      var pre, m := sizes[..|sizes| - 1], sizes[|sizes| - 1];
      DivBelow(k, m, Product(pre));
      ComboInRange(pre, k / m);
    }
  }

  /** Decoding then encoding is the identity: each position is visited once. */
  lemma {:induction false} IndexOfCombo(sizes: seq<nat>, k: nat)
    requires Positive(sizes)
    requires k < Product(sizes)
    ensures Index(sizes, Combo(sizes, k)) == k
    decreases |sizes|
  {
    if sizes != [] {
      var pre, m := sizes[..|sizes| - 1], sizes[|sizes| - 1];
      var d := Combo(sizes, k);
      assert d[..|d| - 1] == Combo(pre, k / m);
      DivBelow(k, m, Product(pre));
      IndexOfCombo(pre, k / m);
    }
  }

  /** Encoding then decoding is the identity: every combination within range is enumerated. */
  lemma {:induction false} ComboOfIndex(sizes: seq<nat>, d: seq<nat>)
    requires Positive(sizes) && InRange(sizes, d)
    ensures Index(sizes, d) < Product(sizes) && Combo(sizes, Index(sizes, d)) == d
    decreases |sizes|
  {
    if sizes != [] {
      var pre, m := sizes[..|sizes| - 1], sizes[|sizes| - 1];
      var dp, x := d[..|d| - 1], d[|d| - 1];
      assert InRange(pre, dp);
      ComboOfIndex(pre, dp);
      var q := Index(pre, dp);
      assert Index(sizes, d) == q * m + x;
      Encode(q, Product(pre), m, x);
      assert Combo(sizes, q * m + x) == Combo(pre, q) + [x];
      assert d == dp + [x];
    }
  }

  lemma LexLast(a: seq<nat>, x: nat, y: nat)
    requires x < y
    ensures LexLess(a + [x], a + [y])
  {
    assert (a + [x])[..|a|] == (a + [y])[..|a|];
  }

  lemma LexExtend(a: seq<nat>, b: seq<nat>, x: nat, y: nat)
    requires LexLess(a, b)
    ensures LexLess(a + [x], b + [y])
  {
    var i :| 0 <= i < |a| && a[..i] == b[..i] && a[i] < b[i];
    assert (a + [x])[..i] == a[..i] && (b + [y])[..i] == b[..i];
  }

  /** The enumeration runs in lexicographic order, so an earlier position is an earlier combination. */
  lemma {:induction false} ComboOrdered(sizes: seq<nat>, k1: nat, k2: nat)
    requires Positive(sizes) && k1 < k2 < Product(sizes)
    ensures LexLess(Combo(sizes, k1), Combo(sizes, k2))
    decreases |sizes|
  {
    var pre, m := sizes[..|sizes| - 1], sizes[|sizes| - 1];
    var q1, q2 := k1 / m, k2 / m;
    DivSplit(k1, k2, m);
    if q1 == q2 {
      LexLast(Combo(pre, q1), k1 % m, k2 % m);
    } else {
      DivBelow(k2, m, Product(pre));
      ComboOrdered(pre, q1, q2);
      LexExtend(Combo(pre, q1), Combo(pre, q2), k1 % m, k2 % m);
    }
  }

  // ------------------------------------------------------- The best choice

  /** What one combination of choices gives the AI: nothing when a choice is refused, else the end-of-stage score. */
  datatype Outcome = Infeasible | Scored(broke: bool, score: real)

  /** The score the search starts from; a combination must beat it to be kept. */
  const NoScore: real := -99999.0

  /** The best score of a bucket so far and where it was found. */
  datatype Pick = Pick(score: real, at: Option<nat>)

  predicate InSlot(o: Outcome, broke: bool) {
    o.Scored? && o.broke == broke
  }

  /** The search's bucket for `broke`: a combination replaces the best only with a strictly greater score. */
  function BestIn(outs: seq<Outcome>, broke: bool): Pick {
    if outs == [] then Pick(NoScore, None)
    else
      var b := BestIn(outs[..|outs| - 1], broke);
      var o := outs[|outs| - 1];
      if InSlot(o, broke) && b.score < o.score then Pick(o.score, Some(|outs| - 1)) else b
  }

  /** One more outcome replaces the bucket's best only when it is in the bucket and scores strictly higher. */
  lemma BestInStep(outs: seq<Outcome>, out: Outcome, broke: bool)
    ensures var b := BestIn(outs, broke);
      BestIn(outs + [out], broke) == if InSlot(out, broke) && b.score < out.score then Pick(out.score, Some(|outs|)) else b
  {
    assert (outs + [out])[..|outs|] == outs;
  }

  /** The combination the AI keeps: the best solvent one, else the best bankrupt one. */
  function ChoiceOf(outs: seq<Outcome>): Option<nat> {
    if BestIn(outs, false).at.Some? then BestIn(outs, false).at else BestIn(outs, true).at
  }

  /**
   * A bucket holds the earliest of its highest-scoring combinations, provided
   * it beats the starting score, and holds nothing exactly when no
   * combination of the bucket does.
   */
  lemma {:induction false} BestInIsEarliestMax(outs: seq<Outcome>, broke: bool)
    ensures var b := BestIn(outs, broke);
      && (b.at.None? <==> forall j :: 0 <= j < |outs| && InSlot(outs[j], broke) ==> outs[j].score <= NoScore)
      && (b.at.None? ==> b.score == NoScore)
      && (b.at.Some? ==>
            && b.at.value < |outs| && outs[b.at.value] == Scored(broke, b.score) && NoScore < b.score
            && (forall j :: 0 <= j < |outs| && InSlot(outs[j], broke) ==> outs[j].score <= b.score)
            && (forall j :: 0 <= j < b.at.value && InSlot(outs[j], broke) ==> outs[j].score < b.score))
    decreases |outs|
  {
    if outs != [] {
      var pre := outs[..|outs| - 1];
      BestInIsEarliestMax(pre, broke);
      assert forall j :: 0 <= j < |pre| ==> outs[j] == pre[j];
    }
  }

  /**
   * The AI keeps a bankrupt combination only when no solvent one beats the
   * starting score, and keeps none only when no combination does.
   */
  lemma ChoicePrefersSolvent(outs: seq<Outcome>)
    ensures ChoiceOf(outs).None? <==> forall j :: 0 <= j < |outs| && outs[j].Scored? ==> outs[j].score <= NoScore
    ensures ChoiceOf(outs).Some? ==> ChoiceOf(outs).value < |outs| && outs[ChoiceOf(outs).value].Scored?
    ensures ChoiceOf(outs).Some? && outs[ChoiceOf(outs).value].broke ==>
      forall j :: 0 <= j < |outs| && InSlot(outs[j], false) ==> outs[j].score <= NoScore
  {
    BestInIsEarliestMax(outs, false);
    BestInIsEarliestMax(outs, true);
    if ChoiceOf(outs).None? {
      forall j | 0 <= j < |outs| && outs[j].Scored?
        ensures outs[j].score <= NoScore
      {
        assert InSlot(outs[j], outs[j].broke);
      }
    }
  }

  // ----------------------------------------------------------- The search

  /** The events of `names` that offer options, in order: those the AI chooses for. */
  function OptionEvents(catalog: Catalog, names: seq<string>): (r: seq<string>)
    ensures forall i :: 0 <= i < |r| ==> r[i] in catalog && |catalog[r[i]]| > 0
    ensures |r| <= |names|
  {
    if names == [] then []
    else
      var e := names[|names| - 1];
      OptionEvents(catalog, names[..|names| - 1]) + (if e in catalog && |catalog[e]| > 0 then [e] else [])
  }

  /** The number of options of each event. */
  function Sizes(catalog: Catalog, evts: seq<string>): (r: seq<nat>)
    requires forall i :: 0 <= i < |evts| ==> evts[i] in catalog
    ensures |r| == |evts| && forall i :: 0 <= i < |r| ==> r[i] == |catalog[evts[i]]|
  {
    if evts == [] then [] else Sizes(catalog, evts[..|evts| - 1]) + [|catalog[evts[|evts| - 1]]|]
  }

  /** The choice table after a combination is set event by event, and whether every choice was accepted. */
  datatype Trial = Trial(feasible: bool, choices: map<string, int>, available: map<string, seq<bool>>)

  /** `choices[evts[i]] = combo[i]` for each event in turn; a refusal marks the combination infeasible and the rest still run. */
  function ChooseAll(catalog: Catalog, choices: map<string, int>, avail: map<string, seq<bool>>,
                     evts: seq<string>, combo: seq<nat>): Trial
    requires |combo| == |evts|
  {
    if evts == [] then Trial(true, choices, avail)
    else
      var t := ChooseAll(catalog, choices, avail, evts[..|evts| - 1], combo[..|combo| - 1]);
      var out := SetChoiceOf(catalog, t.choices, t.available, evts[|evts| - 1], combo[|combo| - 1]);
      Trial(t.feasible && out.status.Ok?, out.choices, out.available)
  }

  /** Trying the events up to `i` inclusive is trying those before `i`, then setting the choice for `i`. */
  lemma ChooseAllSnoc(catalog: Catalog, choices: map<string, int>, avail: map<string, seq<bool>>,
                      evts: seq<string>, combo: seq<nat>, i: nat)
    requires |combo| == |evts| && i < |evts|
    ensures var t := ChooseAll(catalog, choices, avail, evts[..i], combo[..i]);
      var out := SetChoiceOf(catalog, t.choices, t.available, evts[i], combo[i]);
      ChooseAll(catalog, choices, avail, evts[..i + 1], combo[..i + 1]) == Trial(t.feasible && out.status.Ok?, out.choices, out.available)
  {
    assert evts[..i + 1][..i] == evts[..i] && combo[..i + 1][..i] == combo[..i];
  }

  /**
   * A feasible combination is recorded in full: the choice table gains
   * exactly the events chosen for, and the last event's choice is its digit.
   */
  lemma {:induction false} ChooseAllRecords(catalog: Catalog, choices: map<string, int>, avail: map<string, seq<bool>>,
                                            evts: seq<string>, combo: seq<nat>)
    requires |combo| == |evts|
    ensures var t := ChooseAll(catalog, choices, avail, evts, combo);
      t.feasible ==> forall e :: e in t.choices <==> e in choices || e in evts
    ensures var t := ChooseAll(catalog, choices, avail, evts, combo);
      t.feasible && evts != [] ==> t.choices[evts[|evts| - 1]] == combo[|combo| - 1]
    decreases |evts|
  {
    if evts != [] {
      var pre := evts[..|evts| - 1];
      ChooseAllRecords(catalog, choices, avail, pre, combo[..|combo| - 1]);
      assert evts == pre + [evts[|evts| - 1]];
    }
  }

  /** Everything one candidate run depends on besides the AI's state. */
  datatype Search = Search(
    catalog: Catalog,
    objs: Objects,
    names: seq<string>,
    evts: seq<string>,
    pf: int,
    pStart: int,
    pEnd: int,
    pLast: int,
    adj: real,
    initCash: real,
    mood: (real, real) -> real)

  /** A player state a run from `pStart` may start from: a table reaching it and valid objects, unless bankrupt. */
  predicate CanRun(st: PlayerState, pStart: int) {
    !st.bankrupt ==> pStart <= |st.table| && AllValid(st.selected)
  }

  /** A state the search can score: one that can run, and a bankrupt one has a row to score. */
  predicate StateReady(st: PlayerState, pStart: int) {
    CanRun(st, pStart) && (st.bankrupt ==> |st.table| > 0)
  }

  predicate SearchOk(st: PlayerState, s: Search) {
    && ObjectsValid(s.objs) && 0 <= s.pStart <= s.pEnd && 0 <= s.pLast
    && (forall i :: 0 <= i < |s.evts| ==> s.evts[i] in s.catalog && |s.catalog[s.evts[i]]| > 0)
    && StateReady(st, s.pStart)
  }

  /** The row of a table the search scores: the stage's last period, or the last row written. */
  function EndRow(table: seq<ScoreRow>, pLast: int): (i: int)
    requires |table| > 0 && 0 <= pLast
    ensures 0 <= i < |table|
  {
    if pLast < |table| - 1 then pLast else |table| - 1
  }

  /** The AI's state after trying `combo`: the choices set, the turn's objects attached and the stage simulated. */
  function Candidate(st: PlayerState, s: Search, combo: seq<nat>): (r: PlayerState)
    requires SearchOk(st, s) && |combo| == |s.evts|
    ensures |r.table| > 0
  {
    var t := ChooseAll(s.catalog, st.choices, st.available, s.evts, combo);
    var chosen := st.(choices := t.choices, available := t.available);
    Simulated(AttachTo(chosen, s.catalog, s.objs, s.names, s.pf), s.pStart, s.pEnd, s.adj, s.initCash, s.mood)
  }

  /** What trying `combo` tells the search. */
  function OutcomeOf(st: PlayerState, s: Search, combo: seq<nat>): Outcome
    requires SearchOk(st, s) && |combo| == |s.evts|
  {
    if !ChooseAll(s.catalog, st.choices, st.available, s.evts, combo).feasible then Infeasible
    else
      var c := Candidate(st, s, combo);
      Scored(c.bankrupt, c.table[EndRow(c.table, s.pLast)].score)
  }

  /** The outcomes of the first `n` combinations, in the order `product` yields them. */
  function Outcomes(st: PlayerState, s: Search, n: nat): (r: seq<Outcome>)
    requires SearchOk(st, s)
    ensures |r| == n
  {
    if n == 0 then []
    else Outcomes(st, s, n - 1) + [OutcomeOf(st, s, Combo(Sizes(s.catalog, s.evts), n - 1))]
  }

  /** The state the AI takes from the search: the kept combination's candidate, if the search keeps one. */
  function AiPick(st: PlayerState, s: Search): (r: Option<PlayerState>)
    requires SearchOk(st, s)
  {
    var sizes := Sizes(s.catalog, s.evts);
    match ChoiceOf(Outcomes(st, s, Product(sizes)))
    case Some(k) => Some(Candidate(st, s, Combo(sizes, k)))
    case None => None
  }

  /** Entry `j` of the outcomes is the outcome of the `j`-th combination. */
  lemma {:induction false} OutcomesAt(st: PlayerState, s: Search, n: nat, j: nat)
    requires SearchOk(st, s) && j < n
    ensures Outcomes(st, s, n)[j] == OutcomeOf(st, s, Combo(Sizes(s.catalog, s.evts), j))
  {
    if j < n - 1 {
      OutcomesAt(st, s, n - 1, j);
    }
  }

  /** A combination is scored exactly when every choice of it is accepted. */
  lemma ScoredIsFeasible(st: PlayerState, s: Search, combo: seq<nat>)
    requires SearchOk(st, s) && |combo| == |s.evts|
    ensures OutcomeOf(st, s, combo).Scored? <==> ChooseAll(s.catalog, st.choices, st.available, s.evts, combo).feasible
  {
  }

  /**
   * The combination the AI keeps is an enumerated one whose every choice is
   * accepted and recorded, and it is the one the search scored at its
   * position (`ChoicePrefersSolvent` and `BestInIsEarliestMax` say how it
   * ranks among the scores).
   */
  lemma AiPickIsFeasible(st: PlayerState, s: Search)
    requires SearchOk(st, s)
    ensures var sizes := Sizes(s.catalog, s.evts);
      var c := ChoiceOf(Outcomes(st, s, Product(sizes)));
      c.Some? ==>
        var combo := Combo(sizes, c.value);
        var t := ChooseAll(s.catalog, st.choices, st.available, s.evts, combo);
        && c.value < Product(sizes) && InRange(sizes, combo)
        && Outcomes(st, s, Product(sizes))[c.value] == OutcomeOf(st, s, combo)
        && t.feasible && (forall e :: e in t.choices <==> e in st.choices || e in s.evts)
  {
    var sizes := Sizes(s.catalog, s.evts);
    var n := Product(sizes);
    var outs := Outcomes(st, s, n);
    var c := ChoiceOf(outs);
    if c.Some? {
      var combo := Combo(sizes, c.value);
      ChoicePrefersSolvent(outs);
      OutcomesAt(st, s, n, c.value);
      ComboInRange(sizes, c.value);
      ScoredIsFeasible(st, s, combo);
      ChooseAllRecords(s.catalog, st.choices, st.available, s.evts, combo);
    }
  }

  // ------------------------------------------------------------- Ranking

  /** Player `a` ranks ahead of player `b`: a higher score, or an equal score and a lower index. */
  predicate Ahead(scores: seq<real>, a: nat, b: nat)
    requires a < |scores| && b < |scores|
  {
    scores[a] > scores[b] || (scores[a] == scores[b] && a < b)
  }

  predicate RankedBy(scores: seq<real>, r: seq<nat>) {
    && (forall i :: 0 <= i < |r| ==> r[i] < |scores|)
    && (forall i, j :: 0 <= i < j < |r| ==> Ahead(scores, r[i], r[j]))
  }

  /** `0, 1, ..., n - 1`. */
  function Upto(n: nat): seq<nat> {
    if n == 0 then [] else Upto(n - 1) + [n - 1]
  }

  /** Insertion of index `k` behind every index that ranks ahead of it. */
  function Insert(scores: seq<real>, xs: seq<nat>, k: nat): (r: seq<nat>)
    requires k < |scores| && forall i :: 0 <= i < |xs| ==> xs[i] < |scores|
    ensures |r| == |xs| + 1 && forall i :: 0 <= i < |r| ==> r[i] == k || r[i] in xs
  {
    if xs == [] then [k]
    else
      var y := xs[|xs| - 1];
      if Ahead(scores, y, k) then xs + [k] else Insert(scores, xs[..|xs| - 1], k) + [y]
  }

  /** `sorted(range(n), key=lambda k: -score[k])`: Python's sort is stable, so ties keep index order. */
  function Ranked(scores: seq<real>, n: nat): (r: seq<nat>)
    requires n <= |scores|
    ensures |r| == n && forall i :: 0 <= i < |r| ==> r[i] < n
  {
    if n == 0 then [] else Insert(scores, Ranked(scores, n - 1), n - 1)
  }

  lemma {:induction false} InsertKeeps(scores: seq<real>, xs: seq<nat>, k: nat)
    requires k < |scores| && forall i :: 0 <= i < |xs| ==> xs[i] < |scores|
    ensures multiset(Insert(scores, xs, k)) == multiset(xs) + multiset{k}
    decreases |xs|
  {
    if xs != [] {
      var pre := xs[..|xs| - 1];
      assert xs == pre + [xs[|xs| - 1]];
      InsertKeeps(scores, pre, k);
    }
  }

  lemma AheadTransitive(scores: seq<real>, a: nat, b: nat, c: nat)
    requires a < |scores| && b < |scores| && c < |scores|
    requires Ahead(scores, a, b) && Ahead(scores, b, c)
    ensures Ahead(scores, a, c)
  {
  }

  /** Appending an index every ranked index is ahead of keeps the order. */
  lemma AppendSorted(scores: seq<real>, xs: seq<nat>, k: nat)
    requires k < |scores| && RankedBy(scores, xs) && xs != [] && Ahead(scores, xs[|xs| - 1], k)
    ensures RankedBy(scores, xs + [k])
  {
    var y := xs[|xs| - 1];
    forall i | 0 <= i < |xs| - 1
      ensures Ahead(scores, xs[i], k)
    {
      AheadTransitive(scores, xs[i], y, k);
    }
  }

  lemma {:induction false} InsertSorted(scores: seq<real>, xs: seq<nat>, k: nat)
    requires k < |scores| && RankedBy(scores, xs)
    requires forall i :: 0 <= i < |xs| ==> xs[i] < k
    ensures RankedBy(scores, Insert(scores, xs, k))
    decreases |xs|
  {
    if xs != [] {
      var pre, y := xs[..|xs| - 1], xs[|xs| - 1];
      if Ahead(scores, y, k) {
        AppendSorted(scores, xs, k);
      } else {
        InsertSorted(scores, pre, k);
        var ins := Insert(scores, pre, k);
        forall i | 0 <= i < |ins|
          ensures Ahead(scores, ins[i], y)
        {
          if ins[i] != k {
            var j :| 0 <= j < |pre| && pre[j] == ins[i];
            assert xs[j] == pre[j];
          }
        }
      }
    }
  }

  lemma {:induction false} RankedOrdered(scores: seq<real>, n: nat)
    requires n <= |scores|
    ensures RankedBy(scores, Ranked(scores, n))
    decreases n
  {
    if n > 0 {
      RankedOrdered(scores, n - 1);
      RankedSortedStep(scores, n);
    }
  }

  /** Ranking one more player keeps the ranking in order. */
  lemma RankedSortedStep(scores: seq<real>, n: nat)
    requires 0 < n <= |scores| && RankedBy(scores, Ranked(scores, n - 1))
    ensures RankedBy(scores, Ranked(scores, n))
  {
    InsertSorted(scores, Ranked(scores, n - 1), n - 1);
  }

  /** Ranking one more player adds its index to the ranking's multiset. */
  lemma RankedGrows(scores: seq<real>, n: nat)
    requires 0 < n <= |scores| && multiset(Ranked(scores, n - 1)) == multiset(Upto(n - 1))
    ensures multiset(Ranked(scores, n)) == multiset(Upto(n))
  {
    InsertKeeps(scores, Ranked(scores, n - 1), n - 1);
    assert Upto(n) == Upto(n - 1) + [n - 1];
  }

  lemma {:induction false} RankedPermutes(scores: seq<real>, n: nat)
    requires n <= |scores|
    ensures multiset(Ranked(scores, n)) == multiset(Upto(n))
    decreases n
  {
    if n > 0 {
      RankedPermutes(scores, n - 1);
      RankedGrows(scores, n);
    }
  }

  /** The ranking lists every human player once, each ahead of those ranked after it. */
  lemma RankedIsStableSort(scores: seq<real>, n: nat)
    requires n <= |scores|
    ensures RankedBy(scores, Ranked(scores, n))
    ensures multiset(Ranked(scores, n)) == multiset(Upto(n))
  {
    RankedOrdered(scores, n);
    RankedPermutes(scores, n);
  }

  // ------------------------------------------------------- Game definitions

  /**
   * The game definitions the engine runs on (backend/gameitems.py): the step
   * table with its random-step flags, the first and last steps of each turn,
   * the turns and last step of each stage, the periods of each turn, each
   * stage's random events, the events' options and the backend objects.
   */
  datatype Design = Design(
    rows: seq<StepRow>,
    randomStep: seq<bool>,
    firstStepOfTurn: seq<int>,
    lastStepOfTurn: seq<int>,
    firstTurnOfStage: seq<int>,
    lastTurnOfStage: seq<int>,
    lastStepOfStage: seq<int>,
    firstPeriodOfTurn: seq<int>,
    lastPeriodOfTurn: seq<int>,
    randomEvents: seq<seq<string>>,
    catalog: Catalog,
    objs: Objects)
  {
    predicate Sized() {
      && |rows| > 0 && |randomStep| == |rows|
      && |lastStepOfTurn| == |firstStepOfTurn| && |firstPeriodOfTurn| == |firstStepOfTurn|
      && |lastPeriodOfTurn| == |firstStepOfTurn|
      && |lastStepOfStage| > 0 && |firstTurnOfStage| == |lastStepOfStage|
      && |lastTurnOfStage| == |lastStepOfStage| && |randomEvents| == |lastStepOfStage|
    }

    /**
     * Each step names its turn and stage, and a random step has events to
     * draw from; each turn is a run of steps that all belong to it, over a
     * run of periods; each stage is a run of turns ending on a step of the
     * table, the last stage on the table's last step.
     */
    predicate Valid() {
      && Sized()
      && rows[0].turn == 0 && rows[0].stage == 0
      && lastStepOfStage[|lastStepOfStage| - 1] == |rows| - 1
      && (forall s :: 0 <= s < |rows| ==>
            && 0 <= rows[s].turn < |firstStepOfTurn| && 0 <= rows[s].stage < |lastStepOfStage|
            && 0 <= rows[s].periodFirst && 0 <= rows[s].periodLast)
      && (forall s :: 0 <= s < |rows| && randomStep[s] ==> |randomEvents[rows[s].stage]| > 0)
      && (forall t :: 0 <= t < |firstStepOfTurn| ==>
            && 0 <= firstStepOfTurn[t] <= lastStepOfTurn[t] < |rows|
            && 0 <= firstPeriodOfTurn[t] <= lastPeriodOfTurn[t])
      && (forall t, s :: 0 <= t < |firstStepOfTurn| && firstStepOfTurn[t] <= s <= lastStepOfTurn[t] ==> rows[s].turn == t)
      && (forall s :: 0 <= s < |rows| ==> firstStepOfTurn[rows[s].turn] <= s <= lastStepOfTurn[rows[s].turn])
      && (forall k :: 0 <= k < |lastStepOfStage| ==>
            && 0 <= lastStepOfStage[k] < |rows|
            && 0 <= firstTurnOfStage[k] <= lastTurnOfStage[k] < |firstStepOfTurn|
            && firstPeriodOfTurn[firstTurnOfStage[k]] <= lastPeriodOfTurn[lastTurnOfStage[k]])
    }

    /**
     * A random step draws from defined events only, as the loader checks;
     * the life events after the first step are defined events too, which
     * the loader does not check (the first one is checked when a game is
     * created).
     */
    predicate EventsDefined()
      requires Sized()
    {
      && (forall s, k :: 0 <= s < |rows| && randomStep[s] && 0 <= rows[s].stage < |randomEvents| && 0 <= k < |randomEvents[rows[s].stage]| ==>
            randomEvents[rows[s].stage][k] in catalog)
      && (forall s :: 0 < s < |rows| && rows[s].eventName != "" ==> rows[s].eventName in catalog)
    }

    /** The last step of the game. */
    function LastStep(): int
      requires Valid()
    {
      |rows| - 1
    }

    /**
     * A drawn index picks an event of any stage's random list: it is below
     * the shortest list, since the stage that draws is known only after the move.
     */
    predicate DrawOk(draw: int)
      requires Valid()
    {
      0 <= draw && forall s :: 0 <= s < |rows| && randomStep[s] ==> draw < |randomEvents[rows[s].stage]|
    }
  }

  /**
   * In a game whose creation succeeded, the event a step shows, drawn on a
   * random step and its life event otherwise, is a defined event, so the
   * lookup of `__update_crnt_objs` finds it.
   */
  lemma StepEventDefined(d: Design, s: int, draw: int)
    requires d.Valid() && d.EventsDefined() && d.rows[0].eventName in d.catalog
    requires 0 <= s < |d.rows| && d.DrawOk(draw)
    ensures var name := if d.randomStep[s] then d.randomEvents[d.rows[s].stage][draw] else d.rows[s].eventName;
      name != "" ==> name in d.catalog
  {
  }

  /** `step_table['event_name']` as the game starts it. */
  function EventColumn(rows: seq<StepRow>): (r: seq<string>)
    ensures |r| == |rows| && forall i :: 0 <= i < |rows| ==> r[i] == rows[i].eventName
  {
    if rows == [] then [] else EventColumn(rows[..|rows| - 1]) + [rows[|rows| - 1].eventName]
  }

  /** The position index `i` reads in a list of length `n`, negative indices counting from the end. */
  function Slot(i: int, n: int): int {
    if i < 0 then i + n else i
  }

  predicate Increasing(xs: seq<int>) {
    forall i, j :: 0 <= i < j < |xs| ==> xs[i] < xs[j]
  }

  // ------------------------------------------------------------ The game

  /** `choices[evts[i]] = combo[i]` for each event of a combination in turn, noting whether any was refused. */
  method ChooseEach(p: Player, evts: seq<string>, combo: seq<nat>) returns (ok: bool)
    requires |combo| == |evts|
    modifies p
    ensures var t := ChooseAll(p.catalog, old(p.choices), old(p.available), evts, combo);
      ok == t.feasible && p.State() == old(p.State()).(choices := t.choices, available := t.available)
  {
    ok := true;
    ghost var t := Trial(true, p.choices, p.available);
    for i := 0 to |evts|
      invariant t == ChooseAll(p.catalog, old(p.choices), old(p.available), evts[..i], combo[..i])
      invariant ok == t.feasible && p.choices == t.choices && p.available == t.available
      invariant p.summary == old(p.summary) && p.bankrupt == old(p.bankrupt) && p.bankruptPeriod == old(p.bankruptPeriod)
      invariant p.selected == old(p.selected) && p.table == old(p.table)
    {
      ChooseAllSnoc(p.catalog, old(p.choices), old(p.available), evts, combo, i);
      ghost var out := SetChoiceOf(p.catalog, p.choices, p.available, evts[i], combo[i]);
      var r := p.SetChoice(evts[i], combo[i]);
      if r.Err? {
        ok := false;
      }
      t := Trial(t.feasible && out.status.Ok?, out.choices, out.available);
    }
    assert evts[..|evts|] == evts && combo[..|combo|] == combo;
  }

  /** One object of event `e` as the player receives it (backend/prosperville.py:298-326). */
  method PrepareObject(catalog: Catalog, choices: map<string, int>, e: string, x0: Instrument, pf: int)
    returns (r: Option<Instrument>)
    requires x0.Valid()
    ensures r == Prepared(catalog, choices, e, x0, pf)
  {
    var x := x0;
    if x.startPeriod == -1 {
      x := x.WithStart(pf);
    }
    if e == FirstJob && x.Kind() == "salary" && College in choices {
      var raise := CollegeRaise(catalog, choices);
      if raise.Some? {
        var boosted := BoostSalary(x.body.salary, raise.value);
        assert Instrument(x.startPeriod, SalaryBody(boosted)) == Boosted(x, raise.value);
        x := Instrument(x.startPeriod, SalaryBody(boosted));
      }
    }
    assert Prepared(catalog, choices, e, x0, pf) == if RentalSkip(choices, x) then None else Some(x);
    if RentalSkip(choices, x) {
      return None;
    }
    return Some(x);
  }

  /** Appends the objects of list `xs` of event `e` to the player, as prepared one by one. */
  method AttachObjects(p: Player, catalog: Catalog, e: string, xs: seq<Instrument>, pf: int)
    requires AllValid(xs)
    modifies p
    ensures p.selected == old(p.selected) + PreparedAll(catalog, old(p.choices), e, xs, pf)
    ensures p.choices == old(p.choices) && p.available == old(p.available) && p.table == old(p.table)
    ensures p.summary == old(p.summary) && p.bankrupt == old(p.bankrupt) && p.bankruptPeriod == old(p.bankruptPeriod)
  {
    for j := 0 to |xs|
      invariant p.selected == old(p.selected) + PreparedAll(catalog, old(p.choices), e, xs[..j], pf)
      invariant p.choices == old(p.choices) && p.available == old(p.available) && p.table == old(p.table)
      invariant p.summary == old(p.summary) && p.bankrupt == old(p.bankrupt) && p.bankruptPeriod == old(p.bankruptPeriod)
    {
      assert xs[..j + 1][..j] == xs[..j];
      var y := PrepareObject(catalog, p.choices, e, xs[j], pf);
      if y.Some? {
        p.selected := p.selected + [y.value];
      }
    }
    assert xs[..|xs|] == xs;
  }

  /**
   * The loop of `___add_bkedobj_2_player`: for each event of `names`, the
   * objects of the chosen option, prepared and appended.
   */
  method AttachEvents(p: Player, catalog: Catalog, objs: Objects, names: seq<string>, pf: int)
    requires ObjectsValid(objs)
    modifies p
    ensures p.State() == AttachTo(old(p.State()), catalog, objs, names, pf)
  {
    ghost var choices := p.choices;
    for i := 0 to |names|
      invariant p.selected == old(p.selected) + Attached(catalog, objs, choices, names[..i], pf)
      invariant p.choices == choices && p.available == old(p.available) && p.table == old(p.table)
      invariant p.summary == old(p.summary) && p.bankrupt == old(p.bankrupt) && p.bankruptPeriod == old(p.bankruptPeriod)
    {
      ghost var done := Attached(catalog, objs, choices, names[..i], pf);
      var xs := ObjectsFor(catalog, objs, p.choices, names[i]);
      AttachObjects(p, catalog, names[i], xs, pf);
      ghost var more := PreparedAll(catalog, choices, names[i], xs, pf);
      assert names[..i + 1][..i] == names[..i];
      assert Attached(catalog, objs, choices, names[..i + 1], pf) == done + more;
      AppendAssoc(old(p.selected), done, more);
    }
    assert names[..|names|] == names;
  }

  lemma AppendAssoc<T>(a: seq<T>, b: seq<T>, c: seq<T>)
    ensures (a + b) + c == a + (b + c)
  {
  }

  /** The search runs for player `ai`: the player's constants are the ones the search simulates with. */
  ghost predicate SearchFor(ai: Player, s: Search)
    reads ai
  {
    && SearchOk(ai.State(), s) && s.catalog == ai.catalog
    && s.adj == ai.scoreAdjRatio && s.initCash == ai.initCash && s.mood == ai.mood
  }

  /** Player `q` is a copy of `ai` (the same constants) in state `st`. */
  ghost predicate CopyIn(q: Player, ai: Player, st: PlayerState)
    reads q
  {
    && q.catalog == ai.catalog && q.scoreAdjRatio == ai.scoreAdjRatio && q.initCash == ai.initCash
    && q.mood == ai.mood && q.isSystem == ai.isSystem && q.name == ai.name && q.State() == st
  }

  /** The bucket a search holds after `outs`: the candidate holding its best score, if any. */
  ghost predicate Holds(best: Option<Player>, score: real, outs: seq<Outcome>, broke: bool, ai: Player, s: Search)
    reads ai, if best.Some? then {best.value} else {}
    requires SearchOk(ai.State(), s)
  {
    var b := BestIn(outs, broke);
    && score == b.score && (best.Some? <==> b.at.Some?)
    && (best.Some? ==> CopyIn(best.value, ai, Candidate(ai.State(), s, Combo(Sizes(s.catalog, s.evts), b.at.value))))
  }

  /** Tries combination `combo` on a fresh copy of `ai`: its outcome, and the copy that produced it. */
  method TryCombo(ai: Player, s: Search, combo: seq<nat>) returns (out: Outcome, alt: Player)
    requires SearchFor(ai, s) && |combo| == |s.evts|
    ensures fresh(alt) && out == OutcomeOf(ai.State(), s, combo)
    ensures out.Scored? ==> CopyIn(alt, ai, Candidate(ai.State(), s, combo))
  {
    alt := new Player.Copy(ai);
    var ok := ChooseEach(alt, s.evts, combo);
    if !ok {
      return Infeasible, alt;
    }
    AttachEvents(alt, s.catalog, s.objs, s.names, s.pf);
    alt.Simulate(s.pStart, s.pEnd);
    out := Scored(alt.bankrupt, alt.table[EndRow(alt.table, s.pLast)].score);
  }

  /**
   * The state `__simulate_for_ai` leaves the AI in: with no choice to make,
   * the turn's objects attached and the stage simulated; otherwise the
   * candidate of the combination the search keeps, or the state unchanged
   * when it keeps none.
   */
  function AiOutcome(st: PlayerState, s: Search): PlayerState
    requires SearchOk(st, s)
  {
    if s.evts == [] then Candidate(st, s, [])
    else match AiPick(st, s)
      case Some(c) => c
      case None => st
  }

  /** The body of `__simulate_for_ai`: the player that takes the AI's place, in the state `AiOutcome` gives. */
  method RunAi(ai: Player, s: Search) returns (next: Player)
    requires SearchFor(ai, s)
    modifies ai
    ensures forall t :: t == s ==> next.State() == AiOutcome(old(ai.State()), t)
    ensures next == ai || (fresh(next) && CopyIn(next, ai, next.State()))
    ensures next.catalog == ai.catalog
  {
    if s.evts == [] {
      AttachEvents(ai, s.catalog, s.objs, s.names, s.pf);
      ai.Simulate(s.pStart, s.pEnd);
      return ai;
    }
    var best := SearchCombos(ai, s);
    next := if best.Some? then best.value else ai;
  }

  /** One bucket's update for the outcome `out` of the next combination, tried on copy `alt`: kept only on a strictly higher score. */
  method Keep(best: Option<Player>, score: real, ghost outs: seq<Outcome>, out: Outcome, alt: Player, broke: bool,
              ghost ai: Player, ghost s: Search)
    returns (best': Option<Player>, score': real)
    requires SearchOk(ai.State(), s) && Holds(best, score, outs, broke, ai, s)
    requires out.Scored? ==> CopyIn(alt, ai, Candidate(ai.State(), s, Combo(Sizes(s.catalog, s.evts), |outs|)))
    ensures Holds(best', score', outs + [out], broke, ai, s)
    ensures best' == best || best' == Some(alt)
  {
    BestInStep(outs, out, broke);
    best', score' := best, score;
    if out.Scored? && out.broke == broke && score < out.score {
      best', score' := Some(alt), out.score;
    }
  }

  /**
   * The loop of `__simulate_for_ai` over `product(*options)`: every
   * combination is tried on a copy of the AI; infeasible ones are skipped,
   * and each bucket keeps the copy with its first strictly best score. The
   * copy kept is the best solvent one, else the best bankrupt one.
   */
  method SearchCombos(ai: Player, s: Search) returns (best: Option<Player>)
    requires SearchFor(ai, s)
    ensures var outs := Outcomes(ai.State(), s, Product(Sizes(s.catalog, s.evts)));
      && (best.Some? <==> ChoiceOf(outs).Some?)
      && (best.Some? ==>
            fresh(best.value) && CopyIn(best.value, ai, Candidate(ai.State(), s, Combo(Sizes(s.catalog, s.evts), ChoiceOf(outs).value))))
  {
    var sizes := Sizes(s.catalog, s.evts);
    var n := Product(sizes);
    var solvent: Option<Player>, broke: Option<Player> := None, None;
    var solventScore, brokeScore := NoScore, NoScore;
    for k := 0 to n
      invariant Holds(solvent, solventScore, Outcomes(ai.State(), s, k), false, ai, s)
      invariant Holds(broke, brokeScore, Outcomes(ai.State(), s, k), true, ai, s)
      invariant solvent.Some? ==> fresh(solvent.value)
      invariant broke.Some? ==> fresh(broke.value)
    {
      ghost var outs := Outcomes(ai.State(), s, k);
      var out, alt := TryCombo(ai, s, Combo(sizes, k));
      assert Outcomes(ai.State(), s, k + 1) == outs + [out];
      solvent, solventScore := Keep(solvent, solventScore, outs, out, alt, false, ai, s);
      broke, brokeScore := Keep(broke, brokeScore, outs, out, alt, true, ai, s);
    }
    best := if solvent.Some? then solvent else broke;
  }

  /** The human players the game starts with: one fresh, solvent player per name, in order. */
  method NewHumans(names: seq<string>, initCash: real, mood: (real, real) -> real, catalog: Catalog)
    returns (ps: seq<Player>)
    requires initCash >= 0.0 && mood(initCash, 0.0) != 0.0
    ensures |ps| == |names|
    ensures forall j :: 0 <= j < |ps| ==> fresh(ps[j]) && ps[j].initCash == initCash && ps[j].catalog == catalog
    ensures forall j :: 0 <= j < |ps| ==> ps[j].name == names[j] && !ps[j].isSystem
    ensures forall j :: 0 <= j < |ps| ==>
      ps[j].bankrupt == false && ps[j].table == [] && ps[j].selected == [] && ps[j].choices == map[] && ps[j].available == map[]
    ensures forall j, k :: 0 <= j < k < |ps| ==> ps[j] != ps[k]
  {
    ps := [];
    for i := 0 to |names|
      invariant |ps| == i
      invariant forall j :: 0 <= j < i ==> fresh(ps[j]) && ps[j].initCash == initCash && ps[j].catalog == catalog
      invariant forall j :: 0 <= j < i ==> ps[j].name == names[j] && !ps[j].isSystem
      invariant forall j :: 0 <= j < i ==>
        ps[j].bankrupt == false && ps[j].table == [] && ps[j].selected == [] && ps[j].choices == map[] && ps[j].available == map[]
      invariant forall j, k :: 0 <= j < k < i ==> ps[j] != ps[k]
    {
      var p := new Player(names[i], false, initCash, mood, catalog);
      ps := ps + [p];
    }
  }

  /** What a turn is played with: the option lists and objects, the turn's events, its first period and its periods. */
  datatype Turn = Turn(catalog: Catalog, objs: Objects, names: seq<string>, pf: int, pStart: int, pEnd: int)
  {
    predicate Ok() {
      ObjectsValid(objs) && 0 <= pStart <= pEnd
    }
  }

  /** What playing turn `t` leaves of the state of player `p`: the turn's objects attached, then its periods simulated. */
  function Played(st: PlayerState, t: Turn, p: Player): PlayerState
    requires t.Ok() && CanRun(st, t.pStart)
  {
    Simulated(AttachTo(st, t.catalog, t.objs, t.names, t.pf), t.pStart, t.pEnd, p.scoreAdjRatio, p.initCash, p.mood)
  }

  /** One pass of `__score_players`' loop: `___add_bkedobj_2_player` for the turn, then `simulate` over its periods. */
  method PlayTurn(p: Player, t: Turn)
    requires t.Ok() && CanRun(p.State(), t.pStart)
    modifies p
    ensures p.State() == Played(old(p.State()), t, p)
  {
    AttachEvents(p, t.catalog, t.objs, t.names, t.pf);
    p.Simulate(t.pStart, t.pEnd);
  }

  /** The states of the players, in order. */
  ghost function StatesOf(players: seq<Player>): (r: seq<PlayerState>)
    reads players
    ensures |r| == |players| && forall j :: 0 <= j < |players| ==> r[j] == players[j].State()
  {
    seq(|players|, j reads players requires 0 <= j < |players| => players[j].State())
  }

  /** When only the `k`-th player's state moved on, only the `k`-th entry of the states did. */
  lemma StatesOfAfter(players: seq<Player>, sts: seq<PlayerState>, k: int)
    requires 0 <= k < |players| == |sts|
    requires forall j :: 0 <= j < |players| && j != k ==> players[j].State() == sts[j]
    ensures StatesOf(players) == sts[k := players[k].State()]
  {
  }

  /** `alive` lists increasing positions below `n`. */
  predicate Positions(alive: seq<int>, n: int) {
    Increasing(alive) && forall k :: 0 <= k < |alive| ==> 0 <= alive[k] < n
  }

  /** The survivors `alive` are increasing positions of distinct players, each ready to play turn `t` from its state in `olds`. */
  predicate Roster(players: seq<Player>, alive: seq<int>, olds: seq<PlayerState>, t: Turn) {
    && t.Ok() && |olds| == |players| && Positions(alive, |players|)
    && (forall k :: 0 <= k < |alive| ==> CanRun(olds[alive[k]], t.pStart))
    && (forall i, j :: 0 <= i < j < |players| ==> players[i] != players[j])
  }

  /**
   * The states the players reach when the survivors `alive` play turn `t`
   * from their states in `olds`, one survivor after the other.
   */
  ghost function Targets(players: seq<Player>, alive: seq<int>, olds: seq<PlayerState>, t: Turn): (r: seq<PlayerState>)
    requires Roster(players, alive, olds, t)
    ensures |r| == |players|
    decreases |alive|
  {
    if alive == [] then olds
    else
      var j := alive[|alive| - 1];
      Targets(players, alive[..|alive| - 1], olds, t)[j := Played(olds[j], t, players[j])]
  }

  /** Dropping the last survivor leaves a roster. */
  lemma RosterPrefix(players: seq<Player>, alive: seq<int>, olds: seq<PlayerState>, t: Turn)
    requires Roster(players, alive, olds, t) && alive != []
    ensures Roster(players, alive[..|alive| - 1], olds, t)
  {
    var pre := alive[..|alive| - 1];
    assert forall k :: 0 <= k < |pre| ==> pre[k] == alive[k];
  }

  /** Each survivor reaches the state `Played` gives, and every other player keeps its state. */
  lemma {:induction false} TargetsAt(players: seq<Player>, alive: seq<int>, olds: seq<PlayerState>, t: Turn, j: int)
    requires Roster(players, alive, olds, t) && 0 <= j < |players|
    ensures j in alive ==> CanRun(olds[j], t.pStart) && Targets(players, alive, olds, t)[j] == Played(olds[j], t, players[j])
    ensures j !in alive ==> Targets(players, alive, olds, t)[j] == olds[j]
    decreases |alive|
  {
    if alive != [] {
      RosterPrefix(players, alive, olds, t);
      TargetsAt(players, alive[..|alive| - 1], olds, t, j);
      TargetsStep(players, alive, olds, t, j);
    }
  }

  /** The step of `TargetsAt`: what holds for all survivors but the last holds with it. */
  lemma TargetsStep(players: seq<Player>, alive: seq<int>, olds: seq<PlayerState>, t: Turn, j: int)
    requires Roster(players, alive, olds, t) && alive != [] && 0 <= j < |players|
    requires Roster(players, alive[..|alive| - 1], olds, t)
    requires j in alive[..|alive| - 1] ==>
      CanRun(olds[j], t.pStart) && Targets(players, alive[..|alive| - 1], olds, t)[j] == Played(olds[j], t, players[j])
    requires j !in alive[..|alive| - 1] ==> Targets(players, alive[..|alive| - 1], olds, t)[j] == olds[j]
    ensures j in alive ==> CanRun(olds[j], t.pStart) && Targets(players, alive, olds, t)[j] == Played(olds[j], t, players[j])
    ensures j !in alive ==> Targets(players, alive, olds, t)[j] == olds[j]
  {
    InLast(alive, j);
  }

  /** A survivor is the last one or one of those before it. */
  lemma InLast(alive: seq<int>, j: int)
    requires alive != []
    ensures j in alive <==> j in alive[..|alive| - 1] || j == alive[|alive| - 1]
  {
    assert alive == alive[..|alive| - 1] + [alive[|alive| - 1]];
  }

  /**
   * Where the removal loop stands, with the players in states `sts`, after
   * `d` survivors have played: `left` keeps `i` of them, exactly the solvent
   * ones, followed by the rest of `alive`; those `d` are in their states in
   * `targets`, and every other player is still in its state in `olds`.
   */
  ghost predicate Scoring(sts: seq<PlayerState>, alive: seq<int>, left: seq<int>, i: int, d: int, olds: seq<PlayerState>, targets: seq<PlayerState>)
    requires Positions(alive, |olds|)
  {
    && Filtering(alive, left, i, d) && |left| - i == |alive| - d && |sts| == |olds| == |targets|
    && (forall j :: j in left[..i] <==> j in alive[..d] && !sts[j].bankrupt)
    && (forall k :: 0 <= k < d ==> sts[alive[k]] == targets[alive[k]])
    && (forall j :: 0 <= j < |sts| && j !in alive[..d] ==> sts[j] == olds[j])
  }

  /** The survivors that remain after entry `i` of `left` is kept (solvent) or removed (bankrupt). */
  function Kept(left: seq<int>, i: int, bankrupt: bool): (r: seq<int>)
    requires 0 <= i < |left|
    ensures |r| == if bankrupt then |left| - 1 else |left|
    ensures r[..i] == left[..i] && r[i..] == if bankrupt then left[i + 1..] else left[i..]
  {
    if bankrupt then left[..i] + left[i + 1..] else left
  }

  /** One pass of the removal loop keeps `Scoring`: survivor `alive[d]` reaches its target, and is then kept or removed. */
  lemma ScoringStep(sts: seq<PlayerState>, alive: seq<int>, left: seq<int>, i: int, d: int, olds: seq<PlayerState>, targets: seq<PlayerState>)
    requires Positions(alive, |olds|)
    requires Scoring(sts, alive, left, i, d, olds, targets) && i < |left|
    ensures left[i] == alive[d] && sts[alive[d]] == olds[alive[d]]
    ensures var s := targets[alive[d]];
      Scoring(sts[alive[d] := s], alive, Kept(left, i, s.bankrupt), if s.bankrupt then i else i + 1, d + 1, olds, targets)
  {
    FilterStep(alive, left, i, d);
    assert alive[d] !in alive[..d];
    assert alive[..d + 1] == alive[..d] + [alive[d]];
  }

  /**
   * The outcome of `__score_players`' loop, with the players now in states
   * `sts`: `left` is the survivors `alive` that are still solvent, in order;
   * each of `alive` has played turn `t` from its state in `olds`, and every
   * other player is still in it.
   */
  ghost predicate TurnScored(sts: seq<PlayerState>, players: seq<Player>, alive: seq<int>, left: seq<int>, olds: seq<PlayerState>, t: Turn)
    requires Roster(players, alive, olds, t)
  {
    && |sts| == |players|
    && Increasing(left) && (forall i :: 0 <= i < |left| ==> left[i] in alive)
    && (forall j :: j in left <==> j in alive && !sts[j].bankrupt)
    && (forall k {:trigger Played(olds[alive[k]], t, players[alive[k]])} :: 0 <= k < |alive| ==> sts[alive[k]] == Played(olds[alive[k]], t, players[alive[k]]))
    && (forall j :: 0 <= j < |sts| && j !in alive ==> sts[j] == olds[j])
  }

  /**
   * The loop of `__score_players` over the survivors `alive` (increasing
   * positions in `players`): each plays the turn, and the ones it bankrupts
   * are removed while the loop goes on; the rest, in order, are returned.
   */
  method ScoreSurvivors(players: seq<Player>, alive: seq<int>, t: Turn) returns (left: seq<int>)
    requires Roster(players, alive, StatesOf(players), t)
    modifies players
    ensures TurnScored(StatesOf(players), players, alive, left, old(StatesOf(players)), t)
  {
    ghost var olds := StatesOf(players);
    ghost var targets := Targets(players, alive, olds, t);
    left := alive;
    var i := 0;
    ghost var d := 0;
    while i < |left|
      invariant Scoring(StatesOf(players), alive, left, i, d, olds, targets)
      decreases |left| - i
    {
      TargetsAt(players, alive, olds, t, alive[d]);
      left, i := ScoreOne(players, alive, left, i, d, olds, targets, t);
      d := d + 1;
    }
    assert left[..i] == left && alive[..d] == alive;
    forall k | 0 <= k < |alive|
      ensures targets[alive[k]] == Played(olds[alive[k]], t, players[alive[k]])
    {
      TargetsAt(players, alive, olds, t, alive[k]);
    }
  }

  /** One pass of the removal loop: survivor `left[i]`, the `d`-th of `alive`, plays the turn and is kept or removed. */
  method ScoreOne(players: seq<Player>, alive: seq<int>, left: seq<int>, i: int, ghost d: int, ghost olds: seq<PlayerState>,
                  ghost targets: seq<PlayerState>, t: Turn)
    returns (left': seq<int>, i': int)
    requires Roster(players, alive, olds, t)
    requires Scoring(StatesOf(players), alive, left, i, d, olds, targets) && i < |left|
    requires d < |alive| && targets[alive[d]] == Played(olds[alive[d]], t, players[alive[d]])
    modifies players[left[i]]
    ensures Scoring(StatesOf(players), alive, left', i', d + 1, olds, targets)
  {
    ghost var sts := StatesOf(players);
    ScoringStep(sts, alive, left, i, d, olds, targets);
    var p := players[left[i]];
    PlayTurn(p, t);
    forall j | 0 <= j < |players| && j != left[i]
      ensures players[j].State() == sts[j]
    {
      assert players[j] != p;
    }
    StatesOfAfter(players, sts, left[i]);
    left' := Kept(left, i, p.bankrupt);
    i' := if p.bankrupt then i else i + 1;
  }

  /** The removal loop's bookkeeping: `left` is `alive` with some of its first `d` entries removed, `i` of them kept. */
  predicate Filtering(alive: seq<int>, left: seq<int>, i: int, d: int) {
    && 0 <= i <= |left| && 0 <= d <= |alive|
    && left[i..] == alive[d..]
    && Increasing(left) && (forall x :: 0 <= x < |left| ==> left[x] in alive)
  }

  /** One step of the removal loop keeps its bookkeeping, whether entry `i` is kept or removed. */
  lemma FilterStep(alive: seq<int>, left: seq<int>, i: int, d: int)
    requires Filtering(alive, left, i, d) && i < |left| && Increasing(alive)
    ensures left[i] == alive[d]
    ensures Filtering(alive, left, i + 1, d + 1) && left[..i + 1] == left[..i] + [left[i]]
    ensures var l := left[..i] + left[i + 1..]; Filtering(alive, l, i, d + 1) && l[..i] == left[..i]
  {
    assert left[i + 1..] == left[i..][1..] && alive[d + 1..] == alive[d..][1..];
    RemoveKeepsIncreasing(left, i);
  }

  lemma RemoveKeepsIncreasing(xs: seq<int>, i: int)
    requires Increasing(xs) && 0 <= i < |xs|
    ensures Increasing(xs[..i] + xs[i + 1..]) && (xs[..i] + xs[i + 1..])[..i] == xs[..i] && (xs[..i] + xs[i + 1..])[i..] == xs[i + 1..]
    ensures forall x :: x in xs[..i] + xs[i + 1..] ==> x in xs
  {
    var ys := xs[..i] + xs[i + 1..];
    forall a, b | 0 <= a < b < |ys|
      ensures ys[a] < ys[b]
    {
      var a' := if a < i then a else a + 1;
      var b' := if b < i then b else b + 1;
      assert ys[a] == xs[a'] && ys[b] == xs[b'];
    }
  }

  /** A player as the game creates it: solvent, with no objects, choices or score rows yet. */
  ghost predicate Initial(p: Player, initCash: real, catalog: Catalog)
    reads p
  {
    && p.initCash == initCash && p.catalog == catalog
    && !p.bankrupt && p.table == [] && p.selected == [] && p.choices == map[]
  }

  /**
   * The players `__init__` creates: one per name, then the AI; the first of
   * them reports the availability of the first event's options.
   */
  method NewPlayers(names: seq<string>, initCash: real, mood: (real, real) -> real, catalog: Catalog, firstEvent: string)
    returns (ps: seq<Player>, avail: Option<seq<bool>>)
    requires initCash >= 0.0 && mood(initCash, 0.0) != 0.0
    ensures |ps| == |names| + 1
    ensures forall j :: 0 <= j < |ps| ==> fresh(ps[j]) && Initial(ps[j], initCash, catalog)
    ensures forall j :: 0 <= j < |names| ==> ps[j].name == names[j] && !ps[j].isSystem
    ensures ps[|names|].name == "AI" && ps[|names|].isSystem
    ensures forall j, k :: 0 <= j < k < |ps| ==> ps[j] != ps[k]
    ensures avail == Availability(catalog, map[], firstEvent)
  {
    var hs := NewHumans(names, initCash, mood, catalog);
    var ai := new Player("AI", true, initCash, mood, catalog);
    ps := hs + [ai];
    avail := ps[0].GetOptionAvailability(firstEvent);
  }

  /** What `Prosperville.__init__` raises when the first stage has no event: `life_event_seq[0]` is out of range. */
  const NoFirstEvent := "list index out of range"

  /** The KeyError of looking up an event name that is not a defined event. */
  function UnknownEvent(name: string): string
  {
    "KeyError: '" + name + "'"
  }

  /**
   * `Prosperville(player_names, init_cash)` with its errors: the players are
   * created first, so a negative cash or a zero starting happiness fails as
   * `Player` does; then a first stage without events has no first event.
   */
  method NewGame(names: seq<string>, initCash: real, mood: (real, real) -> real, design: Design) returns (r: Result<Game>)
    requires design.Valid() && design.EventsDefined() && ObjectsValid(design.objs)
    ensures r.Ok? <==>
      initCash >= 0.0 && mood(initCash, 0.0) != 0.0 && design.rows[0].eventName != "" && design.rows[0].eventName in design.catalog
    ensures r.Err? ==>
      r.msg == if initCash < 0.0 then NegativeCash
        else if mood(initCash, 0.0) == 0.0 then ZeroStartHappiness
        else if design.rows[0].eventName == "" then NoFirstEvent
        else UnknownEvent(design.rows[0].eventName)
    ensures r.Ok? ==>
      && fresh(r.value) && r.value.Valid() && r.value.design == design
      && r.value.iStep == 0 && r.value.iPlayer == 0 && r.value.nPlayers == |names| && r.value.survivors == Upto(|names|)
      && r.value.crntEvent == Some(design.rows[0].eventName)
  {
    if initCash < 0.0 {
      return Err(NegativeCash);
    }
    if mood(initCash, 0.0) == 0.0 {
      return Err(ZeroStartHappiness);
    }
    if design.rows[0].eventName == "" {
      return Err(NoFirstEvent);
    }
    if design.rows[0].eventName !in design.catalog {
      return Err(UnknownEvent(design.rows[0].eventName));
    }
    var g := new Game(names, initCash, mood, design);
    r := Ok(g);
  }

  /** The Prosperville game engine. */
  class Game {
    const design: Design
    var iTurn: int
    var iStage: int
    /** The player to move; -1 is the AI, as Python reads a negative index from the end. */
    var iPlayer: int
    var iStep: int
    /** `step_table['event_name']`: random draws write to it. */
    var eventName: seq<string>
    /** The human players, then the AI. */
    var players: seq<Player>
    const nPlayers: nat
    var rankedPlayers: seq<nat>
    /** `players_survived`, as indices into `players`. */
    var survivors: seq<int>
    var nSurvived: int
    var isEnd: bool
    var crntEvent: Option<string>
    var crntOptionAvailability: Option<seq<bool>>

    ghost predicate Valid()
      reads this`iStep, this`iTurn, this`iStage, this`iPlayer, this`eventName, this`players, this`survivors, this`nSurvived
    {
      && design.Valid()
      && 0 <= iStep < |design.rows| && iTurn == design.rows[iStep].turn && iStage == design.rows[iStep].stage
      && |eventName| == |design.rows|
      && |players| == nPlayers + 1 && -1 <= iPlayer < |players|
      && (forall i, j :: 0 <= i < j < |players| ==> players[i] != players[j])
      && (forall i :: 0 <= i < |players| ==> players[i].catalog == design.catalog)
      && Increasing(survivors) && (forall i :: 0 <= i < |survivors| ==> 0 <= survivors[i] < nPlayers)
      && nSurvived == |survivors|
    }


    /** Every human player strictly between positions `lo` and `hi` is bankrupt. */
    ghost predicate BankruptBetween(lo: int, hi: int)
      reads this`players, players`bankrupt
      requires nPlayers < |players|
    {
      forall m :: lo < m < hi && 0 <= m < nPlayers ==> players[m].bankrupt
    }

    /**
     * What `__progress_player` does from position `from`: the nearest human
     * player in that direction who is not bankrupt, every one passed over
     * bankrupt; no move when every one in that direction is bankrupt.
     */
    ghost predicate Progressed(from: int, to: int, back: bool)
      reads this`players, players`bankrupt
      requires nPlayers < |players|
    {
      if to == from then (if back then BankruptBetween(-1, from) else BankruptBetween(from, nPlayers))
      else
        && 0 <= to < nPlayers && !players[to].bankrupt
        && (if back then to < from && BankruptBetween(to, from) else from < to && BankruptBetween(from, to))
    }

    /** Each surviving player can run the current turn. */
    ghost predicate Ready()
      reads this, players
      requires Valid()
    {
      forall i :: 0 <= i < |survivors| ==> CanRun(players[survivors[i]].State(), design.firstPeriodOfTurn[iTurn])
    }

    /** The AI can run the current stage. */
    ghost predicate AiReady()
      reads this, players
      requires Valid()
    {
      StateReady(players[nPlayers].State(), design.firstPeriodOfTurn[design.firstTurnOfStage[iStage]])
    }

    /** `can_step_back`. */
    predicate CanStepBack()
      reads this
      requires Valid()
    {
      iPlayer > 0 || iStep != design.firstStepOfTurn[iTurn]
    }

    /**
     * `is_last_player`: nobody is last once nobody survives; otherwise the
     * player to move is the last survivor or the AI. The source compares the
     * player objects; the players are distinct, so comparing positions agrees.
     */
    predicate IsLastPlayer()
      reads this
      requires Valid()
      ensures IsLastPlayer() <==>
        nSurvived != 0 && (players[Slot(iPlayer, |players|)] == players[survivors[|survivors| - 1]] || players[Slot(iPlayer, |players|)] == players[|players| - 1])
    {
      nSurvived != 0 && (Slot(iPlayer, |players|) == survivors[|survivors| - 1] || Slot(iPlayer, |players|) == |players| - 1)
    }

    /** The event names of the steps of turns `t1..t2`. */
    function TurnNames(t1: int, t2: int): seq<string>
      reads this
      requires Valid() && 0 <= t1 < |design.firstStepOfTurn| && 0 <= t2 < |design.firstStepOfTurn|
    {
      var a, b := design.firstStepOfTurn[t1], design.lastStepOfTurn[t2] + 1;
      if a < b then eventName[a..b] else []
    }

    /** The turn being played. */
    function ThisTurn(): Turn
      reads this
      requires Valid()
    {
      Turn(design.catalog, design.objs, TurnNames(iTurn, iTurn), design.rows[iStep].periodFirst,
           design.firstPeriodOfTurn[iTurn], design.lastPeriodOfTurn[iTurn])
    }

    /** The search the AI runs for the current turn. */
    function AiSearch(ai: Player): Search
      reads this
      requires Valid()
    {
      var names := TurnNames(iTurn, iTurn);
      Search(design.catalog, design.objs, names, OptionEvents(design.catalog, names), design.rows[iStep].periodFirst,
             design.firstPeriodOfTurn[design.firstTurnOfStage[iStage]], design.lastPeriodOfTurn[design.lastTurnOfStage[iStage]],
             design.rows[design.lastStepOfStage[iStage]].periodLast, ai.scoreAdjRatio, ai.initCash, ai.mood)
    }

    /** After the turn's scoring, the last survivor has the move, or the AI when nobody survives. */
    ghost predicate LastSurvivorMoves()
      reads this`iPlayer, this`survivors
    {
      iPlayer == if |survivors| > 0 then survivors[|survivors| - 1] else -1
    }

    /**
     * Who moves at a step just entered: the AI at a random step or a step
     * without an event, else the first human player or, when that one is
     * bankrupt, the next solvent one.
     */
    ghost predicate Opened()
      reads this`iStep, this`eventName, this`iPlayer, this`players, players`bankrupt
    {
      && 0 <= iStep < |design.randomStep| && iStep < |eventName| && nPlayers < |players|
      && if design.randomStep[iStep] || eventName[iStep] == "" then iPlayer == -1
         else if players[0].bankrupt then Progressed(0, iPlayer, false)
         else iPlayer == 0
    }

    /**
     * What the scoring at the end of a turn leaves, the survivors having
     * been `before`: the survivors are those of `before` still solvent, and
     * the human players are ranked by score.
     */
    ghost predicate Scored(before: seq<int>)
      reads this`players, this`survivors, this`rankedPlayers, players`bankrupt, players`summary
    {
      nPlayers < |players| && Survived(before) && Standings(rankedPlayers, ScoresOf(players, nPlayers))
    }

    /** The survivors are those of `before` that are still solvent. */
    ghost predicate Survived(before: seq<int>)
      reads this`players, this`survivors, players`bankrupt
      requires nPlayers < |players|
    {
      forall j :: 0 <= j < nPlayers ==> (j in survivors <==> j in before && !players[j].bankrupt)
    }

    /**
     * What the end of a turn leaves, the survivors having been `before` and
     * the step `step`: the turn is scored, and the last survivor has the
     * move unless the game moved on to the next step.
     */
    ghost predicate TurnEnded(before: seq<int>, step: int)
      reads this`players, this`survivors, this`rankedPlayers, this`iStep, this`iPlayer, players`bankrupt, players`summary
    {
      Scored(before) && (iStep == step ==> LastSurvivorMoves())
    }

    /**
     * `Prosperville(player_names, init_cash)` when it succeeds: one player
     * per name and the AI last, all survivors, at the first step; the first
     * stage's first event, which is step 0's, is the current one, and the
     * first player sees the availability of its options.
     */
    constructor (names: seq<string>, initCash: real, mood: (real, real) -> real, design: Design)
      requires design.Valid() && design.EventsDefined() && ObjectsValid(design.objs) && initCash >= 0.0 && mood(initCash, 0.0) != 0.0
      requires design.rows[0].eventName != "" && design.rows[0].eventName in design.catalog
      ensures Valid()
      ensures this.design == design && iStep == 0 && iTurn == 0 && iStage == 0 && iPlayer == 0 && !isEnd
      ensures nPlayers == |names| && survivors == Upto(|names|) && rankedPlayers == Upto(|names|)
      ensures eventName == EventColumn(design.rows)
      ensures forall i :: 0 <= i < |players| ==> fresh(players[i]) && Initial(players[i], initCash, design.catalog)
      ensures forall i :: 0 <= i < |names| ==> players[i].name == names[i] && !players[i].isSystem
      ensures players[|names|].name == "AI" && players[|names|].isSystem
      ensures crntEvent == Some(design.rows[0].eventName)
      ensures crntOptionAvailability == Availability(design.catalog, map[], design.rows[0].eventName)
    {
      var firstEvent := design.rows[0].eventName;
      var ps, avail := NewPlayers(names, initCash, mood, design.catalog, firstEvent);
      this.design := design;
      iTurn, iStage, iPlayer, iStep := 0, 0, 0, 0;
      eventName := EventColumn(design.rows);
      players := ps;
      nPlayers := |names|;
      rankedPlayers := Upto(|names|);
      survivors := Upto(|names|);
      nSurvived := |names|;
      isEnd := false;
      crntEvent := Some(firstEvent);
      crntOptionAvailability := avail;
      new;
      UptoIncreasing(|names|);
    }

    /**
     * `__progress_player(back)`: the nearest human player in that direction
     * who is not bankrupt, skipping the bankrupt ones; no move when there is
     * none.
     */
    method ProgressPlayer(back: bool)
      requires Valid()
      modifies this`iPlayer
      ensures Valid()
      ensures iPlayer != old(iPlayer) ==> 0 <= iPlayer < nPlayers && !players[iPlayer].bankrupt
      ensures !back && iPlayer != old(iPlayer) ==> old(iPlayer) < iPlayer && BankruptBetween(old(iPlayer), iPlayer)
      ensures back && iPlayer != old(iPlayer) ==> iPlayer < old(iPlayer) && BankruptBetween(iPlayer, old(iPlayer))
      ensures !back && iPlayer == old(iPlayer) ==> BankruptBetween(old(iPlayer), nPlayers)
      ensures back && iPlayer == old(iPlayer) ==> BankruptBetween(-1, old(iPlayer))
      ensures Progressed(old(iPlayer), iPlayer, back)
    {
      var step := if back then -1 else 1;
      var i := iPlayer + step;
      while 0 <= i < nPlayers
        invariant iPlayer == old(iPlayer)
        invariant back ==> i < iPlayer && BankruptBetween(i, iPlayer)
        invariant !back ==> iPlayer < i <= nPlayers + 1 && BankruptBetween(iPlayer, i)
        decreases if back then i + 1 else nPlayers - i
      {
        if !players[i].bankrupt {
          iPlayer := i;
          break;
        }
        i := i + step;
      }
    }

    /** `___add_bkedobj_2_player(player, t1, t2)` for the events of turns `t1..t2`. */
    method AddBkedObj2Player(p: Player, t1: int, t2: int)
      requires Valid() && ObjectsValid(design.objs) && 0 <= t1 < |design.firstStepOfTurn| && 0 <= t2 < |design.firstStepOfTurn|
      modifies p
      ensures p.State() == AttachTo(old(p.State()), design.catalog, design.objs, TurnNames(t1, t2), design.rows[iStep].periodFirst)
    {
      AttachEvents(p, design.catalog, design.objs, TurnNames(t1, t2), design.rows[iStep].periodFirst);
    }

    /**
     * `__score_players`: every survivor plays the turn; those it bankrupts
     * leave the survivors, and the player to move becomes the last survivor,
     * or the AI when none is left.
     */
    method ScorePlayers()
      requires Valid() && ObjectsValid(design.objs) && Ready()
      modifies this`survivors, this`nSurvived, this`iPlayer, players
      ensures Valid() && players == old(players) && LastSurvivorMoves() && Survived(old(survivors))
      ensures players[nPlayers].State() == old(players[nPlayers].State())
    {
      var left := PlaySurvivors();
      KeepSurvivors(left, survivors);
    }

    /**
     * The survivors become `left`, the solvent ones of `before`, and the last
     * of them, or the AI when none is left, has the move.
     */
    method KeepSurvivors(left: seq<int>, ghost before: seq<int>)
      requires Valid() && Positions(left, nPlayers)
      requires forall j :: 0 <= j < nPlayers ==> (j in left <==> j in before && !players[j].bankrupt)
      modifies this`survivors, this`nSurvived, this`iPlayer
      ensures Valid() && survivors == left && LastSurvivorMoves() && Survived(before)
    {
      survivors, nSurvived, iPlayer := left, |left|, if |left| > 0 then left[|left| - 1] else -1;
    }

    /**
     * Every survivor plays the current turn (`ScoreSurvivors`); `left` is the
     * ones still solvent, in order, and the AI, never a survivor, is untouched.
     */
    method PlaySurvivors() returns (left: seq<int>)
      requires Valid() && ObjectsValid(design.objs) && Ready()
      modifies players
      ensures Positions(left, nPlayers) && Roster(players, survivors, old(StatesOf(players)), ThisTurn())
      ensures TurnScored(StatesOf(players), players, survivors, left, old(StatesOf(players)), ThisTurn())
      ensures players[nPlayers].State() == old(players[nPlayers].State())
      ensures forall j :: 0 <= j < nPlayers ==> (j in left <==> j in survivors && !players[j].bankrupt)
    {
      var t := ThisTurn();
      assert Roster(players, survivors, StatesOf(players), t);
      left := ScoreSurvivors(players, survivors, t);
      forall i | 0 <= i < |left|
        ensures 0 <= left[i] < nPlayers
      {
        assert left[i] in survivors;
      }
      assert nPlayers !in survivors && StatesOf(players)[nPlayers] == players[nPlayers].State();
    }

    /**
     * `__rank_players`: every human player's index once, the higher score
     * first and, on equal scores, the lower index first (Python's sort is
     * stable).
     */
    method RankPlayers() returns (r: seq<nat>)
      requires Valid()
      ensures Standings(r, ScoresOf(players, nPlayers))
    {
      var scores: seq<real> := [];
      for i := 0 to nPlayers
        invariant |scores| == i && forall j :: 0 <= j < i ==> scores[j] == players[j].summary.score
      {
        scores := scores + [players[i].summary.score];
      }
      r := Ranked(scores, nPlayers);
      RankedIsStableSort(scores, nPlayers);
      assert scores == ScoresOf(players, nPlayers);
    }

    /** `__draw_random_event`: on a random step, the drawn event of the stage's list becomes the step's event. */
    method DrawRandomEvent(draw: int)
      requires Valid() && design.DrawOk(draw)
      modifies this`eventName
      ensures Valid()
      ensures Ctl() == old(Ctl()) && StatesOf(players) == old(StatesOf(players))
      ensures players == old(players) && survivors == old(survivors)
      ensures rankedPlayers == old(rankedPlayers) && nSurvived == old(nSurvived)
      ensures old(Opened()) ==> Opened()
      ensures eventName == if design.randomStep[iStep] then old(eventName)[iStep := design.randomEvents[iStage][draw]] else old(eventName)
      ensures forall from :: old(Progressed(from, iPlayer, false)) ==> Progressed(from, iPlayer, false)
      ensures forall before, step :: old(TurnEnded(before, step)) ==> TurnEnded(before, step)
    {
      if design.randomStep[iStep] {
        eventName := eventName[iStep := design.randomEvents[iStage][draw]];
      }
    }

    /**
     * `__update_crnt_objs`: draws on a random step, then the step's event
     * becomes the current one and the player to move reports its options'
     * availability; a step without an event clears both.
     */
    method UpdateCrntObjs(draw: int)
      requires Valid() && design.DrawOk(draw)
      modifies this`eventName, this`crntEvent, this`crntOptionAvailability, players`available
      ensures Valid()
      ensures Ctl() == old(Ctl())
      ensures players == old(players) && survivors == old(survivors)
      ensures rankedPlayers == old(rankedPlayers) && nSurvived == old(nSurvived)
      ensures eventName == if design.randomStep[iStep] then old(eventName)[iStep := design.randomEvents[iStage][draw]] else old(eventName)
      ensures crntEvent == if eventName[iStep] != "" then Some(eventName[iStep]) else None
      ensures ShowsEvent(design.catalog, old(StatesOf(players))[Slot(iPlayer, |players|)].available, players[Slot(iPlayer, |players|)].available, eventName[iStep], crntOptionAvailability)
      ensures OnlyCacheChanged(players[Slot(iPlayer, |players|)], old(players[Slot(iPlayer, |players|)].State()))
      ensures StatesBut(players, old(StatesOf(players)), Slot(iPlayer, |players|))
      ensures old(Opened()) ==> Opened()
      ensures forall from :: old(Progressed(from, iPlayer, false)) ==> Progressed(from, iPlayer, false)
      ensures forall before, step :: old(TurnEnded(before, step)) ==> TurnEnded(before, step)
    {
      DrawRandomEvent(draw);
      ShowCurrent();
    }

    /** The step's event becomes the current one, and the player to move reports its options' availability. */
    method ShowCurrent()
      requires Valid()
      modifies this`crntEvent, this`crntOptionAvailability, players`available
      ensures Valid()
      ensures Ctl() == old(Ctl())
      ensures players == old(players) && survivors == old(survivors)
      ensures rankedPlayers == old(rankedPlayers) && nSurvived == old(nSurvived)
      ensures old(Opened()) ==> Opened()
      ensures crntEvent == if eventName[iStep] != "" then Some(eventName[iStep]) else None
      ensures ShowsEvent(design.catalog, old(players[Slot(iPlayer, |players|)].available), players[Slot(iPlayer, |players|)].available, eventName[iStep], crntOptionAvailability)
      ensures OnlyCacheChanged(players[Slot(iPlayer, |players|)], old(players[Slot(iPlayer, |players|)].State()))
      ensures StatesBut(players, old(StatesOf(players)), Slot(iPlayer, |players|))
      ensures forall from :: old(Progressed(from, iPlayer, false)) ==> Progressed(from, iPlayer, false)
      ensures forall before, step :: old(TurnEnded(before, step)) ==> TurnEnded(before, step)
    {
      SetEvent(eventName[iStep]);
      Report(eventName[iStep]);
    }

    /** Event `name` becomes the current one, none for a step without an event. */
    method SetEvent(name: string)
      requires nPlayers < |players|
      modifies this`crntEvent
      ensures Ctl() == old(Ctl())
      ensures crntEvent == if name != "" then Some(name) else None
      ensures forall from :: old(Progressed(from, iPlayer, false)) ==> Progressed(from, iPlayer, false)
      ensures forall before :: old(Scored(before)) ==> Scored(before)
      ensures old(LastSurvivorMoves()) ==> LastSurvivorMoves()
    {
      crntEvent := if name != "" then Some(name) else None;
    }

    /** The player to move reports the availability of the options of event `name`, which is the one shown. */
    method Report(name: string)
      requires nPlayers < |players| && -1 <= iPlayer < |players|
      requires forall i, j :: 0 <= i < j < |players| ==> players[i] != players[j]
      modifies this`crntOptionAvailability, players`available
      ensures Ctl() == old(Ctl())
      ensures ShowsEvent(players[Slot(iPlayer, |players|)].catalog, old(players[Slot(iPlayer, |players|)].available), players[Slot(iPlayer, |players|)].available, name, crntOptionAvailability)
      ensures OnlyCacheChanged(players[Slot(iPlayer, |players|)], old(players[Slot(iPlayer, |players|)].State()))
      ensures StatesBut(players, old(StatesOf(players)), Slot(iPlayer, |players|))
      ensures forall from :: old(Progressed(from, iPlayer, false)) ==> Progressed(from, iPlayer, false)
      ensures forall before :: old(Scored(before)) ==> Scored(before)
      ensures old(LastSurvivorMoves()) ==> LastSurvivorMoves()
    {
      crntOptionAvailability := ShowEvent(players[Slot(iPlayer, |players|)], name);
    }

    /** The search is well posed for the AI at the current step. */
    lemma AiSearchOk()
      requires Valid() && ObjectsValid(design.objs) && AiReady()
      ensures SearchFor(players[nPlayers], AiSearch(players[nPlayers]))
    {
    }

    /** `__simulate_for_ai`: the AI's place holds the player `RunAi` leaves, in the state `AiOutcome` gives. */
    method SimulateForAi()
      requires Valid() && ObjectsValid(design.objs) && AiReady()
      modifies this`players, players[nPlayers]
      ensures Valid() && |players| == |old(players)| && players[..nPlayers] == old(players[..nPlayers])
      ensures forall s :: s == old(AiSearch(players[nPlayers])) ==>
        players[nPlayers].State() == AiOutcome(old(players[nPlayers].State()), s)
      ensures forall i :: 0 <= i < |players| ==> players[i] in old(players) || fresh(players[i])
      ensures forall before :: old(Scored(before)) ==> Scored(before)
    {
      ghost var ps := players;
      var next := AiSuccessor();
      players := players[nPlayers := next];
      assert forall i :: 0 <= i < nPlayers ==> players[i] == ps[i];
    }

    /** The player that takes the AI's place: the AI itself or a copy of it, in the state `AiOutcome` gives. */
    method AiSuccessor() returns (next: Player)
      requires Valid() && ObjectsValid(design.objs) && AiReady()
      modifies players[nPlayers]
      ensures forall s :: s == old(AiSearch(players[nPlayers])) ==>
        next.State() == AiOutcome(old(players[nPlayers].State()), s)
      ensures next == players[nPlayers] || (fresh(next) && next.catalog == design.catalog)
    {
      var ai := players[nPlayers];
      AiSearchOk();
      next := RunAi(ai, AiSearch(ai));
    }

    /**
     * The end of a turn in `next`, run by the turn's last player: the turn
     * is scored (`EndTurn`), then the game ends or moves on as `MoveOn`
     * says, the survivors' last one having the move.
     */
    method FinishTurn()
      requires Valid() && ObjectsValid(design.objs) && Ready() && AiReady() && IsLastPlayer()
      requires iStep == design.lastStepOfTurn[iTurn]
      modifies this, players
      ensures Valid() && NextMove(design, old(Ctl()), Ctl(), true)
      ensures forall i :: 0 <= i < |players| ==> players[i] in old(players) || fresh(players[i])
      ensures eventName == old(eventName)
      ensures TurnEnded(old(survivors), old(iStep)) && (iStep != old(iStep) ==> Opened())
    {
      EndTurn();
      MoveOn();
    }

    /**
     * The scoring at the end of a turn: the survivors play the turn
     * (`ScorePlayers`), the human players are ranked (`RankPlayers`), and
     * the AI makes its choices (`SimulateForAi`); the move passes to the
     * last survivor, so it is the last player unless nobody survives.
     */
    method EndTurn()
      requires Valid() && ObjectsValid(design.objs) && Ready() && AiReady()
      modifies this`survivors, this`nSurvived, this`iPlayer, this`rankedPlayers, this`players, players
      ensures Valid() && iStep == old(iStep) && isEnd == old(isEnd)
      ensures forall i :: 0 <= i < |players| ==> players[i] in old(players) || fresh(players[i])
      ensures LastSurvivorMoves() && (IsLastPlayer() <==> nSurvived != 0) && Scored(old(survivors))
    {
      ScoreAndRank();
      SimulateForAi();
    }

    /** `__score_players` then `__rank_players`; the AI is untouched and still ready for its search. */
    method ScoreAndRank()
      requires Valid() && ObjectsValid(design.objs) && Ready() && AiReady()
      modifies this`survivors, this`nSurvived, this`iPlayer, this`rankedPlayers, players
      ensures Valid() && players == old(players) && AiReady()
      ensures LastSurvivorMoves() && (IsLastPlayer() <==> nSurvived != 0) && Scored(old(survivors))
    {
      ScorePlayers();
      Rank();
    }

    /** `ranked_players = __rank_players()`. */
    method Rank()
      requires Valid()
      modifies this`rankedPlayers
      ensures Standings(rankedPlayers, ScoresOf(players, nPlayers))
    {
      rankedPlayers := RankPlayers();
    }

    /**
     * The branch of `next` at the last step of a turn, once any scoring is
     * done: the game ends when nobody survives or at the game's last step;
     * else the last player of the turn moves on to the next step (the AI for
     * a random step or a step without an event, else the first solvent human),
     * and any other player hands the turn's first step to the next solvent
     * human.
     */
    method MoveOn()
      requires Valid() && iStep == design.lastStepOfTurn[iTurn]
      modifies this`iStep, this`iPlayer, this`isEnd, this`iStage, this`iTurn
      ensures Valid()
      ensures var ends := old(nSurvived == 0 || (iStep == design.LastStep() && (design.randomStep[iStep] || IsLastPlayer())));
        && isEnd == (old(isEnd) || ends)
        && (ends ==> iStep == old(iStep) && iPlayer == old(iPlayer))
        && (!ends && old(IsLastPlayer()) ==> iStep == old(iStep) + 1 && Opened())
        && (!ends && !old(IsLastPlayer()) ==>
              iStep == design.firstStepOfTurn[old(iTurn)] && Progressed(old(iPlayer), iPlayer, false))
      ensures !old(IsLastPlayer()) ==> NextMove(design, old(Ctl()), Ctl(), false)
      ensures old(LastSurvivorMoves() && (IsLastPlayer() <==> nSurvived != 0)) ==>
        && NextMove(design, old(Ctl()), Ctl(), true)
        && (iStep == old(iStep) ==> LastSurvivorMoves()) && (iStep != old(iStep) ==> Opened())
      ensures forall before :: old(Scored(before)) ==> Scored(before)
    {
      if nSurvived == 0 || (iStep == design.LastStep() && (design.randomStep[iStep] || IsLastPlayer())) {
        isEnd := true;
      } else if IsLastPlayer() {
        EnterNextStep();
      } else {
        ReplayTurn();
      }
    }

    /**
     * The last player ended a turn that is not the game's last: the next
     * step opens, played by the AI when it is random or has no event, and
     * otherwise by the first solvent human player.
     */
    method EnterNextStep()
      requires Valid() && iStep < design.LastStep()
      modifies this`iStep, this`iPlayer, this`iStage, this`iTurn
      ensures Valid() && iStep == old(iStep) + 1 && Opened()
    {
      iStep := iStep + 1;
      iStage, iTurn := design.rows[iStep].stage, design.rows[iStep].turn;
      if design.randomStep[iStep] || eventName[iStep] == "" {
        iPlayer := -1;
      } else {
        iPlayer := 0;
        if players[iPlayer].bankrupt {
          ProgressPlayer(false);
        }
      }
    }

    /**
     * A player who is not the last finished the turn: the move passes to
     * the next solvent player, who starts again at the turn's first step.
     */
    method ReplayTurn()
      requires Valid()
      modifies this`iStep, this`iPlayer, this`iStage, this`iTurn
      ensures Valid() && iStep == design.firstStepOfTurn[old(iTurn)]
      ensures Progressed(old(iPlayer), iPlayer, false)
    {
      ProgressPlayer(false);
      iStep := design.firstStepOfTurn[iTurn];
      iStage, iTurn := design.rows[iStep].stage, design.rows[iStep].turn;
    }

    /** The counters `next` and `back` move. */
    function Ctl(): Control
      reads this`iStep, this`iTurn, this`iPlayer, this`isEnd, this`nSurvived
    {
      Control(iStep, iTurn, iPlayer, isEnd, nSurvived)
    }

    /**
     * `next`: the counters move as `NextMove` says, then the step's event
     * and availability are refreshed, drawing `draw` on a random step. The
     * last player's move at the turn's last step ends the turn
     * (`NextEndingTurn`); any other move leaves every player's state but
     * the availability cache of the player to move (`NextInTurn`). `next`
     * does not look at `is_end`.
     */
    method Next(draw: int)
      requires Valid() && ObjectsValid(design.objs) && Ready() && AiReady() && design.DrawOk(draw)
      modifies this, players
      ensures Valid() && NextMove(design, old(Ctl()), Ctl(), old(IsLastPlayer()))
      ensures eventName == if design.randomStep[iStep] then old(eventName)[iStep := design.randomEvents[iStage][draw]] else old(eventName)
      ensures crntEvent == if eventName[iStep] != "" then Some(eventName[iStep]) else None
      ensures old(iStep == design.lastStepOfTurn[iTurn] && IsLastPlayer()) ==>
        TurnEnded(old(survivors), old(iStep)) && (iStep != old(iStep) ==> Opened())
      ensures !old(iStep == design.lastStepOfTurn[iTurn] && IsLastPlayer()) ==>
        && players == old(players) && survivors == old(survivors)
        && rankedPlayers == old(rankedPlayers) && nSurvived == old(nSurvived)
        && StatesBut(players, old(StatesOf(players)), Slot(iPlayer, |players|))
        && ShowsEvent(design.catalog, old(StatesOf(players))[Slot(iPlayer, |players|)].available, players[Slot(iPlayer, |players|)].available, eventName[iStep], crntOptionAvailability)
      ensures old(iStep == design.lastStepOfTurn[iTurn] && !IsLastPlayer() && nSurvived != 0 && !(iStep == design.LastStep() && design.randomStep[iStep])) ==>
        Progressed(old(iPlayer), iPlayer, false)
    {
      if iStep == design.lastStepOfTurn[iTurn] && IsLastPlayer() {
        NextEndingTurn(draw);
      } else {
        NextInTurn(draw);
      }
    }

    /**
     * `next` by the last player at the turn's last step: the turn ends
     * (`FinishTurn`), then the step's event and availability are refreshed.
     */
    method NextEndingTurn(draw: int)
      requires Valid() && ObjectsValid(design.objs) && Ready() && AiReady() && design.DrawOk(draw)
      requires iStep == design.lastStepOfTurn[iTurn] && IsLastPlayer()
      modifies this, players
      ensures Valid() && NextMove(design, old(Ctl()), Ctl(), old(IsLastPlayer()))
      ensures eventName == if design.randomStep[iStep] then old(eventName)[iStep := design.randomEvents[iStage][draw]] else old(eventName)
      ensures crntEvent == if eventName[iStep] != "" then Some(eventName[iStep]) else None
      ensures TurnEnded(old(survivors), old(iStep)) && (iStep != old(iStep) ==> Opened())
    {
      FinishTurn();
      UpdateCrntObjs(draw);
    }

    /**
     * Any other `next`: inside a turn the step moves on (`StepForward`); at
     * the turn's last step a player who is not the last passes the turn on
     * (`PassOn`). The ranking and the survivor count stay, and no player's
     * state changes but the availability cache of the player to move, which
     * now holds what it reports for the step's event.
     */
    method NextInTurn(draw: int)
      requires Valid() && design.DrawOk(draw) && !(iStep == design.lastStepOfTurn[iTurn] && IsLastPlayer())
      modifies this`iStep, this`iPlayer, this`isEnd, this`iStage, this`iTurn, this`eventName, this`crntEvent, this`crntOptionAvailability, players`available
      ensures Valid() && NextMove(design, old(Ctl()), Ctl(), old(IsLastPlayer()))
      ensures players == old(players) && survivors == old(survivors)
      ensures rankedPlayers == old(rankedPlayers) && nSurvived == old(nSurvived)
      ensures ShowsEvent(design.catalog, old(StatesOf(players))[Slot(iPlayer, |players|)].available, players[Slot(iPlayer, |players|)].available, eventName[iStep], crntOptionAvailability)
      ensures eventName == if design.randomStep[iStep] then old(eventName)[iStep := design.randomEvents[iStage][draw]] else old(eventName)
      ensures crntEvent == if eventName[iStep] != "" then Some(eventName[iStep]) else None
      ensures StatesBut(players, old(StatesOf(players)), Slot(iPlayer, |players|))
      ensures old(iStep == design.lastStepOfTurn[iTurn] && nSurvived != 0 && !(iStep == design.LastStep() && design.randomStep[iStep])) ==>
        Progressed(old(iPlayer), iPlayer, false)
    {
      if iStep == design.lastStepOfTurn[iTurn] {
        PassOn();
      } else {
        StepForward();
      }
      UpdateCrntObjs(draw);
    }

    /**
     * The counters' move in `next` at a turn's last step by a player who is
     * not the last: the turn passes to the next solvent player, unless the
     * game ends (`MoveOn`).
     */
    method PassOn()
      requires Valid() && iStep == design.lastStepOfTurn[iTurn] && !IsLastPlayer()
      modifies this`iStep, this`iPlayer, this`isEnd, this`iStage, this`iTurn
      ensures Valid() && NextMove(design, old(Ctl()), Ctl(), false)
      ensures players == old(players) && survivors == old(survivors) && eventName == old(eventName)
      ensures StatesOf(players) == old(StatesOf(players))
      ensures rankedPlayers == old(rankedPlayers) && nSurvived == old(nSurvived)
      ensures old(nSurvived != 0 && !(iStep == design.LastStep() && design.randomStep[iStep])) ==> Progressed(old(iPlayer), iPlayer, false)
    {
      MoveOn();
    }

    /** The step moves on inside the turn. */
    method StepForward()
      requires Valid() && iStep != design.lastStepOfTurn[iTurn]
      modifies this`iStep, this`iStage, this`iTurn
      ensures Valid() && Ctl() == old(Ctl()).(step := old(iStep) + 1)
      ensures players == old(players) && survivors == old(survivors) && eventName == old(eventName)
      ensures StatesOf(players) == old(StatesOf(players))
      ensures rankedPlayers == old(rankedPlayers) && nSurvived == old(nSurvived)
    {
      iStep := iStep + 1;
      iStage, iTurn := design.rows[iStep].stage, design.rows[iStep].turn;
    }

    /**
     * `back`: nothing when the game cannot step back; otherwise `StepBack`,
     * then the step's event and availability are refreshed, drawing `draw`
     * on a random step.
     */
    method Back(draw: int)
      requires Valid() && design.DrawOk(draw)
      modifies this`iStep, this`iStage, this`iTurn, this`iPlayer, this`eventName, this`crntEvent, this`crntOptionAvailability, players`available
      ensures Valid() && iTurn == old(iTurn) && players == old(players) && survivors == old(survivors)
      ensures StatesBut(players, old(StatesOf(players)), Slot(iPlayer, |players|))
      ensures !old(CanStepBack()) ==>
        && iStep == old(iStep) && iPlayer == old(iPlayer) && eventName == old(eventName)
        && crntEvent == old(crntEvent) && crntOptionAvailability == old(crntOptionAvailability)
        && StatesOf(players) == old(StatesOf(players))
      ensures old(CanStepBack() && iStep == design.firstStepOfTurn[iTurn]) ==>
        iStep == design.lastStepOfTurn[iTurn] && Progressed(old(iPlayer), iPlayer, true)
      ensures old(CanStepBack() && iStep != design.firstStepOfTurn[iTurn]) ==>
        iStep == old(iStep) - 1 && iPlayer == old(iPlayer)
      ensures old(CanStepBack()) ==>
        && eventName == (if design.randomStep[iStep] then old(eventName)[iStep := design.randomEvents[iStage][draw]] else old(eventName))
        && crntEvent == (if eventName[iStep] != "" then Some(eventName[iStep]) else None)
        && ShowsEvent(design.catalog, old(StatesOf(players))[Slot(iPlayer, |players|)].available, players[Slot(iPlayer, |players|)].available, eventName[iStep], crntOptionAvailability)
    {
      if !CanStepBack() {
        return;
      }
      ghost var sts := StatesOf(players);
      StepBack();
      assert StatesOf(players) == sts;
      UpdateCrntObjs(draw);
    }

    /**
     * The move of `back`: at the turn's first step the previous solvent human
     * takes the turn's last step, otherwise the step moves back by one; the
     * turn never changes.
     */
    method StepBack()
      requires Valid() && CanStepBack()
      modifies this`iStep, this`iStage, this`iTurn, this`iPlayer
      ensures Valid() && iTurn == old(iTurn)
      ensures old(iStep) == design.firstStepOfTurn[iTurn] ==>
        iStep == design.lastStepOfTurn[iTurn] && Progressed(old(iPlayer), iPlayer, true)
      ensures old(iStep) != design.firstStepOfTurn[iTurn] ==> iStep == old(iStep) - 1 && iPlayer == old(iPlayer)
    {
      if iStep == design.firstStepOfTurn[iTurn] {
        ProgressPlayer(true);
        iStep := design.lastStepOfTurn[iTurn];
      } else {
        iStep := iStep - 1;
      }
      iStage, iTurn := design.rows[iStep].stage, design.rows[iStep].turn;
    }
  }

  /** The step, turn and player counters of the game, its end flag and its number of survivors. */
  datatype Control = Control(step: int, turn: int, player: int, isEnd: bool, nSurvived: int)

  /**
   * How `next` moves the counters from `c` to `d`, `last` telling whether
   * the player to move was the turn's last: inside a turn only the step
   * moves on, in the same turn and with the same player; at the turn's last
   * step the last player's move ends the game when nobody survives the
   * turn's scoring or at the game's last step, and otherwise moves on to the
   * next step; any other player's move ends the game only when nobody
   * survives (or at a random last step), and otherwise returns to the turn's
   * first step for the next player.
   */
  predicate NextMove(design: Design, c: Control, d: Control, last: bool)
    requires design.Valid() && 0 <= c.turn < |design.lastStepOfTurn|
  {
    if c.step != design.lastStepOfTurn[c.turn] then
      d == c.(step := c.step + 1)
    else if last then
      var ends := d.nSurvived == 0 || c.step == design.LastStep();
      d.isEnd == (c.isEnd || ends) && d.step == (if ends then c.step else c.step + 1)
    else
      var ends := c.nSurvived == 0 || (c.step == design.LastStep() && design.randomStep[c.step]);
      && d.nSurvived == c.nSurvived && d.isEnd == (c.isEnd || ends)
      && (if ends then d.step == c.step && d.player == c.player
          else d.step == design.firstStepOfTurn[c.turn] && d.turn == c.turn)
  }

  /** The scores of the human players `0..n` of `players`, in order. */
  function ScoresOf(players: seq<Player>, n: nat): (r: seq<real>)
    reads players`summary
    requires n <= |players|
    ensures |r| == n && forall i :: 0 <= i < n ==> r[i] == players[i].summary.score
  {
    if n == 0 then [] else ScoresOf(players, n - 1) + [players[n - 1].summary.score]
  }

  /** `ranked` lists the indices of `scores` once each, the higher score first and, on equal scores, the lower index first. */
  predicate Standings(ranked: seq<nat>, scores: seq<real>) {
    multiset(ranked) == multiset(Upto(|scores|)) && RankedBy(scores, ranked)
  }

  /** The players are in the states `sts`, but that player `k` may have refreshed its availability cache. */
  ghost predicate StatesBut(players: seq<Player>, sts: seq<PlayerState>, k: int)
    reads players
  {
    && |players| == |sts|
    && forall j :: 0 <= j < |players| ==>
      OnlyCacheChanged(players[j], sts[j]) && (j != k ==> players[j].available == sts[j].available)
  }

  /** A player whose state is `st` but for the option-availability cache. */
  ghost predicate OnlyCacheChanged(p: Player, st: PlayerState)
    reads p
  {
    && p.choices == st.choices && p.selected == st.selected && p.table == st.table
    && p.summary == st.summary && p.bankrupt == st.bankrupt && p.bankruptPeriod == st.bankruptPeriod
  }

  /**
   * The last part of `__update_crnt_objs`: the player to move reports the
   * availability of the options of the step's event, or nothing when the
   * step has no event.
   */
  method ShowEvent(p: Player, e: string) returns (shown: Option<seq<bool>>)
    modifies p`available
    ensures ShowsEvent(p.catalog, old(p.available), p.available, e, shown)
    ensures OnlyCacheChanged(p, old(p.State()))
  {
    shown := None;
    if e != "" {
      shown := p.GetOptionAvailability(e);
    }
  }

  /**
   * What the player to move shows for event `e`: nothing for a step without
   * an event; otherwise the availability of its options, cached.
   */
  predicate ShowsEvent(catalog: Catalog, before: map<string, seq<bool>>, after: map<string, seq<bool>>, e: string, shown: Option<seq<bool>>) {
    if e == "" then shown == None && after == before
    else shown == Availability(catalog, before, e) && after == CacheAfter(catalog, before, e)
  }

  lemma {:induction false} UptoIncreasing(n: nat)
    ensures |Upto(n)| == n && forall i :: 0 <= i < n ==> Upto(n)[i] == i
  {
    if n > 0 {
      UptoIncreasing(n - 1);
    }
  }
}
