/**
 * The rest of backend/gameitems.py: the stage table by name with the
 * random-event probabilities of every stage, and the backend objects of
 * every event and option, by name.
 */
module GameObjects {
  import opened Wrappers
  import opened Money
  import opened Instruments
  import opened Backend
  import opened GameItems

  // ------------------------------------------------- Random-event odds

  const UnknownRandomEvent := "Random event name is not defined in the event definitions"
  const NotIterable := "TypeError: 'NoneType' object is not iterable"
  const ZeroTotalWeight := "ZeroDivisionError: float division by zero"

  /** `[c/total for c in weights]`, element by element. */
  function Normalise(weights: seq<real>, total: real): (r: seq<real>)
    requires total != 0.0
    ensures |r| == |weights|
  {
    if |weights| == 0 then []
    else Normalise(weights[..|weights| - 1], total) + [weights[|weights| - 1] / total]
  }

  /** Every random event of the stage names a defined event. */
  predicate RandomEventsKnown(names: seq<string>, events: set<string>) {
    forall i :: 0 <= i < |names| ==> names[i] in events
  }

  /**
   * The odds of a stage with random turns: each weight over their sum; no
   * entry for a stage without random turns. Err where the module raises:
   * an unknown random event, a missing list, or weights summing to zero.
   */
  function StageOdds(s: StageDef, events: set<string>): Result<Option<seq<real>>> {
    if s.nRandomTurns == 0 then Ok(None)
    else if s.randomEvents.None? then Err(NotIterable)
    else if !RandomEventsKnown(s.randomEvents.value, events) then Err(UnknownRandomEvent)
    else if s.weights.None? then Err(NotIterable)
    else if |s.weights.value| == 0 then Ok(Some([]))
    else if Sum(s.weights.value) == 0.0 then Err(ZeroTotalWeight)
    else Ok(Some(Normalise(s.weights.value, Sum(s.weights.value))))
  }

  /** `dict_stages` (stage index by name) and each stage's `rnd_evt_prob`. */
  datatype StageTables = StageTables(byName: map<string, nat>, odds: seq<Option<seq<real>>>)

  /** The stage loop from stage `k` on; the first error ends it. */
  function StageTablesFrom(stages: seq<StageDef>, events: set<string>, k: nat, t: StageTables): Result<StageTables>
    requires k <= |stages|
    decreases |stages| - k
  {
    if k == |stages| then Ok(t)
    else
      var odds :- StageOdds(stages[k], events);
      StageTablesFrom(stages, events, k + 1, StageTables(t.byName[stages[k].name := k], t.odds + [odds]))
  }

  function StageTablesOf(stages: seq<StageDef>, events: set<string>): Result<StageTables> {
    StageTablesFrom(stages, events, 0, StageTables(map[], []))
  }

  /** The loop over the stages (backend/gameitems.py:127-139). */
  method IndexStages(stages: seq<StageDef>, events: set<string>) returns (r: Result<StageTables>)
    ensures r == StageTablesOf(stages, events)
  {
    var byName: map<string, nat> := map[];
    var odds: seq<Option<seq<real>>> := [];
    var k := 0;
    while k < |stages|
      invariant 0 <= k <= |stages|
      invariant StageTablesFrom(stages, events, k, StageTables(byName, odds)) == StageTablesOf(stages, events)
    {
      var s := stages[k];
      byName := byName[s.name := k];
      var o := StageOdds(s, events);
      if o.Err? {
        return Err(o.msg);
      }
      odds := odds + [o.value];
      k := k + 1;
    }
    r := Ok(StageTables(byName, odds));
  }

  lemma {:induction false} SumNormalise(weights: seq<real>, total: real)
    requires total != 0.0
    ensures Sum(Normalise(weights, total)) == Sum(weights) / total
  {
    if |weights| > 0 {
      var init, x := weights[..|weights| - 1], weights[|weights| - 1];
      var front := Normalise(init, total);
      SumNormalise(init, total);
      assert Normalise(weights, total) == front + [x / total];
      SumAppend(front, x / total);
      DivAdd(Sum(init), x, total);
    }
  }

  lemma DivAdd(a: real, x: real, t: real)
    requires t != 0.0
    ensures a / t + x / t == (a + x) / t
  {
  }

  /** Each probability is its weight's share of the total. */
  lemma {:induction false} NormaliseAt(weights: seq<real>, total: real)
    requires total != 0.0
    ensures forall i :: 0 <= i < |weights| ==> Normalise(weights, total)[i] * total == weights[i]
  {
    if |weights| > 0 {
      NormaliseAt(weights[..|weights| - 1], total);
    }
  }

  /**
   * A stage's odds are its weights over their sum, one per random event,
   * and they add up to 1.
   */
  lemma StageOddsAreProbabilities(s: StageDef, events: set<string>)
    requires StageOdds(s, events).Ok? && StageOdds(s, events).value.Some?
    ensures var p := StageOdds(s, events).value.value;
      && s.nRandomTurns != 0 && s.weights.Some? && |p| == |s.weights.value|
      && (|p| > 0 ==> Sum(p) == 1.0)
      && forall i :: 0 <= i < |p| ==> p[i] * Sum(s.weights.value) == s.weights.value[i]
  {
    var w := s.weights.value;
    if |w| > 0 {
      var total := Sum(w);
      SumNormalise(w, total);
      NormaliseAt(w, total);
      assert total / total == 1.0;
    }
  }

  /** What the odds computation demands of a stage. */
  predicate OddsDefined(s: StageDef, events: set<string>) {
    s.nRandomTurns != 0 ==>
      && s.randomEvents.Some? && RandomEventsKnown(s.randomEvents.value, events)
      && s.weights.Some? && (|s.weights.value| > 0 ==> Sum(s.weights.value) != 0.0)
  }

  /** The rest of the stage loop succeeds iff every remaining stage's odds are defined. */
  lemma {:induction false} StageTablesFromOk(stages: seq<StageDef>, events: set<string>, k: nat, t: StageTables)
    requires k <= |stages|
    ensures StageTablesFrom(stages, events, k, t).Ok? <==> forall i :: k <= i < |stages| ==> OddsDefined(stages[i], events)
    decreases |stages| - k
  {
    if k < |stages| {
      var o := StageOdds(stages[k], events);
      if o.Ok? {
        StageTablesFromOk(stages, events, k + 1, StageTables(t.byName[stages[k].name := k], t.odds + [o.value]));
      }
    }
  }

  /** Every stage gets its own odds entry, in order. */
  lemma {:induction false} StageTablesFromOdds(stages: seq<StageDef>, events: set<string>, k: nat, t: StageTables)
    requires k <= |stages| && |t.odds| == k && StageTablesFrom(stages, events, k, t).Ok?
    ensures var r := StageTablesFrom(stages, events, k, t).value;
      && |r.odds| == |stages| && r.odds[..k] == t.odds
      && forall i :: k <= i < |stages| ==> Ok(r.odds[i]) == StageOdds(stages[i], events)
    decreases |stages| - k
  {
    if k < |stages| {
      var o := StageOdds(stages[k], events);
      var t' := StageTables(t.byName[stages[k].name := k], t.odds + [o.value]);
      StageTablesFromOdds(stages, events, k + 1, t');
      var r := StageTablesFrom(stages, events, k + 1, t').value;
      assert r.odds[..k] == r.odds[..k + 1][..k];
    }
  }

  /** Each name maps to a stage of that name, and no later stage bears it. */
  predicate NamesLastWins(stages: seq<StageDef>, byName: map<string, nat>, k: int)
    requires 0 <= k <= |stages|
  {
    && (forall nm :: nm in byName ==> byName[nm] < k && stages[byName[nm]].name == nm)
    && (forall j :: 0 <= j < k ==> stages[j].name in byName && byName[stages[j].name] >= j)
  }

  lemma {:induction false} StageTablesFromNames(stages: seq<StageDef>, events: set<string>, k: nat, t: StageTables)
    requires k <= |stages| && NamesLastWins(stages, t.byName, k) && StageTablesFrom(stages, events, k, t).Ok?
    ensures NamesLastWins(stages, StageTablesFrom(stages, events, k, t).value.byName, |stages|)
    decreases |stages| - k
  {
    if k < |stages| {
      var o := StageOdds(stages[k], events);
      var t' := StageTables(t.byName[stages[k].name := k], t.odds + [o.value]);
      assert NamesLastWins(stages, t'.byName, k + 1);
      StageTablesFromNames(stages, events, k + 1, t');
    }
  }

  /**
   * The stage tables build iff every stage's odds are defined; then every
   * stage has its odds entry, and each name maps to the last stage of that
   * name (`dict_stages[name] = stage` overwrites).
   */
  lemma StageTablesOk(stages: seq<StageDef>, events: set<string>)
    ensures var r := StageTablesOf(stages, events);
      && (r.Ok? <==> forall i :: 0 <= i < |stages| ==> OddsDefined(stages[i], events))
      && (r.Ok? ==>
        && |r.value.odds| == |stages|
        && (forall i :: 0 <= i < |stages| ==> Ok(r.value.odds[i]) == StageOdds(stages[i], events))
        && NamesLastWins(stages, r.value.byName, |stages|))
  {
    var t := StageTables(map[], []);
    StageTablesFromOk(stages, events, 0, t);
    if StageTablesOf(stages, events).Ok? {
      StageTablesFromOdds(stages, events, 0, t);
      StageTablesFromNames(stages, events, 0, t);
    }
  }

  // ---------------------------------------------------- Backend objects

  const NotDictOrList := "Backend object type can only be dict or list"
  const SharedName := "Event or option name is shared with another object"

  /** An event's or option's `backend`: absent, one definition, a list of them, or anything else. */
  datatype BackendSpec = NoBackend | OneDef(def: BackendDef) | DefList(defs: seq<BackendDef>) | OtherSpec

  datatype OptionDef = OptionDef(name: string, backend: BackendSpec)

  datatype EventDef = EventDef(name: string, backend: BackendSpec, options: Option<seq<OptionDef>>)

  /** The definitions of a backend spec. */
  function SpecDefs(spec: BackendSpec): seq<BackendDef> {
    match spec
    case OneDef(d) => [d]
    case DefList(ds) => ds
    case _ => []
  }

  predicate SpecConstructible(spec: BackendSpec) {
    forall i :: 0 <= i < |SpecDefs(spec)| ==> Constructible(SpecDefs(spec)[i])
  }

  /** The values of a list of results, in order; the first error is the list's error. */
  function Collect<T>(rs: seq<Result<T>>): Result<seq<T>> {
    if |rs| == 0 then Ok([])
    else
      var front :- Collect(rs[..|rs| - 1]);
      var x :- rs[|rs| - 1];
      Ok(front + [x])
  }

  lemma {:induction false} CollectOk<T>(rs: seq<Result<T>>)
    ensures Collect(rs).Ok? <==> forall i :: 0 <= i < |rs| ==> rs[i].Ok?
  {
    if |rs| > 0 {
      var init := rs[..|rs| - 1];
      CollectOk(init);
      assert forall i :: 0 <= i < |init| ==> init[i] == rs[i];
    }
  }

  lemma {:induction false} CollectValues<T>(rs: seq<Result<T>>, xs: seq<T>)
    requires Collect(rs) == Ok(xs)
    ensures |xs| == |rs|
    ensures forall i :: 0 <= i < |rs| ==> rs[i] == Ok(xs[i])
  {
    if |rs| > 0 {
      var init := rs[..|rs| - 1];
      var front := Collect(init).value;
      CollectValues(init, front);
      assert xs == front + [xs[|xs| - 1]];
      assert forall i :: 0 <= i < |init| ==> init[i] == rs[i];
    }
  }

  /** Once a prefix fails, the whole list fails with the same error. */
  lemma {:induction false} CollectFailureStays<T>(rs: seq<Result<T>>, k: nat)
    requires k <= |rs| && Collect(rs[..k]).Err?
    ensures Collect(rs) == Err(Collect(rs[..k]).msg)
    decreases |rs| - k
  {
    if k < |rs| {
      assert rs[..k + 1][..k] == rs[..k];
      CollectFailureStays(rs, k + 1);
    }
    else {
      assert rs[..k] == rs;
    }
  }

  /** What each definition builds. */
  function Built(defs: seq<BackendDef>): seq<Result<Instrument>>
    requires forall i :: 0 <= i < |defs| ==> Constructible(defs[i])
  {
    seq(|defs|, i requires 0 <= i < |defs| => InstrumentFromDef(defs[i]))
  }

  /** The objects of a list of definitions, in order; the first failing one fails the list. */
  function InstrumentsOf(defs: seq<BackendDef>): Result<seq<Instrument>>
    requires forall i :: 0 <= i < |defs| ==> Constructible(defs[i])
  {
    Collect(Built(defs))
  }

  /** The loop of `__instantiate_backend_objects` over one spec's definitions (backend/gameitems.py:158-163). */
  method Instantiate(defs: seq<BackendDef>) returns (r: Result<seq<Instrument>>)
    requires forall i :: 0 <= i < |defs| ==> Constructible(defs[i])
    ensures r == InstrumentsOf(defs)
  {
    ghost var rs := Built(defs);
    var objs: seq<Instrument> := [];
    var k := 0;
    while k < |defs|
      invariant 0 <= k <= |defs|
      invariant Collect(rs[..k]) == Ok(objs)
    {
      assert rs[..k + 1][..k] == rs[..k];
      var x := InstrumentFromDef(defs[k]);
      assert rs[k] == x;
      if x.Err? {
        CollectFailureStays(rs, k + 1);
        return Err(x.msg);
      }
      objs := objs + [x.value];
      k := k + 1;
    }
    assert rs[..k] == rs;
    r := Ok(objs);
  }

  /** A list that builds holds, at each position, the object that position's definition builds. */
  lemma InstrumentsOfAt(defs: seq<BackendDef>, xs: seq<Instrument>, i: int)
    requires forall i :: 0 <= i < |defs| ==> Constructible(defs[i])
    requires InstrumentsOf(defs) == Ok(xs) && 0 <= i < |defs|
    ensures |xs| == |defs| && InstrumentFromDef(defs[i]) == Ok(xs[i])
  {
    CollectValues(Built(defs), xs);
    assert Built(defs)[i] == Ok(xs[i]);
  }

  /** One definition that fails, an unknown type among them, fails the whole list. */
  lemma InstrumentsOfFailsOn(defs: seq<BackendDef>, i: int)
    requires forall i :: 0 <= i < |defs| ==> Constructible(defs[i])
    requires 0 <= i < |defs|
    requires InstrumentFromDef(defs[i]).Err? || defs[i].kind !in {"loan", "salary", "asset", "expense", "har"}
    ensures InstrumentsOf(defs).Err?
  {
    InstrumentFromDefBuilds(defs[i]);
    CollectOk(Built(defs));
    assert !Built(defs)[i].Ok?;
  }

  /** A list whose every definition builds, builds. */
  lemma InstrumentsOfBuilds(defs: seq<BackendDef>)
    requires forall i :: 0 <= i < |defs| ==> Constructible(defs[i])
    requires forall i :: 0 <= i < |defs| ==> InstrumentFromDef(defs[i]).Ok?
    ensures InstrumentsOf(defs).Ok?
  {
    CollectOk(Built(defs));
  }

  /**
   * What `__instantiate_backend_objects` makes of one spec: nothing for an
   * absent spec, the objects of a dict or list, an error for anything else
   * or for a definition that fails.
   */
  function SpecObjects(spec: BackendSpec): (r: Result<Option<seq<Instrument>>>)
    requires SpecConstructible(spec)
    ensures r.Ok? <==> !spec.OtherSpec? && (spec.NoBackend? || InstrumentsOf(SpecDefs(spec)).Ok?)
    ensures r == Ok(None) <==> spec.NoBackend?
    ensures r.Ok? && r.value.Some? ==> Ok(r.value.value) == InstrumentsOf(SpecDefs(spec))
  {
    match spec
    case NoBackend => Ok(None)
    case OtherSpec => Err(NotDictOrList)
    case _ =>
      var xs :- InstrumentsOf(SpecDefs(spec));
      Ok(Some(xs))
  }

  /** A name and what its spec makes, ready to be stored. */
  datatype Slot<T> = Slot(name: string, objs: Result<Option<seq<T>>>)

  /** A slot that stores objects under its name. */
  predicate Adds<T>(s: Slot<T>) {
    s.objs.Ok? && s.objs.value.Some?
  }

  /** One name checked, then stored: a name already taken raises before the spec is looked at. */
  function AddSlot<T>(objs: map<string, seq<T>>, s: Slot<T>): Result<map<string, seq<T>>> {
    if s.name in objs then Err(SharedName)
    else
      var o :- s.objs;
      if o.None? then Ok(objs) else Ok(objs[s.name := o.value])
  }

  /** The slots stored one after another; the first error ends it. */
  function AddAll<T>(objs: map<string, seq<T>>, ss: seq<Slot<T>>): Result<map<string, seq<T>>>
    decreases |ss|
  {
    if |ss| == 0 then Ok(objs)
    else
      var m :- AddSlot(objs, ss[0]);
      AddAll(m, ss[1..])
  }

  /** An event's name and spec, when it has a backend, then each of its options'. */
  datatype Entry = Entry(name: string, spec: BackendSpec)

  function OptionEntries(options: seq<OptionDef>): (r: seq<Entry>)
    ensures |r| == |options|
    ensures forall i :: 0 <= i < |options| ==> r[i] == Entry(options[i].name, options[i].backend)
  {
    if |options| == 0 then [] else OptionEntries(options[..|options| - 1]) + [Entry(options[|options| - 1].name, options[|options| - 1].backend)]
  }

  /** What one event contributes, in the order the module processes it. */
  function EventEntries(e: EventDef): seq<Entry> {
    (if e.backend.NoBackend? then [] else [Entry(e.name, e.backend)])
    + (if e.options.Some? then OptionEntries(e.options.value) else [])
  }

  /** The entries of all events, in order. */
  function Entries(events: seq<EventDef>): seq<Entry> {
    if |events| == 0 then [] else Entries(events[..|events| - 1]) + EventEntries(events[|events| - 1])
  }

  predicate EntriesConstructible(es: seq<Entry>) {
    forall i :: 0 <= i < |es| ==> SpecConstructible(es[i].spec)
  }

  function Slots(es: seq<Entry>): (r: seq<Slot<Instrument>>)
    requires EntriesConstructible(es)
    ensures |r| == |es|
  {
    seq(|es|, i requires 0 <= i < |es| => Slot(es[i].name, SpecObjects(es[i].spec)))
  }

  /** `pvBkEndObj_by_name`: the objects of every event and option, by name. */
  function ObjectsByNameOf(events: seq<EventDef>): Result<map<string, seq<Instrument>>>
    requires EntriesConstructible(Entries(events))
  {
    AddAll(map[], Slots(Entries(events)))
  }

  /**
   * The loops over events and their options (backend/gameitems.py:166-175):
   * each entry's name is checked, then its spec instantiated and stored.
   */
  method BuildObjectsByName(events: seq<EventDef>) returns (r: Result<map<string, seq<Instrument>>>)
    requires EntriesConstructible(Entries(events))
    ensures r == ObjectsByNameOf(events)
  {
    var es := Entries(events);
    ghost var ss := Slots(es);
    var objs: map<string, seq<Instrument>> := map[];
    var k := 0;
    while k < |es|
      invariant 0 <= k <= |es|
      invariant AddAll(objs, ss[k..]) == ObjectsByNameOf(events)
    {
      assert ss[k..][1..] == ss[k + 1..];
      assert ss[k] == Slot(es[k].name, SpecObjects(es[k].spec));
      var e := es[k];
      if e.name in objs {
        return Err(SharedName);
      }
      match e.spec {
        case NoBackend =>
        case OtherSpec =>
          return Err(NotDictOrList);
        case _ =>
          var xs := Instantiate(SpecDefs(e.spec));
          if xs.Err? {
            return Err(xs.msg);
          }
          objs := objs[e.name := xs.value];
      }
      k := k + 1;
    }
    r := Ok(objs);
  }

  /** The names the slots store objects under. */
  function AddedNames<T>(ss: seq<Slot<T>>): (r: set<string>)
    ensures forall k :: 0 <= k < |ss| && Adds(ss[k]) ==> ss[k].name in r
  {
    if |ss| == 0 then {}
    else (if Adds(ss[0]) then {ss[0].name} else {}) + AddedNames(ss[1..])
  }

  /**
   * Slot `k` goes in: its name is not taken, before the run or by an
   * earlier slot with objects, and its spec made something.
   */
  predicate SlotFits<T>(objs: map<string, seq<T>>, ss: seq<Slot<T>>, k: int)
    requires 0 <= k < |ss|
  {
    ss[k].name !in objs && ss[k].name !in AddedNames(ss[..k]) && ss[k].objs.Ok?
  }

  lemma AddedNamesCons<T>(ss: seq<Slot<T>>, k: int)
    requires 0 <= k < |ss|
    ensures AddedNames(ss[..k + 1]) == AddedNames([ss[0]]) + AddedNames(ss[1..][..k])
  {
    assert ss[..k + 1][1..] == ss[1..][..k];
    assert [ss[0]][1..] == [];
  }

  /** The slots go in exactly when each of them fits, in order. */
  lemma {:induction false} AddAllOk<T>(objs: map<string, seq<T>>, ss: seq<Slot<T>>)
    ensures AddAll(objs, ss).Ok? <==> forall k :: 0 <= k < |ss| ==> SlotFits(objs, ss, k)
    decreases |ss|
  {
    if |ss| > 0 {
      var rest := ss[1..];
      assert AddedNames(ss[..0]) == {};
      assert SlotFits(objs, ss, 0) <==> AddSlot(objs, ss[0]).Ok?;
      if AddSlot(objs, ss[0]).Ok? {
        var m := AddSlot(objs, ss[0]).value;
        assert m.Keys == objs.Keys + AddedNames([ss[0]]);
        AddAllOk(m, rest);
        forall k | 0 <= k < |rest|
          ensures SlotFits(m, rest, k) == SlotFits(objs, ss, k + 1)
        {
          AddedNamesCons(ss, k);
          assert rest[k] == ss[k + 1];
        }
        if forall k :: 0 <= k < |ss| ==> SlotFits(objs, ss, k) {
          forall k | 0 <= k < |rest|
            ensures SlotFits(m, rest, k)
          {
            assert SlotFits(objs, ss, k + 1);
          }
        }
        else {
          var k :| 0 <= k < |ss| && !SlotFits(objs, ss, k);
          assert k > 0;
          assert !SlotFits(m, rest, k - 1);
        }
      }
    }
  }

  /** What the slots store: the names of those with objects, beside what was there, each name under its objects. */
  lemma {:induction false} AddAllStores<T>(objs: map<string, seq<T>>, ss: seq<Slot<T>>, m: map<string, seq<T>>)
    requires AddAll(objs, ss) == Ok(m)
    ensures m.Keys == objs.Keys + AddedNames(ss)
    ensures forall n :: n in objs ==> m[n] == objs[n]
    ensures forall k :: 0 <= k < |ss| && Adds(ss[k]) ==> ss[k].objs == Ok(Some(m[ss[k].name]))
    decreases |ss|
  {
    if |ss| == 0 {
      assert AddedNames(ss) == {};
    }
    else {
      var rest := ss[1..];
      var m1 := AddSlot(objs, ss[0]).value;
      AddAllStores(m1, rest, m);
      AddedNamesCons(ss, |ss| - 1);
      assert ss[..|ss|] == ss && rest[..|ss| - 1] == rest;
      forall k | 0 <= k < |ss| && Adds(ss[k])
        ensures ss[k].objs == Ok(Some(m[ss[k].name]))
      {
        if k > 0 {
          assert rest[k - 1] == ss[k];
        }
      }
    }
  }

  /**
   * `pvBkEndObj_by_name` is built exactly when every entry fits; it then maps
   * exactly the names of events and options with objects, each to the
   * objects its own definitions build.
   */
  lemma ObjectsByName(events: seq<EventDef>)
    requires EntriesConstructible(Entries(events))
    ensures ObjectsByNameOf(events).Ok? <==> AllFit(Slots(Entries(events)))
    ensures ObjectsByNameOf(events).Ok? ==> Stores(ObjectsByNameOf(events).value, Slots(Entries(events)))
  {
    AddAllFromEmpty(Slots(Entries(events)));
  }

  /** Every slot fits, in order, from an empty map. */
  predicate AllFit<T>(ss: seq<Slot<T>>) {
    forall k :: 0 <= k < |ss| ==> SlotFits(map[], ss, k)
  }

  /** `m` holds exactly the names of the slots with objects, each under its slot's objects. */
  ghost predicate Stores<T>(m: map<string, seq<T>>, ss: seq<Slot<T>>) {
    && m.Keys == AddedNames(ss)
    && forall k :: 0 <= k < |ss| && Adds(ss[k]) ==> ss[k].objs == Ok(Some(m[ss[k].name]))
  }

  /** `AddAll` from an empty map: it succeeds when every slot fits, and then stores exactly the slots with objects. */
  lemma AddAllFromEmpty<T>(ss: seq<Slot<T>>)
    ensures AddAll(map[], ss).Ok? <==> AllFit(ss)
    ensures AddAll(map[], ss).Ok? ==> Stores(AddAll(map[], ss).value, ss)
  {
    var empty: map<string, seq<T>> := map[];
    AddAllOk(empty, ss);
    if AddAll(empty, ss).Ok? {
      var m := AddAll(empty, ss).value;
      AddAllStores(empty, ss, m);
      assert m.Keys == AddedNames(ss);
    }
  }

  /** A name shared by an entry with objects and any later entry makes the build fail. */
  lemma SharedNameFails(events: seq<EventDef>, i: int, j: int)
    requires EntriesConstructible(Entries(events))
    requires 0 <= i < j < |Entries(events)|
    requires !Entries(events)[i].spec.NoBackend? && Entries(events)[i].name == Entries(events)[j].name
    ensures ObjectsByNameOf(events).Err?
  {
    var ss := Slots(Entries(events));
    ObjectsByName(events);
    if Adds(ss[i]) {
      assert ss[..j][i] == ss[i];
      assert !SlotFits(map[], ss, j);
    }
    else {
      assert !SlotFits(map[], ss, i);
    }
  }

  /** A backend that is neither a dict nor a list makes the build fail. */
  lemma NotDictOrListFails(events: seq<EventDef>, k: int)
    requires EntriesConstructible(Entries(events))
    requires 0 <= k < |Entries(events)| && Entries(events)[k].spec.OtherSpec?
    ensures ObjectsByNameOf(events).Err?
  {
    ObjectsByName(events);
    assert !SlotFits(map[], Slots(Entries(events)), k);
  }
}
