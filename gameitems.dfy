/**
 * The game's static tables (backend/gameitems.py): the step table that
 * expands life stages into turns and steps with absolute simulation periods,
 * the first/last step and period of every turn and stage, the random-event
 * probabilities, and the backend objects of every event and option.
 */
module GameItems {
  import opened Wrappers
  import opened Money
  import opened Shared
  import opened Instruments
  import opened Backend

  // ------------------------------------------------------------ Definitions

  /** A life stage definition (`stctStage`); `None` stands for a missing list. */
  datatype StageDef = StageDef(
    name: string,
    initAge: int,
    endAge: int,
    eventSeq: seq<string>,
    nRandomTurns: int,
    randomEvents: Option<seq<string>>,
    weights: Option<seq<real>>)

  /** One row of the step table. */
  datatype StepRow = StepRow(
    stage: int,
    turn: int,
    ieventInStage: int,
    stageName: string,
    eventName: string,
    periodFirst: int,
    periodSimLast: int,
    periodLast: int,
    isLastTurnOfStage: bool,
    isLastStepOfStage: bool)

  /**
   * Everything the builder loop writes. `randomFlags` is the
   * `is_random_event_step` column, kept apart because the source appends to
   * it on a different path from the other columns.
   */
  datatype Build = Build(
    rows: seq<StepRow>,
    randomFlags: seq<bool>,
    firstStepOfTurn: seq<int>,
    lastStepOfTurn: seq<int>,
    firstStepOfStage: seq<int>,
    firstTurnOfStage: seq<int>,
    lastStepOfStage: seq<int>,
    lastTurnOfStage: seq<int>,
    itrn: int,
    istp: int)
  {
    /** The four per-stage lists have one entry per stage. */
    predicate StageListsSized(n: int) {
      |firstStepOfStage| == n && |firstTurnOfStage| == n && |lastStepOfStage| == n && |lastTurnOfStage| == n
    }
  }

  /** The state before the first stage: per-stage lists `[0] * len(pvStages)`, counters at 0. */
  function InitialBuild(nStages: nat): (b: Build)
    ensures b.StageListsSized(nStages) && b.rows == [] && b.itrn == 0 && b.istp == 0
  {
    var zeros := seq(nStages, _ => 0);
    Build([], [], [], [], zeros, zeros, zeros, zeros, 0, 0)
  }

  /** Age before the game starts: one year before the first stage. */
  function PreGameAge(stages: seq<StageDef>): int
    requires |stages| > 0
  {
    stages[0].initAge - 1
  }

  /** The stage's first simulation period. */
  function StageFirstPeriod(stages: seq<StageDef>, s: StageDef): int
    requires |stages| > 0
  {
    (s.initAge - PreGameAge(stages) - 1) * NPeriodsPerMonth * 12
  }

  /** The stage's last simulation period. */
  function StageLastPeriod(stages: seq<StageDef>, s: StageDef): int
    requires |stages| > 0
  {
    (s.endAge - PreGameAge(stages)) * NPeriodsPerMonth * 12 - 1
  }

  // ------------------------------------------------------ The step builder

  /** The builder's configuration errors. */
  const NegativeRandomTurns := "n_random_event_turn should be non-negative"
  const MissingRandomEvents := "random_event is not defined even though n_random_event_turn!=0"
  const WeightCountMismatch := "the number of elements in rand_event_weight and random_event is not consistent"

  /** `xs[i] = v` on a per-stage list, which always has an entry for the stage being built. */
  function SetAt(xs: seq<int>, i: int, v: int): (r: seq<int>)
    ensures |r| == |xs|
    ensures 0 <= i < |xs| ==> r[i] == v
  {
    if 0 <= i < |xs| then xs[i := v] else xs
  }

  /** The length of one random turn: the stage's periods shared among the event turn and the random turns. */
  function RandomTurnLength(s: StageDef, pFirst: int, pLast: int): real
    requires s.nRandomTurns >= 0
  {
    (pLast - pFirst + 1) as real / (s.nRandomTurns + 1) as real
  }

  /** `math.ceil(prlen*m + pFirst - 1)`: random turn `ir` runs from boundary `ir+1` to boundary `ir+2`. */
  function RandomBoundary(s: StageDef, pFirst: int, pLast: int, m: int): int
    requires s.nRandomTurns >= 0
  {
    Ceil(RandomTurnLength(s, pFirst, pLast) * m as real + pFirst as real - 1.0)
  }

  /** The row of random turn `ir` of a stage, played as turn `turn`. */
  function RandomRow(s: StageDef, istg: int, pFirst: int, pLast: int, turn: int, ir: int): StepRow
    requires s.nRandomTurns >= 0
  {
    StepRow(istg, turn, ir, s.name, "",
            RandomBoundary(s, pFirst, pLast, ir + 1), 0, RandomBoundary(s, pFirst, pLast, ir + 2),
            ir == s.nRandomTurns - 1, ir == s.nRandomTurns - 1)
  }

  /** One iteration of the random-turn loop: random turn `ir` is a turn of one step. */
  function RandomTurn(s: StageDef, istg: int, pFirst: int, pLast: int, c: Build, ir: int): Build
    requires s.nRandomTurns >= 0
  {
    var itrn, istp := c.itrn + 1, c.istp + 1;
    c.(rows := c.rows + [RandomRow(s, istg, pFirst, pLast, itrn, ir)],
       randomFlags := c.randomFlags + [true],
       lastStepOfTurn := c.lastStepOfTurn + [istp],
       firstStepOfTurn := c.firstStepOfTurn + [istp],
       itrn := itrn, istp := istp)
  }

  /** The first `k` iterations of the random-turn loop. */
  function RandomTurns(s: StageDef, istg: int, pFirst: int, pLast: int, b: Build, k: nat): (r: Build)
    requires s.nRandomTurns >= 0
    ensures r.itrn == b.itrn + k
  {
    if k == 0 then b
    else RandomTurn(s, istg, pFirst, pLast, RandomTurns(s, istg, pFirst, pLast, b, k - 1), k - 1)
  }

  /** The row of scripted event `j` of a stage. */
  function EventRow(s: StageDef, istg: int, pFirst: int, pLast: int, turn: int, j: int, lastOfStage: bool): StepRow
    requires 0 <= j < |s.eventSeq|
  {
    StepRow(istg, turn, j, s.name, s.eventSeq[j], pFirst, 0, pLast, lastOfStage, lastOfStage)
  }

  /** The event is the stage's last, by name. */
  predicate NamedLast(s: StageDef, j: int)
    requires 0 <= j < |s.eventSeq|
  {
    s.eventSeq[j] == s.eventSeq[|s.eventSeq| - 1]
  }

  /** The random events and their weights are given when the stage has random turns. */
  predicate RandomListsOk(s: StageDef) {
    && s.randomEvents.Some? && |s.randomEvents.value| != 0
    && s.weights.Some? && |s.weights.value| == |s.randomEvents.value|
  }

  /** Records the stage's last step and turn, and moves past the current step. */
  function CloseStage(b: Build, istg: int): Build {
    b.(lastStepOfStage := SetAt(b.lastStepOfStage, istg, b.istp),
       lastTurnOfStage := SetAt(b.lastTurnOfStage, istg, b.itrn),
       istp := b.istp + 1)
  }

  /**
   * One iteration of the event loop for event `j`: its row; if it is the
   * stage's last event by name, the turn closes and any random turns follow.
   * With no random turns the closing row gets no `is_random_event_step` entry.
   */
  function EventStep(s: StageDef, istg: int, pFirst: int, pLast: int, j: int, b: Build): Result<Build>
    requires 0 <= j < |s.eventSeq|
  {
    if s.nRandomTurns < 0 then Err(NegativeRandomTurns)
    else if !NamedLast(s, j) then
      Ok(b.(rows := b.rows + [EventRow(s, istg, pFirst, pLast, b.itrn, j, false)],
            randomFlags := b.randomFlags + [false],
            istp := b.istp + 1))
    else if s.nRandomTurns == 0 then
      Ok(CloseStage(b.(rows := b.rows + [EventRow(s, istg, pFirst, pLast, b.itrn, j, true)],
                       lastStepOfTurn := b.lastStepOfTurn + [b.istp]), istg))
    else if s.randomEvents.None? || |s.randomEvents.value| == 0 then
      Err(MissingRandomEvents)
    else if s.weights.None? || |s.weights.value| != |s.randomEvents.value| then
      Err(WeightCountMismatch)
    else
      Ok(CloseStage(RandomTurns(s, istg, pFirst, pLast, CloseEventTurn(s, istg, pFirst, pLast, j, b), s.nRandomTurns), istg))
  }

  /** The last event's row closes the stage's event turn before its random turns. */
  function CloseEventTurn(s: StageDef, istg: int, pFirst: int, pLast: int, j: int, b: Build): Build
    requires 0 <= j < |s.eventSeq|
  {
    b.(rows := b.rows + [EventRow(s, istg, pFirst, pLast, b.itrn, j, false)],
       randomFlags := b.randomFlags + [false],
       lastStepOfTurn := b.lastStepOfTurn + [b.istp])
  }

  /** The event loop of a stage from event `j` on; the first error ends it. */
  function EventsFrom(s: StageDef, istg: int, pFirst: int, pLast: int, j: nat, b: Build): Result<Build>
    requires j <= |s.eventSeq|
    decreases |s.eventSeq| - j
  {
    if j == |s.eventSeq| then Ok(b)
    else
      var c :- EventStep(s, istg, pFirst, pLast, j, b);
      EventsFrom(s, istg, pFirst, pLast, j + 1, c)
  }

  /** The row of a stage without scripted events. */
  function NoEventRow(s: StageDef, istg: int, pFirst: int, pLast: int, turn: int): StepRow {
    StepRow(istg, turn, 0, s.name, "", pFirst, 0, pLast, false, false)
  }

  /** The stage and its first turn open at the current step. */
  function OpenStage(b: Build, istg: int): Build {
    b.(firstStepOfStage := SetAt(b.firstStepOfStage, istg, b.istp),
       firstTurnOfStage := SetAt(b.firstTurnOfStage, istg, b.itrn),
       firstStepOfTurn := b.firstStepOfTurn + [b.istp])
  }

  /** A stage without scripted events is one turn of one step. */
  function NoEventTurn(s: StageDef, istg: int, pFirst: int, pLast: int, c: Build): Build {
    c.(rows := c.rows + [NoEventRow(s, istg, pFirst, pLast, c.itrn)],
       randomFlags := c.randomFlags + [false],
       lastStepOfTurn := c.lastStepOfTurn + [c.istp])
  }

  /** The state as the event loop of stage `istg` starts. */
  function StageOpened(stages: seq<StageDef>, istg: int, b: Build): Build
    requires 0 <= istg < |stages|
  {
    var s := stages[istg];
    var c := OpenStage(b, istg);
    if |s.eventSeq| == 0 then
      CloseStage(NoEventTurn(s, istg, StageFirstPeriod(stages, s), StageLastPeriod(stages, s), c), istg)
    else c
  }

  /** One iteration of the stage loop. */
  function StageStep(stages: seq<StageDef>, istg: int, b: Build): Result<Build>
    requires 0 <= istg < |stages|
  {
    var s := stages[istg];
    var c :- EventsFrom(s, istg, StageFirstPeriod(stages, s), StageLastPeriod(stages, s), 0, StageOpened(stages, istg, b));
    Ok(c.(itrn := c.itrn + 1))
  }

  /** The stage loop from stage `k` on; the first error ends it. */
  function StagesFrom(stages: seq<StageDef>, k: nat, b: Build): Result<Build>
    requires k <= |stages|
    decreases |stages| - k
  {
    if k == |stages| then Ok(b)
    else
      var c :- StageStep(stages, k, b);
      StagesFrom(stages, k + 1, c)
  }

  /** The step table and turn lists the module builds; Err where it raises. */
  function StepTableOf(stages: seq<StageDef>): Result<Build> {
    if |stages| == 0 then Err("list index out of range")
    else StagesFrom(stages, 0, InitialBuild(|stages|))
  }

  /** The random-turn loop of a stage (backend/gameitems.py:80-97). */
  method AddRandomTurns(s: StageDef, istg: int, pFirst: int, pLast: int, b: Build) returns (r: Build)
    requires s.nRandomTurns >= 0
    ensures r == RandomTurns(s, istg, pFirst, pLast, b, s.nRandomTurns)
  {
    r := b;
    var itrn, istp := b.itrn, b.istp;
    var ir := 0;
    while ir < s.nRandomTurns
      invariant 0 <= ir <= s.nRandomTurns
      invariant r == RandomTurns(s, istg, pFirst, pLast, b, ir)
      invariant itrn == r.itrn && istp == r.istp
    {
      itrn, istp := itrn + 1, istp + 1;
      r := r.(rows := r.rows + [RandomRow(s, istg, pFirst, pLast, itrn, ir)], randomFlags := r.randomFlags + [true]);
      r := r.(lastStepOfTurn := r.lastStepOfTurn + [istp], firstStepOfTurn := r.firstStepOfTurn + [istp]);
      r := r.(itrn := itrn, istp := istp);
      ir := ir + 1;
    }
  }

  /** One iteration of the event loop (backend/gameitems.py:51-109). */
  method AddEvent(s: StageDef, istg: int, pFirst: int, pLast: int, j: int, b: Build) returns (r: Result<Build>)
    requires 0 <= j < |s.eventSeq|
    ensures r == EventStep(s, istg, pFirst, pLast, j, b)
  {
    if s.nRandomTurns < 0 {
      return Err(NegativeRandomTurns);
    }
    if s.eventSeq[j] != s.eventSeq[|s.eventSeq| - 1] {
      var row := EventRow(s, istg, pFirst, pLast, b.itrn, j, false);
      return Ok(b.(rows := b.rows + [row], randomFlags := b.randomFlags + [false], istp := b.istp + 1));
    }
    r := AddLastEvent(s, istg, pFirst, pLast, j, b);
  }

  /** The stage's last event closes its turn, then the random turns follow (backend/gameitems.py:66-104). */
  method AddLastEvent(s: StageDef, istg: int, pFirst: int, pLast: int, j: int, b: Build) returns (r: Result<Build>)
    requires 0 <= j < |s.eventSeq| && NamedLast(s, j) && s.nRandomTurns >= 0
    ensures r == EventStep(s, istg, pFirst, pLast, j, b)
  {
    var c;
    if s.nRandomTurns == 0 {
      var row := EventRow(s, istg, pFirst, pLast, b.itrn, j, true);
      c := b.(rows := b.rows + [row], lastStepOfTurn := b.lastStepOfTurn + [b.istp]);
    } else {
      if s.randomEvents.None? || |s.randomEvents.value| == 0 {
        return Err(MissingRandomEvents);
      }
      if s.weights.None? || |s.weights.value| != |s.randomEvents.value| {
        return Err(WeightCountMismatch);
      }
      c := AddRandomTurns(s, istg, pFirst, pLast, CloseEventTurn(s, istg, pFirst, pLast, j, b));
    }
    r := Ok(CloseStage(c, istg));
  }

  /** The event loop of one stage (backend/gameitems.py:50-109). */
  method AddStageEvents(s: StageDef, istg: int, pFirst: int, pLast: int, b: Build) returns (r: Result<Build>)
    ensures r == EventsFrom(s, istg, pFirst, pLast, 0, b)
  {
    var c := b;
    var j := 0;
    while j < |s.eventSeq|
      invariant 0 <= j <= |s.eventSeq|
      invariant EventsFrom(s, istg, pFirst, pLast, j, c) == EventsFrom(s, istg, pFirst, pLast, 0, b)
    {
      var next := AddEvent(s, istg, pFirst, pLast, j, c);
      if next.Err? {
        return next;
      }
      c := next.value;
      j := j + 1;
    }
    r := Ok(c);
  }

  /** One iteration of the stage loop (backend/gameitems.py:25-111). */
  method AddStage(stages: seq<StageDef>, istg: int, b: Build) returns (r: Result<Build>)
    requires 0 <= istg < |stages|
    ensures r == StageStep(stages, istg, b)
  {
    var s := stages[istg];
    var started := StageOpened(stages, istg, b);
    r := AddStageEvents(s, istg, StageFirstPeriod(stages, s), StageLastPeriod(stages, s), started);
    if r.Ok? {
      r := Ok(r.value.(itrn := r.value.itrn + 1));
    }
  }

  /** The module-level loop over stages (backend/gameitems.py:17-111). */
  method BuildStepTable(stages: seq<StageDef>) returns (r: Result<Build>)
    ensures r == StepTableOf(stages)
  {
    if |stages| == 0 {
      return Err("list index out of range");
    }
    var b := InitialBuild(|stages|);
    var istg := 0;
    while istg < |stages|
      invariant 0 <= istg <= |stages|
      invariant StagesFrom(stages, istg, b) == StepTableOf(stages)
    {
      var next := AddStage(stages, istg, b);
      if next.Err? {
        return next;
      }
      b := next.value;
      istg := istg + 1;
    }
    r := Ok(b);
  }

  // ------------------------------------------------------ Builder properties

  /** Stage periods count whole years from the first stage's starting age, so the first stage starts at period 0. */
  lemma StagePeriods(stages: seq<StageDef>, s: StageDef)
    requires |stages| > 0
    ensures StageFirstPeriod(stages, s) == (s.initAge - stages[0].initAge) * PeriodsPerYear
    ensures StageLastPeriod(stages, s) == (s.endAge - stages[0].initAge + 1) * PeriodsPerYear - 1
    ensures StageFirstPeriod(stages, stages[0]) == 0
  {
  }

  /** `math.ceil` is monotone. */
  lemma CeilMonotone(x: real, y: real)
    requires x <= y
    ensures Ceil(x) <= Ceil(y)
  {
  }

  /** The last random turn ends at the stage's last period. */
  lemma RandomTurnsEndAtStageEnd(s: StageDef, istg: int, pFirst: int, pLast: int, turn: int)
    requires s.nRandomTurns > 0
    ensures RandomRow(s, istg, pFirst, pLast, turn, s.nRandomTurns - 1).periodLast == pLast
  {
    var n := s.nRandomTurns;
    var prlen := RandomTurnLength(s, pFirst, pLast);
    assert prlen * (n + 1) as real == (pLast - pFirst + 1) as real;
  }

  /** A random step's last period is the next random step's first period. */
  lemma RandomTurnsAdjoin(s: StageDef, istg: int, pFirst: int, pLast: int, turn: int, ir: int)
    requires s.nRandomTurns >= 0
    ensures RandomRow(s, istg, pFirst, pLast, turn, ir).periodLast == RandomRow(s, istg, pFirst, pLast, turn + 1, ir + 1).periodFirst
  {
  }

  /** On a stage of non-negative length the random boundaries never decrease. */
  lemma RandomBoundaryMonotone(s: StageDef, pFirst: int, pLast: int, m1: int, m2: int)
    requires s.nRandomTurns >= 0 && pFirst <= pLast + 1 && m1 <= m2
    ensures RandomBoundary(s, pFirst, pLast, m1) <= RandomBoundary(s, pFirst, pLast, m2)
  {
    var prlen := RandomTurnLength(s, pFirst, pLast);
    MulMonotone(prlen, m1 as real, m2 as real);
    CeilMonotone(prlen * m1 as real + pFirst as real - 1.0, prlen * m2 as real + pFirst as real - 1.0);
  }

  /** On a stage of non-negative length every random step starts no later than it ends, and later ones start no earlier. */
  lemma RandomTurnsOrdered(s: StageDef, istg: int, pFirst: int, pLast: int, t1: int, ir1: int, t2: int, ir2: int)
    requires s.nRandomTurns >= 0 && pFirst <= pLast + 1 && ir1 <= ir2
    ensures RandomRow(s, istg, pFirst, pLast, t1, ir1).periodFirst <= RandomRow(s, istg, pFirst, pLast, t1, ir1).periodLast
    ensures RandomRow(s, istg, pFirst, pLast, t1, ir1).periodFirst <= RandomRow(s, istg, pFirst, pLast, t2, ir2).periodFirst
  {
    RandomBoundaryMonotone(s, pFirst, pLast, ir1 + 1, ir1 + 2);
    RandomBoundaryMonotone(s, pFirst, pLast, ir1 + 1, ir2 + 1);
  }

  lemma MulMonotone(a: real, x: real, y: real)
    requires a >= 0.0 && x <= y
    ensures a * x <= a * y
  {
  }

  /** What the builder checks of a stage with scripted events. */
  predicate StageChecksPass(s: StageDef) {
    |s.eventSeq| > 0 ==> s.nRandomTurns >= 0 && (s.nRandomTurns != 0 ==> RandomListsOk(s))
  }

  /** An event step fails exactly on a negative random-turn count, or on the last event when the random lists are wrong. */
  lemma EventStepOk(s: StageDef, istg: int, pFirst: int, pLast: int, j: int, b: Build)
    requires 0 <= j < |s.eventSeq|
    ensures EventStep(s, istg, pFirst, pLast, j, b).Ok? <==>
      s.nRandomTurns >= 0 && (NamedLast(s, j) && s.nRandomTurns != 0 ==> RandomListsOk(s))
  {
  }

  /** The rest of a stage's event loop succeeds iff the stage passes its checks. */
  lemma {:induction false} EventsFromOk(s: StageDef, istg: int, pFirst: int, pLast: int, j: nat, b: Build)
    requires j <= |s.eventSeq|
    ensures EventsFrom(s, istg, pFirst, pLast, j, b).Ok? <==> (j < |s.eventSeq| ==> StageChecksPass(s))
    decreases |s.eventSeq| - j
  {
    if j < |s.eventSeq| {
      EventStepOk(s, istg, pFirst, pLast, j, b);
      var c := EventStep(s, istg, pFirst, pLast, j, b);
      if c.Ok? {
        EventsFromOk(s, istg, pFirst, pLast, j + 1, c.value);
      }
    }
  }

  /** The rest of the stage loop succeeds iff every remaining stage passes its checks. */
  lemma {:induction false} StagesFromOk(stages: seq<StageDef>, k: nat, b: Build)
    requires k <= |stages|
    ensures StagesFrom(stages, k, b).Ok? <==> forall i :: k <= i < |stages| ==> StageChecksPass(stages[i])
    decreases |stages| - k
  {
    if k < |stages| {
      var s := stages[k];
      EventsFromOk(s, k, StageFirstPeriod(stages, s), StageLastPeriod(stages, s), 0, StageOpened(stages, k, b));
      var c := StageStep(stages, k, b);
      if c.Ok? {
        StagesFromOk(stages, k + 1, c.value);
      }
    }
  }

  /** The module's tables build iff there is a stage and every stage passes its checks. */
  lemma StepTableOk(stages: seq<StageDef>)
    ensures StepTableOf(stages).Ok? <==> |stages| > 0 && forall i :: 0 <= i < |stages| ==> StageChecksPass(stages[i])
  {
    if |stages| > 0 {
      StagesFromOk(stages, 0, InitialBuild(|stages|));
    }
  }

  // ------------------------------------------------------------ Turn tiling

  /**
   * Turn `t` covers steps `first[t]..last[t]`, and the turns cover steps
   * `0..n-1` in order without gaps or overlaps.
   */
  predicate TurnsTile(first: seq<int>, last: seq<int>, n: int) {
    && |first| == |last|
    && (|first| == 0 ==> n == 0)
    && (|first| > 0 ==> first[0] == 0 && last[|last| - 1] == n - 1)
    && (forall t :: 0 <= t < |first| ==> 0 <= first[t] <= last[t] < n)
    && (forall t :: 0 <= t < |first| - 1 ==> last[t] + 1 == first[t + 1])
  }

  /** A turn of steps `n..m` extends a tiling of `0..n-1`. */
  lemma TileAppend(first: seq<int>, last: seq<int>, n: int, m: int)
    requires TurnsTile(first, last, n) && n <= m
    ensures TurnsTile(first + [n], last + [m], m + 1)
  {
  }

  /** Every stage with events has random turns and names its last event once. */
  predicate StageShapeOk(s: StageDef) {
    |s.eventSeq| > 0 ==>
      && s.nRandomTurns >= 1
      && forall j :: 0 <= j < |s.eventSeq| - 1 ==> s.eventSeq[j] != s.eventSeq[|s.eventSeq| - 1]
  }

  /** Between turns: `turns` turns tile the rows, and every row has its random flag. */
  predicate Settled(b: Build, turns: int) {
    && TurnsTile(b.firstStepOfTurn, b.lastStepOfTurn, |b.rows|)
    && |b.firstStepOfTurn| == turns
    && b.istp == |b.rows| && |b.randomFlags| == |b.rows|
  }

  /** Inside turn `itrn`: the earlier turns tile the rows before its first step. */
  predicate OpenTurn(b: Build) {
    && b.itrn >= 0 && |b.firstStepOfTurn| == b.itrn + 1
    && TurnsTile(b.firstStepOfTurn[..b.itrn], b.lastStepOfTurn, b.firstStepOfTurn[b.itrn])
    && b.firstStepOfTurn[b.itrn] <= |b.rows|
    && b.istp == |b.rows| && |b.randomFlags| == |b.rows|
  }

  /** Inside the random-turn loop: turn `itrn` is closed at the current step `istp`, not yet passed. */
  predicate RandomReady(b: Build) {
    && b.itrn >= 0
    && TurnsTile(b.firstStepOfTurn, b.lastStepOfTurn, |b.rows|)
    && |b.firstStepOfTurn| == b.itrn + 1
    && b.istp + 1 == |b.rows| && |b.randomFlags| == |b.rows|
  }

  /** A random turn closes at its only step and keeps the tiling. */
  lemma RandomTurnKeepsReady(s: StageDef, istg: int, pFirst: int, pLast: int, c: Build, ir: int)
    requires s.nRandomTurns >= 0 && RandomReady(c)
    ensures RandomReady(RandomTurn(s, istg, pFirst, pLast, c, ir))
  {
    TileAppend(c.firstStepOfTurn, c.lastStepOfTurn, |c.rows|, |c.rows|);
  }

  lemma {:induction false} RandomTurnsKeepReady(s: StageDef, istg: int, pFirst: int, pLast: int, b: Build, k: nat)
    requires s.nRandomTurns >= 0 && RandomReady(b)
    ensures RandomReady(RandomTurns(s, istg, pFirst, pLast, b, k))
  {
    if k > 0 {
      RandomTurnsKeepReady(s, istg, pFirst, pLast, b, k - 1);
      RandomTurnKeepsReady(s, istg, pFirst, pLast, RandomTurns(s, istg, pFirst, pLast, b, k - 1), k - 1);
    }
  }

  /** An event other than the last appends a row to the open turn. */
  lemma EventStepInner(s: StageDef, istg: int, pFirst: int, pLast: int, j: int, b: Build)
    requires StageShapeOk(s) && 0 <= j < |s.eventSeq| - 1 && OpenTurn(b)
    requires EventStep(s, istg, pFirst, pLast, j, b).Ok?
    ensures var c := EventStep(s, istg, pFirst, pLast, j, b).value; OpenTurn(c) && c.itrn == b.itrn
  {
    var c := EventStep(s, istg, pFirst, pLast, j, b).value;
    assert c.firstStepOfTurn == b.firstStepOfTurn && c.lastStepOfTurn == b.lastStepOfTurn && c.itrn == b.itrn;
  }

  /** Closing the open turn at the current step readies the random-turn loop. */
  lemma CloseEventTurnReady(s: StageDef, istg: int, pFirst: int, pLast: int, j: int, b: Build)
    requires 0 <= j < |s.eventSeq| && OpenTurn(b)
    ensures RandomReady(CloseEventTurn(s, istg, pFirst, pLast, j, b))
  {
    var first := b.firstStepOfTurn;
    assert first == first[..b.itrn] + [first[b.itrn]];
    TileAppend(first[..b.itrn], b.lastStepOfTurn, first[b.itrn], b.istp);
  }

  /** Passing the step that closed the last turn settles the table. */
  lemma CloseStageSettles(d: Build, istg: int)
    requires RandomReady(d)
    ensures Settled(CloseStage(d, istg), d.itrn + 1)
  {
  }

  /** The last event closes the open turn and the random turns follow, each a turn of its own. */
  lemma EventStepLast(s: StageDef, istg: int, pFirst: int, pLast: int, b: Build)
    requires StageShapeOk(s) && |s.eventSeq| > 0 && OpenTurn(b)
    requires EventStep(s, istg, pFirst, pLast, |s.eventSeq| - 1, b).Ok?
    ensures var c := EventStep(s, istg, pFirst, pLast, |s.eventSeq| - 1, b).value; Settled(c, c.itrn + 1) && c.itrn >= b.itrn
  {
    var j := |s.eventSeq| - 1;
    var c0 := CloseEventTurn(s, istg, pFirst, pLast, j, b);
    var d := RandomTurns(s, istg, pFirst, pLast, c0, s.nRandomTurns);
    assert EventStep(s, istg, pFirst, pLast, j, b) == Ok(CloseStage(d, istg));
    CloseEventTurnReady(s, istg, pFirst, pLast, j, b);
    RandomTurnsKeepReady(s, istg, pFirst, pLast, c0, s.nRandomTurns);
    CloseStageSettles(d, istg);
  }

  /** The event loop of a well-shaped stage, started inside its first turn, ends with every turn closed. */
  lemma {:induction false} EventsFromClose(s: StageDef, istg: int, pFirst: int, pLast: int, j: nat, b: Build, r: Build)
    requires StageShapeOk(s) && j < |s.eventSeq| && OpenTurn(b)
    requires EventsFrom(s, istg, pFirst, pLast, j, b) == Ok(r)
    ensures Settled(r, r.itrn + 1) && r.itrn >= b.itrn
    decreases |s.eventSeq| - j
  {
    var step := EventStep(s, istg, pFirst, pLast, j, b);
    assert step.Ok?;
    EventsFromUnfold(s, istg, pFirst, pLast, j, b);
    if j == |s.eventSeq| - 1 {
      EventStepLast(s, istg, pFirst, pLast, b);
    } else {
      EventStepInner(s, istg, pFirst, pLast, j, b);
      EventsFromClose(s, istg, pFirst, pLast, j + 1, step.value, r);
    }
  }

  lemma EventsFromUnfold(s: StageDef, istg: int, pFirst: int, pLast: int, j: nat, b: Build)
    requires j < |s.eventSeq| && EventStep(s, istg, pFirst, pLast, j, b).Ok?
    ensures EventsFrom(s, istg, pFirst, pLast, j, b) == EventsFrom(s, istg, pFirst, pLast, j + 1, EventStep(s, istg, pFirst, pLast, j, b).value)
  {
  }

  /** Opening a stage opens a turn after the settled ones. */
  lemma OpenStageOpens(b: Build, istg: int)
    requires b.itrn >= 0 && Settled(b, b.itrn)
    ensures OpenTurn(OpenStage(b, istg))
  {
    var o := OpenStage(b, istg);
    assert o.firstStepOfTurn[..o.itrn] == b.firstStepOfTurn;
  }

  /** The step of a stage without events closes its turn. */
  lemma NoEventTurnReady(s: StageDef, istg: int, pFirst: int, pLast: int, c: Build)
    requires OpenTurn(c)
    ensures RandomReady(NoEventTurn(s, istg, pFirst, pLast, c))
  {
    var first := c.firstStepOfTurn;
    assert first == first[..c.itrn] + [first[c.itrn]];
    TileAppend(first[..c.itrn], c.lastStepOfTurn, first[c.itrn], c.istp);
  }

  /** A well-shaped stage adds whole turns that extend the tiling. */
  lemma StageStepSettles(stages: seq<StageDef>, k: nat, b: Build)
    requires k < |stages| && StageShapeOk(stages[k]) && b.itrn >= 0 && Settled(b, b.itrn)
    requires StageStep(stages, k, b).Ok?
    ensures var c := StageStep(stages, k, b).value; Settled(c, c.itrn) && c.itrn > b.itrn
  {
    var s := stages[k];
    var pFirst, pLast := StageFirstPeriod(stages, s), StageLastPeriod(stages, s);
    var o := OpenStage(b, k);
    OpenStageOpens(b, k);
    var r := EventsFrom(s, k, pFirst, pLast, 0, StageOpened(stages, k, b)).value;
    if |s.eventSeq| == 0 {
      NoEventTurnReady(s, k, pFirst, pLast, o);
      CloseStageSettles(NoEventTurn(s, k, pFirst, pLast, o), k);
    } else {
      EventsFromClose(s, k, pFirst, pLast, 0, o, r);
    }
  }

  lemma {:induction false} StagesFromSettle(stages: seq<StageDef>, k: nat, b: Build)
    requires k <= |stages| && forall i :: 0 <= i < |stages| ==> StageShapeOk(stages[i])
    requires b.itrn >= 0 && Settled(b, b.itrn) && StagesFrom(stages, k, b).Ok?
    ensures var r := StagesFrom(stages, k, b).value; Settled(r, r.itrn) && r.itrn >= b.itrn + (|stages| - k)
    decreases |stages| - k
  {
    if k < |stages| {
      StageStepSettles(stages, k, b);
      StagesFromSettle(stages, k + 1, StageStep(stages, k, b).value);
    }
  }

  /**
   * For well-shaped stages, the built turns tile the step table: one first
   * and one last step per turn, and a random flag on every step.
   */
  lemma StepTableTiles(stages: seq<StageDef>)
    requires forall i :: 0 <= i < |stages| ==> StageShapeOk(stages[i])
    requires StepTableOf(stages).Ok?
    ensures var b := StepTableOf(stages).value;
      && TurnsTile(b.firstStepOfTurn, b.lastStepOfTurn, |b.rows|)
      && |b.firstStepOfTurn| == b.itrn >= |stages| > 0
      && |b.randomFlags| == |b.rows| == b.istp
  {
    StagesFromSettle(stages, 0, InitialBuild(|stages|));
  }

  // ----------------------------------------------------------- Rows appended

  /** The rows of the first `k` random turns, the turn numbers counting on from `turn0`. */
  function RandomRows(s: StageDef, istg: int, pFirst: int, pLast: int, turn0: int, k: nat): (r: seq<StepRow>)
    requires s.nRandomTurns >= 0
    ensures |r| == k
  {
    if k == 0 then [] else RandomRows(s, istg, pFirst, pLast, turn0, k - 1) + [RandomRow(s, istg, pFirst, pLast, turn0 + k, k - 1)]
  }

  /** Random turn `i` is played as turn `turn0 + 1 + i`. */
  lemma {:induction false} RandomRowsAt(s: StageDef, istg: int, pFirst: int, pLast: int, turn0: int, k: nat)
    requires s.nRandomTurns >= 0
    ensures forall i :: 0 <= i < k ==> RandomRows(s, istg, pFirst, pLast, turn0, k)[i] == RandomRow(s, istg, pFirst, pLast, turn0 + 1 + i, i)
  {
    if k > 0 {
      RandomRowsAt(s, istg, pFirst, pLast, turn0, k - 1);
    }
  }

  /** The random-turn loop appends the random rows after the rows already there. */
  lemma {:induction false} RandomTurnsRows(s: StageDef, istg: int, pFirst: int, pLast: int, b: Build, k: nat)
    requires s.nRandomTurns >= 0
    ensures RandomTurns(s, istg, pFirst, pLast, b, k).rows == b.rows + RandomRows(s, istg, pFirst, pLast, b.itrn, k)
  {
    if k > 0 {
      RandomTurnsRows(s, istg, pFirst, pLast, b, k - 1);
      var rr := RandomRows(s, istg, pFirst, pLast, b.itrn, k - 1);
      var row := RandomRow(s, istg, pFirst, pLast, b.itrn + k, k - 1);
      assert (b.rows + rr) + [row] == b.rows + (rr + [row]);
    }
  }

  /**
   * An event step appends the event's row, in the current turn and over the
   * stage's whole period range, marked last of the stage only when the stage
   * has no random turns; after the stage's last event come the random turns.
   */
  lemma EventStepRows(s: StageDef, istg: int, pFirst: int, pLast: int, j: int, b: Build)
    requires 0 <= j < |s.eventSeq| && EventStep(s, istg, pFirst, pLast, j, b).Ok?
    ensures var closes := NamedLast(s, j) && s.nRandomTurns == 0;
      EventStep(s, istg, pFirst, pLast, j, b).value.rows
      == b.rows + [StepRow(istg, b.itrn, j, s.name, s.eventSeq[j], pFirst, 0, pLast, closes, closes)]
                + (if NamedLast(s, j) then RandomRows(s, istg, pFirst, pLast, b.itrn, s.nRandomTurns) else [])
  {
    if NamedLast(s, j) && s.nRandomTurns != 0 {
      RandomTurnsRows(s, istg, pFirst, pLast, CloseEventTurn(s, istg, pFirst, pLast, j, b), s.nRandomTurns);
    }
  }

  /** A stage without scripted events adds exactly one step, with no event name, over the stage's period range. */
  lemma NoEventStageRow(stages: seq<StageDef>, k: nat, b: Build)
    requires k < |stages| && |stages[k].eventSeq| == 0
    ensures var s := stages[k];
      && StageStep(stages, k, b).Ok?
      && StageStep(stages, k, b).value.rows
         == b.rows + [StepRow(k, b.itrn, 0, s.name, "", StageFirstPeriod(stages, s), 0, StageLastPeriod(stages, s), false, false)]
  {
  }

  // -------------------------------------------------------------- Post-pass

  /** The step table with `period_sim_last` filled in, and each turn's first and last period. */
  datatype Timeline = Timeline(rows: seq<StepRow>, firstPeriodOfTurn: seq<int>, lastPeriodOfTurn: seq<int>)

  /** What the post-pass indexes: a step, one last step per turn, and every turn's steps inside the table. */
  predicate PostPassReady(rows: seq<StepRow>, first: seq<int>, last: seq<int>) {
    && |rows| > 0 && |first| == |last| > 0
    && forall t :: 0 <= t < |first| ==> 0 <= first[t] < |rows| && last[t] < |rows|
  }

  /** `period_sim_last[i]` after the post-pass has visited turns `0..k-1`: a later turn's write wins. */
  function SimLastAfter(rows: seq<StepRow>, first: seq<int>, last: seq<int>, k: nat, i: int): int
    requires PostPassReady(rows, first, last) && k < |first| && 0 <= i < |rows|
  {
    if k == 0 then rows[i].periodSimLast
    else if first[k - 1] <= i <= last[k - 1] then rows[first[k]].periodFirst - 1
    else SimLastAfter(rows, first, last, k - 1, i)
  }

  /** The tables the post-pass leaves behind. */
  function TimelineOf(rows: seq<StepRow>, first: seq<int>, last: seq<int>): Timeline
    requires PostPassReady(rows, first, last)
  {
    var n, nTurns := |rows|, |first|;
    Timeline(
      seq(n, i requires 0 <= i < n =>
        rows[i].(periodSimLast := if i == n - 1 then rows[i].periodLast else SimLastAfter(rows, first, last, nTurns - 1, i))),
      seq(nTurns, t requires 0 <= t < nTurns => if t == 0 then 0 else rows[first[t]].periodFirst),
      seq(nTurns, t requires 0 <= t < nTurns => if t == nTurns - 1 then rows[n - 1].periodLast else rows[first[t + 1]].periodFirst - 1))
  }

  /** The post-pass over the turns (backend/gameitems.py:113-123). */
  method PostPass(rows: seq<StepRow>, first: seq<int>, last: seq<int>) returns (tl: Timeline)
    requires PostPassReady(rows, first, last)
    ensures tl == TimelineOf(rows, first, last)
  {
    var nTurns := |first|;
    var firstPeriod := seq(nTurns, _ => 0);
    var lastPeriod := seq(nTurns, _ => 0);
    var simLast := new int[|rows|](i requires 0 <= i < |rows| => rows[i].periodSimLast);
    var k := 1;
    while k < nTurns
      modifies simLast
      invariant 1 <= k <= nTurns && |firstPeriod| == |lastPeriod| == nTurns
      invariant firstPeriod[0] == 0
      invariant forall t :: 1 <= t < k ==> firstPeriod[t] == rows[first[t]].periodFirst
      invariant forall t :: 0 <= t < k - 1 ==> lastPeriod[t] == rows[first[t + 1]].periodFirst - 1
      invariant forall i :: 0 <= i < |rows| ==> simLast[i] == SimLastAfter(rows, first, last, k - 1, i)
    {
      var p := rows[first[k]].periodFirst;
      firstPeriod := firstPeriod[k := p];
      lastPeriod := lastPeriod[k - 1 := p - 1];
      FillSimLast(simLast, first[k - 1], last[k - 1], p - 1);
      k := k + 1;
    }
    simLast[|rows| - 1] := rows[|rows| - 1].periodLast;
    lastPeriod := lastPeriod[nTurns - 1 := rows[|rows| - 1].periodLast];
    var sims := simLast[..];
    tl := Timeline(seq(|rows|, i requires 0 <= i < |rows| => rows[i].(periodSimLast := sims[i])), firstPeriod, lastPeriod);
    TimelineMatches(rows, first, last, tl);
  }

  lemma TimelineMatches(rows: seq<StepRow>, first: seq<int>, last: seq<int>, tl: Timeline)
    requires PostPassReady(rows, first, last)
    requires |tl.rows| == |rows| && |tl.firstPeriodOfTurn| == |tl.lastPeriodOfTurn| == |first|
    requires forall i :: 0 <= i < |rows| - 1 ==>
      tl.rows[i] == rows[i].(periodSimLast := SimLastAfter(rows, first, last, |first| - 1, i))
    requires tl.rows[|rows| - 1] == rows[|rows| - 1].(periodSimLast := rows[|rows| - 1].periodLast)
    requires tl.firstPeriodOfTurn[0] == 0
    requires forall t :: 1 <= t < |first| ==> tl.firstPeriodOfTurn[t] == rows[first[t]].periodFirst
    requires forall t :: 0 <= t < |first| - 1 ==> tl.lastPeriodOfTurn[t] == rows[first[t + 1]].periodFirst - 1
    requires tl.lastPeriodOfTurn[|first| - 1] == rows[|rows| - 1].periodLast
    ensures tl == TimelineOf(rows, first, last)
  {
    var spec := TimelineOf(rows, first, last);
    assert tl.rows == spec.rows;
    assert tl.firstPeriodOfTurn == spec.firstPeriodOfTurn;
    assert tl.lastPeriodOfTurn == spec.lastPeriodOfTurn;
  }

  /** `for istp in range(lo, hi+1): period_sim_last[istp] = v`. */
  method FillSimLast(simLast: array<int>, lo: int, hi: int, v: int)
    requires 0 <= lo && hi < simLast.Length
    modifies simLast
    ensures forall i :: 0 <= i < simLast.Length ==> simLast[i] == if lo <= i <= hi then v else old(simLast[i])
  {
    var istp := lo;
    while istp <= hi
      invariant lo <= istp && (istp == lo || istp <= hi + 1)
      invariant forall i :: 0 <= i < simLast.Length ==> simLast[i] == if lo <= i < istp then v else old(simLast[i])
    {
      simLast[istp] := v;
      istp := istp + 1;
    }
  }

  /**
   * The turns' period ranges tile the horizon: turn 0 starts at period 0,
   * each turn ends the period before the next one starts, and the last ends
   * at the final step's last period, which is also that step's
   * `period_sim_last`. Only `period_sim_last` changes in the step table.
   */
  lemma TimelineTiles(rows: seq<StepRow>, first: seq<int>, last: seq<int>)
    requires PostPassReady(rows, first, last)
    ensures var tl := TimelineOf(rows, first, last);
      && |tl.firstPeriodOfTurn| == |tl.lastPeriodOfTurn| == |first| && |tl.rows| == |rows|
      && tl.firstPeriodOfTurn[0] == 0
      && (forall t :: 0 <= t < |first| - 1 ==> tl.lastPeriodOfTurn[t] + 1 == tl.firstPeriodOfTurn[t + 1])
      && tl.lastPeriodOfTurn[|first| - 1] == rows[|rows| - 1].periodLast
      && tl.rows[|rows| - 1].periodSimLast == rows[|rows| - 1].periodLast
      && (forall i :: 0 <= i < |rows| ==> tl.rows[i] == rows[i].(periodSimLast := tl.rows[i].periodSimLast))
  {
  }

  /** In a tiling, an earlier turn ends before a later one starts. */
  lemma {:induction false} TileOrdered(first: seq<int>, last: seq<int>, n: int, t: int, u: int)
    requires TurnsTile(first, last, n) && 0 <= t < u < |first|
    ensures last[t] < first[u]
    decreases u
  {
    if u > t + 1 {
      TileOrdered(first, last, n, t, u - 1);
    }
  }

  /** Once the post-pass has visited turn `t`, later turns leave that turn's steps alone. */
  lemma {:induction false} SimLastOfTurn(rows: seq<StepRow>, first: seq<int>, last: seq<int>, k: nat, t: int, i: int)
    requires PostPassReady(rows, first, last) && TurnsTile(first, last, |rows|)
    requires 0 <= t < k < |first| && first[t] <= i <= last[t]
    ensures SimLastAfter(rows, first, last, k, i) == rows[first[t + 1]].periodFirst - 1
  {
    if k > t + 1 {
      TileOrdered(first, last, |rows|, t, k - 1);
      SimLastOfTurn(rows, first, last, k - 1, t, i);
    }
  }

  /** Every step of a turn other than the last simulates up to the period before the next turn starts. */
  lemma TimelineSimLast(rows: seq<StepRow>, first: seq<int>, last: seq<int>, t: int, i: int)
    requires PostPassReady(rows, first, last) && TurnsTile(first, last, |rows|)
    requires 0 <= t < |first| - 1 && first[t] <= i <= last[t]
    ensures TimelineOf(rows, first, last).rows[i].periodSimLast == TimelineOf(rows, first, last).firstPeriodOfTurn[t + 1] - 1
  {
    SimLastOfTurn(rows, first, last, |first| - 1, t, i);
  }

  /** The builder's output for well-shaped stages is what the post-pass indexes. */
  lemma StepTableReadyForPostPass(stages: seq<StageDef>)
    requires forall i :: 0 <= i < |stages| ==> StageShapeOk(stages[i])
    requires StepTableOf(stages).Ok?
    ensures var b := StepTableOf(stages).value;
      PostPassReady(b.rows, b.firstStepOfTurn, b.lastStepOfTurn) && TurnsTile(b.firstStepOfTurn, b.lastStepOfTurn, |b.rows|)
  {
    StepTableTiles(stages);
  }
}
