# Prosperville backend, modelled in Dafny

Prosperville is a turn-based life simulation. Each human player, and one
AI player, goes through life stages made of turns. On each turn of a
stage, every solvent player picks an option for each of the turn's life
events (college, housing, a car, a job). Each option brings financial
instruments:

- salaries, assets, expenses and loans, each with a per-period schedule;
- happiness adjustment ratios.

At the end of the turn every surviving player is simulated period by
period. Each player's score table records cash, debt, wealth and
happiness. A player whose wealth plus student debt falls below minus
twice the annual salary is bankrupt and leaves the game. The AI then
tries every combination of options and keeps the best one.

This project models the backend's core:

- **Instruments:** the shared unit conversions, the instrument base, and
  the salary, asset, expense and loan constructors with their schedule
  loops (`Shared`, `Instruments`, `Income`, `Expenses`, `Loans`, with
  money rounding in `Money`).
- **Timeline and objects:** the stage/turn/step timeline and the
  per-stage random-event tables (`GameItems`), and building instruments
  from event definitions (`Backend`, `GameObjects`).
- **The player** (`Players`): its choice cache, option availability, the
  college hook, the restricted dictionary and the period-by-period
  simulation.
- **The game** (`Prosperville`): the step/turn/player counters of `next`
  and `back`, scoring and ranking, the AI's exhaustive search, and the
  random-event draw.

Instrument values are immutable records. A schedule loop is a method
proved equal to a recursive function of the definition. The player and
the game are classes whose fields the methods update in place.

Where the game's documentation and its code differ, the model follows
the code:

- The game ends at the game's last step (`last_step_of_stage[-1]`), not
  at the last step of every stage.
- The AI only keeps a combination whose end-of-stage score beats -99999.
- The rental-income skip compares option names with the keys of the
  choice table, which are event names. As written it never drops an
  object (`Prosperville.RentalSkipNeverFires`).
- The college raise on the first job (backend/prosperville.py:309-315)
  scales the salary's `amount` and recomputes its schedule. The schedule
  reads only `pay_check`, which the salary's constructor computed from the
  old amount (backend/income.py:25, backend/income.py:40-47). So the raise
  lifts `annual_salary` (backend/player.py:300), and with it the
  bankruptcy threshold, but never the pay (`Income.BoostSalary`,
  `Prosperville.Boosted`).

## Model

| member | source | states |
|---|---|---|
| Shared.TermToPeriod | backend/_shared.py:7-16 | a term in `yr`/`mth`/`prd` is 24/2/1 periods per unit; any other unit is an error, and only then |
| Shared.TermUnitsAgree | backend/_shared.py:7-14 | a year converts like twelve months and a month like two periods; for a non-negative term, longer units give at least as many periods |
| Shared.PeriodicAmount | backend/_shared.py:18-25 | an annual amount is `amount * pay_freq / 24` per payment, a one-time amount is unchanged, any other quote is an error |
| Shared.AnnualPaymentsSumToAmount | backend/_shared.py:18-21 | the payments of one year, one every `pay_freq` periods, add back up to the annual amount |
| Shared.PyMod | backend/loan.py:60 | Python's `%`: the remainder lies between 0 and the divisor, on the divisor's side |
| Shared.PyDivMod | backend/loan.py:60 | Python's `//` and `%` satisfy `a == (a // b) * b + a % b` |
| Shared.PyModZeroIffDivides | backend/loan.py:60 | Python's remainder is zero exactly when the divisor divides, so `(1 + i) % pay_freq == 0` picks the same payment periods |
| Shared.PaymentsDueStep | backend/loan.py:60-73 | one more period adds one level payment due exactly when it is a payment period |
| Instruments.NewBase | backend/othrbkendobj.py:5-19 | the base copies the definition's fields, converts the term to periods, and has `n_payments * pay_freq == n_periods`; an unknown term unit or a zero pay frequency is an error |
| Instruments.NewHar | backend/othrbkendobj.py:21-32 | a happiness adjustment ratio needs type `har`, and its rate is the amount |
| Money.Ceil | backend/loan.py:29 | `math.ceil`: the least integer not below `x` |
| Money.RoundHalfEven | backend/expense.py:54 | Python's `round`: within half of `y`, ties to even |
| Money.RoundToTwoPlaces | backend/expense.py:54 | `round(x, 2)` is `round(100 x) / 100` |
| Money.Round2Bounds | backend/loan.py:62 | `round(x, 2)` is a whole number of cents within half a cent of `x` |
| Money.CeilCents | backend/loan.py:29 | `math.ceil(x * 100) / 100` is a whole number of cents in `[x, x + 0.01)` |
| Money.CeilCentsLeast | backend/loan.py:29 | no whole number of cents lies between `x` and its ceiling to the cent |
| Money.Round2OfCentExact | backend/income.py:111 | rounding a whole number of cents leaves it unchanged |
| Money.RoundHalfEvenMonotone | backend/expense.py:54 | rounding never reverses the order of two amounts |
| Money.Round2Monotone | backend/expense.py:54 | rounding to the cent never reverses the order of two amounts |
| Money.Round2NonNegative | backend/loan.py:62 | a non-negative amount rounds to a non-negative one |
| Money.Pow | backend/loan.py:35 | `x ** k` with an integer exponent is positive for a positive base and never zero for a non-zero base |
| Expenses.CalculateExpenseSchedule | backend/expense.py:35-63 | the loop builds one pay entry per period, each equal to the specification `Pay(i)`: the current, possibly escalated payment in a payment period, otherwise 0 |
| Expenses.ExpenseFromDef | backend/expense.py:10-33 | construction succeeds exactly for type `expense` with a valid base and, when the rate is not zero, a known rate unit and a non-zero escalation interval; the periodic rate is 0 without a rate, otherwise `annual_rate * F / 24`; the stored schedule is valid |
| Expenses.NewExpense | backend/expense.py:10-33 | the constructor computes exactly `ExpenseFromDef` |
| Expenses.EscalationPeriods | backend/expense.py:53 | the payment escalates exactly in periods `i > F` with `i % F == 1`, and never when `F <= 1` or the rate is 0 |
| Expenses.ZeroRateIsFlat | backend/expense.py:46-54 | without a rate the current payment is the amount in every period |
| Expenses.ZeroRateSchedule | backend/expense.py:46-61 | without a rate the expense charges its amount in payment periods and 0 otherwise |
| Expenses.EscalateGrows | backend/expense.py:54 | at a non-negative rate, one escalation of a whole-cent payment gives a whole-cent payment no smaller |
| Expenses.CurrentStep | backend/expense.py:53-54 | one period never lowers the current payment and keeps it in whole cents |
| Expenses.CurrentIsCents | backend/expense.py:46-54 | a whole-cent amount at a non-negative rate keeps a non-negative whole-cent current payment |
| Expenses.CurrentNondecreasing | backend/expense.py:46-54 | at a non-negative rate the current payment never decreases and never drops below the amount |
| Loans.RowAt | backend/loan.py:58-85 | in every row `pay == payment` and `payment_interest + payment_principal == payment`; a payment period pays at most the level payment and at most the opening balance, and closes at opening minus payment; other periods pay nothing |
| Loans.RowFromCarry | backend/loan.py:56-85 | each row is one loop step from the balances carried into it, and it fixes the balances carried out |
| Loans.NonPaymentRowRepeats | backend/loan.py:74-76 | a period without a payment repeats the opening and closing balances and the interest to date of the period before it, the principal and no interest in the first period |
| Loans.CalculateSchedule | backend/loan.py:39-87 | the loop builds one row per period, equal to `RowAt(i)` |
| Loans.ZeroRatePayment | backend/loan.py:27-29 | without interest the payment is `amount / n_payments` rounded up to the cent; zero payments is an error |
| Loans.PeriodicPayment | backend/loan.py:30-35 | with interest the payment is the amortization formula rounded up to the cent; the inputs where Python divides by zero are errors |
| Loans.LoanFromDef | backend/loan.py:10-37 | a loan needs type `loan` and a valid base; it keeps the rate; without interest the periodic rate is 0 with the ceiling payment, otherwise the annual rate per payment interval with the level payment; the table is valid |
| Loans.NewLoan | backend/loan.py:10-37 | the constructor computes exactly `LoanFromDef` |
| Loans.LoanFromDefSucceeds | backend/loan.py:20-35 | construction succeeds exactly when the definition is a loan with accepted base fields and the payment formula does not divide by zero: a non-zero number of payments without interest, `PeriodicPayment` succeeding with interest |
| Loans.PayRow | backend/loan.py:60-69 | a payment period compounds the balance to the cent and pays `min(level payment, balance)` off it |
| Loans.StepKeepsBalancesNonNegative | backend/loan.py:60-73 | one period keeps non-negative balances non-negative when the rate is above -100% |
| Loans.BalancesNonNegative | backend/loan.py:56-85 | no balance of the table is ever negative for a non-negative principal and a rate above -100% |
| Loans.InterestIsRunningTotal | backend/loan.py:66-73 | the `interest` column is the running total of `payment_interest` |
| Loans.PaidBeforeIsSum | backend/loan.py:79-85 | the running total of payments is the sum of the `payment` column |
| Loans.ZeroRateStep | backend/loan.py:60-76 | without interest, a payment period pays `min(p, balance)` off the balance and other periods leave it alone, in whole cents |
| Loans.ZeroRateBalance | backend/loan.py:56-85 | without interest, after `k` periods the balance is what `k // pay_freq` level payments leave of the principal (never below 0), and the payments account for the rest |
| Loans.ZeroRateCarryStep | backend/loan.py:60-76 | the zero-rate balance relation carries from period `k` to `k + 1` |
| Loans.DueBalanceStep | backend/loan.py:60-76 | without interest, the balance after `k + 1` periods is what the payments due by then leave |
| Loans.RowStepBalance | backend/loan.py:60-76 | the balance carried out of a row follows from the one carried in |
| Loans.ZeroRateLoanPaysOff | backend/loan.py:27-29 | an interest-free loan whose pay frequency divides its term ends at balance 0, and its payments add up to the principal |
| Loans.ZeroRatePaysOff | backend/loan.py:56-85 | once the level payments due cover the principal, nothing is owed and the payments equal the principal |
| Loans.EnoughPayments | backend/loan.py:29 | `m` payments of at least `a / m` cover `a` |
| Loans.ExactBalanceClosedForm | backend/loan.py:35 | unrounded amortization satisfies `b_j * r == (a * r - p) * (1 + r)^j + p` |
| Loans.ClosedFormStep | backend/loan.py:35 | the closed form carries from one payment to the next |
| Loans.LevelPaymentRetiresPrincipal | backend/loan.py:35 | with a positive rate, the unrounded level payment pays off the principal in exactly `n` payments |
| Loans.CarLoanPayment | backend/loan.py:30-35 | the car loan of the event definitions (5000 at 6.5% over 5 years, paid every two periods) has a level payment of 97.84 |
| Loans.CarLoanLevelPayment | backend/loan.py:35 | the amortization formula for that car loan rounds up to 97.84 |
| Loans.CarLoanGrowth | backend/loan.py:35 | `(1 + 0.13 / 24) ** 60` lies in `[1.382817, 1.382818]` |
| Loans.CarLoanLevel | backend/loan.py:35 | with that growth, the unrounded car-loan payment lies in `(97.83, 97.84]` |
| Income.CalculateSalarySchedule | backend/income.py:29-49 | the loop builds one entry per period: the pay check in a payment period, 0 otherwise |
| Income.SalaryFromDef | backend/income.py:10-27 | a salary needs type `salary`, a valid base and a known quote; its pay check is the periodic amount rounded to the cent; its pay column is valid |
| Income.NewSalary | backend/income.py:10-27 | the constructor computes exactly `SalaryFromDef` |
| Income.AnnualPayCheck | backend/income.py:25 | an annual salary's pay check is a whole number of cents within half a cent of `amount * pay_freq / 24` |
| Income.SalaryPaidBefore | backend/income.py:40-47 | over the first `k` periods the salary pays one pay check per completed pay interval |
| Income.SalaryTotal | backend/income.py:40-47 | the whole pay column adds up to `n_periods // pay_freq` pay checks |
| Income.BoostSalary | backend/prosperville.py:309-315 | scaling the amount and recomputing the schedule keeps the pay check and the pay column, because the schedule reads only the pay check |
| Income.RawRowAt | backend/income.py:101-118 | a row as the loop appends it pays 0, its total appreciation is the carried total plus its appreciation, and its value never exceeds a non-zero cap |
| Income.AssetRowFromCarry | backend/income.py:101-118 | each row is one loop step from the carried balance and total, and it fixes what is carried out |
| Income.CalculateAssetSchedule | backend/income.py:84-124 | the loop builds one row per period, then overwrites the last row to liquidate the asset; every row equals `RowAt(i, n)` |
| Income.AssetFromDef | backend/income.py:54-82 | an asset needs type `asset`, a valid base, at least one period and a pay frequency of 1 or -1 (otherwise Python raises); it keeps the cap (0 when absent), has periodic rate `annual_rate * pay_freq / 24` and no recurring contribution when none is given |
| Income.NewAsset | backend/income.py:54-82 | the constructor computes exactly `AssetFromDef` |
| Income.EveryPeriodPays | backend/income.py:106 | with a pay frequency of 1 or -1 every period is a payment period |
| Income.ContributionRule | backend/income.py:103-104 | a contribution is added exactly when the interval is set, the period is not the first, the interval divides it and the global period is not past the recurring end |
| Income.Appreciations | backend/income.py:115 | the appreciation column, entry by entry |
| Income.CarriedTotalIsSum | backend/income.py:112 | the total carried into period `k` is the sum of the appreciation before it |
| Income.StoredAppreciations | backend/income.py:120-122 | liquidating the last row leaves the appreciation column unchanged |
| Income.TotalAppreciationIsRunningSum | backend/income.py:112-116 | each row's `total_appreciation` is the sum of the appreciation column up to and including it |
| Income.NextRowOpensAtValueEnd | backend/income.py:103-118 | the next row opens at this row's closing value plus any contribution |
| Income.Liquidation | backend/income.py:117-122 | only the last row pays; it pays its value before liquidation and ends at 0 |
| Income.AssetStepNonNegative | backend/income.py:103-111 | one period keeps a non-negative value non-negative when the rate is above -100% and the cap is non-negative |
| Income.CarriedValueNonNegative | backend/income.py:100-118 | the value carried into every period of an asset bought at a non-negative price is non-negative |
| Income.AssetValuesNonNegative | backend/income.py:100-118 | no row of such an asset has a negative opening or closing value |
| Income.AppreciationStep | backend/income.py:108-111 | from whole cents, a period's appreciation is exactly the change in value, and the closing value is whole cents |
| Income.CarriedValueCentExact | backend/income.py:100-118 | bought and capped at whole cents, the carried value stays whole cents |
| Income.ValueEndIsInitPlusAppreciation | backend/income.py:108-118 | every row's closing value is its opening value plus its appreciation |
| Backend.WithStart | backend/prosperville.py:299-302 | rebinding `start_period` on a copy keeps the object's body and schedule |
| Backend.RowsCoverTerm | backend/expense.py:51-61 | every object other than a happiness adjustment ratio has one schedule row per period of its term |
| Backend.KindNamesBody | backend/gameitems.py:143 | an object's `type` names its class, so a dispatch on `type` picks the right fields |
| Backend.InstrumentFromDefBuilds | backend/gameitems.py:143-163 | the class named by `type` builds the object, exactly when its constructor succeeds; the object keeps the kind, start and base fields; any other type fails |
| GameItems.InitialBuild | backend/gameitems.py:17-22 | the per-stage lists have one entry per stage and the counters start at 0 |
| GameItems.SetAt | backend/gameitems.py:44 | a write to a per-stage list keeps its length and sets the entry |
| GameItems.RandomTurns | backend/gameitems.py:80-97 | `k` random turns advance the turn counter by `k` |
| GameItems.AddRandomTurns | backend/gameitems.py:80-97 | the random-turn loop computes `RandomTurns` |
| GameItems.AddEvent | backend/gameitems.py:51-109 | one iteration of the event loop computes `EventStep` |
| GameItems.AddLastEvent | backend/gameitems.py:66-104 | the stage's last event closes its turn, then the random turns follow, as `EventStep` says |
| GameItems.AddStageEvents | backend/gameitems.py:50-109 | the event loop of a stage computes `EventsFrom` |
| GameItems.AddStage | backend/gameitems.py:25-111 | one iteration of the stage loop computes `StageStep` |
| GameItems.BuildStepTable | backend/gameitems.py:17-111 | the module's stage loop computes `StepTableOf`, an error where it raises |
| GameItems.StagePeriods | backend/gameitems.py:23-29 | stage periods count whole years from the first stage's starting age; the first stage starts at period 0 |
| GameItems.RandomTurnsEndAtStageEnd | backend/gameitems.py:78-90 | the last random turn ends at the stage's last period |
| GameItems.RandomTurnsAdjoin | backend/gameitems.py:88-90 | a random step's last period is the next random step's first period |
| GameItems.RandomBoundaryMonotone | backend/gameitems.py:78-90 | on a stage of non-negative length the random boundaries never decrease |
| GameItems.RandomTurnsOrdered | backend/gameitems.py:88-90 | every random step starts no later than it ends, and later ones start no earlier |
| GameItems.EventStepOk | backend/gameitems.py:62-73 | an event step fails exactly on a negative random-turn count, or on the last event when the random lists are missing or of unequal length |
| GameItems.EventsFromOk | backend/gameitems.py:50-109 | a stage's event loop succeeds iff the stage passes the checks |
| GameItems.StagesFromOk | backend/gameitems.py:24-111 | the rest of the stage loop succeeds iff every remaining stage passes its checks |
| GameItems.StepTableOk | backend/gameitems.py:17-111 | the tables build iff there is a stage and every stage passes its checks |
| GameItems.TileAppend | backend/gameitems.py:67 | a turn of steps `n..m` extends a tiling of steps `0..n-1` |
| GameItems.RandomTurnKeepsReady | backend/gameitems.py:82-97 | a random turn closes at its only step and keeps the tiling |
| GameItems.RandomTurnsKeepReady | backend/gameitems.py:80-97 | the random-turn loop keeps the tiling |
| GameItems.EventStepInner | backend/gameitems.py:104-109 | an event other than the last appends a row to the open turn |
| GameItems.CloseEventTurnReady | backend/gameitems.py:66-77 | closing the open turn at the current step readies the random-turn loop |
| GameItems.CloseStageSettles | backend/gameitems.py:102-109 | passing the step that closed the last turn settles the table |
| GameItems.EventStepLast | backend/gameitems.py:66-109 | the last event closes the open turn and each random turn is a turn of its own |
| GameItems.EventsFromClose | backend/gameitems.py:50-109 | the event loop of a well-shaped stage ends with every turn closed |
| GameItems.OpenStageOpens | backend/gameitems.py:25-26 | opening a stage opens a turn after the settled ones |
| GameItems.NoEventTurnReady | backend/gameitems.py:32-47 | the step of a stage without events closes its turn |
| GameItems.StageStepSettles | backend/gameitems.py:25-111 | a well-shaped stage adds whole turns that extend the tiling |
| GameItems.StagesFromSettle | backend/gameitems.py:24-111 | the stage loop over well-shaped stages keeps the tiling and adds at least one turn per stage |
| GameItems.StepTableTiles | backend/gameitems.py:17-111 | for well-shaped stages the turns tile the step table, one first and one last step per turn, with a random flag on every step |
| GameItems.RandomRowsAt | backend/gameitems.py:80-97 | random turn `i` is played as turn `turn0 + 1 + i` |
| GameItems.RandomTurnsRows | backend/gameitems.py:80-97 | the random-turn loop appends the random rows after the rows already there |
| GameItems.EventStepRows | backend/gameitems.py:51-109 | an event step appends the event's row in the current turn over the stage's period range, marked last of the stage only without random turns, and the random rows after the stage's last event |
| GameItems.NoEventStageRow | backend/gameitems.py:32-47 | a stage without events adds exactly one step with no event name over the stage's period range |
| GameItems.PostPass | backend/gameitems.py:113-123 | the post-pass computes `TimelineOf` |
| GameItems.TimelineMatches | backend/gameitems.py:113-123 | tables with the post-pass's entries, position by position, are `TimelineOf` |
| GameItems.FillSimLast | backend/gameitems.py:120-121 | the inner loop writes `v` on steps `lo..hi` and leaves the others |
| GameItems.TimelineTiles | backend/gameitems.py:113-123 | the turns' period ranges tile the horizon from period 0 to the final step's last period; only `period_sim_last` changes in the step table |
| GameItems.TileOrdered | backend/gameitems.py:116-121 | in a tiling, an earlier turn ends before a later one starts |
| GameItems.SimLastOfTurn | backend/gameitems.py:116-121 | once the post-pass has visited turn `t`, later turns leave that turn's steps alone |
| GameItems.TimelineSimLast | backend/gameitems.py:116-122 | every step of a turn other than the last simulates up to the period before the next turn starts |
| GameItems.StepTableReadyForPostPass | backend/gameitems.py:17-123 | the builder's output for well-shaped stages is what the post-pass indexes |
| GameObjects.Normalise | backend/gameitems.py:139 | one probability per weight |
| GameObjects.IndexStages | backend/gameitems.py:129-139 | the loop over stages computes `StageTablesOf` |
| GameObjects.SumNormalise | backend/gameitems.py:138-139 | the probabilities add up to the weights' sum over the total |
| GameObjects.NormaliseAt | backend/gameitems.py:139 | each probability is its weight's share of the total |
| GameObjects.StageOddsAreProbabilities | backend/gameitems.py:133-139 | a stage's odds are its weights over their sum, one per random event, and add up to 1 |
| GameObjects.StageTablesFromOk | backend/gameitems.py:130-139 | the rest of the stage loop succeeds iff every remaining stage's odds are defined |
| GameObjects.StageTablesFromOdds | backend/gameitems.py:130-139 | every stage gets its own odds entry, in order |
| GameObjects.StageTablesFromNames | backend/gameitems.py:130-131 | each name maps to a stage of that name, and no later stage bears it |
| GameObjects.StageTablesOk | backend/gameitems.py:129-139 | the stage tables build iff every stage's odds are defined; each stage then has its odds entry and each name maps to the last stage of that name |
| GameObjects.CollectOk | backend/gameitems.py:159-163 | a list of results collects iff each result is a value |
| GameObjects.CollectValues | backend/gameitems.py:159-163 | a collected list holds each result's value in order |
| GameObjects.CollectFailureStays | backend/gameitems.py:159-163 | once a prefix fails, the whole list fails with the same error |
| GameObjects.Instantiate | backend/gameitems.py:158-163 | the loop over one spec's definitions computes `InstrumentsOf` |
| GameObjects.InstrumentsOfAt | backend/gameitems.py:158-163 | a list that builds holds, at each position, what that position's definition builds |
| GameObjects.InstrumentsOfFailsOn | backend/gameitems.py:158-163 | one failing definition, an unknown type among them, fails the whole list |
| GameObjects.InstrumentsOfBuilds | backend/gameitems.py:158-163 | a list whose every definition builds, builds |
| GameObjects.SpecObjects | backend/gameitems.py:149-164 | an absent spec makes nothing, a dict or list makes its objects, anything else or a failing definition is an error |
| GameObjects.OptionEntries | backend/gameitems.py:171-176 | one entry per option, with its name and backend |
| GameObjects.BuildObjectsByName | backend/gameitems.py:166-176 | the loops over events and options compute `ObjectsByNameOf` |
| GameObjects.AddedNames | backend/gameitems.py:164 | every slot with objects stores under its name |
| GameObjects.AddAllOk | backend/gameitems.py:166-176 | the slots go in exactly when each one fits, in order |
| GameObjects.AddAllStores | backend/gameitems.py:164-176 | the stored map keeps what was there and maps each name with objects to its objects |
| GameObjects.ObjectsByName | backend/gameitems.py:146-176 | `pvBkEndObj_by_name` builds exactly when every entry fits, and then maps exactly the names with objects, each to the objects its own definitions build |
| GameObjects.AddAllFromEmpty | backend/gameitems.py:146-176 | from an empty map the slots go in when every one fits, and then exactly the slots with objects are stored |
| GameObjects.SharedNameFails | backend/gameitems.py:168-175 | a name shared by an entry with objects and any later entry makes the build fail |
| GameObjects.NotDictOrListFails | backend/gameitems.py:152-157 | a backend that is neither a dict nor a list makes the build fail |
| Players.GatherTally | backend/player.py:277-338 | the loop over the selected objects computes `TallyOf` |
| Players.ActiveAt | backend/player.py:284-289 | the objects kept are objects of the list that act in the period |
| Players.TallyOnlyActive | backend/player.py:284-289 | objects outside their term add nothing: the totals are those of the active objects alone |
| Players.TallyMoveLast | backend/player.py:280-336 | any one object may be taken last without changing the totals |
| Players.TallyOrderFree | backend/player.py:280-336 | the totals do not depend on the order of `selected_bked_objs`: any permutation gives the same ones |
| Players.ApplyCommutes | backend/player.py:292-336 | adding two objects' effects in either order gives the same totals |
| Players.DebtIsSumOfBuckets | backend/player.py:300-318 | a period's debt is the sum of its student, mortgage, car and other buckets |
| Players.AdjRatio | backend/player.py:47 | `score_adj_ratio` puts the starting happiness at exactly 100 |
| Players.Put | backend/player.py:345-351 | writing row `p` appends when the table ends at `p`, overwrites otherwise, and leaves the other rows alone |
| Players.NewRowRule | backend/player.py:340-381 | a written row's net income is income less spending, its wealth moves by net income less the debt change plus the asset change, its monthly spending sums the last two periods, and its score times `p + 1` is the happiness so far |
| Players.NewRowFollows | backend/player.py:277-381 | the row written from a period's totals keeps those rules, and its debt is the sum of its buckets |
| Players.SimFrom | backend/player.py:224-231 | a run from `p` to `pEnd` ends at a period in that range, keeps the rows before `p`, and the table then reaches its last period |
| Players.SimAt | backend/player.py:224-231 | one pass writes period `p` and ends the run at a period between `p` and `pEnd` |
| Players.SimStep | backend/player.py:224-231 | a run writes period `p`, then stops there if bankrupt, else goes on from `p + 1` |
| Players.SimFromWrites | backend/player.py:224-226 | each period of a run is written from the rows before it and its own totals |
| Players.SimFromStops | backend/player.py:224-231 | a run stops at the first period that breaks the bankruptcy rule, or else at `pEnd` |
| Players.SimKeepsRules | backend/player.py:224-226 | a run over a table that keeps the row rules leaves one that keeps them up to its last period |
| Players.SimRowKeepsRule | backend/player.py:224-226 | each row of such a run keeps the rules with the rows before it |
| Players.WealthClosedForm | backend/player.py:356-367 | a period's wealth is the initial cash plus all net income so far, less that period's debt, plus its assets |
| Players.ScoreIsMean | backend/player.py:381 | a period's score is the mean happiness over the periods up to it |
| Players.Availability | backend/player.py:193-209 | nothing for an unknown event or one without options; else the cached list, or every option available when nothing is cached |
| Players.CacheAfter | backend/player.py:206-208 | a query only adds the event it answers to the cache, keeps every earlier entry and gives the same answer when repeated |
| Players.LodgingAfterCollege | backend/player.py:85-89 | the dorm is open exactly when the college choice is not `stg1_no_college`; the other two lodging options are always open |
| Players.CollegeHook | backend/player.py:81-89 | a new or changed college choice rewrites the lodging availability, failing where the game has no such option; anything else leaves the cache alone |
| Players.SetChoiceOf | backend/player.py:77-96 | a choice is stored, and only then, when the hook passes and the option is offered; a refused choice leaves the choices unchanged |
| Players.NoCollegeClosesDorm | backend/player.py:85-93 | choosing no college closes the dorm, and choosing the dorm afterwards is refused |
| Players.Lookup | backend/player.py:519-527 | `d[name]` gives the stored value, an error exactly when the key is absent |
| Players.Stored | backend/player.py:528-533 | `d[name] = v` stores `v` under `name` and touches no other key, unless the set hook refuses |
| Players.Removed | backend/player.py:535-549 | `del d[name]` removes just that key, and does nothing for an absent key or when the delete hook refuses |
| Players.RestrictedDict.constructor | backend/player.py:428-501 | the dictionary starts from `init_dict`, bypassing the hooks |
| Players.RestrictedDict.Get | backend/player.py:519-527 | reading gives `Lookup` |
| Players.RestrictedDict.Set | backend/player.py:528-533 | writing leaves `Stored` |
| Players.RestrictedDict.Delete | backend/player.py:535-549 | deleting leaves `Removed` |
| Players.Simulated | backend/player.py:210-256 | `simulate` keeps the choices and objects, leaves a bankrupt player as it was, and otherwise keeps the rows before `pStart` and writes at least `pStart` |
| Players.Player.constructor | backend/player.py:14-74 | a new player has the given name, cash and kind, the starting summary, no choices, objects or rows, is solvent, and starts at happiness 100 |
| Players.Player.Copy | backend/prosperville.py:372 | a deep copy has every field of the original |
| Players.Player.GetOptionAvailability | backend/player.py:193-209 | the query answers `Availability` and leaves the cache as `CacheAfter` says, nothing else changed |
| Players.Player.SetChoice | backend/player.py:77-96 | `choices[e] = c` leaves what `SetChoiceOf` says and nothing else changed |
| Players.Player.UpdateScoreTable | backend/player.py:257-387 | a solvent player's row `p` is written from the period's totals, and the bankruptcy flag and period set by the bankruptcy rule; nothing changes once bankrupt |
| Players.Player.WriteRow | backend/player.py:340-387 | writes row `p` from the totals, then the bankruptcy flag and period |
| Players.Player.Simulate | backend/player.py:210-254 | `simulate` leaves the state `Simulated` says: the run `SimFrom`, its bankruptcy flag and period, and the summary of the periods written |
| Players.Player.RunPeriods | backend/player.py:224-231 | the period loop leaves the table and flag of `SimFrom` and returns its last period |
| Players.Player.StepPeriod | backend/player.py:224-231 | one pass of the loop either ends the run at `p` as bankrupt or leaves the rest of the run to `p + 1` |
| Players.Player.SetSummary | backend/player.py:235-254 | the summary is the per-month average of income, spending and net income over the periods written and the rest as at the last one |
| Players.NewPlayer | backend/player.py:27-47 | creating a player fails exactly on negative initial cash or a zero starting happiness, else gives a fresh, solvent player at happiness 100 |
| Prosperville.ChosenOption | backend/prosperville.py:280-285 | the option a stored choice picks exists exactly when the event and the option index exist, and is that option's name |
| Prosperville.ObjectsFor | backend/prosperville.py:280-295 | an event contributes only valid objects: the chosen option's, else the event's own, else none |
| Prosperville.CollegeRaise | backend/prosperville.py:305-315 | the first-job raise is 10% or 15% |
| Prosperville.Boosted | backend/prosperville.py:309-315 | a raised salary keeps its start period and stays a salary |
| Prosperville.Prepared | backend/prosperville.py:298-326 | an object the player receives is valid |
| Prosperville.PreparedShape | backend/prosperville.py:298-326 | a prepared object keeps its kind and schedule length, gets the step's first period when its start is unset, has its amount raised only for the first job's salary after a public or ivy-league college, and is dropped exactly when the rental skip fires |
| Prosperville.RentalSkipNeverFires | backend/prosperville.py:318-323 | the rental skip tests option names against the choice keys, which are event names, so it never drops an object |
| Prosperville.PreparedAll | backend/prosperville.py:298-326 | the objects received from a list are valid and no more than the list |
| Prosperville.Attached | backend/prosperville.py:275-326 | the objects attached over a run of events are all valid |
| Prosperville.PrepareObject | backend/prosperville.py:298-323 | preparing one object computes `Prepared` |
| Prosperville.AttachObjects | backend/prosperville.py:298-326 | the list's prepared objects are appended in order, nothing else of the player changes |
| Prosperville.AttachEvents | backend/prosperville.py:277-326 | the loop over the events leaves `AttachTo`: the objects appended, nothing else touched |
| Prosperville.Game.AddBkedObj2Player | backend/prosperville.py:264-331 | `___add_bkedobj_2_player` appends the objects of the events of turns `t1..t2`, the start period bound to the current step's first period |
| Prosperville.Combo | backend/prosperville.py:369 | a combination has one digit per event |
| Prosperville.ComboInRange | backend/prosperville.py:352-369 | every position below the product decodes to a combination of valid option indices |
| Prosperville.IndexOfCombo | backend/prosperville.py:369 | decoding then encoding a position is the identity: each combination is visited once |
| Prosperville.ComboOfIndex | backend/prosperville.py:369 | every combination of valid option indices is enumerated |
| Prosperville.ComboOrdered | backend/prosperville.py:369 | `product` yields the combinations in lexicographic order |
| Prosperville.BestInIsEarliestMax | backend/prosperville.py:364-394 | a bucket holds the earliest highest-scoring combination of its kind if that score beats -99999, and nothing exactly when none does |
| Prosperville.ChoicePrefersSolvent | backend/prosperville.py:397-401 | the AI keeps a bankrupt combination only when no solvent one beats -99999, and none only when no combination does |
| Prosperville.OptionEvents | backend/prosperville.py:345-352 | the events chosen for are known events with options, drawn from the turn's events |
| Prosperville.Sizes | backend/prosperville.py:352 | one option count per event |
| Prosperville.ChooseAllSnoc | backend/prosperville.py:375-381 | setting the choices up to event `i` is setting those before it, then event `i`'s |
| Prosperville.ChooseAllRecords | backend/prosperville.py:375-383 | a feasible combination records a choice for exactly the events chosen for, and the last event's choice is its digit |
| Prosperville.ChooseEach | backend/prosperville.py:373-381 | setting the choices one by one computes `ChooseAll`, a refusal marking the combination infeasible |
| Prosperville.EndRow | backend/prosperville.py:390 | the row scored lies within the table |
| Prosperville.Candidate | backend/prosperville.py:370-386 | a candidate run leaves at least one row to score |
| Prosperville.Outcomes | backend/prosperville.py:369-394 | one outcome per combination |
| Prosperville.OutcomesAt | backend/prosperville.py:369-394 | outcome `j` is that of the `j`-th combination `product` yields |
| Prosperville.ScoredIsFeasible | backend/prosperville.py:375-384 | a combination is scored exactly when every one of its choices is accepted |
| Prosperville.AiPickIsFeasible | backend/prosperville.py:369-401 | the combination the AI keeps is an enumerated one of valid indices, every choice accepted and recorded |
| Prosperville.TryCombo | backend/prosperville.py:370-390 | a combination is tried on a fresh copy of the AI, and a scored copy is in the candidate's state |
| Prosperville.Keep | backend/prosperville.py:388-394 | a bucket changes only to the new copy, and only on a strictly higher score |
| Prosperville.SearchCombos | backend/prosperville.py:364-394 | the search keeps a copy exactly when `ChoiceOf` the outcomes keeps a combination, and the copy is that combination's candidate |
| Prosperville.RunAi | backend/prosperville.py:355-401 | the player taking the AI's place is in the state `AiOutcome` gives: a fresh copy of the AI that played the best-scoring combination, or the AI itself when no combination scores above -99999 |
| Prosperville.Game.AiSuccessor | backend/prosperville.py:342-401 | the player taking the AI's place for the current turn is in the state `AiOutcome` gives (the AI unchanged when no combination scores above -99999) |
| Prosperville.Game.SimulateForAi | backend/prosperville.py:333-401 | `__simulate_for_ai` replaces only the AI, with a player in the state `AiOutcome` gives, and keeps the survivors and ranking of the turn's scoring |
| Prosperville.Game.AiSearchOk | backend/prosperville.py:342-359 | the search for the current turn is posed with the AI's own constants |
| Prosperville.Insert | backend/prosperville.py:206 | insertion adds one index to the list |
| Prosperville.Ranked | backend/prosperville.py:206 | the ranking lists `n` indices below `n` |
| Prosperville.InsertKeeps | backend/prosperville.py:206 | insertion adds exactly the new index |
| Prosperville.AppendSorted | backend/prosperville.py:206 | appending an index every ranked one is ahead of keeps the order |
| Prosperville.InsertSorted | backend/prosperville.py:206 | insertion keeps the order |
| Prosperville.RankedOrdered | backend/prosperville.py:205-206 | the ranking is in order of descending score, ties by index |
| Prosperville.RankedPermutes | backend/prosperville.py:205-206 | the ranking is a permutation of `0..n-1` |
| Prosperville.RankedIsStableSort | backend/prosperville.py:203-206 | `__rank_players` is the stable sort by descending score: a permutation of the indices in that order |
| Prosperville.Game.RankPlayers | backend/prosperville.py:203-206 | every human index once, the higher score first, ties by lower index |
| Prosperville.EventColumn | backend/gameitems.py:113-123 | the step table's event names, one per step |
| Prosperville.NewHumans | backend/prosperville.py:58-62 | one fresh, solvent human player per name, in order, all distinct |
| Prosperville.NewPlayers | backend/prosperville.py:58-72 | one player per name, then the AI, all fresh, distinct and in their starting state; the first player reports the first event's availability |
| Prosperville.Game.constructor | backend/prosperville.py:18-86 | for a non-negative cash, a non-zero starting happiness and a first stage whose first event is a defined event, the game starts at step, turn, stage and player 0 with every human a survivor and the AI last; the current event is step 0's and player 0 reports its availability |
| Prosperville.NewGame | backend/prosperville.py:18-86 | creating a game fails exactly when the cash is negative, the starting happiness is zero (backend/player.py:28-29), the first stage has no event, or its first event is not a defined event (the KeyError of line 73), with that error in that order; otherwise it gives the game the constructor builds |
| Prosperville.PlayTurn | backend/prosperville.py:241-243 | a player plays a turn: its objects attached, then its periods simulated |
| Prosperville.Targets | backend/prosperville.py:238-253 | each survivor's target is its state after playing the turn |
| Prosperville.Kept | backend/prosperville.py:246-253 | a bankrupt survivor is removed from its place, a solvent one kept, the others in order |
| Prosperville.ScoringStep | backend/prosperville.py:238-253 | one pass of the removal loop plays its survivor and keeps or removes it |
| Prosperville.FilterStep | backend/prosperville.py:246-253 | keeping or removing entry `i` keeps the loop's bookkeeping |
| Prosperville.RemoveKeepsIncreasing | backend/prosperville.py:249 | removing a survivor keeps the others in order |
| Prosperville.ScoreOne | backend/prosperville.py:239-253 | one pass of the loop plays survivor `left[i]` and keeps or removes it |
| Prosperville.ScoreSurvivors | backend/prosperville.py:237-253 | the loop leaves every survivor in its played state, the others untouched, and returns the solvent ones in order |
| Prosperville.Game.PlaySurvivors | backend/prosperville.py:237-253 | every survivor plays the turn, the others and the AI are untouched, and the players left are exactly the survivors still solvent |
| Prosperville.Game.ScorePlayers | backend/prosperville.py:234-262 | the survivors become exactly the former survivors still solvent; the move passes to the last of them, or to the AI when none is left; the AI is untouched |
| Prosperville.ScoresOf | backend/prosperville.py:204 | one score per human, in player order |
| Prosperville.Game.Rank | backend/prosperville.py:127 | `ranked_players` becomes the stable descending-score order of the humans |
| Prosperville.Game.ScoreAndRank | backend/prosperville.py:125-127 | after scoring and ranking, the survivors are the former survivors still solvent and the ranking is the stable sort of the human scores (`Scored`); the move is with the last survivor or the AI, and that player is last exactly when someone survives |
| Prosperville.Game.EndTurn | backend/prosperville.py:123-130 | the end of a turn keeps the step and the end flag and the survivors and ranking of `Scored`; every player is one it had or a fresh one (the AI's replacement); the move is with the last survivor or the AI, last exactly when someone survives |
| Prosperville.Game.IsLastPlayer | backend/prosperville.py:101-107 | the player to move is last exactly when someone survives and it is the last survivor or the AI |
| Prosperville.Game.ProgressPlayer | backend/prosperville.py:187-201 | the move goes to the nearest solvent human in that direction, every one passed over bankrupt, and stays put when there is none |
| Prosperville.Game.MoveOn | backend/prosperville.py:132-157 | the game ends when nobody survives or at the last step; else the last player opens the next step, and any other hands the turn to the next solvent player at the turn's first step; after a turn's scoring the counters move as `NextMove` says, and the scoring's survivors and ranking stay |
| Prosperville.Game.EnterNextStep | backend/prosperville.py:140-153 | the next step opens (`Opened`): played by the AI on a random step or one without an event, else by the first solvent human |
| Prosperville.Game.ReplayTurn | backend/prosperville.py:154-157 | the next solvent player starts the turn again at its first step |
| Prosperville.Game.FinishTurn | backend/prosperville.py:122-157 | the last player's move at a turn's last step scores and ranks the turn (`TurnEnded`: `Scored`, and the last survivor still to move when the step stays), moves the counters as `NextMove` says, and opens a new step as `Opened` says |
| Prosperville.Game.StepForward | backend/prosperville.py:158-159 | inside a turn only the step moves on |
| Prosperville.Game.PassOn | backend/prosperville.py:121-162 | at a turn's last step by a player who is not the last, the counters move as `NextMove` says and the turn passes to the next solvent player; the players, the survivors, the ranking and the event names stay |
| Prosperville.Game.Next | backend/prosperville.py:109-165 | `next` moves the counters as `NextMove` says; a turn's end leaves the survivors and ranking of `TurnEnded` and opens a new step as `Opened` says; any other move leaves the ranking and the survivor count, leaves the players but for the mover's availability cache and hands a turn to the next solvent player; then it draws on a random step and shows the step's event, the mover's cache holding what `ShowsEvent` says |
| Prosperville.Game.NextEndingTurn | backend/prosperville.py:121-165 | the last player's move at a turn's last step ends the turn as `FinishTurn` says, then draws and shows the step's event |
| Prosperville.Game.NextInTurn | backend/prosperville.py:121-165 | any other move leaves the players, the survivors, the ranking and the survivor count, and every player's state but the mover's availability cache; it moves the counters as `NextMove` says, hands a turn to the next solvent player, then draws and shows the step's event as `ShowsEvent` says |
| Prosperville.Game.StepBack | backend/prosperville.py:173-182 | at a turn's first step the previous solvent human takes its last step, otherwise the step moves back by one; the turn never changes |
| Prosperville.Game.Back | backend/prosperville.py:167-185 | nothing changes when the game cannot step back; else at a turn's first step the previous solvent human takes the turn's last step and otherwise the step moves back by one, in the same turn; then the draw and the event shown, as `ShowsEvent` says; the players change only in the mover's availability cache |
| Prosperville.Game.DrawRandomEvent | backend/prosperville.py:403-424 | on a random step, the drawn event of the stage's list becomes the step's event; nothing changes on any other step |
| Prosperville.StepEventDefined | backend/gameitems.py:133-136 | in a game whose creation succeeded, the event any step shows, drawn or a life event, is a defined event, so the event lookup of `__update_crnt_objs` succeeds |
| Prosperville.ShowEvent | backend/prosperville.py:228-230 | the player to move reports the event's availability through its cache, nothing else of it changing |
| Prosperville.Game.ShowCurrent | backend/prosperville.py:218-230 | the step's event becomes the current one, none for a step without an event, and the player to move reports its availability; no other player and nothing else of it changes |
| Prosperville.Game.UpdateCrntObjs | backend/prosperville.py:208-230 | `__update_crnt_objs` draws on a random step, then shows the step's event and its availability as `ShowsEvent` says; only the mover's availability cache changes among the players, and the ranking and survivors stay |

## Left out

- Floating point: money and scores are exact `real`s. Python's `round` is
  modelled as round-half-to-even to the cent on the exact value, and
  `math.ceil` as the exact ceiling. Float rounding errors are not modelled.
- `__calculate_happiness`: the sigmoid of wealth plus the tanh of spending
  is the function parameter `mood`. Transcendental functions are not
  available, and the model only needs the scaling by the ratio and the halving.
- The random-event draw (`numpy.random.multinomial` over the stage's odds)
  is the index parameter `draw`. The odds themselves are modelled
  (`GameObjects.StageOddsAreProbabilities`); the distribution of the draw is not.
- The GUI, `score_table` and `choice_table` (pandas views of the table and
  the choices), `__str__`/`__repr__` and `__setattr__` are presentation and
  Python plumbing, and are not modelled.
- `copy.deepcopy` is modelled as `Players.Player.Copy`, a fresh object with
  the same fields. The back-reference juggling of `crntGame` and
  `choices.player` around it is not modelled.
- `Players.RestrictedDict.constructor`: the `on_get` hook only runs before a
  read and cannot change it, so it is left out. So is the check that the
  hooks take the right number of arguments, since Dafny's types fix that.
- `Players.NewPlayer`: the `isinstance(game_instance, Prosperville)` check
  is enforced by the types.
- Prosperville.RunAi: when no combination scores above -99999, the source
  returns `None` (backend/prosperville.py:401), which is then stored in the
  AI's place, and the next use of the AI would fail. The model returns the
  AI itself, unchanged.
- Prosperville.Game.AiSuccessor: in the same case, `AiOutcome` gives the
  AI's state unchanged rather than no player, so
  `Prosperville.Game.SimulateForAi` keeps the AI as it was where the source
  would store `None`.
- Prosperville.NewGame requires `EventsDefined()` of the design: every
  random event and every life event after the first step is a defined
  event. The loader checks the random events (backend/gameitems.py:133-136)
  but not the life events. On a design with an undefined later life event,
  the source raises KeyError when a game reaches that step
  (backend/prosperville.py:222). The model does not create such a game, so
  it does not model that failure. Only the first step's event is checked
  when a game is created, as at backend/prosperville.py:73.
- Prosperville.Game.ShowCurrent: for the same reason, it does not model the
  KeyError of backend/prosperville.py:222. `Prosperville.StepEventDefined`
  shows that the lookup succeeds in every game the model creates.
- Prosperville.Game.constructor takes the success case only: a non-negative
  cash, a non-zero starting happiness and a first stage whose first event is
  a defined event.
  `Prosperville.NewGame` answers the other cases with the error the source
  raises.
- Prosperville.Game.Next, Prosperville.Game.NextEndingTurn, Prosperville.Game.FinishTurn and Prosperville.Game.EndTurn
  require `Ready()` and `AiReady()`: every survivor's score table reaches the
  turn's first period, and the AI's reaches its stage's first period. The
  source assumes this without checking it; the game's own order of play
  keeps it.
- Prosperville.Game.ScorePlayers states which players survive and that the
  AI is untouched, not each survivor's new state (objects attached, periods
  simulated); that is stated by `Prosperville.Game.PlaySurvivors` and
  `Prosperville.ScoreSurvivors`, which it calls.
- Prosperville.Game.ScoreAndRank does not restate each survivor's new state
  either; it carries the survivors and the ranking.
- Prosperville.Game.EndTurn states the survivors and ranking and that the
  players are the old ones or fresh, not the AI's new state nor each
  survivor's; `Prosperville.Game.SimulateForAi` (`AiOutcome`) and
  `Prosperville.Game.PlaySurvivors` state those.
- Prosperville.Game.FinishTurn does not state the AI's new state nor each
  survivor's, for the same reason as `EndTurn`.
- Prosperville.Game.NextEndingTurn does not state the AI's new state nor
  each survivor's, for the same reason as `EndTurn`.
- Prosperville.Game.Next, at a turn's end, does not state the AI's new state
  nor each survivor's, for the same reason as `EndTurn`; inside a turn it
  states every player's state.
- Prosperville.Design.DrawOk asks the drawn index to fit the list of every
  stage that has a random step, so it is bounded by the shortest such list.
  The source draws from the current stage's list only. The stage that draws
  is known only after the move, so the bound is stated for all of them.
- Prosperville.Design: the game engine takes the step table and the
  per-turn and per-stage lists as a value that satisfies `Design.Valid()`.
  The builder's output is proved to tile the timeline
  (`GameItems.StepTableTiles`, `GameItems.TimelineTiles`), but no lemma
  assembles a `Design` from it.
- GameItems.StepTableTiles and the tiling lemmas require every stage with
  events to have at least one random turn and a last event whose name is
  used once. Otherwise the source silently writes misaligned columns.
  The builder itself is modelled for every input, its errors included.
- Loans.LoanFromDef and Loans.NewLoan require a loan with interest to be
  paid off in a whole number of payments, so that the amortisation formula
  uses an integer power. A fractional power of a real is not available.
- Income.AssetFromDef: an asset whose pay frequency is not 1 or -1 and that
  lasts at least one period fails with an error. In the source that case
  reads a local variable before assigning it.
- Loans: that the principal paid adds up to the amount borrowed is proved
  for loans without interest (`Loans.ZeroRatePaysOff`) and for the exact
  level payment (`Loans.LevelPaymentRetiresPrincipal`). It is not proved
  for a loan with interest and rounded payments.
- The design catalogue (backend/design/eventdef.py) and the pandas data
  are inputs (`Catalog`, `Objects`, `StageDef`); the catalogue's content is
  not part of this model, except the car loan checked against its
  documented payment (`Loans.CarLoanPayment`).
- Loans.CarLoanPayment proves the car loan's level payment only. Its table is
  not evaluated: the total interest of 869.73 and the final balance of 0 are
  not proved. Its 120 rows (60 payments) of rounded arithmetic are more
  than the verifier evaluates within its limits.
