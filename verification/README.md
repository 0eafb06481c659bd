# DoDash decision engine

DoDash is a trading bot whose decisions are pure step functions and state machines; thin drivers run
the effects around them. This project models that core and proves what it keeps over whole runs.

**The P7 campaign engine.** `Depth` takes a quantity from an order book level by level; `Sizing` finds the
largest lot count a 10,000 budget funds; `Evidence` decides whether a book may be used and what a position
would liquidate for. `Ledger` is the event-sourced ledger of one slot per product and day, with optimistic
concurrency on a portfolio version; `LedgerRules` says exactly what it accepts and writes, and `LedgerRuns`,
`LedgerEnds` and `LedgerStuck` are about its histories. `Marks`, `JointMarks`, `EventMarks` and `Benchmark` are the
hourly marks, the two mark states kept side by side, the marks after fills and the buy-and-hold legs; `MarkRules`
and `EntryRules` say exactly what these accept and what a mark is worth. `Drawdown` and `Campaign` are the sampled
drawdown and the campaign's safety evaluation. `Shadow` composes all of them; `ShadowRules` states the campaign's
phases and gates, `ShadowRuns` is about every run of it, `ShadowFills` about what a fill pays and a mark is worth, and
`ShadowJobs` about the work list that drives it. `BlockedMarks`, `MarkRecords`,
`MarkHopes`, `MarkCounts`, `MarkLifts` and `MarkRuns` say exactly when the block of an unmarked fill can still
be lifted.

**The execution protocols.** `KillSwitch` is the account kill switch and its step loop; `KillPatience` says exactly
which answers it retries, which it gives up on and when it completes; `KillVenue` puts it next
to an exchange whose answers may be lost and whose orders may execute late, and `KillRestart` starts a kill
where a crash left another, or where a sell of unknown outcome is still on its way. `ProtectedSell` is the
protected sell and its step loop; `ProtectedSellLife` adds checkpoints, crashes and resumes, and `SellTruth` says
what the exchange must have answered for each report. `PerpStore`,
`PerpRunner` and `PerpOrders` are the perp order tables, the runner, and the runner under crashes at every
await with any number of calls interleaved, requests that arrive late, and ids asked for again; `PerpReuse` says
which starts keep every order sent once, `PerpTruth` when the stored outcome is what the venue did, and `PerpDoubt`
that both conditions are exact.

**The trading cycle.** `TradingCycle` is the cycle machine, one macrostep per event (the handler, then the
eventless transitions). `TradingCycleRuns` and `TradingCycleSafety` hold the invariants of every run,
`TradingCycleEnds` the measure that bounds a cycle. `TradingCycleTales` tells every state from the events alone: which
decisions a submission follows, which event an outcome comes from, how often each effect is retried, and what an
order of the operator does.

**Signals, exits and one-pass algorithms.** `RegimeFilter`, `ProtectiveOrder` and `FirstHit` prove the incremental
machines equal to short declarative specifications. `FundingRates`, `TargetExposure`, `ExecutionSchedule` and
`OutcomeWindows` are loops proved against what they are for. `Basics` holds shared vocabulary.

## Conventions

Prices, quantities and cash are exact reals, times are integers in milliseconds. An update-in-place loop of the
source is a method with a loop, proved equal to a specification function, and the theorems are about that
function. A refused command is a `Fail` with the source's code and leaves no trace. Random, network and clock
inputs are parameters; in the protocols they are actions a run may contain in any order. JavaScript objects
whose insertion order the source relies on are sequences. Identifier and hash patterns are predicates over
strings; hashing itself is not part of this model.

## Findings

What the proofs turned up that a reader of one function would not see:

- A fill whose mark is observed without an equity on both portfolios blocks every later intent, quote request
  and fill of the campaign, in every continuation (models/p7-prospective-event-marks.ts:37-42, 58-59;
  `BlockedMarks.BlockedForever`). Being unobserved before the end is not enough to lift the block: the mark must
  also be requestable with both benchmark legs bought or still buyable, and once requested it must be observed
  within two freshness spans and before any portfolio version moves (models/p7-prospective-event-marks.ts:61-90;
  `MarkLifts.LiftedExactlyWhenHopeful`, an if and only if over every continuation of every run). So one bought and
  one failed leg end all trading while the campaign still observes (`MarkRuns.HalfBoughtStrands`), and so does one
  mark recorded without books (`MarkRuns.UnseenMarkStrands`).
- A ledger intent whose window passes before its quote is requested, or whose portfolio version moves on, can
  never be closed, and keeps every later intent of its product out; every other open intent can be closed
  (models/p7-prospective-ledger.ts:115-123, 158-159; `LedgerEnds.OpenIntentsCloseUnlessStuck`, an if and only if over
  every reachable state). Both happen (`LedgerStuck.ClockStrands`, `LedgerStuck.MissedSlotStrands`).
- The kill switch has a loop that uses no retry budget: orders that keep reappearing send it round until the
  driver's cap of 64 (models/live-account-control.machine.ts:302-306; `KillSwitch.ReappearingOrdersReachTheCap`,
  `KillSwitch.CapIsReached`). With k answers that show open orders it takes at most 31 + 3k steps, so the cap
  takes at least eleven of them (`KillSwitch.ExecuteKill`).
- A kill started again after a crash can report the account flat and still see a sell go through if and only if
  the crash left a flatten at the exchange that can execute later, since the new kill does not know of it
  (apps/agent/src/coinbase-control.ts:413-545, 950-965; `KillRestart.RestartsCompleteUnlessPending`). The same holds of
  the safety flatten after a sell whose outcome stayed unknown (`KillRestart.DoubtfulSellsOutliveTheFlatten`). The
  exchange executes no sell beyond the free balance in either.
- The stored outcome of a perp order can be false for good in three ways, and in no other
  (`PerpTruth.StoredOutcomesAreTrue`, `PerpDoubt.ActionsDecide`, an if and only if for each action). A recovery loads an
  order that a call has yet to send (apps/agent/src/hyperliquid-orchestrator.ts:527-542; `PerpDoubt.OverlapHappens`).
  An answer that an order was never placed is believed while its request, whose own answer was lost, may still arrive
  (apps/agent/src/hyperliquid-execution.ts:141-165, 268-272; `PerpDoubt.LateArrivalHappens`, with no recovery involved).
  Or an id not stored as accepted is asked for again while it is stored as rejected, the venue may know it, or another
  call is concerned with it.
- An operator may ask for a perp order under an id used before (apps/agent/src/hyperliquid-control.ts:109-111, 193-199).
  The table keeps the first intent and the runner sends the second (`PerpReuse.ReuseSendsTwice`). Every order is sent
  once and with its stored intent if and only if no start is for an id already sent, about to be sent, or stored for
  another intent (`PerpReuse.StartsDecide`, start by start).
- An increase of the position restarts the trailing stop from the new average entry, so it loosens the stop
  exactly when that entry is below the highest price seen (models/protective-order.machine.ts:74-80;
  `FirstHit.IncreasesRestartTheTrail`; from 180 to 135 in `FirstHit.StopsDoLoosen`).

## Model

| member | source | states |
|---|---|---|
| Depth.ValidSide | models/p7-prospective-quote.ts:22-33 | the one-pass check that remembers one price accepts exactly the sides whose levels are positive and in strict order over all pairs |
| Depth.IsDepthBook | models/p7-prospective-quote.ts:35-37 | accepts exactly the books with two valid sides and an uncrossed top |
| Depth.ConsumeDepth | models/p7-prospective-pricing.ts:17-31 | the level loop answers the specification on all inputs, its numeric range refusal is dead, and average price times quantity is the notional |
| Depth.GreedyIsAllocation | models/p7-prospective-pricing.ts:17-31 | what the consumer charges is the notional of a real way of taking exactly that quantity |
| Depth.ConsumptionIsOptimal | models/p7-prospective-pricing.ts:17-31 | over every way of taking a quantity from the levels, its BUY notional is the least and its SELL notional the greatest |
| Depth.BuyCostSuperadditive | models/p7-prospective-pricing.ts:17-31 | buying in one go never costs less than two purchases each priced on the full book |
| Depth.RoundTripNeverGains | models/p7-prospective-pricing.ts:17-31 | selling a bought quantity back on the same book never returns more than was paid |
| Depth.NeverBetterThanTheTop | models/p7-prospective-pricing.ts:17-31 | the average price of a priced quantity is never better than the top of its side |
| Sizing.SizeBenchmarkBuy | models/p7-prospective-benchmarks.ts:28-73 | the binary search and the check beyond the book answer the specification by downward scan, for every book and decimals |
| Sizing.SizedIsGreatestEverywhere | models/p7-prospective-benchmarks.ts:28-73 | a size is the greatest lot count whose slipped, fee-laden cost fits the budget, in this book and in every deeper book with asks at or above the last |
| Sizing.DepthVerdict | models/p7-prospective-benchmarks.ts:57-69 | for the best lot count, a deeper book would afford one more exactly when the two tests of the code say so |
| Sizing.UnsizedVerdicts | models/p7-prospective-benchmarks.ts:28-73 | INSUFFICIENT_DEPTH exactly when depth rather than budget binds, ZERO_FUNDED_LOTS exactly when no deeper book funds a lot, NUMERIC_RANGE exactly when lot counts leave the safe integers |
| Evidence.MarkBounds | models/p7-prospective-pricing.ts:62-79 | an available liquidation mark lies between the cash and cash plus position at the best bid; its exact value is MarkRules.LiquidationsValue and ShadowFills.MarksAreSales |
| Evidence.EligibleExactly | models/p7-prospective-quote.ts:39-58 | a book may price an execution if and only if it is uncached, in sequence, from the campaign's source for that product, asked for after the intent, prompt, in its window, stamped and a depth book, in a verified 180-day campaign |
| Evidence.MarkableExactly | models/p7-prospective-pricing.ts:62-73 | a book may value a position if and only if it is in sequence from the source, prompt since the start, a depth book and at most 5 seconds old at the valuation |
| Evidence.PricesExactly | models/p7-prospective-pricing.ts:37-54 | a price is given if and only if the book is eligible, used after it came, within 5 seconds of its stamp, within the window and before the end, and has the depth; it is the price of that depth |
| Evidence.ScopesExactly | models/p7-prospective-pricing.ts:62-73 | a mark is refused for its scope if and only if it lies outside a named 180-day campaign from a midnight |
| Evidence.BuyThenMarkLoses | models/p7-prospective-pricing.ts:62-79 | buying and marking on the same depth always shows a loss |
| MarkRules.LiquidationsValue | models/p7-prospective-pricing.ts:62-79 | the equity of a mark is exactly cash plus bid-side notional less 0.6 percent of it, available if and only if the balances are valid and, with a position, a fresh book has the depth |
| ShadowFills.MarksAreSales | models/p7-prospective-pricing.ts:62-79 | that equity is the cash the ledger would hold, before its snap, after selling the whole position on that book at the runner's price; the exit fee is that sale's fee and the position's value what the sale adds |
| Ledger.FillKeepsSigns | models/p7-prospective-ledger.ts:159-168 | a fill never makes cash or position negative, whatever the price and fee given |
| Ledger.FillsCostTheirFee | models/p7-prospective-ledger.ts:160-169 | a fill is a trade at its price: cash plus position at that price falls by the fee alone and the position moves by the quantity to the intent's side, each within the snap tolerance |
| Ledger.StepKeepsInvariant | models/p7-prospective-ledger.ts:79-184 | an accepted command moves one slot strictly forward by one revision, never a terminal one, touches only its product's portfolio and only on termination, and keeps at most one open intent per product |
| LedgerRules.AcceptedExactly | models/p7-prospective-ledger.ts:79-184 | in every sound state a command is accepted if and only if its phase, window, version, sequence and contents allow it, each condition spelled out |
| LedgerRules.AcceptedIsWritten | models/p7-prospective-ledger.ts:79-184 | an accepted command changes exactly its slot, the balances after a fill, one version after a termination, and the newest sequence after an eligible quote |
| LedgerRules.StartsExactly | models/p7-prospective-ledger.ts:68-77 | a ledger starts if and only if its names and digest are valid and it is before a 180-day period from a midnight, and then with ten thousand per product |
| LedgerRuns.EveryReachableStateIsSound | models/p7-prospective-ledger.ts:69-184 | the invariant holds after every history of accepted and refused commands |
| LedgerRuns.SixCommandsPerSlot | models/p7-prospective-ledger.ts:79-184 | the revision of a slot counts the commands it accepted, never more than six |
| LedgerRuns.VersionFixesPortfolio | models/p7-prospective-ledger.ts:158-182 | while a product's version stands still so do its cash and position |
| LedgerRuns.FillSeesAdmittedPortfolio | models/p7-prospective-ledger.ts:109-120 | serialisability: a fill is applied to exactly the portfolio its slot was admitted on, whatever other slots did in between |
| LedgerRuns.BalancesAreTheReplayOfFills | models/p7-prospective-ledger.ts:158-184 | conservation: cash and position are the opening plus the replay of the filled slots within one snap tolerance per fill, neither negative; the version counts the terminal slots |
| LedgerEnds.OpenIntentsCloseUnlessStuck | models/p7-prospective-ledger.ts:121-160 | in every reachable state an open intent can still be closed if and only if its version is current and, before a quote request, its window is open; a stuck one keeps all later intents of the product out |
| LedgerEnds.SlotsCloseUnlessStranded | models/p7-prospective-ledger.ts:79-160 | in every reachable state any slot not yet closed can be closed if and only if it is not stranded: admitted on an old version or past its window, or holding a stuck intent |
| LedgerEnds.StuckForever | models/p7-prospective-ledger.ts:115-123 | a stuck intent stays open over any continuation and no intent of its product is accepted again |
| LedgerEnds.CloseLogCloses | models/p7-prospective-ledger.ts:121-160 | any other open intent is closed by the one or two commands given |
| LedgerStuck.ClockStrands | models/p7-prospective-ledger.ts:121-123 | a short history from the start leaves an intent stuck by the clock alone |
| LedgerStuck.MissedSlotStrands | models/p7-prospective-ledger.ts:148-182 | another leaves one stuck inside its window, because an older slot of the product was closed as missed |
| Marks.ReportCoverage | models/p7-prospective-marks.ts:121-150 | the counting and gap loops give the specified report; available, unavailable and unobserved hours add up to the elapsed ones |
| Marks.MissingIsUnobserved | models/p7-prospective-marks.ts:127-136 | the missing list holds exactly the elapsed hours without an observation, each once, ascending |
| Marks.GapIsLongestSilence | models/p7-prospective-marks.ts:121-150 | the reported gap exceeds a length exactly when there is a longer stretch without a time stamp |
| Marks.FullCoverageHasNoProofGap | models/p7-prospective-marks.ts:69-150 | full hourly coverage implies every gap is below two hours, hence no proof gap |
| Marks.MarkStepKeepsInvariant | models/p7-prospective-marks.ts:50-99 | every accepted mark command keeps one slot per hour, requested in the hour it is for, and observed only after its request, at or before now |
| MarkRules.HourlyMarksExactly | models/p7-prospective-marks.ts:50-99 | a mark command is accepted if and only if its hour, order and phase allow it; an observation values the balances as they are at that instant, and nothing else is written |
| MarkRules.HourlyMarksValue | models/p7-prospective-marks.ts:50-99 | each hourly mark has the exact value of liquidating the product's balances on the recorded book, and only on a book that answers the request |
| JointMarks.ApplyJointMark | models/p7-prospective-joint-marks.ts:11-44 | the in-place rewriting of the two portfolio records equals the specification |
| JointMarks.JointKeepsLockstep | models/p7-prospective-joint-marks.ts:11-44 | the two mark states stay in lockstep on keys, phase and request time, and the benchmark side never refuses on its own |
| MarkRules.BenchmarkMarksMask | models/p7-prospective-joint-marks.ts:11-44 | the benchmark side values exactly the legs that were bought and makes the others unavailable, consolidated over what is left |
| EventMarks.EventStep | models/p7-prospective-event-marks.ts:44-103 | event commands advance their slots only, never an observed one, and create none |
| EventMarks.ExpectationStep | models/p7-prospective-event-marks.ts:31-36 | a durable fill appends exactly its own expectation |
| MarkRules.EventMarksExactly | models/p7-prospective-event-marks.ts:44-103 | an event command is accepted if and only if its slot, phase and instant allow it |
| MarkRules.EventMarksAreWritten | models/p7-prospective-event-marks.ts:44-103 | an accepted command writes its own slot alone: the snapshots of a request, or valuations of both portfolios on them |
| MarkRules.EventObservationsValue | models/p7-prospective-event-marks.ts:77-103 | an observation is exactly the liquidation value per product of the balances it is for, and their sum when both are available |
| BlockedMarks.BlockedForever | models/p7-prospective-event-marks.ts:37-59 | over any run, a fill's mark once observed without both equities stands in every later state, blocks it, and no intent, quote request or fill of the ledger is accepted again |
| MarkRecords.EveryRunIsKept | models/p7-prospective-event-marks.ts:61-70 | in every run a requested fill mark has both legs closed and unchanged since, a snapshot no newer than the ledger, and a request time between the start and now; an observing campaign is a fixed point of its own evaluation |
| MarkLifts.LiftedExactlyWhenHopeful | models/p7-prospective-event-marks.ts:61-97 | in every reachable state some continuation lifts the block of a fill if and only if its mark is unobserved before the end, each leg is bought or can be bought now, and a requested mark has an unchanged snapshot and is at most two freshness spans old |
| MarkHopes.HopelessForever | models/p7-prospective-event-marks.ts:61-97 | once that condition fails it fails in every continuation, whatever commands, clocks and gaps it holds |
| MarkLifts.HopelessEndsTrading | models/p7-shadow-runner.ts:183-346 | and the campaign never accepts an intent, a quote request or a ledger fill again |
| MarkLifts.HopefulLifts | models/p7-prospective-benchmark-entry.ts:34-104 | while it holds, buying the open legs, requesting the mark and observing it, all at the present instant, is accepted and lifts the block |
| MarkRuns.UnseenMarkStrands | models/p7-prospective-event-marks.ts:71-97 | such a state is reachable while the campaign observes: both legs bought, and one mark recorded without books |
| MarkRuns.HalfBoughtStrands | models/p7-prospective-event-marks.ts:77-79 | and so is one with a bought and a failed leg, where the mark is not even requested |
| MarkCounts.NumbersAreLeft | models/p7-prospective-event-marks.ts:31-36 | a campaign never has more than 363 event slots, so fill numbers cannot run out |
| Benchmark.ResolutionSpendsTheBudget | models/p7-prospective-benchmark-entry.ts:34-104 | a quoted leg is filled exactly under the listed conditions and then holds the greatest funded lot count and the rest of the budget; otherwise it fails without a holding |
| Benchmark.EntryStep | models/p7-prospective-benchmark-entry.ts:34-104 | a closed leg never changes, other legs are untouched, and a holding comes only from a resolution while the campaign observes |
| EntryRules.ProfilesExactly | models/p7-prospective-benchmarks.ts:11-26 | a profile is registered if and only if there is none, the campaign has not started, and its source, digest and lot precisions are valid |
| EntryRules.EntriesAcceptedExactly | models/p7-prospective-benchmark-entry.ts:34-104 | a leg command is accepted if and only if its phase and, for requests and expiries, the opening window allow it |
| EntryRules.EntriesAreWritten | models/p7-prospective-benchmark-entry.ts:34-104 | an accepted command writes its own leg alone; a book is taken as a quote if and only if it answers the request, is eligible and fresh |
| EntryRules.FillsAddUp | models/p7-prospective-benchmark-entry.ts:77-100 | the fill of a leg is its lot at the slipped average price with 0.6 percent fee, and with the cash left it adds up to the budget |
| Drawdown.DrawdownIsPeakToTrough | models/p7-prospective-campaign-safety.ts:39-69 | the running peak computes the worst fall over all pairs of a sample and a peak at or before it, between zero and one |
| Drawdown.SortAfterInsertion | models/p7-prospective-campaign-safety.ts:39-69 | sorting a series with one more sample is the sorted series with that sample inserted |
| Drawdown.DrawdownNeverDecreases | models/p7-prospective-campaign-safety.ts:39-69 | one more sample, anywhere in the record, never lowers the drawdown of the sorted series |
| Campaign.EvaluateSafety | models/p7-prospective-campaign-safety.ts:39-69 | the loop that updates the peak and the worst fall equals the specification |
| ShadowRules.PhasesExactly | models/p7-prospective-campaign-safety.ts:39-69 | the phase after an evaluation, exactly: stopped above half the peak, ended at the end, suspended by a proof gap or a response left open at recovery, otherwise as it was, with the reason on record |
| ShadowRules.BreachesInvalidate | models/p7-prospective-campaign-safety.ts:39-69 | a negative balance or mark invalidates a bound campaign; an unbound one is only dated |
| ShadowRules.SeriesIsTheMarks | models/p7-prospective-campaign-safety.ts:39-69 | the drawdown is taken over exactly the consolidated hourly and event marks that are not in the future |
| ShadowRules.CampaignCommandsExactly | models/p7-prospective-campaign-safety.ts:71-89 | a campaign command is accepted if and only if its clock, phase and period allow it and the evaluation of what it prepares does not throw |
| Shadow.ApplyShadow | models/p7-shadow-runner.ts:183-346 | the runner refuses a clock that runs back; an accepted command changes its own component only, and a fill appends exactly its own expectation |
| Shadow.StepTouchesOne | models/p7-shadow-runner.ts:183-346 | an accepted command leaves every component it is not for as it was, dates the campaign, and leaves one more event slot, its own expectation, exactly when it fills something |
| ShadowFills.FillsPayTheSpread | models/p7-shadow-runner.ts:183-373 | an accepted ledger fill is priced on a recorded, eligible, still fresh book inside its window, strictly on the worse side of the top, with a fee of 0.6 percent of what it trades |
| ShadowRules.LedgerStepsExactly | models/p7-shadow-runner.ts:183-346 | the runner accepts a ledger command if and only if the ledger does and, for intents, quote requests and fills, the campaign observes unblocked, a fill being at the very price and fee of the recorded book, still fresh |
| ShadowRules.MarkStepsExactly | models/p7-prospective-marks.ts:107-119 | the runner accepts an hourly mark if and only if both mark states do: the clock check before the commit refuses nothing that was taken at the same instant |
| ShadowRules.EventStepsExactly | models/p7-prospective-event-marks.ts:105-116 | and so with event marks |
| ShadowRules.CommandsReachTheirPart | models/p7-shadow-runner.ts:183-346 | an accepted command leaves exactly what its own part makes of it, and the campaign evaluated on the whole projection that results |
| ShadowRules.LeftOpenAnywhere | models/p7-shadow-runner.ts:135-156 | a recovery finds a response left open if and only if a ledger slot, an hour, a benchmark leg or an event was asked for and not recorded |
| ShadowRules.GapsSuspend | models/p7-shadow-runner.ts:498-511 | a gap in the request log suspends a campaign that still observes, adds its reason, and touches nothing else |
| ShadowRuns.EvaluationIsSafe | models/p7-shadow-runner.ts:135-156 | on sound parts the evaluation neither throws nor invalidates, brings the drawdown up to date and never resumes observing |
| ShadowRuns.StepKeepsSound | models/p7-shadow-runner.ts:183-346 | only the touched component can refuse a step, apart from a reused fill number; an accepted step keeps the whole cross-component invariant |
| ShadowRuns.EveryRunIsSound | models/p7-shadow-runner.ts:183-346 | in every run phase invalid is unreachable, the kept drawdown is that of the full sorted series once bound, it is in [0,1], and above one half the campaign is stopped or ended |
| ShadowRuns.SafetyNeverThrows | models/p7-shadow-runner.ts:135-156 | inside a run the campaign clock and the coverage scope exceptions never fire |
| ShadowRuns.MoneyMovesOnlyWhileObserving | models/p7-shadow-runner.ts:183-346 | a balance of either portfolio moves only while the campaign observes |
| ShadowRuns.LeavingIsForever | models/p7-prospective-campaign-safety.ts:19-37 | once a campaign leaves observation it never observes again and no balance moves again, over any continuation |
| ShadowRuns.EarlierFillsAreMarked | models/p7-prospective-event-marks.ts:31-38 | when a ledger fill is accepted every earlier fill has an available mark on both portfolios |
| ShadowRuns.GapKeepsSound | models/p7-shadow-runner.ts:498-511 | suspending for a request gap keeps the invariant, moves no money and leaves observation |
| ShadowJobs.PlanShadowJobs | models/p7-shadow-runner.ts:410-497 | the pushing loops with their early exits return the first jobs of the agenda that are not completed, and refuse exactly the invalid schedules |
| ShadowJobs.NothingDueIsLeftOut | models/p7-shadow-runner.ts:410-497 | a page is empty exactly when all of the agenda is completed, and holds only due, uncompleted jobs |
| ShadowJobs.EveryDayIsDue | models/p7-shadow-runner.ts:474-481 | the daily agenda holds one job per product for every day from the start up to now and before the end, and nothing else |
| ShadowJobs.EveryHourIsDue | models/p7-shadow-runner.ts:482-487 | the hourly agenda holds one job for every hour from the start up to now and before the end, and nothing else |
| ShadowJobs.DailiesComeFirst | models/p7-shadow-runner.ts:474-487 | a page of the planner that holds an hourly job leaves no due day of either product neither completed nor on that page |
| KillSwitch.EventsBurnFuel | models/live-account-control.machine.ts:264-411 | every accepted event lowers a measure of retries and phase, except a snapshot with open orders, which may add two; attempts stay within limits |
| KillSwitch.RunsAreBoundedByOpenOrders | models/live-account-control.machine.ts:264-411 | k snapshots with open orders allow at most fuel + 3k accepted events from any cancelling state, and for every k a run of 2k events with k of them is accepted |
| KillSwitch.ReappearingOrdersReachTheCap | models/live-account-control.machine.ts:302-306 | on a venue that clears every cancellation and shows an open order in every account the driver alternates between two states and is never final |
| KillSwitch.CapIsReached | apps/agent/src/coinbase-control.ts:441-545 | on 64 such answers the loop ends at its cap |
| KillSwitch.ExecuteKill | apps/agent/src/coinbase-control.ts:413-545 | the result is that of the first final state; success means the last account read was flat with no open order; k answers with open orders allow at most 31 + 3k steps; the cap is reported exactly when no state up to it is final, which takes at least eleven such answers; which answers lead where is KillPatience.GivesUpExactly |
| KillPatience.KillsAreTakenOn | models/live-account-control.machine.ts:264-280 | a kill is taken on if and only if it has control permission and names, and otherwise fails saying which it lacked |
| KillPatience.GivesUpExactly | models/live-account-control.machine.ts:264-411 | after every history the next state is decided by the event and the counts of what was heard: retried while retryable and below the limit, failed on a wrong phase, another error, one failure more, or an account that cannot be flattened |
| KillPatience.FailuresAreBlamed | models/live-account-control.machine.ts:264-411 | a kill that gives up reports the error it gave up on, one that sells sells the available balance, one that completes holds the account just read |
| KillPatience.PatienceIsRewarded | apps/agent/src/coinbase-control.ts:441-545 | with up to 3 retryable cancellation failures, 4 of reconciliation and 4 of verification, a sellable account, a confirmed flatten and a flat account, the kill completes |
| KillPatience.PatientKill | apps/agent/src/coinbase-control.ts:413-545 | on those answers ExecuteKill returns the flat account as done |
| KillPatience.PatienceEnds | models/live-account-control.machine.ts:281-288 | a fourth refused cancellation ends the kill with that error |
| KillVenue.NeverOversells | models/live-account-control.machine.ts:84-121 | over lost answers, late execution and fills by the account's own orders, what flattens sold or may still sell never exceeds the holding at the start plus credits, and holdings stay non-negative |
| KillVenue.CompletedIsFlat | models/live-account-control.machine.ts:86-89 | completed means no open order, no flatten that can still execute, and at most dust held apart from credits since the read |
| KillVenue.FlattensAreNumbered | models/live-account-control.machine.ts:168-193 | flattens carry attempt numbers 1, 2, ... up to the limit, and one with an unknown outcome is the last ever sent |
| KillRestart.CompletionHoldsUnlessPending | models/live-account-control.machine.ts:84-121 | on an exchange that executes no sell beyond the free balance, some kill started at a venue completes and later sees a sell if and only if a sell was pending there |
| KillRestart.RestartsCompleteUnlessPending | apps/agent/src/coinbase-control.ts:413-545 | a second kill started after a crash at any point of the first can complete and then see a sell if and only if the crash left a flatten that can still execute |
| KillRestart.DoubtfulSellsOutliveTheFlatten | apps/agent/src/coinbase-control.ts:950-965 | the safety flatten after a sell without an answer can complete and then see a sell if and only if that sell may still execute |
| KillRestart.RestartsAreSafeUnlessPending | apps/agent/src/coinbase-control.ts:413-545 | without a pending flatten no run of a second kill sells more than is held, even on an exchange that checks no balance; with one, on such an exchange, some run does |
| ProtectedSell.RankFalls | models/live-sell-protection.machine.ts:147-306 | the machine has no cycle and fails only out of the safety flatten once a request is accepted |
| ProtectedSell.ActProgresses | apps/agent/src/coinbase-control.ts:719-965 | every pass of the driver lowers the rank, whatever is answered and whatever the restored locals hold |
| ProtectedSell.ActKeepsSound | apps/agent/src/coinbase-control.ts:719-965 | account, sell, plan and protection id agree with the state at every loop head |
| ProtectedSell.PlanBrackets | apps/agent/src/coinbase-control.ts:897-902 | the protection lies around the entry, its stop below and above zero, each level exactly the policy's basis points from it |
| ProtectedSell.ExecuteProtectedSell | apps/agent/src/coinbase-control.ts:581-1058 | fresh or resumed from any checkpoint it stops within eight passes, so the fall-through after 64 is dead; the answer is that of the last state, or UNKNOWN at the first checkpoint not stored; what that answer means is SellTruth.ReportsAreTold |
| ProtectedSell.CompletedReports | apps/agent/src/coinbase-control.ts:966-1049 | a sound run reports TERMINAL_FAILED exactly from the failed state, and an executed sell only when flat or with a protection id |
| SellTruth.ReportsAreTold | apps/agent/src/coinbase-control.ts:719-1058 | a sell reported executed was confirmed under that very id in a pass that sent it or asked for it, with the account read last and the protection acknowledged last |
| SellTruth.RejectedSellsFlatten | apps/agent/src/coinbase-control.ts:748-880 | a sell rejected at once, on replay or when asked for is followed by the safety flatten and nothing but it, and is never reported executed |
| SellTruth.RecordedSellsWereConfirmed | apps/agent/src/coinbase-control.ts:678-965 | over crashes and resumes a sell on record was confirmed in an earlier pass of the same life |
| SellTruth.PassesLead | models/live-sell-protection.machine.ts:147-306 | on a sound run the next state is exactly the one this answer calls for, in the terms of the exchange |
| SellTruth.EffectsExactly | apps/agent/src/coinbase-control.ts:719-965 | a pass sends the sell, the protection, the flatten or nothing, each exactly when its state and authorization call for it |
| SellTruth.FallsAreExplained | models/live-sell-protection.machine.ts:147-306 | a run that falls to the safety flatten or fails records the error that took it there |
| ProtectedSellLife.ResubmissionsAreIdentical | apps/agent/src/coinbase-control.ts:678-965 | over any crashes and resumes all sells sent are the one order of the intent, all protections the one order under the derived id, and no sell follows a protection, nor anything a flatten |
| ProtectedSellLife.FailuresFlatten | models/live-sell-protection.machine.ts:181-306 | an accepted request that ends without completing has flattened; one that completes is flat or protected and never flattened |
| PerpStore.Store.PersistOrderIntent | apps/agent/src/hyperliquid-store.ts:140-153 | insert-only: a row already there is left as it is |
| PerpStore.Store.PersistOutcome | apps/agent/src/hyperliquid-store.ts:154-167 | write-once: an outcome already there is left as it is |
| PerpStore.Store.LoadUnresolved | apps/agent/src/hyperliquid-store.ts:168-194 | returns exactly the orders without an outcome, each once, newest first |
| PerpStore.Store.PersistFills | apps/agent/src/hyperliquid-store.ts:221-245 | one malformed fill leaves the table alone; otherwise the batch is inserted |
| PerpStore.FillsAreIdempotent | apps/agent/src/hyperliquid-store.ts:221-245 | a batch keeps every earlier row, stores each of its fills, and written again adds nothing |
| PerpRunner.Runner.RunOrder | apps/agent/src/hyperliquid-orchestrator.ts:436-526 | nothing is sent before its intent is stored, it is sent at most once and exactly under the listed conditions; an order sent is done with an outcome if and only if the venue said that outcome, at once or when asked, and it could be stored; anything else names the first thing that failed, and table and log are exactly as specified |
| PerpRunner.AdmittedExactly | apps/agent/src/hyperliquid-orchestrator.ts:436-464 | an order is admitted if and only if risk approved it, it is for a known perp with positive quantity and price and a whole leverage, and its id has 8 to 64 letters, digits and dashes |
| PerpRunner.OrdersAreRuns | apps/agent/src/hyperliquid-orchestrator.ts:436-526 | one order does to table and log what a run of one call of the crash model does whose request has the fate the venue told of, so the theorems about runs hold of it |
| PerpRunner.Runner.RecoverPending | apps/agent/src/hyperliquid-orchestrator.ts:527-553 | the recovery loop visits every unresolved order, counts what it settled and what it left, and sends nothing |
| PerpRunner.RecoveryRowByRow | apps/agent/src/hyperliquid-orchestrator.ts:409-433 | after a recovery each queued order has the venue's answer exactly when it settles, and no other row changed |
| PerpOrders.NoOrderIsLost | apps/agent/src/hyperliquid-orchestrator.ts:436-526 | over crashes at every await, lost answers, reused ids and any interleaving, each order sent has a row that is resolved or in the list the next recovery loads; while starts are fresh that row holds the very intent sent, and no id is sent twice |
| PerpReuse.StartsDecide | apps/agent/src/hyperliquid-control.ts:193-199 | after fresh starts, a further start keeps every order sent once and with its stored intent, in all that follows without a stale start, if and only if its id is not sent, not about to be sent, and not stored for another intent |
| PerpReuse.ReuseSendsTwice | apps/agent/src/hyperliquid-store.ts:140-153 | a concrete run in which two orders go out under one id and the table knows the first intent only |
| PerpOrders.RecoveryOnlyReconciles | apps/agent/src/hyperliquid-orchestrator.ts:527-542 | a recovery skips no order it loaded and never reaches a sending state |
| PerpOrders.OutcomesAreFinal | apps/agent/src/hyperliquid-store.ts:140-167 | over any continuation rows stay, intents never change and outcomes are final |
| PerpTruth.StoredOutcomesAreTrue | apps/agent/src/hyperliquid-orchestrator.ts:409-433 | while every start, load and answer is clean, a stored outcome is accepted exactly when the venue took the order in by now, and a rejected order has no request that may still arrive |
| PerpDoubt.DirtyLoadMisjudges | apps/agent/src/hyperliquid-orchestrator.ts:527-542 | after any run, a load of an order yet to be sent, which the venue does not have, has a clean continuation that stores a false outcome |
| PerpDoubt.HastyAnswerMisjudges | apps/agent/src/hyperliquid-execution.ts:268-272 | after any run, so has an answer of never placed for an order whose request may still arrive |
| PerpDoubt.ActionsDecide | apps/agent/src/hyperliquid-orchestrator.ts:409-542 | after a clean run, each action that can happen keeps every clean continuation truthful if and only if it is clean itself |
| PerpDoubt.OverlapHappens | apps/agent/src/hyperliquid-orchestrator.ts:464-542 | a concrete run loads an order about to be signed and goes on to ask about it |
| PerpDoubt.LateArrivalHappens | apps/agent/src/hyperliquid-execution.ts:141-165 | a concrete run without a recovery stores rejected for an order whose timed-out request arrives afterwards |
| TradingCycle.MacroIsStable | models/trading-cycle.machine.ts:465-774 | after one macrostep no eventless transition remains |
| TradingCycleEnds.EveryEventBurns | models/trading-cycle.machine.ts:510-842 | inside a cycle every accepted effect event strictly lowers the measure, and the cycle leaves only for scheduling, stopped, halted or failed |
| TradingCycleEnds.CyclesListen | models/trading-cycle.machine.ts:510-842 | every stable state of a cycle accepts an answer to its effect |
| TradingCycleEnds.AnsweredCyclesEnd | models/trading-cycle.machine.ts:339-375 | a cycle accepts no more events than its measure, is never deaf before its end, and with as many accepted events as its measure is in scheduling, stopped, halted or failed |
| TradingCycleEnds.AlarmsStartBoundedCycles | models/trading-cycle.machine.ts:159-182 | an alarm starts a cycle whose measure depends on the retry limits only, at most 60 for the default ones |
| TradingCycleSafety.FlagIsTruth | models/trading-cycle.machine.ts:266-306 | in every reachable state the in-flight flag is up exactly when an order handed over has had no outcome since, which is so in the three order states, possibly failed, and nowhere else |
| TradingCycleSafety.SubmissionsAreSafe | models/trading-cycle.machine.ts:644-774 | every submission of every run starts with no unresolved order, trade permission, a persisted id and an admission of a candle closed by the alarm, evaluated after it and no older than allowed; those of one cycle share the id and are at most the execution limit plus one; what risk and allocation said before is TradingCycleTales.SubmissionsAreEarned |
| TradingCycleSafety.CandlesIncrease | models/trading-cycle.machine.ts:53-203 | admitted decision candles strictly increase over the life of the agent, resets included |
| TradingCycleSafety.ApprovedRiskIsPermitted | models/trading-cycle.machine.ts:650-653 | approved risk always has trade permission: the branch that revokes it there is never taken |
| TradingCycleTales.SubmissionsAreEarned | models/trading-cycle.machine.ts:494-717 | every submission of every run was preceded in its cycle by exactly one alarm, account read, indicators, signals, allocation of at least one order, risk approval and stored intent, in this order and as recorded, by no order of the operator since the start, and by an authorization valid for at most two minutes |
| TradingCycleTales.SpoiledCyclesTradeNothing | models/trading-cycle.machine.ts:621-663 | a cycle that heard a risk rejection, a risk failure or an empty allocation has submitted nothing and never will |
| TradingCycleTales.OutcomesAreTold | models/trading-cycle.machine.ts:727-842 | while a cycle is stored its outcome is that of the event that ended it; confirmed only with an exchange order id the exchange gave |
| TradingCycleTales.GivesUpExactly | models/trading-cycle.machine.ts:510-842 | in every run an effect is tried again if and only if its refusal is retryable and the cycle has heard fewer of its kind than the limit |
| TradingCycleTales.SchedulingGivesUpExactly | models/trading-cycle.machine.ts:465-493 | scheduling is retried by the same rule over the failures since it last succeeded |
| TradingCycleTales.StoredCyclesObey | models/trading-cycle.machine.ts:816-837 | a stored cycle fails, stops, cancels, halts or schedules the next exactly as the event that ended it and the last order of the operator say |
| TradingCycleTales.OrdersTakeEffect | models/trading-cycle.machine.ts:433-463 | from any reachable state an order of the operator stops anything not yet sent, asks about what may be out, and leaves the rest to be stored first |
| TradingCycleTales.PermissionsDecide | models/trading-cycle.machine.ts:433-463 | without permission an order of the operator changes the recorded error alone; a start and a reset take effect exactly with theirs |
| TradingCycleTales.CyclesBeginClean | models/trading-cycle.machine.ts:159-182 | an alarm under a new id begins a cycle with nothing on record; a repeated id is refused |
| TradingCycleTales.AdmittedExactly | models/trading-cycle.machine.ts:540-588 | in every run a candle is admitted if and only if it is newer than all admitted before, closed by the alarm, evaluated after it and within the staleness limit |
| TradingCycleTales.FailuresAreRecorded | models/trading-cycle.machine.ts:465-842 | whatever failure is heard, its error is the one on record |
| RegimeFilter.MachineRefines | models/regime-filter.machine.ts:119-177 | on every run of valid observations the regime is the class at the latest point, no earlier than minObservations, where the last confirmationCount classes agreed; the history is the last slopePeriods slow averages |
| RegimeFilter.NeverPendingInRegime | models/regime-filter.ts:94-122 | after warm-up every observation is classified |
| RegimeFilter.ClassesFollowTheAverages | models/regime-filter.ts:99-111 | bullish only with the fast average above the slow one, bearish only below, equal averages a range |
| RegimeFilter.ClassesFollowTheSlope | models/regime-filter.ts:112-121 | bullish only on a rise over the window, bearish only on a fall |
| RegimeFilter.GapsInBasisPoints | models/regime-filter.ts:94-111 | the thresholds act exactly in basis points of the slow average, a gap at a threshold being a range |
| RegimeFilter.SlopesInBasisPoints | models/regime-filter.ts:112-122 | so does the slope threshold, with its margin of a millionth |
| RegimeFilter.FailsAtFirstInvalid | models/regime-filter.machine.ts:66-80 | the first observation out of order or not positive fails the machine for good, under its own error, with the count and regime of the observations before it |
| RegimeFilter.BadPoliciesAndStopsEnd | models/regime-filter.machine.ts:119-177 | an invalid policy fails the machine for good, and a stop stops it for good with all it knew |
| ProtectiveOrder.WhenPlansExist | models/protective-order.ts:133-210 | a plan is refused exactly for a bad policy, a bad request, or an average range too wide for the entry; the other level checks are dead |
| ProtectiveOrder.PlansKeepTheirDistance | models/protective-order.ts:133-210 | every level of a plan lies exactly the policy's distance from the entry, in basis points or average ranges |
| ProtectiveOrder.FailsExactly | models/protective-order.machine.ts:184-287 | while it watches, an event fails the machine if and only if it is unsound, and only a cancel cancels it |
| ProtectiveOrder.PlansFollowThePosition | models/protective-order.machine.ts:66-110 | in every run the plan is for the position the events tell of |
| ProtectiveOrder.EveryRunIsGuarded | models/protective-order.machine.ts:72-173 | in every run 0 < stop < anchor < target, a trailing stop is the trail below its anchor, and there is a resolution exactly when triggered |
| FirstHit.MachineFindsFirstHit | models/protective-order.machine.ts:184-287 | from any reachable armed state between candles the machine triggers exactly when some candle touches a level, with the outcome of the first that does: open before range, stop before target, the stop from the candles before only |
| FirstHit.OpenCandleComesFirst | models/protective-order.machine.ts:184-287 | from any reachable state inside a candle, as after an increase, the rest of that candle is tested on the levels held by then, without an open test, and then the candles that follow |
| FirstHit.StopNeverLoosens | models/protective-order.ts:212-230 | between increases the stop never falls |
| FirstHit.ReductionsAreInvisible | models/protective-order.machine.ts:81-89 | a reduction changes nothing candles do |
| FirstHit.IncreasesRestartTheTrail | models/protective-order.machine.ts:74-80 | an increase, with or without an average range, re-anchors the trail at the new entry, loosening the stop if and only if that entry is below the anchor |
| FirstHit.StopsDoLoosen | packages/backtest/src/replay.ts:631-637 | a concrete run in which an increase lowers the stop from 180 to 135 |
| FundingRates.FundingRatesForCandles | apps/agent/src/hyperliquid-execution.ts:494-523 | the single cursor gives each candle the mean of its samples from where the one before left off, and null exactly when the timeframe is missing or some candle has none; for candles that do not overlap that is the mean of the whole half-open interval of each |
| FundingRates.OverlapIsLost | apps/agent/src/hyperliquid-execution.ts:506-521 | an overlapping candle misses exactly the samples before the end of the one before it |
| TargetExposure.FindAnchor | models/target-exposure.ts:119-131 | the backward loop finds the newest candle that opens a week or turns the trend, as far back as the trend is known |
| TargetExposure.SimpleMovingAverage | models/target-exposure.ts:53-64 | the summing loop returns the mean of the last closes, or nothing when there are too few |
| TargetExposure.AnchorWithinAWeek | models/target-exposure.ts:119-131 | from 207 contiguous candles on there is an anchor, at most six days old |
| TargetExposure.PlanTargetExposure | models/target-exposure.ts:103-183 | a gap in the series holds; otherwise the decision is the one at the newest anchor |
| TargetExposure.TargetHitsTheVolatility | models/target-exposure.ts:142 | the target is none of the equity out of trend, all of it up to the target volatility, and above it the share that brings volatility down to exactly the target |
| TargetExposure.TradesMoveTowardsTheTarget | models/target-exposure.ts:165-182 | measured on the equity before costs, a buy can be paid with fee and slippage and does not pass the target; a sell disposes of no more than is held and does not pass it; both are at least the minimum order |
| TargetExposure.TradesExactly | models/target-exposure.ts:138-183 | side, size and reason of the decision, exactly, in money: hold without an occasion or below the minimum order, else buy exactly when the goal is above the holding |
| TargetExposure.ExposureAfterCosts | models/target-exposure.ts:165-182 | measured on the equity after costs, a buy stays at or below the target share if and only if its size and the target share of its costs fit in what was wanted; a full-sized buy does so only when slippage and fee are zero |
| ExecutionSchedule.CreateExecutionSchedule | models/execution-resolution.ts:75-145 | a schedule exists exactly when the checks pass and every run of fine candles aggregates to its coarse one, and then its buckets cut the fine series without gap or overlap, every fine candle inside the interval of its coarse one |
| ExecutionSchedule.RunsAlign | models/execution-resolution.ts:117-127 | once the checks pass the misalignment checks of the loop are dead |
| OutcomeWindows.PlanOutcomeFetchWindows | apps/agent/src/ai-trend-calibration.ts:107-126 | the loop ends, windows hold at most 290 candles, neighbours share exactly their border, and together they cover every time from the candle before the reference to the last outcome |

## Left out

- IEEE rounding: arithmetic is exact, so guards that compare floating-point sums are shown dead rather than modelled; the snap-to-zero tolerances and the two epsilons are kept as constants.
- Key-set checks on incoming JSON, zod schemas, signing, HTTP, pagination and the SQL text: values arrive typed, and a malformed answer is one of the failures an action can carry.
- Trimming is limited to ASCII white space and the no-break space.
- Sequence strings are compared as naturals; their length limit is not modelled.
- XState itself: each machine is a step function with its guards, root handlers and eventless transitions.
- KillVenue.NeverOversells: takes it that the available balance excludes what orders reserve, that balances are current when read, and that nobody opens an order during a kill.
- ProtectedSellLife.ResubmissionsAreIdentical: takes the policy as the same over all resumes; what a safety flatten leaves behind, started after a crash or after a sell in doubt, is the subject of KillRestart.
- TradingCycleEnds.AnsweredCyclesEnd: an engaged kill is not claimed to be executed, because a later stop or revocation replaces the shutdown mode.
- TradingCycle: the agent id, strategy ids and the diagnostic fields of errors, which no transition reads.
- PerpOrders.NoOrderIsLost: the thresholds of the risk gate are one verdict, and fills, backfill and telemetry counters are outside the run model.
- PerpDoubt.ActionsDecide: takes it that the venue answers for what it has taken in by then, and that a definite answer to a submission settles that request; what the venue does with a repeated id is left free, and so is when a request without an answer arrives, if ever.
- TargetExposure.PlanTargetExposure: realised volatility and the first-of-month test are inputs, since square roots and the calendar are not modelled.
- planP7ShadowDecision, the commit signature, the daily recovery plan and the risk policy test of the runner: readings of single fields.
- planP7LedgerRecovery and the other recovery planners: each maps a recorded state and the clock to one suggested action, without state of its own.
- The multi-product portfolio machine: sums over sorted keys and status flags, whose guards state its properties outright.
- Dashboards, wallet sessions, the perp order form, telemetry, the AI gateway, preflight and launch checklists, and the Python analysis scripts.
