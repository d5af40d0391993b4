# Verified model of the A-share backtesting kernels

This project models, in Dafny 4.11, the stateful parts of a backtesting system for Chinese A-shares and proves
what they keep over whole runs. `dafny verify dfyconfig.toml` checks everything.

- **Weight replay, written twice.** `GoReplay` is the kernel's loop over the union calendar and the sorted
  symbols; `SidecarReplay` is the event-driven Python machine, one per symbol. Both turn target weights into orders
  under T+1, price limits, board lots and a participation cap (`AshareRules`, `Market`, `Signals`).
  `ReplayAlignment` proves that they send the same orders up to the point where one stops, `GoCausality` that
  nothing looks ahead (`SidecarIsCausal` says it of the machine), `ReplayTargets` that no order overshoots and that a
  steady target is reached.
- **Point-in-time intraday features.** `Intraday` has the visibility gate and the binary day slice,
  `IntradayLoad` the chunked loading behind it.
- **Target netting in the engine.** `TargetNetting`: order sizes depend on real holdings only.
- **First-admin bootstrap.** `FirstAdmin`: interleaved transactions under an advisory lock.
- **Bounded buffers and limiters.** `Alerts`, `WindowLimiter`, `GatewayLimiter`.
- **Accounting.** `Equity` (self-financing curve), `Reconciliation` and `AlignmentGate` (dual-run report),
  `Versioning` (API path prefixes and redirects).

## How things are modelled

- Shares, days and instants (nanoseconds) are `int`; prices, weights, fees and money are `real`, so float rounding
  is not modelled. In `TargetNetting` and `Equity` quantities are `real` too.
- Code that is not part of this model answers through a function-valued parameter: the portfolio tracker, the
  execution service, position sizing and the exec-algo dispatcher see everything that happened before (a log) and
  give a fill or an error; the market-data router gives the bars of a closed interval or fails; NautilusTrader
  supplies net positions, order ids, fills and refusals as events. So the results hold for every such environment.
- `ReplaysAlign` compares the replays under any common answers to orders, full, partial or refused; the tracker may
  also refuse on its own, which stops the Go replay. Without execution options, as in `wrReplay`, the tracker fills
  in full or refuses (`pkg/backtest/tracker/tracker.go:292-431`).
- Go divides by a zero close: the target is then infinite, or not a number for a zero weight, and `GoReplay.Gap` says
  which. The sidecar raises there, so the alignment is about non-zero closes.
- Objects with mutable fields are classes; each method is tied to a function of its old state, and the results are
  lemmas about those functions. The local maps of `wrReplay` are the fields of `GoReplay.DayState`.
- The instants of a clock are arguments, non-decreasing over a run.

## Where code and comments differ

The code is modelled, and these results say how far it is from its comments:

- The chunk loop asks for 364 of every 365 days (`SkippedInstants`), so on every 365th day of a backtest the feature is
  never available, and on all other days it is the feature of the full table (`EveryReplayDay`).
- Go's weight lookup is said to mean the same as the sidecar's, but Go skips timestamped rows
  (`TimestampsAreInvisibleToGo`). The weights agree exactly when, at every timestamped row, the last row of its symbol and
  instant carries the weight of the newest dated row up to then (`LookupsAgreeIff`).
- The gate's NT fill count is not the number of NT trades unless shared keys balance (`GateCountIsRawIff`); with equal
  keys on both sides any number of repeated NT trades passes the fill leg (`RepeatedNtFillsPass`).
- No report row is ever a mismatch, so that rule never fires (`SilentGateMeans`).
- A Close signal sent through the execution service is a market order for the sized quantity, or it is refused: the
  service has no limit branch for a Close (`LimitCloseIsRefused`, `RefusedCloseKeepsHolding`). So it leaves the symbol flat
  exactly when it is served, covers the holding and all of it may be sold (`CloseFlattensIff`). The target entry is deleted
  at any booked Close, so a smaller one leaves shares held without an entry (`CloseForgetsTheRestIff`,
  `PartialCloseIsForgotten`).
- A version is said to be a non-negative integer. A "v" followed by digits is one only while the number fits 64 bits
  (`DigitVersions`), and signed numbers, negative ones too, are accepted (`SignedVersions`, `SegmentShape`). A configured
  version that is not one makes clients loop for ever (`RedirectsEndIff`).
- The fixed-window limiter admits up to 2 * rate - 1 requests within one window length, and no more
  (`AtMostTwiceTheRate`, `TwiceTheRateIsReached`).
- Overlapping alert cycles may store alerts out of order (`OverlappingCyclesReorder`); the history is in the order of
  sending exactly when no batch is delivered after a younger one (`HistoryInOrderIff`).
- An order left open over a bar is not reserved against the cap (`OpenOrdersBreakTheCap`); `OverlapIsBounded` says how
  far the day can then go.

## Model

| member | source | states |
|---|---|---|
| AshareRules.CentRoundingAgrees | nt-sidecar/sidecar/ashare.py:69-78 | Go's truncate-and-step rounding and Python's floor/ceil rounding are the same function on every real, and its result is the nearest cent with ties away from zero |
| AshareRules.HalfAwayFromZeroIsUnique | pkg/backtest/pricelimit.go:195-197 | half-away-from-zero determines the rounded value |
| AshareRules.LimitPricesAgree | pkg/backtest/pricelimit.go:199-203 | both kernels compute the same daily limit prices |
| AshareRules.LimitPricesMean | pkg/backtest/pricelimit.go:199-203 | the upper limit is within half a cent of the previous close raised by the rate, the lower one of it lowered by the rate |
| AshareRules.LimitsAreOrdered | pkg/backtest/pricelimit.go:199-203 | the lower limit is never above the upper one |
| AshareRules.RoundDownIsLargestMultiple | cmd/dualrun/wrreplay.go:232-237 | rounding to lots gives the largest whole number of lots not above the quantity |
| AshareRules.RoundDownShares | cmd/dualrun/wrreplay.go:232-237 | the same for whole shares; at least one lot when a lot fits |
| AshareRules.LotsForWeight | cmd/dualrun/wrreplay.go:120 | a weight buys as many whole lots as its part of the capital pays for, and one lot more costs more; a negative part buys nothing |
| AshareRules.CapIsShareOfVolume | cmd/dualrun/wrreplay.go:240-245 | the cap is the largest whole number of shares within the rate's part of the volume |
| AshareRules.RulesAgreeUnlessRaised | nt-sidecar/sidecar/ashare.py:86-117 | lot and cap rules agree exactly where Python does not raise, and Go yields 0 where it does |
| Signals.GoTargetWeight | cmd/dualrun/wrreplay.go:182-201 | the forward scan returns the latest visible dated weight, unparsable dates skipped |
| Signals.LatestFinds | cmd/dualrun/wrreplay.go:180-181 | the reference lookup finds the newest visible signal, the last arrival among ties, and None only when nothing is visible |
| Signals.LatestMeaning | cmd/dualrun/wrreplay.go:180-181 | conversely the unique newest last arrival is what the lookup returns |
| Signals.AcceptedIff | nt-sidecar/sidecar/signals.py:24-64 | a row list is accepted exactly when every row has a symbol, a weight in [0, 1] and a readable date or timestamp |
| Signals.SignalMeans | nt-sidecar/sidecar/signals.py:24-64 | a signal has its row's symbol and weight, in effect from midnight of its date or from its timestamp |
| Signals.StringLeMeans | cmd/dualrun/wrreplay.go:97-102 | symbols are ordered by their first difference, a prefix first |
| Signals.StableSortIsStable | nt-sidecar/sidecar/signals.py:65-69 | the stream is sorted, a permutation, and keeps arrival order of equal keys |
| Signals.PrefixEnd | nt-sidecar/sidecar/signals.py:88-90 | the bisected index separates visible from future signals |
| Signals.StreamTargetWeight | nt-sidecar/sidecar/signals.py:106-115 | bisect plus backward scan returns the last visible match of the sorted stream |
| Signals.StreamAsOf | nt-sidecar/sidecar/signals.py:92-104 | the dictionary holds, for every symbol, exactly what the backward scan returns |
| Signals.SortedLookupIsLatest | nt-sidecar/sidecar/signals.py:106-115 | sorting once and scanning backwards equals one forward scan over arrivals |
| Signals.LookupsAgreeIff | nt-sidecar/sidecar/signals.py:65-115 | for any accepted rows, with duplicates and ties: the sidecar's weight at a moment equals Go's on its day for every symbol and moment, if and only if for every timestamped row the last row of its symbol and instant carries the weight of the newest dated row up to that instant |
| Signals.StampedRowShowsIff | cmd/dualrun/wrreplay.go:180-201 | a timestamped row makes the weights differ at its own instant if and only if the last row of its key does not carry the dated weight |
| Signals.GoStandsSince | cmd/dualrun/wrreplay.go:180-201 | Go's answer at a moment is its answer at the instant of the signal the sidecar sees there |
| Signals.TimestampsAreInvisibleToGo | cmd/dualrun/wrreplay.go:190-193 | a timestamped row on its own gives its weight in the sidecar and none in Go |
| GoReplay.DayState.StartOfDay | cmd/dualrun/wrreplay.go:85-95 | a new day makes the holding sellable and restarts the budget, for one symbol only |
| GoReplay.DayState.Execute | cmd/dualrun/wrreplay.go:135-143 | a fill moves holding, budget and sellable shares of its symbol, a refusal is reported and changes nothing |
| GoReplay.DayState.Choose | cmd/dualrun/wrreplay.go:124-155 | the order chosen for a gap, infinite and NaN ones included, is the reference quantity, with limit, T+1, cap and lot rules |
| GoReplay.DayState.Decide | cmd/dualrun/wrreplay.go:118-122 | weight lookup and sizing give the reference signed order |
| GoReplay.DayState.Trade | cmd/dualrun/wrreplay.go:109-168 | one iteration of the symbol loop refines one step of the per-symbol reference |
| GoReplay.RunDay | cmd/dualrun/wrreplay.go:109-168 | the symbol loop refines the reference pass and stops at the first refused order |
| GoReplay.RunCalendar | cmd/dualrun/wrreplay.go:104-173 | the day loop refines the reference run |
| GoReplay.WrReplay | cmd/dualrun/wrreplay.go:58-178 | bad capital and empty bars are refused, else the outcome is the reference replay: same log and holdings, or the same failed order |
| GoReplay.TargetMeans | cmd/dualrun/wrreplay.go:118-122 | the target is the most whole lots that the weight's part of the share pays for |
| GoReplay.WantedMeans | cmd/dualrun/wrreplay.go:124-165 | nothing is bought at the upper limit or sold at the lower one; otherwise the order is the most that gap, budget, lots and sellable shares allow |
| GoReplay.EndlessIsAnyLargeGap | cmd/dualrun/wrreplay.go:120-134 | the infinite target of a zero close leads to the order of any gap that is not below the budget |
| GoReplay.OrdersAreOfTheirBars | cmd/dualrun/wrreplay.go:104-168 | every order of a replay, the refused one included, is for a positive quantity at the close of its symbol's bar on its day |
| GoCausality.ReplayIsCausal | cmd/dualrun/wrreplay.go:104-201 | replays that agree on bars and signals dated up to d have equal orders, fills, state or failure through day d, for every tracker |
| GoCausality.ThroughDayIsFinal | cmd/dualrun/wrreplay.go:104-173 | what happened through day d is a prefix of the whole replay and later days only append |
| GoCausality.AscendingCut | cmd/dualrun/wrreplay.go:248-261 | the sorted union calendar splits at any d into its sorted parts |
| SidecarReplay.WeightReplay.OnBarEvent | nt-sidecar/sidecar/weight_replay.py:156-188 | a bar updates day, close, pending and decisions as the reference transition does; it raises exactly on a zero close with a visible signal |
| SidecarReplay.WeightReplay.TryBuy | nt-sidecar/sidecar/weight_replay.py:192-216 | the buy path follows the reference plan |
| SidecarReplay.WeightReplay.TrySell | nt-sidecar/sidecar/weight_replay.py:218-240 | the sell path follows the reference plan |
| SidecarReplay.WeightReplay.Submit | nt-sidecar/sidecar/weight_replay.py:244-264 | a halted machine records and does not submit; otherwise the order becomes pending, no budget is spent |
| SidecarReplay.WeightReplay.OnOrderFilled | nt-sidecar/sidecar/weight_replay.py:119-132 | budget and sellable shares move by the fill |
| SidecarReplay.WeightReplay.ResolveUnfilled | nt-sidecar/sidecar/weight_replay.py:134-154 | a refusal is counted and halts, nothing else changes |
| SidecarReplay.RefusalKeepsBudget | nt-sidecar/sidecar/weight_replay.py:134-154 | a denied or rejected order leaves budget, sellable shares and decisions as they were |
| SidecarReplay.RefusalsAreCounted | nt-sidecar/sidecar/weight_replay.py:147-154 | over any callbacks the counter is the number of refusals, and halted means exactly that one happened |
| SidecarReplay.NoOrderAfterRefusal | nt-sidecar/sidecar/weight_replay.py:244-249 | no order is ever submitted after a refusal, whatever callbacks come |
| SidecarReplay.SidecarIsCausal | nt-sidecar/sidecar/weight_replay.py:21-22 | instances whose rows agree on the signals in effect by m, after the same callbacks with no bar after m, are in the same state, and what they decided stays whatever follows |
| SidecarReplay.PlanIsSafe | nt-sidecar/sidecar/weight_replay.py:192-240 | a planned order is positive, within cap, gap and sellable shares, and a buy is whole lots |
| SidecarReplay.TargetQtyMeans | nt-sidecar/sidecar/weight_replay.py:177-179 | the target is the most whole lots that the weight's part of the capital pays for |
| SidecarReplay.PlanMeans | nt-sidecar/sidecar/weight_replay.py:192-240 | each outcome of a bar, order or reason not to trade, happens exactly under its own condition |
| SidecarReplay.PlanQtyMeans | nt-sidecar/sidecar/weight_replay.py:192-240 | a planned quantity is the most that gap, cap, lots and sellable shares allow |
| SidecarReplay.DecisionMeans | nt-sidecar/sidecar/weight_replay.py:244-264 | a bar records its day, target and gap, and what it recorded as submitted is pending |
| SidecarReplay.RunIsSafe | nt-sidecar/sidecar/weight_replay.py:119-278 | in every run whose orders resolve before the next bar, with partial fills, expiries and refusals: sold plus sellable equals the opening position, position equals opening plus bought minus sold and is never negative, traded plus open stays within the day's cap, buys are whole lots |
| SidecarReplay.FreshIsSafe | nt-sidecar/sidecar/weight_replay.py:95-112 | a fresh machine over any long-only position starts safe |
| SidecarReplay.DailyBarStaysWithinCap | nt-sidecar/sidecar/weight_replay.py:266-278 | with one bar a day, what is traded that day stays within that bar's cap |
| SidecarReplay.OverlapIsBounded | nt-sidecar/sidecar/weight_replay.py:266-278 | in every run, with bars arriving while orders are open: traded plus open stays within the day's cap plus what was open at its first bar plus the caps of the bars that arrived with an order open |
| SidecarReplay.OpenOrdersBreakTheCap | nt-sidecar/sidecar/weight_replay.py:266-278 | that bound is reached: an order left open over a bar of the same day is not reserved, and both fills together are twice the cap |
| ReplayAlignment.PlansAgree | nt-sidecar/sidecar/weight_replay.py:192-240 | the two decision rules ask for the same quantity on equal states |
| ReplayAlignment.LoopProjects | cmd/dualrun/wrreplay.go:104-173 | the interleaved loop seen from one symbol is that symbol alone over the calendar, or a first part of it when a refusal stops the loop |
| ReplayAlignment.BarsAgree | nt-sidecar/sidecar/weight_replay.py:156-240 | on one bar both sides send the same order and are in the same state after any common answer to it |
| ReplayAlignment.LockstepAgrees | cmd/dualrun/wrreplay.go:104-173 | lockstep over calendar and series gives equal orders and related end states |
| ReplayAlignment.ReplaysAlign | nt-sidecar/sidecar/weight_replay.py:119-240 | for every symbol with daily bars and any common fills, partial ones included: a completed Go replay sent exactly the orders of the sidecar instance with capital / N and both end in the same state; a stopped one, refused order included, sent a first part of them, and all of them when the sidecar has that order refused too |
| ReplayAlignment.FullFillsComplete | cmd/dualrun/wrreplay.go:135-164 | when every order fills the Go replay completes, so its orders are then all of the sidecar's |
| ReplayTargets.NeverOvershoots | cmd/dualrun/wrreplay.go:124-165 | any part of the wanted order leaves the holding on its side of the target |
| ReplayTargets.OrdersNeverOvershoot | cmd/dualrun/wrreplay.go:118-165 | the same for the orders of the replay |
| ReplayTargets.RunsStayLong | cmd/dualrun/wrreplay.go:85-173 | with any partial fills no holding is ever short and sellable shares are held ones, over every run |
| ReplayTargets.TargetsFitCapital | cmd/dualrun/wrreplay.go:75-120 | with weights in [0, 1] the targets of all symbols of the replay on a day, at that day's closes, cost at most the capital |
| ReplayTargets.CalendarIsBars | cmd/dualrun/wrreplay.go:104-167 | under a steady signal the days to come are, for one symbol, the single-target step over its remaining bars |
| ReplayTargets.SteadyRun | cmd/dualrun/wrreplay.go:118-165 | from any long holding at a steady price with caps of a lot or more, the gap falls by a lot a bar until below one lot (buying) or zero (selling), and never widens |
| ReplayTargets.SteadyDays | cmd/dualrun/wrreplay.go:104-165 | the same for the day loop over all symbols, from any state |
| ReplayTargets.SteadyTargetIsReached | cmd/dualrun/wrreplay.go:104-165 | so when signal and price of a symbol are steady after some day, a completed replay with full fills has closed a lot per later bar, ends with less than a lot missing (buying) or exactly on target (selling) once it had enough bars, and never widened the gap |
| FirstAdmin.StepKeepsLock | pkg/auth/auth.go:306-308 | only the lock holder is inside the critical section |
| FirstAdmin.AtMostOneBootstrap | pkg/auth/auth.go:284-340 | every interleaving keeps: one durable bootstrap at most, then a non-empty table and nobody past the count |
| FirstAdmin.AtMostOneBootstrapFromStart | pkg/auth/auth.go:284-340 | from any initial table at most one CreateFirstAdmin commits |
| FirstAdmin.ClosedForGood | pkg/auth/auth.go:251-316 | after a commit every later count is refused and bootstrap is never required again |
| FirstAdmin.NonEmptyIsNeverBootstrapped | pkg/auth/auth.go:310-316 | a table that is not empty is never bootstrapped |
| FirstAdmin.TableNeverHoldsTwoRows | pkg/auth/auth.go:284-340 | without CreateUser the table never holds two rows |
| FirstAdmin.BootstrapMakesAnAdmin | pkg/auth/auth.go:317-340 | over every interleaving a durable bootstrap's user is in the table as an admin, and no row ever changes its role |
| FirstAdmin.RowsComeFrom | pkg/auth/auth.go:191-340 | every row was there before, was created by a CreateUser with its role, or is the admin of a bootstrap |
| FirstAdmin.LockIsLetGo | pkg/auth/auth.go:302-308 | over every interleaving only a call inside the critical section holds the lock, so every end of a call lets go of it |
| FirstAdmin.BootstrapIsPossible | pkg/auth/auth.go:284-340 | a call alone at an empty table goes through and its admin is the one row |
| FirstAdmin.UnlockedAdmitsTwo | pkg/auth/auth.go:279-283 | without the advisory lock two calls can both commit |
| TargetNetting.Engine.HeldQty | pkg/backtest/engine_daily.go:459-468 | missing and short positions count as nothing held |
| TargetNetting.Engine.ComputeEffectiveTarget | pkg/backtest/engine_daily.go:418-455 | the order is the target less the real holding, -1 when there is nothing to order |
| TargetNetting.Engine.ExecuteSignalTrade | pkg/backtest/engine_daily.go:502-631 | tracker side and target positions after a trade, refusal, attachment or close |
| TargetNetting.Engine.HandleSized | pkg/backtest/engine_daily.go:310-336 | one sized signal updates target positions and trades the effective target |
| TargetNetting.Engine.ProcessBatch | pkg/backtest/engine_daily.go:278-337 | the batch loop is the reference run over its signals |
| TargetNetting.Engine.ProcessFallback | pkg/backtest/engine_daily.go:340-397 | the fallback loop sizes each signal against the state as it is by then |
| TargetNetting.Engine.ProcessSignals | pkg/backtest/engine_daily.go:243-338 | stale signals are dropped, then batch or fallback runs |
| TargetNetting.Engine.ReconcileTargetPosition | pkg/backtest/engine_daily.go:476-500 | an existing entry is aligned with the real holding, others are untouched |
| TargetNetting.Engine.RunAll | pkg/backtest/engine_daily.go:243-500 | any run of signal days and outside changes is the reference run |
| TargetNetting.RunIgnoresTargets | pkg/backtest/engine_daily.go:398-500 | over any run orders, fills and holdings are those of a run that has no target positions |
| TargetNetting.OrdersIndependentOfTargets | pkg/backtest/engine_daily.go:398-417 | engines that differ only in target positions trade alike for ever |
| TargetNetting.EntrySymbolDecides | pkg/backtest/engine_daily.go:432-433 | independence needs exactly that an entry carries its own symbol |
| TargetNetting.LongNeverOvershoots | pkg/backtest/engine_daily.go:418-455 | a Long signal never lifts the holding above that day's target |
| TargetNetting.RepeatedTargetBuysAtMostTheGap | pkg/backtest/engine_daily.go:278-337 | repeating a target through partial fills and other symbols' trades buys at most target minus initial holding, nothing from a start above it, and every bought share is held at the end |
| TargetNetting.OpeningOrdersTheGap | pkg/backtest/engine_daily.go:418-455 | a filled opening signal orders exactly what its size exceeds the holding by, so a Long then holds its size; nothing is ordered at or above it |
| TargetNetting.RepeatedTargetIsReached | pkg/backtest/engine_daily.go:278-397 | in any run that repeats a target, with other symbols trading, an environment that fills what is asked ends on the target with exactly the missing shares bought, or leaves a larger holding alone |
| TargetNetting.BlockedAsIfAbsent | pkg/backtest/engine_daily.go:279-297 | a batch trades as if Long and Short signals at limit-up and Close signals at limit-down were not in it |
| TargetNetting.StaleSignalsDoNothing | pkg/backtest/engine_daily.go:259-267 | signals dated before the day do nothing |
| TargetNetting.ValidSignals | pkg/backtest/engine_daily.go:259-264 | the signals of a day are those dated on it or later |
| TargetNetting.AttachedSignalsWait | pkg/backtest/engine_daily.go:520-542 | a signal given to the exec-algo dispatcher moves no holding and leaves its parent order for the gap |
| TargetNetting.EntryFollowsFill | pkg/backtest/engine_daily.go:706-738 | after an opening signal the entry has the day's size as target, what it holds moves by the fill and what it misses is the rest |
| TargetNetting.EntryOfAttached | pkg/backtest/engine_daily.go:520-542 | an attached signal only sets the target, a failed attachment also says what is missing |
| TargetNetting.ReconcileAligns | pkg/backtest/engine_daily.go:476-500 | reconciling gives an entry the real holding, and what it misses follows unless the entry already had that holding |
| TargetNetting.CloseFlattensIff | pkg/backtest/tracker/tracker.go:706-766 | a Close leaves nothing held if and only if nothing was held, or it reached the tracker (through the service: a market order at a positive fill price), asked for the whole holding and, on the long side, all of it was bought before today |
| TargetNetting.CloseForgetsTheRestIff | pkg/backtest/engine_daily.go:600-620 | shares are held without a target entry after a Close if and only if it was booked for less than the holding |
| TargetNetting.PartialCloseIsForgotten | pkg/backtest/engine_daily.go:600-620 | one such input: 60 of 100 shares closed at market through the service, 40 held, no entry |
| TargetNetting.RefusedCloseKeepsHolding | pkg/backtest/execution/execution.go:51-80 | a Close the service refuses, as every limit Close, changes no holding and leaves its entry with the sized quantity as target |
| TargetNetting.LimitCloseIsRefused | pkg/backtest/execution/execution.go:62-74 | one such input: a limit Close of all 100 sellable shares leaves 100 held |
| Intraday.WindowEdgeBars | pkg/backtest/intraday.go:113-130 | one pass over unsorted bars finds earliest and latest bar of the window |
| Intraday.EdgesBound | pkg/backtest/intraday.go:108-130 | the edges are bars of the window and bound all others |
| Intraday.FeatureMeans | pkg/backtest/intraday.go:86-106 | with f and l the first and last bar of 09:30 to 10:00, the feature is l's close over f's open less one, available exactly when l is visible from 10:00 on, both are visible by then and f opened at a positive price |
| Intraday.NoBarNoFeature | pkg/backtest/intraday.go:89-92 | without a bar in that half hour there is no feature |
| Intraday.AvailableFromVisibleOnly | pkg/backtest/intraday.go:86-106 | an available value is the value computed from visible bars alone |
| Intraday.AvailableStays | pkg/backtest/intraday.go:86-106 | an available value stays available and unchanged later |
| Intraday.SearchDate | pkg/backtest/intraday.go:333-334 | binary search finds the first bar not before an instant |
| Intraday.DayBars | pkg/backtest/intraday.go:328-339 | two binary searches equal a linear day filter on a sorted series |
| Intraday.IntradayFeature | pkg/backtest/intraday.go:299-319 | unknown names and cancelled calls give nothing, else the feature of the filtered day |
| Intraday.ProviderIsPointInTime | pkg/backtest/intraday.go:299-319 | snapshots that agree on bars visible by asOf never give two different available values |
| IntradayLoad.LoadSymbol | pkg/backtest/intraday.go:238-257 | the chunk loop appends the concatenated chunks and counts them, and fails exactly when one request fails |
| IntradayLoad.LoadIntradaySnapshot | pkg/backtest/intraday.go:232-260 | a snapshot is the fold of its symbols' loaded series with their number of bars, and there is none exactly when some request of some symbol fails |
| IntradayLoad.SnapshotHolds | pkg/backtest/intraday.go:232-260 | for distinct symbols each entry is that symbol's loaded series |
| IntradayLoad.TotalIsSnapshotSize | pkg/backtest/intraday.go:236-260 | the reported total is the number of bars in the snapshot |
| IntradayLoad.WindowsAscend | pkg/backtest/intraday.go:238-246 | windows are non-empty, ascending and pairwise disjoint |
| IntradayLoad.RequestedHasWindow | pkg/backtest/intraday.go:238-247 | a requested instant lies in a window |
| IntradayLoad.WindowIsRequested | pkg/backtest/intraday.go:238-247 | an instant in a window is requested |
| IntradayLoad.SkippedInstants | pkg/backtest/intraday.go:238-246 | an instant of the range is never requested if and only if it lies in (cs + 364d, cs + 365d) of its unclipped chunk |
| IntradayLoad.LoadedIsFilter | pkg/backtest/intraday.go:247-256 | concatenated chunks of a sorted series are exactly its requested bars |
| IntradayLoad.LoadedIsSorted | pkg/backtest/intraday.go:321-327 | the loaded series is sorted, as the day slice needs |
| IntradayLoad.RequestedWindowIsExact | pkg/backtest/intraday.go:328-339 | when the feature window was requested, the loaded series gives the feature of the full table |
| IntradayLoad.WindowRequestedIff | pkg/backtest/intraday.go:238-246 | the feature window of a replay day is requested if and only if it is not the last day of a full chunk |
| IntradayLoad.SkippedDayHasNoFeature | pkg/backtest/intraday.go:238-246 | whatever the table holds, the last day of a full chunk has no feature |
| IntradayLoad.ReplayDayIsShanghais | pkg/backtest/intraday.go:275-281 | the replay day of a UTC midnight is that calendar day in Shanghai, from its own midnight |
| IntradayLoad.EveryReplayDay | pkg/backtest/intraday.go:262-339 | end to end for every day of a backtest: the provider gives the feature of the full table, except on every 365th day, where it gives none |
| Equity.CashByDay | nt-sidecar/sidecar/engine.py:522-529 | the dictionary holds the last event of each day |
| Equity.CashMeans | nt-sidecar/sidecar/engine.py:522-564 | cash is the total of the last event of the latest event day so far, and the capital before the first |
| Equity.CloseMeans | nt-sidecar/sidecar/engine.py:548-556 | the close of a day is that of the last point not after it |
| Equity.NoCloseIff | nt-sidecar/sidecar/engine.py:553-555 | there is none exactly when every point is later |
| Equity.UnpricedIsWorthless | nt-sidecar/sidecar/engine.py:565-573 | a holding without a close yet is marked at nothing |
| Equity.QtyAdds | nt-sidecar/sidecar/engine.py:545-546 | quantities add up over fills |
| Equity.QtyOfOne | nt-sidecar/sidecar/engine.py:530-546 | one fill is its signed quantity, from its day on and for its symbol |
| Equity.EquityStartsAtCapital | nt-sidecar/sidecar/engine.py:559-573 | before the first event and fill equity is the capital |
| Equity.CalendarMeans | nt-sidecar/sidecar/engine.py:512-520 | the curve has exactly the days of points within the window, both ends included |
| Equity.SynthEquityCurve | nt-sidecar/sidecar/engine.py:485-581 | one mark per clipped calendar day with carried cash, carried closes and their sum, each rounded to the cent; nothing without events or closes |
| Equity.RoundHalfEvenIsNearest | nt-sidecar/sidecar/engine.py:574-581 | the rounding is the one nearest whole number, the even one on a tie |
| Equity.CashIsFunded | nt-sidecar/sidecar/engine.py:559-564 | with funded events the cash of every day is capital minus spending so far |
| Equity.AcquiredIsTraded | nt-sidecar/sidecar/engine.py:565-573 | summing acquisitions over symbols or over fills is the same |
| Equity.EquityIsSelfFinancing | nt-sidecar/sidecar/engine.py:512-587 | between any two days equity changes by old quantity times close change, plus fill quantity times close minus fill price, minus fees |
| Equity.CurveIsSelfFinancing | nt-sidecar/sidecar/engine.py:512-587 | the rounded curve obeys that identity up to a cent, and its columns add up to within 1.5 cents |
| Equity.CloseCarriesForward | nt-sidecar/sidecar/engine.py:548-556 | a close carries forward over days without a new point |
| Equity.QuietDaysCarryForward | nt-sidecar/sidecar/engine.py:497-503 | over days without fills and without a new point of any series equity does not move |
| Alerts.AlertHistory.Push | cmd/analysis/alert_loop.go:81-87 | a write at the ring index keeps the newest cap entries |
| Alerts.AlertHistory.Append | cmd/analysis/alert_loop.go:75-88 | a batch extends the log in order |
| Alerts.AlertHistory.Snapshot | cmd/analysis/alert_loop.go:94-112 | the snapshot is the reversed last cap entries since the last drain |
| Alerts.AlertHistory.Len | cmd/analysis/alert_loop.go:143-150 | the length is the smaller of log length and capacity |
| Alerts.AlertHistory.FilterBySeverity | cmd/analysis/alert_loop.go:117-139 | the filter keeps the snapshot's alerts of at least the given rank |
| Alerts.AtLeastMeans | cmd/analysis/alert_loop.go:117-139 | critical passes every filter, warning all but the critical one, info the info and unknown ones, anything else only an unknown one |
| Alerts.AlertHistory.DrainAndReset | cmd/analysis/alert_loop.go:160-185 | draining returns the snapshot and empties the buffer |
| Alerts.RingPush | cmd/analysis/alert_loop.go:81-87 | the ring invariant on values |
| Alerts.RecorderChannel.Send | pkg/alert/channel.go:121-136 | a full buffer drops its oldest entry and counts it |
| Alerts.RecorderChannel.DrainAndReset | pkg/alert/channel.go:151-157 | draining returns the buffer and empties it |
| Alerts.AlertsAreConserved | pkg/alert/channel.go:121-173 | in every interleaving sent equals drained plus buffered plus evicted, and drained then buffered is an in-order part of what was sent |
| Alerts.NothingEvictedNothingLost | pkg/alert/channel.go:121-157 | without evictions drained then buffered is everything sent |
| Alerts.BufferIsRecent | pkg/alert/channel.go:121-136 | until the next drain the recorder holds the newest cap of what it had and what was sent since |
| Alerts.OldestFirstHistoryIsDrained | cmd/analysis/alert_loop.go:285-315 | in every interleaving where each delivery takes the oldest batch in flight, history followed by the batches in flight is what was drained |
| Alerts.PunctualHistoryIsInOrder | cmd/analysis/alert_loop.go:306-312 | in every interleaving without a late delivery history then buffer is an in-order part of what was sent |
| Alerts.HistoryInOrderIff | cmd/analysis/alert_loop.go:306-312 | for distinct alerts and every interleaving, the history is an in-order part of what was sent if and only if no non-empty batch was delivered after a younger one |
| Alerts.OverlappingCyclesReorder | cmd/analysis/alert_loop.go:306-312 | two overlapping cycles that leave the history in the wrong order |
| WindowLimiter.RateLimiter.Allow | cmd/data/middleware.go:36-57 | decision and new visitor table of one request |
| WindowLimiter.AlwaysAccounted | cmd/data/middleware.go:36-57 | the counter accounts for its own window and bounds the one before |
| WindowLimiter.AtMostTwiceTheRate | cmd/data/middleware.go:36-57 | any interval of one window length admits at most 2 * rate - 1 requests of a client |
| WindowLimiter.TwiceTheRateIsReached | cmd/data/middleware.go:36-57 | that bound is reached for every rate |
| WindowLimiter.ClientsAreIndependent | cmd/data/middleware.go:36-57 | decisions and counts of a client are those of its own requests alone |
| GatewayLimiter.RateLimiter.Allow | pkg/bootstrap/server.go:102-115 | decision and new visitor table of one request |
| GatewayLimiter.RateLimiter.Sweep | pkg/bootstrap/server.go:117-129 | a cleanup pass removes exactly the stale entries |
| GatewayLimiter.CleanupMeans | pkg/bootstrap/server.go:117-129 | after a cleanup exactly the clients seen within the window are left, as they were |
| GatewayLimiter.CleanupIsInvisible | pkg/bootstrap/server.go:117-129 | removing all cleanups from a run changes no decision |
| GatewayLimiter.FirstRateOfEachStreak | pkg/bootstrap/server.go:102-115 | a request is admitted if and only if it is among the first rate of its streak |
| GatewayLimiter.AtMostRatePerWindow | pkg/bootstrap/server.go:102-129 | any interval of one window length admits at most rate requests of a client |
| Reconciliation.CountKeys | cmd/dualrun/diff.go:124-136 | the map counts every key |
| Reconciliation.GoPass | cmd/dualrun/diff.go:138-157 | the pass over Go trades gives one row per key and both counts |
| Reconciliation.NtPass | cmd/dualrun/diff.go:158-167 | the pass over NT trades adds exactly the keys Go does not have |
| Reconciliation.ReconcileTrades | cmd/dualrun/diff.go:112-173 | totals by key membership, and one row per distinct key with its kind and the fees of the first trades, sorted by day and symbol |
| Reconciliation.KeysEqualIff | cmd/dualrun/diff.go:120-123 | two trades match exactly when day, symbol and side are the same and quantity and price agree to the hundredth |
| Reconciliation.KindMeans | cmd/dualrun/diff.go:138-167 | the kind of a row says on which sides a trade has its key |
| Reconciliation.FeesMean | cmd/dualrun/diff.go:146-151 | a matched row shows the fees of the first trade on either side |
| Reconciliation.OrderedMeans | cmd/dualrun/diff.go:168-173 | rows are in order of day, then symbol |
| Reconciliation.ExcessIsDifference | cmd/dualrun/gate.go:144-145 | the excess over keys is the difference of the two counts |
| Reconciliation.CountsAreConserved | cmd/dualrun/diff.go:138-167 | matched plus Go-only is the number of Go trades; matched plus NT-only is the number of NT trades plus the excess over shared keys |
| AlignmentGate.BuildReport | cmd/dualrun/diff.go:72-89 | a report carries the eight metrics and the reconciliation |
| AlignmentGate.NumMeans | cmd/dualrun/diff.go:91-97 | a metric row leads from the Go value to the NT value by its difference and its relative difference |
| AlignmentGate.MetricViolations | cmd/dualrun/gate.go:93-126 | the metric rules reported, in table order and with the figures of their messages, are exactly those whose metric is missing or out of tolerance |
| AlignmentGate.EvaluateGate | cmd/dualrun/gate.go:76-167 | exactly the broken rules are reported, in order, a mismatch once per row, each with the figures its message shows |
| AlignmentGate.ReasonMeans | cmd/dualrun/gate.go:93-126 | the figures of a metric violation are both values and how far apart they are, above the limit |
| AlignmentGate.FillReasonMeans | cmd/dualrun/gate.go:144-165 | the figures of the fill leg are both counts and their relative difference, above 5% |
| AlignmentGate.SilentGateMeans | cmd/dualrun/gate.go:76-167 | on a built report the gate is silent if and only if both flags, all six tolerances and the fill leg hold |
| AlignmentGate.GateCountIsRawIff | cmd/dualrun/gate.go:144-145 | the gate's NT count is the raw count exactly when shared keys balance |
| AlignmentGate.RepeatedNtFillsPass | cmd/dualrun/gate.go:144-165 | whenever both trade lists have the same keys the fill leg is silent, whatever the multiplicities |
| Versioning.StripUndoesCanonical | pkg/api/versioning.go:125-138 | stripping the redirect target gives back every path under /api/ if and only if the version is one slash-free version segment |
| Versioning.DigitVersions | pkg/api/versioning.go:99-119 | a v followed by digits is such a segment if and only if the number fits 64 bits |
| Versioning.SignedVersions | pkg/api/versioning.go:99-119 | a v, a sign and digits is a version segment exactly while the number fits 64 bits, negative ones included |
| Versioning.SegmentShape | pkg/api/versioning.go:99-119 | a version segment is a v, at most one sign, and digits |
| Versioning.VersionedIsHandledOnce | pkg/api/versioning.go:204-222 | a versioned path is handled after one re-dispatch with its first version stripped |
| Versioning.AtMostOneDispatch | pkg/api/versioning.go:181-252 | every request takes at most one re-dispatch; redirects happen exactly for unversioned API paths, 301 or 308 by verb |
| Versioning.UnversionedIsHandled | pkg/api/versioning.go:181-252 | without redirecting an unversioned API path is handled as legacy, other paths are not versioned |
| Versioning.RedirectEndsAtTheHandler | pkg/api/versioning.go:225-246 | following the redirect ends after one redirect and one re-dispatch at the original path (sections 15.4.2 and 15.4.9 of RFC 9110) |
| Versioning.RedirectsEndIff | pkg/api/versioning.go:225-246 | redirects end after one if the head of the configured version is a version segment, and never otherwise |
| Versioning.NestedPrefixes | pkg/api/versioning.go:188-222 | only the first of nested version prefixes is stripped |

## Left out

- Float rounding, NaN and infinities outside the replay's target, and logging.
- ReconcileTrades: fixes the order of rows with equal day and symbol, which the source's unstable sort leaves open; no count or rule depends on it.
- The wording of the gate's messages; the figures in them are `AlignmentGate.Reason`.
- Portfolio values of the replay, fee breakdowns and the metrics computed from them.
- The tracker's flat threshold of 1e-8, below which it drops a position; holdings are exact here.
- A missing instrument in the sidecar's cache, which raises before anything is submitted.
- The argument checks of CreateFirstAdmin and CreateUser before their database steps, and deletion of users, which no service code does.
- HTTP handlers, deprecation headers, rate-limit exemptions, proxies, database and cache access, report rendering.
- The price-limit board table and its new-stock branch; the replays use one configured rate.
- The exec-algo dispatcher's child orders and stop-loss decisions; their effect on holdings is an outside change.
- Webhook delivery and the alert manager after close.
