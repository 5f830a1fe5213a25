# Verified model of the trading platform's backtest, data and order-safety core

This project models the parts of the platform whose correctness everything else rests on, and
proves what they promise, for all inputs and over whole runs:

- **The backtest engine with its executor** (`LedgerModel`, `LedgerLaws`, `LedgerRuns`,
  `LedgerProgress`, `LedgerHistory`, `LedgerEvents`, `ActiveIndex`, `Portfolio`, `EquityPath`, `Engine`). `LedgerModel` is the simple form of the
  account: an order history and a fill history and nothing else. `Engine.BacktestEngine` is the real
  form, with its active-order index, look-up tables, weighted-average positions, closed records and
  running drawdown. Every method of the class is proved to change the account as the ledger function
  does. The ledger's laws are proved for every state of every run of every strategy, also after an
  error: order life cycle, reduce-only safety and reservation, no reversal, provenance of every fill.
  Every event is also described from outside, by the ledgers before and after it and the strategy's
  answers: which callbacks it makes, that what they cancel ends, that exactly the intents asked for
  become orders, why an order ends, and that a bar fills what it reaches.
  The money laws (cash, commissions, quantities, equity, net profit) tie the class's positions to
  the fills alone. A whole backtest (`Engine.Backtest`) is specified without the engine: positions,
  net profit and drawdown are functions of the ledger states the run passes through.
- **The replay loader and the shared sweep** (`Loader`, `Completeness`, `SharedSweep`, `SweepResults`).
  What chunked, pruned reading emits is exact at every shift; five SQL aggregates accept exactly the
  complete grids. A plan on the shared stream receives what it would have loaded alone when the time
  shift is safe for the rows it asks for and no other plan uses its run id, and its report is then the
  backtest of its own load. Both conditions are exact: beyond them fan-out and standalone differ.
- **Interval and swing algorithms** (`Sorting`, `Intervals`, `Coverage`, `ZigZag`, `Segments`).
  Merging computes a canonical form, the coverage scan is exact, the ZigZag loop computes the one
  list of pivots its specification allows, and the way from bars to merged segments ends exactly when
  the whole span is long enough.
- **The fail-closed testnet harness** (`SmokeHarness`). Against an exchange that may answer, fail or
  interrupt at any call, at most one entry and one exit are ever posted.

## How it is modelled

- `Decimal` and float values are exact `real`s; times are unbounded integers.
- An order object is its index in the order history, so all tables refer to the one order there is.
  Engine and executor are one object, since each engine owns exactly one executor. `fills` and
  `fill_records`, which always receive the same fills, are one sequence; the append that both callers of
  `_execute_fill` do right after it is part of `ExecuteFill`.
- A dictionary whose iteration order matters is a sequence in insertion order (open positions, the
  inner dictionaries of the active index).
- A strategy is arbitrary: it is given as its answers to the first, second, ... callback of a run. It
  may cancel any order ids at every callback and return any intents of positive quantity.
- An exception is a result value; a failing event leaves the state the source leaves.
- A SQL query is any sorted arrangement of the rows it selects. The rows of a partition file lie within
  the bounds its index entry states.
- The exchange is an arbitrary function from call numbers, and for orders client ids, to answers. An answer may also be an
  interruption that `except Exception` does not catch.
- The comment on the fill check says that orders are always filled completely; the code fills a LIMIT
  order in slices of `limit_fill_fraction_per_bar`, and the model follows the code.

## Exact conditions

Where a promise in the source's comments or names does not hold without more, the exact condition is
proved:

- The chunk window is meant to keep every row its chunk needs. For candles it does so exactly for shifts
  from -1000 ms up to the length of the candle (`Loader.PruningSoundExactly`); 1s rows arrive in full at
  every shift, also in mixed requests (`Loader.SecondsAlwaysComplete`).
- A shared load is meant to feed each plan as its own load would. Loads with different starts cut the time
  axis into different chunks, so for candles this holds in all groups, archives and chunk sizes exactly for
  the same shifts (`SharedSweep.FanOutSoundExactly`); at the eight hours that
  docs/AKEUSDT_2026_07_ALIGNED_REPLAY.md asks for it fails for every candle shorter than that. A plan that
  asks for seconds only is not affected (`SharedSweep.FanOutEqualsStandalone`), and for a given archive and
  chunk size the two agree exactly when both read the plan's rows alike (`SharedSweep.FanOutExactly`).
- An accepted candle check is meant to guarantee the data of the replay. The stream then holds every bar
  exactly for the same shifts, or from a table (`Completeness.CheckSufficesExactly`); at eight hours the
  check passes and bars may still be lost.
- The engines of a sweep are called isolated. Deliveries are isolated, on the streams the loader can emit, if and only if
  no two plans that listen share a run id (`SharedSweep.DeliveriesIsolatedExactly`); failures and counts if and only
  if no such plan shares its run id with any other (`SharedSweep.FullyIsolatedExactly`).
- Short-segment merging is described as iterating until no short segment is left. It ends if and only if
  the time from the first bar to the last pivot reaches the limit (`Segments.WavesSettleExactly`).
- The dense 1s check can never pass when no full second starts inside the window
  (`Completeness.DenseSecondsExact`).
- The cleanup is meant to post a missing exit. The exit's client id equals the entry's for ids of 30
  characters that end in `_exit`, and only for those (`SmokeHarness.ExitIdDiffers`); the cleanup then takes
  the entry for the exit and posts none (`SmokeHarness.EmergencyCleanup`). With different ids it posts the
  exit when the exchange answers about the entry, knows no exit and shows a position.

## Model

| member | source | states |
|---|---|---|
| LedgerRuns.EveryRunIsLawful | src/trading_platform/backtest/engine.py:145-219 | from any start time, in every state that any strategy can reach on any events, all laws hold (life cycle, tallies, pace, causality, no reversal, reduce-only safety, backed reservations), no MARKET order is left active in an error-free run, and the run saw exactly a prefix of its events |
| LedgerRuns.RunKeepsLaws | src/trading_platform/backtest/engine.py:159-160 | continuing from any lawful state stays lawful and rewrites no history: terms never change, final statuses are final, fills are only appended |
| LedgerRuns.ProcessEventKeepsLaws | src/trading_platform/backtest/engine.py:170-219 | one event keeps every law whether it succeeds or raises |
| LedgerRuns.CheckFillsKeepsLaws | src/trading_platform/backtest/engine.py:304-362 | the fill loop keeps every law although callbacks cancel orders of its own snapshot |
| LedgerRuns.ReactKeepsLaws | src/trading_platform/backtest/engine.py:200-217 | placing and immediately filling the strategy's intents keeps every law and leaves no MARKET order active |
| LedgerRuns.ExecuteFillKeepsLaws | src/trading_platform/backtest/engine.py:364-470 | a fill attempt keeps every law in all three outcomes; a MARKET order is final afterwards unless the attempt raised |
| LedgerRuns.PlaceOneKeepsLaws | src/trading_platform/backtest/engine.py:207-216 | placing one intent and filling it at once keeps the laws, also when an existing order is returned |
| LedgerRuns.LimitFillsBounded | src/trading_platform/backtest/engine.py:393-399 | no LIMIT order is filled more than ceil(1/fraction) times |
| LedgerRuns.ReduceOnlyNeverCut | src/trading_platform/backtest/engine.py:400-414 | while every closing fill so far was reduce-only, an active reduce-only order is never truncated or expired by the position checks |
| LedgerRuns.ResubmissionIsIdempotent | src/trading_platform/backtest/executor.py:68-73 | resubmitting a known client id creates neither an order nor a fill |
| LedgerRuns.StepKeepsSign | src/trading_platform/backtest/engine.py:415-426 | one fill never moves a position across zero |
| LedgerRuns.SideChangePassesFlat | src/trading_platform/backtest/engine.py:415-426 | between a long and a short position of a symbol there is a fill after which it is flat |
| LedgerRuns.LimitPriceOrBetter | src/trading_platform/backtest/engine.py:375-392 | in every reachable state a LIMIT purchase filled at its price, a LIMIT sale at the better of its price and the open of the bar that filled it |
| LedgerRuns.SlippageIsAdverse | src/trading_platform/backtest/engine.py:381-390 | slippage only ever worsens a MARKET fill |
| LedgerLaws.BookKeepsLaws | src/trading_platform/backtest/engine.py:393-470 | booking a fill keeps every law: the fill is justified by the current bar (later than placement, inside the TTL, strictly crossed, own symbol and timeframe), sums and slices stay exact |
| LedgerLaws.BookBackedFor | src/trading_platform/backtest/engine.py:400-426 | position and reservation shrink together: reserved quantity never exceeds the position and stays on its closing side |
| LedgerLaws.AppendKeepsLaws | src/trading_platform/backtest/executor.py:75-113 | a validated placement keeps every law, in particular the reservation law |
| LedgerLaws.RetireKeepsLaws | src/trading_platform/backtest/executor.py:155-168 | cancelling or expiring an active order keeps every law |
| LedgerLaws.TakeBounds | src/trading_platform/backtest/engine.py:393-426 | a fill takes a positive quantity within the remainder and within the position it closes; a truncated order always has something left |
| LedgerLaws.BookPace | src/trading_platform/backtest/engine.py:395-399 | after k fills an active LIMIT order has filled exactly k slices |
| LedgerLaws.ActiveRefsExact | src/trading_platform/backtest/engine.py:294-302 | the active orders of a symbol are listed once each, in placement order, and nothing else |
| LedgerProgress.NoOrderLeftBehind | src/trading_platform/backtest/engine.py:326-362 | after a bar no earlier order of its symbol is active past its TTL, or crossed without a fill on this bar |
| LedgerProgress.EventLeavesNoneBehind | src/trading_platform/backtest/engine.py:170-219 | the same holds after the whole event, whatever the strategy cancels and places in reaction |
| LedgerProgress.NoBarLeavesOrdersBehind | src/trading_platform/backtest/engine.py:159-160 | over a whole run: after each bar of the execution timeframe no order that stood before it is active past its TTL, or crossed without a fill on that bar |
| LedgerProgress.RunStopsAtError | src/trading_platform/backtest/engine.py:159-168 | a run that fails is the error-free run up to some event, followed by that event |
| LedgerProgress.VisitAllHandles | src/trading_platform/backtest/engine.py:327-362 | every snapshot entry is dealt with, whatever the callbacks do to the rest |
| LedgerProgress.AllIntentsPlaced | src/trading_platform/backtest/engine.py:206-217 | when placing raises nothing, every client id has its order, and an intent that uses its client id for the first time can be read back from the history |
| LedgerProgress.PlacedAsAsked | src/trading_platform/backtest/executor.py:78-113 | the intent can be read back from the order placed for it, and all earlier orders are left alone |
| LedgerProgress.CancelledStay | src/trading_platform/backtest/executor.py:139-168 | cancelling a list of ids makes exactly the active orders among them CANCELLED, stamped with the current time, and touches no other |
| LedgerHistory.FillTerms | src/trading_platform/backtest/engine.py:375-392 | every fill of a lawful account pays maker or taker fee on quantity times price; a MARKET fill is off its base price by exactly the slippage in basis points, up for BUY and down for SELL, a LIMIT fill is at its base price |
| LedgerHistory.ReversalExactly | src/trading_platform/backtest/engine.py:415-426 | the reversal error is raised exactly when an order that is not reduce-only closes a position smaller than what the bar would fill |
| LedgerHistory.RefusedExactly | src/trading_platform/backtest/executor.py:115-137 | a placement is refused exactly for a new client id, reduce-only, that does not close the position or exceeds what active reduce-only orders leave of it |
| LedgerEvents.EveryRunHasHistory | src/trading_platform/backtest/engine.py:337-470 | in every state of every run: an order that is not reduce-only has expired only when its TTL was over, fill and cancel times are stamped, and every fill has exactly the size that remainder, slice and position dictate |
| LedgerEvents.EventFollowsStrategy | src/trading_platform/backtest/engine.py:170-219 | an error-free event makes one callback per fill and one for itself, fills of older orders before it and of new ones after it; what a callback cancels is inactive afterwards; orders end only by a callback, by their TTL, or reduce-only with nothing to close; exactly the first uses of a client id among the intents become orders, in that order, from the start of trading on; a MARKET order that is not reduce-only is filled whole |
| LedgerEvents.RunFollowsStrategy | src/trading_platform/backtest/engine.py:145-219 | the same for every event of an error-free run |
| LedgerEvents.ReachedOrderFills | src/trading_platform/backtest/engine.py:327-362 | an error-free bar fills every resting order it strictly crosses inside its TTL, unless a callback of the event cancels it, or it is reduce-only and has nothing to close |
| LedgerEvents.RunFillsReached | src/trading_platform/backtest/engine.py:145-219 | the same for every bar of an error-free run |
| LedgerEvents.PlaceAllExact | src/trading_platform/backtest/engine.py:206-216 | the new orders are the intents with a fresh client id, read back in order; only new orders are filled while placing |
| LedgerEvents.WholeFillIsOnly | src/trading_platform/backtest/engine.py:209-216 | a fill of the whole order is its only fill, and the order is FILLED |
| LedgerEvents.CallbackExact | src/trading_platform/backtest/engine.py:278-279 | a callback cancels exactly the active orders it names |
| ActiveIndex.RegisterNew | src/trading_platform/backtest/engine.py:281-283 | registering a new order keeps the index equal to the active part of the history |
| ActiveIndex.RegisterAgain | src/trading_platform/backtest/engine.py:457-458 | re-registering a partially filled order changes nothing, not even its place |
| ActiveIndex.RemoveFinal | src/trading_platform/backtest/engine.py:285-292 | removing a final order keeps the index exact and leaves no empty inner dictionary |
| ActiveIndex.ReservedOverActive | src/trading_platform/backtest/executor.py:124-132 | summing the reservation over the index equals summing it over the whole history |
| Portfolio.OpenedBookOk | src/trading_platform/backtest/engine.py:496-508 | opening a position keeps quantities, cash, commissions and round trips in balance, per symbol and over the account |
| Portfolio.UpdatedBookOk | src/trading_platform/backtest/engine.py:515-568 | partially closing or adding keeps the same balance |
| Portfolio.ClosedBookOk | src/trading_platform/backtest/engine.py:543-548 | moving a flat position to the records keeps the balance and counts one round trip |
| Portfolio.AfterOneFillOk | src/trading_platform/backtest/engine.py:487-574 | opening, adding, reducing or closing, a fill that does not pass through zero leaves balanced books |
| Portfolio.ReplayBalances | src/trading_platform/backtest/engine.py:487-574 | the books replayed from any fill history without a reversal are in balance |
| Portfolio.LawfulBooks | src/trading_platform/backtest/engine.py:462-470 | so are the books of every lawful account |
| Portfolio.ReducedAbsorbs | src/trading_platform/backtest/engine.py:526-536 | closing realises exactly the cash the fill moved against the entry price |
| Portfolio.AddedAbsorbs | src/trading_platform/backtest/engine.py:556-568 | the weighted-average entry price accounts for exactly the cash spent |
| Portfolio.FillMovesPosition | src/trading_platform/backtest/engine.py:487-568 | a fill opens a position at its own terms, adds to it with a quantity-weighted entry price and nothing realised, reduces it at an unchanged entry price with the price difference realised, or closes it into the records; all other positions stand |
| Portfolio.OnlyAddedIsMean | src/trading_platform/backtest/engine.py:550-568 | a position that has only been added to has realised nothing and costs the weighted mean of its fills |
| Portfolio.PositionIsNet | src/trading_platform/backtest/engine.py:275-276 | the open position of a symbol is BUY minus SELL quantity of its fills, and absent exactly when that is zero |
| Portfolio.ProfitIsAccountValue | src/trading_platform/backtest/engine.py:221-240 | profit added up position by position equals cash minus commissions plus net quantities at their prices |
| Portfolio.WorstDropStep | src/trading_platform/backtest/engine.py:242-248 | the running peak and drawdown stay the peak and the deepest drop of the whole sample history |
| EquityPath.LastPriceIsLatest | src/trading_platform/backtest/engine.py:187-190 | the last price of a symbol is the close of its latest 1s or execution-timeframe bar, and is missing exactly when there was none |
| EquityPath.MarkIsLatestClose | src/trading_platform/backtest/engine.py:228-239 | a position is marked at the adverse extreme of its own execution bar, else at the close of the latest 1s or execution bar of its symbol, else at cost |
| EquityPath.SamplesFollowRun | src/trading_platform/backtest/engine.py:194-218 | an error-free run has two samples per event: the account's worth after the event's fills, and after the whole event |
| EquityPath.SamplesOneMore | src/trading_platform/backtest/engine.py:170-219 | feeding one more event to an error-free run extends run and samples by that event |
| EquityPath.SampleIsAdverse | src/trading_platform/backtest/engine.py:221-240 | no prices inside the current bar value the account lower than the sample |
| Engine.BacktestEngine.constructor | src/trading_platform/backtest/engine.py:86-143 | a new engine is valid, its account is the initial ledger, and its clock starts at the first event of a list, at zero for a stream |
| Engine.BacktestEngine.RegisterActive | src/trading_platform/backtest/engine.py:281-283 | the index after registering |
| Engine.BacktestEngine.RemoveActive | src/trading_platform/backtest/engine.py:285-292 | the index after removing, without empty entries |
| Engine.BacktestEngine.IterActiveOrders | src/trading_platform/backtest/engine.py:294-297 | the index answers with exactly the active orders of the history in placement order |
| Engine.BacktestEngine.IterAllActiveOrders | src/trading_platform/backtest/engine.py:298-302 | all active orders of the account, each exactly once |
| Engine.BacktestEngine.CancelOrder | src/trading_platform/backtest/executor.py:139-168 | refines the ledger's cancellation and reports success exactly for a known active order |
| Engine.BacktestEngine.CancelSymbolOrders | src/trading_platform/backtest/executor.py:170-187 | exactly the active orders of the symbol become CANCELLED, and their number is returned |
| Engine.BacktestEngine.CancelAllOrders | src/trading_platform/backtest/executor.py:189-203 | exactly the active orders become CANCELLED, and their number is returned |
| Engine.BacktestEngine.ExpireOrder | src/trading_platform/backtest/engine.py:472-485 | refines the ledger's expiry and keeps the index exact |
| Engine.BacktestEngine.GetPosition | src/trading_platform/backtest/engine.py:275-276 | the position found is the net of the fills, and none is found exactly when flat |
| Engine.BacktestEngine.ValidateReduceOnly | src/trading_platform/backtest/executor.py:115-137 | accepts exactly intents that close the position within its unreserved part |
| Engine.BacktestEngine.PlaceOrder | src/trading_platform/backtest/executor.py:52-113 | refines the ledger's placement: known client id, refused reduce-only, or a new order in all tables |
| Engine.BacktestEngine.DecideFill | src/trading_platform/backtest/engine.py:393-426 | decides by positions what the ledger decides by the net of the fills |
| Engine.BacktestEngine.MakeFill | src/trading_platform/backtest/engine.py:375-392 | price, maker flag and commission of the fill the ledger records |
| Engine.BacktestEngine.ApplyToOrder | src/trading_platform/backtest/engine.py:450-460 | order quantities and status after a fill, with the index still exact |
| Engine.BacktestEngine.UpdatePosition | src/trading_platform/backtest/engine.py:487-574 | open positions and records become those replayed from the fills with the new one, and the books balance |
| Engine.BacktestEngine.ReducePosition | src/trading_platform/backtest/engine.py:524-548 | closing in part or in full moves the books as the replay of the fills does, and balances them |
| Engine.BacktestEngine.ExecuteFill | src/trading_platform/backtest/engine.py:364-470 | refines the ledger's fill; on the reversal error nothing but the error flag changes |
| Engine.BacktestEngine.Callback | src/trading_platform/backtest/engine.py:278-279 | whatever a callback cancels, indexes and account stay in agreement |
| Engine.BacktestEngine.WalkSnapshot | src/trading_platform/backtest/engine.py:327-362 | the snapshot loop with its re-check of the live index does what the plain ledger loop does |
| Engine.BacktestEngine.CheckFills | src/trading_platform/backtest/engine.py:304-362 | refines the ledger's fill check |
| Engine.BacktestEngine.PlaceAll | src/trading_platform/backtest/engine.py:206-216 | refines placing all intents, stopping at the first error |
| Engine.BacktestEngine.PortfolioEquity | src/trading_platform/backtest/engine.py:221-240 | equity equals cash minus commissions plus signed quantity times mark; a position without a mark counts at cost |
| Engine.BacktestEngine.UpdateDrawdown | src/trading_platform/backtest/engine.py:242-248 | the sample is the account value, and the online drawdown stays the deepest drop from any earlier sample or zero |
| Engine.BacktestEngine.SampleEvent | src/trading_platform/backtest/engine.py:242-248 | the sample taken is the worth of the ledger at that event, and the drawdown stays exact |
| Engine.BacktestEngine.ProcessEvent | src/trading_platform/backtest/engine.py:170-219 | refines the ledger's event; raises and changes nothing once finished; adds exactly the event's samples of the equity path; prices are those of the events seen |
| Engine.BacktestEngine.Finish | src/trading_platform/backtest/engine.py:250-254 | idempotent; lists the replayed records and the marked open positions, each once; net profit equals the cash account at last prices; drawdown is the deepest drop of the samples |
| Engine.BacktestEngine.ListOpenPositions | src/trading_platform/backtest/engine.py:613-632 | open positions are marked to the last known price and appended, none lost or repeated |
| Engine.MarkedAt | src/trading_platform/backtest/engine.py:621-631 | each listed open position keeps all fields and is marked by the difference of last and entry price on its quantity |
| Engine.BacktestEngine.Run | src/trading_platform/backtest/engine.py:145-168 | a whole run refines the ledger run; its samples are the equity path of that run, two per event; the result carries the histories, the replayed positions, the cash-account profit and the deepest drop of the samples |
| Engine.Backtest | src/trading_platform/backtest/engine.py:86-168 | from construction to result, in terms of the ledger run alone: success, and the one report of that run (histories, positions, net profit, maximum drawdown) |
| Engine.ReportUnique | src/trading_platform/backtest/engine.py:613-648 | the ledger run determines every field of the report |
| Engine.StartTimeIrrelevant | src/trading_platform/backtest/engine.py:97-101 | whether events come as a list or as a stream makes no difference to the report |
| Engine.NetPnlIsAccountValue | src/trading_platform/backtest/result.py:725-728 | realised plus unrealised minus commission over the listed positions equals cash minus commissions plus net quantities at last price |
| Intervals.MergeIntervals | tools/compute_amplitude_cycle_indicators.py:342-351 | the result covers exactly the input's points, sorted, none empty, with a gap between neighbours |
| Intervals.CanonicalUnique | tools/compute_amplitude_cycle_indicators.py:342-351 | two canonical lists with the same points are equal |
| Intervals.MergeIsCanonicalForm | tools/compute_amplitude_cycle_indicators.py:342-351 | inputs with the same points merge to the same list, and a canonical list merges to itself |
| Coverage.HasContiguousCoverage | src/trading_platform/backtest/benchmark.py:248-264 | true if and only if every millisecond of the window lies in some partition, for any overlap, nesting or order |
| Coverage.IsComplete | src/trading_platform/backtest/benchmark.py:267-275 | complete if and only if every required timeframe is covered |
| Coverage.ChooseSymbol | src/trading_platform/backtest/benchmark.py:226-289 | the preferred symbol when covered, else the smallest covered one; refused exactly for a bad window, no timeframes or no covered symbol |
| Loader.PruningKeeps | src/trading_platform/backtest/loader.py:514-529 | a file holding a row its chunk needs is kept, by the index selection and by the chunk window |
| Loader.PruningSoundExactly | src/trading_platform/backtest/loader.py:519-525 | for candles pruning is sound if and only if the shift is between -1000 ms and the candle's length |
| Loader.PrunedRows | src/trading_platform/backtest/loader.py:438-446 | a row that the shift is safe for is selected from the kept files as often as from all files |
| Loader.PrunedSubset | src/trading_platform/backtest/loader.py:514-529 | pruning never invents or repeats a row, whatever the shift |
| Loader.ExecuteStreamQuery | src/trading_platform/backtest/loader.py:466-512 | a chunk's cursor holds requested rows of the chunk in sort order, each exactly as often as the files the chunk reads hold it, and those the shift is safe for as often as the source |
| Loader.StreamCoversRequest | src/trading_platform/backtest/loader.py:208-211 | every requested row becomes available inside the streamed range |
| Loader.ChunksJoin | src/trading_platform/backtest/loader.py:210-227 | answers of adjacent chunks, concatenated, answer the joint window |
| Loader.EmitCursor | src/trading_platform/backtest/loader.py:219-226 | batching changes nothing, and each stream is numbered 0, 1, 2, ... |
| Loader.IterAll | src/trading_platform/backtest/loader.py:176-230 | for every chunk and batch size the stream is globally sorted, repeats nothing, and holds each requested row that the shift is safe for exactly as often as the source; at any shift it holds each row exactly as often as its chunk reads it; bad arguments are refused |
| Loader.EmitsAnswers | src/trading_platform/backtest/loader.py:208-227 | the exact account of what is emitted implies the answer to the request |
| Loader.CopiesOfFiles | src/trading_platform/backtest/loader.py:514-529 | a requested row is never read more often than it occurs, and as often when the shift is safe for it |
| Loader.SecondsAlwaysComplete | src/trading_platform/backtest/loader.py:519-525 | requested 1s rows arrive in full at every shift, whatever else is requested or archived |
| Loader.StreamIsComplete | src/trading_platform/backtest/loader.py:176-230 | the stream is the sort of all requested rows for a table, for 1s requests, and when the shift is safe for all requested rows |
| Loader.AnswersAgree | src/trading_platform/backtest/loader.py:491-493 | when no two different rows tie on the sort key the stream is one definite sequence |
| Loader.StreamOrder | src/trading_platform/backtest/loader.py:491-493 | the order of the stream: availability, then seconds before candles, then symbol, opening and closing time |
| Loader.StreamWindow | src/trading_platform/backtest/loader.py:481-490 | only rows of the requested window are emitted, and safe ones as often as they occur |
| Completeness.KlineValidatorExact | src/trading_platform/backtest/loader.py:281-309 | for a non-empty grid the five aggregates match if and only if the rows are one well-formed bar per aligned slot |
| Completeness.GridSlots | src/trading_platform/backtest/loader.py:282-285 | the slots of the check are the aligned bars that close at or after the start and end by the end |
| Completeness.MatchImpliesGrid | src/trading_platform/backtest/loader.py:296-305 | count, distinct count, minimum, maximum and no misshapen row force the whole grid (pigeonhole) |
| Completeness.GridImpliesMatch | src/trading_platform/backtest/loader.py:296-305 | a complete grid has exactly these aggregates |
| Completeness.AcceptedIsStreamed | src/trading_platform/backtest/loader.py:202-205 | candles accepted by the check are streamed as one well-formed bar per slot, from a table or at a safe shift |
| Completeness.CheckSufficesExactly | src/trading_platform/backtest/loader.py:204-227 | over all archives and chunk sizes the check guarantees the streamed grid if and only if the shift lies between -1000 ms and the interval |
| Completeness.DenseSecondsExact | src/trading_platform/backtest/loader.py:347-356 | without ids the check passes if and only if there is one row per full second and at least one such second |
| Completeness.ContinuityExact | src/trading_platform/backtest/loader.py:333-346 | with ids the check passes if and only if the seconds' id ranges partition the whole id range in time order |
| Completeness.EachIdInOneSecond | src/trading_platform/backtest/loader.py:333-346 | a trade id belongs to only one second |
| Completeness.SecondsCheckExact | src/trading_platform/backtest/loader.py:311-356 | both branches together: accepted if and only if the seconds partition the trade ids or, without any id, every full second of the window has one row |
| SharedSweep.MatchedIffOwn | src/trading_platform/backtest/run_spike_sweep_symbol.py:63-72 | a row of the shared load matches a plan if and only if the plan's own load asks for it |
| SharedSweep.FanOutAnswersOwn | src/trading_platform/backtest/run_spike_sweep_symbol.py:163-203 | the plan's part of the shared stream meets, row by row and at every shift, the contract the loader gives for the plan's own load |
| SharedSweep.FanOutEqualsStandalone | src/trading_platform/backtest/run_spike_sweep_symbol.py:208-225 | when the shift is safe for the plan's own rows, the plan's part of the shared stream is the very sequence of its own load, whatever is lost for other plans |
| SharedSweep.FanOutExactly | src/trading_platform/backtest/run_spike_sweep_symbol.py:181-203 | at any shift, for given archive and chunk size: the two streams agree if and only if both loads read the plan's rows equally often |
| SharedSweep.FanOutSoundExactly | src/trading_platform/backtest/run_spike_sweep_symbol.py:166-203 | for candles of one length they agree in all groups, archives and chunk sizes if and only if the shift lies between -1000 ms and that length |
| SharedSweep.RunShiftGroup | src/trading_platform/backtest/run_spike_sweep_symbol.py:204-243 | the loop delivers, fails and counts as specified, and reports plans that raised or got nothing |
| SharedSweep.OfferEvent | src/trading_platform/backtest/run_spike_sweep_symbol.py:213-225 | one event reaches exactly the matching plans that have not failed |
| SharedSweep.DispatchIsolated | src/trading_platform/backtest/run_spike_sweep_symbol.py:208-225 | a plan whose run id no other matching plan uses receives, fails and counts as if it were alone |
| SharedSweep.ReportedIffOwnFault | src/trading_platform/backtest/run_spike_sweep_symbol.py:233-243 | a plan whose run id no other matching plan uses is reported if and only if its own engine raised or got no event |
| SharedSweep.AloneIsFilter | src/trading_platform/backtest/run_spike_sweep_symbol.py:213-218 | a plan receives a prefix of the matching events, and all of them if its engine did not raise in this run |
| SharedSweep.AloneStopsAtError | src/trading_platform/backtest/run_spike_sweep_symbol.py:213-222 | deliveries end with the event that made the engine raise |
| SharedSweep.AllTimeframesAre | src/trading_platform/backtest/run_spike_sweep_symbol.py:167-172 | the shared load asks for the timeframes of its plans and no others |
| SharedSweep.SweepEqualsStandalone | src/trading_platform/backtest/run_spike_sweep_symbol.py:163-225 | for a safe shift and an unshared run id the loop delivers to a plan its own load, up to the event that made its engine raise, and all of it if it did not fail |
| SharedSweep.OthersDoNotMatter | src/trading_platform/backtest/run_spike_sweep_symbol.py:213-225 | replacing all other engines changes nothing a plan receives |
| SharedSweep.SharedIdLeaks | src/trading_platform/backtest/run_spike_sweep_symbol.py:214-220 | in any group, of two plans with one run id the one that fails first withholds from the other an event it would have received alone |
| SharedSweep.DeliveriesIsolatedExactly | src/trading_platform/backtest/run_spike_sweep_symbol.py:213-225 | on every stream the loader can emit and for all engines, all plans receive what they would receive alone, if and only if no two listening plans share a run id |
| SharedSweep.FullyIsolatedExactly | src/trading_platform/backtest/run_spike_sweep_symbol.py:204-225 | deliveries, failures and counts are isolated on those streams if and only if no listening plan shares its run id |
| SharedSweep.ListensIffReached | src/trading_platform/backtest/run_spike_sweep_symbol.py:63-72 | a plan listens if and only if some row of the shared load can reach it |
| SharedSweep.StreamableIsEmitted | src/trading_platform/backtest/loader.py:208-227 | every ordered sequence of requested rows is what the loader emits for some source |
| SweepResults.NewEngine | src/trading_platform/backtest/run_spike_sweep_symbol.py:279-289 | a plan's new engine has processed nothing and is ready |
| SweepResults.FeedOne | src/trading_platform/backtest/run_spike_sweep_symbol.py:213-220 | offering an event to a plan moves its engine and the sweep's books together |
| SweepResults.RunSweep | src/trading_platform/backtest/run_spike_sweep_symbol.py:204-250 | with real engines: exactly the plans that did not fail have a result, and it is the report of the run of what they received |
| SweepResults.FinishAll | src/trading_platform/backtest/run_spike_sweep_symbol.py:233-250 | the closing loop reports plans without events and finishes the others once |
| SweepResults.SweepResultIsBacktest | src/trading_platform/backtest/run_spike_sweep_symbol.py:163-250 | for a safe shift and an unshared run id the result of a plan that did not fail is the backtest of its own load |
| ZigZag.ZigzagPivots | scripts/scan_daily_amplitude_waves.py:121-176 | kinds alternate, indices increase and prices are those of the bars; for positive prices the loop returns the pivots of the specification: each confirmed by the first retracing bar of its leg, and the open tail |
| ZigZag.ZigZagShape | scripts/scan_daily_amplitude_waves.py:124-130 | kinds alternate, indices increase, prices are those of the bars, each confirming bar lies between its pivot and the next and retraces by the percentage, each pivot is the extreme of its leg |
| ZigZag.RetracesInPercent | scripts/scan_daily_amplitude_waves.py:144-170 | a swing is confirmed by a move of the given percentage of the extreme |
| ZigZag.ZigZagUnique | scripts/scan_daily_amplitude_waves.py:137-175 | pivots and confirming bars of a series are uniquely determined |
| ZigZag.PivotsUnique | scripts/scan_daily_amplitude_waves.py:137-175 | a series has only one list of pivots, so the loop's result is the only one possible |
| Segments.BuildSegments | scripts/scan_daily_amplitude_waves.py:258-267 | the loop builds one segment per pivot, from bar 0 and then from pivot to pivot |
| Segments.SwingSegments | scripts/scan_daily_amplitude_waves.py:258-267 | the segments tile the bars from 0 to the last pivot, run forward, and rise into highs, fall into lows |
| Segments.MergeShortSegments | scripts/scan_daily_amplitude_waves.py:231-246 | the splicing loop computes the recursive merge and terminates when the span reaches the limit |
| Segments.MergedSegmentsOk | scripts/scan_daily_amplitude_waves.py:225-230 | merging keeps the tiling, only joins neighbouring segments, leaves the others unchanged, and leaves none shorter than the limit in minutes |
| Segments.MergedNeighbours | scripts/scan_daily_amplitude_waves.py:234-243 | two neighbouring segments that both reach the limit are never joined, and the first short one is joined with both its neighbours |
| Segments.LongSpanSettles | scripts/scan_daily_amplitude_waves.py:232-245 | with a long enough span the loop ends with the merge |
| Segments.ShortSpanNeverSettles | scripts/scan_daily_amplitude_waves.py:232-245 | with a short span a short segment remains after any number of rounds |
| Segments.WavesSettleExactly | scripts/scan_daily_amplitude_waves.py:220-246 | for the swings of any series in time order, merging ends if and only if the time up to the last pivot reaches the limit |
| Segments.BuildWaves | scripts/scan_daily_amplitude_waves.py:249-269 | from pivots to merged segments: tiled, joined from neighbours only, none short; all segments when merging is off |
| Segments.ScanWaves | scripts/scan_daily_amplitude_waves.py:319-322 | from bars to merged segments, with exactly the endless cases set apart |
| Segments.PivotsAreSwings | scripts/scan_daily_amplitude_waves.py:124-130 | pivots of the specification alternate, increase and are labelled, which is all that the segments need |
| SmokeHarness.QueryUntilKnown | scripts/binance_testnet_execution_smoke.py:173-194 | posts nothing; asks exactly until the first answer that says something, at most the given number of times, and returns only an order of the asked identity and a recognised status |
| SmokeHarness.QueryUntilTerminal | scripts/binance_testnet_execution_smoke.py:197-217 | as above, until the order has ended; none means that no answer in all attempts showed it ended |
| SmokeHarness.LookAtPosition | scripts/binance_testnet_execution_smoke.py:369-384 | a returned position is the latest observation with a readable non-zero amount, none means seen flat |
| SmokeHarness.QueryUntilPosition | scripts/binance_testnet_execution_smoke.py:220-235 | the answer is the latest observation; none means flat in all attempts |
| SmokeHarness.QueryUntilFlat | scripts/binance_testnet_execution_smoke.py:238-253 | no position means the latest observation was flat; a position means one was seen in all attempts |
| SmokeHarness.Prepare | scripts/binance_testnet_execution_smoke.py:431-487 | posts nothing; succeeds exactly when rules, normalised entry and reference price are there and keep their distance |
| SmokeHarness.CheckIdle | scripts/binance_testnet_execution_smoke.py:493-518 | succeeds exactly when the four answers show one-way mode, no open orders, flat and an unused client id, and the log then ends in them |
| SmokeHarness.SubmitEntry | scripts/binance_testnet_execution_smoke.py:520-549 | exactly one post, whatever the answer |
| SmokeHarness.ResolveEntry | scripts/binance_testnet_execution_smoke.py:552-636 | posts nothing; success means the entry was seen to have ended, and filled when a fill is demanded; an entry found open is cancelled |
| SmokeHarness.CancelEntry | scripts/binance_testnet_execution_smoke.py:585-607 | the cancel is sent whatever the answers are |
| SmokeHarness.FindPosition | scripts/binance_testnet_execution_smoke.py:638-652 | a filled entry without a position is reported only after all attempts showed flat |
| SmokeHarness.SubmitExit | scripts/binance_testnet_execution_smoke.py:659-746 | posts exactly when the direction fits and the position normalises, once, for its normalised absolute amount; success means the exit was seen to have ended, filled when demanded, and last seen flat |
| SmokeHarness.MainPath | scripts/binance_testnet_execution_smoke.py:422-747 | writes exactly when prices and preflight allow it; the log is safe on every way out; EXECUTION_OK means entry and exit were seen to have ended and last seen flat, and with an exit posted when fill-and-exit was asked |
| SmokeHarness.SettleEntry | scripts/binance_testnet_execution_smoke.py:266-305 | an entry found open, or not found at all, is cancelled; resolved means seen to have ended |
| SmokeHarness.CleanupExit | scripts/binance_testnet_execution_smoke.py:317-357 | posts exactly when no exit was attempted, the exchange does not know one and the position normalises; the post is for the normalised absolute amount |
| SmokeHarness.EmergencyCleanup | scripts/binance_testnet_execution_smoke.py:256-366 | cancels an entry that is found open or unknown; adds at most the missing exit; posts it when the exchange answers about the entry, knows no exit and shows a position that normalises; posts none when the exit's id is never unknown, as with coinciding ids; a foreign answer about the entry ends it before any exit; risk_resolved exactly when the entry was seen to have ended and the account last seen flat |
| SmokeHarness.RunSmoke | scripts/binance_testnet_execution_smoke.py:748-762 | over main path and cleanup together the log is safe (at most one entry, as normalised and at its allowed distance; at most one exit, for the position last seen); the entry is posted, and the cleanup run, exactly when prices and preflight allow it; an entry that stays open is cancelled; the claims of the report are backed by what was seen |
| SmokeHarness.SafeLogCounts | scripts/binance_testnet_execution_smoke.py:685-693 | a safe log holds at most one entry and at most one exit |
| SmokeHarness.EntryKeepsDistance | scripts/binance_testnet_execution_smoke.py:469-487 | in every safe log the entry's price is off the reference price by the basis points its scenario demands |
| SmokeHarness.ExitFitsPosition | scripts/binance_testnet_execution_smoke.py:665-700 | in every safe log the exit is a reduce-only MARKET order against the position last seen, for its whole normalised amount |
| SmokeHarness.ObserveExactly | scripts/binance_testnet_execution_smoke.py:369-384 | flat means that every entry of the symbol reads zero; holding means that it is the only non-zero one, in one-way mode |
| SmokeHarness.StatusesSplit | scripts/binance_testnet_execution_smoke.py:36-43 | a recognised status is either open or ended |
| SmokeHarness.ExitIdDiffers | scripts/binance_testnet_execution_smoke.py:673 | the exit id differs from the entry id except for 30-character ids ending in `_exit` |

## Left out

- Rounding of `Decimal` and floating point, and the textual form of order, fill and client ids.
- Symbol rules, the WAL, leases, the live executor, shared feature providers and the concrete strategies; intents reach the model already normalised.
- Exceptions raised by a strategy callback itself; the state at every callback is lawful, but the aborted event is not modelled.
- Adverse-price tracking and the liquidation flag of positions (`_update_position_risk`), audit events and logging.
- The remaining report figures (profit factor, Sharpe ratio, trade attribution), result files and their import.
- The day-partition presence test, schema checks and feature columns of the loader, and DuckDB itself.
- Saving results in the sweep: failures of writing a result are not part of `RunShiftGroup` and `RunSweep`.
- `_segmented_cumsum` and the other indicator arithmetic, which would add only a simple fold.
- The labels, prices and spike flags that `_build_waves` derives from finished segments.
- Environment, confirmation and client-id syntax checks of the harness, the pause between polls, and the contents of the report beyond result and cleanup flags.
- ZigZag.ZigzagPivots: the pivots are those of the specification for positive prices only, because the source uses 0.0 as the mark of an extreme not yet set; for other prices only alternation, order and labels are stated.
- Engine.BacktestEngine.IterAllActiveOrders: the order in which symbols are visited is left open.
- Loader.IterAll: the completeness checks that precede streaming are modelled on their own in `Completeness`; what they guarantee for the stream is stated there; that a refusal stops the stream is not part of it.
