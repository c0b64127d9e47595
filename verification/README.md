# Verified model of the trading bot's kernels

This project models the state- and arithmetic-heavy kernels of the mock-trading bot and proves what
they keep. Prices and amounts are exact reals. Loops and objects that change state are methods and
classes, proved against specification functions; the properties below are lemmas about those
functions.

- **Fill pipeline.** `FillWriter` turns cumulative broker snapshots into delta fills at average
  cost; `FillQuantities` and `FillCash` prove its quantities and its cash; `FillPolls` repeats polls
  against the fill table; `FillReader`, `FillReview` and `FillReviewRun` read stored rows back;
  `WriterReader` and `ReviewRoundTrip` join the two ends. `ExitMatching`, `PnlViews` and
  `Reconciliation` match exits, aggregate profit and reconcile. What these compute is said without
  their formulas in `FillBooking` (order, positions and profit of the fills), `ReviewReading` and
  `ReviewMetrics` (how a group is read and what its row shows), `MatchMeaning` and `ViewMeaning`.
- **Token cache.** `TokenCache` is a state machine of any number of servers around one row and one
  named lock per key; `TokenStoreCalls` is the store object whose calls run in it under arbitrary
  interference.
- **Intraday backtest.** `TradeSimulation` (one trade), `CandidateSelection` and `DaySignals` (which
  trade a day takes, in each mode), `EquityCurve` (compounding and drawdown) and `IntradayBacktest`
  (the loop over the days). `CandidateForesight`, `DayForesight`, `SettledSignals` and
  `FixedSettlement` say when a candidate or a signal is settled by what has happened so far;
  `OvertakenSignals` and `OpeningOvertakes` give histories where it is not. `CandidateMeaning` and
  `SignalMeaning` say on bars, scores and times which candidates are listed, which signal takes the
  day and what a run reports.
- **Entries and orders.** `EntryTiming` (three-valued data quality), `OrderBudget`, `BuyPlanner` and
  `ListBuyPlanner` (running budget), `IntradayLimiter` and `OrderExecutor` (which intents are sent,
  and with how many retries). `EntryMeaning`, `BuyMeaning` and `RoundMeaning` say what each step
  decides from prices, points and money.
- **Smaller kernels.** `MatchingLedger` and `CandidateResolution` (digest matching), `ChartScoring`,
  `SheetNames`; `LedgerMeaning` and `ChartMeaning` (and `MatchMeaning`) say what their results are.
- **Shared.** `Common`, `Sorting`, `Grouping`, `SourceOrder` and `RealFacts` hold what several modules
  use.

Verify everything with `dafny verify dfyconfig.toml`.

## What the proofs found

Each of these fails on some inputs. The condition under which it holds is proved in both directions,
beside a concrete input or a family of inputs where it fails.

- **Equal deltas are lost twice.** Two deltas of one order with the same time, quantity and price are
  one row for the fill table, and one financial signature for the reader
  (`PollReachesHighWaterIffDistinguishable`, `EqualDeltasAreLost`, `DeltaRowsReadBackIffDistinct`,
  `EqualRowsAreCollapsed`).
- **Realized profit conserves cash only while every sell is covered.** A sell beyond the holding, or
  at a cost that is only seeded, breaks the balance for good (`CashIsConservedIffCovered`,
  `LoneSellBreaksBalance`); with positive prices, covered means never selling more than was bought
  (`CoveredIffSoldWithinBought`).
- **A held ticker can be accepted twice in one round** (`DistinctIffNoRepeat`, `HeldTickerTwice`).
- **The opening volume filter looks ahead** to the day's third bar even at its first bar. Whether a
  ticker is a candidate is settled at a checkpoint if and only if something seen so far excludes it,
  three bars are visible, or two are and their volume already suffices (`SettledIffKnown`,
  `OpeningVolumeLooksAhead`).
- **A day's signal can be overtaken** by what happens after it triggered. In every mode a ticker that
  had triggered on its last bar so far takes the day once it trades on, and one that had triggered
  with too little opening volume takes it once a bar still within its first three brings that volume.
  In the refresh and hybrid modes so does one that triggers afterwards in an earlier window that is
  still open, which day times less than five minutes apart make possible.
  - For the fixed mode, a signal stays in every continuation of what has happened by a time if and
    only if its ticker's volume seen suffices, no ticker that triggered before may still pass the
    opening filters, and no previous day's price range is upside down (`FixedSettledIff`; between two
    histories `FixedSignalStaysIff`).
  - For all modes, with the opening bars held fixed, the condition is proved in both directions
    (`FixedSettledAfterOpeningIff`, `WindowSettledAfterOpeningIff`; between two histories
    `FixedSignalIgnoresTheFutureIff`, `WindowSignalIgnoresTheFutureIff`). Once every ticker has three
    visible bars this is the same as being settled whatever comes (`SettledOnceThreeSeen`).
  - `LaterBarOvertakes`, `LastBarOvertakes`, `OldWindowOvertakes` and, for the opening volume in all
    modes, `VolumeOvertakes` are families of failing histories; `OvertakenInFixedMode`,
    `OvertakenOnLastBar`, `OvertakenInOldWindow` and `LostToThirdBar` give one of each.
- **Capacity goes to the earliest sell by the clock, not by the session.** The fill writer takes the
  hours before noon to follow the evening of the same date; the matching ledger does not. The two
  orders agree if and only if both sells are on one side of noon (`LedgerFollowsSessionIff`,
  `AfterMidnightGoesFirst`).
- **Two reported reasons can be untrue.** A sell may be told that its candidate's capacity is used up
  though there never was any (`UsedUpIsTrueIff`, `ReasonCanMislead`), and a lone active candidate
  beside a blocked one is reported as no active candidate (`LoneActiveIsLostIff`,
  `LoneActiveIsLost`).
- **From a thousand suffixes on, sheet names can repeat** (`SheetNameIsNewIff`, `ManySheetsCollide`).

Two conditions mark the edge of the input types only. An entry allowed while missing data blocks stays
allowed, at the same score, whatever non-negative hold time turns up (`FillingKeepsVerdict`); only a
negative number of minutes, which nothing in the repository supplies, could block it
(`FillingKeepsVerdictIff`, `FillingCanBlock`). And a trade's return leaves the band of its stop and
target only where it ends at a last close outside both that bar's range and the band
(`TradeReturnIsBounded`).

## Model

| member | source | states |
|---|---|---|
| FillWriter.FillRecordsFromMonitorRows | src/trading_bot/fill_persistence.py:14-76 | the loop over the sorted snapshots returns the records of one run over them, for any seeds, reasons and saved quantities; the next three rows say in which order and what each row books |
| FillBooking.BookedInSessionOrder | src/trading_bot/fill_persistence.py:99-114 | rows are booked by date text; within a date those without a time first, then from noon on by the clock, then those before noon by the clock; equal times by order number |
| FillBooking.RowStated | src/trading_bot/fill_persistence.py:28-76 | each valid row saves the highest quantity of its order and, for the shares beyond what was saved, adds one record; a buy adds its cost to that of the holding, a sell keeps the cost of a share and earns its price over it |
| FillBooking.RoundTripEarns | src/trading_bot/fill_persistence.py:14-76 | a fresh buy followed in session time by a sell of no more shares, the only fills of their ticker, give two records in that order whatever order they arrive in; the sell earns the price difference on each share, at the rate of that difference over the buying price |
| FillQuantities.EmissionTelescopes | src/trading_bot/fill_persistence.py:37-45 | per order, the quantity saved before plus all emitted quantities is the highest of the saved and reported quantities |
| FillQuantities.HighWaterIsHighest | src/trading_bot/fill_persistence.py:39-41 | that high water is at least every reported quantity and is one of them or the saved one |
| FillQuantities.EmissionIgnoresRowOrder | src/trading_bot/fill_persistence.py:27-45 | permuting the snapshot rows changes no order's emitted quantity |
| FillQuantities.EmittedRecordsArePositive | src/trading_bot/fill_persistence.py:32-45 | every emitted record has a positive quantity and comes from a valid row of its ticker, side and order |
| FillQuantities.RepollEmitsIffRisen | src/trading_bot/fill_persistence.py:40-43 | an order is emitted if and only if some row reports more than is saved for it |
| FillQuantities.RepollIsSilent | src/trading_bot/fill_persistence.py:37-43 | polling the same rows again with the quantities just saved emits no order-numbered record |
| FillCash.CashIsConservedIffCovered | src/trading_bot/fill_persistence.py:48-53 | at every point of a run, profit plus buy cost equals proceeds plus stock at average cost if and only if every sell so far was covered by a known cost and enough shares |
| FillCash.CoveredIffSoldWithinBought | src/trading_bot/fill_persistence.py:48-53 | with positive prices and non-negative seeds, every sell so far was covered iff at every point the emitted sells are at most the emitted buys |
| FillCash.LoneSellBreaksBalance | src/trading_bot/fill_persistence.py:48-53 | an input: one sell row without a holding |
| FillCash.AverageWithinBuysSinceFlat | src/trading_bot/fill_persistence.py:117-140 | while shares are held, the average cost is between the lowest and highest buy price since the position was last flat |
| FillPolls.SaveStated | src/trading_bot/repositories.py:612-687 | a record updates profit, rate and a missing reason of the rows that agree with it on date, order, time, ticker, side, quantity, price and mode; it is inserted iff there are none |
| FillPolls.SavedQuantitiesStated | src/trading_bot/repositories.py:718-739 | what counts as saved is, per numbered order of the day and mode, the sum of its rows' quantities |
| FillPolls.SaveFillsQuantity | src/trading_bot/repositories.py:612-687 | saving adds what was emitted less exactly what is merged into identical rows |
| FillPolls.PollReachesHighWaterIffDistinguishable | src/trading_bot/scheduler_state.py:80-115 | after a poll the table holds at most an order's high water, and all of it if and only if no emitted record equals a stored or another emitted one |
| FillPolls.ScheduleReachesHighWater | src/trading_bot/scheduler_state.py:80-115 | over any schedule of polls with distinguishable deltas the table ends at the high water of all rows |
| FillPolls.CumulativeScheduleIff | src/trading_bot/scheduler_state.py:80-115 | if the last poll reports the most, the table ends at the high water of all rows iff the deltas of the last poll are distinguishable, whatever was lost before |
| FillPolls.SplittingIntoPollsDoesNotMatter | src/trading_bot/scheduler_state.py:80-115 | two ways of splitting the same rows into polls end with the same stored quantity, if all deltas of both are distinguishable |
| FillPolls.OneRowPoll | src/trading_bot/repositories.py:718-739 | a poll of one order row stores its delta, unless an identical delta is stored already |
| FillPolls.EqualDeltasAreLost | src/trading_bot/repositories.py:634-654 | once q shares are stored and the snapshot rises to 2q at the same time and price, every further poll emits q again and the table stays at q |
| FillReview.NormalizationLosesNothing | tools/strategy_review_fill_normalization_core.py:52-79 | one output per group key, each source row in exactly one output of its own key, and raw profits adding up to those of the input |
| FillReview.NormalizationIgnoresInputOrder | tools/strategy_review_fill_normalization_core.py:52-79 | permuting fill and order rows changes neither the output list nor the warnings, if the group keys of the fills have distinct texts |
| ReviewReading.OutputsAreRead | tools/strategy_review_fill_normalization_core.py:82-201 | every output is a whole group in source order; its reading, counted rows, confidence and reason follow from source ids, sides, quantities, payloads and order snapshots; so do its evidence, columns, exclusions and findings |
| ReviewReading.WarningsStated | tools/strategy_review_fill_normalization_core.py:52-167 | a warning is raised if and only if some fill or some output gives cause: a shared or missing id, a quantity, a side, conflicting evidence, an excluded row, an orderless sell or a missing profit |
| ReviewReading.OutputsInKeyOrder | tools/strategy_review_fill_normalization_core.py:70-79 | the outputs come in the order of their group keys' texts |
| ReviewReading.OrderStated | tools/strategy_review_fill_normalization_utils.py:137-162 | source rows are ordered by creation time, then numbered ids by number before other ids by text, then by the row's text |
| ReviewMetrics.OutputsAreFigured | tools/strategy_review_fill_normalization_core.py:218-233 | unless excluded, an output counts rows of its group with shares; quantity, amount and profit are their sums, price and rate fit the share-weighted sums and lie between two of the rows, and each is missing iff some counted row lacks it |
| ReviewMetrics.LoneRowIsShown | tools/strategy_review_fill_normalization_core.py:82-233 | a source row alone in its group and not excluded is shown with its own quantity, price, amount, profit and rate |
| ReviewMetrics.AllRowsCounted | tools/strategy_review_fill_normalization_core.py:176-233 | where every source row is counted and its profit known, the profit shown is the raw profit, the sum over the rows |
| FillReviewRun.NormalizeFillGroups | tools/strategy_review_fill_normalization_core.py:52-79 | the loops over dictionaries and the shared warning set compute the outputs and warnings that the lemmas about the review are stated for |
| FillReviewRun.OrderQuantityEvidence | tools/strategy_review_fill_normalization_core.py:236-264 | the dictionary holds, per order, exactly the set of filled quantities its rows give |
| FillReviewRun.CrossGroupIds | tools/strategy_review_fill_normalization_core.py:61-68 | the ids found are exactly those that occur under two different group keys |
| FillReviewRun.DecideRow | tools/strategy_review_fill_normalization_core.py:114-158 | reassigning the decision variables branch by branch gives the decision of the specification |
| FillReviewRun.RaiseWarnings | tools/strategy_review_fill_normalization_core.py:93-167 | the warning set grows by exactly the warnings of the group's findings |
| FillReviewRun.NormalizeGroupRow | tools/strategy_review_fill_normalization_core.py:82-201 | one group's row and warnings are those of the specification, which `OutputsAreRead` and `OutputsAreFigured` state on the rows |
| WriterReader.MultiRowReading | tools/strategy_review_fill_normalization_core.py:139-158 | several rows with evidence are summed iff it is their sum but not the latest quantity, read as cumulative iff they rise to it, never both; any non-excluded quantity is the evidence |
| WriterReader.DeltaRowsReadBackIffDistinct | tools/strategy_review_fill_normalization_core.py:95-145 | delta rows adding up to the evidence are read as that quantity if and only if their signatures differ pairwise |
| WriterReader.EqualRowsAreCollapsed | tools/strategy_review_fill_normalization_utils.py:103-109 | an input: two rows of one share that differ in their ids alone are read as one share |
| WriterReader.CumulativeRowsReadBack | tools/strategy_review_fill_normalization_core.py:147-149 | rows rising to the evidence are read as that quantity |
| WriterReader.SignatureRowsSum | tools/strategy_review_fill_normalization_utils.py:103-109 | collapsing equal signatures keeps the quantity sum if and only if all signatures differ |
| WriterReader.PolledIdsDistinct | src/trading_bot/repositories.py:634-683 | however fills are polled, the table never holds two rows of one identity |
| WriterReader.PolledOrderReadsBackIffStored | tools/strategy_review_fill_normalization_core.py:82-201 | an order polled from an empty table and reported filled with q shares is read back as q if and only if the table holds q, which distinguishable deltas guarantee |
| ReviewRoundTrip.PolledOrderInReviewIffStored | tools/strategy_review_fill_normalization_core.py:52-79 | the whole review of any fills has one output for that order, and it shows q if and only if the table holds q, whatever way its loaded rows sort into the rows of its group |
| ReviewRoundTrip.AnyOrderSortsIntoGroup | tools/strategy_review_fill_normalization_core.py:52-79 | fills in the order of the table do, and so do fills in any order whose texts tell them apart |
| ExitMatching.CircularIsMetric | tools/strategy_review_fill_normalization_utils.py:208-213 | the time distance is a metric on the clock, triangle inequality included, and at most 43200 seconds |
| ExitMatching.CircularIsShortestWay | tools/strategy_review_fill_normalization_utils.py:208-213 | it is the least number of one-second steps between two times of day |
| ExitMatching.MatchExitReasons | tools/strategy_review_fill_matching.py:24-88 | every normalized row is kept in place and receives the exit of the specification |
| ExitMatching.StagesPrefer | tools/strategy_review_fill_matching.py:50-65 | a match is one of the day's trades; with trades of the row's order number it is one of them or ambiguous, else with timed ones it is timed or ambiguous; there is none without ambiguity iff there are no trades |
| ExitMatching.MatchingIgnoresTradeOrder | tools/strategy_review_fill_matching.py:24-113 | permuting the trade rows changes no match |
| ExitMatching.ChosenIffStrictlyNearest | tools/strategy_review_fill_matching.py:91-113 | among several candidates one is chosen if and only if it is strictly nearer than every other timed one |
| MatchMeaning.ExitStated | tools/strategy_review_fill_matching.py:24-113 | a sell's exit comes from the trades of its order, else from those with a time, else from the only one of its day; the reason, the way it was found, the distance and every ambiguity are stated on these trades |
| PnlViews.TrustedIsBestEffort | tools/strategy_review_fill_normalization_utils.py:261-272 | a trusted normalized row is best-effort with the same profit; best-effort rows that are not trusted have medium or low confidence |
| PnlViews.BestSellsArePriced | tools/strategy_review_fill_normalization_utils.py:261-272 | a best-effort sell of a normalized group has a profit |
| PnlViews.DecisionConfidence | tools/strategy_review_fill_normalization_core.py:114-158 | only an excluded reading is without confidence |
| PnlViews.FiguresBalance | tools/strategy_review_fill_pnl.py:171-191 | averages times counts give the totals, wins and losses split the total, and the profit factor exceeds one exactly for a positive total |
| ViewMeaning.FiguresStated | tools/strategy_review_fill_pnl.py:171-191 | the figures of any sells: counts and totals of the priced, winning and losing ones, averages that fit them, the profit factor, and the highest win and lowest loss as attained bounds |
| PnlViews.AggregateFillPnl | tools/strategy_review_fill_pnl.py:105-130 | the grouping loop returns the view of the specification for any key |
| ViewMeaning.ViewStated | tools/strategy_review_fill_pnl.py:105-164 | each row of a view shows the figures of exactly the trusted and the best-effort sells under its key, and there are some |
| ViewMeaning.SellIsShown | tools/strategy_review_fill_pnl.py:105-130 | every trusted or best-effort sell has a row under its key |
| ViewMeaning.KeysStated | tools/strategy_review_fill_normalization.py:87-91 | the three views tell sells apart by day, by ticker and by day and exit reason, each with the trading mode |
| PnlViews.ViewAddsUp | tools/strategy_review_fill_pnl.py:105-130 | a view's rows add up to the trusted and best-effort profit and counts of all priced sells, whatever the key |
| PnlViews.ViewsAgree | tools/strategy_review_fill_pnl.py:105-130 | day, ticker and exit-reason views have the same grand totals and counts |
| PnlViews.ExitsOnlyMoveSells | tools/strategy_review_fill_matching.py:24-88 | matching the same rows against any two lists of trades gives the same day and ticker views, and exit-reason views of the same totals and counts |
| Reconciliation.LatestRowsAreLatest | tools/strategy_review_fill_reconciliation.py:133-143 | every dated day and mode has a summary, and it is the greatest in source order |
| Reconciliation.LatestSummary | tools/strategy_review_fill_reconciliation.py:133-143 | the loop over the summaries builds that dictionary |
| Reconciliation.LatestIgnoresOrder | tools/strategy_review_fill_reconciliation.py:133-143 | which summary is latest does not depend on the order rows arrive in |
| Reconciliation.ReconciliationRows | tools/strategy_review_fill_reconciliation.py:33-108 | the loops over days return the table and the alarms of the specification |
| ViewMeaning.DaysStated | tools/strategy_review_fill_reconciliation.py:40-107 | each day counts and totals its raw, trusted, best-effort, ambiguous and orderless sells, compares the trusted profit with the latest summaries of the day, and raises an alarm iff one is more than a cent off or a sell is ambiguous or orderless |
| ViewMeaning.RaisedStated | tools/strategy_review_fill_reconciliation.py:74-86 | the shared warnings grow by the two mismatches of the days and by nothing else |
| Reconciliation.ReconciliationAgreesWithViews | tools/strategy_review_fill_reconciliation.py:40-107 | the table's profit columns total exactly what the profit views total, and its raw side the profit and number of the raw sells |
| Reconciliation.CountsAgreeIffPriced | tools/strategy_review_fill_reconciliation.py:40-107 | its trusted and best-effort counts total those of the views iff every such row has a profit |
| Reconciliation.ReviewCountsAgree | tools/strategy_review_fill_reconciliation.py:40-107 | so they do for every review of fills and orders, matched against any trades |
| TokenCache.RunKeepsInv | src/trading_bot/kis_token_store.py:38-95 | every step of every interleaving keeps lock table, sessions and stored tokens consistent |
| TokenCache.OneHolderPerRow | src/trading_bot/kis_token_store.py:62-95 | at most one server is between acquiring and releasing the lock of a row |
| TokenCache.TokensChangeOnlyUnderLock | src/trading_bot/kis_token_store.py:87-92 | token columns change only as the lock holder commits a token it refreshed, over columns that had run out for it |
| TokenCache.RefreshOnlyWhenExpired | src/trading_bot/kis_token_store.py:80-88 | a refresh happens only under the lock and while the committed row is missing or expired by the caller's margin |
| TokenCache.FinishedCallsHoldNothing | src/trading_bot/kis_token_store.py:79-95 | a call that ended, in whatever way, holds no lock |
| TokenCache.HolderCanAlwaysRelease | src/trading_bot/kis_token_store.py:94-95 | a lock holder can finish and free the lock by itself within two steps |
| TokenCache.ReturnedTokensAreGood | src/trading_bot/kis_token_store.py:102-126 | a returned token is one the caller's own refresh gave within this call, or a row valid by the margin whose stored expiry is less than a second before, and never after, the true one |
| TokenCache.RowsStated | src/trading_bot/kis_token_store.py:128-194 | rows change by commits alone: that of a fresh token writes its value, kind and expiry in whole seconds into the row of its key, that of a found one only the time of use of a row still there |
| TokenCache.LocksStated | src/trading_bot/kis_token_store.py:62-62 | two keys share a lock iff environment and the first sixteen characters of the hash agree |
| TokenCache.LookStated | src/trading_bot/kis_token_store.py:102-126 | a look goes on with a token if and only if the committed row exists and the time plus the margin is before its expiry; the token has the row's value and expiry, and an empty kind reads as Bearer |
| TokenCache.OutcomesComeFromLooks | src/trading_bot/kis_token_store.py:38-95 | over every run a call ends without a token, refused or with a refreshed token only after one of its own looks met a row that was missing or about to expire, and with a stored token only as read from a row that outlived the margin |
| TokenCache.OwnTokenIsRefreshed | src/trading_bot/kis_token_store.py:88-93 | whatever fresh token a call holds at any step came from a refresh by the same server since the call began |
| TokenCache.IssuedIsHistory | src/trading_bot/kis_token_store.py:88-88 | the issued tokens are exactly those the refreshes of the run returned |
| TokenStoreCalls.Store.ReadValid | src/trading_bot/kis_token_store.py:38-51 | under any interference the call raises iff its query does, or its touch or commit of a valid row; otherwise it returns the stored token iff the committed row it looked at outlives the margin, and none iff it does not |
| TokenStoreCalls.Store.RefreshWithLock | src/trading_bot/kis_token_store.py:53-95 | under any interference, and whichever of its steps raise, the call ends holding no lock; without a raised step it returns the stored token iff the row it looked at outlives the margin, else its own fresh token with the lock and a refusal without it |
| TokenStoreCalls.Store.RenewLocked | src/trading_bot/kis_token_store.py:79-93 | the locked section always reaches its finally block, with the stored token iff the row it looked at outlives the margin and the minted one iff not, unless a step on that way raised |
| TokenStoreCalls.Store.Finally | src/trading_bot/kis_token_store.py:94-95 | leaving releases the lock, by closing the session if the release fails |
| TradeSimulation.SimulateTrade | src/trading_bot/intraday_backtest.py:523-583 | the loop returns the trade of the first bar that meets an exit rule, else that of the last close; `TradeStatedOnBars` says on the bars which rule and price |
| TradeSimulation.TradeStatedOnBars | src/trading_bot/intraday_backtest.py:523-607 | the trade leaves at the first bar from entry on whose low reaches the stop or whose high the target, or whose low falls by the drop from an activated high: with the stop's price if the low reaches it, else the target's, else the trailing one, else at the last close; return and holding time follow from entry and exit after slippage and fees |
| TradeSimulation.TradeIgnoresLaterBars | src/trading_bot/intraday_backtest.py:537-573 | a trade that leaves before the end of the day does not depend on any bar after its exit |
| TradeSimulation.RulePriceWithinBand | src/trading_bot/intraday_backtest.py:541-573 | whichever rule fires, its price is between the stop and the target |
| TradeSimulation.TradeReturnIsBounded | src/trading_bot/intraday_backtest.py:523-607 | the net return lies between the stop's and the target's return after costs if and only if the trade does not end at a last close outside the band, which a close within its bar's range never is |
| TradeSimulation.TradeNeverLosesAll | src/trading_bot/intraday_backtest.py:523-607 | with a stop above minus one and positive prices no trade loses the whole stake, wherever the last bar closes |
| TradeSimulation.WorstRateAboveRuin | src/trading_bot/intraday_backtest.py:595-597 | with a stop above minus one the worst net return is above minus one |
| CandidateSelection.RefreshCandidateTickersAt | src/trading_bot/intraday_backtest.py:445-472 | the loop over tickers gives the list of the highest-scored candidates, or the error of a ticker; the next rows say what a candidate is and which are listed |
| CandidateMeaning.ListTakesHighestScores | src/trading_bot/intraday_backtest.py:471-472 | as many tickers are listed as the limit allows; scores do not rise along the list, equal scores follow the ticker, and no candidate left out scores higher or the same with a smaller ticker |
| CandidateMeaning.CandidateStatedOnBars | src/trading_bot/intraday_backtest.py:445-494 | a ticker is a candidate iff it opens within price, change and volume bounds and a bar seen came within two percent of its breakout price; its score is the change since the open in percent plus the volume ratio; it raises iff that price does not exist |
| CandidateMeaning.CandidatesOfTickers | src/trading_bot/intraday_backtest.py:445-470 | the candidates are exactly those of the tickers |
| CandidateMeaning.PreviousDayStated | src/trading_bot/intraday_backtest.py:698-702 | the previous day is the latest earlier day with bars, and all its bars are used |
| CandidateSelection.CandidatesIgnoreTheFuture | src/trading_bot/intraday_backtest.py:445-494 | histories agreeing on earlier days, on the day's first three bars and up to the checkpoint give the same list |
| CandidateSelection.ThreeVisibleBarsSuffice | src/trading_bot/intraday_backtest.py:629-634 | from the third visible bar on, agreement up to the checkpoint gives the view the list depends on |
| CandidateSelection.OpeningVolumeLooksAhead | src/trading_bot/intraday_backtest.py:629-634 | an input: at the day's first bar two histories that agree up to it differ in a candidate |
| CandidateForesight.SettledIffKnown | src/trading_bot/intraday_backtest.py:445-472 | no continuation of the day changes a ticker's entry iff something seen excludes it, three bars are visible, or two are with enough volume |
| CandidateForesight.SettledListIgnoresTheFuture | src/trading_bot/intraday_backtest.py:445-472 | where every ticker is settled, histories agreeing up to the checkpoint give the same list |
| DaySignals.FirstTrigger | src/trading_bot/intraday_backtest.py:421-424 | the bar found is the first in the window at or above the breakout, and never the last bar of the day |
| DaySignals.FirstSignalIsEarliest | src/trading_bot/intraday_backtest.py:385-402 | the chosen signal is an active ticker's, enters on the bar after its first trigger, and no active ticker has an earlier one |
| SignalMeaning.TickerSignalStated | src/trading_bot/intraday_backtest.py:405-424 | a ticker has a signal iff it opens well and a bar that another follows reaches its breakout price in the window: the first such bar; it raises iff the price is asked for and does not exist |
| SignalMeaning.FirstSignalStated | src/trading_bot/intraday_backtest.py:385-424 | the search among tickers raises iff one of them does, finds nothing only if none has a signal, and else finds the one first by time and then by ticker |
| DaySignals.ScanStops | src/trading_bot/intraday_backtest.py:299-364 | the window scan stops at the first window that has a signal |
| DaySignals.FirstSignalInWindows | src/trading_bot/intraday_backtest.py:299-364 | the loop over windows, refreshed or merged with the opening list, finds that signal |
| SignalMeaning.TimesStated | src/trading_bot/intraday_backtest.py:497-509 | the day's times are those of its bars, once each and ascending |
| SignalMeaning.WindowsStated | src/trading_bot/intraday_backtest.py:510-512 | a window of fifteen minutes opens at every third of them that another follows |
| SignalMeaning.MergedStated | src/trading_bot/intraday_backtest.py:515-520 | the merged list names the fixed and then the refreshed tickers, once each in the order of first mention, up to the limit and no fewer |
| SignalMeaning.DaySignalStated | src/trading_bot/intraday_backtest.py:228-402 | in the fixed mode the signal of the day is first among all tickers; in the others first among the active tickers of its window, while no window before had one |
| DaySignals.DaySignalEnters | src/trading_bot/intraday_backtest.py:228-265 | in every mode the entry bar follows the trigger bar on the same day |
| DaySignals.DayTrade | src/trading_bot/intraday_backtest.py:228-382 | a day has no trade without a signal and otherwise the simulated trade of its signal; it raises iff the search does or the entry costs nothing to divide by |
| DaySignals.BacktestNeverRuins | src/trading_bot/intraday_backtest.py:65-203 | in every mode, over any history of positive prices and a stop above minus one, equity stays positive and the reported drawdown is the worst fall |
| DaySignals.BacktestAboveWorst | src/trading_bot/intraday_backtest.py:65-203 | where no bar closes below its low, equity after n trades is also at least the initial times the n-th power of the worst factor |
| DayForesight.FirstSignalStaysIff | src/trading_bot/intraday_backtest.py:385-402 | among given tickers, over histories agreeing on earlier days, first three bars and bars up to a time not before its trigger, a signal stays first iff its entry bar is there and no ticker that waited on its last bar with an earlier signal trades on |
| DayForesight.FixedSignalIgnoresTheFutureIff | src/trading_bot/intraday_backtest.py:405-424 | so in the fixed mode for the day's signal |
| DayForesight.WindowSignalIgnoresTheFutureIff | src/trading_bot/intraday_backtest.py:299-364 | in the other modes it stays iff its entry bar is there and its window opens, in no earlier window an active ticker triggers afterwards or gets the bar it waited for, and in its own none gets one with an earlier signal |
| DayForesight.SpacedLeavesNoneLate | src/trading_bot/intraday_backtest.py:497-510 | where windows do not overlap nothing triggers afterwards in an earlier one |
| DayForesight.ApartIsSpaced | src/trading_bot/intraday_backtest.py:497-510 | windows do not overlap where all times of the day are five minutes apart or more |
| SettledSignals.FixedSettledAfterOpeningIff | src/trading_bot/intraday_backtest.py:405-424 | in the fixed mode every continuation that keeps the opening bars and has its entry bar keeps the signal iff no ticker waits on its last bar with an earlier one |
| SettledSignals.WindowSettledAfterOpeningIff | src/trading_bot/intraday_backtest.py:299-364 | in the other modes iff no ticker active in an earlier window can still trigger there by its fixed bars and the time left, and none active in its own waits with an earlier one |
| SettledSignals.SettledOnceThreeSeen | src/trading_bot/intraday_backtest.py:629-634 | in every mode, once all tickers have three visible bars, a signal is settled whatever comes iff it is settled with the opening bars held fixed |
| FixedSettlement.FixedSignalStaysIff | src/trading_bot/intraday_backtest.py:405-424 | in the fixed mode, over histories agreeing on earlier days and up to a time alone, the signal stays iff its ticker still takes it, no trigger seen before it is taken, and no price range is upside down |
| FixedSettlement.FixedSettledIff | src/trading_bot/intraday_backtest.py:629-634 | in the fixed mode every cleaned continuation with its entry bar keeps the signal iff its ticker's volume seen suffices, no ticker that triggered before may still pass the opening filters, and no previous range is upside down |
| DayForesight.SameSignalSameTrade | src/trading_bot/intraday_backtest.py:537-573 | and then the trade is the same, if a rule ends it and the histories agree up to that exit |
| OvertakenSignals.LaterBarOvertakes | src/trading_bot/intraday_backtest.py:405-424 | a family of histories where in the fixed mode one later bar of a ticker takes the day from the signal already triggered |
| OvertakenSignals.OldWindowOvertakes | src/trading_bot/intraday_backtest.py:299-364 | a family where in the refresh mode a later trigger in the still open first window takes the day from a signal of the second |
| OvertakenSignals.LastBarOvertakes | src/trading_bot/intraday_backtest.py:405-424 | a family where in the refresh mode one later bar of a ticker that had triggered in the first window does |
| OpeningOvertakes.VolumeOvertakes | src/trading_bot/intraday_backtest.py:629-634 | a family where in every mode the volume of a third bar still to come takes the day from the signal, which is therefore not settled |
| IntradayBacktest.RunBacktest | src/trading_bot/intraday_backtest.py:65-127 | the run raises iff some day does; otherwise it reports exactly the compounded result of the trades its days take, and with sane trading it is never ruined |
| SignalMeaning.ReportStated | src/trading_bot/intraday_backtest.py:637-675 | the reported trades are those of the traded days in order; counts, means, win rate, exit counts and the longest holding time are those of these trades, and the other days are the days without one |
| SignalMeaning.ReturnStated | src/trading_bot/intraday_backtest.py:176-203 | each trade adds its return on the given share of the equity, and the total return is the last equity over the initial one, less one |
| EquityCurve.TotalReturnIsProduct | src/trading_bot/intraday_backtest.py:186-201 | the total return is the product of the single-trade factors less one |
| EquityCurve.CurveAboveWorst | src/trading_bot/intraday_backtest.py:186-187 | equity after k trades is at least the initial times the k-th power of the worst factor, which is positive |
| EquityCurve.CurvePositive | src/trading_bot/intraday_backtest.py:186-187 | equity stays positive if no trade loses its whole stake |
| EquityCurve.RunningDrawdownIsWorstFall | src/trading_bot/intraday_backtest.py:188-190 | the running-peak drawdown of a positive curve is the least fall from any point to a later one, in (-1, 0] |
| EquityCurve.DrawdownIsWorstFall | src/trading_bot/intraday_backtest.py:170-203 | so is the reported drawdown of any run whose trades all return more than minus one |
| EquityCurve.ExitCountsPartition | src/trading_bot/intraday_backtest.py:661-671 | every trade is counted under exactly one exit reason |
| EntryTiming.ResolvePolicy | src/trading_bot/config.py:1036-1053 | unknown names raise, and missing data is only logged in mock trading in test mode under AUTO or LOG_ONLY |
| EntryTiming.Findings.ApplyCondition | src/trading_bot/entry_planner.py:384-400 | a failed condition is appended to the list of its mode and to no other |
| EntryTiming.EntryTimingEvaluation | src/trading_bot/entry_planner.py:297-373 | appending condition by condition gives the evaluation of the specification |
| EntryMeaning.StatesStated | src/trading_bot/intraday_data_quality.py:34-221 | each condition passes, fails or has no answer as its close, hold time, volumes, averages or pullback say, the averages by the chosen rule |
| EntryMeaning.EvaluationStated | src/trading_bot/entry_planner.py:297-373 | an evaluation reports, in a fixed order, exactly the failures of each mode and the missing data; each soft failure costs five points, and the entry is allowed iff nothing hard is reported |
| EntryTiming.AllowedExactly | src/trading_bot/entry_planner.py:354-361 | an entry is allowed iff no hard filter fails and, when missing data blocks, every condition that is on has an answer |
| EntryTiming.MissingDataFailsClosed | src/trading_bot/intraday_data_quality.py:39-94 | outside mock trading in test mode an allowed entry has an answer to every condition that is on and passes every hard filter |
| EntryTiming.BlockingIsStricter | src/trading_bot/entry_planner.py:354-361 | allowed while missing data blocks implies allowed at the same score while it is logged, and only missing data makes the difference |
| EntryTiming.AnswersNeverFlip | src/trading_bot/intraday_data_quality.py:192-221 | filling absent fields never turns a pass into a fail or back |
| EntryTiming.MoreDataNeverUnblocks | src/trading_bot/entry_planner.py:297-373 | while missing data is logged, filling absent fields never unblocks an entry nor raises its score |
| EntryTiming.FillingKeepsVerdictIff | src/trading_bot/entry_planner.py:316-329 | an entry allowed while missing data blocks keeps verdict and score under filling, except exactly when a hold time below the required one turns up with the hold condition off |
| EntryTiming.FillingKeepsVerdict | src/trading_bot/entry_planner.py:316-329 | with an absent or non-negative hold time it always keeps both |
| EntryTiming.FillingCanBlock | src/trading_bot/entry_planner.py:316-329 | an input at the boundary: a negative hold time that turns up blocks an allowed entry |
| OrderBudget.SharesFit | src/trading_bot/entry_planner.py:147-147 | the quantity is the largest whole number of shares the order value pays for |
| OrderBudget.GateBounds | src/trading_bot/risk.py:67-81 | an order that passes the gate is within the position limit and keeps exposure within the account limit |
| BuyMeaning.GateStated | src/trading_bot/risk.py:67-81 | the gate refuses an order without value, an account without equity, and a passed position or account limit, in this order, and nothing else |
| OrderBudget.GatedIntentIsSound | src/trading_bot/risk.py:67-81 | a gated order of at least one share has a positive price, costs at most its order value and keeps the exposure limit |
| OrderBudget.SpendKeepsBudget | src/trading_bot/entry_planner.py:209-210 | spending on a sound intent keeps cash plus invested, never overdraws cash and stays within both limits |
| BuyPlanner.ConsiderScore | src/trading_bot/entry_planner.py:57-208 | what one score leads to depends on earlier intents only through cash and invested |
| BuyPlanner.PlanBuyIntents | src/trading_bot/entry_planner.py:42-211 | the loop returns the intents, evaluations and first error of the specification |
| BuyMeaning.PlanStated | src/trading_bot/entry_planner.py:57-208 | each score adds its record, and its order if it is placed, or ends the plan with its error; points, share of equity, order value, every refusal and its reason, and the whole shares bought are stated on prices, points and the money left |
| BuyPlanner.PlanKeepsBudget | src/trading_bot/entry_planner.py:54-211 | after any scores, cash plus invested is unchanged, cash is not overdrawn, orders cost at most the cash there was, and both exposure limits hold |
| BuyPlanner.EvaluationsMatch | src/trading_bot/entry_planner.py:54-211 | each score before an error has exactly one evaluation, in order, and the allowed ones are exactly the intents |
| BuyPlanner.BoughtExactlyWhen | src/trading_bot/entry_planner.py:64-149 | a score is bought iff it triggered, the timing allows it, its adjusted score suffices, and an order of at least one share passes the gate against what earlier intents cost |
| ListBuyPlanner.CollectRankedBuyIntents | src/trading_bot/list_buy_planner.py:14-54 | the loop with its early exit returns the intents of the specification |
| BuyMeaning.ListStated | src/trading_bot/list_buy_planner.py:14-54 | while there is room, each quote in range is bought for one percent of the equity or the cash left, in the most whole shares, iff limits and money allow it; a zero price in range is the error |
| ListBuyPlanner.LaterRankingsIgnored | src/trading_bot/list_buy_planner.py:24-26 | once the list is full, or after an error, no later ranking changes the result |
| ListBuyPlanner.ListKeepsBudget | src/trading_bot/list_buy_planner.py:21-54 | the budget holds, neither count limit is passed, and every price is within its bounds |
| MatchingLedger.CandidateCapacity | src/trading_bot/performance_digest_matching_utils.py:145-149 | the counter holds the summed sell counts of each key |
| MatchingLedger.LedgerRow | src/trading_bot/performance_digest_matching.py:84-115 | a sell is matched iff it is no duplicate, its key's one row is creditable and a place is left, and its row is finished accordingly |
| LedgerMeaning.RowStated | src/trading_bot/performance_digest_matching.py:84-115 | each row carries its sell and the latest buy not after it, and is a duplicate, matched with the one creditable row of its key, or unmatched; the reason and the candidate shown follow from the fills and rows of its key and symbol |
| LedgerMeaning.DatesInOrder | src/trading_bot/performance_digest_matching_utils.py:273-282 | fills of different full dates of a year come in the order of their date texts |
| MatchingLedger.BuildMatchingLedger | src/trading_bot/performance_digest_matching.py:61-116 | one row per sell in time order, matched iff fewer sells claimed its key before it than there is capacity; the capacity left is the initial less the matched |
| MatchingLedger.EverySellOnce | src/trading_bot/performance_digest_matching.py:69-84 | the rows' sells are exactly the fills that are sells |
| MatchingLedger.LedgerCounts | src/trading_bot/performance_digest_matching.py:95-101 | per key the rows matched are the smaller of the non-negative capacity and the claiming sells |
| MatchingLedger.EarliestFirst | src/trading_bot/performance_digest_matching.py:84-101 | of sells claiming one capacity an earlier one by the clock of their date is matched before a later one; on one side of noon earlier by the clock is earlier in the session |
| MatchingLedger.LedgerFollowsSessionIff | src/trading_bot/performance_digest_matching_utils.py:273-290 | for two sells of one date the ledger's order is the session order of the fill writer iff both are before noon or both are not |
| MatchingLedger.AfterMidnightGoesFirst | src/trading_bot/performance_digest_matching_utils.py:273-290 | an input where the later sell of a session, after midnight, takes the only place of the earlier one |
| MatchingLedger.UsedUpIsTrueIff | src/trading_bot/performance_digest_matching_utils.py:51-87 | an unmatched sell told that capacity is used up is told the truth iff its key has positive capacity and a source that is not blank |
| MatchingLedger.ReasonCanMislead | src/trading_bot/performance_digest_matching_utils.py:80-87 | with only an evaluation for its key the first sell is told so untruthfully |
| CandidateResolution.ExtraCandidatesChangeOnlyMedium | src/trading_bot/performance_digest_candidate_matching.py:47-71 | adding blocked or later candidates changes no answer but a medium one, and that one iff some of them precede the buy |
| CandidateResolution.ResolutionIgnoresOrder | src/trading_bot/performance_digest_candidate_matching.py:47-71 | the order of the candidates does not matter |
| MatchMeaning.ResolutionStated | src/trading_bot/performance_digest_candidate_matching.py:47-71 | the answer and its method follow from how many candidates not after the buy and not blocked carry one of its orders, were submitted, are there at all or have its source |
| CandidateResolution.LoneActiveIsLostIff | src/trading_bot/performance_digest_candidate_matching.py:64-71 | a lone active candidate is reported as none iff nothing links it to the row and a blocked one precedes the buy |
| CandidateResolution.LoneActiveIsLost | src/trading_bot/performance_digest_candidate_matching.py:64-71 | an input: one active unlinked candidate and a blocked one before the buy |
| IntradayLimiter.LimitedIntradayBuyIntents | src/trading_bot/intraday_entries.py:45-116 | the loop returns the accepted intents and diagnostics of the specification |
| RoundMeaning.RoundStated | src/trading_bot/intraday_entries.py:45-142 | candidate by candidate the round refuses for the first thing that stands against it, or accepts it unchanged with its kind among the reasons; with the rounds used up it refuses all |
| IntradayLimiter.LimitConserves | src/trading_bot/intraday_entries.py:45-116 | accepted and diagnosed tickers together are exactly the candidates' tickers |
| IntradayLimiter.LimitedIsSound | src/trading_bot/intraday_entries.py:74-115 | at most the cap is accepted, none with an unfilled order, held ones only by pyramiding, others new and once; every refusal states a true reason |
| IntradayLimiter.DistinctIffNoRepeat | src/trading_bot/intraday_entries.py:92-115 | the accepted tickers are distinct iff no held ticker that fits is repeated while fewer than the cap of fitting candidates came before |
| IntradayLimiter.AcceptedIsFitting | src/trading_bot/intraday_entries.py:74-115 | of the candidates before any point as many are accepted as fit, up to the cap |
| IntradayLimiter.HeldTickerTwice | src/trading_bot/intraday_entries.py:92-115 | an input where a held ticker is accepted twice |
| OrderExecutor.Failures | src/trading_bot/order_execution.py:123-129 | counts the submits that fail in a row before the first success or the limit |
| OrderExecutor.BuyIntentExecutor.SubmitWithRetry | src/trading_bot/order_execution.py:123-200 | submits until the first success or one more than the allowed retries; the retry count is the failures before it, each failure is logged |
| OrderExecutor.BuyIntentExecutor.Execute | src/trading_bot/order_execution.py:42-121 | handles the intents in order and saves and returns exactly the trades of the specification |
| RoundMeaning.LogStated | src/trading_bot/order_execution.py:42-200 | an intent logs what its check says and whether it blocks, then each failed attempt with its retry or the end of them, then the answer of the submit that succeeds |
| OrderExecutor.ExecutionIsAccounted | src/trading_bot/order_execution.py:42-200 | each intent is blocked, exhausted or traded as its checks and its own consecutive submits say; one trade per successful submit, in order, and no other submit |
| OrderExecutor.CandidatesAreConserved | src/trading_bot/order_execution.py:42-121 | candidates are diagnosed, blocked, exhausted or traded, none lost, with at most retries plus one submits each |
| ChartScoring.EmaSeries | src/trading_bot/chart_scoring.py:88-95 | entry i of the series is the average of the first i + 1 values |
| ChartScoring.ChartPatternScore | src/trading_bot/chart_scoring.py:9-21 | the score of the specification, or the error on fewer than 35 bars |
| ChartMeaning.ScoreStated | src/trading_bot/chart_scoring.py:9-99 | the score is the mean of four signals, each stated on the closes: two mean crossings, the share of rises in the last fourteen moves, averages that step towards each close, and the place of the last closes in the bands |
| ChartScoring.EmaBetween | src/trading_bot/chart_scoring.py:88-95 | an exponential average stays between any bounds of its inputs |
| ChartScoring.RsiInRange | src/trading_bot/chart_scoring.py:67-77 | the relative strength index lies in [0, 100] |
| ChartScoring.BandsWithoutRoot | src/trading_bot/chart_scoring.py:54-64 | the square-root-free band tests are the source's for the population standard deviation |
| ChartScoring.ScoreInRange | src/trading_bot/chart_scoring.py:14-21 | the score lies in [12.5, 100] and rounding to two decimals leaves it alone |
| ChartScoring.ScoreIgnoresUnit | src/trading_bot/chart_scoring.py:9-95 | multiplying every price by one positive number does not change the score |
| SheetNames.ColumnLetters | tools/strategy_review_xlsx.py:201-206 | the loop computes the column name |
| SheetNames.NameToIndex | tools/strategy_review_xlsx.py:201-206 | reading a column name as bijective base 26 gives its index back; names are capital letters and empty only for zero |
| SheetNames.IndexToName | tools/strategy_review_xlsx.py:201-206 | every word of capital letters is the name of the index it reads as |
| SheetNames.TakenIsBounded | tools/strategy_review_xlsx.py:214-215 | suffixes that are all taken are no more than the existing names, so the search ends |
| SheetNames.SheetName | tools/strategy_review_xlsx.py:209-217 | returns the cleaned name if free, else the cut name with the first free suffix |
| SheetNames.CleanNameStated | tools/strategy_review_xlsx.py:209-211 | a cleaned name is the start of the given one with an underscore for each character not allowed, or sheet if that is empty |
| SheetNames.SheetNameIsNewIff | tools/strategy_review_xlsx.py:209-217 | a name has 1 to 31 characters and is new iff the cleaned name is, or some suffix that fits is free |
| SheetNames.FewSheetsGetNewNames | tools/strategy_review_xlsx.py:209-217 | with fewer than 999 sheets every name is new |
| SheetNames.ManySheetsCollide | tools/strategy_review_xlsx.py:209-217 | with all suffixes up to 999 of a 27-character name taken the next name repeats one |
| SheetNames.SimpleXlsxWriter.AddSheet | tools/strategy_review_xlsx.py:17-29 | one sheet is appended under that name; below 999 sheets all names stay distinct and within the limit |

## Left out

- Floating-point rounding, `round` on reported values and decimal spelling: amounts are exact reals,
  and decimals are compared by value where the source compares their normalized text.
- Parsing of raw rows (dates, numbers, sides, flags, upper-casing, trimming, JSON): rows enter typed.
  A side text that names both a buy and a sell, and blanks other than space, tab and line ends, are
  not part of this model.
- Sort keys that end in a row's canonical text keep that text as a field; order independence assumes
  that rows with equal text are equal rows, and that the group keys of the given rows have distinct
  texts.
- SQL text, drivers, schema repair and the HTTP, broker, chart and messaging clients: the fill table,
  the token row and the order API are modelled by what their statements do.
- SettledSignals.SettledOnceThreeSeen: while some ticker has fewer than three visible bars, volume to
  come also decides which tickers the windows of the refresh and hybrid modes rank and consider. For
  these times the two modes have failing histories (`VolumeOvertakes`) but no exact condition, which
  would range over every combination of the undecided tickers.
- FillPolls.PollReachesHighWaterIffDistinguishable: keys carry the normalized side; two raw side texts
  that normalize to one side are one key here, while the statements compare the raw text and the later
  group of the query overwrites the earlier one's stored quantity (repositories.py:634-739).
- Polls whose rows carry another trade date than the poll's day, and the profit and reason refresh of
  merged fill rows beyond what quantities and identities need.
- The token store's table creation and retry on connection loss; a crash of a server is an error
  raised at its current step.
- Metadata carried along (names, strategy versions, settings snapshots, entry-reason details, text
  labels) and everything that renders Markdown, JSON, CSV or workbook XML; `AddSheet` takes its cells
  ready made.
- Evaluation records keep ticker, final score, verdict and reasons; their storage and logging, which
  swallow every exception, are left out. So are the reported condition details, which decide nothing.
- Evaluations of the digest are taken to carry no fill date or time of their own, so those of a symbol
  keep their input order.
- The event records the executor writes beside each log entry.
- Order protection and quote reading are parameters: each check and each submit answers as an
  arbitrary function of its number. Exceptions of the repository are not modelled.
- Duplicate fills of the digest enter as a lookup from fill identity to whether they look like a split
  fill; blocked and submitted candidates of the resolution enter as flags.
- Cleaning and sorting of raw bars (`_sorted_valid_bars`), times of bars finer than a second, and the
  streaming averages of `intraday_backtest_data.py`.
- `candidate_review_rows` and `aggregate_candidate_pnl`, `backtest.py`, `exit_rule_simulation.py` and
  packet reassembly: they would add further loops and counters, not harder properties.
- Configuration beyond the missing-data policy, secrets, the monitor server and the mobile client.
