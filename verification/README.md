# A verified model of the replenishment assistant

The repository forecasts daily demand per SKU, turns forecasts into stock alerts and
purchase orders, and lets people decide on those orders through an API and a chat
assistant. This project models the parts of it that carry numeric state or run as state
machines, and proves what they promise for every input, every run and every interleaving.

| modules | subject |
|---|---|
| `Options`, `RealSeq`, `Models` | absent values; sums, means, rounding; fitted models, their predictions, grid search |
| `HoltTrend`, `WeeklySeason`, `Smoothing` | damped Holt, 7-day seasonal Holt, exponential smoothing, mean, Croston/SBA, legacy forecast |
| `Scoring`, `RobustSpread` | wMAPE, bias, blending weights; MAD-based sigma and interval bands |
| `Calendar`, `Imputation` | calendar densification, hold-out alignment, censored-day imputation |
| `Ensemble`, `Selection` | the whole forecast of one SKU; what its bundle answers |
| `HoldoutPooling`, `ReplayAnswers` | hold-out replay, pooled figures and promotion gates; what a replay holds |
| `ForecastRun`, `TtlCache` | the run over all SKUs with its circuit breaker; the TTL/LRU cache |
| `Replenishment`, `ServedFigures`, `AlertOrders` | risk level, order quantity, order drafting across runs; the rounded figures each engine serves and the orders they lead to |
| `PurchaseOrders`, `Idempotency` | order decisions under interleaved requests; replay by idempotency key |
| `ChatLoop`, `ChatActions`, `SseStream` | the tool-calling loop, two-phase actions, the event stream reader |

Code that updates variables step by step is a method with a loop, or a class whose methods
change its fields; each is tied to a specification function, and the theorems are about
those functions. Sales and forecasts are exact reals, days are integers, `sqrt` is any
function `root` with `root(i) >= 0` and `root(i)*root(i) == i`, and `round` is rounding half to even.

Six places where the code does not do what one would expect are recorded with a concrete
input and the exact condition under which it does:

- `Calendar.AlignedHorizon`: the aligned hold-out has the calendar length exactly when it spans at most 730 days.
- `HoldoutPooling.ReplayDaysAlign`: a replay scores every hold-out row against the forecast for its own day exactly when those days are distinct and without gaps.
- `ChatLoop.ReplyRepeatsHistory`: a chat reply repeats the assistant texts of earlier turns; it is what the new turn alone would reply exactly when there are none.
- `Replenishment.WarningsOrderExactly`: before rounding, a warning always leads to an order exactly when the lead time is under 14 days.
- `AlertOrders.EnsembleAlertOrders` and `AlertOrders.LegacyAlertOrders`: with the rounded figures each engine serves, an alert can leave nothing to order; the exact condition is stated per engine, with the longest lead times that are always safe and inputs just beyond them.
- `PurchaseOrders.EditMarksSettleExactly`: the edit marks of a decided order, unlike its decision, can still change, exactly while an approval that has fetched the order is about to note a different quantity.

## Model

| member | source | states |
|---|---|---|
| Models.ArgMin | agent/forecast.py:233-234 | the grid search returns the first of the cheapest candidates, infinite costs last |
| HoltTrend.HoltState | agent/forecast.py:249-262 | the update loop computes the fitted path and terminal state of the step recursion |
| HoltTrend.BestComboIsBest | agent/forecast.py:273-278 | the parameters come from the 3x3 grid and no other pair has a smaller one-step error |
| HoltTrend.FitHoltIsLeastSquares | agent/forecast.py:269-284 | for three values or more the fitted model has the least sum of squared one-step errors of the nine pairs; its level and trend are the state after the last value |
| HoltTrend.StepCorrectsError | agent/forecast.py:255-261 | a step moves the level by alpha and the damped trend by alpha*beta of the error of its own forecast |
| HoltTrend.FitsLookBackFromTheThird | agent/forecast.py:249-262 | from the third value on a fitted value depends on earlier values only; the second one uses the value it is fitted to |
| HoltTrend.HoltIsStable | agent/forecast.py:249-262 | for any history in [0, m] and all nine grid pairs, after every step the trend is within m and the level within [-2.4m, 3.4m] |
| HoltTrend.HoltForecastIsBounded | agent/forecast.py:269-284 | a grid-searched Holt forecast lies in [0, 10.7m] at every horizon |
| HoltTrend.ClosedFormIsTheRecursion | agent/forecast.py:281-282 | the closed form equals iterating the state update on its own forecasts |
| HoltTrend.AppendingForecastsShifts | agent/forecast.py:249-284 | with fixed parameters, appending the first k forecasts to the history shifts all later ones by k |
| HoltTrend.PredictionsShift | agent/forecast.py:281-284 | the same for the clipped forecasts the model predicts |
| HoltTrend.PathFollowsTrend | agent/forecast.py:281-282 | before the clip the path is monotone in the trend's direction and stays within 9 times the trend of the level |
| WeeklySeason.SeasonalIndices | agent/forecast.py:292-298 | the bucket loop computes the centred phase means |
| WeeklySeason.IndexIs | agent/forecast.py:292-298 | an index is the mean of every seventh value from its day on, less the mean of the seven such means |
| WeeklySeason.SeasonalModelIs | agent/forecast.py:301-320 | the seasonal model fits damped Holt to the values less the indices of their days |
| WeeklySeason.IndicesSumToZero | agent/forecast.py:292-298 | the seven indices sum to zero, even for short histories |
| WeeklySeason.WeeklyPatternPassesThrough | agent/forecast.py:301-320 | adding any weekly pattern to a history adds exactly that pattern to every unclipped forecast, whatever parameters the search picks |
| WeeklySeason.ExactWeeklyContinuation | agent/forecast.py:301-320 | a non-negative 7-periodic history of any length from 14 on is continued exactly at every horizon |
| WeeklySeason.WeeklyForecastIsBounded | agent/forecast.py:301-320 | a seasonal forecast of a history in [0, m] lies in [0, 32.1m] at every horizon |
| Smoothing.ExponentialSmoothing | agent/forecast.py:56-62 | the loop computes the smoothing recursion, zero for no history |
| Smoothing.SmoothingIsConvex | agent/forecast.py:56-62 | the smoothed value is a weighted sum of the history with non-negative weights that sum to one |
| Smoothing.SmoothedBetween | agent/forecast.py:56-62 | it lies between any bounds of the history |
| Smoothing.SesPathLoop | agent/forecast.py:220-226 | the loop lists the smoothed value after every observation |
| Smoothing.FitSesIsLeastSquares | agent/forecast.py:229-241 | the fitted smoothing has the least sum of squared errors of the four, its level is the smoothed history and its fitted values the running ones |
| Smoothing.LegacyBetween | agent/forecast.py:65-69 | the legacy forecast lies between half the mean and the largest sale |
| Smoothing.FitMeanLoop | agent/forecast.py:205-217 | the running loop computes the prefix means, and the mean of the whole history as level |
| Smoothing.MeanConserves | agent/forecast.py:205-217 | the mean model's level times the days is what was sold, and so is every fitted value times the days before it |
| Smoothing.FitCrostonLoop | agent/forecast.py:323-347 | the in-place loop computes the size/interval recursion and its fitted rates |
| Smoothing.CrostonBounds | agent/forecast.py:323-342 | after the first sale the size lies between the smallest and largest sale and the interval between 1 and the longest gap; before it the rate is zero |
| Smoothing.CrostonRateBounds | agent/forecast.py:323-347 | the rate is at most 0.9 of the largest sale, and at least 0.9 of the smallest over the longest gap once something sold |
| Smoothing.CrostonIsCausal | agent/forecast.py:330-331 | the fitted value of a day depends on earlier days only |
| Smoothing.RegularDemand | agent/forecast.py:323-347 | a sale of v every g days: after the (k+1)-th the size is v, the interval g - (g-1)*0.8^k and the rate 0.9*v over it |
| Smoothing.FlatModelsBetween | agent/forecast.py:205-246 | smoothing, mean and Croston forecast a level in [0, largest sale] |
| Scoring.ClippingNeverHurts | agent/forecast.py:375-380 | clipping a forecast at zero never increases its wMAPE for non-negative demand |
| Scoring.BiasBelowWmape | agent/forecast.py:375-388 | the magnitude of the bias never exceeds the wMAPE for non-negative demand |
| Scoring.WmapeIs | agent/forecast.py:375-380 | the wMAPE is the total absolute error over the total demand, at least one |
| Scoring.BiasIs | agent/forecast.py:383-388 | the bias is the net error over the net demand, at least one |
| Scoring.BlendIsConvex | agent/forecast.py:569-576 | the blend's wMAPE is at most the share-weighted mean of the two candidates' |
| Scoring.ShareGivesHarmonicMean | agent/forecast.py:571-573 | for scores of at least 1e-6 that weighted mean is the harmonic mean |
| Scoring.BlendWithinTolerance | agent/forecast.py:561-576 | a blend of two candidates within the tolerance costs at most 1.1 times the best score, and 22/21 of it from 1e-6 on |
| Scoring.RoundedBlendWithinTolerance | agent/forecast.py:391-399 | with scores rounded as the code rounds them the bound is 22/21 of the best plus 0.00005 |
| RobustSpread.MajorityHoldsMedian | agent/forecast.py:410 | the median lies in every interval that holds a strict majority of the values |
| RobustSpread.MedianIsMiddle | agent/forecast.py:410-411 | the median is the middle, or the mean of the two middle values, of any sorted arrangement |
| RobustSpread.SigmaIsScaledMad | agent/forecast.py:407-412 | sigma is 1.4826 times the median distance from the median, zero below three residuals |
| RobustSpread.MajorityFarFromMedian | agent/forecast.py:407-412 | when a strict majority lies at least d from the median, sigma is at least 1.4826*d |
| RobustSpread.MajorityBoundsSigma | agent/forecast.py:407-412 | with three or more residuals, a strict majority in [lo, hi] bounds sigma by 1.4826*(hi - lo), whatever the rest are |
| RobustSpread.SigmaIgnoresTranslation | agent/forecast.py:407-412 | adding a constant to all residuals leaves sigma alone |
| RobustSpread.SigmaIgnoresOrder | agent/forecast.py:407-412 | sigma depends on the multiset of residuals only |
| RobustSpread.SigmaAtShape | agent/forecast.py:419 | the step sigma starts at sigma, never shrinks and is exactly twice sigma from step 4 on |
| RobustSpread.ConfidenceBand | agent/forecast.py:415-423 | the loop computes both bands of every step |
| RobustSpread.BandsBracket | agent/forecast.py:415-423 | the bands bracket a non-negative path; the upper half-width is 1.2816*sigma*min(sqrt(i), 2) and never shrinks, the lower one is the same, cut at zero |
| Calendar.PrepareSeries | agent/forecast.py:86-106 | sorting, indexing and the fill loop compute the dense dates and values |
| Calendar.SortKeepsLast | agent/forecast.py:91 | sorting by day keeps the last stored row of every day last |
| Calendar.SeriesIsDense | agent/forecast.py:86-106 | consecutive days ending at the latest row, min(span, 730) of them, each with the last row stored for it or zero |
| Calendar.PreparingIsIdempotent | agent/forecast.py:86-106 | preparing a prepared series changes nothing |
| Calendar.SeriesConservesUnits | agent/forecast.py:86-106 | with distinct days within 730 days the total is conserved |
| Calendar.AlignedByCalendarDay | scripts/forecast_backtest.py:158-168 | position i of the aligned demand is the demand on the (i+1)-th day after training, while the hold-out reaches at most 730 days |
| Calendar.AlignedHorizon | scripts/forecast_backtest.py:158-168 | the aligned length is the calendar distance exactly when that distance is at most 730 days |
| Calendar.AlignedHorizonBreaksPastCap | scripts/forecast_backtest.py:158-168 | a test row 731 days after training yields one aligned day instead of 731 |
| Calendar.AlignedConservesDemand | scripts/forecast_backtest.py:158-168 | with distinct test days the aligned demand sums to the test rows |
| Imputation.ImputeCensoredDays | agent/forecast.py:154-180 | the in-place loop equals deciding every day at once on the original history, and returns the number of censored days |
| Imputation.FilledExactly | agent/forecast.py:154-180 | a day is filled exactly when it sold nothing, three days within a week of it sold something, and one before and one after it did; with their mean |
| Imputation.FillIsBracketed | agent/forecast.py:165-178 | a filled day was zero and its fill lies between two positive sales at most seven days away |
| Imputation.OuterZeroRunsUntouched | agent/forecast.py:158-178 | leading and trailing zeros are never filled |
| Imputation.MaximumUnchanged | agent/forecast.py:154-180 | only zeros change and the largest sale stays the largest |
| Imputation.TotalGrowsByFills | agent/forecast.py:154-180 | the total grows by exactly the fills |
| Imputation.CountIsChangedDays | agent/forecast.py:154-180 | the returned count is the number of days whose value changed |
| Selection.HoldoutTable | agent/forecast.py:363-372 | 14, 7, 5, 3 or no days are held out, from 60, 30, 21 and 14 days of history on |
| Selection.WorkIs | agent/forecast.py:494-498 | the worked series is the imputed history with stockout correction from ten units a day on, the history itself otherwise |
| Ensemble.FittedIsBounded | agent/forecast.py:455-464 | only the seasonal fitter declines, exactly below 14 days, and no fitted candidate forecasts outside [0, 32.1m] for a history in [0, m] |
| Ensemble.ScoreCandidates | agent/forecast.py:522-529 | the loop scores the fitted candidates in order and skips those that cannot be fitted |
| Ensemble.BuildEnsemble | agent/forecast.py:481-611 | the whole pipeline, with all its early returns, computes the specified bundle |
| Selection.BundleAnswers | agent/forecast.py:481-623 | every bundle's forecast is that of the model it names, fitted on the whole worked series, or the inverse-score mix of the two it names; no eligible candidate scores better on the held-out days; a second is mixed in exactly when it comes within ten percent; sigma and bands come from the first one's residuals |
| Selection.SeasonalWinsExactly | agent/forecast.py:516-589 | on a patterned weekly history from 17 days on, the seasonal model is served alone if and only if no other eligible candidate fits the hold-out perfectly |
| Selection.WeeklyHistoryIsContinued | agent/forecast.py:481-623 | from 60 days of a weekly history on, with ten units a day and a strength of 0.30, the bundle is the seasonal model's alone and continues the history exactly |
| Ensemble.SelectedIsBest | agent/forecast.py:561-563 | the selected model has the least hold-out wMAPE of all scored candidates |
| Ensemble.BundleIsWellFormed | agent/forecast.py:481-623 | every bundle has three sequences of the clamped horizon with 0 <= p10 <= prediction <= p90, and an upper half-width that never shrinks and is exactly 2*sigma*1.2816 from step 4 on |
| Ensemble.NoExtrapolationAtLowVelocity | agent/forecast.py:516-589 | below 10 units a day, without an external candidate, the path is one constant in [0, largest sale] |
| Ensemble.SelectedBlendLosesLittle | agent/forecast.py:561-576 | whenever two candidates are blended, their hold-out blend loses at most 22/21 of the best recorded score plus 0.00005; an external candidate is covered when its score is the rounded wMAPE of its forecasts on the same hold-out |
| Ensemble.ForecastIsBounded | agent/forecast.py:481-623 | without an external candidate no forecast exceeds 32.1 times the largest sale, whichever models win |
| HoldoutPooling.EvaluateSkuHoldout | agent/forecast_engine.py:160-220 | the coverage loop computes one SKU's figures from its replay, and none when it cannot be replayed |
| ReplayAnswers.ReplayIs | agent/forecast_engine.py:166-194 | a SKU can be replayed exactly with two weeks before a hold-out of at most a year and demand in it; the replay holds the ensemble's and the legacy forecast of the rows before, and the units of the held-out rows |
| ReplayAnswers.ApesAre | agent/forecast_engine.py:196-198 | the percentage errors total the relative absolute error of the days with demand, and number those days |
| ReplayAnswers.CoveredAre | agent/forecast_engine.py:200-207 | the covered days are exactly those within 0.6745 step sigmas of their forecast, cut at zero |
| ReplayAnswers.PerfectMetrics | agent/forecast_engine.py:196-220 | an exact ensemble and an inexact legacy forecast give no ensemble error and bias, some exponential error, and full coverage |
| ReplayAnswers.WeeklySkuIsPerfect | agent/forecast_engine.py:160-220 | a SKU with a weekly pattern replays that way |
| ReplayAnswers.WeeklyMerchantIsPromoted | agent/forecast_engine.py:292-362 | three such SKUs and fourteen shadow days pass every gate |
| HoldoutPooling.EvaluatedReplays | agent/forecast_engine.py:160-220 | the SKUs that get pooled are exactly the replayable ones, in order, each with the figures of its replay |
| HoldoutPooling.ReplayDaysAlign | agent/forecast_engine.py:168-194 | every hold-out row is scored against the forecast for its own day if and only if those days are distinct and span as many calendar days as there are rows |
| HoldoutPooling.GapShiftsReplay | agent/forecast_engine.py:168-194 | with one day missing, the demand of day 15 is scored against the forecast for day 14 |
| HoldoutPooling.PoolingIsFlattening | agent/forecast_engine.py:223-266 | pooled MAPEs, coverage and bias equal the figures over all days of all SKUs; no bias exactly when no high-velocity demand exists |
| HoldoutPooling.RatioBoundPools | agent/forecast_engine.py:239-243 | an error-ratio bound held by every evaluable SKU holds pooled |
| HoldoutPooling.PromotionMeans | agent/forecast_engine.py:292-362 | all gates pass if and only if the day-level facts hold: total errors, total bias, covered days, counts |
| ForecastRun.ForecastRunner.ForecastOne | agent/nodes/forecast_node.py:263-285 | a cached entry is served as it is; otherwise a timeout serves nothing, an ensemble success version 2, an ensemble failure version 1 as a fallback, and the result is cached under its engine |
| ForecastRun.ForecastRunner.Gather | agent/nodes/forecast_node.py:287-288 | the same for every SKU of a gather, in order |
| ForecastRun.ForecastRunner.ForecastNode | agent/nodes/forecast_node.py:258-324 | the node reports on its first gather, or on a second exponential one if the breaker trips; when nothing fails it serves every SKU with the ensemble and does not trip |
| ForecastRun.GatherIsHonest | agent/nodes/forecast_node.py:263-288 | under every interleaving of lookups, completions, timeouts, evictions and other runs' writes, every delivered forecast and cache entry was produced by its engine |
| ForecastRun.TripsExactly | agent/nodes/forecast_node.py:296-299 | the breaker trips if and only if missing plus fallback SKUs exceed threshold times those attempted |
| ForecastRun.BreakerIsSafe | agent/nodes/forecast_node.py:290-309 | either it trips and every forecast is exponential, or failures are within the threshold and all other SKUs are served by the ensemble; only requested SKUs are served |
| ForecastRun.RunIsSafe | agent/nodes/forecast_node.py:258-309 | such a run is safe in that sense under every interleaving of its gather and of its rerun |
| ForecastRun.ColdGatherDelivers | agent/nodes/forecast_node.py:263-288 | without cached entries every SKU gets exactly what its own outcome delivers, under every interleaving |
| ForecastRun.ColdRunTripsExactly | agent/nodes/forecast_node.py:290-309 | such a run trips the breaker if and only if timeouts and ensemble failures together exceed threshold of its SKUs |
| ForecastRun.DeliveredIsCached | agent/nodes/forecast_node.py:263-285 | without evictions and other runs, every delivered forecast is in the cache under its SKU, engine and horizon at the end |
| TtlCache.TTLCache.Get | shared/cache.py:22-31 | a lookup returns an unexpired value and makes its key the newest, or drops an expired one |
| TtlCache.TTLCache.Set | shared/cache.py:33-39 | a store makes the key the newest and evicts the oldest beyond the bound |
| TtlCache.TTLCache.EvictOldest | shared/cache.py:38-39 | the eviction loop leaves exactly the newest max_size entries |
| TtlCache.TTLCache.Invalidate | shared/cache.py:41-42 | removes that key and nothing else |
| TtlCache.SizeNeverExceedsBound | shared/cache.py:16-45 | after every run keys are distinct and the size is within the bound |
| TtlCache.HeldIsCurrent | shared/cache.py:16-45 | every held entry is the entry an unbounded cache holds |
| TtlCache.HitIsLastStoredAndFresh | shared/cache.py:22-31 | every hit is the value last stored for the key, not expired |
| TtlCache.SurvivesWhileRecent | shared/cache.py:22-39 | a key the unbounded cache holds is held if fewer than max_size distinct other keys were set or hit since its last touch |
| TtlCache.FreshAndRecentIsHit | shared/cache.py:22-39 | with a monotone clock, such a key is a hit while it has not expired |
| TtlCache.LruIsExact | shared/cache.py:22-39 | when only eviction removes entries, a key is held if and only if fewer than max_size distinct other keys were touched since |
| SseStream.StreamChat | inventory-frontend/src/lib/api.ts:245-263 | the buffering loop delivers the specified events and buffer for any chunks |
| SseStream.SplitResumes | inventory-frontend/src/lib/api.ts:252-253 | splitting received text keeps its complete frames and re-splits only the unfinished last piece |
| SseStream.FramesRejoin | inventory-frontend/src/lib/api.ts:252-253 | the frames joined by blank lines give the text back and none holds one |
| SseStream.LinesRejoin | inventory-frontend/src/lib/api.ts:255 | the lines joined by newlines give the frame back and none holds one |
| SseStream.EventIs | inventory-frontend/src/lib/api.ts:254-261 | a frame carries an event exactly when the text of its first data line parses, and then that text |
| SseStream.ReadIsOneSplit | inventory-frontend/src/lib/api.ts:245-263 | what is delivered and buffered is one split of all text received so far |
| SseStream.ChunkingDoesNotMatter | inventory-frontend/src/lib/api.ts:245-263 | two ways of cutting the same text give the same events and buffer |
| SseStream.DeliversCompleteFrames | inventory-frontend/src/lib/api.ts:245-263 | printed events followed by an unfinished piece: exactly the events are delivered and the piece is buffered |
| SseStream.StreamRoundTrip | api/routes/chat.py:51-52 | for any chunking, also between the two newlines, the reader delivers exactly the printed payloads in order and ends with an empty buffer |
| SseStream.CutStreamDeliversPrefix | inventory-frontend/src/lib/api.ts:245-263 | a stream cut inside a frame delivers all earlier events and nothing of the cut one |
| PurchaseOrders.FetchedStaysCurrent | api/routes/purchase_orders.py:22-34 | however requests interleave, what a request fetched of an order is still its quantity and thread while the order is pending |
| PurchaseOrders.OrderStore.MarkEditedIfChanged | api/routes/purchase_orders.py:37-45 | a different approved quantity marks the order and keeps its old quantity, whatever its status |
| PurchaseOrders.OrderStore.UpdatePoStatus | api/routes/purchase_orders.py:48-61 | the decision is written if and only if the order is still pending, otherwise a conflict |
| PurchaseOrders.OrderStore.ApprovePo | api/routes/purchase_orders.py:155-178 | one approval on its own succeeds exactly for a pending order whose thread resumes, changes the row to the approved one with its edit marks and original quantity, and touches no other order |
| PurchaseOrders.OrderStore.RejectPo | api/routes/purchase_orders.py:181-195 | one rejection succeeds exactly for such an order, records the reason, and changes nothing when it fails |
| PurchaseOrders.DecisionIsFinal | api/routes/purchase_orders.py:48-61 | once decided, no later step of any request changes status, quantity, approver, time or reason |
| PurchaseOrders.AtMostOneDecision | api/routes/purchase_orders.py:155-195 | in every interleaving of the steps of any requests at most one succeeds per order, and the order records exactly that one, with the quantity it asked for or else the one the order was pending with |
| PurchaseOrders.DecisionRecordsQuantity | api/routes/purchase_orders.py:158-168 | whatever moment the order was pending at, a later decision keeps that quantity unless the winning approval names another |
| PurchaseOrders.DecisionHasOneAuthor | api/routes/purchase_orders.py:48-61 | an order that left pending was decided by exactly one of the requests |
| PurchaseOrders.LaterRequestsFail | api/routes/purchase_orders.py:248-266 | after one request has succeeded, no other about the same order ever does, token links included |
| PurchaseOrders.NoResumeNoDecision | api/routes/purchase_orders.py:155-195 | a request about an order with an approval thread never succeeds unless the thread resumes |
| PurchaseOrders.EditMarksSettleExactly | api/routes/purchase_orders.py:37-45 | the edit marks of a decided order survive everything that may still happen if and only if no approval has fetched it and is about to note a different quantity the marks do not record |
| PurchaseOrders.EditMarksMayChangeAfterDecision | api/routes/purchase_orders.py:37-45 | a run from fresh requests that reaches such a state and overwrites the marks of an approved order |
| Idempotency.Guard.RunWithIdempotency | api/routes/purchase_orders.py:75-100 | memory lookup, database lookup, action, recording and eviction change cache and table as specified |
| Idempotency.ReplayReturnsFirst | api/routes/purchase_orders.py:75-100 | after a key's first success every later request returns that response and runs nothing, through evictions and restarts |
| Idempotency.UnrecordedKeyRuns | api/routes/purchase_orders.py:75-100 | until a success every request with the key runs its action |
| Idempotency.RunsAtMostOnce | api/routes/purchase_orders.py:75-100 | in every sequential run a key's action succeeds once if it ever does, never twice |
| ChatLoop.ToolsNode | agent/chat/agent.py:204-278 | the loop answers every call of the last assistant message, with its trace and proposed actions |
| ChatLoop.Run | agent/chat/agent.py:118-146 | the graph run computes the specified final state |
| ChatLoop.AtMostMaxStepsCalls | agent/chat/agent.py:137-146 | for every model and tool behaviour at most max_steps model calls occur |
| ChatLoop.TurnEndsProperly | agent/chat/agent.py:137-146 | a turn ends only on a failed or refused model call, at the step limit, or with a last message that asks for no tool |
| ChatLoop.TranscriptIsWellFormed | agent/chat/agent.py:148-278 | the kept history and user message come first, then complete rounds: an assistant message and, per call in order, one tool message with that call's id and name, its result's status, and an action id exactly for a proposal; only the last assistant message can be unanswered |
| ChatLoop.RepliesAreRecorded | agent/chat/agent.py:148-202 | the assistant messages of a turn are the model's replies, in order and complete |
| ChatLoop.TraceMatchesTools | agent/chat/agent.py:230-239 | the tool trace lists the tool messages in order, each with name, success and whether it writes |
| ChatLoop.KeptDropsBlanks | agent/chat/agent.py:119 | exactly the user and assistant messages without text are dropped from the history |
| ChatLoop.ActionsAreProposals | agent/chat/agent.py:255-271 | the pending actions are exactly the proposals of the answered calls, in order, each with the tool called and the proposed parameters |
| ChatLoop.ActionsMatchProposals | agent/chat/agent.py:255-271 | their identifiers are exactly the tool messages that report a proposal, in order |
| ChatLoop.ActionsAreDistinct | agent/chat/agent.py:255-271 | no two pending actions stem from the same tool message |
| ChatLoop.Assemble | agent/chat/agent.py:280-292 | the reply is a text exactly when some assistant message has one; each note appears exactly when none has and its flag holds |
| ChatLoop.ReplyRepeatsHistory | agent/chat/agent.py:282-290 | the reply is what this turn alone would reply exactly when the history holds no assistant text; otherwise even a refused turn replies old text instead of a note |
| ChatLoop.SecondReplyIncludesFirst | agent/chat/agent.py:282-285 | a turn in which the model answers "Two" after an earlier "One" replies "One Two" |
| ChatActions.ActionDesk.RequirePendingPersisted | agent/chat/actions.py:87-107 | unknown, resolved and stale actions fail differently, and a stale one is stored as expired |
| ChatActions.ActionDesk.ConfirmAction | agent/chat/actions.py:110-169 | a confirmation in time adds one order and stores its id with the action, anything else adds none |
| ChatActions.ActionDesk.CancelAction | agent/chat/actions.py:172-195 | a cancellation in time resolves the action and creates nothing |
| ChatActions.OrdersAreConfirmedActions | agent/chat/actions.py:110-195 | after every sequential run there are as many orders as confirmed actions, each action naming its own distinct order made from its parameters |
| ChatActions.ResolutionIsFinal | agent/chat/actions.py:87-107 | a resolved action never changes again |
| ChatActions.ConfirmedAtMostOnce | agent/chat/actions.py:110-169 | an action is confirmed successfully at most once, exactly when it ends up confirmed |
| Replenishment.QuantityIsLeastEnough | agent/ordering.py:14-32 | for positive demand the quantity is the least one that is 0 or at least the MOQ and covers demand*(lead+7) with stock and open orders |
| Replenishment.WorstCoverDecides | agent/risk.py:24-50 | the level is the worse of the point and p90 cover |
| Replenishment.LevelsAre | agent/risk.py:4-50 | critical exactly when one of the covers is within the lead time, safe exactly when both exceed 1.5 times it or there is no forecast |
| Replenishment.AlertYieldsOrder | agent/risk.py:4-50 | in exact arithmetic with nothing on order, a critical alert always yields a positive order, a warning does when the lead time is under 14 days |
| Replenishment.WarningsOrderExactly | agent/risk.py:15-20 | before rounding, every warning yields an order if and only if the lead time is under 14 days |
| ServedFigures.BundleIsBanded | agent/nodes/forecast_node.py:88-99 | every bundle that forecasts some demand has a mean p90 at least 0.12816 times max(mean forecast, 1) above the mean forecast |
| ServedFigures.OneSaleBundle | agent/forecast.py:536-560 | a single sale of u, one day ahead, is forecast as 0.9u with exactly that narrowest band |
| ServedFigures.LegacyIsNotTiny | agent/nodes/forecast_node.py:130-140 | from whole-unit sales the exponential engine forecasts nothing or at least 1/180 a day, so a positive forecast never rounds to zero |
| ServedFigures.FiguresAre | agent/nodes/forecast_node.py:49-53 | stored demands and covers are within half a unit of the last place of the exact ones; cover is absent exactly without demand or from 999 days |
| ServedFigures.LegacyValuesAre | agent/nodes/forecast_node.py:68-70 | the exponential engine sees the last ninety rows by day |
| AlertOrders.EnsembleAlertOrders | agent/nodes/forecast_node.py:82-106 | every alert on ensemble figures has a positive basis and orders, with nothing on order, if and only if its lead time is at most 239 days (critical) or 12 (warning), or stock is short of the window |
| AlertOrders.BandAlertOrders | agent/nodes/forecast_node.py:88-99 | the same for all figures with such a band |
| AlertOrders.LegacyAlertOrders | agent/nodes/forecast_node.py:130-140 | every alert of the exponential engine has a positive basis and orders if and only if its lead time is at most 39 days (critical) or 12 (warning), or stock is short of the window |
| AlertOrders.BandWarningsOrderExactly | agent/nodes/forecast_node.py:49-53 | with banded figures every warning orders if and only if the lead time is at most 12 or at least 883 days |
| AlertOrders.LegacyWarningsOrderExactly | agent/nodes/forecast_node.py:130-140 | on the exponential engine every warning orders if and only if the lead time is at most 12 or at least 999 days |
| AlertOrders.EnsembleWarningMayNotOrder | agent/nodes/forecast_node.py:88-99 | at every lead time from 14 to 878 days a one-sale history's ensemble figures raise a warning that orders nothing |
| AlertOrders.BandCriticalMayNotOrder | agent/nodes/forecast_node.py:49-53 | at 240 days a critical alert on banded figures can order nothing |
| AlertOrders.LegacyCriticalMayNotOrder | agent/nodes/forecast_node.py:130-140 | at 40 days a critical alert of the exponential engine can order nothing, for a 61-day history with three sales |
| AlertOrders.CertainAlertIsDrafted | agent/nodes/po_draft_node.py:156-230 | an alert on either engine's figures within those lead times, for a SKU with nothing on order, gets a pending order in the same run |
| Replenishment.OrderBook.OpenQuantities | agent/nodes/po_draft_node.py:134-154 | the map holds, per alerted SKU, the sum over its pending orders and those approved within 14 days |
| Replenishment.OnOrderIsSum | agent/nodes/po_draft_node.py:134-154 | what is on order is the sum over exactly those orders |
| Replenishment.DraftedExactly | agent/nodes/po_draft_node.py:111-230 | a run creates exactly the pending orders of alerted, known SKUs with none pending from the last hour, each for the least acceptable quantity that covers an uncovered window |
| Replenishment.OneOrderEach | agent/nodes/po_draft_node.py:156-187 | a SKU alerted once gets at most one order a run |
| Replenishment.OrderBook.PoDraft | agent/nodes/po_draft_node.py:111-230 | the batch loop appends exactly the specified orders to the table |
| Replenishment.RunCoversDemand | agent/nodes/po_draft_node.py:156-187 | after a run, stock and open orders of every alerted SKU it did not skip cover the planning window |
| Replenishment.RerunOrdersNothing | agent/nodes/po_draft_node.py:132-187 | a later run with unchanged inputs orders nothing for it while every order open then is later pending, or approved within 14 days |
| Replenishment.CriticalAlertIsDrafted | agent/nodes/po_draft_node.py:156-230 | before rounding, with nothing on order, a critical alert, or a warning under 14 days of lead, gets a positive order in the same run |

## Left out

- Floating point: all arithmetic is on exact reals, and decimal constants are exact. `round` is half-to-even on the exact value.
- The trend slope and zero share in the diagnosis, reason and summary strings, labels and metadata of results: they influence no modelled number.
- Ensemble.SelectedBlendLosesLittle: for an external candidate assumes a score measured on the same hold-out; the source computes it elsewhere, on imputed sales even when the ensemble does not impute.
- Selection.WeeklyHistoryIsContinued: asks that nothing is imputed (`Selection.NothingImputed`: no stockout correction, or a sale every day); with correction on, the source fills the zero days of a pattern. Below 60 days fewer than two weeks are held out and another model can fit them exactly; `Selection.SeasonalWinsExactly` gives the exact condition there.
- ReplayAnswers.WeeklySkuIsPerfect: asks for a hold-out of at least a week, because on fewer days the legacy forecast can be exact too.
- Ensemble.ForecastIsBounded: says nothing about a path supplied by an external candidate.
- Smoothing.SesPathLoop: is not a one-step forecast, because the code's fitted value already includes the day it is compared with; causality is stated for Croston only.
- Prophet, database sessions, HTTP, Slack, language-model providers, telemetry and audit logging: outcomes of such calls are parameters, tables are maps or sequences.
- HoldoutPooling.EvaluateSkuHoldout: has no branch for an exception inside the ensemble, which exact arithmetic cannot raise.
- Engine resolution, rollout cohorts, automatic promotion, weekly reports, and the fold loop and report of the back test: they assemble figures modelled here.
- TtlCache.TTLCache.constructor: takes no negative size; with one, the source's eviction loop fails on an empty store.
- The Redis cache: a different store, whose two copies can diverge during outages.
- AlertOrders.LegacyAlertOrders: takes sales in whole, non-negative units, as the sales table stores them; returns booked as negative sales are not modelled.
- AlertOrders.BandCriticalMayNotOrder: its figures satisfy the band every bundle has; no history producing exactly these is given.
- ForecastRun.ForecastRunner.ForecastOne: models only the engine, version and fallback flag of a forecast; cached entries are not tied to the current stock, because the key has no stock part. Database exceptions that abort a gather are not modelled.
- SseStream.StreamRoundTrip: payloads are JSON texts without newlines, and which texts parse is a parameter. Decoding bytes to text and stream fields other than data are not modelled.
- PurchaseOrders.AtMostOneDecision: says nothing about total cost, which the code does not update.
- Idempotency.RunsAtMostOnce: covers sequential requests; the code does not serialise concurrent ones with the same key. The size of the in-memory cache is not bounded by the code when entries come from the database.
- ChatLoop.TranscriptIsWellFormed: event emission, token usage, the graph library's recursion limit and exceptions with an empty text are not modelled.
- ChatLoop.ActionsMatchProposals: assumes the stored history holds no tool messages, and identifies an action by the position of its tool message instead of a random id.
- ChatActions.OrdersAreConfirmedActions: covers sequential runs; double confirmation at the same instant, a crash between creating the order and recording it, and the limit of 100 messages searched are not modelled.
- Replenishment.OrderBook.PoDraft: models runs one after the other, so the second look for pending orders right before inserting never finds more. Supplier and cost lookup and the reasoning text are not modelled.
