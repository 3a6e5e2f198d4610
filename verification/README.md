# Trading platform models

A Dafny model of the stateful engines of a market-data and backtesting platform, with proofs
of what each keeps over whole runs. `dafny verify dfyconfig.toml` checks everything.

Objects the program updates in place are classes here; each method is proved to take the
object's abstract state to a function of the old one, and the theorems are lemmas about those
functions over all runs. Clock readings, random draws, database answers, the outcomes of
`select` and hashes are parameters or arbitrary values. Decimals and floats are exact reals.

| files | what they model |
|---|---|
| Sorting | generic stable sorting: uniqueness, insertion, removal of the best element |
| JobQueue | the historical job queue, one caller at a time |
| JobQueueLocks | the same queue with callers interleaved at every lock operation |
| Moments, SampleBuffer, LatencyStats | streaming latency statistics |
| Generator | the test data generator, for every sequence of random draws |
| Dates, SpendTracker | date keys and the two spending ledgers |
| BackfillExecutor, BackfillOverspend, BackfillCharges, BackfillService | backfill requests under spending limits: a state machine, its bound and how it is reached, who is charged, and the object that runs it |
| Series, Bars | bounded series and the bars context |
| Signals, Rsi, Sma, TickBars, Bridge | the three example strategies and the loop that feeds them |
| Cron | calendar schedules |
| Subscriptions | the two-way subscription index |
| Validator | the tick validator |
| CompactTicks | the compact tick codec |
| DbWriter | the batching database writer |
| Registry | instrument ids |
| Options, Arithmetic | shared helpers |

## How the main results fit together

- **Job queue.** The program keeps `pending` sorted by inserting in place. The model keeps
  jobs in arrival order and starts the best one. The class is proved equal to the model, so
  fairness is a statement about arrivals. `JobQueueLocks` splits every operation at its lock
  operations; there too the list is the stable sort of the arrivals, `get` still finds each
  submitted job, and the overrun of the concurrency limit by N callers is bounded by N - 1,
  which some run reaches.
- **Spending.** Limits are checked on request and charged on completion. A call reads the day,
  then the month, then both again to see whether it may go ahead unconfirmed, and other calls
  may come between. A job counts as under way from its first read to its end. The bound in
  `SpendIsBounded` is k - 1 requests, for at most k jobs under way at once, plus whatever was
  confirmed by hand. `OverspendIsReached` reaches it for every k and every number of
  confirmed jobs, and `MonthlyOverspendIsReached` for the month, so neither term can be
  smaller; `RacingChecksOverspend` shows that counting the jobs in flight would not do.
- **Strategies.** All three turn out to follow an opinion: buy when flat and told up, sell
  when long and told down. Alternation and the meaning of the position are proved once.
- **Validator.** The program takes its lock once to check and once to update. The price bound
  is proved with callers interleaved between the two, and holds in particular for one caller.

## Where the code differs from its comments

- `spend_tracker.rs:239` says the last 3 months are kept; the code keeps the months from that
  of 30 days ago on, which is three only on the first days of March (`CleanupKeepsMonths`).
- `metrics.rs:81` speaks of reservoir sampling; the code overwrites slot `count % limit`.
- The cooldown of on-demand backfills never takes effect: a spawned job notes it in its own
  copy of the map (`CooldownNeverRejects`). For the same reason the caller's copy of a job
  never gets past Pending.
- `example_tick_bar_strategy.py:111` catches the ValueError of a malformed integer, but a
  malformed decimal raises another error, so initialization then ends with an exception and
  not with a message (`TickBarStrategy.Initialize`).
- `example_tick_bar_strategy.py:190-198` asks for high volume to sell, but the branch after it
  sells on any volume at half the momentum.

## Model
| member | source | states |
|---|---|---|
| `JobQueues.JobQueue.constructor` | data-manager/src/scheduler/historical.rs:146-154 | starts empty, with a history of 100 |
| `JobQueues.JobQueue.Submit` | data-manager/src/scheduler/historical.rs:157-170 | the job goes behind those of its own or a higher priority and before those of a lower; the new state is the arrival-order model with the job appended |
| `JobQueues.JobQueue.Next` | data-manager/src/scheduler/historical.rs:173-187 | starts the waiting job of the highest priority number, the first to arrive of those that have it; nothing exactly when the limit is reached or no job is pending |
| `JobQueues.JobQueue.Update` | data-manager/src/scheduler/historical.rs:190-195 | sets the progress, capped at 100, and the records of the first running job of that id, and nothing else |
| `JobQueues.JobQueue.Complete` | data-manager/src/scheduler/historical.rs:198-217 | moves the first running job of that id to the head of the history with its final status, the time and the error; the history is the most recent completions, newest first |
| `JobQueues.JobQueue.TrimHistory` | data-manager/src/scheduler/historical.rs:212-215 | keeps the newest entries of the history, up to its limit |
| `JobQueues.JobQueue.Cancel` | data-manager/src/scheduler/historical.rs:220-228 | removes the pending job of that id that would have started first; true exactly when there was one |
| `JobQueues.JobQueue.Get` | data-manager/src/scheduler/historical.rs:231-248 | finds the job in pending, then running, then the kept history; None exactly when it is in none of them |
| `JobQueues.PendingIsTheStableSort` | data-manager/src/scheduler/historical.rs:157-170 | the pending list is the stable sort of the jobs submitted and neither started nor cancelled, and no job in it stands behind one of a lower priority number |
| `JobQueues.RunsAreFair` | data-manager/src/scheduler/historical.rs:157-228 | in every run: the jobs of one priority start in submission order; every submission has started, waits or was cancelled, and no other is left out; running jobs within the limit; statuses, times, progress and errors as the life cycle demands |
| `Sorting.StableSortUnique` | data-manager/src/scheduler/historical.rs:161-166 | two stable sorts of the same jobs are the same list, so inserting in place and sorting by arrival agree |
| `Sorting.InsertIsStable` | data-manager/src/scheduler/historical.rs:161-166 | inserting before the first job of lower priority keeps the list the stable sort of the arrivals |
| `Sorting.TakeFirstIsTakeBest` | data-manager/src/scheduler/historical.rs:180-183 | the first matching job of the sorted list is the best matching one by priority and arrival, and removing it keeps the sort |
| `JobQueueLocks.RunInvariant` | data-manager/src/scheduler/historical.rs:157-258 | every state of every interleaving, split at lock acquire and release, satisfies the whole invariant |
| `JobQueueLocks.GetFindsSubmitted` | data-manager/src/scheduler/historical.rs:231-248 | a get begun after the job was submitted comes back empty only if the job was cancelled or has been pushed out of the history |
| `JobQueueLocks.ExactlyOnePlace` | data-manager/src/scheduler/historical.rs:157-228 | each submitted id is in exactly one of: pending, running, ended, cancelled, or in a move made under a held lock |
| `JobQueueLocks.PlacesAdvance` | data-manager/src/scheduler/historical.rs:157-228 | a step never moves a job backwards: pending, starting, running, ending, finished or cancelled |
| `JobQueueLocks.EqualPrioritiesTakeTurns` | data-manager/src/scheduler/historical.rs:157-228 | in every interleaving the pending list is the stable sort of the waiting jobs in the order in which submit had its lock, no job stands behind one of a lower priority, equal priorities start in that order, and only cancelled jobs are left out |
| `JobQueueLocks.NextTakesTheHighest` | data-manager/src/scheduler/historical.rs:173-187 | in every interleaving a call of next that takes a job takes the first to come of those of the highest priority that wait at that moment, started at that time |
| `JobQueueLocks.StepsAreOperations` | data-manager/src/scheduler/historical.rs:157-228 | the step under the lock does what submit, update and cancel do |
| `JobQueueLocks.NextIsTakeAndPush` | data-manager/src/scheduler/historical.rs:173-187 | with nothing between, taking and pushing a job is what next does |
| `JobQueueLocks.CompleteIsRemoveAndArchive` | data-manager/src/scheduler/historical.rs:198-217 | with nothing between, removing and archiving a job is what complete does |
| `JobQueueLocks.RunningBound` | data-manager/src/scheduler/historical.rs:173-187 | with N callers of next running never exceeds the limit plus N - 1, and with one caller the limit; with a limit of 0, or no caller, nothing ever runs |
| `JobQueueLocks.BoundIsReached` | data-manager/src/scheduler/historical.rs:173-187 | for every limit of at least 1 and every nonempty set of callers some run reaches the limit plus N - 1 |
| `JobQueueLocks.StatsIsASnapshot` | data-manager/src/scheduler/historical.rs:251-258 | the three counts of stats are those of one state, because it holds all three locks to the end |
| `JobQueueLocks.NoDeadlock` | data-manager/src/scheduler/historical.rs:157-258 | while some call is under way some thread can take its next step |
| `Moments.RecordIsExact` | integration-tests/src/metrics.rs:71-75 | Welford's step keeps the mean and the sum of squared deviations exact |
| `Moments.MergeMean` | integration-tests/src/metrics.rs:163-165 | the merged mean is the mean of the concatenation |
| `Moments.MergeDeviations` | integration-tests/src/metrics.rs:166-167 | the merged m2 is the sum of squared deviations of the concatenation |
| `Moments.OrderIrrelevant` | integration-tests/src/metrics.rs:371-381 | the same samples in any order have the same count, sum, extremes, mean and squared deviations |
| `Moments.DeviationsFromSquares` | integration-tests/src/metrics.rs:71-75 | the squared deviations obey the textbook formula: n times them is n times the sum of squares less the square of the sum |
| `Moments.Extremes` | integration-tests/src/metrics.rs:67-68 | the minimum and the maximum are recorded values and bound all of them |
| `Moments.AggregateOrder` | integration-tests/src/metrics.rs:371-381 | folding the strategies in any order gives the same moments |
| `SampleBuffers.BufferIsAll` | integration-tests/src/metrics.rs:77-80 | while there are at most L records the buffer is all of them |
| `SampleBuffers.BufferWhileFilling` | integration-tests/src/metrics.rs:77-86 | between L and 2L records it is the first record and the latest L - 1, and in which slots |
| `SampleBuffers.BufferIsLatest` | integration-tests/src/metrics.rs:77-86 | from 2L records on it is a rotation of the latest L |
| `SampleBuffers.PercentileIsAnOrderStatistic` | integration-tests/src/metrics.rs:120-130 | for 0 <= p <= 100 and n samples the percentile is the sample at the position i of their order with i - 1/2 <= p(n - 1)/100 < i + 1/2: at most i samples are below it, and more than i at or below; other p give the extremes |
| `SampleBuffers.PercentileIsMonotone` | integration-tests/src/metrics.rs:120-130 | a larger p never gives a smaller percentile |
| `LatencyStatistics.LatencyStats.constructor` | integration-tests/src/metrics.rs:48-60 | starts with no record |
| `LatencyStatistics.LatencyStats.Record` | integration-tests/src/metrics.rs:63-87 | all fields are those of the log with the value appended, and the samples those of the buffer function |
| `LatencyStatistics.LatencyStats.Store` | integration-tests/src/metrics.rs:77-86 | fills up, then overwrites the slot count mod limit |
| `LatencyStatistics.LatencyStats.Merge` | integration-tests/src/metrics.rs:148-178 | all fields are those of the two logs concatenated; the samples are extended up to the limit |
| `LatencyStatistics.LatencyStats.Variance` | integration-tests/src/metrics.rs:99-105 | times count - 1 it is the sum of squared deviations from the mean; 0 below two records |
| `LatencyStatistics.LatencyStats.PercentileUs` | integration-tests/src/metrics.rs:120-130 | a recorded value between the minimum and the maximum, at that position of the samples |
| `LatencyStatistics.StrategyMetrics.RecordTick` | integration-tests/src/metrics.rs:218-241 | one more tick received and processed, its time noted as the last and, once, as the first, and its latency recorded when there is one |
| `SampleBuffers.PercentileOfPermuted` | integration-tests/src/metrics.rs:120-130 | a percentile depends on which samples there are, not on their order |
| `LatencyStatistics.Aggregate` | integration-tests/src/metrics.rs:371-381 | the aggregate stands for the concatenation of all logs of the strategies, its total is the sum of the received counts, and its samples are theirs pooled in order up to the limit |
| `LatencyStatistics.PercentilesIgnoreOrder` | integration-tests/src/metrics.rs:174-177 | when all samples together fit each limit the aggregate keeps them all, and its percentiles are the same for every order of the strategies |
| `LatencyStatistics.FirstFillsThePool` | integration-tests/src/metrics.rs:174-177 | when the first strategy's samples fill its limit no other's are kept, so that the order does matter |
| `TestData.Burst` | integration-tests/src/generator.rs:234-240 | tick i of n lies i n-ths into the duration, up to the first tick outside the window; the whole burst when it ends inside the window |
| `TestData.HeavyFor` | integration-tests/src/generator.rs:225-247 | exactly 1000 ticks a second for every sequence of draws, in time order, all in the first quarter of the window and half a millisecond, with a pause of that length in every 50 ticks |
| `TestData.BurstFits` | integration-tests/src/generator.rs:229-246 | by the worst-case time of a burst the next one still fits while budget is left |
| `TestData.LiteFor` | integration-tests/src/generator.rs:293-310 | exactly 25 ticks a second for every jitter, the i-th within 4 ms of i times 40 ms after the start, all inside the window |
| `TestData.NormalFor` | integration-tests/src/generator.rs:260-280 | each tick is where the draws so far lead, at least a microsecond after the one before and inside the window; exactly 250 a second when all draws together stay inside it, and else up to the first that leaves it |
| `TestData.GenerateTimestamps` | integration-tests/src/generator.rs:194-284 | in time order, with each symbol's exact budget (at most it for the random profile) |
| `TestData.SymbolState.UpdatePrice` | integration-tests/src/generator.rs:82-92 | moves a positive price by the fraction drawn, at most a thousandth, and keeps it positive; a price that is not positive becomes 1 |
| `TestData.SymbolState.NextTick` | integration-tests/src/generator.rs:95-128 | the k-th tick has sequence k + 1, size k + 2, alternating side from Buy, and a price within k + 1 steps of the base |
| `TestData.TicksFor` | integration-tests/src/generator.rs:166-171 | one tick for each stamp in order, numbered within its symbol, with exact per-symbol counts |
| `TestData.Generate` | integration-tests/src/generator.rs:145-191 | time-ordered ticks inside the window, numbered by symbol; heavy and lite give exactly the expected total and each symbol exactly its share |
| `TestData.BudgetIsExpected` | integration-tests/src/config.rs:24-36 | the budgets of all symbols add up to the expected tick count |
| `Dates.DayKeyOrder` | data-manager/src/backfill/spend_tracker.rs:231-239 | zero-padded day keys are ordered as the days are, and equal only for equal days |
| `Dates.MonthKeyOrder` | data-manager/src/backfill/spend_tracker.rs:232-245 | zero-padded month keys are ordered as the months are |
| `Dates.DayKeyReads` | data-manager/src/backfill/spend_tracker.rs:231-239 | a day key reads as the four digits of the year, the month and the day, and begins with the month key |
| `Dates.DayBeforeIsAdjacent` | data-manager/src/backfill/spend_tracker.rs:229 | no date lies between a date and the day before it |
| `Dates.MonthLengths` | data-manager/src/backfill/spend_tracker.rs:229 | the lengths of the months, leap years included |
| `Dates.MinusWithinMonth` | data-manager/src/backfill/spend_tracker.rs:229 | n days before a date, for n below its day of the month, is in the same month |
| `Spending.LedgersAgree` | data-manager/src/backfill/spend_tracker.rs:165-246 | in every run each ledger is complete from its cutoff on, and the month ledger covers the retained day records |
| `Spending.DaysMakeTheMonth` | data-manager/src/backfill/spend_tracker.rs:165-187 | adding up the days of a month gives the month |
| `Spending.MonthCoversItsDays` | data-manager/src/backfill/spend_tracker.rs:165-246 | a month's total equals the sum of its retained daily records after the latest cutoff month, and for every month is at least that sum when no amount is negative |
| `Dates.ThirtyDaysAgo` | data-manager/src/backfill/spend_tracker.rs:229 | how many months back the day 30 days ago is |
| `Spending.CleanupKeepsMonths` | data-manager/src/backfill/spend_tracker.rs:228-246 | exactly which months cleanup keeps: this one and the previous one, this one alone on a 31st, one more on the first days of March |
| `Spending.SpendTracker.DailySpend` | data-manager/src/backfill/spend_tracker.rs:76-83 | the total of the records of the day, and of all ever recorded for it unless the day is before a cutoff |
| `Spending.SpendTracker.MonthlySpend` | data-manager/src/backfill/spend_tracker.rs:86-89 | the total counted for the month, and of all ever recorded for it unless before a cutoff |
| `Spending.SpendTracker.WouldExceedLimits` | data-manager/src/backfill/spend_tracker.rs:102-131 | None exactly when the amount fits all three limits, else the first limit it breaks |
| `Spending.SpendTracker.CanAutoApprove` | data-manager/src/backfill/spend_tracker.rs:134-157 | true exactly when enabled, within the threshold and within all limits |
| `Spending.SpendTracker.RecordSpend` | data-manager/src/backfill/spend_tracker.rs:165-187 | both maps still hold the ledger, with the record added |
| `Spending.SpendTracker.CleanupOldRecords` | data-manager/src/backfill/spend_tracker.rs:228-246 | both maps hold the trimmed ledger; today's records and this month's total stay as they were |
| `Backfill.CostIsNonnegative` | data-manager/src/backfill/executor.rs:130-143 | the estimate of a request that does not end before it starts is not negative |
| `BackfillService.CostMeans` | data-manager/src/backfill/executor.rs:130-143 | the estimate is a hundredth for each symbol and whole hour between start and end, counted down to zero either way |
| `BackfillService.RefusalMeans` | data-manager/src/backfill/executor.rs:414-489 | exactly when each check refuses a request: which source passes in which mode, which cooldown holds, which limit breaks, who needs confirmation |
| `BackfillService.CostlyIsRefused` | data-manager/src/backfill/executor.rs:456-468 | a request of more than the per-request limit in symbol-hours is refused for its cost whatever has been spent |
| `Backfill.RunInvariant` | data-manager/src/backfill/executor.rs:414-584 | charged spend plus that of the jobs under way stays within the limit plus their slack, in every state of every interleaving of the calls, read by read |
| `Backfill.SpendIsBounded` | data-manager/src/backfill/executor.rs:456-510 | with callers interleaved between their reads and at most k jobs ever past their first read and not finished, no day or month exceeds its limit by more than k - 1 requests plus the confirmed costs, across rollovers |
| `Backfill.OneAtATimeKeepsTheLimits` | data-manager/src/backfill/executor.rs:456-510 | one job at a time from its first read to its end, and no confirmation: the daily and monthly limits hold |
| `BackfillOverspend.OverspendIsReached` | data-manager/src/backfill/executor.rs:456-557 | for every number n of full-size requests that fill the day, every k and every j (0 only where auto-approval covers the cost), some run with k jobs in flight and j confirmed ends the day at the bound |
| `BackfillOverspend.RacingChecksOverspend` | data-manager/src/backfill/executor.rs:456-557 | so does a run in which k callers pass the checks together and never more than one job is in flight |
| `BackfillOverspend.MonthlyOverspendIsReached` | data-manager/src/backfill/executor.rs:456-557 | the monthly bound is reached too, for every n that fills the month at d requests a day over its remaining days, every k and every such j |
| `BackfillOverspend.ConfirmationBreaksTheLimit` | data-manager/src/backfill/executor.rs:512-557 | confirmation checks nothing again: with never more than one job under way, j jobs stored early take a filled day j requests above its limit |
| `BackfillOverspend.ConfirmKeepsTheLimitIff` | data-manager/src/backfill/executor.rs:512-557 | with nothing else under way confirming keeps the daily, or the monthly, limit exactly when the cost still fits it |
| `BackfillCharges.ChargedAtMostOnce` | data-manager/src/backfill/executor.rs:254-266 | with ids used once and no two calls confirming one job together no job is charged twice |
| `BackfillCharges.OverlappingConfirmsChargeTwice` | data-manager/src/backfill/executor.rs:512-557 | every run in which a job awaits confirmation and one call is confirming it goes on so that a second call confirms it too and it is charged twice more |
| `BackfillCharges.DoubleChargeIsReached` | data-manager/src/backfill/executor.rs:414-557 | for every request that has to be confirmed and fits the limits a run from the start charges it twice, by two calls that confirm it together |
| `BackfillCharges.RunsKeepOnce` | data-manager/src/backfill/executor.rs:414-584 | the caller's jobs never get past Pending, and its cooldown map stays empty |
| `BackfillCharges.CooldownNeverRejects` | data-manager/src/backfill/executor.rs:447-453 | no run reaches a state in which the cooldown check refuses a request |
| `BackfillService.BackfillExecutor.constructor` | data-manager/src/backfill/executor.rs:84-101 | starts with no job, cooldown, flight or charge |
| `BackfillService.BackfillExecutor.Estimate` | data-manager/src/backfill/executor.rs:377-411 | exceeds and auto-approval as the state machine defines them on the full history |
| `BackfillService.BackfillExecutor.AnyInCooldown` | data-manager/src/backfill/executor.rs:447-453 | true exactly when some symbol is in cooldown |
| `BackfillService.BackfillExecutor.CheckRequest` | data-manager/src/backfill/executor.rs:414-489 | the first check that fails, in their order, and what each means |
| `BackfillService.SubmitAtOnce` | data-manager/src/backfill/executor.rs:414-510 | a call whose reads nothing interrupts comes to the checks in order, and spawns or stores its job accordingly |
| `BackfillService.BackfillExecutor.RequestBackfill` | data-manager/src/backfill/executor.rs:414-510 | the checks in order, and the new state of the machine for a call that is not interrupted; a spawned job is in flight, a job to be confirmed is stored |
| `BackfillService.BackfillExecutor.ConfirmRequest` | data-manager/src/backfill/executor.rs:512-557 | spawns exactly a job that awaits confirmation, for a call that is not interrupted |
| `BackfillService.BackfillExecutor.CancelRequest` | data-manager/src/backfill/executor.rs:559-584 | cancels exactly a pending or awaiting job and stops no flight |
| `BackfillService.BackfillExecutor.ExecuteJob` | data-manager/src/backfill/executor.rs:254-266 | ends a flight; success charges its estimate, under its id and today's date, to the shared tracker |
| `SeriesData.RetainedPush` | strategies/_lib/base_strategy.py:194-205 | appending and evicting the oldest gives what a deque of that length retains of the longer history |
| `SeriesData.IndicatorsIgnoreEviction` | strategies/_lib/base_strategy.py:314-376 | each indicator on the retained values is that of the full history for periods within the lookback, and None beyond |
| `SeriesData.ExtremesAreAttained` | strategies/_lib/base_strategy.py:330-360 | highest and lowest are values of the window and bound all of them |
| `SeriesData.SmaIsBetweenExtremes` | strategies/_lib/base_strategy.py:314-360 | lowest <= sma <= highest, and all three exist together |
| `SeriesData.SmaIsTheMean` | strategies/_lib/base_strategy.py:314-328 | the moving average times its period is a difference of two running totals |
| `SeriesData.SumIsDifferenceOfTotals` | strategies/_lib/base_strategy.py:362-375 | a window's sum is the difference of two running totals |
| `SeriesData.Series.constructor` | strategies/_lib/base_strategy.py:149-164 | starts empty; a lookback of 0 or less keeps everything |
| `SeriesData.Series.Push` | strategies/_lib/base_strategy.py:194-205 | the history grows by the value; the held values are its newest ones |
| `SeriesData.Series.Reset` | strategies/_lib/base_strategy.py:263-267 | forgets the values and the bar index, keeps the warmup period |
| `SeriesData.Series.Get` | strategies/_lib/base_strategy.py:207-225 | the value pushed i pushes ago while it is within the lookback, None otherwise |
| `SeriesData.Series.Take` | strategies/_lib/base_strategy.py:277-292 | the newest values first, as many as asked for and held |
| `SeriesData.SmaOf` | strategies/_lib/base_strategy.py:314-328 | the mean of the newest values of the full history, while they are held |
| `SeriesData.HighestOf` | strategies/_lib/base_strategy.py:330-344 | the highest of the newest values of the full history, while they are held |
| `SeriesData.LowestOf` | strategies/_lib/base_strategy.py:346-360 | the lowest of the newest values of the full history, while they are held |
| `SeriesData.SumOf` | strategies/_lib/base_strategy.py:362-375 | the sum of the newest values of the full history, while they are held |
| `Bars.BarsContext.constructor` | strategies/_lib/bars_context.py:33-55 | seven distinct empty series and no custom one |
| `Bars.BarsContext.OnBarUpdate` | strategies/_lib/bars_context.py:57-79 | all seven series hold their column of the bars including the new one; the symbol is taken from the first bar |
| `Bars.BarsContext.Reset` | strategies/_lib/bars_context.py:164-174 | empties all series and drops the custom ones |
| `Bars.BarsContext.Change` | strategies/_lib/bars_context.py:236-240 | the change of the last two closes while both are held |
| `Bars.BarsContext.RegisterSeries` | strategies/_lib/bars_context.py:255-269 | a new empty series under the name |
| `Bars.BarsContext.PushToSeries` | strategies/_lib/bars_context.py:275-290 | pushes to the named series and no other; false exactly when there is none |
| `Signals.TradesAlternate` | strategies/examples/example_sma.py:100-110 | non-hold signals alternate starting with Buy, and the position is long after an odd number of them |
| `Signals.LongIffLastOpinionIsUp` | strategies/examples/example_sma.py:100-110 | long exactly when the last opinion that is not neutral is up |
| `Signals.SignalsMean` | strategies/examples/example_sma.py:100-110 | it buys exactly on an up opinion when flat, and sells exactly on a down opinion when long |
| `Rsi.GainsLessLosses` | strategies/examples/example_rsi.py:126-160 | sum(gains, p) - sum(losses, p) = close[0] - close[p] |
| `Rsi.RsiFromPrices` | strategies/examples/example_rsi.py:146-160 | an RSI is computed exactly when p + 1 closes are held and one of the last p changes is a fall; it is the share of gains in percent, in [0, 100), above 50 exactly when close[0] > close[p] |
| `Rsi.OpinionsIgnoreLookback` | strategies/examples/example_rsi.py:130-160 | any lookback above the period gives the decisions of an unbounded history; a shorter one never trades |
| `Rsi.LongIffLastOversold` | strategies/examples/example_rsi.py:162-174 | long exactly when some bar had an RSI below oversold and none after it one below oversold or above overbought |
| `Rsi.SignalsOnThresholds` | strategies/examples/example_rsi.py:162-174 | bought on a bar exactly when flat before it and its RSI is below oversold, sold exactly when long and its RSI is above overbought |
| `Rsi.RsiStrategy.Initialize` | strategies/examples/example_rsi.py:61-102 | accepts exactly a period of at least 2 and ordered thresholds in [0, 100]; what was read before the refused parameter stays |
| `Rsi.RsiStrategy.SeeBar` | strategies/examples/example_rsi.py:125-141 | gains and losses stay aligned with the close, registered on the first bar; no change exactly while fewer than two closes are held |
| `Rsi.RsiStrategy.CurrentRsi` | strategies/examples/example_rsi.py:144-160 | the RSI of the full close history |
| `Rsi.RsiStrategy.Decide` | strategies/examples/example_rsi.py:162-174 | buys exactly when flat with an RSI below oversold, sells exactly when long with one above overbought |
| `Rsi.RsiStrategy.OnBarData` | strategies/examples/example_rsi.py:110-174 | called once a bar: signal and position are those of the decisions over all closes, in terms of the RSI of each bar and the thresholds |
| `Bridge.RunRsi` | strategies/_lib/bars_context.py:57-66 | when every bar updates the context first and then the strategy sees it once, the signals over a whole run on a fresh context are those of the RSI of each bar against the thresholds, and the trades alternate from Buy |
| `Bridge.RunSma` | strategies/_lib/bars_context.py:57-66 | the same for the crossover strategy and its crossovers |
| `Bridge.RunTickBars` | strategies/_lib/bars_context.py:57-66 | the same for the tick bar strategy and its views |
| `Sma.LongIffShortAbove` | strategies/examples/example_sma.py:88-110 | long exactly when at the last ready bar with unequal averages the short one was above |
| `Sma.SmaStrategy.Initialize` | strategies/examples/example_sma.py:47-73 | accepts exactly well-formed periods with 1 <= short < long, and changes the fields even when it then refuses |
| `Sma.SmaStrategy.OnBarData` | strategies/examples/example_sma.py:75-110 | buys exactly when it last bought not and the short average is above the long one, sells exactly after a buy when it is below; the position is that of the crossovers over all closes |
| `TickBars.EmaStaysWithin` | strategies/examples/example_tick_bar_strategy.py:162-168 | the volume average never leaves an interval that holds the volumes folded in |
| `TickBars.EmaBetweenExtremes` | strategies/examples/example_tick_bar_strategy.py:162-168 | the volume average lies between the lowest and highest volume folded in |
| `TickBars.EmaMeans` | strategies/examples/example_tick_bar_strategy.py:162-168 | the first volume, then four fifths of the average and a fifth of each new volume |
| `TickBars.MomentumIsRelative` | strategies/examples/example_tick_bar_strategy.py:160 | momentum times the open is the move, and is unchanged when open and close are scaled alike |
| `TickBars.LongIffLastRose` | strategies/examples/example_tick_bar_strategy.py:155-210 | long exactly when some ready bar rose by more than the threshold on the volume asked for, and none after it did, or fell by more than half the threshold |
| `TickBars.NoTradesFromFive` | strategies/examples/example_tick_bar_strategy.py:162-188 | with positive volumes a multiplier of 5 or more never trades, since the average is above a fifth of the newest volume |
| `TickBars.SmallerMultipliersTrade` | strategies/examples/example_tick_bar_strategy.py:162-188 | for every smaller multiplier, threshold and lookback some run of positive volumes trades |
| `TickBars.TickBarStrategy.Initialize` | strategies/examples/example_tick_bar_strategy.py:73-112 | reads the parameters in turn up to the first it refuses, which it keeps; accepts exactly 10 or more ticks, 2 or more bars and positive decimals; a malformed decimal raises |
| `TickBars.TickBarStrategy.Trade` | strategies/examples/example_tick_bar_strategy.py:178-210 | the second selling branch covers the first: a fall beyond half the threshold sells at any volume |
| `TickBars.TickBarStrategy.OnBarData` | strategies/examples/example_tick_bar_strategy.py:121-210 | buys exactly when flat on such a rise, sells exactly when long on such a fall; position as for all bars, the average that of the volumes folded in, and an entry price is held exactly with a position |
| `Cron.NextIsLeast` | data-manager/src/scheduler/cron.rs:87-129 | the least later instant of that time of day and weekday; None exactly when the time of day does not exist |
| `Cron.OccursMeans` | data-manager/src/scheduler/cron.rs:92-126 | an instant is an occurrence exactly when the clock, in nanoseconds from a Thursday, shows that hour and minute, no seconds, and on a weekly schedule that weekday |
| `Cron.NextMeans` | data-manager/src/scheduler/cron.rs:87-129 | the next time is the first later instant at which the clock shows so, or so many seconds, minutes or hours ahead |
| `Cron.NextIsMonotone` | data-manager/src/scheduler/cron.rs:87-129 | a later start never gives an earlier occurrence, for every kind of expression |
| `Cron.OccurrencesApart` | data-manager/src/scheduler/cron.rs:92-126 | occurrences are at least a day, or a week, apart |
| `Cron.DueIffOccurred` | data-manager/src/scheduler/cron.rs:51-65 | marked run when the clock read t, due at t' exactly when an occurrence lies in (t, t'] |
| `Cron.DueSinceLastRunIff` | data-manager/src/scheduler/cron.rs:51-65 | being due agrees with the noted last run exactly when no occurrence fell between the two clock readings of mark_run, or the next one after them has come |
| `Cron.AlwaysDueSinceLastRunIff` | data-manager/src/scheduler/cron.rs:51-65 | they agree at all later times exactly when the first occurrence after the first reading is after the second |
| `Cron.RunAnswers` | data-manager/src/scheduler/cron.rs:27-65 | in every run with any number of pollers the firings answer occurrences since the creation, and distinct ones while none is seen by two pollers before either marks it |
| `Cron.FiringsNeverOutnumberOccurrences` | data-manager/src/scheduler/cron.rs:192-206 | under that condition a schedule fires at most once for each occurrence since it was created |
| `Cron.OnePollerNeverDoubles` | data-manager/src/scheduler/cron.rs:192-206 | one poller that marks before it polls again meets the condition |
| `Cron.SeenTwiceFiresTwice` | data-manager/src/scheduler/cron.rs:192-206 | without it the schedule fires twice for the occurrence |
| `Cron.DoubleFiringIsReached` | data-manager/src/scheduler/cron.rs:192-206 | from every new calendar schedule with an occurrence to come a run fires for it twice |
| `Cron.FiringsAreRare` | data-manager/src/scheduler/cron.rs:27-65 | under the same condition (firings - 1) days, or weeks, fit within the run |
| `Cron.Scheduler.AddSchedule` | data-manager/src/scheduler/cron.rs:160-164 | adds or replaces under the name |
| `Cron.Scheduler.RemoveSchedule` | data-manager/src/scheduler/cron.rs:167-169 | true exactly when it was there |
| `Cron.Scheduler.Enable` | data-manager/src/scheduler/cron.rs:172-179 | enables exactly a known schedule |
| `Cron.Scheduler.Disable` | data-manager/src/scheduler/cron.rs:182-189 | disables exactly a known schedule |
| `Cron.Scheduler.MarkRun` | data-manager/src/scheduler/cron.rs:202-206 | reschedules exactly a known schedule |
| `Cron.Scheduler.DueSchedules` | data-manager/src/scheduler/cron.rs:192-199 | exactly the due schedules, each once |
| `Subscriptions.AddKeepsMirror` | data-manager/src/subscription/manager.rs:143-151 | one pair added to both maps keeps them in agreement |
| `Subscriptions.RemoveKeepsMirror` | data-manager/src/subscription/manager.rs:172-180 | one pair removed from both keeps them in agreement, and drops a symbol with its last consumer |
| `Subscriptions.MirrorIsUnique` | data-manager/src/subscription/manager.rs:113-118 | the subscriptions determine the other map |
| `Subscriptions.TotalsAgree` | data-manager/src/subscription/manager.rs:260-270 | the symbols of all consumers and the consumers of all symbols add up to the same |
| `Subscriptions.NewSymbolsAreNew` | data-manager/src/subscription/manager.rs:142-151 | the symbols reported as added are the requested ones not had before, each once |
| `Subscriptions.SubscriptionManager.Subscribe` | data-manager/src/subscription/manager.rs:130-164 | adds the symbols to the consumer, reports the new ones and the total; both maps agree |
| `Subscriptions.SubscriptionManager.Unsubscribe` | data-manager/src/subscription/manager.rs:167-190 | takes the symbols from a known consumer, which stays known; both maps agree |
| `Subscriptions.SubscriptionManager.UnsubscribeAll` | data-manager/src/subscription/manager.rs:193-211 | forgets the consumer and nothing else; both maps agree |
| `Subscriptions.SubscriptionManager.RecordMessageSent` | data-manager/src/subscription/manager.rs:252-257 | one more message for a known consumer |
| `Subscriptions.SubscriptionManager.ConsumersFor` | data-manager/src/subscription/manager.rs:214-220 | exactly the consumers subscribed to the symbol |
| `Subscriptions.SubscriptionManager.HasSubscribers` | data-manager/src/subscription/manager.rs:243-249 | true exactly when some consumer has the symbol |
| `Subscriptions.SubscriptionManager.GetStats` | data-manager/src/subscription/manager.rs:260-270 | total_subscriptions is also the sum of the consumer-set sizes over all symbols |
| `Validation.VerdictMeaning` | data-manager/src/validation/validator.rs:262-296 | accepted exactly when all fields are in order and the price did not jump; a jump is reported only for a tick otherwise in order |
| `Validation.FieldErrorsMean` | data-manager/src/validation/validator.rs:320-400 | exactly when each error of symbol, exchange and trade id is given, character ranges included |
| `Validation.ErrorsInOrder` | data-manager/src/validation/validator.rs:298-424 | the checks go in the order price, size, symbol, exchange, trade id, time, and exactly when each of the others is given |
| `Validation.NotSuspicious` | data-manager/src/validation/validator.rs:426-446 | an accepted change, by the override for its symbol or else the default c, keeps the price within q(1 - c/100) and q(1 + c/100), and conversely |
| `Validation.AcceptedPricesAreBounded` | data-manager/src/validation/validator.rs:262-280 | n accepted ticks keep the price within p0(1 - c/100)^n (c up to 100) and p0(1 + c/100)^n, also when callers interleave between check and update |
| `Validation.SingleFileKeepsTheLimit` | data-manager/src/validation/validator.rs:262-280 | while at most one tick of a symbol is between its check and its write, every stored price is within the limit of the one it replaces |
| `Validation.EveryTickCanJump` | data-manager/src/validation/validator.rs:426-451 | under every positive limit every tick in order has a price and a first tick with which it passes and then jumps |
| `Validation.JumpsNeedAPositiveLimit` | data-manager/src/validation/validator.rs:426-446 | no two ticks can do so under any other limit |
| `Validation.InterleavedChecksJump` | data-manager/src/validation/validator.rs:262-280 | two callers that check before either writes then store those two prices one after the other |
| `Validation.SymbolsAreIndependent` | data-manager/src/validation/validator.rs:426-451 | the last price of a symbol depends only on its own ticks |
| `Validation.VerdictsAreIndependent` | data-manager/src/validation/validator.rs:262-296 | so does the verdict on a tick, however other symbols' ticks interleave |
| `Validation.ValidateIsCheckThenWrite` | data-manager/src/validation/validator.rs:262-280 | validate is a check and a write of what passed |
| `Validation.TickValidator.ValidateReadonly` | data-manager/src/validation/validator.rs:282-296 | the verdict, with nothing changed |
| `Validation.TickValidator.Validate` | data-manager/src/validation/validator.rs:262-280 | the same verdict; only an accepted tick changes the last prices, and only its symbol's |
| `Validation.TickValidator.CheckSymbol` | data-manager/src/validation/validator.rs:320-345 | the first failing symbol check, and what each means |
| `Validation.TickValidator.CheckExchange` | data-manager/src/validation/validator.rs:347-371 | the first failing exchange check, and what each means |
| `Validation.TickValidator.CheckTradeId` | data-manager/src/validation/validator.rs:373-400 | the first failing trade id check, and what each means |
| `Validation.TickValidator.ClearPriceHistory` | data-manager/src/validation/validator.rs:460-463 | no last price is left |
| `CompactTicks.FixedPointError` | data-manager/src/schema/market_data.rs:326-335 | the error is below 10^-8 exactly when the scaled value fits 64 bits, and always toward zero |
| `CompactTicks.FixedMeans` | data-manager/src/schema/market_data.rs:326-335 | the encoded integer is the price in hundred-millionths cut toward zero, or 0 when that does not fit 64 bits |
| `CompactTicks.FieldsMean` | data-manager/src/schema/market_data.rs:301-357 | what each field of the compact form is: times, price, size, side, flag, hash, and names of 31, 15 and 15 bytes padded with NULs |
| `CompactTicks.FixedPointRoundTrip` | data-manager/src/schema/market_data.rs:326-335 | a decoded fixed-point value encodes to itself |
| `CompactTicks.NameRoundTrip` | data-manager/src/schema/market_data.rs:311-324 | a name survives exactly when it fits its buffer and does not end in NUL |
| `CompactTicks.DecodeEncode` | data-manager/src/schema/market_data.rs:301-396 | field by field, exactly what a tick keeps through the compact form |
| `CompactTicks.EncodedIsCanonical` | data-manager/src/schema/market_data.rs:301-357 | what encoding produces: side 0 or 1, one flag, NUL-ended buffers of fixed size |
| `CompactTicks.EncodeDecode` | data-manager/src/schema/market_data.rs:301-396 | every canonical form is restored by decoding and encoding, but for the hash |
| `CompactTicks.ReencodingIsStable` | data-manager/src/schema/market_data.rs:301-396 | an encoded tick decodes and encodes to the same fields, and to the same hash when its names fit |
| `CompactTicks.FillName` | data-manager/src/schema/market_data.rs:311-324 | the buffer filled byte by byte is the cut name padded with NULs |
| `CompactTicks.FromNormalized` | data-manager/src/schema/market_data.rs:301-357 | the compact form of the tick |
| `DbWriting.StepKeepsInv` | integration-tests/src/db_writer.rs:251-301 | each turn of the loop keeps: flushed batches then current batch are the ticks taken in order; the batch below max(1, batch size), empty on exit |
| `DbWriting.StepCounts` | integration-tests/src/db_writer.rs:304-336 | each flushed tick is written, a duplicate or dropped |
| `DbWriting.TurnsMean` | integration-tests/src/db_writer.rs:264-336 | what each turn flushes and counts: a received tick the batch it fills, a closed channel and a timeout whatever there is, whether or not the loop is to stop |
| `DbWriting.NothingIsLostOrReordered` | integration-tests/src/db_writer.rs:251-336 | in every run flushed, batch and channel are the ticks sent in order; a loop that ended flushed everything exactly when the channel was left empty, always so after a close |
| `DbWriting.DrainedStays` | integration-tests/src/db_writer.rs:212-223 | no senders and an empty channel stay so |
| `DbWriting.StopFlushesIffDrained` | integration-tests/src/db_writer.rs:251-298 | once the running flag is cleared, every way the loop can end flushes all ticks sent exactly when by then every sender was dropped and the channel was empty |
| `DbWriting.StopCanLeaveTicks` | integration-tests/src/db_writer.rs:212-223 | stopping as the program does, the flag first and then the sender, can leave a sent tick although no sender is left |
| `DbWriting.RunKeepsInv` | integration-tests/src/db_writer.rs:251-301 | any sequence of select outcomes keeps the invariant |
| `DbWriting.Writer.FlushBatch` | integration-tests/src/db_writer.rs:304-336 | counts the batch as written or dropped and empties it |
| `DbWriting.Writer.WriteLoop` | integration-tests/src/db_writer.rs:251-301 | the imperative loop ends in the state the step function gives |
| `Registry.SameKey` | data-manager/src/instruments/registry.rs:197 | exactly which pairs share a cache key: the same ones, and those split at another '@' of one text |
| `Registry.PairsIgnoreCase` | data-manager/src/instruments/registry.rs:194-196 | names that differ only in case are one pair, and others are not |
| `Registry.CallsIgnoreCase` | data-manager/src/instruments/registry.rs:194-233 | so calls with such names do the same and give the same id |
| `Registry.KeyIsInjective` | data-manager/src/instruments/registry.rs:197 | keys are distinct when no exchange, or no symbol, contains '@' |
| `Registry.RunInvariant` | data-manager/src/instruments/registry.rs:158-345 | in every run, restarts included: ids are distinct, each cached id is the stored row's and its reverse lookup the pair; with preload every row is cached |
| `Registry.IdChangesExactly` | data-manager/src/instruments/registry.rs:304-345 | a row is never removed, and its id changes exactly when its pair is registered while not cached, with another id that no row has |
| `Registry.IdsStayUntilOverwritten` | data-manager/src/instruments/registry.rs:158-345 | in every run, restarts included, a pair keeps its id until such a step |
| `Registry.IdsNeverChange` | data-manager/src/instruments/registry.rs:158-345 | with preload, or without registrations, a pair keeps its id for ever |
| `Registry.ReturnedIdIsStored` | data-manager/src/instruments/registry.rs:194-233 | what get_or_create returns is the stored id; with the database up it fails exactly when the hash is another pair's id |
| `Registry.CollisionsShareAnId` | data-manager/src/instruments/registry.rs:194-233 | in a fresh registry a second pair is given the first one's id exactly when they share a key, and is then never stored |
| `Registry.AtSignsCollide` | data-manager/src/instruments/registry.rs:197 | two pairs that share a key |
| `Registry.EmptyStartChangesAnId` | data-manager/src/instruments/registry.rs:138-145 | without preload a registration overwrites the id of a stored pair |
| `Registry.InstrumentRegistry.constructor` | data-manager/src/instruments/registry.rs:123-185 | loads every row, or none |
| `Registry.InstrumentRegistry.GetOrCreateId` | data-manager/src/instruments/registry.rs:194-233 | the id and the new state, through cache, table and insert |
| `Registry.InstrumentRegistry.Get` | data-manager/src/instruments/registry.rs:236-248 | the cached id, else the stored one, and creates nothing |
| `Registry.InstrumentRegistry.GetById` | data-manager/src/instruments/registry.rs:251-253 | while the invariant holds, known exactly for the id of a cached row, and the row's pair |
| `Registry.InstrumentRegistry.RegisterDatabentoId` | data-manager/src/instruments/registry.rs:304-345 | caches and stores the id unless the pair is cached or the id is another row's |
| `Registry.Database.TryInsert` | config/schema.sql:583-600 | the row is there afterwards unless the id is taken |
| `Registry.Database.TryUpsert` | data-manager/src/instruments/registry.rs:325-338 | the row has the id afterwards unless another row has it |

## Left out

- Rounding of floats and of decimals beyond 28 digits, and overflow of machine integers
  except where the code checks for it (the compact tick's 64-bit fields).
- Non-ASCII names: Unicode upper-casing and character classes, and names cut mid-character.
- Recording with a sample limit of 0 and a lite window of zero seconds: both divide by zero in
  the program, and are excluded by preconditions.
- `sum_sq_us`, which the program never updates, and the threshold checks of `validate` in the
  test results: they only compare.
- Exact draws of the random generator and the names of its symbols: draws are arbitrary
  values of their ranges, symbols are numbers.
- JobQueueLocks.GetFindsSubmitted: assumes that submitted ids are fresh, as random UUIDs are.
- Backfill.SpendIsBounded: for requests that do not end before they start, whose estimate is
  not negative, and a validated configuration.
- BackfillCharges.ChargedAtMostOnce: for runs in which no request reuses an id.
- Backfill.Apply: the checks before the first read of the spend are one step with it, and so
  are storing a job and copying the map for its task.
- The fetching and batch inserting of a backfill job, its record counts, and gap detection.
- BackfillService.BackfillExecutor.RequestBackfill: a call that is not interrupted; module
  Backfill has the interleaved ones.
- Bridge.RunRsi: the Rust side of the bridge, with Python errors and the circuit breaker that
  stops calling a strategy after too many of them.
- Timestamps of subscriptions, jobs and requests that nothing reads.
- FloatSeries, whose methods are those of DecimalSeries, and the remaining one-line helpers
  of the bars context.
- Rsi.RsiStrategy.OnBarData: called once for every bar on a context on which nobody else
  registers "gains" or "losses"; a strategy that is called more often pushes more often.
- Registry.RunInvariant: one process at a time, exchanges without '@', and a database call that
  fails leaves no row behind; names over the column width count as failed calls.
- DbWriting.NothingIsLostOrReordered: a send after the loop has ended, or after the channel
  closed, fails and is no step of a run; the received counter, which other senders bypass, is
  not modelled.
- Cron.NextIsLeast: instants are unbounded, without leap seconds.
- Order in which hash maps are walked: the members concerned return sets or say that the
  order is open.
- SQL, connection pools, sockets, provider clients, shared memory, the desktop shell, the
  command line, logging and metrics export.
