# A model of the click analytics service

The service shortens links, redirects visitors and counts their clicks. This project models the parts in
which something can go wrong between two steps, with Redis and Postgres as explicit state and every
outside call allowed to fail, or to take effect while its reply is lost.

**Click pipeline** (`Clicks`, `Store`, `Pipeline`, `PipelineInvariant`, `PipelineSteps`, `PipelineTheorems`,
`PipelineLosses`, `PipelineMoves`, `ClickProcessing`, `ClickWorkers`). A redirect offers its click to a
bounded channel, 64 workers turn clicks into entries of a trimmed Redis stream, and any number of concurrent
batch runs read the stream with `XREADGROUP ">"`, classify each message, insert the rows in one transaction
and then acknowledge. `Pipeline` has one event for each step of each party and for each fault; its states
carry a history (which entry each row came from, which entries were skipped or trimmed away unread).
`PipelineInvariant` and `PipelineSteps` prove the invariant over every interleaving, `PipelineTheorems`
reads the results off it, and `PipelineLosses` says how an entry that was read can fail to be logged.
`PipelineMoves` says where each step takes a click, exactly when a click is dropped or fails, and that the
whole way to the log is open. `ClickProcessing` has `ProcessPendingClicks` as it is written, with its loops,
proved equal to its effect, and the effect proved to be a run of the steps. `ClickWorkers` has the channel,
the pool and the drain.

**Rollup** (`Queries`, `Rollup`, `RollupTheorems`, `Figures`, `Sums`, `Accounting`, `EndToEnd`). `Queries`
gives the SQL statements their grouping and distinct-count meaning over a growing `click_logs`, and
separately says what a link's figures for a day are. `Rollup` has `Aggregate` with its guard, its four
statements, the loops that build nested maps from rows in any order, and the batched updates in any order,
while other transactions commit rows between the statements. `RollupTheorems` connects the two over every
history; `Accounting` follows the scheduled runs from day to day and balances `daily_stats` against
`links.total_clicks`; `Figures` says what each figure means in terms of the columns of the logged rows;
`Sums` is about sums that count a click or a visitor more than once. `EndToEnd` joins rollup and pipeline.

**Caches** (`RedisKeys`, `LinkCache`, `LinkHandlers`, `StatsCache`, `StatsHandlers`). Create,
get-miss-fill and delete of the link cache, and the read, three queries and write of the stats cache, as
steps that interleave, fail, crash and expire; then the handlers as they are written, one request at a time,
proved equal to runs of those steps. `RedisKeys` shows that the families of keys in the shared Redis do not
collide, and `StatsCache` uses that: other families write and delete keys in its runs.

Conventions: times are in microseconds UTC, dates are day numbers, integers are unbounded. The source's
`clicked_at::date` is the UTC day. `md5`, the address parsers, the slug encoder and the calendar (day number
to date) are uninterpreted functions; all results hold for any of them that meet the stated conditions.
`slug` is a `CHAR(11)` column, whose comparison ignores trailing blanks: `Slugs.Unpadded` is what the
database compares, while Redis keys compare exactly.

## Where the code and its documentation differ, and what is not true of the code

- The readme says that the processed key prevents double aggregation. A second committed run of the same
  request leaves `total_clicks` alone exactly when its guard was answered, after a SET of the first run that
  took effect less than seven days before, or when there is nothing to count; otherwise it adds all clicks
  since the window's start again (`RollupTheorems.RerunCountsAgain`). The key being there when the second
  run commits is not enough: the guard may have been read before the SET, with no fault and no overlap of
  the transactions (`RollupTheorems.GuardReadTooEarly`). Over a fixed log `daily_stats` is not affected by
  reruns (`RollupTheorems.RepeatedPasses`); over a grown log a rerun brings the rows up to date.
- The first successful guarded run of a day freezes that day for every link, with or without clicks so far,
  as long as later runs read the guard after its SET: a link's figures are right at any later time exactly
  if no click of that link and day was logged since the run's first statement
  (`Accounting.FirstRunDecides`). A run whose guard was read earlier rolls the day up once more.
- Two aggregations in flight at once add both of their counts to `total_clicks`, and the later one may bring
  the click count of a day back to an older log (`RollupTheorems.OverlappingRuns`).
- `total_clicks` is increased without an upper bound in time. A run that crosses midnight, or finds rows
  dated ahead, counts clicks of later days, which are counted again on their own day:
  `Accounting.CrossDayAccounting` states the balance with these early rows, for every dating of the rows.
- Entries of a batch whose run ends without acknowledging it are never read again. This is exactly how an
  entry gets stuck: `PipelineLosses.BecomesOrphan` and `OrphanedUnread` say which steps do it, and
  `PipelineLosses.PendingForGood` that a pending entry can never leave the pending list if and only if it
  is in no batch.
- A lookup that fails for a transient reason is treated like a missing link: the click is acknowledged
  without a row. `PipelineLosses.SkippedIffNotInsertable` gives the exact condition in every run, and
  `PipelineLosses.NoClickGivenUp` the runs in which no click is lost this way.
- The link cache is not transparent when a fill overlaps a delete, when the DEL fails, or when a slug was
  requested with trailing blanks; the last needs no fault and no overlap
  (`LinkCache.PaddedSpellingStaysStale`). `LinkCache.CarefulIsTransparent` shows these are the only causes,
  and `LinkCache.StaleAtMostThirtyDays` bounds the damage.
- The totals of a stats response ignore the requested date range (`StatsCache.SummaryIgnoresRange`), which
  the readme's example suggests they obey.
- A request id that is not a scheduled one can share its mark with a stats key
  (`RedisKeys.UnscheduledCollision` says for which slugs).
- The readme says that `CopyFrom` is not used for the insert; the code uses it, and so does the model.

## Model

| member | source | states |
|---|---|---|
| Slugs.UnpaddedMeaning | migrations/000001_initial_tables.up.sql:1-9 | what equality of CHAR(11) slugs ignores: trailing blanks and nothing else |
| Store.DeliveryLength | internal/redis/stream.go:23-31 | a group is handed everything it has not read yet, up to 1000 entries |
| Store.GroupStartsAtTheBeginning | internal/redis/stream.go:15-21 | a new group will be handed the oldest entry the stream has, an existing one reads on |
| Store.RowIffInsertable | internal/worker/process_clicks.go:65-85 | a message gets a row if and only if it decodes, its slug is that of a live link and its lookup does not fail |
| Clicks.RowMeaning | internal/worker/process_clicks.go:87-104 | each column of a logged row: an address only if it parses, with or without a port; empty referers and agents become null; no country |
| Clicks.RecordsAreOrderedFilterMap | internal/worker/process_clicks.go:62-106 | the collected records are the order-preserving filter-map of the insertable messages: strictly increasing positions, each of them insertable, none left out |
| PipelineSteps.StepKeeps | internal/worker/process_clicks.go:40-160 | each step of redirect, click worker, stream, batch run, link change, fault or crash keeps the invariant: batches are disjoint, a row has one entry of origin, an entry below the cursor is lost, pending, logged or skipped |
| PipelineSteps.EveryRunKeeps | internal/worker/process_clicks.go:40-160 | the invariant holds after every run, for any number of interleaved batch runs |
| PipelineSteps.ReadOwnRun | internal/redis/stream.go:23-41 | what a read with ">" hands out was never delivered, logged or skipped before |
| PipelineSteps.ClassifiedRight | internal/worker/process_clicks.go:65-106 | a record kept by the loop is the one its entry should yield, for the link its slug was given to |
| PipelineTheorems.AtMostOnceLogging | internal/redis/stream.go:23-41 | in every reachable state each stream entry accounts for at most one row of click_logs, and that row has the data of the entry |
| PipelineTheorems.ClickLoggedAtMostOnce | internal/handler/link.go:157-193 | without repeated XADDs each redirect's click is logged at most once, with the data the redirect recorded and the link its slug belongs to |
| PipelineTheorems.AckSafety | internal/worker/process_clicks.go:108-113 | an entry has left the pending list only if its row is committed or it was skipped; for what reason, `PipelineLosses.SkippedIffNotInsertable` says |
| PipelineTheorems.EntryPlaces | internal/worker/process_clicks.go:40-160 | each stream entry is undelivered, trimmed unread, pending without a row, given up or logged, and exactly one of these |
| PipelineTheorems.ClickPlaces | internal/handler/link.go:64-69 | each offered click is dropped, in the channel, held by a worker, failed at the XADD or sent, and exactly one of these |
| PipelineTheorems.ClickCounts | internal/handler/link.go:166-170 | those places add up to the clicks offered, in every reachable state |
| PipelineTheorems.EntryCounts | internal/redis/stream.go:23-48 | the places of the entries add up to the entries ever added, with the logged ones counted by the rows themselves |
| PipelineTheorems.Conservation | internal/handler/link.go:184-193 | with one entry per successful XADD all nine places together add up to the clicks offered |
| PipelineTheorems.NothingLostBelowLimit | internal/handler/link.go:184-191 | trimming loses no undelivered entry in any run whose backlog stays below 100000 |
| PipelineTheorems.EveryClickHasOnePlace | internal/handler/link.go:157-193 | without repeated XADDs each single click is in exactly one of the nine places |
| PipelineTheorems.LogOnlyGrows | internal/worker/process_clicks.go:140-152 | no step of the pipeline changes or removes a logged row |
| PipelineLosses.BecomesOrphan | internal/worker/process_clicks.go:108-156 | an entry of a batch becomes an orphan, pending and in no batch, if and only if its run ends by a crash, a failed copy, a failed or unanswered commit, or a failed ack |
| PipelineLosses.OrphanIsUnlogged | internal/worker/process_clicks.go:115-152 | such an entry has no row, unless the commit took effect |
| PipelineLosses.LostReadOrphans | internal/redis/stream.go:23-41 | a read whose reply is lost orphans everything it delivered, without a row |
| PipelineLosses.OrphanedUnread | internal/redis/stream.go:23-41 | an entry that was not pending becomes an orphan if and only if a read hands it out and its reply is lost |
| PipelineLosses.OrphansStay | internal/redis/stream.go:24-30 | an orphan stays pending in every continuation, and gets a row in none |
| PipelineLosses.PendingForGood | internal/redis/stream.go:24-30 | a pending entry stays pending in every continuation if and only if it is an orphan |
| PipelineLosses.SkippedIffNotInsertable | internal/worker/process_clicks.go:65-85 | in every run, an entry was skipped if and only if a batch run looked at it at a moment when it was not insertable |
| PipelineLosses.NoClickGivenUp | internal/worker/process_clicks.go:80-85 | without failing lookups and deletions, clicks of existing links are never skipped: skipped entries are foreign and do not decode |
| PipelineMoves.OfferedIsAt | internal/handler/link.go:166-170 | an offered click is queued if the channel holds fewer than 10000, else dropped |
| PipelineMoves.TakenIsAt | internal/handler/link.go:64-69 | a free one of the 64 workers takes the oldest queued click, and the others keep their order |
| PipelineMoves.AddedIsAt | internal/handler/link.go:184-193 | an XADD puts the click, with its payload, at the end of the stream, unread |
| PipelineMoves.ForeignIsAdded | internal/redis/stream.go:10-13 | anybody else's entry goes there too, and is nobody's click |
| PipelineMoves.ReleasedIsAt | internal/handler/link.go:184-193 | a worker that returns before its XADD took effect has failed the click |
| PipelineMoves.CrashedIsAt | internal/handler/link.go:51-57 | queued and held clicks do not survive the process |
| PipelineMoves.TrimKeepsTheNewest | internal/handler/link.go:184-191 | trimming keeps the newest 100000 entries and loses exactly the unread ones among the trimmed |
| PipelineMoves.MayTrimDownToTheLimit | internal/handler/link.go:186-187 | and it may go down to that limit |
| PipelineMoves.DeletedIsNotFound | internal/db/links.sql.go:94-99 | a deleted link is no longer found for its clicks, and every other slug leads where it did |
| PipelineMoves.CreatedIsFound | internal/db/links.sql.go:116-121 | a created link is found, unless its slug was ever taken |
| PipelineMoves.DroppedIffFull | internal/handler/link.go:166-170 | in every run a click was dropped if and only if it was offered while the channel held 10000 |
| PipelineMoves.FailedIffUnsent | internal/handler/link.go:64-69 | in every run a click failed if and only if its worker returned or the process died before its XADD took effect |
| PipelineMoves.ClickCanBeLogged | internal/worker/process_clicks.go:40-160 | whatever happened before, with an idle worker, an empty channel and a backlog below 1000, a click of a live link can be taken all the way into the log |
| ClickProcessing.RedisClient.EnsureStreamExists | internal/redis/stream.go:15-21 | an existing group keeps its cursor, a new one starts at the beginning, and a lost reply is reported as a failure |
| ClickProcessing.RedisClient.ReadPendingClicks | internal/redis/stream.go:23-41 | cursor and pending list move whether or not the reply arrives; without a group the call fails; the caller gets the next batch, whose size `Store.DeliveryLength` gives, or nothing |
| ClickProcessing.RedisClient.AckClicks | internal/redis/stream.go:43-48 | exactly the given ids leave the pending list; no ids, no command |
| ClickProcessing.Database.Commit | internal/worker/process_clicks.go:140-152 | all rows or none, and an unknown outcome is reported as a failure |
| ClickProcessing.ClickProcessor.ClassifyBatch | internal/worker/process_clicks.go:62-106 | the loop collects every id of the batch in order and exactly the specified records |
| ClickProcessing.ClickProcessor.BuildRows | internal/worker/process_clicks.go:128-138 | the array filled in place is the rows of the records, with a null country |
| ClickProcessing.ClickProcessor.ProcessPendingClicks | internal/worker/process_clicks.go:40-160 | stream, log and error of the method are those of the batch effect, for every outcome of its calls |
| ClickProcessing.AllWell | internal/worker/process_clicks.go:140-160 | a run whose operations succeed adds exactly its insertable messages, leaves none of its entries pending, and reads a backlog of at most 1000 to its end |
| ClickProcessing.FailsIff | internal/worker/process_clicks.go:43-46 | a run reports an error if and only if its read failed, or a message was insertable and begin, copy or commit failed |
| ClickProcessing.FailureAcksNothing | internal/worker/process_clicks.go:115-152 | a failing run acknowledges nothing and adds either no row or, only after a lost commit reply, all of them |
| ClickProcessing.RunRefinesSteps | internal/worker/process_clicks.go:40-160 | the batch effect is what a sequence of pipeline steps does, and no run is left behind |
| ClickWorkers.WorkerPool.constructor | internal/handler/link.go:42-57 | an open, empty channel and 64 idle workers |
| ClickWorkers.WorkerPool.Offer | internal/handler/link.go:166-170 | the click is queued unless the channel holds 10000 already, in which case nothing changes |
| ClickWorkers.WorkerPool.Receive | internal/handler/link.go:64-69 | the head of the channel, and only it, is handed to the XADD |
| ClickWorkers.WorkerPool.WorkerStep | internal/handler/link.go:64-69 | every worker step keeps handed plus queued payloads as they were and makes queue, in-flight work or live workers smaller, in that order |
| ClickWorkers.WorkerPool.Stop | internal/handler/link.go:59-62 | the drain ends under every schedule, and then each accepted payload was handed over exactly once, in order, and each call has returned |
| Rollup.NestedUnique | internal/worker/stats_aggregate.go:91-98 | the set of rows determines the nested map, so the order of rows cannot matter |
| Rollup.HistogramsAreNested | internal/db/analytics.sql.go:177-183 | the rows of the grouping query hold exactly the histograms of the log |
| Rollup.BuildNested | internal/worker/stats_aggregate.go:91-98 | the loop builds the direct histograms from the rows in any order; plain assignment loses nothing |
| Rollup.ApplyUpdates | internal/worker/stats_aggregate.go:100-116 | the queued updates give the same table in any order and touch only existing rows |
| Rollup.StatsAggregator.SetColumn | internal/worker/stats_aggregate.go:78-120 | query, loop and batch together set one column to the histograms of the log as this statement sees it |
| Rollup.StatsAggregator.Aggregate | internal/worker/stats_aggregate.go:41-183 | tables, marks and error of the method for every outcome of guard, statements, commit and SET, with rows arriving between statements |
| RollupTheorems.RolledUpAt | internal/worker/stats_aggregate.go:69-160 | for whole-day windows: what the statements, loops and batches do to each single link-day |
| RollupTheorems.Bracketing | internal/worker/stats_aggregate.go:69-165 | clicks and visitors are those of the log at the first statement, countries and referers those at the second and third, each a prefix of the next |
| RollupTheorems.AggregateBrackets | internal/worker/stats_aggregate.go:54-169 | after any history, a committed aggregation leaves in each row and each total the figures of four logs s1 <= s2 <= s3 <= s4 that lie between begin and commit |
| RollupTheorems.RollupIsDirect | internal/db/analytics.sql.go:293-307 | without commits between the statements every link-day of the window has exactly the direct count, distinct visitors and histograms, and other rows are unchanged |
| RollupTheorems.EveryHistoryKeepsSupport | internal/worker/stats_aggregate.go:100-120 | over every history a row stands for logged clicks and a filled column for logged values, which is why an old column may stay |
| RollupTheorems.EveryRowIsTraced | internal/worker/stats_aggregate.go:69-169 | after every history the figures of every row are those of three prefixes s1 <= s2 <= s3 of the log |
| RollupTheorems.AggregateIsExact | internal/worker/stats_aggregate.go:41-183 | after any history from empty tables, a committed undisturbed aggregation leaves its window exactly as the log has it |
| RollupTheorems.RepeatedPasses | internal/db/analytics.sql.go:303-306 | a history of n >= 1 committed, undisturbed runs of Aggregate over the same days leaves daily_stats as one pass does and raises each total by n times the increment of one pass |
| RollupTheorems.MarkedRerunChangesNothing | internal/worker/stats_aggregate.go:43-49 | while the mark lives, a rerun of the same request changes nothing |
| RollupTheorems.FailedRunChangesNothing | internal/worker/stats_aggregate.go:59-65 | a rolled-back run changes no table and sets no mark |
| RollupTheorems.AggregateReports | internal/worker/stats_aggregate.go:41-183 | a run fails if and only if it is not skipped and not known to be committed; what others commit meanwhile stays in the log; without an own commit nothing else moves |
| RollupTheorems.MarkLives | internal/worker/stats_aggregate.go:171-174 | a mark lives for seven days from its SET, and no other mark is touched |
| RollupTheorems.RerunCountsAgain | internal/worker/stats_aggregate.go:43-49 | with rows committed during and between both runs: a second committed run adds all clicks since the start again, unless its guard was answered after a SET that took effect and lives; and which of both it does decides whether a total changes |
| RollupTheorems.GuardReadTooEarly | internal/worker/stats_aggregate.go:167-174 | one click, no fault: total 1 if the second guard is read after the SET, 2 if before, although the key lives when the second run commits |
| RollupTheorems.OverlappingRuns | internal/worker/stats_aggregate.go:54-169 | of two aggregations in flight at once, rows are those of the later pass, with the earlier one's counts where it saw no click, and totals grow by both counts |
| RollupTheorems.WindowsCompose | internal/worker/stats_aggregate.go:51-52 | rolling up [a, c) equals rolling up [a, b) and [b, c) in either order |
| Queries.Incremented | internal/db/links.sql.go:76-87 | each total grows by the link's rows strictly after the start, without an upper bound; other totals stay |
| Queries.AlignedHistRows | internal/db/analytics.sql.go:177-183 | for whole days the grouping rows are exactly the entries of the day's histograms |
| Queries.DayMeaning | internal/db/analytics.sql.go:293-302 | days are 24 hours each, from the epoch on, and a time is of the day between whose start and end it lies |
| Queries.CountIsPlaces | internal/db/analytics.sql.go:293-302 | counting rows is counting their positions in the log |
| Figures.ReferersMeaning | internal/db/analytics.sql.go:177-183 | a day's referers are the values of the referer column among its clicks, with the number of rows of each |
| Figures.CountriesMeaning | internal/db/analytics.sql.go:70-76 | a day's countries are the values of the country column likewise |
| Figures.ReferersAddUp | internal/db/analytics.sql.go:177-183 | a day's referer values add up to its clicks whose referer is not null |
| Figures.VisitorsMeaning | internal/db/analytics.sql.go:299 | visitors are the hashes of address and agent together; rows with equal texts are one visitor |
| Figures.VisitorsAreTexts | internal/db/analytics.sql.go:299 | for a hash without collisions they are as many as the distinct texts |
| Figures.DirectDescribes | internal/db/analytics.sql.go:293-302 | all four figures in terms of link, time, address, agent, country and referer of the logged rows |
| Figures.AggregateDescribes | internal/worker/stats_aggregate.go:41-183 | after any history, a committed undisturbed aggregation leaves for each link and day with clicks a row that describes these clicks |
| Sums.HistogramSum | internal/db/analytics.sql.go:177-183 | a day's histogram adds up to its clicks with a value, hence at most to its clicks |
| Sums.VisitorBounds | internal/db/analytics.sql.go:293-302 | 1 <= unique visitors <= distinct (address, agent) pairs <= clicks on a day with clicks |
| Sums.DailyUniquesOvercount | internal/db/analytics.sql.go:157-163 | daily uniques added up are at least the distinct visitors of the days together, each day with its own rolled-up log |
| Sums.SummaryOvercountsVisitors | internal/db/analytics.sql.go:157-163 | the summary's visitors are at least the link's distinct visitors over all rolled-up clicks, however much was logged since |
| Sums.SummaryMeaning | internal/db/analytics.sql.go:157-163 | both sums run over exactly the link's rows, each taking its own column |
| EndToEnd.SummaryAfterHistory | internal/db/analytics.sql.go:157-163 | after any history the summary is the clicks of the prefixes its rows were taken from, and at least the distinct visitors among just these |
| EndToEnd.RowsBelowOffers | internal/worker/process_clicks.go:80-106 | with one entry per click and no foreign entries, a link has at most as many rows as clicks were offered for its slug |
| EndToEnd.SummedClicksWereOffered | internal/handler/stats.go:83-88 | for all runs of pipeline and schedule together: a link's summed daily clicks are at most the clicks offered for its slug, its total at most these plus the early rows |
| Accounting.RuntimeWindowIsToday | cmd/worker/main.go:141-147 | the window computed at run time is the whole UTC day of the clock, under that day's request id; a payload's own window is left alone |
| Accounting.WindowsReconcile | internal/db/links.sql.go:76-87 | the half-open day count and the strict unbounded count differ by exactly the rows stamped at midnight and the rows of later days |
| Accounting.RunKeeps | cmd/worker/main.go:130-149 | the books balance after every run of waits, inserts and scheduled aggregations, from every balanced state |
| Accounting.CrossDayAccounting | cmd/worker/main.go:141-147 | for every dating of the rows: summed daily clicks plus late and early rows equal the total plus midnight rows; the sum is at most the link's rows in the log, the total at most these plus the early rows |
| Accounting.PunctualAccounting | cmd/worker/main.go:141-147 | if no row arrives before its own day, there are no early rows and both sum and total are at most the link's rows |
| Accounting.QuietAccounting | internal/worker/stats_aggregate.go:163-174 | if in addition nothing is committed between statements, the sum is the total plus the rows stamped at midnight |
| Accounting.RolledDayStays | internal/worker/stats_aggregate.go:43-49 | a day once rolled up keeps its row, or its absence, in every continuation |
| Accounting.DayIsRightIffNothingFollows | cmd/worker/main.go:137-147 | a rolled-up day's click count, with or without a row, stays right if and only if no further click of that link and day is logged |
| Accounting.RowIsRightIffNothingFollows | cmd/worker/main.go:137-147 | the same for all figures of the row |
| Accounting.FirstRunDecides | cmd/worker/main.go:137-147 | after a day's first run, and whatever is committed during it, each link's row of that day is right if and only if none of its clicks was logged since the first statement |
| Accounting.DayAsItGoes | cmd/worker/main.go:137-147 | one day of one link: the first click is counted once in both figures, a click after the first run in neither |
| Accounting.BetweenRuns | cmd/worker/main.go:141-147 | the clock runs and clicks are logged between the runs |
| RedisKeys.StatsKeyInjective | internal/handler/stats.go:65-66 | the stats key determines slug and both dates, even with colons in the slug |
| RedisKeys.LinkKeyInjective | internal/handler/link.go:123 | the link key determines the slug |
| RedisKeys.ScheduledKeyInjective | internal/worker/stats_aggregate.go:37-39 | two scheduled runs share a mark only if they are of the same day |
| RedisKeys.FamiliesAreDisjoint | internal/handler/stats.go:65-66 | stats, link, scheduled-mark and stream keys never coincide, for any slug and date |
| RedisKeys.UnscheduledCollision | internal/worker/stats_aggregate.go:37-39 | some other request id shares its mark with a stats key if and only if the slug is `processed` or starts with `processed:` |
| RedisKeys.FormatIsRead | internal/handler/stats.go:65-66 | a formatted date reads as itself |
| RedisKeys.KeysAsStored | internal/handler/stats.go:65-66 | the keys as they are stored |
| LinkCache.StepGrows | internal/db/links.sql.go:94-121 | no step removes a link, changes its slug or url, or undeletes it |
| LinkCache.StepKeepsOwner | internal/db/links.sql.go:116-121 | no step gives a slug to a second link, deleted ones included |
| LinkCache.LookupMeaning | internal/db/links.sql.go:55-60 | the lookup finds the url of the live link with that slug, and nothing exactly if there is none |
| LinkCache.ValueIntegrity | internal/handler/link.go:135-153 | under every interleaving and fault, what is cached or served for a slug is the url of the one link that ever had it |
| LinkCache.CarefulIsTransparent | internal/handler/link.go:135-153 | in runs with working DELs, unpadded spellings and no write overlapping a delete, every cached slug is live and GetLink answers as the database alone would |
| LinkCache.NoRedirectAfterDelete | internal/handler/link.go:196-212 | in such runs no request that is decided after a delete has completed is answered with a redirect to the link |
| LinkCache.StaleArises | internal/handler/link.go:149-151 | a step makes a cached slug stale if and only if it deletes the link while that spelling is cached or fills in a deleted link |
| LinkCache.StaleHasCause | internal/handler/link.go:200-205 | a stale entry implies an overlap, a failed DEL or a padded spelling |
| LinkCache.PaddedSpellingStaysStale | internal/db/links.sql.go:55-60 | any live link: visited under its padded slug and then deleted, it stays cached, without overlap or fault |
| LinkCache.FailedDelStaysStale | internal/handler/link.go:200-203 | any live link: a DEL that fails leaves it cached, without overlap |
| LinkCache.OverlapStaysStale | internal/handler/link.go:196-212 | any live link: a fill across its delete leaves it cached, with every call succeeding |
| LinkCache.StaleAtMostThirtyDays | internal/handler/link.go:149-151 | whatever overlaps and fails, once the pending writes of a deleted link are through no redirect for it is served 30 days later or after |
| LinkCache.FilledForThirtyDays | internal/handler/link.go:149-151 | a filled entry is a hit for 30 days, and no other entry is touched |
| LinkCache.FaultsTakeOneThing | internal/handler/link.go:131-153 | an eviction takes one entry and a crash one request |
| LinkHandlers.CreationSteps | internal/handler/link.go:88-126 | creating a link, undisturbed, is a run of the cache's steps |
| LinkHandlers.RedirectionSteps | internal/handler/link.go:131-153 | answering a redirect, undisturbed, is a run of the cache's steps |
| LinkHandlers.RemovalSteps | internal/handler/link.go:196-212 | deleting a link, undisturbed, is a run of the cache's steps |
| LinkHandlers.AloneKeeps | internal/handler/link.go:131-153 | requests one after the other keep the invariants of the cache |
| LinkHandlers.RemovalTouchesOneSlug | internal/db/links.sql.go:94-99 | a delete changes no link with another slug and clears at most the entry of its spelling |
| LinkHandlers.LinkHandler.CreateLink | internal/handler/link.go:71-129 | whole new state; a link is created if and only if its commit is answered, its slug fits 11 characters and no link, deleted or not, has it; it is then found under its slug, and all other links stay |
| LinkHandlers.LinkHandler.Target | internal/handler/link.go:138-148 | the cached url on a hit, else what the database finds |
| LinkHandlers.LinkHandler.GetLink | internal/handler/link.go:131-173 | whole new state; the answer is the database's own while nothing stale is cached, and always the url of the link that owns the slug |
| LinkHandlers.LinkHandler.DeleteLink | internal/handler/link.go:196-214 | whole new state; afterwards the database does not find the slug, nor does GetLink if the DEL was done |
| StatsCache.DefaultsShareTheKey | internal/handler/stats.go:49-66 | a request and a default request share an entry if and only if their days coincide, whatever the time of day |
| StatsCache.CacheKeysApart | internal/handler/stats.go:65-66 | the key of a request meets what the cache's steps need: distinct requests, and no key of another family |
| StatsCache.RowIsListed | internal/db/analytics.sql.go:115-122 | exactly the link's rows from start to end, both included, are listed |
| StatsCache.LatestFirst | internal/db/analytics.sql.go:115-122 | the rows come in strictly descending order of date |
| StatsCache.ResponseListsRange | internal/handler/stats.go:89-117 | a response lists exactly the link's days in the range, each with all figures of its own row |
| StatsCache.SummaryIgnoresRange | internal/handler/stats.go:83-94 | the summary is at least the sum of the listed days, and equal if and only if the link has no clicks outside the range |
| StatsCache.VisitorsIgnoreRange | internal/handler/stats.go:83-94 | the same for the visitors |
| StatsCache.ResponseTotals | internal/handler/stats.go:119-124 | the slug is the one asked for, and the totals are the sums of the two columns over the link's rows |
| StatsCache.ResponseLatestFirst | internal/handler/stats.go:101-117 | the days of a response come latest first |
| StatsCache.RunKeeps | internal/handler/stats.go:68-132 | the invariant of the cache over every run with changing tables, foreign keys, faults, expiry and crashes |
| StatsCache.HitsAreFresh | internal/handler/stats.go:68-74 | a hit is the last response written for the same slug and dates, less than 60 seconds ago, computed after its own miss |
| StatsCache.ServedResponses | internal/handler/stats.go:126-132 | every response served was computed for its own request, a miss's from states no older than the one it began at, a hit's as the repetition of a write less than 60 seconds old |
| StatsCache.QuietResponseIsCurrent | internal/handler/stats.go:76-94 | while the tables stand still since a miss, its response is what a database-only read gives |
| StatsCache.WrittenForSixtySeconds | internal/handler/stats.go:126-129 | a written response is a hit for 60 seconds, and no other key is touched |
| StatsCache.OutsideSteps | internal/handler/stats.go:68-94 | an eviction takes one key, a crash one request, and a commit is what is read from then on |
| StatsCache.OthersWrite | internal/handler/link.go:123-126 | the other families write and delete keys of their own in every run |
| StatsHandlers.RequestSteps | internal/handler/stats.go:64-132 | an undisturbed request is a run of the cache's steps, with the same answer and the same cache |
| StatsHandlers.StatsHandler.ReadRange | internal/handler/stats.go:48-62 | readable dates replace the defaults of the last 30 days |
| StatsHandlers.StatsHandler.GetLinkID | internal/db/links.sql.go:55-60 | the live link of the slug, if any |
| StatsHandlers.StatsHandler.Summary | internal/db/analytics.sql.go:157-163 | both sums over all days of the link |
| StatsHandlers.StatsHandler.BuildDaily | internal/handler/stats.go:101-117 | the loop maps every row, in order |
| StatsHandlers.StatsHandler.Compute | internal/handler/stats.go:76-124 | the three queries give the database's own response, or nothing if one of them fails |
| StatsHandlers.StatsHandler.Respond | internal/handler/stats.go:68-132 | the same under a given key: a hit ends the request, a miss runs the queries and writes |
| StatsHandlers.StatsHandler.GetStats | internal/handler/stats.go:44-133 | answer and cache after the call; a hit does not renew its entry, a failing query writes nothing, and a computed answer carries the slug asked for |

## Left out

- HTTP routing, middleware, rate limiting, request validation, health and ping handlers, configuration, logging and deployment.
- The sqids encoder: slugs are an arbitrary function of the link id without trailing blanks; distinctness comes from the UNIQUE constraint.
- JSON: a message is missing data, malformed or decoded; a cached response decodes to what was encoded. `md5`, host and address parsing, and the calendar are uninterpreted.
- 64-bit overflow of counters, and the rounding of Go's nanoseconds to the database's microseconds.
- Loss of Redis data, XDEL, XCLAIM, XAUTOCLAIM and removal of the group: nothing in the repository issues these commands. A repeated XADD of the client is a second XADD event, so claims are per stream entry.
- Queue and retry machinery of asynq: runs and retries start at any time, any number at once.
- Lock waits and deadlocks of two aggregations in flight at once: `RollupTheorems.OverlappingRuns` takes as given that the one that commits later has waited for the other's rows. In the histories of `RollupTheorems` and `Accounting` aggregations follow one another, and only inserts happen between their statements.
- Windows that are not made of whole days, and session time zones other than UTC, in the results of `RollupTheorems` and `Accounting`; `Rollup` itself takes any window.
- `links` rows inserted or deleted while an aggregation runs: totals are kept per link id, starting at 0.
- The stream's health metrics, the paginated click log queries and GetLinkByID: reads without consequences for the above.
- Accounting.CrossDayAccounting: covers runs whose guard answers, is read after the SETs of the runs before and is set, with a known commit outcome; without these the two sums can differ by whole passes (`RollupTheorems.RerunCountsAgain`).
- Accounting.RunKeeps: takes it as given that different days have different request ids, which `RedisKeys.ScheduledKeyInjective` proves for four-digit years.
- ClickProcessing.ClickProcessor.ProcessPendingClicks: no other party moves between the steps of one call here; interleavings are covered by `Pipeline`, of whose steps the call is shown to consist.
- PipelineTheorems.ClickPlaces: an XADD takes effect, if at all, before its worker returns or the process dies. An XADD that Redis carries out later than that is not modelled; such a click would count as failed and still appear in the stream.
- LinkCache.NoRedirectAfterDelete: a request is answered at the instant it reads the cache or makes its last cache write; responses that are decided but still on their way when a delete completes are not followed.
- LinkHandlers.LinkHandler.GetLink: the click that the handler also offers to the channel is `ClickWorkers.WorkerPool.Offer`; the two classes are the two halves of one handler.
- RollupTheorems.FailedRunChangesNothing: a commit whose reply is lost reports a failure although it took effect, so that case is excluded.
