# EDGAR Radar, modelled and verified

EDGAR Radar watches SEC filings: a poller finds new filings, a pipeline of workers parses, scores and alerts on
them, an API serves the results through a response cache over a lagging replica, and a set of transformations turn
SEC's documents into annual figures, ratio scores and risk-factor comparisons. These Dafny files model that logic and
prove what the system relies on. `dafny verify dfyconfig.toml` checks everything.

| file | what it holds |
|---|---|
| `RateLimiter.dfy`, `Retry.dfy` | the token bucket in front of SEC, in every interleaving of callers and timers; any number of retrying fetches over it; the budget the services share |
| `Alerting.dfy` | the heartbeat's two checks on the poller and the once-per-outage rule |
| `Poller.dfy` | filing discovery: window, ledger, queue, cursor, quarantine, through cycles that may stop after any write |
| `Pipeline.dfy` | the three workers behind the queues, with redelivery, concurrent attempts and stops anywhere |
| `ResponseCache.dfy` | cache-aside reads over a lagging replica, double deletion, TTL; readers and writers as timed interleavings |
| `AnnualFacts.dfy` | the choice of a tag and of one fact a year from a companyfacts document |
| `FactStore.dfy` | the fact table: gate, upsert, annual query and current view |
| `Ingestion.dfy` | storing a company's facts, and why the query reads back what was chosen |
| `Reconciliation.dfy` | the compare-and-correct step against SEC's bulk file |
| `Scoring.dfy`, `Scores.dfy`, `ScoreFormulas.dfy`, `SgaSkip.dfy` | derived series, year alignment, the three scores and what they are in the values of the series, and what the skip in deriving SG&A costs |
| `StoredScores.dfy` | from SEC's document through the fact table to a score |
| `Text.dfy`, `Sentences.dfy`, `Chunking.dfy`, `ChunksDetermined.dfy` | cutting a risk-factor section into chunks, and exactly what text is lost |
| `Embeddings.dfy`, `RiskFactorDiff.dfy` | unit vectors, best matches and the diff |
| `Common.dfy` | the optional value and facts about sequences, sets and products |

Time is integer milliseconds, dates are numbers that order as the text does, money and ratios are reals. Tables are
maps and sets, queues are sequences or multisets. Where the program mutates state, a class with the same fields and
methods is proved against a step function, and the results are about every run of those steps. Crashes, redeliveries,
failed deletions, evictions and refused deliveries are steps or parameters of steps.

## Results

- **Cache.** Each cached body records the reads it was built from. If replica lag and build time together stay within
  the 2000 ms repeat, nothing served for the company after a write's second deletion holds a read of the written table
  that misses the write, whichever endpoint and whatever the interleaving (`ResponseCache.SecondDeletionEndsStaleness`);
  for scores and financials, computed on the primary, the lag does not count. The bound is exact: for every larger sum
  there is a run that leaves a stale body (`ResponseCache.BeyondTheBoundStaleBodiesSurvive`,
  `ResponseCache.LongBuildsLeaveStaleScores`). Entries nothing touches are served for exactly five minutes.
- **Discovery.** A completed cycle moves the cursor exactly if every company not quarantined at its start was fetched
  (`Poller.CursorAfterCycle`). No sequence of failures and stops lets the cursor skip a filing dated within the window
  (`Poller.NeverSkipped`); outside the window a filing is lost for good (`Poller.BehindForever`), which is what a
  quarantine and the sliding default start can cause.
- **Pipeline.** At most one of each effect always (`Pipeline.AtMostOnce`); exactly one of each if and only if no attempt
  stopped between winning a claim and its effect (`Pipeline.ExactlyOnceIffNoneLost`).
- **SEC budget.** A sliding-window bound for any run of the bucket; every request of every fetch, retries included, has an
  admission of its own, so the requests sent obey the bound too, and the four services stay within ten a second.
- **Alerts.** Exactly one alert for each witnessed outage when checks are atomic; when they are not, every race of a
  recovery with a check hides an outage that is witnessed, for both kinds of check.
- **Figures.** What `annualFacts` selects is proved from a declarative specification, and the SQL query returns exactly
  that after ingestion, for any number of years up to any year; the fact table does not depend on ingestion order; a
  reconciled fact is reported again exactly when the gate refuses it or a later filing of its period is stored, and
  otherwise every later view shows the bulk file's value.
- **Scores.** Each is proved, for every table of series, to be its formula in the values those series list for the
  newest complete year (`ScoreFormulas.AltmanMeans`, `PiotroskiMeans`, `BeneishMeans`), derived figures and divisions by
  zero included. All three ignore the unit of account, and the Altman score of a stored company is a function of SEC's
  document alone. The skip in deriving liabilities and gross profit is harmless. The one for SG&A is not: it is proved
  when it loses a derivation, when that costs a newer year and when it changes the M-Score's outcome at all, each as an
  equivalence, with a company that loses its score.
- **Risk factors.** The chunks hold, in order, nothing but characters of the text's lines that are neither empty nor
  noise; the chunker's contract leaves one possible result for each text; nothing but whitespace of those lines is lost
  exactly when every long piece starts a sentence and leaves at most one word unfinished. A text compared with itself
  shows nothing new or modified.

## Where the code and its comments differ

- `src/riskFactorDiff.ts:9-10` says long pieces are split so that nothing gets cut off. The sentence pattern drops the
  unfinished end of a piece, but for its last word, and a leading terminator (`Sentences.UnfinishedSentenceIsLost`,
  `ChunksDetermined.TextWithUnfinishedSentence`). The model follows the code and proves when nothing is lost.
- `src/scoring.ts:180` gives the grey zone as 1.1 to 2.6; in the code a score of exactly 1.1 is distress
  (`Scores.AltmanBounds`).
- `src/poller.ts:33` says each filing is enqueued exactly once. It is once, plus once for every stop between the enqueue
  and its record (`Poller.EnqueuedOncePlusStops`, with such a run in `Poller.StopEnqueuesTwice`), as the comment at
  `src/poller.ts:119-122` allows.
- `src/scoring.ts:66-67` says that where the parts are not read no derivation could give a newer common year. For SG&A,
  whose parts are not among the figures, one can (`SgaSkip.SkipCostsAScore`).
- `src/alerting.ts:50-54` says an alert newer than the last success means the outage was reported. With a success between
  a check's read and its record it does not (`Alerting.RaceHidesAnOutage`).

## Model

| member | source | states |
|---|---|---|
| `RateLimiter.TokenBucket.constructor` | src/rateLimiter.ts:17-23 | the bucket starts full, nobody waiting, at the given time |
| `RateLimiter.TokenBucket.Refill` | src/rateLimiter.ts:25-30 | the whole new state is the refill step's, capped at the capacity |
| `RateLimiter.TokenBucket.Join` | src/rateLimiter.ts:32-37 | a call queues its caller behind all earlier ones and changes nothing else |
| `RateLimiter.TokenBucket.TakeToken` | src/rateLimiter.ts:38-49 | the head of the queue leaves; the new state, a wait included, is the serve step's |
| `RateLimiter.CallersLeaveInOrder` | src/rateLimiter.ts:32-49 | over every run, callers let through followed by callers waiting are all callers in call order |
| `RateLimiter.StepKeepsInv` | src/rateLimiter.ts:25-49 | every step keeps a bound on each stretch of admissions and on how far the balance may have fallen since each |
| `RateLimiter.WaitIsExact` | src/rateLimiter.ts:41-44 | the wait is exactly as long as it takes to make up one token |
| `RateLimiter.AdmittedWhen` | src/rateLimiter.ts:38-49 | the head is let through at once exactly if a whole token is there after the refill, otherwise when its timer fires |
| `RateLimiter.WindowBound` | src/rateLimiter.ts:25-49 | in any run with a non-decreasing clock and timers at most `early` ms early, a window of any length admits at most capacity plus rate times length plus `early` |
| `RateLimiter.BudgetHolds` | docker-compose.yml:19-28 | the four configured services together admit at most ten requests in any second, whatever each does |
| `RateLimiter.ShareInOneSecond` | src/sec.ts:24-26 | whatever its rate and burst, a service admits in any second at most its burst, its share and what an early timer adds |
| `Retry.StepKeepsUsedOnce` | src/sec.ts:52-57 | in every interleaving of fetches, no admission is used for two requests |
| `Retry.StepKeepsPaid` | src/sec.ts:52-57 | every request went out on an admission of its own caller's, soon after it |
| `Retry.StepKeepsCounted` | src/retry.ts:32-48 | attempts count the requests sent, and a fetch is never further than its retries allow |
| `Retry.AttemptsAreBounded` | src/retry.ts:26-50 | over any run a fetch sends at most one request more than its retries, and ends on a failed connection or a 5xx answer only after all of them |
| `Retry.WhatIsTriedAgain` | src/retry.ts:20-25 | an answer leads to another attempt exactly if it is a failed connection or a 5xx and retries are left; a 404 ends the fetch |
| `Retry.RequestsInWindow` | src/sec.ts:46-57 | of all fetches together, retries included, no window sees more requests than the bucket's bound for a window longer by the sending delay |
| `Retry.RequestBudgetHolds` | docker-compose.yml:19-28 | the four services together send at most ten requests in any second, however often each retries |
| `Retry.SecClient.Do` | src/sec.ts:52-57 | each step of a fetch on the client's fields and its bucket is the machine's |
| `Retry.SecClient.SecFetch` | src/retry.ts:26-50 | with other fetches acting at any time in between, the call waits for a token before each attempt, tries again only after a failed connection or a 5xx answer, and returns the first other answer or the last attempt's outcome |
| `Alerting.Heartbeat.SendOncePerOutage` | src/alerting.ts:56-77 | sends and records unless the outage was already reported; a refused delivery is thrown and nothing is recorded |
| `Alerting.Heartbeat.CheckPollerHeartbeat` | src/alerting.ts:101-122 | one silence check is one step of the alerting machine; it throws exactly when it decides to send and delivery fails |
| `Alerting.Heartbeat.CheckPollerFailures` | src/alerting.ts:144-165 | the same for the blocked-poller check, dating the outage from the newest healthy run |
| `Alerting.OutageStartIsStable` | src/alerting.ts:56-77 | until the poller recovers, no event moves the start of the outage |
| `Alerting.WhenSilenceIsReported` | src/alerting.ts:105-120 | with working delivery an alert goes out and is recorded exactly if more than the threshold's minutes have passed since the last completed run, or since monitoring began, and none of its kind is newer than that run |
| `Alerting.WhenFailureIsReported` | src/alerting.ts:145-163 | and exactly if the last two completed runs both failed for more than half of their companies and no alert of its kind is newer than every healthy run |
| `Alerting.OncePerOutage` | src/alerting.ts:56-77 | while the poller does not recover exactly one alert is delivered if the outage was unreported and some check with working delivery saw it, else none |
| `Alerting.AlertsBetweenRecoveries` | src/alerting.ts:101-165 | from empty tables, between two recoveries one alert if such a check saw the outage, zero if none did, for both kinds |
| `Alerting.RaceSuppressesNextOutage` | src/alerting.ts:62-75 | for both kinds, a recovery landing between a check's decision and its record silences every check until the next recovery |
| `Alerting.RaceHidesAnOutage` | src/alerting.ts:62-75 | and every such race can hide an outage that a check with working delivery sees |
| `Poller.FilingPoller.SelectNew` | src/poller.ts:94-100 | the loop's result is the in-window, unrecorded filings |
| `Poller.NewFilingsAre` | src/poller.ts:94-100 | a filing is selected exactly when it is listed, in the window and not in the ledger; distinctness is kept |
| `Poller.NewFilingsInOrder` | src/poller.ts:94-100 | the selection is the filings at increasing positions of the document, all those and only those in the window and not in the ledger |
| `Poller.FilingPoller.RecordFailure` | src/repositories/failingCompanyRepository.ts:21-39 | makes the failure writes, as many as there is room for before a stop |
| `Poller.FifthFailureQuarantines` | src/repositories/failingCompanyRepository.ts:21-39 | failures in a row add to the count, whatever it was, and quarantine from the fifth on and not before |
| `Poller.FilingPoller.AnnounceAll` | src/poller.ts:107-124 | enqueues then records each filing in order; a stop leaves exactly a prefix of these writes |
| `Poller.FilingPoller.CheckCompany` | src/poller.ts:58-124 | a quarantined company is passed over and never counts as missed, a failed fetch is counted, otherwise the industry is written and what is new announced; a stop leaves a prefix of the writes |
| `Poller.FilingPoller.CheckAll` | src/poller.ts:58-125 | the loop makes the companies' writes in order, each from the state the earlier ones left, up to a stop |
| `Poller.FilingPoller.RunPollCycle` | src/poller.ts:44-146 | the state after a cycle is the writes it got to make; a finished cycle reports how many jobs it queued and, of distinct companies, how many that were not quarantined when it started could not be fetched, and moves the cursor exactly if none |
| `Poller.CursorAfterCycle` | src/poller.ts:127-139 | a completed cycle moves the cursor to its own start exactly if every company not quarantined when it started was fetched; anything else leaves it |
| `Poller.RowsAfterCycle` | src/poller.ts:58-87 | what a completed cycle over distinct companies does to each one's failure row and industry: one more failure and quarantine from the fifth, the industry its document has, or nothing |
| `Poller.QueueAfterCycle` | src/poller.ts:58-123 | its new jobs are appended company after company and in document order, each for a listed filing in the window, unrecorded at the start, of a company not quarantined |
| `Poller.CycleKeepsTrack` | src/poller.ts:48-139 | one cycle, stopped anywhere, keeps a filing recorded or ahead of the cursor, and records it if it got the document |
| `Poller.NeverSkipped` | src/poller.ts:94-139 | over any run of cycles and outside changes to failure rows, a filing dated at most two days before it appeared, of a never-quarantined company, is never skipped and is recorded by the first cycle that gets its document |
| `Poller.FoundIffInWindow` | src/poller.ts:48-100 | a completed cycle that got the document records an unrecorded listed filing exactly when its date is at most two days before that of the stored cursor, or of a day before now with none stored |
| `Poller.EnqueuedOncePlusStops` | src/poller.ts:99-124 | over any run an accession is enqueued once if recorded plus once per stop between enqueue and record; the ledger holds only what was enqueued |
| `Poller.StopEnqueuesTwice` | src/poller.ts:114-123 | for every filing in the window, a run with one such stop that enqueues it twice |
| `Poller.BehindForever` | src/poller.ts:48-50 | a filing dated before the cursor's window is never recorded by any later run |
| `Poller.SlidingDefaultLoses` | src/repositories/pollerRepository.ts:11-20 | with no cursor stored, a filing more than three days old at the first clean cycle is lost |
| `Poller.QuarantineIsPassedOver` | src/poller.ts:61-63 | if every other company not quarantined was fetched, a completed cycle moves the cursor past a quarantined company, whatever its own fetch would give, and its filing is behind exactly if it is dated before the new window |
| `Pipeline.Workers.ClaimStage` | src/repositories/stageCompletionRepository.ts:12-20 | true exactly for the call that inserts the row; the table gains that row and no other |
| `Pipeline.Workers.ProcessFilingDiscovered` | src/parserWorker.ts:85-101 | an attempt, stopped at any point, is a legal run of the machine's steps |
| `Pipeline.Workers.ProcessFilingParsed` | src/scoringWorker.ts:53-70 | the same for the scoring worker |
| `Pipeline.Workers.ProcessScoresUpdated` | src/notificationWorker.ts:49-67 | the same for the notification worker, which checks for watchers before claiming |
| `Pipeline.AttemptOutcome` | src/parserWorker.ts:85-101 | what one undisturbed attempt comes to for each stop point, claimed before or not |
| `Pipeline.StepBalances` | src/repositories/stageCompletionRepository.ts:12-20 | every step keeps the account: a claim is spent on one effect, held by one attempt, or lost with one |
| `Pipeline.AtMostOnce` | src/repositories/stageCompletionRepository.ts:12-20 | over every run of concurrent, redelivered and stopped attempts: at most one of each effect for a filing, none without the one before it |
| `Pipeline.EffectsAtRest` | src/parserWorker.ts:85-101 | with nothing in flight, each claimed stage had its effect once or was lost once |
| `Pipeline.ExactlyOnceIffNoneLost` | src/notificationWorker.ts:52-66 | once all jobs are worked off, a discovered, watched filing has exactly one of each effect if and only if no claim of it was lost |
| `Pipeline.LostForGood` | src/scoringWorker.ts:53-70 | after a stop between claim and effect no redelivery ever produces the effect |
| `ResponseCache.Cache.Warn` | src/cache.ts:113-118 | logs at most one warning in thirty seconds, and does log the first |
| `ResponseCache.Cache.Get` | src/cache.ts:137-144 | a live entry or nothing; a failed read is a miss; no entry's life is extended |
| `ResponseCache.Cache.Set` | src/cache.ts:145-151 | stores with a full TTL, or changes nothing when Redis is away |
| `ResponseCache.Cache.Delete` | src/cache.ts:128-134 | removes exactly the keys, or nothing when Redis is away |
| `ResponseCache.Cache.Invalidate` | src/cache.ts:152-156 | deletes now and schedules the second deletion 2000 ms on, even when the first fails; no keys, no effect |
| `ResponseCache.Cache.RunScheduled` | src/cache.ts:155 | the due deletion runs and leaves the schedule |
| `ResponseCache.Cache.SendIfCached` | src/routes/cachedResponse.ts:17-22 | sends the live entry or nothing |
| `ResponseCache.Cache.SendAndCache` | src/routes/cachedResponse.ts:29-36 | the body is sent; it is stored only if it is not null |
| `ResponseCache.ReadDb.Query` | src/db.ts:97-112 | the primary answers during the cooldown or when the replica fails, and only a failure starts a cooldown |
| `ResponseCache.AddReadIsFresh` | src/routes/companies.ts:36-45 | a body keeps holding, in each read, every commit older than that database's lag at its first read |
| `ResponseCache.StepKeepsInv` | src/routes/companies.ts:84-182 | every step of readers, writers, clock and eviction keeps cached and half-built bodies that fresh, built from the tables their handler reads, and entries within TTL plus build time of their first read |
| `ResponseCache.StepKeepsStaleBodiesOut` | src/cache.ts:35-43 | no step brings back a body with a read of a table that misses a write to it whose second deletion is done |
| `ResponseCache.DeletedIffReadFrom` | src/repositories/companyRepository.ts:74-78 | a write deletes an endpoint's key exactly if the endpoint's bodies are read from the written table |
| `ResponseCache.FirstDeletionClears` | src/cache.ts:152-156 | right after a first deletion no hit of the company holds a read of the written table |
| `ResponseCache.HitsAreComplete` | src/routes/companies.ts:84-182 | a hit was read from exactly its endpoint's tables - company row, facts, or both - for scores and financials on the primary only, and but for facts for a stored company |
| `ResponseCache.MissesAreCheckedOnThePrimary` | src/routes/companies.ts:36-45 | a company the read handle lacks is looked up on the primary; found there the request goes on, else only its page and facts are fetched from SEC |
| `ResponseCache.FetchedThenRead` | src/routes/companies.ts:43-45 | after the fetch the company is read from the primary again; its page is built if it is there, its facts either way |
| `ResponseCache.AfterAMissOnlyThePrimary` | src/routes/companies.ts:30-34 | once its lookup has missed, everything a request reads is from the primary |
| `ResponseCache.ServedForFiveMinutes` | src/cache.ts:145-151 | a stored body that is not evicted, replaced or deleted for a write it was read from is served for 300 s and not after |
| `ResponseCache.SecondDeletionEndsStaleness` | src/repositories/companyRepository.ts:130-138 | from a write's second deletion on, no hit of any of the company's four endpoints holds a read of the written table that misses the write, in any run with lag plus build time within 2000 ms; for scores and financials the build time alone counts |
| `ResponseCache.BeyondTheBoundStaleBodiesSurvive` | src/cache.ts:35-43 | for every lag and build time beyond the bound, a run with every deletion succeeding serves a stale body |
| `ResponseCache.LongBuildsLeaveStaleScores` | src/cache.ts:35-43 | and for every build time of 2000 ms or more a run serves stale scores, whatever the lag |
| `ResponseCache.TtlBoundsStaleness` | src/cache.ts:27-33 | with any deletions failing, a hit reflects every write older than 300 s plus build time plus lag, the lag not counting for scores and financials |
| `ResponseCache.LostDeletionsReachTheTtlBound` | src/cache.ts:27-33 | the bound is exact for scores: a run with lost deletions serves a body that misses a write one millisecond younger |
| `ResponseCache.KeysAgreeIffSameNumber` | src/cache.ts:46-51 | two spellings of a company number reach the same entry exactly when they are the same number |
| `ResponseCache.PaddingKeepsTheNumber` | src/sec.ts:42-44 | padding gives ten characters and keeps the number |
| `AnnualFacts.ByPeriodEnd` | src/sec.ts:305-311 | one entry for each qualifying period end, holding its latest-filed value, the first of equals |
| `AnnualFacts.PickYears` | src/sec.ts:315-319 | the loop keeps the first period end of each year |
| `AnnualFacts.OnePerYear` | src/sec.ts:305-319 | the loops compute the specified series of one tag |
| `AnnualFacts.ConsiderTag` | src/sec.ts:301-323 | one tag of the loop takes the choice one tag further |
| `AnnualFacts.ZeroMinimumFailsIff` | src/sec.ts:297-323 | asked for no years, the comparison fails exactly when two tags have values and one of those with values has no figures |
| `AnnualFacts.AnnualFactsOf` | src/sec.ts:290-326 | for any minimum the method returns the specified answer, which for one year or more is the specified selection |
| `AnnualFacts.LatestFiledMeans` | src/sec.ts:305-311 | the value taken for a period end is a qualifying one filed no earlier than any other, first in the document among equals; none exactly when there is none |
| `AnnualFacts.SeriesMeans` | src/sec.ts:299-319 | figures have strictly descending years and each is its period's latest-filed value under its own year |
| `AnnualFacts.SeriesCovers` | src/sec.ts:299-319 | every year with a value from a 10-K for a full year, of 330 to 400 days or one date, is there, with its latest period end |
| `AnnualFacts.DaysAreCounted` | src/sec.ts:255-259 | the day count behind the 330 to 400 days: the calendar's next day, leap years included, is numbered one more |
| `AnnualFacts.WrittenIsRead` | src/sec.ts:255-259 | a date's day count is that of the year, month and day it spells |
| `AnnualFacts.SelectedMeans` | src/sec.ts:299-325 | nothing exactly when no tag has enough years; otherwise one tag only, the freshest, earliest in the list on ties |
| `AnnualFacts.SelectedAreAnnual` | src/sec.ts:301-319 | every fact selected is the document's, under the tag and unit chosen, from a 10-K for a full year and never a quarter, labelled with the year its period ends in |
| `AnnualFacts.MostRecentFact` | src/sec.ts:145-160 | the loops compute the specified most recent fact |
| `AnnualFacts.LastNewestMeans` | src/sec.ts:145-160 | what a stable sort puts last is the newest period end, its last occurrence |
| `AnnualFacts.MostRecentMeans` | src/sec.ts:145-160 | nothing exactly when no tag has dollar values; otherwise no value under any tag is newer |
| `AnnualFacts.MostRecentIsFirst` | src/sec.ts:145-160 | of equally new values the one of the tag listed first is taken, and its last one in the document |
| `FactStore.AppendOnly` | src/repositories/companyRepository.ts:109-129 | over any uploads no row disappears and only a same-key upload alters one, never its effective date |
| `FactStore.UploadMeans` | src/repositories/companyRepository.ts:102-129 | which facts are accepted, negative ones included, the row each one gets and what it holds; a row that is there keeps its fiscal period and effective date, and nothing else changes |
| `FactStore.RestatementAppends` | src/repositories/companyRepository.ts:109-115 | a period reported again by another filing keeps both values, each effective from its own filing date |
| `FactStore.RepeatChangesNothing` | src/repositories/companyRepository.ts:102-129 | uploading a fact twice is uploading it once |
| `FactStore.RowAfter` | src/repositories/companyRepository.ts:109-129 | after consistent uploads a row exists exactly if it did or a valid upload has its key, with that upload's content |
| `FactStore.OrderDoesNotMatter` | src/repositories/companyRepository.ts:102-129 | consistent uploads with the same members leave the same table in any order |
| `FactStore.CurrentViewIgnoresOrder` | src/repositories/companyRepository.ts:256-266 | whatever is stored already, with distinct filing dates in a period the current view is the same for every ingestion order |
| `FactStore.RestatementIsShown` | src/repositories/companyRepository.ts:256-266 | of a period two filings report, the view shows none that took effect before the later one |
| `FactStore.ReturnedRowsAreYearly` | src/repositories/scoringRepository.ts:31-49 | whatever the annual query returns is under one tag: values of full-year 10-K rows, each the last of its year to take effect |
| `FactStore.ConceptsAreDisjoint` | src/repositories/companyRepository.ts:39-62 | no tag belongs to two concepts |
| `Ingestion.FactDatabase.UpsertFact` | src/repositories/companyRepository.ts:102-129 | a valid fact is inserted or updates its own row; a refused one is logged and the table stays |
| `Ingestion.FactDatabase.StoreCompanyFacts` | src/repositories/companyRepository.ts:157-181 | the company's row is written, the fact table is the old one with the company's uploads applied in order, and exactly the refused ones are logged |
| `Ingestion.IngestionHoldsExactly` | src/repositories/companyRepository.ts:157-181 | under a concept with no rows before, the stored rows are exactly the chosen facts |
| `Ingestion.StoredThenReadBack` | src/repositories/scoringRepository.ts:25-51 | for any number of years up to any year, whatever the query may return after ingestion is exactly that part of the years and values chosen, nothing if nothing was chosen |
| `Ingestion.SelectionIsReturned` | src/repositories/scoringRepository.ts:31-50 | and that list is an answer the query may return |
| `Reconciliation.CurrentValues` | src/reconciliation.ts:74-75 | one current value for each key the company has: of the last unit listed, from a row with the latest effective date |
| `Reconciliation.ShownRowIs` | src/reconciliation.ts:74-75 | no row of the key is of a later unit than the one shown, and none of its unit took effect later |
| `Reconciliation.ReconcileCompany` | src/reconciliation.ts:66-92 | counts exactly the lists whose bulk fact is missing from the current values or differs there, and upserts those; afterwards, where the bulk facts are valid and last-effective, every current view shows both; a company without a row is left alone |
| `Reconciliation.ReportedAgainIff` | src/reconciliation.ts:76-91 | a fact that was missing or different is shown wrong again after its correction if and only if the gate refuses it or another filing of its period took effect later |
| `Reconciliation.SecondRunFindsNothing` | src/reconciliation.ts:66-92 | with valid, last-effective bulk facts every view after a run shows both bulk values under their tag and period, and a second run finds nothing |
| `Scoring.CombinedIsNoNewer` | src/scoring.ts:46-54 | combining two series reaches no year the first does not |
| `Scoring.CombinedYears` | src/scoring.ts:46-49 | the combined series has exactly the years both series have |
| `Scoring.CombinedValues` | src/scoring.ts:46-49 | and each value is the operation on the two series' values for its year |
| `Scoring.ScoreInputs.FindNewestElsewhere` | src/scoring.ts:77-81 | the loop finds the newest year any other series has |
| `Scoring.ScoreInputs.DeriveIfMissing` | src/scoring.ts:69-89 | skips when the reported series is as new as everything else; otherwise replaces it as a whole exactly when the derived one is newer |
| `Scoring.ScoreInputs.DeriveGrossProfit` | src/scoring.ts:92-100 | the outcome is as if cost of revenue were always read |
| `Scoring.ScoreInputs.DeriveLiabilities` | src/scoring.ts:214-216 | the outcome is as if the parts were always read |
| `Scoring.SkippingIsHarmless` | src/scoring.ts:82-88 | when the first part is in the table, the skip never changes the outcome |
| `Scoring.SkippingLosesIff` | src/scoring.ts:77-88 | deriving with the skip differs from always reading the parts exactly when the skip applies and both parts have a year newer than every reported one |
| `SgaSkip.SkipCostsYearIff` | src/scoring.ts:64-88 | the skip costs a newer common year exactly when, besides, some year and the one before are in every other figure and both parts, and no such pair with the reported SG&A is as new |
| `SgaSkip.SkipCostsScoreIff` | src/scoring.ts:394-401 | and in that case exactly the M-Score, gross profit derived first, is for an older year or missing |
| `SgaSkip.SkipChangesOutcomeIff` | src/scoring.ts:394-401 | the exact condition for the skip to change the M-Score's outcome at all |
| `SgaSkip.SkipCostsAScore` | src/scoring.ts:64-67 | twelve series for which the skip leaves no M-Score where the parts would have given one for 2023 |
| `Scoring.WhollyReportedOrWhollyDerived` | src/scoring.ts:69-89 | a derivation, skip included, leaves the reported series or one with exactly the parts' common years and only combined values; the flag says which, no other series changes, and none gets older |
| `Scoring.DerivationsCommute` | src/scoring.ts:395-396 | gross profit and SG&A give the same series and flags in either order |
| `Scoring.ChartAgreesWithAltman` | src/companyFinancials.ts:59-70 | for every store the chart's liabilities and derived flag are the Altman score's |
| `Scoring.SelectYearsMeans` | src/scoring.ts:133-165 | a year is selected exactly when one is in every series (with the year before, if needed); it is the newest such, and every figure is of that very year |
| `Scores.AltmanIgnoresUnit` | src/scoring.ts:208-253 | multiplying every dollar figure by a positive factor changes nothing about the Altman outcome |
| `Scores.PiotroskiIgnoresUnit` | src/scoring.ts:295-344 | the same for the F-Score, untested divisors that are zero included |
| `Scores.BeneishIgnoresUnit` | src/scoring.ts:394-459 | the same for the M-Score, undefined and infinite indices included |
| `Scores.SignalsMean` | src/scoring.ts:311-333 | for positive assets, revenue and current liabilities, the nine signals are their textbook comparisons without division |
| `Scores.SteadyCompanies` | src/scoring.ts:419-437 | a company whose two years agree has M of -2.48 plus 4.679 times its accruals, flagged exactly above -2.22 |
| `Scores.UndefinedIsNotFlagged` | src/scoring.ts:419-437 | one undefined index makes the score undefined, and it is then never flagged |
| `ScoreFormulas.AltmanMeans` | src/scoring.ts:208-253 | the Altman score, key by key: of the newest year all figures have, liabilities being assets less equity exactly when those reach a newer year, it is the weighted sum of the four ratios of the values the series list for that year, with its class; there is none exactly when no year is complete |
| `ScoreFormulas.PiotroskiMeans` | src/scoring.ts:295-344 | the F-Score, key by key: nine comparisons of the values listed for the newest usable year and the one before, zero current liabilities included, how many hold, and the class |
| `ScoreFormulas.BeneishMeans` | src/scoring.ts:394-459 | the M-Score, key by key: eight ratios of those values, undefined and infinite ones included, their weighted sum, and the flag above -2.22 |
| `StoredScores.ReadSeriesDescend` | src/scoring.ts:38-43 | whatever is stored, a series read for a score has one value a year, newest first, within the years asked for |
| `StoredScores.StoredAltmanMeans` | src/scoring.ts:193-253 | so whatever is stored, the Altman score is that formula of the values the query returned, for a year no later than asked for |
| `StoredScores.StoredFiguresAreChosen` | src/scoring.ts:38-43 | the figures read for a newly stored company are the ones chosen from its document |
| `StoredScores.AltmanIsOfTheDocument` | src/scoring.ts:193-253 | the Altman score of a newly stored company, as of any year, is a function of SEC's document alone |
| `Text.TrimMeans` | src/riskFactorDiff.ts:55 | trimming removes outer whitespace only, and all of it |
| `Chunking.LinesJoinBack` | src/riskFactorDiff.ts:53-54 | the lines joined by newlines are the text, and none holds a newline |
| `Chunking.NoiseIff` | src/riskFactorDiff.ts:42-50 | a line is noise exactly if it is a number of one to four digits, two short texts and such a number between bars, or the running title in either case |
| `Chunking.KeptAreTrimmed` | src/riskFactorDiff.ts:53-56 | kept lines end in a character that is not whitespace |
| `Chunking.KeptInOrder` | src/riskFactorDiff.ts:53-56 | the kept lines are, at increasing positions, exactly the lines that are neither empty nor noise once trimmed, kept trimmed |
| `Chunking.MergeRuns` | src/riskFactorDiff.ts:60-66 | after each line: complete groups just long enough, and a shorter rest in the buffer |
| `Chunking.MergeShort` | src/riskFactorDiff.ts:58-70 | merged pieces joined by spaces are the kept lines joined by spaces; each is at least 150 characters unless it is the only one; no group could have ended a line earlier |
| `Sentences.MatchIsGreedy` | src/riskFactorDiff.ts:78 | the match is the longest run of other characters and terminators at the start of the text |
| `Sentences.SentenceIsMatched` | src/riskFactorDiff.ts:78 | a run of characters other than full stop, exclamation and question mark comes off with the run of those after it |
| `Sentences.MatchesAreInOrder` | src/riskFactorDiff.ts:78 | what the sentences hold besides whitespace is part of the piece, in its order |
| `Sentences.OtherwiseBlankFree` | src/riskFactorDiff.ts:78 | without one it is the whole rest, if that has no blank |
| `Sentences.AlwaysMatches` | src/riskFactorDiff.ts:78 | a piece always has a match, so it is never taken whole for want of one |
| `Sentences.SplitsWholeIff` | src/riskFactorDiff.ts:78 | the sentences together are the piece if and only if it has no blank, or starts with a non-terminator and has no blank after its last terminator |
| `Sentences.SplitsInkIff` | src/riskFactorDiff.ts:78 | nothing but whitespace is lost if and only if it has no blank, or starts with a non-terminator and ends in at most one unfinished word |
| `Sentences.WholeSentencesSplitWhole` | src/riskFactorDiff.ts:78 | a piece that starts a sentence and ends with a terminator is split without loss |
| `Sentences.UnfinishedSentenceIsLost` | src/riskFactorDiff.ts:78 | of an unfinished last sentence only the last word survives |
| `Chunking.SplitLong` | src/riskFactorDiff.ts:78-87 | the pieces are the sentences in order, in groups of at most 900 characters or one sentence, none of which had room for the next; none is blank |
| `Chunking.NothingLostIff` | src/riskFactorDiff.ts:72-88 | over the whole text nothing but whitespace is lost if and only if every long piece splits without losing any |
| `Chunking.LongPieceWithUnfinishedSentence` | src/riskFactorDiff.ts:72-88 | a long piece that starts well and still loses text |
| `ChunksDetermined.OneLineKeepsInkIff` | src/riskFactorDiff.ts:52-90 | the chunks of a text of one plain line hold all of it but whitespace exactly if it is short or splits without loss |
| `ChunksDetermined.TextWithUnfinishedSentence` | src/riskFactorDiff.ts:52-90 | a whole text whose chunks have lost some of it |
| `Chunking.ChunkRiskFactorText` | src/riskFactorDiff.ts:52-90 | every chunk is non-empty and at most 900 characters or one trimmed sentence; what the chunks hold besides whitespace is, in order, part of the kept lines - which are the text's trimmed lines at increasing positions, all but empty ones and noise - and all of it exactly if each long piece is spared |
| `ChunksDetermined.PackedIsUnique` | src/riskFactorDiff.ts:79-87 | sentences can be grouped in only one way that the contract allows |
| `ChunksDetermined.MergeIsUnique` | src/riskFactorDiff.ts:58-70 | lines can be merged in only one way that the contract allows |
| `ChunksDetermined.ChunksAreDetermined` | src/riskFactorDiff.ts:52-90 | a text has exactly one list of chunks |
| `Embeddings.CosineSimilarity` | src/embeddings.ts:75-79 | the loop computes the dot product |
| `Embeddings.UnitVectorsCompare` | src/embeddings.ts:74-79 | the similarity of unit vectors is between -1 and 1, and 1 only for equal ones |
| `RiskFactorDiff.FindBestMatch` | src/riskFactorDiff.ts:134-142 | the first of the best old chunks, if any is above -1 |
| `RiskFactorDiff.MatchNew` | src/riskFactorDiff.ts:130-153 | each new chunk is reported once, in order, by the thresholds, from its first best match |
| `RiskFactorDiff.DiffChunks` | src/riskFactorDiff.ts:130-169 | the report is those entries followed by the removed ones, with its summary |
| `RiskFactorDiff.DiffPartitions` | src/riskFactorDiff.ts:133-159 | new chunks once each in order, then once each in order exactly the old ones that are nobody's first best match at 0.60 or above |
| `RiskFactorDiff.CountsAddUp` | src/riskFactorDiff.ts:161-167 | unchanged, modified and added count the new chunks; removed and matched count the old ones; matched are no more than unchanged and modified |
| `RiskFactorDiff.ReportsAreInRange` | src/riskFactorDiff.ts:144-158 | similarities are between 0 and 1, and a matched text is given exactly for unchanged and modified chunks |
| `RiskFactorDiff.SelfDiff` | src/riskFactorDiff.ts:124-170 | compared with itself a list has nothing new or modified, and removed are exactly the chunks whose embedding equals an earlier one's |
| `RiskFactorDiff.SelfReport` | src/riskFactorDiff.ts:124-170 | of a text against itself every chunk is unchanged and the removed positions are exactly those with an earlier chunk's embedding |
| `RiskFactorDiff.DiffRiskFactorTexts` | src/riskFactorDiff.ts:124-170 | both texts are chunked and compared, new chunks first and unclaimed old ones after; equal texts give equal chunks, nothing new or modified, and as removed exactly the repeats of an earlier embedding |

## Left out

- HTTP, Postgres, Redis, BullMQ, Slack and the embedding model: tables, queues and delivery are values, the embedder is any function to unit vectors of one dimension.
- Floating point: values are reals, so rounding (`toFixed` included) and the sign of zero are not modelled.
- Retry.SecClient.SecFetch: the length of a back-off pause is not modelled; a pause is whatever other fetches do meanwhile.
- Poller.FilingPoller.RunPollCycle: the rows of `poller_runs` and the ticker and document name in a job are not modelled; failure rows and company rows change by other processes only between cycles; cycles do not overlap.
- Poller.FilingPoller.CheckCompany: the description that goes with an industry code, and the cache deletions that follow its write, are not modelled.
- Pipeline.Workers.ProcessFilingDiscovered: the text and fact ingestion before the claim is not modelled, being upserts that a repeat redoes.
- Pipeline.Workers.ProcessScoresUpdated: message texts and score formatting are not modelled.
- Alerting.Heartbeat.SendOncePerOutage: a failure of the record after a delivery is not modelled.
- The cache without a Redis client, and the cached company list, statistics, filings feed and risk-factor comparison, which fact writes do not delete.
- Reader steps assume a replica lag of at least one millisecond, the resolution of the clock.
- Dates: a period starting on 0001-01-01, the value a missing start is indexed as, is excluded in reconciliation.
- Ingestion.StoredThenReadBack: revenue and net income are excluded, since the most recent fact is also written under their tags.
- ScoreFormulas.AltmanMeans, PiotroskiMeans and BeneishMeans are for series with one value a year, which every series read is (`StoredScores.ReadSeriesDescend`).
- Text is a sequence of characters; a character outside the basic plane counts once here and twice in the program.
- Extraction of the risk-factor section from a filing (`src/riskFactors.ts`, `src/filingText.ts`), configuration, universe, authentication, watchlist routes, statistics and the web client: easy or unrelated claims.
