# FitTrack core, modelled in Dafny

This project models the core logic of FitTrack, a workout-tracking web application, and proves properties of it. The core covers:

- **The offline workout queue.** Workouts captured without a connection go into a device-local store keyed by `localId`. The store supports put, an ordered read, delete, a retry counter, a count, clear and a seven-day age sweep.
- **The client's sync pass.** It drains the queue in one batch per workout type, deletes what the server acknowledged and counts a retry when a request throws.
- **The batch-sync endpoint.** It reconciles a batch with the server's `workouts` table, using `localId` as an idempotency key, with per-item failures and a cap of 50 items.
- **The AI endpoint's rate limiter.** Each user gets a fixed 24-hour window of 10 calls.
- **The workout stopwatch** and its `MM:SS` / `H:MM:SS` formatters.
- **The dashboard aggregation.** It computes totals, the streak of workout days, this week against last week, goal progress with default goals, and the per-day breakdown.
- **The guided strength workout.** It moves from set to set and from exercise to exercise, runs a rest countdown and reports the logged sets at the end.
- **The strength log form's edits** to per-exercise set lists.
- **The equipment list** derived from a profile, and the profile upsert.
- **The request schemas**, written as predicates and parsing functions.

Code that updates state in place is modelled as a class with methods:

- the pending store (`OfflineStorage.PendingStore`);
- the sync controller (`OfflineSync.OfflineSyncController`);
- the endpoint's tables (`SyncRoute.WorkoutTables`);
- the rate-limit map (`AiGenerate.RateLimitStore`);
- the stopwatch (`WorkoutTimer.Stopwatch`);
- the guide (`WorkoutGuide.Guide`);
- the equipment table (`Equipment.ProfileTable`).

Each method is proved against a specification function, and the properties the application promises are proved as lemmas about those functions. Purely functional code is modelled as functions and lemmas: the form edits, the schemas, the formatters and the dashboard totals.

The following become parameters:

- Every client-side storage request's success (`ok`, `readOk`, `writeOk(localId)`, `countOk`). Server-side database statements are modelled as always succeeding; see "## Left out".
- What each `fetch` gave back (`FetchOutcome`). The function `OfflineSync.ClientSees` says which outcome a response of the endpoint produces.
- The clock (`now`, in milliseconds).
- Date parsing (`validDate`, `isDateTime`).
- Whether the AI service is configured and whether generation returned.

Instants are milliseconds since the epoch. Days are whole days since the epoch, and weekdays count from Sunday = 0.

## Model

| member | source | states |
|---|---|---|
| Workouts.ToSyncInput | src/hooks/useOfflineSync.ts:85-89 | the request element carries the record's `localId`, the batch's type and the payload's fields; treadmill data gives a distance and strength data an exercise list, each exactly when the payload is of that kind |
| OfflineStorage.Put | src/lib/offline/storage.ts:86-88 | a put under the key path replaces or creates the one record under `localId` and leaves the others; the store grows by one exactly when the key was new, and every record stays stored under its own key |
| OfflineStorage.Remove | src/lib/offline/storage.ts:144-152 | delete removes exactly that key; deleting an absent key leaves the store as it was |
| OfflineStorage.Bump | src/lib/offline/storage.ts:170-181 | the retry count of a present record rises by exactly one; every other field and record is unchanged, and an absent key changes nothing |
| OfflineStorage.Sweep | src/lib/offline/storage.ts:255-272 | a record survives exactly when its timestamp is at or after the threshold, so a record exactly at the threshold is kept; survivors are unchanged |
| OfflineStorage.InsertKeepsSorted | src/lib/offline/storage.ts:132-134 | inserting a record after every record stamped no later keeps a listing ordered by timestamp |
| OfflineStorage.InsertKeepsListing | src/lib/offline/storage.ts:132-134 | inserting a stored, not yet listed record keeps each record listed once, as stored, and adds its key |
| OfflineStorage.SweepAdvance | src/lib/offline/storage.ts:264-269 | one step of the cleanup loop deletes the record it looks at exactly when it is too old, and the store then shrinks by one |
| OfflineStorage.PendingStore.constructor | src/lib/offline/storage.ts:77-108 | the store opens empty |
| OfflineStorage.PendingStore.SavePendingWorkout | src/lib/offline/storage.ts:113-124 | on success the store is `Put(old, w)`, so there are never two records under one key; a failure is returned as an error and the store is unchanged |
| OfflineStorage.PendingStore.GetPendingWorkouts | src/lib/offline/storage.ts:129-139 | on success it lists every stored record once, as stored, in ascending timestamp order; on failure it returns the empty list |
| OfflineStorage.PendingStore.ReadAll | src/lib/offline/storage.ts:264 | lists every stored record once, as stored |
| OfflineStorage.PendingStore.DeletePendingWorkout | src/lib/offline/storage.ts:144-152 | the store becomes `Remove(old, localId)`; a failure is swallowed and changes nothing |
| OfflineStorage.PendingStore.ClearPendingWorkouts | src/lib/offline/storage.ts:157-165 | on success the store is empty; a failure changes nothing |
| OfflineStorage.PendingStore.IncrementRetryCount | src/lib/offline/storage.ts:170-181 | the read-modify-write leaves `Bump(old, localId)`; a failure changes nothing |
| OfflineStorage.PendingStore.GetPendingWorkoutCount | src/lib/offline/storage.ts:241-250 | the number of stored records, or 0 on failure |
| OfflineStorage.PendingStore.CleanupOldPendingWorkouts | src/lib/offline/storage.ts:255-279 | on success the store is `Sweep(old, now - 7 days)`, and the counter equals the number of records deleted; a failure aborts the transaction and changes nothing |
| OfflineSync.ErrorIds | src/hooks/useOfflineSync.ts:101 | the `localId`s of the `errors` entries, one per entry and in order |
| OfflineSync.Inputs | src/hooks/useOfflineSync.ts:85-89 | one request element per batch record, in order, each built by `ToSyncInput` |
| OfflineSync.BatchMembers | src/hooks/useOfflineSync.ts:72-73 | a record is in the batch of a type exactly when it is queued with that type |
| OfflineSync.PartitionIsExact | src/hooks/useOfflineSync.ts:72-73 | the two batches together are as long as the queue, and each record is in the batch of its own type and in no other |
| OfflineSync.BatchKeepsDistinct | src/hooks/useOfflineSync.ts:72-73 | a batch has distinct keys when the queue listing does |
| OfflineSync.SyncOfBatches | src/hooks/useOfflineSync.ts:79-160 | a sync of the queue settles the treadmill batch and then the strength batch, sums their counts, and sends one request per non-empty batch |
| OfflineSync.SettleKeys | src/hooks/useOfflineSync.ts:93-117 | after a batch settles, a key remains exactly when the response was not OK, or the key was not in the batch, or the server listed it in `errors`, or its delete failed |
| OfflineSync.SettleKeepsOthers | src/hooks/useOfflineSync.ts:99-105 | a record outside the batch is left exactly as it was |
| OfflineSync.RejectedChangesNothing | src/hooks/useOfflineSync.ts:106-108 | a non-OK response neither deletes nor increments anything |
| OfflineSync.ThrewCountsRetries | src/hooks/useOfflineSync.ts:109-117 | a request that threw keeps every record queued and raises the retry count by one on each batch record whose write succeeded, and on no other |
| OfflineSync.RespondProcessed | src/app/api/workouts/sync/route.ts:150-154 | a processed batch answers with the loop's final counts, with `errors` left out when it is empty |
| OfflineSync.DeletedOnlyIfPersisted | src/hooks/useOfflineSync.ts:99-105 | settling a batch with the endpoint's real response deletes only records that the server has stored under their `localId` |
| OfflineSync.OversizedBatchStaysQueued | src/hooks/useOfflineSync.ts:79-108 | a batch of more than 50 workouts is refused with the table untouched, nothing in it is deleted, and all of it counts as failed |
| OfflineSync.OfflineSyncController.constructor | src/hooks/useOfflineSync.ts:30-35 | starts with the given online flag, no pending count, not syncing, no error, and nothing sent or reported |
| OfflineSync.OfflineSyncController.UpdatePendingCount | src/hooks/useOfflineSync.ts:40-48 | the pending count becomes the store's count, which reads as 0 on failure; nothing else changes |
| OfflineSync.OfflineSyncController.SettleBatch | src/hooks/useOfflineSync.ts:99-116 | the per-record delete or increment loop leaves the store at `Settle(old, batch, outcome, writeOk)` |
| OfflineSync.OfflineSyncController.SyncBatch | src/hooks/useOfflineSync.ts:79-118 | an empty batch sends nothing; otherwise it sends one request, settles the batch and returns the server's counts, or the batch length as failed |
| OfflineSync.OfflineSyncController.SendBatches | src/hooks/useOfflineSync.ts:75-160 | treadmill batch first and then strength; the counts add up across both batches |
| OfflineSync.OfflineSyncController.SyncQueue | src/hooks/useOfflineSync.ts:72-175 | after a non-empty read, the store is `AfterSync` of it, the count is refreshed, `onSyncComplete` gets the totals, and an error is recorded exactly when something failed |
| OfflineSync.OfflineSyncController.Report | src/hooks/useOfflineSync.ts:162-175 | refreshes the count, reports `(synced, failed)` when a callback exists, and records the failure message exactly when `failed > 0` |
| OfflineSync.OfflineSyncController.SyncPendingWorkouts | src/hooks/useOfflineSync.ts:51-185 | offline or already syncing: nothing sent and nothing changed; otherwise it reads the queue in timestamp order and sends one request per non-empty type batch with no size cap; an empty queue changes nothing but clears the error; `isSyncing` is false at the end |
| OfflineSync.OfflineSyncController.HandleOnline | src/hooks/useOfflineSync.ts:189-197 | marks online and clears the error; without auto-sync nothing else changes; with auto-sync and a pass already in flight nothing else changes either; otherwise it runs a full pass whose new store (`AfterSync`), count, completion report and error are those of `SyncPendingWorkouts`, over the queue read in timestamp order |
| OfflineSync.OfflineSyncController.HandleOffline | src/hooks/useOfflineSync.ts:199-202 | marks offline and changes nothing else |
| OfflineSync.OfflineSyncController.IntervalTick | src/hooks/useOfflineSync.ts:223-227 | a tick syncs only with auto-sync on, online, something pending and no pass in flight; otherwise nothing changes; a tick that syncs leaves the store, count, completion report and error of a full `SyncPendingWorkouts` pass |
| OfflineSync.OfflineSyncController.StartAutoSync | src/hooks/useOfflineSync.ts:214-220 | with auto-sync on and online, the count is refreshed before the interval starts; otherwise nothing changes |
| SyncRoute.ProcessOne | src/app/api/workouts/sync/route.ts:63-148 | a `localId` already stored by anyone is counted as synced with no insert; otherwise at most the one base row is appended; a failure adds no detail row; an input not failed on a date ends with a row carrying its `localId` |
| SyncRoute.Respond | src/app/api/workouts/sync/route.ts:36-165 | 401 without a user, 500 for unreadable JSON, 400 with the array-required message for a missing or empty array and with the too-many message for over 50, none of which touch the table; a signed-in request with 1 to 50 workouts is processed, and only such a request, with `synced + failed` equal to its length |
| SyncRoute.CountsAddUp | src/app/api/workouts/sync/route.ts:63-148 | every input is counted exactly once, as synced or failed, and there is one `errors` entry per failure |
| SyncRoute.ErrorsNameFailedInputs | src/app/api/workouts/sync/route.ts:138-147 | the `errors` array is exactly one entry per failed input, in input order, carrying that input's `localId` and its failure message |
| SyncRoute.FailedInputReported | src/app/api/workouts/sync/route.ts:138-147 | an input whose outcome is a failure appears in `errors` under its own `localId` and message, and every entry there comes from such an input |
| SyncRoute.OutcomeIsProcessOne | src/app/api/workouts/sync/route.ts:63-148 | input `i` is handled against the database the inputs before it left behind |
| SyncRoute.FailedItems | src/app/api/workouts/sync/route.ts:138-147 | the entries the failures call for: each failed input's `localId` and message is among them, and nothing else |
| SyncRoute.RowsOnlyAppended | src/app/api/workouts/sync/route.ts:98-134 | processing only appends rows; rows stored earlier stay as they were |
| SyncRoute.HasLocalIdKept | src/app/api/workouts/sync/route.ts:71-75 | a `localId` found in the table is still found after rows are appended |
| SyncRoute.ProcessOneKeepsUnique | src/app/api/workouts/sync/route.ts:71-109 | one input never gives a `localId` a second row |
| SyncRoute.BatchKeepsUnique | src/app/api/workouts/sync/route.ts:63-148 | a batch, even one that repeats `localId`s, keeps `localId`s unique in the table |
| SyncRoute.RequestsKeepUnique | src/app/api/workouts/sync/route.ts:36-165 | any request by any user keeps `localId`s unique |
| SyncRoute.UnreportedInputsArePersisted | src/app/api/workouts/sync/route.ts:63-148 | an input not named in `errors` is stored under its `localId` when the batch ends, even though a failure does not stop later inputs |
| SyncRoute.DuplicateCheckIgnoresUser | src/app/api/workouts/sync/route.ts:71-81 | another user's row with the same `localId` absorbs the input as synced |
| SyncRoute.InvalidDateInsertsNothing | src/app/api/workouts/sync/route.ts:87-95 | an unparseable start date fails the input before any insert |
| SyncRoute.EndedAtDefaultsToStart | src/app/api/workouts/sync/route.ts:87-109 | without `endedAt`, the stored row ends when it started |
| SyncRoute.ValidationIsNotApplied | src/app/api/workouts/sync/route.ts:168-182 | an input that `validateWorkoutInput` rejects (zero duration) is still inserted |
| SyncRoute.FailedInputLeavesOrphanRow | src/app/api/workouts/sync/route.ts:98-126 | as written, a treadmill input without a distance fails but leaves its base row without detail, and its retry counts as synced |
| SyncRoute.ProcessOneChecked | src/app/api/workouts/sync/route.ts:98-134 | with the type check first, a failed input changes nothing; an input is inserted exactly when it is new, has valid dates and has its type's fields; every row keeps its detail row |
| SyncRoute.CheckedAgreesOnOutcome | src/app/api/workouts/sync/route.ts:63-148 | the corrected body reports the same outcome as the handler on every input and stores the same on success |
| SyncRoute.WorkoutTables.constructor | src/app/api/workouts/sync/route.ts:36 | the tables hold the given rows |
| SyncRoute.WorkoutTables.Post | src/app/api/workouts/sync/route.ts:36-165 | the handler's loop leaves exactly the tables and response of `Respond` |
| AiGenerate.Check | src/app/api/ai/generate/route.ts:25-44 | a call is allowed exactly when there is no entry, or `now > resetTime`, or fewer than 10 calls were counted; an allowed call reports `10 - count` remaining; a denied call leaves the entry and reports no `remaining`; with no entry or a window past its reset time the entry restarts at count 1 for 24 hours from now, and otherwise an allowed call raises the count by one and keeps the reset time |
| AiGenerate.CheckKeepsWellFormed | src/app/api/ai/generate/route.ts:29-43 | a stored count stays between 1 and 10, and `remaining` is never negative |
| AiGenerate.NoResetAtResetTime | src/app/api/ai/generate/route.ts:29 | at `now == resetTime` a full window still denies; one millisecond later a new window opens with 9 remaining |
| AiGenerate.ReplayWithinWindow | src/app/api/ai/generate/route.ts:38-43 | within a window the reset time stays put and the count grows by the number of calls allowed, up to 10 |
| AiGenerate.AtMostLimitPerWindow | src/app/api/ai/generate/route.ts:25-44 | from the call that opens a window to its end, at most 10 calls are allowed |
| AiGenerate.ReplayPrefix | src/app/api/ai/generate/route.ts:25-44 | replaying two runs of calls is replaying the second from where the first left off |
| AiGenerate.RateLimitStore.constructor | src/app/api/ai/generate/route.ts:9 | the map starts empty |
| AiGenerate.RateLimitStore.Lookup | src/app/api/ai/generate/route.ts:27 | the caller's entry exactly when there is one |
| AiGenerate.RateLimitStore.CheckRateLimit | src/app/api/ai/generate/route.ts:25-44 | only the caller's entry changes, to what `Check` gives, and the decision is `Check`'s |
| AiGenerate.RateLimitStore.Post | src/app/api/ai/generate/route.ts:49-128 | no user gives 401 and no AI service gives 503, neither using quota; otherwise quota is used before the body is read, and the response is 429, 500, 400 or 200 with the remaining header |
| AiGenerate.RateLimitStore.Get | src/app/api/ai/generate/route.ts:133-149 | reports availability and the limit, and uses quota like a generation |
| WorkoutTimer.ElapsedAt | src/hooks/useWorkoutTimer.ts:75-77 | whole seconds elapsed: floor of the milliseconds over 1000 |
| WorkoutTimer.ResumeContinues | src/hooks/useWorkoutTimer.ts:42-47 | after a resume the count continues from the seconds already counted |
| WorkoutTimer.ElapsedMonotone | src/hooks/useWorkoutTimer.ts:71-85 | later ticks never show fewer seconds |
| WorkoutTimer.Stopwatch.constructor | src/hooks/useWorkoutTimer.ts:18-22 | idle, zero, no start reference |
| WorkoutTimer.Stopwatch.Start | src/hooks/useWorkoutTimer.ts:24-28 | running from zero, counting from now |
| WorkoutTimer.Stopwatch.Pause | src/hooks/useWorkoutTimer.ts:31-39 | running becomes paused; any other state is unchanged; the count is kept |
| WorkoutTimer.Stopwatch.Resume | src/hooks/useWorkoutTimer.ts:42-47 | paused becomes running, with the reference moved back by the counted time; any other state is unchanged |
| WorkoutTimer.Stopwatch.Stop | src/hooks/useWorkoutTimer.ts:50-57 | idle, keeping the count |
| WorkoutTimer.Stopwatch.Reset | src/hooks/useWorkoutTimer.ts:60-68 | idle with the count cleared |
| WorkoutTimer.Stopwatch.Tick | src/hooks/useWorkoutTimer.ts:71-85 | while running from a non-zero reference the count becomes `ElapsedAt(reference, now)`; otherwise it is unchanged |
| WorkoutTimer.FormatTimeReadsBack | src/hooks/useWorkoutTimer.ts:99-103 | `formatTime` prints at least two minute digits, a colon and two second digits below 60, and they read back as the number |
| WorkoutTimer.WithHoursBelowAnHour | src/hooks/useWorkoutTimer.ts:106-115 | below an hour `formatTimeWithHours` prints exactly `formatTime`'s five characters |
| WorkoutTimer.WithHoursFromAnHour | src/hooks/useWorkoutTimer.ts:106-115 | from an hour up it prints `H:MM:SS`, with minutes and seconds below 60, reading back as the number |
| WorkoutTimer.HoursShownIffAnHour | src/hooks/useWorkoutTimer.ts:110-114 | the hours field appears exactly from 3600 seconds up |
| Decimal.NatToString | src/hooks/useWorkoutTimer.ts:100-102 | `toString` of a whole number: digits only, no leading zero, one digit exactly below 10 and two exactly from 10 to 99 |
| Decimal.NatToStringValue | src/hooks/useWorkoutTimer.ts:100-102 | the printed numeral reads back as the number |
| Decimal.Pad2 | src/hooks/useWorkoutTimer.ts:100-102 | `padStart(2, '0')`: text of two or more characters is unchanged; shorter text is zero-filled on the left to two |
| Decimal.TwoDigits | src/hooks/useWorkoutTimer.ts:100-102 | a number below 100 pads to exactly two digits that read back as the number |
| Dashboard.Weekday | src/lib/db/queries/dashboard.ts:302-306 | `getDay()` is between 0 and 6 |
| Dashboard.TotalsAdd | src/lib/db/queries/dashboard.ts:63-70 | the duration and distance totals add up over a split of the workouts |
| Dashboard.DistanceCountsOnlyTreadmill | src/lib/db/queries/dashboard.ts:65-70 | the distance total is the total over treadmill workouts with a truthy distance alone |
| Dashboard.StartOfWeek | src/lib/db/queries/dashboard.ts:302-307 | as written: the most recent Sunday, at most 7 days back, at the same time of day as now |
| Dashboard.StartOfWeekMidnight | src/lib/db/queries/dashboard.ts:302-307 | as intended: midnight of the same Sunday, never after the value as written |
| Dashboard.WeeksPartitionRecent | src/lib/db/queries/dashboard.ts:79-99 | this week and last week share no workout and together hold every workout of the last fourteen days |
| Dashboard.Stats | src/lib/db/queries/dashboard.ts:50-128 | for a week starting at `StartOfWeek(now)` (or its midnight correction): the total count is all workouts; the two weeks' counts and the streak never exceed it |
| Dashboard.SundayMorningCountsAsLastWeek | src/lib/db/queries/dashboard.ts:79-80 | as written, a workout on Sunday morning, seen that afternoon, counts as last week |
| Dashboard.MidnightWeekHoldsWholeDays | src/lib/db/queries/dashboard.ts:79-80 | with the week starting at midnight, every workout of the calendar week counts as this week |
| Dashboard.DefaultGoal | src/lib/db/queries/dashboard.ts:146-150 | daily 30 minutes, 3 km, 1 workout; weekly 150, 20, 4 |
| Dashboard.GoalRangeStart | src/lib/db/queries/dashboard.ts:155-158 | the range starts no later than now; a daily range starts at midnight today |
| Dashboard.Progress | src/lib/db/queries/dashboard.ts:133-195 | the stored goal when there is one, the default otherwise; the count of the range never exceeds the workouts |
| Dashboard.WeeklyBelowDailyOnSunday | src/lib/db/queries/dashboard.ts:156-158 | as written, on Sunday afternoon a morning workout counts for the daily goal and not for the weekly one |
| Dashboard.DescendingDays | src/lib/db/queries/dashboard.ts:258-264 | the distinct workout days, each once, newest first |
| Dashboard.InsertDescending | src/lib/db/queries/dashboard.ts:258-264 | adding a day keeps the list strictly descending with exactly the days before plus the new one |
| Dashboard.StreakAsWritten | src/lib/db/queries/dashboard.ts:266-279 | the streak as written never exceeds the number of distinct days |
| Dashboard.StreakAsWrittenIsLongestRun | src/lib/db/queries/dashboard.ts:266-279 | the streak counts days from the newest while each is 0 or 1 days before the check, which moves to the day before the counted one; it stops at the first day that is not |
| Dashboard.StreakBound | src/lib/db/queries/dashboard.ts:269-279 | the streak never exceeds the distinct workout days, nor the workouts |
| Dashboard.CalculateStreak | src/lib/db/queries/dashboard.ts:251-282 | the loop returns `StreakAsWritten` over the distinct days from today; with no workouts, 0 |
| Dashboard.WorkoutDays | src/lib/db/queries/dashboard.ts:258-264 | builds exactly the distinct days, newest first |
| Dashboard.ConsecutiveStreak | src/lib/db/queries/dashboard.ts:266-279 | the intended streak never exceeds the number of days |
| Dashboard.ConsecutiveStreakHasNoGaps | src/lib/db/queries/dashboard.ts:266-279 | the intended streak starts today or yesterday and covers consecutive calendar days |
| Dashboard.ConsecutiveAtMostAsWritten | src/lib/db/queries/dashboard.ts:266-279 | the intended streak never exceeds the one written |
| Dashboard.StreakBridgesOneDayGap | src/lib/db/queries/dashboard.ts:272-275 | as written, workouts today and two days ago make a streak of 2; the intended streak is 1 |
| Dashboard.PointOf | src/lib/db/queries/dashboard.ts:217-238 | a day's point carries that day, and its count never exceeds the workouts |
| Dashboard.PointOfAbsentDay | src/lib/db/queries/dashboard.ts:224-231 | a day without workouts has an empty point |
| Dashboard.InsertByDay | src/lib/db/queries/dashboard.ts:241-245 | inserting a point for a new day keeps the points in ascending day order, one longer, with exactly the points before plus the new one |
| Dashboard.DayCountsCoverAll | src/lib/db/queries/dashboard.ts:217-238 | summed over distinct days that include every workout day, the day counts equal the number of workouts |
| Dashboard.BreakdownCountsAllWorkouts | src/lib/db/queries/dashboard.ts:217-245 | the breakdown's workout counts sum to the number of workouts in the range |
| Dashboard.GroupByDay | src/lib/db/queries/dashboard.ts:217-238 | the map holds exactly the workout days, each with its accumulated point; the day order lists each day once |
| Dashboard.GetWeeklyData | src/lib/db/queries/dashboard.ts:200-246 | one point per workout day, in ascending date order, each with that day's minutes, distance and count |
| PlanExercises.TrimStart | src/components/plan/WorkoutGuide.tsx:154 | `parseInt` skips exactly the leading white space |
| PlanExercises.DigitPrefix | src/components/plan/WorkoutGuide.tsx:154 | the longest run of leading decimal digits |
| PlanExercises.HexPrefix | src/components/plan/WorkoutGuide.tsx:154 | the longest run of leading hexadecimal digits after `0x` |
| PlanExercises.BeforeHyphen | src/components/plan/WorkoutGuide.tsx:154 | `split('-')[0]`: the text before the first hyphen, or all of it |
| PlanExercises.RepsOf | src/lib/db/schema.ts:132-139 | a numeric `reps` is taken as is, fractions included |
| PlanExercises.ParseIntReadsNumeral | src/components/workout/StrengthLogForm.tsx:39 | `parseInt` reads back a printed number followed by text that does not continue it, such as "30 seconds" |
| PlanExercises.ParseIntDecimal | src/components/workout/StrengthLogForm.tsx:39 | text that starts with a digit and no `0x` is read as its leading decimal digits |
| PlanExercises.RangeStandsForLowerBound | src/components/workout/StrengthLogForm.tsx:39 | a range "a-b" counts as `a` reps, and a plain number as itself |
| PlanExercises.EmptyHeadIsZero | src/components/workout/StrengthLogForm.tsx:39 | an empty text, or one starting with a hyphen, counts as 0 reps |
| PlanExercises.NoNumberIsNaN | src/components/workout/StrengthLogForm.tsx:39 | a text whose head holds no number, such as "max", counts as NaN |
| WorkoutGuide.InitialState | src/components/plan/WorkoutGuide.tsx:38-46 | exercise 0, set 0, clocks stopped, and one all-false row of `ex.sets` cells per exercise |
| WorkoutGuide.InitialIsWellFormed | src/components/plan/WorkoutGuide.tsx:38-46 | the opening state is renderable |
| WorkoutGuide.RestFor | src/components/plan/WorkoutGuide.tsx:100 | the exercise's rest, or 60 when it is 0 |
| WorkoutGuide.Mark | src/components/plan/WorkoutGuide.tsx:92-93 | exactly the one cell is set and every other cell is unchanged |
| WorkoutGuide.CompleteKeepsWellFormed | src/components/plan/WorkoutGuide.tsx:91-121 | `completeSet` keeps the state renderable and marks exactly the current cell |
| WorkoutGuide.CompleteMovesForward | src/components/plan/WorkoutGuide.tsx:96-116 | unless it finishes, `completeSet` moves to a later (exercise, set) |
| WorkoutGuide.CompleteKeepsMarkedUpTo | src/components/plan/WorkoutGuide.tsx:91-121 | every set behind the current position stays marked |
| WorkoutGuide.FinishedLogs | src/components/plan/WorkoutGuide.tsx:147-161 | one log per exercise in plan order, with exactly `ex.sets` sets, the plan's reps, the logged weight if any, and `completed` exactly where marked |
| WorkoutGuide.FinishAfterEverySetReportsAllCompleted | src/components/plan/WorkoutGuide.tsx:117-119 | completing every set in turn reports every set as completed |
| WorkoutGuide.RestCountsDown | src/components/plan/WorkoutGuide.tsx:60-64 | each second of a rest takes one second off |
| WorkoutGuide.RestEndsOnTime | src/components/plan/WorkoutGuide.tsx:60-65 | a rest of `r` seconds ends after exactly `r` seconds with the timer stopped and the workout clock not advanced |
| WorkoutGuide.ClockCountsUp | src/components/plan/WorkoutGuide.tsx:66 | outside a rest the running clock gains one second per second |
| WorkoutGuide.Previous | src/components/plan/WorkoutGuide.tsx:123-133 | one exercise back, unless at the first, at set 0 with rest and timer stopped; the marks and clock are kept |
| WorkoutGuide.Next | src/components/plan/WorkoutGuide.tsx:135-145 | one exercise on, unless at the last, at set 0 with rest and timer stopped; the marks and clock are kept |
| WorkoutGuide.NavigationKeepsWellFormed | src/components/plan/WorkoutGuide.tsx:123-145 | navigation never leaves the exercise list |
| WorkoutGuide.NextThenPrevious | src/components/plan/WorkoutGuide.tsx:123-145 | going on and back returns to the same exercise at its first set |
| WorkoutGuide.FormatTimeReadsBack | src/components/plan/WorkoutGuide.tsx:163-167 | minutes, a colon and two second digits below 60, reading back as the number |
| WorkoutGuide.FormatTimeAgainstStopwatch | src/components/plan/WorkoutGuide.tsx:163-167 | from ten minutes up the guide's clock prints what the stopwatch prints; below that it lacks the leading zero |
| WorkoutGuide.Guide.constructor | src/components/plan/WorkoutGuide.tsx:38-48 | opens in the initial state with no weights logged |
| WorkoutGuide.Guide.CompleteSet | src/components/plan/WorkoutGuide.tsx:91-121 | the state becomes `AfterComplete`; on the last set of the last exercise it returns `finishWorkout`'s logs, and only then |
| WorkoutGuide.Guide.Tick | src/components/plan/WorkoutGuide.tsx:55-71 | one second passes only while the timer runs |
| WorkoutGuide.Guide.ToggleTimer | src/components/plan/WorkoutGuide.tsx:73-75 | flips the timer and changes nothing else |
| WorkoutGuide.Guide.ResetTimer | src/components/plan/WorkoutGuide.tsx:77-79 | clock at zero and stopped |
| WorkoutGuide.Guide.StartRest | src/components/plan/WorkoutGuide.tsx:81-89 | a rest of the current exercise's length, with the timer running |
| WorkoutGuide.Guide.SkipRest | src/components/plan/WorkoutGuide.tsx:249 | rest over and timer stopped |
| WorkoutGuide.Guide.PreviousExercise | src/components/plan/WorkoutGuide.tsx:123-133 | the state becomes `Previous` of the old one |
| WorkoutGuide.Guide.NextExercise | src/components/plan/WorkoutGuide.tsx:135-145 | the state becomes `Next` of the old one |
| WorkoutGuide.Guide.LogWeight | src/components/plan/WorkoutGuide.tsx:226-233 | the current set's weight is the parsed number, or 0 when it is NaN |
| StrengthLogForm.InitialSets | src/components/workout/StrengthLogForm.tsx:39-44 | `ex.sets` sets with the plan's reps, no weight, marked completed |
| StrengthLogForm.InitialLogs | src/components/workout/StrengthLogForm.tsx:36-47 | one entry per exercise index, each holding its opening sets, and no other |
| StrengthLogForm.Apply | src/components/workout/StrengthLogForm.tsx:53 | the fields the update names are replaced; the others are kept |
| StrengthLogForm.UpdateSet | src/components/workout/StrengthLogForm.tsx:49-56 | only the set at `setIndex` of the one exercise changes, and only in the fields named |
| StrengthLogForm.AddSet | src/components/workout/StrengthLogForm.tsx:58-64 | appends a copy of the last set, or an empty set when there is none; earlier sets and other exercises are unchanged |
| StrengthLogForm.RemoveSet | src/components/workout/StrengthLogForm.tsx:66-71 | drops the set at `setIndex`, keeping the order of the rest; an index out of range changes nothing |
| StrengthLogForm.HandleSubmit | src/components/workout/StrengthLogForm.tsx:82-90 | the plan's exercises in order, each with its id, name and logged sets, or none |
| StrengthLogForm.InitialValidIffEverySetCountPositive | src/components/workout/StrengthLogForm.tsx:92 | the opening form is valid exactly when every exercise has at least one set |
| StrengthLogForm.OfferedRemovalKeepsFormValid | src/components/workout/StrengthLogForm.tsx:92-177 | removing a set where removal is offered keeps a valid form valid |
| StrengthLogForm.RemoveUndoesAdd | src/components/workout/StrengthLogForm.tsx:58-71 | adding a set and removing the new last one restores the logs |
| StrengthLogForm.ToggleTwiceRestores | src/components/workout/StrengthLogForm.tsx:73-80 | toggling the same set twice restores the logs |
| StrengthLogForm.ToggleFlipsOneSet | src/components/workout/StrengthLogForm.tsx:73-80 | toggling flips `completed` of the one set and nothing else of it |
| StrengthLogForm.EmptyUpdateChangesNothing | src/components/workout/StrengthLogForm.tsx:49-56 | an update naming no field changes nothing |
| StrengthLogForm.UpdateIsIdempotent | src/components/workout/StrengthLogForm.tsx:49-56 | applying an update twice is applying it once |
| StrengthLogForm.SubmittedValidFormHasSets | src/components/workout/StrengthLogForm.tsx:82-92 | a valid form submits at least one set per exercise, exactly as logged |
| Equipment.FlagCount | src/lib/db/queries/equipment.ts:112-116 | at most 4, and 0 exactly when no flag is set |
| Equipment.GetAvailableEquipment | src/lib/db/queries/equipment.ts:104-119 | no profile gives exactly bodyweight; otherwise a name appears exactly when its flag is set, as many names as flags, in the canonical order |
| Equipment.CanonicalOrderHasNoDuplicates | src/lib/db/queries/equipment.ts:112-118 | a list in canonical order never repeats a name |
| Equipment.Created | src/lib/db/schema.ts:38-46 | a new profile takes the given flags, and the column defaults (bodyweight true, others false) for the rest |
| Equipment.Updated | src/lib/db/queries/equipment.ts:48-59 | an update replaces the given flags and keeps the stored ones |
| Equipment.FullDataCreatesOrUpdatesAlike | src/lib/db/queries/equipment.ts:70-84 | with every field given, the update and create branches store the same profile |
| Equipment.UpdateIsIdempotent | src/lib/db/queries/equipment.ts:70-84 | upserting the same data twice stores what upserting once stores |
| Equipment.ProfileTable.constructor | src/lib/db/schema.ts:38-46 | the table starts empty |
| Equipment.ProfileTable.Lookup | src/lib/db/queries/equipment.ts:11-19 | the user's profile exactly when there is one |
| Equipment.ProfileTable.Upsert | src/lib/db/queries/equipment.ts:70-84 | updates an existing profile, creates one otherwise, and leaves every other user's profile |
| Equipment.ProfileTable.AvailableFor | src/lib/db/queries/equipment.ts:104-119 | the user's available equipment, from the table |
| Validations.StrengthSchemaImpliesSyncCheck | src/lib/validations.ts:29-35 | a strength workout the schema accepts passes the endpoint's strength check |
| Validations.SubmittedFormPassesSchema | src/lib/validations.ts:17-27 | a valid form with sound sets submits exercise logs the schema accepts |
| Validations.ParseEquipmentProfile | src/lib/validations.ts:38-46 | accepted exactly when some flag is set after defaults (bodyweight true, others false), with the defaulted flags |
| Validations.BodyweightDefaultsToTrue | src/lib/validations.ts:42 | a profile that leaves bodyweight out is accepted with bodyweight |
| Validations.AcceptedProfileHasEquipment | src/lib/validations.ts:38-46 | an accepted profile is what the table would create and lists some equipment |
| Validations.ParseActivityGoal | src/lib/validations.ts:56-61 | accepted exactly for daily or weekly with positive whole minutes and workouts and a positive distance, which are kept |
| Validations.DefaultGoalsPassSchema | src/lib/validations.ts:56-61 | the dashboard's default goals pass the schema |
| Validations.ParseDuration | src/lib/validations.ts:66 | accepted exactly for "15", "30", "45" and "60", as the number they print |
| Validations.DurationRoundTrip | src/lib/validations.ts:66 | each accepted duration, printed, reads back as itself |
| Validations.ParseGeneratePlan | src/lib/validations.ts:64-69 | accepted exactly for a known goal, an offered duration, at least one known equipment name and a known level |
| Validations.AvailableEquipmentIsAcceptedList | src/lib/validations.ts:67 | a profile's equipment list is one the plan schema accepts whenever the profile has any |
| Validations.ParsePagination | src/lib/validations.ts:91-96 | an accepted page is at least 1, the limit is 1 to 100, and the order is asc or desc; accepted exactly when each given page is a positive whole number, each given limit a whole number from 1 to 100 and each given order asc or desc; an accepted request keeps the given values and takes page 1, limit 20 and desc for those left out |
| Validations.PaginationDefaults | src/lib/validations.ts:92-95 | with nothing given: page 1, limit 20, descending |
| Validations.ExplicitDefaultsAreDefaults | src/lib/validations.ts:91-96 | stating the defaults gives the same result as leaving them out |
| WorkoutTimer.FormatTime | src/hooks/useWorkoutTimer.ts:99-103 | `formatTime`: minutes padded to two, a colon, seconds padded to two (its properties are in `FormatTimeReadsBack`) |
| WorkoutTimer.FormatTimeWithHours | src/hooks/useWorkoutTimer.ts:106-115 | `formatTimeWithHours` (its properties are in `WithHoursBelowAnHour`, `WithHoursFromAnHour` and `HoursShownIffAnHour`) |
| WorkoutGuide.FormatTime | src/components/plan/WorkoutGuide.tsx:163-167 | the guide's clock, minutes unpadded (its properties are in `WorkoutGuide.FormatTimeReadsBack` and `FormatTimeAgainstStopwatch`) |
| WorkoutGuide.AfterComplete | src/components/plan/WorkoutGuide.tsx:91-121 | the state `completeSet` leaves (its properties are in `CompleteKeepsWellFormed`, `CompleteMovesForward` and `CompleteKeepsMarkedUpTo`) |
| WorkoutGuide.Ticked | src/components/plan/WorkoutGuide.tsx:55-71 | one second of the interval (its properties are in `RestCountsDown`, `RestEndsOnTime` and `ClockCountsUp`) |
| WorkoutGuide.FinishShown | src/components/plan/WorkoutGuide.tsx:169-170 | the "Finish Workout" button is shown on the last exercise once its marked cells number its sets |
| WorkoutGuide.FinishShownWhenLastRowComplete | src/components/plan/WorkoutGuide.tsx:384-394 | on the last exercise, with every one of its sets marked, the button is shown |
| WorkoutGuide.Guide.Finish | src/components/plan/WorkoutGuide.tsx:384-394 | the button reports `finishWorkout`'s logs for the current marks exactly when it is shown, and changes nothing |
| StrengthLogForm.ToggleSetComplete | src/components/workout/StrengthLogForm.tsx:73-80 | flips one set's `completed` (its properties are in `ToggleFlipsOneSet` and `ToggleTwiceRestores`) |
| StrengthLogForm.IsFormValid | src/components/workout/StrengthLogForm.tsx:92 | every exercise has at least one set (its properties are in `InitialValidIffEverySetCountPositive` and `OfferedRemovalKeepsFormValid`) |
| Validations.ValidTreadmillWorkout | src/lib/validations.ts:10-15 | `treadmillWorkoutSchema`: distance 0.01 to 100 km, a duration of 1 second to 24 hours, an optional ISO date-time start, notes up to 500 UTF-16 code units |
| Validations.Utf16Length | src/lib/validations.ts:7 | the string length zod's `.max(500)` compares: between the character count and twice it, equal to it when no character is outside the Basic Multilingual Plane |
| Validations.Utf16LengthAppend | src/lib/validations.ts:7 | the length adds up over concatenation |
| Validations.Utf16LengthAstral | src/lib/validations.ts:7 | characters outside the Basic Multilingual Plane count twice |
| Validations.AstralNotesRefused | src/lib/validations.ts:7 | 300 emoji, though only 300 characters, are refused as notes |
| Validations.BmpNotesAccepted | src/lib/validations.ts:7 | up to 500 characters of the Basic Multilingual Plane are accepted as notes |
| Validations.ValidStrengthWorkout | src/lib/validations.ts:29-35 | `strengthWorkoutSchema` (its properties are in `StrengthSchemaImpliesSyncCheck`) |
| Validations.ValidSet | src/lib/validations.ts:17-21 | `strengthExerciseSetSchema`: positive whole reps and, if given, a positive weight |
| Validations.TextRepsAreWhole | src/components/workout/StrengthLogForm.tsx:39 | reps read from a plan's text through `parseInt` are always whole numbers |
| Validations.FractionalPlanRepsRefused | src/lib/validations.ts:18 | a set the form opens from numeric plan reps passes the schema exactly when those reps are positive and whole, so 8.5 reps are refused on submit |
| Validations.ValidExerciseLog | src/lib/validations.ts:23-27 | `strengthExerciseLogSchema` (its properties are in `SubmittedFormPassesSchema`) |
| OfflineSync.Settle | src/hooks/useOfflineSync.ts:93-117 | the store after one batch settles (its properties are in `SettleKeys`, `SettleKeepsOthers`, `RejectedChangesNothing` and `ThrewCountsRetries`) |
| OfflineSync.Batch | src/hooks/useOfflineSync.ts:72-73 | the queued records of one type, in order (its properties are in `BatchMembers` and `PartitionIsExact`) |
| OfflineSync.AfterSync | src/hooks/useOfflineSync.ts:79-160 | the store after a pass: the treadmill batch settled, then the strength batch (see `SyncOfBatches`) |
| OfflineSync.ClientSees | src/hooks/useOfflineSync.ts:93-108 | the client counts a response as accepted exactly when the endpoint processed the batch, with the endpoint's counts; a response never reads as a thrown request |
| SyncRoute.ProcessAll | src/app/api/workouts/sync/route.ts:63-148 | the handler's loop over the inputs (its properties are in `CountsAddUp`, `BatchKeepsUnique` and `UnreportedInputsArePersisted`) |
| SyncRoute.ValidateWorkoutInput | src/app/api/workouts/sync/route.ts:168-182 | the unused validator (see `ValidationIsNotApplied`) |
| PlanExercises.ParseInt | src/components/plan/WorkoutGuide.tsx:154 | `parseInt` with base detection (its properties are in `ParseIntReadsNumeral` and `ParseIntDecimal`) |
| Dashboard.ThisWeek | src/lib/db/queries/dashboard.ts:79-80 | holds exactly the workouts started at or after the week start |
| Dashboard.LastWeek | src/lib/db/queries/dashboard.ts:93-99 | holds exactly the workouts of the seven days before the week start |
| Dashboard.TotalDistance | src/lib/db/queries/dashboard.ts:65-70 | the distance total (its properties are in `TotalsAdd` and `DistanceCountsOnlyTreadmill`) |
| Dashboard.TotalDurationSeconds | src/lib/db/queries/dashboard.ts:64 | the duration total in seconds (its properties are in `TotalsAdd`) |
| AiGenerate.Replay | src/app/api/ai/generate/route.ts:25-44 | a run of checks (its properties are in `ReplayWithinWindow`, `AtMostLimitPerWindow` and `ReplayPrefix`) |

## Left out

- Platform plumbing is not modelled: IndexedDB, `fetch`, the Postgres queries and authentication. The store is a map and the tables are sequences. Each request's success, each fetch's result, the signed-in user, the clock and date parsing are parameters.
- The cached database connection of `getDB` (src/lib/offline/storage.ts:72-108) is not modelled; opening is assumed to succeed, and failure is the per-call `ok`.
- OfflineSync.OfflineSyncController.SyncPendingWorkouts: the `isOnline` and `isSyncing` guard reads closure-captured React state; here both are plain fields.
- OfflineSync.OfflineSyncController.HandleOnline: in the source the listener's `syncPendingWorkouts` was created while the app was offline, so its guard (src/hooks/useOfflineSync.ts:52) sees the old `isOnline` and returns; the first pass after reconnecting comes from the interval. The model's HandleOnline reads the updated flag and runs the pass at once.
- OfflineSync.OfflineSyncController.SyncPendingWorkouts: the outer `catch` (src/hooks/useOfflineSync.ts:176-181) is not modelled, because every call inside is modelled as one that returns.
- The interval period and the manual sync trigger are not modelled; one tick is one `IntervalTick` call.
- Concurrent requests and server-side races are not modelled. Every operation runs to completion alone.
- Equipment.ProfileTable.Upsert: the fallthrough to create when the update finds no row (src/lib/db/queries/equipment.ts:78-83) cannot happen sequentially and is not modelled. Profile ids and timestamps are left out.
- Calendar and timezone details are not modelled: local time, daylight saving and ISO date keys. Days are whole days since the epoch in UTC.
- Floating point is not modelled: rounding (`Math.round`), minutes as `seconds / 60`, and distances are exact reals. NaN and Infinity in zod numbers are not modelled.
- SyncRoute.ProcessOne: the server's select and inserts always succeed. In the source a failing statement (a `planId` or `userId` that breaks a foreign key, a value out of an integer column's range) throws inside the per-item `try`: the input is reported failed, and when the failing statement is the detail insert the base row stays behind. The model reports such an input as inserted.
- Dashboard.Stats: the totals are kept in seconds; the source divides durations by 60 and rounds before reporting.
- OfflineStorage.PendingStore.GetPendingWorkouts: records with equal timestamps may come in any order; the source keeps `getAll`'s key order through a stable sort.
- WorkoutGuide.Guide: the button-disabled guards are not modelled; the methods run whenever called.
- `calculateWeeklyAverage` is not modelled: it is floating point and does not appear in the properties.
- PlanExercises.RepsOf: `parseInt`'s loss of precision on very long digit runs is not modelled, and neither is `-0`. The white-space set is the ECMAScript one without Unicode category lookups.
- PlanExercises.PlanExercise: `sets` is a natural number. Fractional or negative counts (which `Array.from` would round or refuse) are not modelled.
- WorkoutGuide.Guide.constructor: it requires at least one exercise. With none, the component has no current exercise to render.
- WorkoutTimer.FormatTime and WorkoutGuide.FormatTime: negative seconds are not modelled.
- OfflineStorage.PendingStore.CleanupOldPendingWorkouts: the source returns nothing. The returned `deletedCount` is the counter the loop keeps.
- StrengthLogForm.ToggleSetComplete: has no ensures of its own. ToggleFlipsOneSet and ToggleTwiceRestores state its behaviour.
- An unknown workout `type` string is not modelled: the type is the two-valued `WorkoutType`.
- React rendering, styling and the AI plan generation itself (a model call and prompt text) are not modelled. The AI call's outcome is the `generated` parameter.

## Findings

| source | as written | input that shows it | evidently intended | confidence | as-written member | corrected member |
|---|---|---|---|---|---|---|
| src/lib/db/queries/dashboard.ts:272-275 | a day counts toward the streak when it is 0 or 1 days before the check day, so a missed day is bridged | workouts today and two days ago, none yesterday: streak 2 | consecutive days only: streak 1 | not executed | Dashboard.StreakBridgesOneDayGap | Dashboard.ConsecutiveStreakHasNoGaps |
| src/lib/db/queries/dashboard.ts:302-306 | the week starts on Sunday at the current time of day, not at midnight | a Sunday 09:00 workout seen at 15:00 counts as last week, not this week | the week starts at Sunday midnight | not executed | Dashboard.SundayMorningCountsAsLastWeek | Dashboard.MidnightWeekHoldsWholeDays |
| src/app/api/workouts/sync/route.ts:98-126 | the type-specific check runs after the base row is inserted | a treadmill input without `distanceKm` fails, leaves a row with its `localId`, and its retry counts as synced | check the fields before inserting, so a failed input leaves nothing | not executed | SyncRoute.FailedInputLeavesOrphanRow | SyncRoute.CheckedAgreesOnOutcome |
