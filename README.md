# Spaced-repetition scheduling core of the DECA study app, in Dafny

This project models and verifies the scheduling logic of a flash-card study app. It covers five parts:

- **The Anki-style scheduler** (`lib/anki-algorithm.ts`). `AnkiScheduler.schedule` takes a stored review record (a *card*) and a grade: Again, Hard, Good or Easy. It moves the card through the states New → Learning → Review → Relearning → Suspended, updating the card in place. Its configuration, states, grades and the response-time grading heuristic are in `lib/anki-config.ts`.
- **The legacy SM-2 update** `calculateNextReview` (`lib/spaced-repetition.ts`). The answer endpoint calls it.
- **`formatTime` and `calculateStreak`** (`lib/utils.ts`).
- **The mastery classification of review records** in three routes:
  - the dashboard counters (`app/api/stats/route.ts`);
  - the per-question level (`app/api/questions/stats/route.ts`);
  - the browse list status (`app/api/questions/all/route.ts`).

Each source file is one module:

| module | source | form |
|---|---|---|
| `AnkiConfig` | `lib/anki-config.ts` | pure |
| `AnkiAlgorithm` | `lib/anki-algorithm.ts` | class `Card` updated in place by the methods of class `AnkiScheduler` |
| `SpacedRepetition` | `lib/spaced-repetition.ts` | pure |
| `Utils` | `lib/utils.ts` | `formatTime` pure; `calculateStreak` sorts an `array` in place and counts with a loop |
| `DashboardStats` | `app/api/stats/route.ts` | counting loops over the query results |
| `QuestionStats` | `app/api/questions/stats/route.ts` | pure |
| `BrowseQuestions` | `app/api/questions/all/route.ts` | pure |

Four more modules support these:

- `AnkiProperties` holds the lemmas about the scheduler.
- `MasteryVariants` relates the three route classifications.
- `StatRecord` holds the stored record the routes read and the percentage they share.
- `JsMath` models `Math.round` as ⌊x + ½⌋, plus `Math.max` and `Math.min`.

Each handler of the scheduler is specified by a function on a `CardData` snapshot, split in two:

- a *move* (`NewCardMove`, …) is the state and interval decision;
- a *step* (`NewCardStep`, …) is the move followed by the next-review computation.

`ScheduleCard` is the specification of `schedule`. Every method of `AnkiScheduler` is proved to leave `card.Data()` equal to its specification function. The lemmas of `AnkiProperties` are stated on those functions.

Number and time conventions:

- Ease factors and intervals are exact reals.
- Timestamps are milliseconds.
- The two clock readings of the scheduler are parameters: `now` is read when `schedule` starts (`lib/anki-algorithm.ts:54`), and `later` when the next review is computed (`lib/anki-algorithm.ts:292`).
- Calendar days are integers. `calculateStreak` is given the day `today`, and a timestamp's day is its millisecond count divided by 86 400 000, rounded down.
- The database queries of the routes are inputs.

The model follows the code, also where it is surprising:

- Hard and Again on a New card leave it New, at step 0.
- An Easy graduation sets the ease to `startingEaseFactor + easyBonusEase` without the cap, which is 2.65 under the defaults, above the maximum of 2.5.
- `schedule` on a Suspended card throws, after the answer counters are already bumped.
- Nothing validates the configuration, and no grade outside the four is rejected.
- From a fresh New card it takes one Good answer more than there are learning steps to graduate. The first Good only enters step 0.
- `isDue` of a New card that already has a next review compares times.
- `verySlowThreshold` is never read.
- `dailyNewCards` and `dailyReviewCards` are never used.

## Model

| member | source | states |
|---|---|---|
| AnkiConfig.QualityValueInjective | lib/anki-config.ts:81-86 | the four grades have distinct numeric values 0..3 |
| AnkiConfig.SuggestGradeFromTime | lib/anki-config.ts:104-117 | a wrong answer is Again; a right one is Easy iff its seconds are below the fast threshold, Good iff they are at least fast and below normal, Hard iff at least fast and normal and below slow |
| AnkiConfig.SuggestedGradeNonIncreasing | lib/anki-config.ts:111-116 | with ordered thresholds, a slower correct answer never gets a higher grade |
| AnkiConfig.VerySlowThresholdUnused | lib/anki-config.ts:96-117 | changing the very-slow threshold never changes the suggested grade |
| AnkiConfig.SlowCorrectAnswerIsAgain | lib/anki-config.ts:115-116 | a correct answer at or beyond the slow threshold is graded Again |
| AnkiConfig.DefaultGradingExamples | lib/anki-config.ts:96-117 | under the default thresholds 5 s is Easy, 10 s and 15 s are Good, 20 s is Hard, 40 s is Again, and a wrong answer is Again |
| AnkiAlgorithm.WithNextReview | lib/anki-algorithm.ts:291-295 | the next review is exactly `interval` days after the clock reading, and no other field changes |
| AnkiAlgorithm.Answered | lib/anki-algorithm.ts:74-80 | one more answer; one more right answer exactly for Good and Easy, so right answers never overtake answers; both timestamps are `now`; nothing else changes |
| AnkiAlgorithm.NewCardMove | lib/anki-algorithm.ts:112-134 | the New handler touches no identity, counter, timestamp or lapse field; Easy graduates to Review with `easyInterval` and 1 repetition, Good enters Learning, Hard and Again keep the state; below Easy the step is 0 and the interval positive |
| AnkiAlgorithm.LearningCardMove | lib/anki-algorithm.ts:139-177 | the Learning handler keeps identity, counters and lapses; it graduates (Review, 1 repetition) exactly on Easy or when Good, or Hard at step 0, runs past the last step; otherwise the state stays and the step points into `learningSteps` with a positive interval |
| AnkiAlgorithm.ReviewLapse | lib/anki-algorithm.ts:185-205 | a lapse adds one to `lapses`, restarts at step 0, keeps the interval at least 1 day and a quarter of the old one and the ease at least the minimum, and suspends the card exactly when the lapses reach the leech threshold under the suspend action, else leaves it Relearning |
| AnkiAlgorithm.ReviewRecall | lib/anki-algorithm.ts:207-228 | a recall adds one repetition and keeps the state and lapses; Hard keeps the interval at least 1 day and the ease at least the minimum, Good keeps the ease, Easy caps it at the maximum |
| AnkiAlgorithm.ReviewCardMove | lib/anki-algorithm.ts:182-238 | the Review handler always leaves an interval of at least 1 day; Again adds a lapse and leaves Relearning or Suspended; any other grade adds a repetition and keeps state and lapses |
| AnkiAlgorithm.RelearningCardMove | lib/anki-algorithm.ts:243-279 | the Relearning handler keeps identity, counters and lapses; Again restarts at step 0 with at least 1 day; Easy, or Good and Hard past the last step, graduate to Review with at least 1 day (Easy capping the ease); otherwise the step points into `relearningSteps` with a positive interval |
| AnkiAlgorithm.NewCardStep | lib/anki-algorithm.ts:112-134 | handling a New card keeps its identity and answer counters and schedules it `interval` days after `later` |
| AnkiAlgorithm.LearningCardStep | lib/anki-algorithm.ts:139-177 | the same for a Learning card |
| AnkiAlgorithm.ReviewCardStep | lib/anki-algorithm.ts:182-238 | the same for a Review card |
| AnkiAlgorithm.RelearningCardStep | lib/anki-algorithm.ts:243-279 | the same for a Relearning card |
| AnkiAlgorithm.Dispatch | lib/anki-algorithm.ts:83-95 | every handled state keeps identity and counters and reschedules from `later` |
| AnkiAlgorithm.ScheduleCard | lib/anki-algorithm.ts:53-107 | `timesAnswered` + 1; `timesCorrect` + 1 iff the grade is Good or Easy; `lastAnswered` and `lastReviewDate` are `now`; the call fails iff the card is Suspended, and then nothing else changes; on success the next review is `interval` days after `later`, and the result reports the old and new state, the old and new interval, the ease, the grade and the response time |
| AnkiAlgorithm.Card.constructor | lib/anki-algorithm.ts:6-24 | a card holds exactly the given record |
| AnkiAlgorithm.AnkiScheduler.constructor | lib/anki-algorithm.ts:43-48 | the scheduler keeps the given configuration |
| AnkiAlgorithm.AnkiScheduler.Schedule | lib/anki-algorithm.ts:53-107 | the in-place update leaves the card and the result equal to `ScheduleCard` |
| AnkiAlgorithm.AnkiScheduler.HandleNewCard | lib/anki-algorithm.ts:112-134 | the in-place update and the pushed rule tags equal `NewCardStep` |
| AnkiAlgorithm.AnkiScheduler.HandleLearningCard | lib/anki-algorithm.ts:139-177 | the in-place update and the pushed rule tags equal `LearningCardStep` |
| AnkiAlgorithm.AnkiScheduler.RecordLapse | lib/anki-algorithm.ts:185-205 | the lapse branch's update and tags equal `ReviewLapse` |
| AnkiAlgorithm.AnkiScheduler.RecordRecall | lib/anki-algorithm.ts:207-228 | the recall branches' in-place update and tags equal `ReviewRecall` |
| AnkiAlgorithm.AnkiScheduler.HandleReviewCard | lib/anki-algorithm.ts:182-238 | the in-place update and the pushed rule tags equal `ReviewCardStep` |
| AnkiAlgorithm.AnkiScheduler.HandleRelearningCard | lib/anki-algorithm.ts:243-279 | the in-place update and the pushed rule tags equal `RelearningCardStep` |
| AnkiAlgorithm.AnkiScheduler.MinutesToDays | lib/anki-algorithm.ts:284-286 | a step is at least 0.001 days and never shorter than the step; it is exactly the step from 1.44 minutes up, and exactly 0.001 days up to 1.44 minutes |
| AnkiAlgorithm.AnkiScheduler.UpdateNextReview | lib/anki-algorithm.ts:291-295 | the next review is `interval` days after the clock reading, and only that field changes |
| AnkiAlgorithm.AnkiScheduler.IsDue | lib/anki-algorithm.ts:300-303 | a card with no next review is due iff it is New; otherwise it is due iff its next review is not after `now` |
| AnkiAlgorithm.AnkiScheduler.IntervalDescription | lib/anki-algorithm.ts:308-321 | minutes below a day, days below 30, months below 365, years from there; the amounts lie in 0..1440, 1..30, 1..12 and ≥ 1 |
| AnkiProperties.WellFormedReadsDefined | lib/anki-algorithm.ts:139-176 | on a well-formed card every step-table read is in bounds, whatever the grade |
| AnkiProperties.ScheduleKeepsWellFormed | lib/anki-algorithm.ts:154-174 | scheduling keeps a card well-formed, also when it throws |
| AnkiProperties.StepIndexInRange | lib/anki-algorithm.ts:154-174 | a card left in Learning points into `learningSteps`; one left in Relearning points into `relearningSteps` when that table is non-empty |
| AnkiProperties.NewCardRules | lib/anki-algorithm.ts:112-133 | New: Easy goes to Review with `easyInterval`, the unclamped ease bonus and 1 repetition; Good enters Learning at step 0; Hard and Again stay New at step 0; the interval is the first step in days |
| AnkiProperties.LearningCardRules | lib/anki-algorithm.ts:139-176 | Learning: Again restarts at step 0; Easy graduates like New + Easy; Hard past step 0 repeats the step; Good, or Hard at step 0, advances, and graduates with `graduatingInterval`, the starting ease and 1 repetition once the table is exhausted |
| AnkiProperties.ReviewLapseRules | lib/anki-algorithm.ts:185-205 | Review + Again: step 0, lapses + 1, ease floored at the minimum, interval max(1, old/4) unrounded; Suspended iff the lapses reach the leech threshold with the suspend action, else Relearning |
| AnkiProperties.ReviewRecallRules | lib/anki-algorithm.ts:207-234 | Review + Hard/Good/Easy: repetitions + 1; the ease changes and the interval products for each grade, using the new ease for Easy; then the interval modifier, at least 1 day |
| AnkiProperties.RelearningCardRules | lib/anki-algorithm.ts:243-278 | Relearning: Again quarters the interval again; Easy graduates with the easy bonus and the capped ease; Good and Hard advance, then graduate keeping the rounded interval |
| AnkiProperties.ReviewHardExample | lib/anki-algorithm.ts:207-234 | a 10-day card with ease 2.5, answered Hard, gets 12 days and ease 2.35 |
| AnkiProperties.ReviewAgainExample | lib/anki-algorithm.ts:185-196 | the same card answered Again goes to Relearning with 2.5 days, ease 2.3 and 1 lapse |
| AnkiProperties.IntervalPositive | lib/anki-algorithm.ts:284-295 | after a successful call the interval is positive and the next review lies after the clock reading |
| AnkiProperties.EaseStaysAboveMinimum | lib/anki-algorithm.ts:190-221 | with ordered ease settings the ease never drops below `minEaseFactor` |
| AnkiProperties.EaseStaysBelowCap | lib/anki-algorithm.ts:113-259 | with non-positive penalties, the ease stays at or below the larger of `maxEaseFactor` and the Easy graduation ease |
| AnkiProperties.EasyGraduationExceedsMaximum | lib/anki-algorithm.ts:113-119 | under the defaults, Easy on a New card sets the ease to 2.65, above the maximum of 2.5 |
| AnkiProperties.GoodsAdvanceLearning | lib/anki-algorithm.ts:158-173 | k Good answers with k steps still ahead keep a Learning card in Learning, k steps further on |
| AnkiProperties.GoodsGraduateLearning | lib/anki-algorithm.ts:158-168 | as many Goods as there are steps left graduate it to Review with `graduatingInterval`, the starting ease and 1 repetition |
| AnkiProperties.NewCardGraduation | lib/anki-algorithm.ts:120-125 | from New, \|learningSteps\| Goods leave the card on the last learning step, and one more Good graduates it |
| AnkiProperties.DefaultNewCardGraduation | lib/anki-algorithm.ts:120-173 | under the defaults a New card is at step 1 after two Goods, and in Review with 1 day and ease 2.5 after three |
| AnkiProperties.LapsesCountOnlyReviewFailures | lib/anki-algorithm.ts:185-189 | lapses grow by one exactly for Again on a Review card |
| AnkiProperties.LeechSuspension | lib/anki-algorithm.ts:198-205 | under the defaults the eighth lapse suspends the card; the next `schedule` then fails with "Unknown card state: suspended" yet still counts the answer |
| AnkiProperties.TaggedLeechKeepsRelearning | lib/anki-algorithm.ts:198-205 | with the tag leech action, a lapse always leaves the card in Relearning |
| AnkiProperties.DueExactlyAfterInterval | lib/anki-algorithm.ts:291-303 | a freshly scheduled card is due exactly from `interval` days after `later`, and not at `later` itself |
| AnkiProperties.IntervalUnitMonotone | lib/anki-algorithm.ts:308-321 | a longer interval is never described in a smaller unit |
| SpacedRepetition.EaseDelta | lib/spaced-repetition.ts:39-42 | before the floor, the ease moves by +0.1 (Easy), 0 (Good), −0.14 (Hard) and −0.32 (Again) |
| SpacedRepetition.RecallInterval | lib/spaced-repetition.ts:28-35 | a recalled card's new interval is 1, then 6, then interval × ease rounded, with the old ease |
| SpacedRepetition.CalculateNextReview | lib/spaced-repetition.ts:19-53 | below Good, the repetitions reset to 0 and the interval to 1; otherwise repetitions + 1 and the recall interval; the ease is e + delta, floored at 1.3; the next review is `interval` days after `today` |
| SpacedRepetition.UpdateKeepsHealthy | lib/spaced-repetition.ts:25-42 | from an ease ≥ 1.3 and an interval ≥ 1, one update keeps both |
| SpacedRepetition.ReplayKeepsHealthy | lib/spaced-repetition.ts:19-53 | any sequence of answers keeps a healthy record healthy |
| SpacedRepetition.EaseNonDecreasingInGrade | lib/spaced-repetition.ts:39-42 | a better grade never yields a lower ease |
| SpacedRepetition.EaseChanges | lib/spaced-repetition.ts:39-42 | Good keeps the ease, Easy adds 0.1, and Hard and Again lower it by 0.14 and 0.32, down to 1.3 |
| SpacedRepetition.FailureRestartsProgression | lib/spaced-repetition.ts:25-37 | after a failure, the next recall has 1 repetition and a 1-day interval |
| SpacedRepetition.GoodProgressionFromFreshCard | lib/spaced-repetition.ts:28-45 | three Goods on a fresh card give intervals of 1, 6 and 15 days, due after 1, 7 and 22 days |
| Utils.NatToString | lib/utils.ts:14-16 | `toString` of a natural number is a non-empty digit string with no leading zero |
| Utils.NatToStringRoundTrip | lib/utils.ts:14-16 | reading the digits back gives the number |
| Utils.Pad2 | lib/utils.ts:14-16 | `padStart(2, '0')` below 100 gives exactly two digits denoting the number |
| Utils.Split | lib/utils.ts:9-11 | hours·3600 + minutes·60 + seconds is the input, with minutes and seconds below 60 |
| Utils.SplitUnique | lib/utils.ts:9-11 | that decomposition is the only one |
| Utils.Render | lib/utils.ts:13-16 | the hours (or, below an hour, the minutes) take as many digits as they need and every later field exactly two, with a colon before each |
| Utils.FormatTime | lib/utils.ts:8-17 | the output is the hours' numeral plus six characters from an hour up, and the minutes' numeral plus three below it |
| Utils.RenderRoundTrip | lib/utils.ts:13-16 | both clock layouts, "h:mm:ss" and "m:ss", read back as the seconds they show |
| Utils.FormatTimeRoundTrip | lib/utils.ts:8-17 | the output of `formatTime` reads back as the same number of seconds |
| Utils.FormatTimeHoursShape | lib/utils.ts:13-14 | from one hour up the output is three fields: the hours unpadded, then minutes and seconds as two-digit numerals of their values |
| Utils.FormatTimeMinutesShape | lib/utils.ts:16 | below an hour the output is two fields: the minutes unpadded, then the seconds as a two-digit numeral |
| Utils.FormatTimeExamples | lib/utils.ts:8-17 | 59 → "0:59", 61 → "1:01", 3601 → "1:00:01" |
| Utils.StreakUnique | lib/utils.ts:26-41 | at most one streak length fits the dates |
| Utils.InsertDescending | lib/utils.ts:22 | inserting into a newest-first list keeps it sorted and adds exactly that element |
| Utils.SortDescending | lib/utils.ts:22 | the sort gives a newest-first permutation of the dates |
| Utils.StudiedOnPermutation | lib/utils.ts:22 | reordering the dates does not change the days studied |
| Utils.StreakPermutation | lib/utils.ts:22-41 | a streak of the sorted dates is a streak of the original dates |
| Utils.CountStreak | lib/utils.ts:26-41 | the loop over newest-first dates returns the number of consecutive studied days ending today, at most the number of dates |
| Utils.CalculateStreak | lib/utils.ts:19-42 | the caller's array ends up sorted newest first; the result is the streak of the given dates (0 for none), at most their number |
| JsMath.Round | lib/spaced-repetition.ts:34 | `Math.round` gives the integer nearest to x, halves rounded up |
| StatRecord.Percent | app/api/questions/stats/route.ts:45 | the percentage is the whole number nearest to the exact share part·100/whole, halves rounded up |
| StatRecord.AnsweredPercent | app/api/questions/stats/route.ts:43-46 | 0 before any answer; otherwise the whole number nearest to the exact share of right answers |
| StatRecord.PercentInRange | app/api/questions/stats/route.ts:45 | `Math.round(part / whole * 100)` for 0 ≤ part ≤ whole is between 0 and 100 |
| StatRecord.PercentEnds | app/api/questions/stats/route.ts:45 | the whole is 100 %, and nothing is 0 % |
| StatRecord.AnsweredPercentInRange | app/api/questions/stats/route.ts:43-46 | a record's right-answer percentage is 0 before any answer, 100 when all were right, and always in 0..100 |
| QuestionStats.LevelOf | app/api/questions/stats/route.ts:49-57 | new iff there are no repetitions; master iff repetitions ≥ 3, ease ≥ 2.3 and interval ≥ 21; guru iff the same with interval < 21; otherwise apprentice |
| QuestionStats.Mastery | app/api/questions/stats/route.ts:38-58 | with no record: level new, 0 % and `isNew`; otherwise the record's level and percentage, not `isNew` |
| QuestionStats.AnsweredButNew | app/api/questions/stats/route.ts:44-50 | a record without a repetition is shown as new even at 100 % right answers, and is not `isNew` |
| QuestionStats.MasteryPercentageInRange | app/api/questions/stats/route.ts:43-46 | the percentage shown is within 0..100 |
| QuestionStats.LevelMonotoneInInterval | app/api/questions/stats/route.ts:51-57 | a longer interval keeps a master a master and never turns an apprentice into anything else |
| BrowseQuestions.Progress | app/api/questions/all/route.ts:25 | the user's record is the first record attached, or none |
| BrowseQuestions.Summarize | app/api/questions/all/route.ts:24-66 | each entry keeps the question's id, reference, text and topic; its status comes from the record and its answer line from `Answer` |
| BrowseQuestions.SummarizeAll | app/api/questions/all/route.ts:24-67 | one entry per question, in the query's order |
| BrowseQuestions.StatusOf | app/api/questions/all/route.ts:36-42 | new iff there is no record or it has no repetitions; learning iff it has some and an interval below 21 days; mature iff it has some and at least 21 days |
| BrowseQuestions.OptionText | app/api/questions/all/route.ts:46-52 | each letter A–D with a non-empty option gives that option's text; a letter naming an empty option, or any other letter, gives the letter itself |
| BrowseQuestions.ExplanationSuffix | app/api/questions/all/route.ts:58 | the suffix is empty exactly when there is no explanation or it is empty, and otherwise is " - " and the explanation |
| BrowseQuestions.Answer | app/api/questions/all/route.ts:46-58 | the answer line is the letter, ": " and the option text, followed by the suffix and nothing else |
| BrowseQuestions.UnseenDefaults | app/api/questions/all/route.ts:25-65 | without a record an entry is new, at 0 %, with every counter 0 |
| BrowseQuestions.SeenReportsRecord | app/api/questions/all/route.ts:29-65 | with a record the entry shows the record's counters and its right-answer percentage |
| BrowseQuestions.StatusIgnoresEase | app/api/questions/all/route.ts:36-42 | the status depends only on repetitions and interval, never on the ease |
| BrowseQuestions.StatusCases | app/api/questions/all/route.ts:36-42 | new iff there are no repetitions; learning iff repetitions and interval < 21; mature iff repetitions and interval ≥ 21 |
| BrowseQuestions.AnswerShape | app/api/questions/all/route.ts:46-58 | the answer starts with the letter and ": "; next comes the text of option A, B, C or D when the letter names a non-empty one, and the letter itself when it names an empty option or is outside A–D; it ends with " - " and the explanation exactly when there is a non-empty explanation |
| BrowseQuestions.AnswerExamples | app/api/questions/all/route.ts:46-58 | "B: yes - why"; an empty option A falls back to "A: A"; an unknown letter E gives "E: E" |
| DashboardStats.LevelOf | app/api/stats/route.ts:54-66 | master iff repetitions ≥ 3, ease ≥ 2.3 and interval ≥ 21; guru iff the same with interval < 21; apprentice iff repetitions < 3 or ease < 2.3 |
| DashboardStats.Tally | app/api/stats/route.ts:51-67 | every record lands in exactly one bucket: apprentice + guru + master is the number of records |
| DashboardStats.TopicCountsCoverRows | app/api/stats/route.ts:51-67 | over distinct topic names that cover all records, each topic's buckets add up to its records, and the topics' counts add up to all records |
| DashboardStats.TotalNew | app/api/stats/route.ts:70-82 | the global `new` never exceeds the topics' questions, and without records it is all of them |
| DashboardStats.TopicNew | app/api/stats/route.ts:70-82 | a topic name's `new` is that of the last topic carrying the name, and 0 when no topic carries it |
| DashboardStats.TotalNewIsDifference | app/api/stats/route.ts:70-82 | the global `new` is the topics' question counts minus the records matched to each topic id |
| DashboardStats.NewCountIsUnreviewed | app/api/stats/route.ts:70-82 | with distinct topic ids covering every record, the global `new` is the number of questions never reviewed |
| DashboardStats.ProgressPercent | app/api/stats/route.ts:85-86 | the progress percentage is null (NaN or Infinity) exactly when there are no questions |
| DashboardStats.MasteryPercent | app/api/stats/route.ts:89-90 | the mastery percentage is 0 when there are no questions |
| DashboardStats.MasteryPercentInRange | app/api/stats/route.ts:89-90 | the mastery percentage is within 0..100 when the mastered questions are among all questions |
| DashboardStats.Accuracy | app/api/stats/route.ts:211 | 0 without records; null (NaN) exactly when there are records but no answers |
| DashboardStats.AccuracyInRange | app/api/stats/route.ts:211 | with consistent records the accuracy, when not null, is within 0..100 |
| DashboardStats.InitProgress | app/api/stats/route.ts:42-44 | every topic name starts with zero counters |
| DashboardStats.BucketRows | app/api/stats/route.ts:51-67 | the loop fails at the first record whose topic is unknown; otherwise the global and per-topic counters are the bucket tallies of the records |
| DashboardStats.CountNew | app/api/stats/route.ts:70-82 | the loop sets each topic's `new` (the last topic of a name wins) and adds every topic's difference into the global `new` |
| DashboardStats.DashboardOf | app/api/stats/route.ts:31-90 | every record is reviewed and lands in one of the three mastery buckets; the progress percentage is null exactly without questions, and the mastery percentage is 0 then |
| DashboardStats.ComputeDashboard | app/api/stats/route.ts:31-90 | the route succeeds iff every record's topic is known, and then yields exactly `DashboardOf`; otherwise it reports the first unknown topic |
| MasteryVariants.DashboardMatchesQuestionPage | app/api/questions/stats/route.ts:49-57 | the dashboard and the question page agree on every record with a repetition; without one the dashboard says apprentice and the page says new |
| MasteryVariants.BrowseStatusAgainstBuckets | app/api/questions/all/route.ts:36-42 | a master is mature and a guru is learning; a mature record is a master iff it has ≥ 3 repetitions and ease ≥ 2.3 |
| MasteryVariants.MatureApprentice | app/api/questions/all/route.ts:36-42 | a record can be mature in the list while it is an apprentice on the dashboard and on the question page |
| MasteryVariants.PercentagesAgree | app/api/questions/all/route.ts:30-33 | the browse list and the question page show the same right-answer percentage |

## Left out

- Floating point: ease factors, intervals and percentages are exact reals, so IEEE-754 rounding (e.g. 2.5 − 0.2) is not modelled.
- AnkiAlgorithm.AnkiScheduler.Schedule requires every step-table read to be in bounds (`StepReadsDefined`). Out of bounds, the source reads `undefined` and stores a NaN interval. `AnkiProperties.WellFormedReadsDefined` and `ScheduleKeepsWellFormed` show that this holds for every well-formed card, and stays so.
- Grades outside 0..3 and non-enum state strings are not modelled. The grade is a four-valued datatype, and the states are the five enum values.
- The `Date` objects are millisecond numbers given as parameters (`now`, `later`, `today`), and the local-timezone `setHours`/`setDate` arithmetic is not modelled. `calculateStreak` counts UTC days, floored. `calculateNextReview` reports the next review as a day number.
- `getIntervalDescription` is modelled only up to its unit and rounded amount, not the rendered string.
- The `details.wasLearningStep` and `details.stepsCompleted` fields are never set by the source and are left out. The `result` argument passed to the handlers is not used by them.
- Utils.FormatTime is defined on natural numbers of seconds. Negative or fractional input, where `%` and `Math.floor` differ, is not modelled.
- Utils.CalculateStreak models the in-place `Array.prototype.sort` by its result: the array is overwritten with the newest-first permutation. The engine's sorting steps are not modelled.
- In the browse list, a correct-answer letter that names an `Object.prototype` property (such as `"toString"`) is not modelled. It is treated like any other unknown letter, whereas the source would print a function.
- The `|| 0` defaults of the browse list are modelled for a missing record only. A NaN counter is not represented.
- Everything around the rules in the three routes is not part of this model: database queries (they are inputs here), authentication, request parsing, status codes and JSON responses. The same goes for the dashboard's streak query, today's minutes, the weekly progress and the due count.
- The dashboard's failure on a record whose topic is missing is modelled as a `Failure` naming that topic. The source throws a `TypeError` there and answers 500.
- The next review is kept as the exact real `later + interval · 86 400 000`. The fractional milliseconds that `new Date(ms)` drops are not modelled.
- The default arguments are not modelled: `config = DEFAULT_ANKI_CONFIG` of the scheduler's constructor, and `thresholds = DEFAULT_TIME_THRESHOLDS` of `suggestGradeFromTime`. Both values are explicit parameters. The defaults exist as `DefaultConfig` and `DefaultThresholds`.
- On the dashboard, a topic name that names an `Object.prototype` property (such as `"toString"`) is not modelled. The route's plain-object lookup would find that property instead of failing. The model treats such a name like any other unknown topic.
