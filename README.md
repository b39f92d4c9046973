# Rimix reminder manager — a verified Dafny model

Rimix is a reminder manager. Its records hold a title, an optional description, a free-form
date and time, a category and a priority. Around that record sit several small engines, and
this project models each of them in Dafny and proves what their code promises:

- **The reminder record** (`reminder.dfy`): the schema's trimming, length limits in UTF-16 code units, priority
  enum and defaults, as a validation function returning every broken constraint.
- **The sleep-prediction endpoint** (`prediction.dfy`): `analyzeReminderPatterns` as an
  imperative pass over the reminders, proved equal to a specification function. Then the
  clamped linear formulas, the fixed default, and the `POST` handler's ok/500 outcome.
- **The score and suggestion component** (`suggestions.dfy`): the sub-scores, the weighted,
  rounded and clamped sleep score, and the rule table that pushes suggestions. The stable
  sort by priority rank is proved sorted, a permutation, stable, and the only such order.
- **The dashboard graph** (`dashboard.dfy`): the client-side fallback analysis, the choice
  between the server's answer and the fallback, and the weekly series generator (the random
  source is a sequence of draws).
- **The main page** (`page.dfy`, `watcher.dfy`, `clocks.dfy`): dashboard statistics, search,
  pagination, and the list updates after create, update, delete and toggle. Also the
  stopwatch and timer displays, and the two clocks as classes stepped by their intervals.
  The due-reminder watcher is a class whose fired-key ledger fires each key once and
  forgets it 60 s later.
- **The dismissible alarm** (`alarm.dfy`): the `AudioAlarm` state machine. Audio and DOM
  effects are abstracted to fields, and every notification and `onClose` call is logged.
- **The two text extractors** (`speech.dfy`, `fileupload.dfy`): voice transcripts and text
  files turned into reminder fields. The regular expressions they use are hand-written
  scanners (`scan.dfy`), on top of the JavaScript string operations in `text.dfy`.
- `common.dfy` holds the option and result types, the clamp, and `Math.round(x * k) / k`
  on exact reals.

Numbers are exact reals: `Math.round(x * 10) / 10` is `floor(x * 10 + 1/2) / 10`. NaN from
`parseInt` is an explicit `None` that `Math.max` keeps. Every `Date` computation is a
function parameter: the date parsers, building a date and setting its clock with `setHours`,
and the "today + n" resolution.

## Model

| member | source | states |
|---|---|---|
| ReminderModel.ParsePriority | models/Reminder.ts:24-28 | only the exact lower-case names "low", "medium" and "high" are priorities |
| ReminderModel.PriorityNameRoundTrip | models/Reminder.ts:3-26 | every priority's name parses back to that priority |
| ReminderModel.SchemaErrors | models/Reminder.ts:17-32 | each constraint is reported exactly when the trimmed document breaks it: a missing or blank title, a title over 200 or a description over 2000 UTF-16 code units, a priority outside the enum |
| ReminderModel.Validate | models/Reminder.ts:17-32 | a document is rejected exactly when it breaks a constraint, with all the broken ones; otherwise it is stored trimmed, with category "Personal", priority medium and completed false as defaults |
| ReminderModel.AstralTitleTooLong | models/Reminder.ts:19 | a title of 101 or more characters beyond U+FFFF is over 200 code units and is rejected as too long |
| ReminderModel.DefaultsApplied | models/Reminder.ts:23-29 | a document with only a valid title gets category "Personal", priority medium and not completed |
| ReminderModel.WellFormedPasses | models/Reminder.ts:17-32 | a record the schema can have produced breaks no constraint when submitted again |
| ReminderModel.NothingBroken | models/Reminder.ts:19-28 | a document that breaks none of the four constraints has no schema error |
| ReminderModel.ValidateWellFormed | models/Reminder.ts:17-32 | storing a well-formed record again gives back the same record, without an identifier |
| SleepPrediction.Count | app/api/reminder-sleep-prediction/route.js:22-28 | a counter of the pass never exceeds the number of reminders |
| SleepPrediction.Reminders | app/api/reminder-sleep-prediction/route.js:19 | a fully readable request array is its list of reminders, element by element |
| SleepPrediction.TallyStep | app/api/reminder-sleep-prediction/route.js:19-41 | the variables after a prefix plus one reminder are one callback step from those after the prefix |
| SleepPrediction.Visit | app/api/reminder-sleep-prediction/route.js:19-41 | one `forEach` callback turns the variables of the reminders seen so far into those of the list with this reminder appended |
| SleepPrediction.TallyReminders | app/api/reminder-sleep-prediction/route.js:8-41 | the pass yields the summary of the whole list when every element is readable, and the exception otherwise |
| SleepPrediction.AnalyzeReminderPatterns | app/api/reminder-sleep-prediction/route.js:3-82 | the method (default, pass, `-=`/`+=` chains, clamps, rounding) computes exactly the analysis of the `reminders` value, whatever JSON value it is |
| SleepPrediction.CountStep | app/api/reminder-sleep-prediction/route.js:22-28 | each counter grows by one exactly when the new reminder passes its test |
| SleepPrediction.AnyStep | app/api/reminder-sleep-prediction/route.js:34-40 | a keyword flag, once set, stays set, and it is set by a reminder that mentions a keyword |
| SleepPrediction.LatestStep | app/api/reminder-sleep-prediction/route.js:20-24 | the latest hour takes `Math.max` with each timed reminder's hour, NaN being absorbing |
| SleepPrediction.Post | app/api/reminder-sleep-prediction/route.js:101-118 | the handler fails with status 500 and "Failed to analyze sleep patterns" exactly when the body is not JSON, is `null`, or the analysis throws, and otherwise answers `ok` with the analysis |
| SleepPrediction.EmptyGivesDefault | app/api/reminder-sleep-prediction/route.js:4-6 | a falsy `reminders`, an empty array or a value whose `length` is 0 answers 7.5 h, consistency 1.2, confidence 0.5 and an all-zero analysis |
| SleepPrediction.MalformedFails | app/api/reminder-sleep-prediction/route.js:30 | one element without a title fails the whole analysis, wherever it stands |
| SleepPrediction.NonArrayFails | app/api/reminder-sleep-prediction/route.js:4-19 | a truthy value that is not an array and whose `length` is not 0 makes `forEach` throw, failing the analysis |
| SleepPrediction.AnyIff | app/api/reminder-sleep-prediction/route.js:34-40 | a flag is set exactly when some reminder passes its test |
| SleepPrediction.CountsBounded | app/api/reminder-sleep-prediction/route.js:8-28 | every count lies between 0 and the number of reminders, which is the reported total |
| SleepPrediction.MentionFlags | app/api/reminder-sleep-prediction/route.js:30-40 | the sleep and stress flags are set exactly when some reminder's lower-cased title-and-description text contains one of the respective keywords |
| SleepPrediction.CriticalIsStress | app/api/reminder-sleep-prediction/route.js:16-17 | eight sleep keywords and eight stress keywords, "critical" among the latter |
| SleepPrediction.LatestNaN | app/api/reminder-sleep-prediction/route.js:20-24 | the latest hour is NaN exactly when some timed reminder's leading hour does not parse |
| SleepPrediction.LatestIsMaximum | app/api/reminder-sleep-prediction/route.js:14-24 | otherwise the latest hour is at least every parsed hour, and it is 0 or one of them |
| SleepPrediction.EveningIsHourAtLeast18 | app/api/reminder-sleep-prediction/route.js:20-22 | a reminder counts as evening exactly when it has a time whose leading hour parses to at least 18 |
| SleepPrediction.RatioBounds | app/api/reminder-sleep-prediction/route.js:43-45 | each ratio lies in [0, 1] |
| SleepPrediction.LateNightPenalty | app/api/reminder-sleep-prediction/route.js:55-57 | moving the latest hour from before 22 to 22 or later takes exactly 0.8 h off the unclamped duration and leaves the consistency alone |
| SleepPrediction.PredictInRange | app/api/reminder-sleep-prediction/route.js:65-70 | the duration ends in [4, 10] and the consistency in [0.5, 3.0], both with one decimal |
| SleepPrediction.PredictFromList | app/api/reminder-sleep-prediction/route.js:43-70 | for a real list the duration never exceeds 7.8 h, the consistency is never below 1.1, and 30 or more reminders give consistency 3.0 |
| SleepPrediction.AnalysisOfList | app/api/reminder-sleep-prediction/route.js:68-81 | a non-empty readable list gets confidence 0.78 and its own summary, whose total is the list's length |
| SleepPrediction.FiveReminderExample | app/api/reminder-sleep-prediction/route.js:43-70 | five reminders, three evening, two high-priority, a stress keyword, latest hour 20, predict 5.7 h and consistency 2.1 |
| Suggestions.DurationScore | app/_components/dashboard/personalized_suggestion.jsx:18-29 | the duration sub-score is one of 2, 4, 6, 7, 8, and 8 exactly inside the healthy 7-9 h band |
| Suggestions.ConsistencyScore | app/_components/dashboard/personalized_suggestion.jsx:31 | the consistency sub-score is never negative: it is 10 - 3c while the variation c is at most 10/3 and 0 from there on |
| Suggestions.EveningRule | app/_components/dashboard/personalized_suggestion.jsx:106-118 | the evening rule adds at most one line |
| Suggestions.HighPriorityRule | app/_components/dashboard/personalized_suggestion.jsx:120-132 | the high-priority rule adds at most one line |
| Suggestions.LateNightRule | app/_components/dashboard/personalized_suggestion.jsx:134-140 | the late-night rule adds at most one line |
| Suggestions.StressRule | app/_components/dashboard/personalized_suggestion.jsx:142-148 | the stress rule adds at most one line |
| Suggestions.SleepRule | app/_components/dashboard/personalized_suggestion.jsx:150-156 | the sleep-journal rule adds at most one line |
| Suggestions.WorkRule | app/_components/dashboard/personalized_suggestion.jsx:158-164 | the work-balance rule adds at most one line |
| Suggestions.PushedAnalysisAdvice | app/_components/dashboard/personalized_suggestion.jsx:105-165 | pushing the rules one after the other appends the analysis advice to the list |
| Suggestions.OfPriority | app/_components/dashboard/personalized_suggestion.jsx:185-188 | picking the lines of one priority keeps only lines of that priority, never more than the list |
| Suggestions.ComputeSleepScore | app/_components/dashboard/personalized_suggestion.jsx:16-55 | the sub-scores, the behaviour updates, the weighting, rounding and clamp compute the sleep score of the prediction |
| Suggestions.BuildSuggestions | app/_components/dashboard/personalized_suggestion.jsx:57-183 | the pushes in rule order build exactly the generated list: duration line, consistency line, analysis lines, three tips |
| Suggestions.PushAnalysisAdvice | app/_components/dashboard/personalized_suggestion.jsx:105-165 | the analysis pushes append exactly the lines of the six rules, in order |
| Suggestions.SleepScoreAndSuggestions | app/_components/dashboard/personalized_suggestion.jsx:8-194 | without sleep data the score is 6.12 with no advice; with it, the score and the generated list sorted by priority |
| Suggestions.Displayed | app/_components/dashboard/personalized_suggestion.jsx:283 | at most six lines are rendered, the first ones, all of them when there are six or fewer |
| Suggestions.NoDataNoAdvice | app/_components/dashboard/personalized_suggestion.jsx:9-14 | without sleep data the score is 6.12 and nothing is rendered |
| Suggestions.DurationScoreBands | app/_components/dashboard/personalized_suggestion.jsx:18-29 | the sub-score table: 8 for 7-9 h, 6 for 6-7 h, 7 above 9 h, 4 for 5-6 h, 2 below 5 h |
| Suggestions.BehaviorScoreRange | app/_components/dashboard/personalized_suggestion.jsx:33-47 | the behaviour sub-score is 5 without analysis and lies in [-1.5, 5.5]; it is 5.5 exactly with a sleep mention and no penalty |
| Suggestions.SleepScoreRange | app/_components/dashboard/personalized_suggestion.jsx:49-55 | the score lies in [0, 10] with two decimals, and for consistency in [0.5, 3] it is the rounded weighted sum with no clamp binding |
| Suggestions.AnalysisAdviceLength | app/_components/dashboard/personalized_suggestion.jsx:105-165 | the analysis adds at most six lines |
| Suggestions.GeneratedShape | app/_components/dashboard/personalized_suggestion.jsx:57-183 | the generated list has 5 to 11 lines: exactly one duration line, first, exactly one consistency line, second, and the three tips last; 5 without analysis |
| Suggestions.MiddleLines | app/_components/dashboard/personalized_suggestion.jsx:105-165 | the analysis adds no duration or consistency line and at most six lines |
| Suggestions.WorkBalanceIff | app/_components/dashboard/personalized_suggestion.jsx:158-164 | the work-balance line appears exactly when work and finance reminders are more than 60% of the total |
| Suggestions.OfPriorityAppend | app/_components/dashboard/personalized_suggestion.jsx:185-188 | picking one priority distributes over concatenation |
| Suggestions.SortedBySortByPriority | app/_components/dashboard/personalized_suggestion.jsx:185-188 | the sorted list is ordered high, medium, low |
| Suggestions.SortByPriorityPermutes | app/_components/dashboard/personalized_suggestion.jsx:185-188 | the sorted list is a permutation of the generated list |
| Suggestions.SortByPriorityStable | app/_components/dashboard/personalized_suggestion.jsx:185-188 | the sort is stable: lines of equal priority keep their relative order |
| Suggestions.OnlyPriority | app/_components/dashboard/personalized_suggestion.jsx:185-188 | a list of one priority is all kept when picking that priority and none when picking another |
| Suggestions.OfPriorityOfPriority | app/_components/dashboard/personalized_suggestion.jsx:185-188 | picking a priority twice is picking it once |
| Suggestions.SortedIsGrouped | app/_components/dashboard/personalized_suggestion.jsx:185-188 | a list already ordered by rank is left unchanged by the sort |
| Suggestions.NoneOfPriority | app/_components/dashboard/personalized_suggestion.jsx:185-188 | a list with no line of a priority yields nothing when picking it |
| Suggestions.SortByPriorityUnique | app/_components/dashboard/personalized_suggestion.jsx:185-188 | the stable sort's outcome is the only order that is sorted by rank and keeps each priority's lines in order |
| Suggestions.EvaluateSorted | app/_components/dashboard/personalized_suggestion.jsx:185-193 | with sleep data the component's list is sorted by rank, a permutation of the generated list, stable, with 5 to 11 lines |
| Suggestions.DescriptionMatchesColor | app/_components/dashboard/personalized_suggestion.jsx:203-215 | the description and the colour name the same band: Excellent and green from 8, Good and amber from 6, Fair and orange from 4, otherwise red |
| Suggestions.BandMonotone | app/_components/dashboard/personalized_suggestion.jsx:203-215 | a higher score never falls in a lower band |
| DashboardGraph.FallbackTallyStep | app/_components/dashboard/dashboard-graph.jsx:96-110 | the fallback's counters after one more reminder are the one-step update of the counters before it |
| DashboardGraph.FallbackVisit | app/_components/dashboard/dashboard-graph.jsx:96-110 | one `forEach` callback turns the counters of the reminders seen so far into those of the list with this reminder appended |
| DashboardGraph.AnalyzeRemindersFallback | app/_components/dashboard/dashboard-graph.jsx:70-137 | the loop, the `-=`/`+=` chains, the clamps and the rounding compute exactly the fallback prediction of the list |
| DashboardGraph.FallbackEmpty | app/_components/dashboard/dashboard-graph.jsx:71-86 | an absent or empty list gives 7.5 h, consistency 1.5 and confidence 0.5 |
| DashboardGraph.FallbackRange | app/_components/dashboard/dashboard-graph.jsx:112-125 | for a non-empty list the duration lies in [5.2, 7.5] and the consistency in [1.5, 3.0], so neither clamp binds, and rounding keeps both ranges |
| DashboardGraph.FallbackFlags | app/_components/dashboard/dashboard-graph.jsx:91-135 | a non-empty list gives confidence 0.7 and never a sleep mention; it flags stress exactly when some reminder's text contains one of the seven keywords |
| DashboardGraph.FallbackKeywords | app/_components/dashboard/dashboard-graph.jsx:94 | the fallback's keyword list is the server's list without "critical" |
| DashboardGraph.FallbackTextIsFullText | app/_components/dashboard/dashboard-graph.jsx:106 | the fallback searches the same lower-cased title-and-description text as the server |
| DashboardGraph.FallbackStressImpliesStress | app/_components/dashboard/dashboard-graph.jsx:106-109 | a reminder that the fallback counts as stressful is also stressful to the server |
| DashboardGraph.WorkCountIgnored | app/_components/dashboard/dashboard-graph.jsx:112-121 | the work count enters neither the duration formula nor the consistency formula |
| DashboardGraph.Dashboard.constructor | app/_components/dashboard/dashboard-graph.jsx:30-32 | the component starts with no prediction, loading, and nothing handed to the parent |
| DashboardGraph.Dashboard.FetchSleepPrediction | app/_components/dashboard/dashboard-graph.jsx:40-68 | an `ok` answer is shown and handed to the parent; a non-`ok` answer changes nothing; a request that throws shows the local fallback and hands it on; loading always ends |
| DashboardGraph.Dashboard.RemindersChanged | app/_components/dashboard/dashboard-graph.jsx:34-38 | without a reminder list nothing happens; with one, the fetch runs and its outcome is shown and handed on exactly as in `fetchSleepPrediction` |
| DashboardGraph.GenerateWeeklyData | app/_components/dashboard/dashboard-graph.jsx:356-376 | the generator yields seven sleep values and seven wake-up values, each from its own random draw |
| DashboardGraph.WeeklyBounds | app/_components/dashboard/dashboard-graph.jsx:359-375 | every sleep value lies in [4, 10] and every wake-up value in [5, 10], each with one decimal |
| DashboardGraph.MidDrawNoJitter | app/_components/dashboard/dashboard-graph.jsx:360-369 | a draw of 0.5 adds no variation: only the clamped base and the day adjustment remain |
| DashboardGraph.WeekendLift | app/_components/dashboard/dashboard-graph.jsx:361-368 | with the same draw, FRI and SAT (indices 5 and 6) never sleep or wake less than a weekday, and at most 1.1 h and 1.5 h more; before clamping they differ by exactly 1.1 h and 1.5 h |
| DashboardGraph.JitterBounded | app/_components/dashboard/dashboard-graph.jsx:360-367 | a draw in [0, 1) moves a day by at most half the consistency (sleep) or the whole consistency (wake-up) |
| DashboardGraph.PlaceholderSeries | app/_components/dashboard/dashboard-graph.jsx:222-228 | without a prediction both charts draw the fixed placeholder series |
| DashboardGraph.ChartShape | app/_components/dashboard/dashboard-graph.jsx:290-296 | with a prediction each chart draws seven values in its clamp range |
| Page.Filter | app/page.tsx:57-62 | `filter` keeps exactly the reminders that pass the test, and never more than the list |
| Page.FilterAll | app/page.tsx:191-194 | a filter that every reminder passes returns the list unchanged |
| Page.FilterSplit | app/page.tsx:59-60 | a test and its negation split the list: the completed and pending counts add up to its length |
| Page.FilterWeaker | app/page.tsx:60-61 | a stronger test keeps no more reminders |
| Page.StatsPartition | app/page.tsx:57-62 | completed plus pending is the total, and the high-priority count (pending high-priority reminders) is at most the pending count |
| Page.Search | app/page.tsx:191-194 | the search keeps exactly the reminders whose lower-cased title or description contains the lower-cased term |
| Page.EmptySearch | app/page.tsx:191-194 | an empty search term keeps the whole list, in order |
| Page.TotalPages | app/page.tsx:197 | `Math.ceil(n / 8)` pages are the fewest that hold n reminders |
| Page.Slice | app/page.tsx:199 | `Array.prototype.slice` never returns more than the list |
| Page.PageSize | app/page.tsx:196-199 | a page holds at most eight reminders, and a page in [1, totalPages] holds at least one |
| Page.PageOfIndex | app/page.tsx:196-199 | reminder i of the filtered list appears as item i mod 8 of page i div 8 + 1, which is a page in range |
| Page.StalePageEmpty | app/page.tsx:196-199 | a current page past the last one, left after the search narrows the list, shows nothing |
| Page.HandlePageChange | app/page.tsx:202-206 | a page change moves to the requested page when it is in [1, totalPages] and otherwise stays put |
| Page.PageChangeInRange | app/page.tsx:202-206 | page changes keep an in-range current page in range |
| Page.ReplaceById | app/page.tsx:219 | the map keeps the length and replaces exactly the entries whose `_id` equals the given one |
| Page.ToggleRequest | app/page.tsx:254-262 | no request is sent when no reminder has the `_id`; otherwise the request asks for the negation of `completed` of the first reminder with that `_id`, as `find` returns it |
| Page.UpdateKeepsOthers | app/page.tsx:217-220 | after an update the list keeps its length and order; the answered record replaces exactly the entries with its `_id`, and a failed answer changes nothing |
| Page.ToggleKeepsOthers | app/page.tsx:263-264 | after a toggle the list keeps its length and order, and the answered record replaces exactly the entries with that `_id` |
| Page.DeleteRemovesId | app/page.tsx:247-249 | a successful delete removes exactly the reminders with that `_id` and keeps every other |
| Page.CreatePrepends | app/page.tsx:228-229 | a successful create puts the new record first, followed by the old list unchanged |
| Page.StopwatchFields | app/page.tsx:310-315 | minutes, seconds and centiseconds of the display recompose the time up to its last 10 ms, with seconds below 60 and centiseconds below 100 |
| Page.DivModUnique | app/page.tsx:311-313 | the quotient and remainder the display uses are the only ones for the value |
| Page.TwoDigitsValue | app/page.tsx:314 | `padStart(2, '0')` of a number below 100 is two digits that denote it |
| Page.StopwatchReadBack | app/page.tsx:310-315 | the stopwatch display reads back as minutes, ':', two seconds digits, '.', two centisecond digits, each denoting its field |
| Page.TimerReadBack | app/page.tsx:317-321 | a non-negative timer display reads back as minutes, ':' and two seconds digits that recompose the value |
| Page.NegativeTimer | app/page.tsx:317-321 | a negative timer shows the floored minute count and a signed seconds field: -300 s gives "-5:00", -90 s gives "-2:-30" |
| Page.FormatStopwatchTime | app/page.tsx:310-315 | the stopwatch display always has at least eight characters, with ':' and '.' in their `MM:SS.CC` places |
| Page.FormatTimerTime | app/page.tsx:317-321 | a non-negative timer display has at least five characters, with ':' before the two seconds digits |
| DueWatcher.GetDueDate | app/page.tsx:85-91 | `getDueDate` computes the due instant: the date with its local clock set by `setHours` to the hour and minute parsed from the time |
| DueWatcher.DueDate | app/page.tsx:85-91 | a due instant exists only for a reminder with a non-empty date and time, and it is the date with its local clock set to the parsed hour and minute |
| DueWatcher.DueDateNone | app/page.tsx:86-90 | there is no due instant exactly when the date or the time is missing or empty, or the date with its clock set is invalid; a garbled time never removes it by itself |
| DueWatcher.ClockParts | app/page.tsx:87-89 | a time written as digits, ':' and digits reads as that hour and minute |
| DueWatcher.DueDateDigits | app/page.tsx:86-90 | a reminder timed "hh:mm" in digits is due at its date with the local clock set to hh:mm |
| DueWatcher.GarbledTimeIsMidnight | app/page.tsx:87-89 | a time with no colon and no leading number sets the date's clock to 00:00 |
| DueWatcher.CheckOneConsistent | app/page.tsx:166-181 | checking one reminder keeps the fired-key ledger equal to the keys with a pending deletion, one deletion per key |
| DueWatcher.CheckConsistent | app/page.tsx:164-182 | a whole check keeps that ledger consistent |
| DueWatcher.CheckDelivers | app/page.tsx:164-182 | a check only appends to the deliveries; everything it delivers is an open reminder of the list due within 5 s whose key was not held, and no two deliveries share a key |
| DueWatcher.CheckFiredGrows | app/page.tsx:173-174 | a check never removes a key from the ledger |
| DueWatcher.CheckFired | app/page.tsx:164-182 | after a check the ledger holds exactly the old keys plus the keys of the list's open reminders due within 5 s |
| DueWatcher.CheckSchedules | app/page.tsx:177-179 | a check schedules one deletion per delivery, each 60 s after the check |
| DueWatcher.CheckAll | app/page.tsx:164-182 | a check over the list only appends to the deliveries, at most one per reminder of the list |
| DueWatcher.EvictConsistent | app/page.tsx:177-179 | running a scheduled deletion keeps the ledger consistent |
| DueWatcher.Watcher.constructor | app/page.tsx:52 | the watcher starts with an empty ledger, nothing delivered and no interval |
| DueWatcher.Watcher.Tick | app/page.tsx:164-182 | each tick of the interval performs a check at the current instant and keeps the ledger consistent |
| DueWatcher.Watcher.Mount | app/page.tsx:184-186 | the effect checks at once and installs the 5 s interval; the ledger carries over from the previous reminder list |
| DueWatcher.Watcher.Unmount | app/page.tsx:188 | the cleanup clears the interval only; the ledger and its pending deletions stay |
| DueWatcher.Watcher.Evict | app/page.tsx:177-179 | a pending deletion, when it runs, removes its key from the ledger |
| DueWatcher.SharedKeyFiresOnce | app/page.tsx:170-175 | two due open reminders with the same `_id \|\| title` key: one check delivers only the first |
| DueWatcher.FiresOnceUntilEvicted | app/page.tsx:172-179 | a due reminder fires on the first check, not again while its key is held, and again after the 60 s deletion |
| Clocks.Stopwatch.constructor | app/page.tsx:42-43 | the stopwatch starts at 0 ms, stopped |
| Clocks.Stopwatch.Tick | app/page.tsx:282-293 | while running, each 10 ms interval adds 10 ms and keeps the time a multiple of 10 |
| Clocks.Stopwatch.Start | app/page.tsx:668-674 | Start sets the stopwatch running and keeps its time |
| Clocks.Stopwatch.Pause | app/page.tsx:676-682 | Pause stops it and keeps its time |
| Clocks.Stopwatch.Reset | app/page.tsx:684-693 | Reset stops it and zeroes it |
| Clocks.StopwatchDisplayExact | app/page.tsx:310-315 | for any multiple of 10 ms, the minutes, seconds and centiseconds shown add back up to the stopwatch time exactly |
| Clocks.CountdownTimer.constructor | app/page.tsx:44-45 | the timer starts at 300 s, stopped |
| Clocks.CountdownTimer.Settle | app/page.tsx:295-308 | when no interval is installed, a time of exactly 0 stops the timer; the time itself never changes here |
| Clocks.CountdownTimer.Tick | app/page.tsx:297-301 | the one-second interval decrements a positive running time, and reaching 0 stops the timer |
| Clocks.CountdownTimer.Start | app/page.tsx:729-735 | Start sets the timer running, except that a timer at 0 stops again at once |
| Clocks.CountdownTimer.Pause | app/page.tsx:737-743 | Pause stops the timer and keeps its time |
| Clocks.CountdownTimer.Reset | app/page.tsx:745-752 | Reset stops the timer and puts it back to 300 s |
| Clocks.CountdownTimer.SetMinutes | app/page.tsx:714-725 | the minutes input sets `parseInt(value) * 60` seconds (NaN when unparsable) and is disabled while the timer runs |
| Clocks.MinutesEntry | app/page.tsx:718 | the entry gives NaN exactly when `parseInt` does, and otherwise a whole number of minutes in seconds |
| Clocks.EntryShown | app/page.tsx:717-718 | the input shows back the minutes just entered, NaN included |
| Clocks.DigitsEntry | app/page.tsx:718 | a plain decimal entry sets that many minutes in seconds |
| Alarm.RemainingMessages | lib/alarm.ts:142-143 | after a click the notification reads "2 more spots to go!", then "1 more spot to go!" (singular only for one) |
| Alarm.SpotIndicesBound | lib/alarm.ts:132-147 | the clicked-spot set only holds indices of the three spots, so it never has more than three elements |
| Alarm.AudioAlarm.constructor | lib/alarm.ts:22-30 | a new alarm is stopped and holds no callback; whether it has an audio context is the outcome of creating one |
| Alarm.AudioAlarm.Start | lib/alarm.ts:202-227 | start is ignored while playing; without a context that cannot be created it does nothing; otherwise it stores the callback, sounds the triangle 440 Hz and sine 554.37 Hz tones, places three unclicked spots and posts "Click all 3 spots to dismiss the alarm!" |
| Alarm.AudioAlarm.Stop | lib/alarm.ts:229-253 | stop releases the tones, the modulation and the spots, clears the clicked set and calls the stored callback, on every call |
| Alarm.AudioAlarm.HandleSpotClick | lib/alarm.ts:132-148 | a repeated click changes nothing; a new click that leaves spots posts how many remain; the third distinct click stops the alarm, calls the callback and posts "Alarm dismissed!" |
| Alarm.AudioAlarm.IsActive | lib/alarm.ts:255-257 | reports whether the alarm is playing |
| Alarm.AudioAlarm.Cleanup | lib/alarm.ts:259-268 | cleanup stops the alarm (calling the callback) and drops the audio context |
| Speech.FormatDateReadBack | lib/speech.ts:98-103 | a formatted date reads back as the year, the 1-based month and the day, the last two as exactly two digits |
| Speech.FormatDateToISO | lib/speech.ts:98-103 | a month index below 99 and a day below 100 give the year, '-', two digits, '-', two digits |
| Speech.NextWordAt | lib/speech.ts:116 | `next\s+(\w+)` matches "next" (any case), white space and a non-empty word |
| Speech.ParseRelativeDate | lib/speech.ts:105-138 | "today" and "tomorrow" exactly when the whole string is that word in any case; any other relative date needs "next" (any case) in the string |
| Speech.TwelveHourAt | lib/speech.ts:141 | a 12-hour match captures one or two hour digits and, when present, two minute digits |
| Speech.To24Range | lib/speech.ts:147-151 | hours 1 to 12 convert into 0..23, in the afternoon exactly for pm, keeping the hour modulo 12 |
| Speech.To24Injective | lib/speech.ts:147-151 | different 12-hour readings convert to different 24-hour hours |
| Speech.To24 | lib/speech.ts:147-151 | the conversion keeps the hour modulo 12, and for an hour up to 12 it lies in 0..23, in the afternoon exactly for pm |
| Speech.ParseTime12to24 | lib/speech.ts:140-154 | a converted time has the `HH:MM` shape, the minutes defaulting to "00"; there is none exactly when the 12-hour pattern matches nowhere |
| Speech.ParseTime12to24ReadBack | lib/speech.ts:140-154 | at the leftmost 12-hour match the result is the converted hour `To24(h, pm)` in digits (two of them below 100), ':' and the captured minutes or "00" |
| Speech.LeadWord | lib/speech.ts:169 | a recognised leading word lies inside the text |
| Speech.NextUnitEnd | lib/speech.ts:169 | `next week`, `next month` or `next year` ends inside the text |
| Speech.DayMonthAt | lib/speech.ts:169 | a day-and-month phrase ends inside the text |
| Speech.DateWordAt | lib/speech.ts:169 | the date group of the first pattern ends inside the text, after it starts |
| Speech.DateAt | lib/speech.ts:168-172 | a date pattern's group starts no earlier than the match and ends inside the text |
| Speech.TimeAt | lib/speech.ts:198-201 | a time pattern's group starts no earlier than the match and ends inside the text |
| Speech.DateMatch | lib/speech.ts:175 | `text.match(pattern)` for a date pattern: the leftmost position where it matches with its group, none exactly when it matches nowhere |
| Speech.TimeMatch | lib/speech.ts:204 | `text.match(pattern)` for a time pattern: the leftmost position where it matches with its group, none exactly when it matches nowhere |
| Speech.RemovedShorter | lib/speech.ts:182 | removing a non-empty matched text and trimming leaves a trimmed, strictly shorter text |
| Speech.TryDate | lib/speech.ts:175-195 | a pattern that matches nowhere gives no date; a date found leaves a trimmed text shorter than before |
| Speech.TryDateAt | lib/speech.ts:175-195 | at the leftmost match of a date pattern, a relative reading of the group wins and is formatted from its resolved day; otherwise the group's parsed date is formatted, or there is none; the text left is the trimmed text without the first occurrence of the match |
| Speech.TerminatorFrom | lib/speech.ts:159 | the first '.', '!' or '?' at or after a position, or none |
| Speech.FirstTerminator | lib/speech.ts:159 | `/^[^.!?]*[.!?]/` ends at the first terminator, and fails exactly when there is none |
| Speech.TitleRest | lib/speech.ts:159-162 | the title is the trimmed text up to and including the first terminator, and scanning goes on after it |
| Speech.TitleStage | lib/speech.ts:159-166 | without a terminator the whole transcript is the title and nothing is left; otherwise the title is non-empty, trimmed and ends with its terminator, and the rest is trimmed and no longer than what follows |
| Speech.DateStage | lib/speech.ts:174-196 | the date loop finds no date exactly when no pattern yields one, and then leaves the text unchanged |
| Speech.DateStageFirst | lib/speech.ts:174-196 | the date and the remaining text are those of the first pattern that yields a date |
| Speech.TryTime | lib/speech.ts:204-220 | a time found has the `HH:MM` shape; a pattern that matches nowhere gives none; a time found leaves a trimmed, shorter text; the `DD:DD` pattern only yields valid 24-hour clocks |
| Speech.TryAtTime | lib/speech.ts:204-220 | at the leftmost match of the `at`/`by` pattern, the time is `parseTime12to24` of the group when it gives one, else the group when it is `DD:DD`, else none; the text left is the trimmed text without the first occurrence of the match |
| Speech.ClockGroupHasNoMeridian | lib/speech.ts:208-209 | the group of the `DD:DD` pattern never converts as a 12-hour time, so only the `^\d{2}:\d{2}$` test decides it |
| Speech.TryClockTime | lib/speech.ts:204-220 | at the leftmost `DD:DD` match the pattern yields the captured group, with the first occurrence of the match removed, exactly when the group is a valid 24-hour clock |
| Speech.TimeStage | lib/speech.ts:203-221 | the time loop's time has the `HH:MM` shape; there is none exactly when no pattern yields one, and then the text is unchanged |
| Speech.TimeStageFirst | lib/speech.ts:203-221 | the time and the remaining text are those of the first pattern that yields a time |
| Speech.NoWordsInClockText | lib/speech.ts:199-208 | text made only of digits and colons holds no 12-hour time and no `at`/`by` phrase |
| Speech.RemoveSpan | lib/speech.ts:226-234 | cutting out a span keeps what is before and after it |
| Speech.ReplaceFirstAtMatch | lib/speech.ts:182 | when the first literal occurrence of the matched text is the match itself, `replace` removes exactly the match |
| Speech.PriorityStage | lib/speech.ts:223-227 | the priority is one of high, medium, low; there is none exactly when the pattern matches nowhere, and then the text is unchanged (the match itself is cut out) |
| Speech.PriorityStageAsWritten | lib/speech.ts:223-227 | as the source runs it: the same priority as the corrected stage, and an unchanged text when there is none |
| Speech.PriorityStageAt | lib/speech.ts:223-227 | at the leftmost match the priority is the lower-cased captured word; the corrected stage cuts out that match, the as-written stage the first occurrence of its text, and both trim |
| Speech.PriorityStagesAgree | lib/speech.ts:226 | when the first occurrence of the matched text is the match itself, the as-written and corrected stages agree |
| Speech.CategoryStage | lib/speech.ts:229-235 | the category is one of the five names as written in the text; there is none exactly when no name stands on its own, and then the text is unchanged (the match itself is cut out) |
| Speech.CategoryStageAsWritten | lib/speech.ts:229-235 | as the source runs it: the same category as the corrected stage, and an unchanged text when there is none |
| Speech.CategoryStageAt | lib/speech.ts:229-235 | at the leftmost match the category is the matched text, one of the five names in some casing; the corrected stage cuts out that match, the as-written stage the first occurrence of its text |
| Speech.Description | lib/speech.ts:237-239 | the description is the non-empty trimmed remainder, absent when only white space is left |
| Speech.ExtractInfo | lib/speech.ts:156-242 | `extractReminderInfo` as written, `replace` included: the description is trimmed and non-empty, the priority a priority word, the category a known name, the time `HH:MM` shaped |
| Speech.ExtractInfoCorrected | lib/speech.ts:156-242 | the same steps with the matches themselves cut out, with the same guarantees on every field |
| Speech.ExtractInfoCorrectedAgrees | lib/speech.ts:222-235 | the two extractions give the same title, date, time and priority, and are equal whenever both `replace` calls remove the match itself |
| Speech.NoDateInEmpty | lib/speech.ts:174-196 | nothing in the empty string matches a date pattern |
| Speech.NoTimeInEmpty | lib/speech.ts:203-221 | nothing in the empty string matches a time pattern |
| Speech.NoTerminatorAllTitle | lib/speech.ts:163-166 | without '.', '!' or '?' the whole transcript is the title and nothing else is extracted |
| Speech.FindDate | lib/speech.ts:168-196 | the date loop tries the patterns in order and stops at the first that yields a date |
| Speech.FindTime | lib/speech.ts:198-221 | the time loop tries the patterns in order and stops at the first that yields a time |
| Speech.ExtractReminderInfo | lib/speech.ts:156-242 | the method runs the title, date, time, priority, category and description steps, with `replace` as written, and yields the as-written extraction of the transcript |
| SpeechExamples.TomorrowAnyCase | lib/speech.ts:110-113 | "Tomorrow" is recognised whatever its case |
| SpeechExamples.NextWeekSpaced | lib/speech.ts:116-124 | "next  week", with two spaces, is next week |
| SpeechExamples.NextWeekendUnknown | lib/speech.ts:116-132 | "next weekend" is no date: the unit is the whole word "weekend" |
| SpeechExamples.FivePm | lib/speech.ts:140-154 | "5pm" converts to "17:00" |
| SpeechExamples.TwelveAm | lib/speech.ts:149-150 | "12 am" converts to "00:00" |
| SpeechExamples.NoAtTimeInClockText | lib/speech.ts:199 | text of digits and colons yields no time through the `at`/`by` pattern |
| SpeechExamples.WholeClockFound | lib/speech.ts:200-218 | in a bare `D:DD` or `DD:DD` reading the second time pattern matches the whole text |
| SpeechExamples.SingleDigitClockIgnored | lib/speech.ts:215 | a bare `D:DD` reading such as "9:15" matches the pattern but is not `DD:DD`, so no time is taken and the text stays |
| SpeechExamples.TwoDigitClockTry | lib/speech.ts:204-218 | a bare `DD:DD` reading yields itself through the second pattern |
| SpeechExamples.TwoDigitClockKept | lib/speech.ts:203-221 | the time loop on a bare `DD:DD` reading takes it, including out-of-range ones such as "99:99", and leaves no text |
| SpeechExamples.PriorityRemovalMisplaced | lib/speech.ts:226 | as written, on "blow low" the matched "low" is the second word but `replace` cuts the "low" inside "blow", leaving "b low" |
| SpeechExamples.PriorityRemovalCorrected | lib/speech.ts:223-227 | cutting out the match itself leaves "blow" |
| SpeechExamples.CategoryRemovalMisplaced | lib/speech.ts:234 | as written, on "rework work" `replace` cuts the "work" inside "rework", leaving "re work" |
| SpeechExamples.CategoryRemovalCorrected | lib/speech.ts:231-235 | cutting out the match itself leaves "rework" |
| FileUpload.MonthMapAgrees | lib/fileUpload.ts:65-71 | the month table knows the short and the long name of every month the month alternation matches, each mapped to its 0-based month |
| FileUpload.IsoDayAt | lib/fileUpload.ts:54 | a match of the ISO pattern spans ten characters, four digits first, and ends at a word boundary |
| FileUpload.SlashDayAt | lib/fileUpload.ts:55 | a match of the slash pattern starts with a digit, spans at least day, month and a four-digit year, and ends at a word boundary |
| FileUpload.YearAfterDay | lib/fileUpload.ts:56 | after the day, the optional ordinal suffix, comma and spaces are followed by exactly four digits at a word boundary |
| FileUpload.DayYearAt | lib/fileUpload.ts:56 | the captured day has one or two digits and the captured year four |
| FileUpload.MonthNameAt | lib/fileUpload.ts:56 | the month alternation matches (case-insensitively) exactly where the month scanner does, and the table maps its lower-cased name to the index of the month matched |
| FileUpload.MonthDayYearAt | lib/fileUpload.ts:56 | a match of the month-name pattern captures a known month name, mapped by the table to the month matched there, a digit day and a four-digit year |
| FileUpload.DateSearch | lib/fileUpload.ts:60 | `text.match(pattern)` yields a captured span inside the text, or, only for the month-name pattern, the three groups with the name mapped to the month matched at the match |
| FileUpload.TryDateForm | lib/fileUpload.ts:59-85 | a pattern without a match gives no date; a span match gives `new Date` of exactly the matched span; a month-name match always gives the local day of the year, the matched month's 0-based index and the day |
| FileUpload.DateFrom | lib/fileUpload.ts:59-88 | no date exactly when no remaining pattern gives a valid date |
| FileUpload.DateFromFirst | lib/fileUpload.ts:59-88 | from any pattern on, the date returned is that of the first pattern that gives a valid one |
| FileUpload.FileDate | lib/fileUpload.ts:52-89 | the file's date is the ISO pattern's when valid, else the slash pattern's when valid, else the month-name pattern's; none exactly when no pattern gives a valid date |
| FileUpload.FileDateFirst | lib/fileUpload.ts:52-89 | the date is that of the first pattern that gives a valid one |
| FileUpload.ParseDate | lib/fileUpload.ts:52-89 | the loop returns the file's date: that of the first of the ISO, slash and month-name patterns that gives a valid one, and undefined when none does |
| FileUpload.ClockAt | lib/fileUpload.ts:93 | a match of the 24-hour pattern is five characters, two digits, ':' and two digits |
| FileUpload.MeridianAt | lib/fileUpload.ts:94 | a match of the 12-hour pattern captures one or two hour digits and two minute digits |
| FileUpload.TimeSearch | lib/fileUpload.ts:98 | the first match of a time pattern is a `DD:DD` span of the text for the 24-hour pattern, and a 12-hour capture for the other |
| FileUpload.TwoDigitsBelow100 | lib/fileUpload.ts:103 | two digits denote a number below 100, so padding the minutes gives two characters |
| FileUpload.MeridianClock | lib/fileUpload.ts:101-109 | the converted 12-hour time is rendered as a `DD:DD` clock |
| FileUpload.TryTimeForm | lib/fileUpload.ts:97-116 | a pattern gives a time exactly when it matches: the 24-hour pattern gives the five matched characters verbatim, with no range check, and the 12-hour pattern gives the converted clock of its captures |
| FileUpload.TimeFrom | lib/fileUpload.ts:97-119 | no time exactly when no remaining pattern matches, and every time found is `DD:DD` shaped |
| FileUpload.TimeFromFirst | lib/fileUpload.ts:97-119 | from any pattern on, the time returned is that of the first pattern that matches |
| FileUpload.FileTime | lib/fileUpload.ts:91-120 | no time exactly when neither pattern matches; the 24-hour match wins whenever there is one, and otherwise the time is the 12-hour pattern's |
| FileUpload.ParseTime | lib/fileUpload.ts:91-120 | the loop returns the file's time: the 24-hour match when there is one, otherwise the converted 12-hour match, and undefined when neither matches |
| FileUpload.NonBlank | lib/fileUpload.ts:123 | trimming and `filter(Boolean)` leave only non-empty, trimmed lines |
| FileUpload.TrimKeepsOut | lib/fileUpload.ts:123 | trimming adds no character, so a line break cannot appear in a trimmed part |
| FileUpload.NonBlankKeepsOut | lib/fileUpload.ts:123 | no kept line holds a character that none of the split parts holds |
| FileUpload.LinesShape | lib/fileUpload.ts:123 | every line of the file is non-blank, trimmed and free of line breaks |
| FileUpload.TitleShape | lib/fileUpload.ts:126 | the title is a non-blank single trimmed line, the placeholder exactly when there is no line or the first line is the placeholder |
| FileUpload.Title | lib/fileUpload.ts:126 | the title is never empty, and is the first line whenever it is not the placeholder |
| FileUpload.JoinEnds | lib/fileUpload.ts:127 | a join of non-empty pieces starts with the first piece's first character and ends with the last piece's last character |
| FileUpload.DescriptionOf | lib/fileUpload.ts:127 | a description is non-empty, trimmed and no longer than the joined lines after the first |
| FileUpload.DescriptionJoinsRest | lib/fileUpload.ts:127 | the final `trim()` changes nothing: the description is the lines after the first joined by '\n', present exactly when there are at least two lines |
| FileUpload.LabelledAt | lib/fileUpload.ts:139 | a match of `category: <name>` captures a name the category scanner recognises |
| FileUpload.TypedAt | lib/fileUpload.ts:141 | a match of `<name> category` or `<name> type` captures a category name at the match start |
| FileUpload.BareAt | lib/fileUpload.ts:142 | the bare pattern matches exactly where a category name stands on its own |
| FileUpload.CapturedName | lib/fileUpload.ts:145 | the captured name is one of the five categories in some casing, and occurs in the text |
| FileUpload.CategoryOf | lib/fileUpload.ts:139-146 | the category is a known name, as written in the text, and there is one exactly when some name stands on its own |
| FileUpload.LabelledCategoryWins | lib/fileUpload.ts:139-146 | when `category: <name>` matches, the category is the name of its leftmost match, whatever comes before it |
| FileUpload.TypedCategoryNext | lib/fileUpload.ts:139-146 | without a `category:` label, a `<name> category` or `<name> type` phrase gives the name of its leftmost match |
| FileUpload.BareCategoryLast | lib/fileUpload.ts:139-146 | with neither of those, the category is the leftmost name standing on its own |
| FileUpload.PriorityOf | lib/fileUpload.ts:134-137 | the priority is "high", "medium" or "low", and there is one exactly when the priority pattern matches somewhere in the text |
| FileUpload.PriorityOfFirst | lib/fileUpload.ts:134-137 | the priority is the lower-cased word of the leftmost match of the priority pattern |
| FileUpload.ExtractFromText | lib/fileUpload.ts:122-149 | the extracted title, description, priority and category have the shapes above; date, time, priority and category are those of the whole text, priority and category absent exactly when their patterns match nowhere, time exactly when neither time pattern matches |
| FileUpload.ExtractReminderFromText | lib/fileUpload.ts:122-149 | the step-by-step filling of the fields yields the extraction of the text |
| FileUpload.NoDigitsNoDateOrTime | lib/fileUpload.ts:52-120 | a text with no digit has neither a date nor a time |
| FileUpload.NoDigitsNoDayYear | lib/fileUpload.ts:56 | without digits the day-and-year part of the month-name pattern never matches |
| FileUpload.LeadingClockVerbatim | lib/fileUpload.ts:93-111 | a text starting with `DD:DD` and then a non-word character has that time verbatim, so "11:30 pm" gives "11:30" and "99:99" is kept as it stands |
| FileUpload.MeridianClockReadBack | lib/fileUpload.ts:102-109 | a 12-hour match with hour 1 to 12 gives a valid 24-hour clock whose fields read back as the converted hour and the minutes |
| FileUpload.FileTimeMeridian | lib/fileUpload.ts:91-120 | without a `DD:DD` time, a 12-hour time with hour 1 to 12 gives the file a valid 24-hour time whose fields read back as the converted hour and the minutes |
| FileUpload.LabelBeatsEarlierName | lib/fileUpload.ts:139-146 | in "Work. category: Finance" the label wins over the earlier bare name: the category is "Finance" |
| Scan.Search | lib/speech.ts:175 | `String.prototype.match` without the `g` flag: the leftmost position where the pattern matches, none exactly when it matches nowhere |
| Scan.SearchNone | lib/fileUpload.ts:60 | a pattern that matches at no position gives no match |
| Scan.SearchFinds | lib/fileUpload.ts:60 | the match found is at the first position where the pattern matches |
| Scan.SpaceRun | lib/speech.ts:116 | `\s*` takes the whole run of white space |
| Scan.DigitCount | lib/speech.ts:141 | `\d` runs: the number of digits at a position, stopping at the first non-digit |
| Scan.WordRun | lib/speech.ts:116 | `\w+` runs consist of word characters |
| Scan.FirstLit | lib/fileUpload.ts:56 | an alternation tries its words in order: the first that occurs (ignoring case) wins |
| Scan.PriorityAt | lib/speech.ts:223 | a match of `\b(high\|medium\|low)(?:\s+priority)?\b` starts and ends at word boundaries and captures one of the three words |
| Scan.CategoryAt | lib/speech.ts:229-231 | a match of `\b(Work\|Personal\|Health\|Finance\|Other)\b` is one of the five names (any case) between word boundaries |
| Scan.MonthAt | lib/fileUpload.ts:56 | the month alternation matches a short month name, or its long form, inside the text |
| Text.ToLower | app/api/reminder-sleep-prediction/route.js:30-31 | `toLowerCase` keeps the length and lower-cases each letter |
| Text.IndexOf | lib/speech.ts:162 | `indexOf` finds the first occurrence at or after a position, none exactly when there is none |
| Text.ContainsIndexOf | app/page.tsx:192-193 | `includes` holds exactly when `indexOf` finds the word |
| Text.ReplaceFirst | lib/speech.ts:226 | `replace` with a string pattern removes only the first literal occurrence, and changes nothing without one |
| Text.ReplacePrefix | lib/speech.ts:162 | replacing a prefix of the text removes that prefix |
| Text.TrimStart | lib/speech.ts:162 | leading white space goes and the rest is a suffix |
| Text.TrimEnd | lib/speech.ts:162 | trailing white space goes and the rest is a prefix |
| Text.Trim | models/Reminder.ts:19-20 | `trim` leaves no white space at either end |
| Text.TrimShape | lib/fileUpload.ts:123 | what `trim` keeps is the infix between a run of leading and a run of trailing white space |
| Text.TrimOfTrimmed | lib/fileUpload.ts:127 | a string with no white space at either end is its own trim |
| Text.TrimIdempotent | lib/speech.ts:237-238 | trimming twice is trimming once |
| Text.TrimAllSpace | lib/speech.ts:237 | a string of white space trims to the empty string |
| Text.Split | lib/fileUpload.ts:123 | `split` on one character gives at least one part and no part holds the separator |
| Text.JoinSplit | lib/fileUpload.ts:123-127 | splitting on a character and joining with it gives the string back |
| Text.SplitTwo | app/page.tsx:87 | two pieces without the separator, joined by it, split back into the two pieces |
| Text.NatToString | app/page.tsx:314 | `String(n)` is a non-empty run of digits without a leading zero |
| Text.NatToStringValue | app/page.tsx:314 | the rendering of a number reads back as that number |
| Text.Pad2 | app/page.tsx:314 | `padStart(2, '0')` pads to two characters with zeros and leaves longer strings alone |
| Text.Pad2Value | lib/speech.ts:100-101 | a padded rendering still reads back as the number, and is exactly two digits below 100 |
| Text.ParseInt | app/page.tsx:87 | `parseInt(s, 10)` is NaN exactly when no digit follows the leading white space and sign |
| Text.Utf16Length | models/Reminder.ts:19-20 | `length` counts UTF-16 code units: between one and two per character, exactly one each when none is beyond U+FFFF and exactly two each when all are |
| Text.Utf16LengthAppend | models/Reminder.ts:19-20 | the code-unit length of a concatenation is the sum of the lengths |
| Text.ParseIntDigits | app/page.tsx:87 | a string of digits parses to its value |
| Text.ParseIntAuto | app/page.tsx:718 | `parseInt` without a radix agrees with the decimal one on text without an 'x' |
| Common.Clamp | app/api/reminder-sleep-prediction/route.js:65-66 | `Math.max(lo, Math.min(hi, x))` lies in [lo, hi], is x inside the range and the nearer end outside it |
| Common.Round1Near | app/api/reminder-sleep-prediction/route.js:69-70 | `Math.round(x * 10) / 10` has one decimal and lies within 0.05 of x |
| Common.Round1Grid | app/api/reminder-sleep-prediction/route.js:69-70 | rounding to one decimal leaves a one-decimal value unchanged |
| Common.Round1Monotone | app/_components/dashboard/dashboard-graph.jsx:124-125 | rounding to one decimal is monotone |
| Common.Round1Between | app/_components/dashboard/dashboard-graph.jsx:373-374 | rounding to one decimal stays inside any range with one-decimal ends, so clamped-then-rounded values keep their clamp range |
| Common.Round2Near | app/_components/dashboard/personalized_suggestion.jsx:55 | `Math.round(x * 100) / 100` has two decimals and lies within 0.005 of x |
| Common.Round2Grid | app/_components/dashboard/personalized_suggestion.jsx:55 | rounding to two decimals leaves a two-decimal value unchanged |
| Common.Round2Monotone | app/_components/dashboard/personalized_suggestion.jsx:55 | rounding to two decimals is monotone |

## Left out

- Network and persistence are not modelled: `fetch`, `request.json`, `NextResponse`, the MongoDB connection and the schema's timestamps. Only outcomes appear, as parameters: the answer or the exception of a request, and the record a server returns.
- Browser media are left out: the chime, vibration, speech synthesis, notifications, oscillators and gain curves, DOM spots, styles and toasts. Deliveries and notifications are entries of a log.
- `createRandomSpots` (lib/alarm.ts:98-117) is left out because its rejection sampling need not terminate. `Alarm.AudioAlarm.Start` takes the three spot positions as parameters.
- `startVoiceRecognition` (lib/speech.ts:53-96) and `extractTextFromFile` (lib/fileUpload.ts:10-50) are callback-based browser reading APIs and are left out. The extractors start from the text they would deliver.
- JavaScript `Date` parsing, time zones and `toISOString` are parameters:
  - `new Date(date)` followed by `setHours(hh, mm, 0, 0)` is a given function from the date string, hour and minute to the instant, so local clock fields, daylight-saving changes and carries are the runtime's;
  - `new Date(dateStr)` and `new Date(y, m, d)` are given parsers;
  - "today", "tomorrow" and "next week/month/year" are resolved by a given function, month overflow included.
- Numbers are exact reals rather than IEEE-754 doubles, and `Math.round` rounds half up on them. Floating-point artefacts are not modelled.
- React scheduling is not modelled: state batching, effect ordering and real timer delays. Ticks, evictions and effect runs are explicit method calls that carry the current instant.
- The component-internal `generateWeeklyData` (app/_components/dashboard/dashboard-graph.jsx:139-161) shadows the module-level function inside the component but is never called, so only the module-level one is modelled.
- JSX markup and the Chart.js configuration are left out.
- `ToLower` maps ASCII letters only; `toLowerCase` on other scripts is not modelled.
- Two behaviours of the code that the model keeps:
  - A `time` whose hour does not parse makes `latestReminderHour` NaN (`Math.max` with NaN) rather than being skipped. `SleepPrediction.LatestNaN` states when this happens.
  - The fallback's stress keyword list lacks "critical", unlike the server's list (`DashboardGraph.FallbackKeywords`).
- TryDate: its own contract states only that no match gives no date and that a date found leaves a shorter trimmed text; which date it is (a relative reading first, then `new Date`) is stated at the leftmost match by `Speech.TryDateAt`.
- TryTime: its own contract states the `HH:MM` shape and the `DD:DD` case; the `parseTime12to24` value of the `at`/`by` group is stated at the leftmost match by `Speech.TryAtTime`.
- DateFrom: its own contract states only when there is no date; that the first valid pattern's date is returned is `FileUpload.DateFromFirst`.
- TimeFrom: its own contract states only when there is no time and its shape; that the first matching pattern's time is returned is `FileUpload.TimeFromFirst`.
- Speech.ParseRelativeDate: the contract states only the "today"/"tomorrow" cases and that any other relative date needs "next". That the unit must be exactly week, month or year is shown by `SpeechExamples.NextWeekSpaced` and `SpeechExamples.NextWeekendUnknown`, not stated for all inputs.

## Findings

| source | as written | input that shows it | evidently intended | confidence | as-written member | corrected member |
|---|---|---|---|---|---|---|
| lib/speech.ts:226 | `text.replace(priorityMatch[0], '')` removes the first literal occurrence of the matched word, which can lie inside an earlier word where the `\b`-anchored pattern did not match | "blow low": the match is the second word "low", but the text becomes "b low" | remove the match the regular expression found, leaving "blow" | not executed | `Speech.PriorityStageAsWritten`, `SpeechExamples.PriorityRemovalMisplaced`, `Speech.ExtractInfo` | `Speech.PriorityStage`, `SpeechExamples.PriorityRemovalCorrected`, `Speech.ExtractInfoCorrected` |
| lib/speech.ts:234 | `text.replace(categoryMatch[0], '')` has the same flaw for the category name | "rework work": the match is the second word "work", but the text becomes "re work" | remove the matched category, leaving "rework" | not executed | `Speech.CategoryStageAsWritten`, `SpeechExamples.CategoryRemovalMisplaced`, `Speech.ExtractInfo` | `Speech.CategoryStage`, `SpeechExamples.CategoryRemovalCorrected`, `Speech.ExtractInfoCorrected` |
