# Time Whisperer tasks — a verified model of the task logic

Time Whisperer is a task planner. Tasks are typed as short Chinese sentences
("明天下午开会", "周五 15:30 交报告"). A rule-based parser turns each sentence
into a titled, prioritised, categorised task with a due date. When the
sentence names no time, a recommender picks the first free working hour.
Tasks live in a list held by a provider and saved to browser storage. They are
grouped in a sidebar, searched from a dialog and shown on week and month grids.

This project models that logic in Dafny and proves what it promises:

- `Nlp` holds the four keyword tables, the numeric time pattern
  `(\d{1,2})[点|:|：](\d{0,2})`, `parseNaturalLanguage` and
  `recommendBestTime`.
  - The specification functions `Parse` and `Recommend` describe the results.
  - The methods `ParseNaturalLanguage` and `RecommendBestTime` run the
    source's loops (first match with `break`, a `busyHours` set filled in a
    loop, a scan over the hours) and are proved to compute those results.
- `LocalStorage` holds the list transforms (append, replace by id, delete by
  id, toggle completion). `TaskStorage` is the value saved under the storage
  key, and each operation reads it, transforms it and writes it back.
- `TaskContext` covers the provider. Its task list is kept equal to what is
  saved. It adds tasks with falsy-field defaults and stamps `updatedAt`. Its
  `parseTask` rule treats a parsed 09:00 as "no time given" and swaps in the
  recommended slot.
- `DateUtils` holds the Monday-start week and month helpers and the two grid
  builders. `Dates` supplies their calendar, with days numbered from
  1970-01-01 (a Thursday).
- `Search` holds the five-entry most-recent-first search history and the
  case-insensitive task filter of the search dialog.
- `TaskList` holds the five sidebar sections: overdue, today, tomorrow, later
  and done.
- `Wrappers`, `Seqs`, `Strings` and `Types` are supporting modules:
  - `Option`;
  - sequence filter, map and subsequence;
  - JavaScript's `includes`, first-occurrence `replace`, `trim` and
    `toLowerCase`;
  - the task record of `src/types/index.ts`.

The clock is a parameter `now`, and new ids are parameters. A date is a day
number plus hour, minute, second and millisecond. `setDate(getDate() + n)`
adds `n` to the day. `setHours(h, m, 0, 0)` is `SetHours`, which carries
hours above 23 and minutes above 59 into later days, as JavaScript does for
input such as "99点".

### How the code behaves where a reader might expect otherwise

- The keyword tables are scanned in declaration order with substring tests,
  so several longer phrases can never match:
  - "高优先级", "中优先级", "低优先级" and "不重要" are always beaten by an
    earlier "优先" or "重要". As a result "不重要" and "低优先级" produce
    *high* priority (`DeadPriorityPhrases`, `LowPhrasesYieldHigh`).
  - Every "下周X" and "下下周X" comes after its substring "周X", so the
    next-week branch of the day loop is dead (`DayPhraseNeverNextWeek`).
  - "大后天" comes after "后天", so three days ahead is never reached. It
    resolves to two days ahead, or less when "今天" or "明天" also occurs.
    When a weekday phrase also occurs, it resolves to the named weekday, 1
    to 7 days ahead (`ThreeDaysAheadNeverReached`).
- A plain weekday phrase that names today means a week from today (offset 7,
  never 0).
- The parsed due date is not always in the future. A numeric time earlier
  than the clock, with no day phrase, gives a time earlier today
  (`ParseCanPrecedeNow`).
- The 09:00 rule in `parseTask` cannot tell "no time" from an explicit "9点"
  or "9:00" (`ExplicitNineReplaced`). It also replaces a day phrase without a
  time when the clock happens to read 09:00 (`DayPhraseAtNineLost`). The
  whole due date is replaced in both cases, day included.
- The search effect runs on every change of the query, so each non-blank
  query typed is recorded as a recent search (`SearchDialog.SetSearchQuery`).

## Model

| member | source | states |
|---|---|---|
| Nlp.FirstMatchFrom | src/utils/nlpUtils.ts:121-127 | the entry found is the first, in declaration order, whose phrase occurs in the input; none is found only when no phrase occurs |
| Nlp.ScanTable | src/utils/nlpUtils.ts:121-127 | the `for ... of` scan with `includes` and `break` stops at exactly the first matching entry (used for all four tables) |
| Nlp.Shadowed | src/utils/nlpUtils.ts:62-99 | an entry whose phrase contains an earlier entry's phrase can never be the first match |
| Nlp.FirstMatchAtMost | src/utils/nlpUtils.ts:121-127 | if entry j occurs in the input, some entry at or before j is matched |
| Nlp.FirstMatchIs | src/utils/nlpUtils.ts:121-127 | entry k is matched when it occurs and no earlier entry does |
| Nlp.DigitsValue | src/utils/nlpUtils.ts:184-185 | `parseInt` of n decimal digits is below 10^n |
| Nlp.HourDigits | src/utils/nlpUtils.ts:180 | `\d{1,2}` before a separator is greedy: two digits are taken when they fit, and no match means no hour group fits at that position |
| Nlp.MinuteDigits | src/utils/nlpUtils.ts:180 | `\d{0,2}` takes as many digits as there are, up to two |
| Nlp.MatchWith | src/utils/nlpUtils.ts:184-185 | the match's text is the matched slice; hour and minutes are the groups read in base 10, both below 100, an empty minute group reading 0 |
| Nlp.MatchAt | src/utils/nlpUtils.ts:180-181 | the pattern at one position in backtracking order: no match iff no hour/separator/minute split fits; otherwise two hour digits before one and the longest minute group |
| Nlp.MatchFrom | src/utils/nlpUtils.ts:181 | the first position at or after i where the pattern matches, and none before it |
| Nlp.MatchHourPattern | src/utils/nlpUtils.ts:181 | `input.match` returns the leftmost match, or none when the pattern matches nowhere |
| Nlp.ResolveDay | src/utils/nlpUtils.ts:143-168 | the date the branch chain moves today to is today plus `DayOffset` (next week: the table value; 今天/明天/后天/大后天: 0 to 3; a weekday: days to its next occurrence) |
| Nlp.PriorityStep | src/utils/nlpUtils.ts:121-127 | the priority is the first matching phrase's value (medium if none), and only that phrase's first occurrence is cut from the trimmed title |
| Nlp.CategoryStep | src/utils/nlpUtils.ts:130-135 | the category is the first matching phrase's value (other if none) |
| Nlp.DayStep | src/utils/nlpUtils.ts:141-174 | the due date is the first day phrase's resolved date, and that phrase is cut from the title the priority step left |
| Nlp.TimeStep | src/utils/nlpUtils.ts:177-212 | a numeric time, else the first time phrase, sets hour and minutes on the due date the day step left (or today), and its text is cut from the title the day step left |
| Nlp.ParseNaturalLanguage | src/utils/nlpUtils.ts:114-229 | each step works on the title and due date the previous one left; the parser returns exactly `Parse(input, now)`, with the 09:00 default |
| Nlp.PriorityOf | src/utils/nlpUtils.ts:118-127 | the priority is medium when no priority phrase occurs; any other priority is the value of a phrase that occurs |
| Nlp.CategoryOf | src/utils/nlpUtils.ts:118-135 | the category is other when no category phrase occurs; any other category is the value of a phrase that occurs |
| Nlp.TitleAfterPriority | src/utils/nlpUtils.ts:115-127 | the title after the priority step is trimmed and no longer than the input |
| Nlp.TitleAfterDay | src/utils/nlpUtils.ts:171-172 | the title after the day step is trimmed and no longer than the input |
| Nlp.TitleAfterTime | src/utils/nlpUtils.ts:194-208 | the title after the time step is trimmed and no longer than the input |
| Nlp.DateOf | src/utils/nlpUtils.ts:141-174 | a date is set iff some day phrase occurs; it keeps the current clock time |
| Nlp.DayOffset | src/utils/nlpUtils.ts:143-168 | the days the branch chain adds: the table value for a next-week phrase, 0 to 3 for 今天 to 大后天, else days to the weekday's next occurrence (bounds in `WeekdayOffset`) |
| Nlp.TimedDate | src/utils/nlpUtils.ts:177-212 | with no numeric time and no time phrase the date is the day step's; with either, it is set, zeroed below the minute, and never on a day before the resolved date (or today) |
| Nlp.DueDate | src/utils/nlpUtils.ts:214-221 | with no date and no hour, today at 09:00:00.000; a date-only phrase keeps its date and clock; with an hour, seconds and ms are zero |
| Nlp.Parse | src/utils/nlpUtils.ts:114-229 | the parsed title is trimmed and never longer than the input |
| Nlp.ParseDefaults | src/utils/nlpUtils.ts:214-221 | with no phrase and no numeric time: the trimmed input, medium, other, today at 09:00:00.000 |
| Nlp.CategoryPhraseShape | src/utils/nlpUtils.ts:23-59 | every category phrase is one or two CJK ideographs |
| Nlp.HanPhraseSurvivesTrim | src/utils/nlpUtils.ts:115 | a phrase of CJK ideographs in the input is still in the trimmed input |
| Nlp.CategoryPhraseStaysInTitle | src/utils/nlpUtils.ts:130-135 | when no priority, day or time phrase is cut, the title is the trimmed input, and the first matching category phrase (any of them) sets the category and is still in the title |
| Nlp.DeadPriorityPhrases | src/utils/nlpUtils.ts:4-20 | "高优先级", "中优先级", "低优先级" and "不重要" are never the matched priority phrase, for any input |
| Nlp.LowPhrasesYieldHigh | src/utils/nlpUtils.ts:4-20 | an input containing "不重要" or "低优先级" gets high priority |
| Nlp.NextWeekEntry | src/utils/nlpUtils.ts:62-99 | every "下周X" entry is "下" followed by the entry just before it |
| Nlp.WeekAfterNextEntry | src/utils/nlpUtils.ts:62-99 | every "下下周X" entry is "下下" followed by the entry two before it |
| Nlp.PlainWeekdayEntry | src/utils/nlpUtils.ts:62-99 | the "星期X" and "周X" entries start with 星 or 周 and carry a weekday number 0 to 6 |
| Nlp.WeekdayName | src/utils/nlpUtils.ts:145-156 | a phrase starting with 星 or 周 takes the weekday branch |
| Nlp.PlainDayEntry | src/utils/nlpUtils.ts:62-99 | every entry other than the next-week ones and "大后天" is no next-week phrase and not "大后天"; the weekday ones are no relative-day phrase |
| Nlp.DayPhraseNeverNextWeek | src/utils/nlpUtils.ts:141-174 | the matched day phrase is never a next-week phrase and never "大后天", for any input |
| Nlp.WeekdayOffset | src/utils/nlpUtils.ts:157-167 | a weekday phrase's offset is 1 to 7 and `(getDay(today) + offset) % 7` is the table value |
| Nlp.WeekdayEntryDate | src/utils/nlpUtils.ts:157-167 | each weekday entry resolves 1 to 7 days ahead, onto its weekday |
| Nlp.RelativeDayEntry | src/utils/nlpUtils.ts:148-153 | "今天", "明天" and "后天" resolve to today plus 0, 1 and 2 days |
| Nlp.WeekdayPhraseResolution | src/utils/nlpUtils.ts:157-167 | a matched weekday phrase gives a date 1 to 7 days ahead on the named weekday |
| Nlp.DayPhraseResolution | src/utils/nlpUtils.ts:141-170 | a matched day phrase gives a date 0 to 7 days ahead with the current clock time |
| Nlp.ThreeDaysAheadNeverReached | src/utils/nlpUtils.ts:154-155 | an input containing "大后天" always matches a day phrase at or before "后天"; a relative-day match lands at most two days ahead, a weekday match 1 to 7 days ahead |
| Nlp.NumericTimeWins | src/utils/nlpUtils.ts:183-194 | with a numeric time, the due date is the resolved date (or today) at the matched hour and minutes (rolled over past 23:59), seconds and ms zero |
| Nlp.TimePhraseApplies | src/utils/nlpUtils.ts:197-207 | without a numeric time, the first time phrase's hour applies at minute 0, on the resolved date or today |
| Nlp.TimeKeywordNotNine | src/utils/nlpUtils.ts:102-111 | no time phrase stands for 9 o'clock |
| Nlp.DateOnlyKeepsClock | src/utils/nlpUtils.ts:143-170 | a day phrase without any time keeps the current clock time |
| Nlp.ParseCanPrecedeNow | src/utils/nlpUtils.ts:187-192 | a numeric hour earlier than now, with no day phrase, gives a due date before now |
| Nlp.CandidateDay | src/utils/nlpUtils.ts:238-244 | the candidate day is today or tomorrow, and tomorrow iff the clock reads 17:00 or later |
| Nlp.BusyHours | src/utils/nlpUtils.ts:247-256 | an hour is busy iff some task is due at that hour on the candidate day |
| Nlp.FirstFreeHour | src/utils/nlpUtils.ts:259-264 | the smallest hour from `from` to 17 that is not busy, or none when all are busy |
| Nlp.Recommend | src/utils/nlpUtils.ts:232-271 | an hour in 9..17 on the minute; the candidate day (today, or tomorrow from 17:00) iff some work hour is free there, and then the earliest free one; otherwise the next day at 09:00 |
| Nlp.RecommendBestTime | src/utils/nlpUtils.ts:232-271 | the loops compute `Recommend`; the title argument plays no part |
| Nlp.RecommendSeesOnlyCandidateDay | src/utils/nlpUtils.ts:249-256 | only tasks due on the candidate day, completed or not, affect the recommendation |
| LocalStorage.Replaced | src/utils/localStorage.ts:34-40 | matching-id tasks become the update verbatim; the others, the length and the ids stay; the update is in the result iff its id was present |
| LocalStorage.ReplaceAbsent | src/utils/localStorage.ts:34-40 | updating an absent id changes nothing |
| LocalStorage.ReplaceIdempotent | src/utils/localStorage.ts:34-40 | applying the same update twice equals applying it once |
| LocalStorage.Deleted | src/utils/localStorage.ts:43-47 | exactly the tasks with the id are gone; the rest stay in order |
| LocalStorage.DeleteCount | src/utils/localStorage.ts:43-47 | deleting removes as many tasks as carry the id |
| LocalStorage.DeleteAbsent | src/utils/localStorage.ts:43-47 | deleting an absent id changes nothing |
| LocalStorage.DeleteUndoesAdd | src/utils/localStorage.ts:28-47 | deleting an appended task's id undoes the append (and drops older tasks with that id) |
| LocalStorage.Toggled | src/utils/localStorage.ts:50-56 | only the `completed` field of matching tasks flips; length and ids stay |
| LocalStorage.ToggleTwice | src/utils/localStorage.ts:50-56 | toggling twice with the same id restores the list exactly |
| LocalStorage.DeleteAfterToggle | src/utils/localStorage.ts:43-56 | deleting after toggling the same id equals deleting |
| LocalStorage.TaskStorage.GetTasks | src/utils/localStorage.ts:17-25 | the saved list, or the empty list when nothing was saved |
| LocalStorage.TaskStorage.SaveTasks | src/utils/localStorage.ts:8-14 | the saved value becomes the list |
| LocalStorage.TaskStorage.AddTask | src/utils/localStorage.ts:28-31 | the saved list gains the task at the end |
| LocalStorage.TaskStorage.UpdateTask | src/utils/localStorage.ts:34-40 | the saved list becomes `Replaced` of the old one |
| LocalStorage.TaskStorage.DeleteTask | src/utils/localStorage.ts:43-47 | the saved list becomes `Deleted` of the old one, shorter by the number of tasks with the id |
| LocalStorage.TaskStorage.ToggleTaskCompletion | src/utils/localStorage.ts:50-56 | the saved list becomes `Toggled` of the old one |
| TaskContext.NewTask | src/context/TaskContext.tsx:41-53 | the new record takes each draft field, or its default when missing or falsy: "New Task", "", false, now, medium, other; both stamps are now |
| TaskContext.Find | src/context/TaskContext.tsx:79 | `find` returns the first task with the id, and none iff no task has it |
| TaskContext.ToggledAt | src/context/TaskContext.tsx:90-102 | matching tasks flip `completed` and get `updatedAt = now`; all others are unchanged |
| TaskContext.ToggleAgreesWithStorage | src/context/TaskContext.tsx:90-102 | the provider's toggle is the storage toggle plus the time stamp |
| TaskContext.ToggleTwiceRestoresCompletion | src/context/TaskContext.tsx:90-102 | toggling twice restores every completion flag; only the second stamp remains |
| TaskContext.ParseTaskResult | src/context/TaskContext.tsx:105-118 | title, priority and category are the parser's; the due date changes only when the parsed one reads 09:00, and then to a work hour on the hour |
| TaskContext.UnscheduledGetsRecommendation | src/context/TaskContext.tsx:105-118 | a sentence with no day phrase, time phrase or numeric time gets the recommended slot; title, priority and category are the parser's |
| TaskContext.OtherTimesKept | src/context/TaskContext.tsx:109-115 | a parsed due time other than 09:00 is kept |
| TaskContext.TimePhraseKept | src/context/TaskContext.tsx:109-115 | a time phrase's due date is never replaced |
| TaskContext.ExplicitNineReplaced | src/context/TaskContext.tsx:111-114 | an explicit "9点" or "9:00" is replaced by the recommendation |
| TaskContext.DayPhraseAtNineLost | src/context/TaskContext.tsx:111-114 | a day phrase without a time, parsed while the clock reads 09:00, is replaced by the recommendation |
| TaskContext.TaskProvider.constructor | src/context/TaskContext.tsx:29-38 | mounting loads the saved list and leaves memory and storage equal |
| TaskContext.TaskProvider.AddTask | src/context/TaskContext.tsx:41-55 | exactly one new task is appended at the end, and the list is saved |
| TaskContext.TaskProvider.UpdateTask | src/context/TaskContext.tsx:63-70 | matching tasks become the update stamped with now; the list is saved |
| TaskContext.TaskProvider.DeleteTask | src/context/TaskContext.tsx:78-80 | the first task with the id is returned; all tasks with the id go; the list is saved |
| TaskContext.TaskProvider.ToggleTaskCompletion | src/context/TaskContext.tsx:90-102 | the list becomes `ToggledAt` of the old one and is saved |
| TaskContext.TaskProvider.ParseTask | src/context/TaskContext.tsx:105-118 | the parser's result, with the due date replaced by the recommendation exactly when it reads 09:00 |
| DateUtils.DaysSinceMonday | src/utils/dateUtils.ts:16-18 | 0 to 6 days back lands on a Monday |
| DateUtils.GetStartOfWeek | src/utils/dateUtils.ts:16-18 | midnight of the Monday on or before the date |
| DateUtils.GetEndOfWeek | src/utils/dateUtils.ts:21-23 | 23:59:59.999 of the Sunday six days after that Monday |
| DateUtils.GetStartOfMonth | src/utils/dateUtils.ts:26-28 | midnight of the first of the date's month |
| DateUtils.GetEndOfMonth | src/utils/dateUtils.ts:31-33 | the last millisecond of the month's last day; the month spans its calendar length |
| DateUtils.IsSameDayFn | src/utils/dateUtils.ts:36-38 | the same calendar day (implications in `SameDayNarrowest`) |
| DateUtils.IsSameWeekFn | src/utils/dateUtils.ts:41-43 | dates in the same week are at most six days apart |
| DateUtils.IsSameMonthFn | src/utils/dateUtils.ts:46-48 | the same month iff the first date lies between the first and last day of the second's month |
| DateUtils.SameWeekIff | src/utils/dateUtils.ts:41-43 | two dates share a week iff the second lies between the first's Monday and Sunday |
| DateUtils.SameDayNarrowest | src/utils/dateUtils.ts:36-48 | sharing a day implies sharing a week and a month |
| DateUtils.GetDaysInWeek | src/utils/dateUtils.ts:51-60 | seven consecutive midnights from the Monday to the Sunday, covering exactly the dates of the week |
| DateUtils.WeekGridCoversWeek | src/utils/dateUtils.ts:51-60 | the seven days from the Monday are exactly the days sharing the week |
| DateUtils.GetDaysInMonth | src/utils/dateUtils.ts:63-77 | consecutive midnights from the Monday on or before the 1st to the Sunday on or after the last day; whole weeks, 28 to 42 days, every day of the month included |
| DateUtils.GridIsWholeWeeks | src/utils/dateUtils.ts:63-77 | a Monday-to-Sunday run has a length that is a multiple of 7 |
| DateUtils.GetHoursInDay | src/utils/dateUtils.ts:80-82 | the hours 0 to 23, in order, each once |
| Search.OtherSearches | src/components/search/SearchDialog.tsx:54 | the earlier searches other than the query, in their order |
| Search.PushFront | src/components/search/SearchDialog.tsx:52-55 | the query first (untrimmed), then the other earlier searches, cut to five |
| Search.RecordSearch | src/components/search/SearchDialog.tsx:49-55 | a blank query leaves the list unchanged; any other is pushed to the front |
| Search.PushFrontOrder | src/components/search/SearchDialog.tsx:52-55 | the query occurs only at the front; the rest keep their earlier relative order |
| Search.PushFrontKeepsAll | src/components/search/SearchDialog.tsx:52-55 | with fewer than five other searches, nothing is dropped |
| Search.OtherSearchesWithout | src/components/search/SearchDialog.tsx:54 | filtering out a query that is absent changes nothing |
| Search.PushFrontIdempotent | src/components/search/SearchDialog.tsx:52-55 | pushing the query already at the front changes nothing |
| Search.RecordSearchIdempotent | src/components/search/SearchDialog.tsx:49-59 | recording the same search twice equals recording it once |
| Search.RecordSearchDistinct | src/components/search/SearchDialog.tsx:52-55 | a history without repeats keeps none |
| Search.Matches | src/components/search/SearchDialog.tsx:69-73 | a task matches through its lower-cased title, description or category name (used by `FilterTasks`) |
| Search.FilterTasks | src/components/search/SearchDialog.tsx:62-73 | a blank query finds nothing; otherwise exactly the tasks whose lower-cased title, description or category contains the lower-cased query, in list order |
| Search.SearchIgnoresCase | src/components/search/SearchDialog.tsx:68 | a query and its lower-case form find the same tasks |
| Search.CategoryNameLowerCase | src/components/search/SearchDialog.tsx:72 | category names are non-blank and already lower-case |
| Search.CategoryNameFindsTasks | src/components/search/SearchDialog.tsx:69-73 | typing a category's name finds every task of that category |
| Search.SearchDialog.constructor | src/components/search/SearchDialog.tsx:40-46 | opening starts with an empty query and results, and the saved history if there is one |
| Search.SearchDialog.SaveSearch | src/components/search/SearchDialog.tsx:49-59 | the history becomes `RecordSearch` of the old one and is persisted unless the query is blank |
| Search.SearchDialog.FilterEffect | src/components/search/SearchDialog.tsx:62-80 | the results become `FilterTasks`; a non-blank query is recorded and the history persisted, a blank one leaves the persisted value alone |
| Search.SearchDialog.SetSearchQuery | src/components/search/SearchDialog.tsx:62-80 | typing sets the query, filters, records the query and persists the history unless the query is blank |
| TaskList.OverdueTasks | src/components/tasks/TaskList.tsx:37-39 | exactly the open tasks due before now and not today |
| TaskList.TodayTasks | src/components/tasks/TaskList.tsx:41-43 | exactly the tasks due today, done or not |
| TaskList.TomorrowTasks | src/components/tasks/TaskList.tsx:45-47 | exactly the tasks due tomorrow, done or not |
| TaskList.FutureTasks | src/components/tasks/TaskList.tsx:49-54 | exactly the tasks due neither today nor tomorrow and not before now |
| TaskList.CompletedTasks | src/components/tasks/TaskList.tsx:56 | exactly the done tasks |
| TaskList.OverdueIsEarlierDay | src/components/tasks/TaskList.tsx:37-39 | overdue means open and due on an earlier day, both ways |
| TaskList.LaterIsTwoDaysOut | src/components/tasks/TaskList.tsx:49-54 | the later section is exactly the tasks due two or more days ahead |
| TaskList.DateSectionsPartition | src/components/tasks/TaskList.tsx:37-56 | a task is in at most one of overdue, today, tomorrow and later; in none iff done and due earlier; so every task is listed somewhere |
| TaskList.CompletedNeverOverdue | src/components/tasks/TaskList.tsx:37-56 | the done section is exactly the done tasks, and none of them is overdue |
| TaskList.SectionsKeepOrder | src/components/tasks/TaskList.tsx:37-56 | every section keeps the order of the task list |

## Left out

- Browser storage is a field holding the saved value. `JSON.stringify`, `JSON.parse` and the `try`/`catch` around them are not modelled: a value that fails to parse is not representable.
- Toast notifications, `uuidv4` (the id is a parameter) and all rendering are left out.
- Reading the clock is left out. One `now` is passed per call, while the source calls `new Date()` several times in one parse.
- `parseTask` passes the same `now` to `recommendBestTime`, which in the source reads its own clock.
- Time zones, daylight saving and ISO-8601 strings are left out. A `DateTime` is local wall-clock time, and `toISOString` followed by `new Date(...)` is taken to give the same time back.
- `toLowerCase` maps only ASCII letters. Unicode case mapping is not modelled.
- `formatDate` and `parseDate` (src/utils/dateUtils.ts:6-13) depend on date-fns formatting with the zhCN locale and are not modelled.
- On mount the source's save effect first writes the initial empty list and then the loaded one. `TaskProvider.constructor` models only the final state.
- `selectedDate`, `calendarView` and the rest of the context value are view state and are left out.
- Dates use the proleptic Gregorian calendar on day numbers counted from 1970-01-01 in both directions. The range limit of JavaScript `Date` values is not modelled.
- Nlp.CategoryPhraseStaysInTitle: proves the category phrase stays in the title only when no priority, day or time phrase is cut. Whether a cut phrase can overlap the category phrase and remove part of it is not analysed.
- TaskForm, the calendar views, AppLayout, SettingsDialog and the pages use these operations but are not part of this model.
