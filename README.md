# Takipçim time tracker — a verified model of its core

Takipçim is a client-side time tracker. A user plans tasks on calendar days,
binds a stopwatch to one of them, and commits the measured time to an
append-only ledger of sessions. Each session is either `work` or `break` and is
recorded in seconds. Break time has its own state machine with an optional time
limit. A completion flag is kept per (task, day), under the key
`taskId + "_" + date`. An analysis screen aggregates the ledger into:

- work minutes per day;
- work minutes per category;
- planned against actual minutes per task.

This project models that core in Dafny and proves what the code promises about
it:

| module (file) | models |
|---|---|
| `Types` (types.dfy) | the `Task`, `Session` and `AppSettings` records, the default settings and the palette names |
| `Text` (text.dfy) | the JavaScript string builtins the core relies on: number rendering, `padStart`, decimal `parseInt`, `trim`, `includes`, lower-casing of ASCII letters; and `split`, which the core does not call, for the read-back parsers below |
| `Lists` (lists.dfy) | `filter`, `find`/`findIndex` and a `reduce` into a sum, with their algebra |
| `WorkTimer` (timer.dfy) | the stopwatch hook, as a `Timer` class over a pure transition function; `formatTime` and a read-back parser for its display |
| `AppStore` (store.dfy) | the application store, as a `Store` class whose methods replace one part of its state; the pure queries and the completion-flag map |
| `Home` (home.dfy) | the home screen, as a `HomeScreen` class: selection, the finish flow, the break state machine and its two dialogs, today's totals, the unplanned-task drawer, free work |
| `Analytics` (analytics.dfy) | the category and prediction loops as methods proved against recursive reference functions, minute rounding, `formatMin` |
| `Planning` (planning.dfy) | the task-creation form and the per-day checkbox and delete button |
| `Templates` (templates.dfy) | the saved-template list |

The following become parameters:

- "now" in milliseconds;
- today's date, as an already formatted `yyyy-MM-dd` string;
- fresh ids;
- the interval ticks, so that a tick is an explicit method call (`Timer.Tick`, `HomeScreen.BreakTick`).

React effects are explicit methods:

- `HomeScreen.SyncSelection` adopts the stopwatch's task;
- `HomeScreen.ExpireIfDue` ends a break that has run out.

A sequence of state updates inside one handler, such as `stop(); reset()`, is modelled as sequential steps.

## Model

| member | source | states |
|---|---|---|
| Types.DefaultSettings | src/types/index.ts:35-44 | the defaults are well formed: planning hours 8 to 20 lie within 0..23 in order, and the default break is positive. They ask for a break timer with a 5-minute break, use the light theme and forest palette, have notifications on and onboarding not done, and have no use case |
| Types.PaletteName | src/types/index.ts:46-51 | every one of the four palettes has a non-empty display name |
| Types.PaletteNamesDistinct | src/types/index.ts:46-51 | two palettes have the same display name exactly when they are the same palette |
| Text.DigitChar | src/hooks/useTimer.ts:51 | a digit value below ten is rendered as a decimal digit character |
| Text.DigitValue | src/pages/PlanningPage.tsx:36 | a digit character reads as a value below ten |
| Text.DigitRoundTrip | src/hooks/useTimer.ts:51 | reading a rendered digit gives the digit back |
| Text.NatToString | src/hooks/useTimer.ts:51 | `toString` of a non-negative integer is a non-empty run of digits without a leading zero, a single digit exactly below ten |
| Text.ParseNatToString | src/pages/PlanningPage.tsx:36 | the decimal value of a rendered number is that number |
| Text.ParseNatLeadingZero | src/hooks/useTimer.ts:51 | a leading zero does not change the value of a digit string, so zero padding is harmless |
| Text.IntToString | src/pages/AnalyticsPage.tsx:104-105 | `toString` of any integer is non-empty |
| Text.PadStart2 | src/hooks/useTimer.ts:51-53 | `padStart(2, '0')` ends with its input, fills only with zeros, and has length two or the input's length |
| Text.Pad2 | src/hooks/useTimer.ts:51-53 | the padded rendering of n is all digits, at least two of them, exactly two below 100, and reads back as n |
| Text.DigitPrefix | src/pages/PlanningPage.tsx:36 | the run of digits `parseInt` reads is a prefix of the input and is maximal |
| Text.DigitPrefixOf | src/pages/PlanningPage.tsx:36 | digits followed by a non-digit yield exactly those digits |
| Text.Trim | src/pages/PlanningPage.tsx:34 | `trim`: `trimEnd` after `trimStart`; its shape is stated by Text.TrimInfix, Text.TrimEmptyIff and Text.TrimIdempotent |
| Text.TrimStart | src/pages/PlanningPage.tsx:34 | `trimStart` never lengthens its input |
| Text.TrimEnd | src/pages/PlanningPage.tsx:34 | `trimEnd` never lengthens its input |
| Text.TrimStartShape | src/pages/PlanningPage.tsx:34 | `trimStart` removes only leading whitespace, and the result does not start with whitespace |
| Text.TrimEndShape | src/pages/PlanningPage.tsx:34 | `trimEnd` removes only trailing whitespace, and the result does not end with whitespace |
| Text.TrimSlice | src/pages/PlanningPage.tsx:34 | `trim` returns one contiguous slice of its input |
| Text.TrimDropsTrailing | src/pages/PlanningPage.tsx:34 | what `trim` drops after the slice is whitespace |
| Text.TrimEnds | src/pages/PlanningPage.tsx:34 | a non-empty trimmed string starts and ends with a non-whitespace character |
| Text.TrimInfix | src/pages/PlanningPage.tsx:34-35 | `trim` keeps one slice of the input and drops only whitespace on both sides, leaving no whitespace at either end |
| Text.TrimIncluded | src/pages/PlanningPage.tsx:34 | the trimmed text occurs in the input |
| Text.TrimEmptyIff | src/pages/PlanningPage.tsx:32 | a string trims to empty exactly when every character is whitespace |
| Text.TrimIdempotent | src/pages/PlanningPage.tsx:34-35 | trimming twice is trimming once |
| Text.JsParseInt | src/pages/PlanningPage.tsx:36 | decimal `parseInt`: leading whitespace, an optional sign and the longest digit run, `None` for `NaN`; its read-backs are the Text.ParseInt* lemmas |
| Text.ParseIntUnsigned | src/pages/PlanningPage.tsx:36 | text starting with a digit is read as its leading digit run |
| Text.ParseIntMinus | src/pages/PlanningPage.tsx:36 | a minus sign followed by digits is read as the negated number |
| Text.ParseIntOfDigits | src/pages/PlanningPage.tsx:36 | a digit run is read as its value whatever non-digit text follows |
| Text.ParseIntOfNegativeDigits | src/pages/PlanningPage.tsx:36 | a minus sign and a digit run are read as the negated value whatever non-digit text follows |
| Text.ParseIntOfIntToString | src/pages/PlanningPage.tsx:36 | `parseInt` reads back every integer that `toString` writes, also with trailing non-digit text |
| Text.ParseIntOfNonNegative | src/pages/PlanningPage.tsx:36 | the read-back for non-negative integers |
| Text.ParseIntOfNegative | src/pages/PlanningPage.tsx:36 | the read-back for negative integers |
| Text.Split | src/hooks/useTimer.ts:51-53 | read-back parser for the `formatTime` display, which the application does not have: `split` returns at least one part, and no part contains the separator |
| Text.IndexOf | src/hooks/useTimer.ts:51-53 | read-back parser for the `formatTime` display, which the application does not have: the first occurrence of a character that occurs: it is there and not earlier |
| Text.SplitJoin | src/hooks/useTimer.ts:51-53 | read-back parser for the `formatTime` display, which the application does not have: splitting a separator-free part, the separator and a tail gives that part followed by the tail's parts |
| Text.SplitOne | src/hooks/useTimer.ts:53 | read-back parser for the `formatTime` display, which the application does not have: text without the separator splits into itself |
| Text.SplitTwo | src/hooks/useTimer.ts:52 | read-back parser for the `formatTime` display, which the application does not have: two separator-free parts joined by the separator split back into those two |
| Text.SplitThree | src/hooks/useTimer.ts:51 | read-back parser for the `formatTime` display, which the application does not have: three separator-free parts joined by the separator split back into those three |
| Text.AsciiLower | src/context/AppContext.tsx:119 | lower-casing keeps the length, maps each upper-case ASCII letter to its lower-case letter, and keeps every other character |
| Text.AsciiLowerIdempotent | src/pages/HomePage.tsx:85 | lower-casing twice is lower-casing once |
| Lists.Filter | src/context/AppContext.tsx:67 | `filter` returns no more elements than its input, all satisfying the predicate |
| Lists.FilterConcat | src/context/AppContext.tsx:71 | filtering a concatenation filters each part, which fixes the order of the result |
| Lists.FilterSingleton | src/context/AppContext.tsx:71 | a single element is kept exactly when it satisfies the predicate |
| Lists.FilterCount | src/context/AppContext.tsx:67 | every occurrence of a satisfying element is kept, and none of the others |
| Lists.FilterMembership | src/context/AppContext.tsx:67 | an element is in the result exactly when it is in the input and satisfies the predicate |
| Lists.FilterKeepsAll | src/hooks/useTemplates.ts:35 | a filter every element passes returns its input |
| Lists.FilterFilter | src/pages/HomePage.tsx:77-78 | two filters in a row equal one filter by the conjunction |
| Lists.FilterComplement | src/pages/HomePage.tsx:83 | complementary filters split the list between them |
| Lists.FilterDisjointUnion | src/pages/HomePage.tsx:81 | a filter by the union of two disjoint predicates keeps as many elements as the two filters together |
| Lists.FirstIndex | src/pages/HomePage.tsx:53 | `findIndex` reports the first satisfying position, or none when no element satisfies |
| Lists.Find | src/pages/HomePage.tsx:53 | `find` returns a satisfying element of the list, or nothing when none satisfies |
| Lists.FindCons | src/pages/AnalyticsPage.tsx:68 | `find` looks at the head first, then searches the tail |
| Lists.FindAppend | src/pages/HomePage.tsx:188 | appending elements keeps the first match of the original list |
| Lists.FirstIndexAppend | src/pages/HomePage.tsx:188 | the first index in a concatenation lies in the first part when it has a match, otherwise it is shifted from the second |
| Lists.SumOfConcat | src/pages/HomePage.tsx:79 | a sum over a concatenation is the sum of the sums |
| Lists.SumOfSingleton | src/pages/HomePage.tsx:79 | the sum over one element is its value |
| Lists.SumOfAdd | src/pages/AnalyticsPage.tsx:70 | summing pointwise sums gives the sum of the two sums |
| Lists.SumOfIndicator | src/pages/AnalyticsPage.tsx:70 | over distinct keys, a function non-zero at one key sums to its value there if the key occurs, and to zero otherwise |
| WorkTimer.Step | src/hooks/useTimer.ts:10-45 | the effect of one stopwatch call or interval tick on (elapsed, running, task id, task name); its properties are the Step*/Switches*/ResetForgets lemmas |
| WorkTimer.Run | src/hooks/useTimer.ts:10-45 | a sequence of stopwatch events applied first to last; stated by WorkTimer.RunConcat and WorkTimer.ElapsedSinceStart |
| WorkTimer.RunConcat | src/hooks/useTimer.ts:24-45 | running two event sequences one after the other is running their concatenation |
| WorkTimer.ElapsedCountsRunningTicks | src/hooks/useTimer.ts:10-32 | without a start or reset, elapsed grows by exactly the ticks received while running, running follows the last switching event, and the binding stays |
| WorkTimer.ElapsedSinceStart | src/hooks/useTimer.ts:10-32 | after `start`, elapsed is the number of ticks received while running, whatever the pause/resume cycles, and the started task stays bound |
| WorkTimer.PausedTicksIgnored | src/hooks/useTimer.ts:10-18 | ticks after `pause` change nothing |
| WorkTimer.StepKeepsBindingConsistent | src/hooks/useTimer.ts:24-45 | id and name are bound together or not at all, and every operation keeps this |
| WorkTimer.StepKeepsTimeAttributed | src/hooks/useTimer.ts:24-45 | "running or counted time implies a bound task" is kept by every event except `resume` on an unbound stopwatch |
| WorkTimer.ResumeFromIdleRunsUnbound | src/hooks/useTimer.ts:32 | `resume` on the idle stopwatch runs and counts time with no task bound |
| WorkTimer.SwitchesIdempotent | src/hooks/useTimer.ts:31-32 | `pause` and `resume` only set the running flag, and calling either twice equals calling it once |
| WorkTimer.ResetForgets | src/hooks/useTimer.ts:40-45 | `reset` reaches idle from any state, changes nothing on idle, and forgets every earlier event |
| WorkTimer.Timer.constructor | src/hooks/useTimer.ts:4-7 | a new stopwatch is idle: zero, stopped, no task |
| WorkTimer.Timer.Start | src/hooks/useTimer.ts:24-29 | binds the given id and name, zeroes elapsed and runs, whatever the prior state, so an earlier binding is overwritten |
| WorkTimer.Timer.Pause | src/hooks/useTimer.ts:31 | clears the running flag only |
| WorkTimer.Timer.Resume | src/hooks/useTimer.ts:32 | sets the running flag only |
| WorkTimer.Timer.Stop | src/hooks/useTimer.ts:34-38 | returns the elapsed seconds and stops; elapsed and the binding are unchanged |
| WorkTimer.Timer.Reset | src/hooks/useTimer.ts:40-45 | from any state: elapsed 0, not running, no task |
| WorkTimer.Timer.Tick | src/hooks/useTimer.ts:10-18 | a tick adds exactly one second while running and nothing otherwise |
| WorkTimer.JsRem | src/hooks/useTimer.ts:49-50 | JavaScript's `%` with a positive divisor agrees with the Euclidean remainder on non-negative dividends |
| WorkTimer.JsRemSign | src/hooks/useTimer.ts:49-50 | the remainder has the dividend's sign and is smaller than the divisor in magnitude |
| WorkTimer.JsRemOdd | src/hooks/useTimer.ts:49-50 | negating the dividend negates the remainder; with the non-negative case this determines `%` for negative dividends too |
| WorkTimer.FormatTime | src/hooks/useTimer.ts:47-54 | `formatTime` with truncating `%`; stated by WorkTimer.FormatTimeIsDisplay and WorkTimer.FormatTimeRoundTrip |
| WorkTimer.Components | src/hooks/useTimer.ts:48-50 | the hour, minute and second fields re-assemble the count, and hours (or minutes) show exactly from an hour (or a minute) on |
| WorkTimer.FormatTimeIsDisplay | src/hooks/useTimer.ts:47-54 | for a non-negative count, `formatTime` shows the fields h = secs/3600, m = (secs%3600)/60 and s = secs%60, zero-padded |
| WorkTimer.Pad2NoColon | src/hooks/useTimer.ts:51 | a padded field contains no colon |
| WorkTimer.DisplayFields | src/hooks/useTimer.ts:51-53 | the display splits at its colons into 3, 2 or 1 padded fields, by whether hours, else minutes, are non-zero |
| WorkTimer.ParseClock | src/hooks/useTimer.ts:51-53 | the read-back parser for the `formatTime` display, which the application does not have; the partner of WorkTimer.FormatTimeRoundTrip |
| WorkTimer.Base60Of | src/hooks/useTimer.ts:51-53 | read-back parser for the `formatTime` display, which the application does not have: colon-separated fields read as digits in base 60 |
| WorkTimer.ParseClockFields | src/hooks/useTimer.ts:51-53 | read-back parser for the `formatTime` display, which the application does not have: one to three digit fields read back in base 60 |
| WorkTimer.ClockOfThree | src/hooks/useTimer.ts:51 | read-back parser for the `formatTime` display, which the application does not have: an `HH:MM:SS` display reads back as (h·60 + m)·60 + s |
| WorkTimer.ClockOfTwo | src/hooks/useTimer.ts:52 | read-back parser for the `formatTime` display, which the application does not have: an `MM:SS` display reads back as m·60 + s |
| WorkTimer.ClockOfOne | src/hooks/useTimer.ts:53 | read-back parser for the `formatTime` display, which the application does not have: an `SS` display reads back as s |
| WorkTimer.DisplayRoundTrip | src/hooks/useTimer.ts:51-53 | every display reads back as the fields it shows, in base 60 |
| WorkTimer.FormatTimeRoundTrip | src/hooks/useTimer.ts:47-54 | `formatTime` loses nothing: its output reads back as the number of seconds |
| WorkTimer.FormatTimeUnderAMinute | src/hooks/useTimer.ts:53 | below a minute only the padded seconds are shown |
| WorkTimer.FormatTimeUnderAnHour | src/hooks/useTimer.ts:52 | from a minute to an hour, `MM:SS` is shown |
| WorkTimer.FormatTimeFromAnHour | src/hooks/useTimer.ts:51 | from an hour on, `HH:MM:SS` is shown |
| WorkTimer.HoursOf | src/hooks/useTimer.ts:48-49 | the quotient and remainder by 3600 of h·3600 + r, for r below 3600 |
| WorkTimer.MinutesOf | src/hooks/useTimer.ts:49-50 | the quotient and remainder by 60 of m·60 + s, for s below 60 |
| WorkTimer.FormatTimeOfFields | src/hooks/useTimer.ts:51 | from an hour on, the display shows the given hour, minute and second fields |
| WorkTimer.Pad2Digit | src/hooks/useTimer.ts:51-53 | a single digit is padded with one zero |
| WorkTimer.Pad2FiftyNine | src/hooks/useTimer.ts:51-53 | 59 is padded as "59" |
| WorkTimer.FormatTimeZero | src/hooks/useTimer.ts:53 | 0 is shown as "00" |
| WorkTimer.FormatTimeLastSecondsOnly | src/hooks/useTimer.ts:53 | 59 is shown as "59" |
| WorkTimer.FormatTimeFirstMinute | src/hooks/useTimer.ts:52 | 60 is shown as "01:00" |
| WorkTimer.FormatTimeLastMinutesOnly | src/hooks/useTimer.ts:52 | 3599 is shown as "59:59" |
| WorkTimer.FormatTimeFirstHour | src/hooks/useTimer.ts:51 | 3600 is shown as "01:00:00" |
| AppStore.TaskWithId | src/context/AppContext.tsx:57 | a new task carries the fresh id and every field of the draft |
| AppStore.SessionWithId | src/context/AppContext.tsx:83 | a new session carries the fresh id and every field of the draft |
| AppStore.Pick | src/context/AppContext.tsx:63 | a field present in an update wins over the old value, and an absent one keeps it |
| AppStore.PatchTask | src/context/AppContext.tsx:63 | the spread `{ ...t, ...updates }` on a task; stated by AppStore.PatchTaskFields, AppStore.PatchNothing and AppStore.PatchTwice |
| AppStore.PatchTaskFields | src/context/AppContext.tsx:63 | `{ ...t, ...updates }` takes each field the update names from the update and every other field from the task |
| AppStore.PatchNothing | src/context/AppContext.tsx:63 | an empty update leaves a task as it is |
| AppStore.PatchTwice | src/context/AppContext.tsx:63 | applying the same update twice is applying it once |
| AppStore.PatchSettings | src/context/AppContext.tsx:105 | the spread `{ ...prev, ...updates }` on the settings; stated by AppStore.AppearancePatchKeepsRest |
| AppStore.AppearancePatchKeepsRest | src/context/AppContext.tsx:104-106 | an update of only the theme or palette changes only those fields and keeps the settings well formed |
| AppStore.UpdateTasks | src/context/AppContext.tsx:62-64 | `updateTask` keeps the length of the task list |
| AppStore.UpdateTasksOnlyMatching | src/context/AppContext.tsx:62-64 | only tasks with the id change, each by the update; a missing id changes nothing |
| AppStore.WithoutTask | src/context/AppContext.tsx:66-68 | `deleteTask` never lengthens the list |
| AppStore.WithoutTaskExactly | src/context/AppContext.tsx:66-68 | deleting removes every task with the id and keeps every other one as often as it occurred |
| AppStore.WithoutTaskKeepsOrder | src/context/AppContext.tsx:66-68 | deleting keeps the order of the rest, and deleting an absent id changes nothing |
| AppStore.WithDate | src/context/AppContext.tsx:74-80 | `addTaskToDate` keeps the length of the task list |
| AppStore.WithDatePlans | src/context/AppContext.tsx:74-80 | every task with the id ends up planned on the date, earlier dates stay in place, at most one date is appended, nothing else changes, and other tasks are untouched |
| AppStore.WithDateIdempotent | src/context/AppContext.tsx:74-80 | adding the same date twice is adding it once |
| AppStore.TasksForDate | src/context/AppContext.tsx:70-72 | a day's list is no longer than the task list |
| AppStore.TasksForDateExactly | src/context/AppContext.tsx:70-72 | the day's list holds exactly the tasks planned on that day, each as often as in the task list |
| AppStore.TasksForDateKeepsOrder | src/context/AppContext.tsx:70-72 | the day's list is in task-list order |
| AppStore.WithDateShowsOnDay | src/context/AppContext.tsx:70-80 | a task given a date shows up in that day's list |
| AppStore.SessionsForDate | src/context/AppContext.tsx:86-88 | a day's sessions are no more than the ledger |
| AppStore.SessionsForDateExactly | src/context/AppContext.tsx:86-88 | a day's sessions are exactly the ledger's sessions with that date, each as often as in the ledger |
| AppStore.SessionsForDateAppend | src/context/AppContext.tsx:82-88 | appending a session extends its own day's list by it at the end and no other day's list |
| AppStore.TaskExists | src/context/AppContext.tsx:118-120 | `taskExists`: some task has the name, ignoring ASCII case; stated by AppStore.TaskExistsIgnoresCase |
| AppStore.TaskExistsIgnoresCase | src/context/AppContext.tsx:118-120 | `taskExists` ignores the case of the name asked for, and finds every task by its own name |
| AppStore.CompletionKey | src/context/AppContext.tsx:91 | the key is the task id, an underscore and the date, in that order |
| AppStore.CompletionKeyInjective | src/context/AppContext.tsx:91 | different (task, day) pairs have different keys when the days contain no underscore, as `yyyy-MM-dd` days do |
| AppStore.CompletionKeySameDay | src/context/AppContext.tsx:91-101 | on one day, two tasks share a completion key exactly when their ids are equal, whatever the day string contains |
| AppStore.SetCompleted | src/context/AppContext.tsx:99-102 | setting a flag adds only that pair's key to the map |
| AppStore.Toggled | src/context/AppContext.tsx:90-93 | toggling a flag adds only that pair's key to the map |
| AppStore.IsTaskCompleted | src/context/AppContext.tsx:95-97 | `!!completions[key]`; stated by AppStore.NeverWrittenNotCompleted, AppStore.SetThenQuery and AppStore.ToggleFlips |
| AppStore.NeverWrittenNotCompleted | src/context/AppContext.tsx:95-97 | a key never written reads as not completed |
| AppStore.SetThenQuery | src/context/AppContext.tsx:95-102 | after setting a pair's flag it reads back as set, and every other key keeps its value |
| AppStore.SetLeavesOthers | src/context/AppContext.tsx:95-102 | setting one pair's flag leaves the reading of every other pair unchanged |
| AppStore.ToggleFlips | src/context/AppContext.tsx:90-97 | toggling flips the reading, and toggling twice restores it |
| AppStore.Store.constructor | src/context/AppContext.tsx:56-112 | an empty store with the default settings |
| AppStore.Store.AddTask | src/context/AppContext.tsx:56-60 | appends exactly the new task, returns it, and leaves sessions, flags and settings alone |
| AppStore.Store.UpdateTask | src/context/AppContext.tsx:62-64 | the task list becomes the updated list, nothing else changes |
| AppStore.Store.DeleteTask | src/context/AppContext.tsx:66-68 | the task list loses the tasks with the id, nothing else changes |
| AppStore.Store.AddTaskToDate | src/context/AppContext.tsx:74-80 | the matching tasks gain the date, nothing else changes |
| AppStore.Store.AddSession | src/context/AppContext.tsx:82-84 | the ledger grows by exactly the new session, at the end; earlier sessions and everything else are unchanged |
| AppStore.Store.ToggleTaskCompletion | src/context/AppContext.tsx:90-93 | only the flag of the pair flips |
| AppStore.Store.SetTaskCompleted | src/context/AppContext.tsx:99-102 | only the flag of the pair is set |
| AppStore.Store.UpdateSettings | src/context/AppContext.tsx:104-106 | only the settings change, by the update |
| AppStore.Store.ClearAllData | src/context/AppContext.tsx:108-112 | tasks, sessions and flags are emptied; the settings stay |
| Home.SelectedIn | src/pages/HomePage.tsx:53 | the selected task is a listed task with the selected id; there is none only when nothing is selected or no task has the id |
| Home.WorkCommit | src/pages/HomePage.tsx:107-117 | the work session a commit appends; stated by Home.WorkCommitShape |
| Home.WorkCommitShape | src/pages/HomePage.tsx:106-117 | at most one `work` session is committed, exactly when a task is selected and the stopped duration is positive; it carries the task's id and name, today and the duration |
| Home.BreakTaskId | src/pages/HomePage.tsx:158 | a break is filed under the selected task's id, or under `break` when no task is selected or its id is empty |
| Home.BreakLimitSeconds | src/pages/HomePage.tsx:147 | a limit exists exactly for a given non-zero number of minutes, and is that many minutes in seconds |
| Home.BreakBegun | src/pages/HomePage.tsx:145-148 | the break fields after `startBreak`; stated by Home.BreakTransitionsConsistent and Home.BegunDueIff |
| Home.BreakTicked | src/pages/HomePage.tsx:63-69 | the break fields after one interval firing; stated by Home.BreakTickedIsFloor |
| Home.DueToEnd | src/pages/HomePage.tsx:71-75 | the expiry condition `isOnBreak && breakLimit && breakElapsed >= breakLimit`; stated by Home.BegunDueIff |
| Home.BreakTransitionsConsistent | src/pages/HomePage.tsx:145-169 | entering, ticking and ending a break keep the break fields consistent: a break has a start, and outside a break all fields are cleared |
| Home.BreakTickedIsFloor | src/pages/HomePage.tsx:66 | a tick sets the elapsed break time to the floor of the milliseconds since the start over 1000 |
| Home.BegunDueIff | src/pages/HomePage.tsx:71-75 | a fresh break expires at once exactly when its number of minutes is negative |
| Home.ExpiryRecordsOvershoot | src/pages/HomePage.tsx:71-75 | an expired break is recorded with its full elapsed time, which can exceed the limit |
| Home.BreakCommit | src/pages/HomePage.tsx:155-165 | the break session `endBreak` appends; stated by Home.BreakCommitShape |
| Home.BreakCommitShape | src/pages/HomePage.tsx:155-165 | at most one `break` session named 'Mola' is recorded, exactly when break time elapsed, for that time, under the break's task id |
| Home.CustomBreakMinutes | src/pages/HomePage.tsx:582 | the custom length is the typed integer, or 5 when it reads as NaN or 0, so it is never 0 |
| Home.CustomBreakReadsNumber | src/pages/HomePage.tsx:582 | a typed positive number of minutes becomes a limit of that many minutes |
| Home.KindTotal | src/pages/HomePage.tsx:77-79 | the seconds of today's sessions of one kind; stated by Home.KindTotalIsSumOfMatching and Home.KindTotalAppend |
| Home.TotalWork | src/pages/HomePage.tsx:77-79 | `totalWork`; stated through Home.KindTotalIsSumOfMatching and Analytics.DailyMinutesIsWorkTotal |
| Home.KindTotalIsSumOfMatching | src/pages/HomePage.tsx:77-80 | today's total of a kind is the sum over exactly the sessions of today and that kind |
| Home.TotalBreak | src/pages/HomePage.tsx:78-80 | `totalBreak`; stated by Home.TotalBreakIsSumOfMatching |
| Home.TotalBreakIsSumOfMatching | src/pages/HomePage.tsx:78-80 | the break total is the sum over exactly today's break sessions, plus the running break's seconds exactly while on break |
| Home.KindTotalAppend | src/pages/HomePage.tsx:77-80 | recording a session adds its duration to the total of its own day and kind only |
| Home.CompletedCount | src/pages/HomePage.tsx:81 | the done count never exceeds the day's task count |
| Home.CompletedCountAfterMark | src/pages/HomePage.tsx:81 | marking a task that was not done raises the count by the number of times it appears in today's list |
| Home.UnplannedTasks | src/pages/HomePage.tsx:83 | the tasks not planned for today; stated by Home.UnplannedComplementsToday |
| Home.UnplannedComplementsToday | src/pages/HomePage.tsx:83 | every task is either in today's list or offered as unplanned, never both |
| Home.FilteredUnplanned | src/pages/HomePage.tsx:84-86 | the drawer's search result; stated by Home.FilteredUnplannedExactly and Home.EmptyQueryMatchesAll |
| Home.FilteredUnplannedExactly | src/pages/HomePage.tsx:83-86 | the drawer shows exactly the tasks not planned today whose name contains the query, ignoring case |
| Home.EmptyQueryMatchesAll | src/pages/HomePage.tsx:84-86 | skipping the filter for an empty query changes nothing, because every name contains the empty string |
| Home.FreeWorkTasks | src/pages/HomePage.tsx:187-193 | the task list after `handleFreeWork`; stated by Home.FreeWorkPlansToday and Home.FreeWorkIdempotent |
| Home.FreeWorkId | src/pages/HomePage.tsx:188-194 | the id `handleFreeWork` selects; stated by Home.FreeWorkPlansToday and Home.FreeWorkIdempotent |
| Home.FreeWorkPlansToday | src/pages/HomePage.tsx:187-196 | afterwards the selected task is the first free-work task and is planned today |
| Home.FirstIndexSameNames | src/pages/HomePage.tsx:188-192 | adding a date keeps the position of the first task with the name |
| Home.FreeWorkIdempotent | src/pages/HomePage.tsx:187-196 | free work a second time changes no task and selects the same task |
| Home.HomeScreen.constructor | src/pages/HomePage.tsx:26-44 | the screen starts with nothing selected, no break and every dialog closed |
| Home.HomeScreen.SyncSelection | src/pages/HomePage.tsx:56-60 | the stopwatch's task is adopted only when it is set and nothing is selected |
| Home.HomeScreen.SelectTask | src/pages/HomePage.tsx:88-91 | selects the task and closes the accordion |
| Home.HomeScreen.HandleStart | src/pages/HomePage.tsx:93-96 | starts the stopwatch on the selected task; without a selection the stopwatch is untouched |
| Home.HomeScreen.HandlePause | src/pages/HomePage.tsx:98 | pauses the stopwatch |
| Home.HomeScreen.HandleResume | src/pages/HomePage.tsx:99 | resumes the stopwatch |
| Home.HomeScreen.HandleFinish | src/pages/HomePage.tsx:101-104 | pauses the stopwatch and opens the finish dialog |
| Home.HomeScreen.CommitWork | src/pages/HomePage.tsx:107-121 | stops the stopwatch, appends the work commit of the selected task, and leaves the stopwatch idle; tasks, flags and settings unchanged |
| Home.HomeScreen.CompleteTask | src/pages/HomePage.tsx:106-124 | commits the work session, sets today's flag only on a yes with a selected task, idles the stopwatch, clears the selection and closes the dialog; the break is untouched |
| Home.HomeScreen.HandleBreakClick | src/pages/HomePage.tsx:126-130 | the first break dialog opens only while the stopwatch runs |
| Home.HomeScreen.StartBreak | src/pages/HomePage.tsx:132-153 | commits pending work, idles the stopwatch, enters a break started now with the limit of the given minutes, and turns off the break question only when "don't ask" is ticked |
| Home.HomeScreen.EndBreak | src/pages/HomePage.tsx:155-170 | appends the break commit and clears all break fields |
| Home.HomeScreen.ExpireIfDue | src/pages/HomePage.tsx:71-75 | a break that has reached its non-zero limit ends and is recorded; otherwise nothing changes |
| Home.HomeScreen.BreakTick | src/pages/HomePage.tsx:63-75 | one break tick updates the elapsed seconds and then ends the break once it is due |
| Home.HomeScreen.BreakDialogStop | src/pages/HomePage.tsx:527-535 | closes the first dialog; when the settings ask for a limit it opens the second dialog and changes nothing else in the store or stopwatch; otherwise it begins a break of the default length and commits the pending work session to the ledger, idles the stopwatch, sets askBreakTimer to false when "don't ask" is ticked, and leaves the tasks, flags and selection alone |
| Home.HomeScreen.BreakDialogFinish | src/pages/HomePage.tsx:540-544 | closes the first dialog and enters the finish flow: the stopwatch pauses and the finish dialog opens, while the selection and the break stay, so the later answer credits the task that was running |
| Home.HomeScreen.ChoosePresetBreak | src/pages/HomePage.tsx:560-569 | begins a break limited to the preset minutes (5, 10 or 30); it closes the second dialog, commits the pending work session to the ledger, idles the stopwatch, sets askBreakTimer to false when "don't ask" is ticked, and leaves the tasks, flags and selection alone; the first dialog and the finish dialog keep their state |
| Home.HomeScreen.ChooseCustomBreak | src/pages/HomePage.tsx:578-585 | with text in the field, begins a break of `parseInt(text) || 5` minutes and commits the pending work session to the ledger, idles the stopwatch, sets askBreakTimer to false when "don't ask" is ticked, and leaves the tasks, flags and selection alone; with an empty field nothing in the break, stopwatch or store changes; the first dialog and the finish dialog keep their state |
| Home.HomeScreen.SkipBreakLimit | src/pages/HomePage.tsx:588-594 | begins a break without a limit; it closes the second dialog, commits the pending work session to the ledger, idles the stopwatch, sets askBreakTimer to false when "don't ask" is ticked, and leaves the tasks, flags and selection alone; the first dialog and the finish dialog keep their state |
| Home.HomeScreen.HandleAddUnplannedTask | src/pages/HomePage.tsx:172-176 | plans the task for today by `addTaskToDate`, closes the drawer and clears the search; sessions, flags, settings, selection and break stay |
| Home.HomeScreen.HandleCreateNewTask | src/pages/HomePage.tsx:178-185 | a blank name does nothing; otherwise the trimmed name becomes a task planned today, which is selected, and the input is cleared; sessions, flags, settings and break stay |
| Home.HomeScreen.HandleFreeWork | src/pages/HomePage.tsx:187-196 | reuses the free-work task or creates it, plans it today at most once, and selects it; sessions, flags, settings and break stay |
| Analytics.RoundMinutes | src/pages/AnalyticsPage.tsx:52 | the minutes are within half a minute of the seconds: 60m − 30 ≤ s < 60m + 30 |
| Analytics.RoundMinutesIsMathRound | src/pages/AnalyticsPage.tsx:52 | integer rounding equals `Math.round` of the exact quotient, rounding halves up |
| Analytics.DailyMinutes | src/pages/AnalyticsPage.tsx:52 | one day's bar: the rounded work seconds of that day; stated by Analytics.DailyMinutesIsWorkTotal |
| Analytics.DailyMinutesIsWorkTotal | src/pages/AnalyticsPage.tsx:35 | a day's bar is the rounded work total of that day, the same sum the home screen shows |
| Analytics.TaskCategory | src/pages/AnalyticsPage.tsx:68-69 | every session gets a non-empty category |
| Analytics.CategoryOf | src/pages/AnalyticsPage.tsx:68-69 | a session's category is never empty |
| Analytics.CategoryOfFoundTask | src/pages/AnalyticsPage.tsx:68-69 | a session counts under the category of the task `find` returns for its id, or under 'Diğer' when the task is gone or its category is missing or empty |
| Analytics.SumOfLast | src/pages/AnalyticsPage.tsx:70 | a sum is the sum of all but the last element plus the last |
| Analytics.CategorySeconds | src/pages/AnalyticsPage.tsx:67-70 | independent reference: the seconds of the work sessions that fall in a category; stated by Analytics.CategorySecondsLast |
| Analytics.CatTotals | src/pages/AnalyticsPage.tsx:66-71 | the dictionary the category loop builds, session by session; proved equal to Analytics.CategorySeconds by Analytics.CatTotalsAreSeconds |
| Analytics.CatKeys | src/pages/AnalyticsPage.tsx:72 | the dictionary's keys in insertion order; stated by Analytics.CatKeysAreDomain, Analytics.CatKeysOccur and Analytics.CatKeysDistinct |
| Analytics.CategorySecondsLast | src/pages/AnalyticsPage.tsx:70 | a session adds its duration to its own category's seconds and to no other |
| Analytics.CatKeysAreDomain | src/pages/AnalyticsPage.tsx:70-72 | the dictionary's keys are exactly the listed categories |
| Analytics.CatKeysOccur | src/pages/AnalyticsPage.tsx:67-71 | a category is listed exactly when some work session falls in it |
| Analytics.CatTotalsAreSeconds | src/pages/AnalyticsPage.tsx:67-71 | each category holds exactly the seconds of its sessions, and an unlisted one holds none |
| Analytics.CatKeysDistinct | src/pages/AnalyticsPage.tsx:72 | no category is listed twice |
| Analytics.CatTotalsSumToWork | src/pages/AnalyticsPage.tsx:66-71 | before rounding, the categories share out exactly the total work time |
| Analytics.CatStep | src/pages/AnalyticsPage.tsx:68-70 | one loop iteration extends the dictionary and its key order as one more session does |
| Analytics.CatListedTotals | src/pages/AnalyticsPage.tsx:72-75 | every listed category has an entry, holding its seconds |
| Analytics.TotalsByCategory | src/pages/AnalyticsPage.tsx:66-71 | the loop builds the keys in insertion order, each once, with each category's exact seconds (names that are `Object.prototype` properties are left out, see below) |
| Analytics.CategoryData | src/pages/AnalyticsPage.tsx:65-76 | one row per category of the work sessions, in order of first appearance, each with its rounded work minutes (names that are `Object.prototype` properties are left out, see below) |
| Analytics.WorkSeconds | src/pages/AnalyticsPage.tsx:83-84 | a task's work seconds; stated by Analytics.WorkSecondsIsFilterSum |
| Analytics.ActualMinutes | src/pages/AnalyticsPage.tsx:84 | a task's work in rounded minutes; stated through Analytics.WorkSecondsIsFilterSum and Analytics.RoundMinutes |
| Analytics.WorkSecondsIsFilterSum | src/pages/AnalyticsPage.tsx:83-84 | a task's work seconds are the sum over its work sessions |
| Analytics.EntryOf | src/pages/AnalyticsPage.tsx:82-87 | a task contributes exactly when its planned duration is truthy and its actual minutes are positive, with those two figures |
| Analytics.PredTotals | src/pages/AnalyticsPage.tsx:80-89 | the dictionary keyed by task name that the prediction loop builds; stated by Analytics.PredTotalsLast and Analytics.PredTotalsAre |
| Analytics.PredKeys | src/pages/AnalyticsPage.tsx:90 | its keys in insertion order; stated by Analytics.PredKeysAreDomain, Analytics.PredKeyListed and Analytics.PredKeysDistinct |
| Analytics.PredKeysAreDomain | src/pages/AnalyticsPage.tsx:86-90 | the dictionary's keys are exactly the listed names |
| Analytics.PredKeyListed | src/pages/AnalyticsPage.tsx:86 | every task with an entry has its name listed |
| Analytics.PredTotalsLast | src/pages/AnalyticsPage.tsx:86 | the figures under a name are those of the last task of that name with an entry |
| Analytics.PredTotalsAre | src/pages/AnalyticsPage.tsx:81-90 | a name is listed exactly when some task of that name has an entry, and shows the last such task's figures |
| Analytics.PredListedEntries | src/pages/AnalyticsPage.tsx:85-86 | every listed name has an entry with positive actual minutes and a non-zero plan |
| Analytics.PredKeysDistinct | src/pages/AnalyticsPage.tsx:90 | no name is listed twice |
| Analytics.ShortName | src/pages/AnalyticsPage.tsx:91 | a label is at most 15 characters |
| Analytics.ShortNameKeepsStart | src/pages/AnalyticsPage.tsx:91 | a long name keeps its first 12 characters followed by "...", and a short name is unchanged |
| Analytics.ShortNameMerges | src/pages/AnalyticsPage.tsx:91 | any two long names that agree on their first twelve characters get the same label, so their rows look alike |
| Analytics.ShortNameMergesExample | src/pages/AnalyticsPage.tsx:91 | for instance "Matematik odev 1" and "Matematik odev 2" share one label |
| Analytics.PredictionData | src/pages/AnalyticsPage.tsx:79-94 | one row per listed name, in order of first appearance, with the last contributing task's planned and actual minutes and diff = actual − planned (a task named "__proto__" is left out, see below) |
| Analytics.NatToStringNoSpace | src/pages/AnalyticsPage.tsx:104 | a rendered number contains no space |
| Analytics.MinutesFormParse | src/pages/AnalyticsPage.tsx:105 | `<digits>dk` reads back as its digits |
| Analytics.HoursFormParse | src/pages/AnalyticsPage.tsx:104 | `<digits>s <digits>dk` reads back as hours·60 + minutes |
| Analytics.FormatMin | src/pages/AnalyticsPage.tsx:103-106 | `formatMin`; stated by Analytics.FormatMinRoundTrip |
| Analytics.ParseMin | src/pages/AnalyticsPage.tsx:103-106 | a read-back parser for `formatMin` output that the application does not have, the partner of Analytics.FormatMinRoundTrip |
| Analytics.FormatMinRoundTrip | src/pages/AnalyticsPage.tsx:103-106 | `formatMin` loses nothing for a non-negative count: its output reads back as the minutes |
| Analytics.FormatMinMinutesOnly | src/pages/AnalyticsPage.tsx:105 | below an hour only minutes are shown: 45 → "45dk" |
| Analytics.FormatMinWholeHour | src/pages/AnalyticsPage.tsx:104 | a whole hour shows its zero minutes: 60 → "1s 0dk" |
| Analytics.FormatMinHoursAndMinutes | src/pages/AnalyticsPage.tsx:104 | 135 → "2s 15dk" |
| Planning.DraftFromForm | src/pages/PlanningPage.tsx:31-38 | what `handleCreate` passes to `addTask`; stated by the Planning.Draft* lemmas and Planning.BlankNameRejected |
| Planning.BlankNameRejected | src/pages/PlanningPage.tsx:31-32 | nothing is created exactly when the name is all whitespace |
| Planning.DraftNameTrimmed | src/pages/PlanningPage.tsx:34-37 | the new name is a non-empty part of the typed text with no whitespace at either end, and the task is planned for exactly the selected day |
| Planning.DraftCategory | src/pages/PlanningPage.tsx:35 | the category is absent exactly when the typed category is blank, and is otherwise its trimmed text |
| Planning.DraftDuration | src/pages/PlanningPage.tsx:36 | an empty duration field gives no planned duration, and a written integer gives that integer |
| Planning.DraftIgnoresSurroundingSpace | src/pages/PlanningPage.tsx:34-35 | re-typing the trimmed text creates the same task |
| Planning.CreatedShowsOnDay | src/pages/PlanningPage.tsx:27-37 | a created task shows up last in the selected day's list |
| Planning.PlanningScreen.constructor | src/pages/PlanningPage.tsx:19-24 | the screen opens on today with an empty, closed form |
| Planning.PlanningScreen.HandleCreate | src/pages/PlanningPage.tsx:31-43 | a blank name changes nothing; otherwise the form's task is appended, the three fields are cleared and the dialog closes |
| Planning.PlanningScreen.ToggleCompletion | src/pages/PlanningPage.tsx:110-112 | the checkbox toggles the flag of exactly (task, selected day) |
| Planning.PlanningScreen.DeleteDayTask | src/pages/PlanningPage.tsx:131 | the delete button removes the task from every day |
| Templates.TemplateWithId | src/hooks/useTemplates.ts:29 | a new template carries the fresh id and every field of the draft |
| Templates.WithoutTemplate | src/hooks/useTemplates.ts:35 | deleting never lengthens the list |
| Templates.WithoutTemplateExactly | src/hooks/useTemplates.ts:34-36 | deleting removes every template with the id and keeps the others as often as they occurred |
| Templates.WithoutTemplateKeepsOrder | src/hooks/useTemplates.ts:34-36 | deleting keeps the order of the rest |
| Templates.WithoutAbsentTemplate | src/hooks/useTemplates.ts:34-36 | deleting an absent id leaves the list unchanged |
| Templates.AddThenDeleteRestores | src/hooks/useTemplates.ts:28-36 | adding a template under a fresh id and deleting that id restores the list |
| Templates.TemplateList.constructor | src/hooks/useTemplates.ts:21 | a new list is empty |
| Templates.TemplateList.Save | src/hooks/useTemplates.ts:23-26 | the given list replaces the current one |
| Templates.TemplateList.AddTemplate | src/hooks/useTemplates.ts:28-32 | appends exactly the new template and returns it |
| Templates.TemplateList.DeleteTemplate | src/hooks/useTemplates.ts:34-36 | the list loses exactly the templates with the id |

## Left out

- Persistence: loading from and saving to `localStorage` and the JSON encoding (src/context/AppContext.tsx, src/hooks/useTemplates.ts) are I/O. `Store.constructor` and `TemplateList.constructor` start from the empty state and do not restore a saved one.
- `exportData` (src/context/AppContext.tsx:114-116) is only JSON serialisation.
- The theme and palette attributes written to the document are DOM side effects.
- Scheduling is left out: `setInterval`, `clearInterval` and `Date.now`. Each interval firing is a `Tick`/`BreakTick` call, and "now" is a parameter.
- `crypto.randomUUID` is left out; fresh ids are parameters and are not proved unique.
- React's batching of state updates and its stale closures are not modelled. Each handler is a sequence of steps on one state. For example, `HomeScreen.CommitWork` reads the elapsed time of the state the handler starts in, which is what the closure sees.
- Floating point is left out: the ring geometry, the progress percentages, and the prediction `pct` and `avgDeviation` at src/pages/AnalyticsPage.tsx:95-101. Minute rounding is modelled on whole seconds only, where it is exact.
- Calendar arithmetic (date-fns) is left out: day formatting, the week and month windows of the bar chart, and week navigation. Dates are opaque strings. Only the daily bar is modelled (`Analytics.DailyMinutesIsWorkTotal`).
- `Text.AsciiLower`: only ASCII letters are lower-cased. The case mapping of other Unicode letters that `toLowerCase` performs is not modelled, so `taskExists` and the drawer search fold only ASCII case.
- `Text.JsParseInt` reads decimal digits only. It does not model the `0x` prefix or other radices, and it collapses `NaN` to an absent value. A planned duration of `NaN` therefore appears in the model as no planned duration, which the analysis screen treats alike because `NaN` is falsy.
- `Analytics.ShortName` counts characters. JavaScript counts UTF-16 code units, so a name with characters outside the Basic Multilingual Plane is cut at a different place.
- `Analytics.TotalsByCategory`: `catMap` is a plain object, so a category named like an `Object.prototype` property (`constructor`, `toString`, `__proto__`, …) starts from the inherited value in the source, or is not stored at all for `__proto__`. The model treats every name as an ordinary key.
- `Analytics.CategoryData`: for the same reason, a "constructor" category shows `NaN` minutes in the source and a "__proto__" category shows no row; the model gives such names their seconds like any other.
- `Analytics.PredictionData`: `taskMap` is a plain object, so a task named "__proto__" re-prototypes it and is missing from `Object.entries` in the source; the model lists it like any other name.
- Read-back parsers: `Text.Split`, `WorkTimer.ParseClock` and `Analytics.ParseMin` do not exist in the application. They read the `formatTime` and `formatMin` displays back, so that those formats can be stated as round trips.
- Object key order: categories and task names are listed in insertion order. JavaScript puts integer-like keys such as "12" first; that ordering is not modelled.
- UI-only state: carousel, accordion, drawer, rendering and animation. These setters hold no invariant beyond the flags the model keeps.
- The context value at src/context/AppContext.tsx:122-130 does not provide the `timer` that the home screen reads from it. The model gives the home screen its own `Timer` object.
- `WorkTimer.Timer.Start` overwrites an existing binding instead of refusing to start; the model follows the code.
- The finish flow is the yes/no confirm dialog at src/pages/HomePage.tsx:608-625, as in the code.
- "A running stopwatch or counted time implies a bound task" is not an invariant of the code: `resume` on the idle stopwatch runs unbound (`WorkTimer.ResumeFromIdleRunsUnbound`). After `stop` or `pause`, id and name stay bound with the time.
- A negative custom break length is accepted. Such a break ends at the first expiry check (`Home.BegunDueIff`).
- `Analytics.CategoryOf` and `Analytics.ActualMinutes` are written recursively. `Analytics.CategoryOfFoundTask` and `Analytics.WorkSecondsIsFilterSum` prove them equal to the `find` and `filter`/`reduce` forms the screen uses.
