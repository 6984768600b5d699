# Study planner: a Dafny model of the pages' state and derived views

The study planner is a single-user browser application. It keeps a task list, a
weekly class timetable, a user profile and a settings record in the browser's local
storage. Every page reads the slots it needs, rebuilds them with small list
operations, and recomputes its views from the rebuilt state on every render:

- the filtered task list;
- the task statistics;
- the three upcoming tasks;
- the tasks due on a calendar day;
- the achievement badges and their streak;
- the per-day timetable;
- the profile initials;
- the backup file.

This project models those operations in Dafny and proves what the pages rely on.

The project has one module per page, plus the modules the pages share:

- `Wrappers`: `Option`.
- `Seqs`: `filter`, `slice(0, n)`, `[...new Set(xs)]`, and the stable
  `Array.prototype.sort`, modelled as a stable insertion sort; with their laws.
- `Text`: ASCII case mapping, `includes`, `trim`, `split`, and a code-point
  order for `localeCompare`.
- `Tasks`: the task record, the card's overdue test and priority colour
  (`src/components/TaskCard.tsx`), the calendar day of a due moment, and the shared
  task views.
- `TaskList` (`src/pages/Index.tsx`): filters, statistics, upcoming tasks; the class
  `TaskBoard` holds the page's state and its add, update, toggle, delete and edit
  handlers.
- `Achievements` (`src/pages/Achievements.tsx`): statistics, the seven-day streak,
  the nine-badge table, and its unlocked/locked split.
- `Schedule` (`src/pages/Schedule.tsx`): the class `SchedulePage` with its dialog,
  form, submit, edit and delete handlers, and the per-day lists sorted by start time.
- `Profile` (`src/pages/Profile.tsx`): the class `ProfilePage`, with the edit form,
  goals, initials and counts.
- `Settings` (`src/pages/Settings.tsx`): the class `SettingsPage`, with update,
  export, import and clear.
- `Calendar` (`src/pages/Calendar.tsx`): the tasks of the selected day, and the
  highlighted dates.
- `Theme` (`src/components/ThemeToggle.tsx`): the class `ThemeToggle`, with its
  light → dark → system cycle, icon and label.

Each page whose handlers update state is a class. Its fields are the page's copy of
the persisted slots and its transient UI state. Each handler is a method whose
`ensures` gives the whole new state in terms of the old one, through specification
functions. The lemmas beside those functions prove the properties the pages rely on.

A due date is an integer number of milliseconds since the epoch. Its calendar day is
`DayOf(ts) = ts / 86_400_000`. The completion rate is an exact `real`.

The badge table has nine entries; `priority-master` is the ninth.

## Model

| member | source | states |
|---|---|---|
| Tasks.WithId | src/pages/Index.tsx:47-50 | `{ ...data, id }` carries the given id and exactly the submitted fields (`DataOf` recovers them) |
| Tasks.IsOverdue | src/components/TaskCard.tsx:34 | no contract of its own; as written: due strictly before `now` and not completed (CompletedNeverOverdue and PendingOverdueIff state it) |
| Tasks.PriorityColor | src/components/TaskCard.tsx:24-31 | no contract of its own; as written: "high", "medium" and "low" get the destructive, warning and success classes and anything else the secondary ones (PriorityColorsDistinct and PriorityColorDefault state it) |
| Tasks.CompletedNeverOverdue | src/components/TaskCard.tsx:34 | a completed task is never shown as overdue, whatever the current moment |
| Tasks.PendingOverdueIff | src/components/TaskCard.tsx:34 | a pending task is overdue exactly when its due moment is strictly before now |
| Tasks.PriorityColorsDistinct | src/components/TaskCard.tsx:24-31 | the three priorities get pairwise different badge classes, none of them the default one |
| Tasks.PriorityColorDefault | src/components/TaskCard.tsx:29 | any string naming no priority gets the secondary classes |
| Tasks.DayOf | src/pages/Calendar.tsx:16-17 | a moment's day is the day-long window containing it |
| Tasks.DayOfIff | src/pages/Calendar.tsx:17 | two moments share a `toDateString` exactly when they fall in the same day window, in both directions |
| Tasks.CompletedTasks | src/pages/Index.tsx:37 | a subsequence of the list (list order kept) in which a task appears exactly when it is in the list and completed |
| Tasks.Subjects | src/pages/Achievements.tsx:27 | one subject per task, position by position |
| Tasks.DistinctSubjects | src/pages/Achievements.tsx:27 | every task's subject appears once, only subjects of tasks appear, and there are never more subjects than tasks |
| TaskList.FilteredTasks | src/pages/Index.tsx:22-33 | the shown list is a subsequence of the tasks; a task is shown exactly when it passes the search, status and priority filters; every copy is kept, since the shown and hidden tasks together are the list as a multiset |
| TaskList.MatchesSearch | src/pages/Index.tsx:24-25 | no contract of its own; as written: the lower-cased term occurs in the lower-cased title or subject (SearchMeansOccurrence states it) |
| TaskList.MatchesStatus | src/pages/Index.tsx:26-28 | no contract of its own; as written: "all" passes every task, "completed" the completed ones and "pending" the others |
| TaskList.MatchesPriority | src/pages/Index.tsx:29 | no contract of its own; as written: "all" passes every task, otherwise the task's priority must equal the chosen one |
| TaskList.NoFilterShowsAll | src/pages/Index.tsx:24-29 | an empty search with both filters on "all" shows every task, in order |
| TaskList.SearchMeansOccurrence | src/pages/Index.tsx:24-25 | a task matches the search exactly when the lower-cased term stands at some position of the lower-cased title or subject |
| TaskList.SearchIgnoresCase | src/pages/Index.tsx:24-25 | upper-casing the search term does not change which tasks match |
| TaskList.TaskStats | src/pages/Index.tsx:35-44 | total is the list length, pending is total minus completed and equals the number of incomplete tasks, and overdue never exceeds pending |
| TaskList.OverdueTasks | src/pages/Index.tsx:39-41 | no contract of its own; as written: the tasks due strictly before `now` and not completed (OverdueCountMatchesCards ties it to the card's test) |
| TaskList.OverdueCountMatchesCards | src/pages/Index.tsx:39-41 | at the same moment, the statistics' overdue test selects exactly the tasks whose card shows them as overdue |
| TaskList.DueLeTotalPreorder | src/pages/Index.tsx:103 | the due-date comparator is a consistent (total, transitive) order |
| TaskList.UpcomingTasks | src/pages/Index.tsx:101-104 | at most three incomplete tasks from the list, sorted by due date, and no incomplete task left out is due before one shown |
| TaskList.PendingByDue | src/pages/Index.tsx:101-103 | no contract of its own; as written: the incomplete tasks sorted stably by due moment (UpcomingTasks, UpcomingStable and UpcomingIsPrefix state its properties) |
| TaskList.UpcomingStable | src/pages/Index.tsx:103 | tasks with the same due moment keep their list order in the sorted pending tasks |
| TaskList.UpcomingIsPrefix | src/pages/Index.tsx:104 | the upcoming tasks are the front of the sorted pending tasks |
| TaskList.TaskBoard.constructor | src/pages/Index.tsx:14-16 | the page starts from the stored list with no edit target and the form closed |
| TaskList.TaskBoard.AddTask | src/pages/Index.tsx:46-51 | the list becomes the old list with the new task at the end; form state is unchanged |
| TaskList.TaskBoard.UpdateTask | src/pages/Index.tsx:58-65 | without an edit target nothing changes; otherwise the target's id gets the submitted fields and editing ends |
| TaskList.TaskBoard.SubmitForm | src/pages/Index.tsx:274 | the form's submit updates when a task is being edited and adds otherwise |
| TaskList.TaskBoard.ToggleTaskComplete | src/pages/Index.tsx:72-76 | the list becomes `ToggleById` of the old list; nothing else changes |
| TaskList.TaskBoard.DeleteTask | src/pages/Index.tsx:87-88 | the list becomes `RemoveById` of the old list; nothing else changes |
| TaskList.TaskBoard.HandleEditTask | src/pages/Index.tsx:96-99 | the task becomes the edit target and the form opens; the list is unchanged |
| TaskList.TaskBoard.CloseForm | src/pages/Index.tsx:270-273 | the form closes and the edit target is forgotten |
| TaskList.TaskBoard.Views | src/pages/Index.tsx:22-104 | the three tabs show the filtered tasks, the upcoming tasks, and the completed tasks of the current list in list order |
| TaskList.Appended | src/pages/Index.tsx:51 | one more task at the end, carrying the fresh id and the submitted fields; every earlier task is untouched |
| TaskList.ReplaceById | src/pages/Index.tsx:61-63 | same length and ids; every task with the id gets the submitted fields; every other task is untouched |
| TaskList.ToggleById | src/pages/Index.tsx:73-75 | same length; each task with the id has its completion flipped and nothing else changed; the other tasks are untouched |
| TaskList.RemoveById | src/pages/Index.tsx:88 | the result is a subsequence, and a task survives exactly when its id differs |
| TaskList.ToggleTwice | src/pages/Index.tsx:73-75 | toggling the same id twice restores the list |
| TaskList.ToggleUnknown | src/pages/Index.tsx:73-75 | toggling an id no task has changes nothing |
| TaskList.ReplaceUnknown | src/pages/Index.tsx:61-63 | updating an id no task has changes nothing |
| TaskList.ReplaceIdempotent | src/pages/Index.tsx:61-63 | submitting the same update twice is submitting it once |
| TaskList.RemoveUnknown | src/pages/Index.tsx:88 | deleting an id no task has changes nothing |
| TaskList.RemoveIdempotent | src/pages/Index.tsx:88 | after a delete no task has the id, and deleting again changes nothing |
| TaskList.RemoveCount | src/pages/Index.tsx:88 | the list loses exactly as many tasks as had the id |
| TaskList.RemoveAfterAppend | src/pages/Index.tsx:46-88 | adding a task under an unused id and deleting that id restores the list |
| TaskList.ToggleKeepsTotal | src/pages/Index.tsx:72-76 | toggling keeps the total and every task's id |
| Achievements.DaysBack | src/pages/Achievements.tsx:39-43 | the `i`-th of the last days is `today - i` |
| Achievements.Last7Days | src/pages/Achievements.tsx:39-43 | seven days, the `i`-th of them `today - i` |
| Achievements.CompletedDates | src/pages/Achievements.tsx:30-31 | one date per completed task: the day of its due moment |
| Achievements.CompletedDatesMembers | src/pages/Achievements.tsx:45-47 | a day is among the completed dates exactly when some completed task is due on it |
| Achievements.DaysBackCount | src/pages/Achievements.tsx:39-47 | filtering the last `n` days by "has a completed task" counts the reference number of such days |
| Achievements.StreakCountsDays | src/pages/Achievements.tsx:45-49 | the streak is the number of the last seven days on which some completed task is due |
| Achievements.StreakBounds | src/pages/Achievements.tsx:45-49 | the streak is at most 7 and at most the number of completed tasks |
| Achievements.Streak | src/pages/Achievements.tsx:45-49 | no contract of its own; as written: how many of the last seven days are among the completed dates (StreakCountsDays and StreakBounds state it) |
| Achievements.CompletionRate | src/pages/Achievements.tsx:55 | 0 with no tasks; otherwise `rate * total == 100 * completed`; always between 0 and 100 |
| Achievements.EvaluateStats | src/pages/Achievements.tsx:24-61 | counts agree with the task list; the rate is the completion rate; the streak is the number of the last seven days with a completed task (so at most 7 and at most the completions); the maximum streak equals the current streak; the subject count is the number of distinct subjects; the high-priority count is the number of completed high-priority tasks |
| Achievements.Max | src/pages/Achievements.tsx:50 | `Math.max` is an upper bound equal to one of its arguments |
| Achievements.Round | src/pages/Achievements.tsx:148 | the rounded value is within one half of the rate |
| Achievements.BuildAchievements | src/pages/Achievements.tsx:63-161 | nine badges; each badge but `efficient` unlocks exactly when current reaches threshold; `efficient` shows the rounded rate but unlocks on the exact one; every threshold is positive |
| Achievements.Badge | src/pages/Achievements.tsx:63-161 | no contract of its own; as written: one table entry, unlocked when its current value reaches its threshold (BuildAchievements states it for all nine) |
| Achievements.BadgeIds | src/pages/Achievements.tsx:63-161 | the badges' ids, in table order |
| Achievements.Split | src/pages/Achievements.tsx:163-164 | unlocked and locked badges are order-preserving subsequences that together hold each badge once |
| Achievements.EfficientShowsThreshold | src/pages/Achievements.tsx:147-149 | an unlocked `efficient` badge always shows a current value at or above its threshold |
| Achievements.EfficientRoundingGap | src/pages/Achievements.tsx:147-149 | the converse fails: 159 of 200 tasks shows 80 of 80 and stays locked |
| Achievements.RateAtLeast80 | src/pages/Achievements.tsx:55 | a rate of at least 80 means, in integers, tasks present and `100 * completed >= 80 * total`, both directions |
| Achievements.EfficientIntegerForm | src/pages/Achievements.tsx:147-149 | `efficient` unlocks exactly when `100 * completed >= 80 * total` with tasks present |
| Achievements.TiersMonotone | src/pages/Achievements.tsx:63-139 | a higher tier of a badge family is unlocked only when the lower ones are |
| Achievements.NoTasksNothingUnlocked | src/pages/Achievements.tsx:55-164 | with no tasks the rate is 0, nothing is unlocked, and every badge is locked |
| Achievements.OneTaskDoneToday | src/pages/Achievements.tsx:39-49 | one completed task due today makes the streak 1 and unlocks the first badge |
| Schedule.EmptyForm | src/pages/Schedule.tsx:35-43 | the initial form has every text empty and the first palette colour |
| Schedule.WithId | src/pages/Schedule.tsx:61-64 | the new class carries the id and exactly the form's fields |
| Schedule.FormOf | src/pages/Schedule.tsx:87 | no contract of its own; as written: the class's fields without its id, as loaded into the form (FormRoundTrip states that submitting it unchanged gives the class back) |
| Schedule.FormRoundTrip | src/pages/Schedule.tsx:49-55 | editing a class and submitting the loaded form unchanged gives the class back |
| Schedule.SetField | src/pages/Schedule.tsx:134-172 | the edited field takes the value and every other field keeps its own |
| Schedule.SetFieldSame | src/pages/Schedule.tsx:134-172 | writing a field's own value back changes nothing |
| Schedule.Appended | src/pages/Schedule.tsx:60-65 | one more class at the end with the fresh id and the form's fields; earlier classes untouched |
| Schedule.ReplaceById | src/pages/Schedule.tsx:50-54 | same length; each class with the id becomes the form under that id; each other class is untouched |
| Schedule.RemoveById | src/pages/Schedule.tsx:92 | a subsequence in which a class survives exactly when its id differs |
| Schedule.RemoveAfterAppend | src/pages/Schedule.tsx:60-92 | adding a class under an unused id and deleting that id restores the timetable |
| Schedule.ReplaceUnknown | src/pages/Schedule.tsx:50-54 | editing an id no class has changes nothing |
| Schedule.RemoveCount | src/pages/Schedule.tsx:92 | a delete removes exactly the classes with the id, and none is left |
| Schedule.StartLeTotalPreorder | src/pages/Schedule.tsx:103 | the start-time comparator is a consistent (total, transitive) order |
| Schedule.ScheduleForDay | src/pages/Schedule.tsx:100-104 | a permutation of the day's classes, sorted by start time; a class is listed exactly when it is held that day |
| Schedule.SameStartKeepsOrder | src/pages/Schedule.tsx:103 | classes of one day with the same start time keep their timetable order |
| Schedule.DaysOfWeekDistinct | src/pages/Schedule.tsx:23-25 | the six day names are pairwise different |
| Schedule.ShownOnOwnDayOnly | src/pages/Schedule.tsx:197-212 | a class appears under its own day's heading only; a class with a day outside the six appears under none |
| Schedule.SchedulePage.constructor | src/pages/Schedule.tsx:32-43 | stored timetable, dialog closed, no edit target, empty form |
| Schedule.SchedulePage.HandleSubmit | src/pages/Schedule.tsx:46-83 | edits the target's id or appends the form under the fresh id; then the dialog closes, editing ends and the form resets |
| Schedule.SchedulePage.HandleEdit | src/pages/Schedule.tsx:85-89 | the class becomes the edit target and is loaded into the form; the dialog opens |
| Schedule.SchedulePage.HandleDelete | src/pages/Schedule.tsx:91-92 | the timetable becomes `RemoveById` of the old one; nothing else changes |
| Schedule.SchedulePage.SetDialogOpen | src/pages/Schedule.tsx:117 | only the dialog's open flag changes; closing keeps the edit target and the form |
| Schedule.SchedulePage.EditField | src/pages/Schedule.tsx:134-172 | one form field takes the value; nothing else changes |
| Schedule.SchedulePage.PickColor | src/pages/Schedule.tsx:176-184 | the form's colour becomes the chosen palette entry; nothing else changes |
| Schedule.SchedulePage.DayList | src/pages/Schedule.tsx:212 | a day's list is `ScheduleForDay` of the current timetable: that day's classes, each as often as in the timetable, sorted by start time with ties in timetable order |
| Profile.EmptyProfile | src/pages/Profile.tsx:27-36 | the initial profile has every text empty and no goals |
| Profile.SetField | src/pages/Profile.tsx:133-184 | the edited field takes the value; every other field, the avatar and the goals keep theirs |
| Profile.GoalsAfterAdd | src/pages/Profile.tsx:53-61 | a non-blank goal is appended trimmed; a blank one leaves the goals unchanged |
| Profile.RemoveIndex | src/pages/Profile.tsx:63-68 | an in-range index drops exactly that position, keeping the order; any other index removes nothing |
| Profile.AddThenRemoveLast | src/pages/Profile.tsx:53-68 | adding a goal and removing the last position restores the goals |
| Profile.RemoveIndexLength | src/pages/Profile.tsx:66 | a removal shortens the goals by one exactly when the index is in range |
| Profile.AddedGoalTrimmed | src/pages/Profile.tsx:54-57 | an added goal is non-empty and has no white space at either end |
| Profile.Initials | src/pages/Profile.tsx:70-77 | at most two characters |
| Profile.FirstLettersHeads | src/pages/Profile.tsx:71-74 | `map(n => n[0]).join('')` gives the first letter of each non-empty word, in order |
| Profile.InitialsOfWords | src/pages/Profile.tsx:70-77 | the initials are the upper-cased first letters of the first two non-empty words, fewer when there are fewer words |
| Profile.InitialsHaveNoSpace | src/pages/Profile.tsx:70-77 | no initial is a space |
| Profile.EmptyNameNoInitials | src/pages/Profile.tsx:70-77 | an empty name has no initials |
| Profile.Counts | src/pages/Profile.tsx:80-82 | total is the list length, completed is the number of completed tasks, subjects is the number of distinct subjects, and neither exceeds the total |
| Profile.RecentActivity | src/pages/Profile.tsx:354 | the first five tasks, or all of them when there are fewer |
| Profile.ProfilePage.constructor | src/pages/Profile.tsx:27-41 | the form starts as a copy of the stored profile; not editing; empty goal input |
| Profile.ProfilePage.HandleSave | src/pages/Profile.tsx:44-46 | the form becomes the profile and editing ends |
| Profile.ProfilePage.StartEditing | src/pages/Profile.tsx:96 | editing starts and the form is not reloaded from the profile |
| Profile.ProfilePage.AddGoal | src/pages/Profile.tsx:53-61 | the form's goals become `GoalsAfterAdd`; the input is cleared only when a goal was added |
| Profile.ProfilePage.RemoveGoal | src/pages/Profile.tsx:63-68 | the form's goals become `RemoveIndex` of the old ones |
| Profile.ProfilePage.SetNewGoal | src/pages/Profile.tsx:275 | only the goal input changes |
| Profile.ProfilePage.EditField | src/pages/Profile.tsx:133-184 | the form becomes `SetField` of the old form; nothing else changes |
| Profile.ProfilePage.Summary | src/pages/Profile.tsx:80-82 | the initials of the saved name, exactly `Counts` of the current tasks, and the recent tasks |
| Settings.UpdateSetting | src/pages/Settings.tsx:51-52 | the named field takes the new value and every other field keeps its own |
| Settings.UpdateToCurrent | src/pages/Settings.tsx:52 | setting a field to its current value changes nothing |
| Settings.UpdateSameKey | src/pages/Settings.tsx:52 | of two changes to one field the later wins |
| Settings.UpdatesCommute | src/pages/Settings.tsx:52 | changes to different fields commute |
| Settings.Export | src/pages/Settings.tsx:62-67 | the bundle holds the tasks, the settings, the timestamp and version "1.0" |
| Settings.BackupFileName | src/pages/Settings.tsx:75 | the name is the prefix, then a 'T'-free prefix of the timestamp that ends right before its first 'T' (the whole timestamp when it has none), then ".json" |
| Settings.BackupFileNameOfIso | src/pages/Settings.tsx:75 | for `date + "T" + time` with no 'T' in the date, the name carries exactly that date |
| Settings.BackupFileNameExample | src/pages/Settings.tsx:75 | "2024-03-15T10:30:00.000Z" gives "studyplanner-backup-2024-03-15.json" |
| Settings.ApplyImport | src/pages/Settings.tsx:100-121 | a file on which parsing throws, or which parses to null, writes nothing; otherwise each present, truthy key replaces its slot and an absent one keeps it |
| Settings.Reread | src/pages/Settings.tsx:102 | assumed, not proved: it stands in for `JSON.parse` of the serialised bundle and gives both keys back unchanged; ExportImportRoundTrip rests on it |
| Settings.ExportImportRoundTrip | src/pages/Settings.tsx:62-109 | importing an exported bundle over any current data restores the exported tasks and settings, given that parsing the serialised bundle gives it back (`Reread`) |
| Settings.ImportIdempotent | src/pages/Settings.tsx:104-109 | importing the same file twice is importing it once |
| Settings.ClearAll | src/pages/Settings.tsx:127-137 | when confirmed, no tasks and the default settings; when not, no change |
| Settings.ClearIdempotent | src/pages/Settings.tsx:127-137 | once cleared, clearing again (confirmed or not) changes nothing |
| Settings.SettingsPage.constructor | src/pages/Settings.tsx:39-47 | empty storage slots start as no tasks and the default settings |
| Settings.SettingsPage.Update | src/pages/Settings.tsx:51-52 | the settings become `UpdateSetting` of the old ones; the tasks are unchanged |
| Settings.SettingsPage.ExportData | src/pages/Settings.tsx:59-75 | the bundle of the current state and the backup file name of the timestamp |
| Settings.SettingsPage.ImportData | src/pages/Settings.tsx:95-125 | no file: nothing happens; an unparsable file: reported invalid and nothing written; otherwise the parsed data is applied |
| Settings.SettingsPage.ClearAllData | src/pages/Settings.tsx:127-137 | the state becomes `ClearAll` of the old state |
| Calendar.TasksForDate | src/pages/Calendar.tsx:14-19 | a subsequence of the tasks; a task is listed exactly when it is due on the date's calendar day |
| Calendar.SelectedDateTasks | src/pages/Calendar.tsx:21 | nothing while no date is selected, otherwise that date's tasks |
| Calendar.DatesWithTasks | src/pages/Calendar.tsx:24-26 | one due moment per task, in task order |
| Calendar.ListedOnOwnDayOnly | src/pages/Calendar.tsx:14-19 | a task is listed under a date exactly when the date is on its due day |
| Calendar.TimeOfDayIgnored | src/pages/Calendar.tsx:17 | two dates on the same calendar day list the same tasks |
| Calendar.HighlightedIffTasks | src/pages/Calendar.tsx:24-28 | some highlighted moment falls on a date's day exactly when that date's task list is non-empty |
| Calendar.DayListsBounded | src/pages/Calendar.tsx:14-19 | a day's tasks and the tasks of other days partition the list |
| Theme.ThemeIcon | src/components/ThemeToggle.tsx:18-27 | the moon shows exactly for the dark theme |
| Theme.NextTheme | src/components/ThemeToggle.tsx:8-16 | no contract of its own; as written: light goes to dark, dark to system, anything else to light (ToggleLandsOnKnownTheme and ThreeTogglesReturn state its properties) |
| Theme.ThemeLabel | src/components/ThemeToggle.tsx:29-38 | no contract of its own; as written: "Modo claro" for light, "Modo oscuro" for dark, "Sistema" otherwise (LabelsDistinct and OtherThemesShowSystem state its properties) |
| Theme.ToggleLandsOnKnownTheme | src/components/ThemeToggle.tsx:8-16 | after a click the theme is light, dark or system, whatever it was |
| Theme.ThreeTogglesReturn | src/components/ThemeToggle.tsx:8-16 | from any of the three themes, three clicks return to it |
| Theme.LabelsDistinct | src/components/ThemeToggle.tsx:29-38 | the three themes have pairwise different labels |
| Theme.OtherThemesShowSystem | src/components/ThemeToggle.tsx:13-36 | system, and any value outside the three, shows the sun and "Sistema", and a click sets light |
| Theme.ThemeToggle.constructor | src/components/ThemeToggle.tsx:6 | the button starts from the provider's theme |
| Theme.ThemeToggle.Toggle | src/components/ThemeToggle.tsx:8-16 | the theme becomes light → dark → system → light, with anything else going to light |
| Theme.ThemeToggle.Render | src/components/ThemeToggle.tsx:18-38 | the icon and label of the current theme |

## Left out

- Toasts, JSX rendering, icons, CSS classes, routing and layout (`AppSidebar`, `AppLayout`, `StatsCard`, the `ui/` widgets) are not modelled. They only display state.
- `useLocalStorage` and its JSON serialisation are not modelled. Each page class holds its own copy of the slots it reads; writing a slot back to storage and another page reading it later is not modelled. The storage hook is not part of this model.
- `TaskForm` and `ThemeProvider` are not part of this model. The task form's output is the `TaskData` a handler receives. The theme is the string the provider holds.
- TaskList.TaskStats and Achievements.EvaluateStats: the statistics sit in `useMemo(..., [tasks])` (Index.tsx:35-44, Achievements.tsx:24-61), so their `new Date()` is read only when the list changes, while a card reads the clock on every render (TaskCard.tsx:34). The model's `now` for the statistics is the moment of the memo's last recomputation. Once a due moment passes with the list unchanged, the overdue count and the cards, or the achievements' today and the real day, can disagree; OverdueCountMatchesCards holds only when both use the same moment.
- Clocks are parameters: `Date.now().toString()` is the `freshId` argument, the current moment is `now`, and `toISOString()` is the `iso` argument.
- Export reads the clock twice (lines 65 and 75); the model uses one timestamp for both reads. The two reads could differ across midnight.
- Date parsing and time zones are not modelled. A due date is already a millisecond count, and a calendar day is its UTC day (`DayOf`).
- Case mapping covers ASCII letters only, because Unicode case tables are out of scope. `localeCompare` on start times is a code-point order, which agrees with locale order on "HH:MM" strings.
- Achievements.CompletionRate: exact reals stand in for the source's double-precision division, so rounding and comparison at 80 are exact.
- Achievements.CompletedDates: the source also sorts the dates. Only membership in them is ever used, so the model keeps them unsorted.
- Achievements.EvaluateStats: `maxStreak` is `Math.max(s, s)` on one count, as the source computes it. It is not a longest run of consecutive days.
- `getCategoryColor` and `getCategoryName` (Achievements.tsx:166-184) are styling only.
- The settings page's theme selector and its labels are not modelled. `isExporting` only disables a button. There is no error path for `Blob`, DOM or `FileReader` failures.
- Settings.ApplyImport: the backup's parsed content is an `Option` per key: `Some` when the key is present and truthy. A parsed value that is not an object (a number, string, boolean or array) is `Some` with both keys absent: nothing is written and the import is reported as done. The model assumes well-formed task and settings records; the source stores whatever the file contains.
- Settings.Reread: `JSON.stringify` followed by `JSON.parse` is not modelled. The model assumes that parsing an exported file gives back its tasks and settings unchanged. ExportImportRoundTrip therefore proves only the import logic on top of that assumption.
- Schedule.SchedulePage.HandleEdit: `setFormData(item)` also copies the item's `id` into the form. It is overwritten on submit, so the model's form has no id.
- Task ids are not assumed unique, because the source does not enforce it. Update, toggle and delete act on every task with the id.
