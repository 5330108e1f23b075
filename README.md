# saveList in Dafny

saveList is a personal productivity app built with Next.js. It keeps tasks with a
work timer, goals with sub-tasks, and a movie/show watchlist, and it logs each
creation as an activity. This project models the logic the app runs, in four
layers:

- **The client cache** (`Store.AppStore`, the zustand store). This is a class with
  `tasks`, `goals`, `watchlist` and `loading` fields. Its methods replace those
  fields the way the store's actions call `set`. The task timer is the idle /
  running / paused state machine, whose transitions are written out in module
  `Timer`.
- **The pages' pure selectors and formatters**: `TasksPage`, `GoalsPage`,
  `Dashboard`, `WatchlistPage`, `HistoryPage` and `Progress`, with the helpers in
  `Text`, `Seqs` and `Sorting`. `TasksPage.TimerDisplay` is the ticking display
  with its `elapsed` state. `GoalsPage.SubtaskCell` holds the sub-task objects
  that the goals page mutates in place.
- **The API route handlers** (`Api`, `Queries`, `Analytics`, `Database`). The five
  MongoDB collections are the fields of `Database.Store`. A read handler is a
  function of the session and those sequences. A write handler is a method that
  appends to or filters them. The session is `Option<SessionUser>`, and a handler's
  answer is a `Response`: 200, 201, an explicit error, or an exception that the
  framework answers with 500.
- **Routing**: the edge middleware's redirect decision and matcher (`Middleware`),
  and the client layout's public-route test, redirect and render branch
  (`AppLayout`).

The Mongoose schemas are datatypes with their enums, required fields and
defaults (`Schema`). A document that `Model.create` would reject is the
`Thrown` outcome. Instants are integer milliseconds, and the clock is always a
parameter `now`.

## Model

| member | source | states |
|---|---|---|
| Schema.ParsePriority | src/models/Task.ts:7-11 | the priority enum accepts exactly the three listed names, and the parse inverts the name |
| Schema.ParseFrequency | src/models/Task.ts:23-27 | the recurrence frequency accepts exactly daily, weekly, monthly and none |
| Schema.NewTask | src/models/Task.ts:3-39 | a created task keeps the given title, description and due date; priority is medium unless given; status pending, not pinned, no tags, no completion time; the timer idle with no start time and 0 banked; it recurs iff `isRecurring: true` was given, with the given frequency or `none` |
| Schema.NewSubtask | src/models/Goal.ts:3-8 | a new sub-task keeps its title and starts not completed |
| Schema.NewGoal | src/models/Goal.ts:10-31 | a created goal keeps its sub-tasks in order; emoji defaults to 🎯, priority to medium, status to active and streak to 0 |
| Schema.ParseMediaType | src/models/WatchlistItem.ts:6-10 | the type enum accepts exactly movie and show |
| Schema.ParseWatchStatus | src/models/WatchlistItem.ts:15-19 | the status enum accepts exactly not-started, watching and finished |
| Schema.NewWatchlistItem | src/models/WatchlistItem.ts:3-25 | type defaults to movie and status to not-started; the absent rating is within the 0..10 bound |
| Schema.DefaultPreferences | src/models/User.ts:8-18 | theme auto, compact view off, timestamps, quotes and animations on |
| Schema.NewUser | src/models/User.ts:3-21 | a new user is not onboarded and carries the default preferences |
| Api.EnumValue | src/models/Task.ts:7-11 | an absent enum property stays absent, and a present one is stored as the value its name parses to |
| Api.SubtasksOf | src/app/api/goals/route.ts:43 | `subtasks \|\| []`: absent gives the empty list, otherwise one sub-task per body entry, in order, each exactly that entry cast by `Api.SubtaskOf` |
| Api.SubtaskOf | src/models/Goal.ts:3-8 | a validated sub-task body keeps its title, deadline and notes, and it is completed only when the body says `true` |
| Api.PostTask | src/app/api/tasks/route.ts:22-55 | 401 iff no session; with a session, 400 iff the title is falsy; 500 iff a present enum value is not listed; otherwise 201 with a task owned by the caller that takes only title, description, priority, due date and recurrence from the body, the rest from schema defaults; the task recurs iff the body's `recurring.isRecurring` is `true`, at the body's frequency or `none` |
| Api.PostGoal | src/app/api/goals/route.ts:22-55 | 401 / 400 / 500 / 201 under the same exact conditions; the created goal is owned by the caller, is active with streak 0, keeps the body's description, deadline, emoji (default 🎯 when absent) and priority (default medium), and its sub-tasks are exactly the body's, in order, as `Api.SubtasksOf` builds them, or none |
| Api.PostWatchlistItem | src/app/api/watchlist/route.ts:22-57 | 401 / 400 / 500 / 201 under the same exact conditions; the created item is owned by the caller and unrated; its type and status are the body's, or movie and not-started when absent; its notes, year, poster and trailer URLs are the body's, and its genre list is the body's or empty |
| Queries.ListTasks | src/app/api/tasks/route.ts:7-20 | 401 without a session; otherwise exactly the caller's tasks (membership both ways, count), pinned before unpinned, newest first within each group |
| Queries.ListGoals | src/app/api/goals/route.ts:7-20 | 401 without a session; otherwise exactly the caller's goals, newest first |
| Queries.ListWatchlist | src/app/api/watchlist/route.ts:7-20 | 401 without a session; otherwise exactly the caller's items, newest first |
| Queries.NewestActivities | src/app/api/history/route.ts:14-15 | exactly the caller's activities, newest first |
| Queries.History | src/app/api/history/route.ts:6-19 | 401 without a session; otherwise exactly the first 50 of the caller's activities sorted newest first (`Queries.NewestActivities`), so min(50, owned) entries; all of them when there are at most 50; any left out is no newer than every one shown |
| Queries.LeftOutIsOlder | src/app/api/history/route.ts:15-16 | taking a prefix of a newest-first list leaves out nothing newer than what it keeps |
| Queries.Export | src/app/api/user/export/route.ts:9-38 | 401 without a session; otherwise the user block is the session's user, and tasks, goals, watchlist and history are each exactly the caller's documents of that collection in stored order (`Seqs.Filter` by owner), each as many times as it is stored |
| Queries.Loaded | src/app/api/user/preferences/route.ts:14-15 | each of the five preferences is the stored value when one is stored and its schema default otherwise |
| Queries.FindUser | src/app/api/user/preferences/route.ts:14 | the user found has the session's id, and none is found only when no user has it |
| Queries.GetPreferences | src/app/api/user/preferences/route.ts:6-16 | 401 without a session; `{}` when the user is missing; otherwise the stored preferences as hydrated |
| Analytics.DayIndex | src/app/api/analytics/route.ts:34-35 | index `r` means an age between `6 - r` and `7 - r` whole days; an age under one day gives 6; a future timestamp gives an index of 7 or more, which no bucket takes |
| Analytics.DayIndexOfBand | src/app/api/analytics/route.ts:34-35 | conversely, an age in the band of day `k` gets index `k` |
| Analytics.WeeklyCompletions | src/app/api/analytics/route.ts:31 | the bucket list always has seven entries |
| Analytics.CountCompletions | src/app/api/analytics/route.ts:31-39 | the loop over a seven-slot array leaves in slot k the number of `task_completed` activities whose day index is k |
| Analytics.GetAnalytics | src/app/api/analytics/route.ts:8-49 | 401 without a session; otherwise the buckets of the caller's activities since the cut-off, the count of the caller's pending tasks and active goals, and the number of activities fetched |
| Analytics.WeekTotalCountsWindow | src/app/api/analytics/route.ts:32-39 | the seven buckets together count exactly the completions that fall in the window |
| Analytics.BucketsAtMostCompletions | src/app/api/analytics/route.ts:32-46 | bucket total ≤ completions fetched ≤ `totalActionsLastWeek` |
| Database.SetPreferences | src/app/api/user/preferences/route.ts:28-32 | the caller's preferences object is replaced whole, not merged; every other user and every id and email stay; unique emails stay unique |
| Database.Store.constructor | src/app/api/user/delete/route.ts:22-26 | the model's empty database: the five collections these lines name (tasks, goals, watchlist items, activities, users) all start empty |
| Database.Store.CreateTask | src/app/api/tasks/route.ts:22-55 | on 201 exactly one task and exactly one `task_created` activity with `{ title }` are appended; on any other answer nothing changes |
| Database.Store.CreateGoal | src/app/api/goals/route.ts:22-55 | on 201 one goal and one `goal_created` activity are appended; otherwise nothing changes |
| Database.Store.CreateWatchlistItem | src/app/api/watchlist/route.ts:22-57 | on 201 one item and one `watchlist_added` activity with `{ title, type }` are appended; otherwise nothing changes |
| Database.Store.DeleteAccount | src/app/api/user/delete/route.ts:10-30 | 401 and nothing removed without a session; otherwise the fixed success message, with every document owned by the caller and the caller's user record removed from the five collections |
| Database.Store.UpdatePreferences | src/app/api/user/preferences/route.ts:18-35 | 401 without a session; a missing user throws and nothing changes; otherwise the preferences are replaced and the answer is the new preferences |
| Database.PreferencesReadBack | src/app/api/user/preferences/route.ts:6-35 | a GET after a PATCH answers what the PATCH answered, whatever was stored before |
| Database.DeletedAccountExportsNothing | src/app/api/user/delete/route.ts:21-27 | after the delete, the caller's export has no tasks, goals, items or history |
| Database.DeleteSparesOthers | src/app/api/user/delete/route.ts:21-27 | the delete leaves every other user's export exactly as it was |
| Database.DeleteKeepsEmailsUnique | src/models/User.ts:5 | the delete keeps emails unique among users |
| Database.CreatedTaskListed | src/app/api/tasks/route.ts:15-17 | a task created by POST is listed to its owner by the next GET, and the list grows by one |
| Middleware.Decide | src/middleware.ts:6-30 | redirect to `/` iff logged in on an `/auth` path; redirect to sign-in iff logged out on a path that is neither auth nor public; pass otherwise; a logged-in user is never sent to sign-in, and a logged-out user is never sent to `/` |
| Middleware.RedirectsSettle | src/middleware.ts:20-27 | the target of a redirect is itself passed, so redirects do not loop |
| Middleware.PublicByPrefix | src/middleware.ts:9-15 | `/about…` and `/contact…` are public by prefix, while `/tasks…` is not |
| Middleware.Handle | src/middleware.ts:32-34 | paths the matcher excludes, `/api` among them, pass untouched; all others get the decision |
| AppLayout.NormalizedPath | src/components/layout/AppLayout.tsx:19 | exactly one trailing `/` is stripped; missing, empty or `/` gives `/`; the result is never empty |
| AppLayout.TrailingSlashIgnored | src/components/layout/AppLayout.tsx:19-20 | `p/` and `p` normalise alike, but `p//` keeps one slash |
| AppLayout.Render | src/components/layout/AppLayout.tsx:34-61 | spinner iff loading; otherwise bare children iff the route is public; nothing iff neither public nor signed in; the full layout only with a session on a private route |
| AppLayout.BootstrapEffect | src/components/layout/AppLayout.tsx:22-26 | an authenticated session runs the store's bootstrap, so each list follows its response; any other status leaves the lists and flags as they were |
| AppLayout.PushTarget | src/components/layout/AppLayout.tsx:28-32 | a push to `/landing` happens iff unauthenticated on a non-public route |
| AppLayout.PushSettles | src/components/layout/AppLayout.tsx:18-32 | the push target is public, so no second push follows |
| AppLayout.LayoutPublicPassesMiddleware | src/components/layout/AppLayout.tsx:18 | every route the layout treats as public is also passed by the middleware for a logged-out user |
| AppLayout.ContactPushedToLanding | src/components/layout/AppLayout.tsx:18-49 | `/contact` passes the middleware, yet the layout renders nothing and pushes a logged-out visitor to `/landing` |
| Patches.ApplyTaskPatch | src/store/useStore.ts:126-129 | `{ ...t, ...updates }`: each field the patch carries takes the patch's value and every other field is kept; id, owner, timestamps, tags, recurrence and completion time are never touched; an empty patch is the identity |
| Patches.ApplyGoalPatch | src/store/useStore.ts:275-278 | the same for goals: each carried field takes the patch's value, every other is kept, and id, owner, creation time and streak never change |
| Patches.ApplyWatchlistPatch | src/store/useStore.ts:319-322 | the same for items: each carried field takes the patch's value, every other is kept, and id, owner, creation and watched times never change |
| Seqs.UpdateById | src/store/useStore.ts:128 | rewrites exactly the entries with the id; length and positions are unchanged |
| Seqs.RemoveById | src/store/useStore.ts:156 | the filter of the entries whose id differs: every other entry is kept, in order and with its multiplicity |
| Seqs.Find | src/app/goals/page.tsx:107 | finds the first element that satisfies the predicate, and none only when no element does |
| Timer.ToggleTimerUpdates | src/store/useStore.ts:161-196 | a toggle touches only the timer fields; a running timer pauses, clears its start and banks `now - start` (nothing when no start was recorded); any other timer runs from `now` and banks nothing |
| Timer.StopTimerUpdates | src/store/useStore.ts:198-224 | a stop sets idle and clears the start; it banks time only when running, and then exactly the old banked time plus `now - startTime` (not a number, so nothing, when no start was recorded) |
| Timer.Step | src/store/useStore.ts:166-183 | after a toggle or stop the task's timer fields are consistent; a toggle runs it iff it was not running, with start `now`, and pauses a running one with the start cleared; a stop always ends idle; the other fields stay |
| Timer.Reset | src/store/useStore.ts:226-236 | a reset gives idle, no start, 0 banked; the other fields stay |
| Timer.ReplayBanksRunTime | src/store/useStore.ts:171-174 | over any toggle/stop sequence, the banked time equals its start value plus the lengths of the running intervals, for any task whose running timer has a start, a paused or idle task with a stale start included |
| Timer.ReplayAppend | src/store/useStore.ts:161-224 | replaying two sequences one after the other is replaying their concatenation |
| Timer.RunTimeIgnoresStartWhenOff | src/store/useStore.ts:177-183 | a stale start time on a non-running timer never counts |
| Timer.StepNeverLosesTime | src/store/useStore.ts:171-174 | with `now` ≥ start, one step never decreases banked time, for any task whose running timer has a start, a paused or idle task with a stale start included |
| Timer.LostStartDropsBankedTime | src/store/useStore.ts:171-174 | a running task with no start time loses its banked time when paused |
| Timer.ReplayNeverLosesTime | src/store/useStore.ts:171-174 | over a clock-ordered sequence, banked time never decreases, for any task whose running timer has a start, a paused or idle task with a stale start included |
| Timer.ReplayStartIsLastEvent | src/store/useStore.ts:177-183 | after any non-empty sequence, a recorded start time is the instant of the last event |
| Timer.PrefixBanksNoMore | src/store/useStore.ts:171-174 | a prefix of a clock-ordered sequence banks no more than the whole, for any task whose running timer has a start, a paused or idle task with a stale start included |
| Timer.StepKeepsElapsed | src/app/tasks/page.tsx:37-45 | a toggle or stop at instant t leaves the elapsed reading at t unchanged, for any task whose running timer has a start, a paused or idle task with a stale start included |
| Timer.PausedReadingFrozen | src/app/tasks/page.tsx:37-45 | after a pause the reading stays at the value shown at the pause |
| Timer.ReplayElapsed | src/app/tasks/page.tsx:37-45 | the reading after any sequence equals banked plus the open interval, for any task whose running timer has a start, a paused or idle task with a stale start included |
| Timer.ResetIdempotent | src/store/useStore.ts:226-236 | resetting twice equals resetting once |
| Store.AfterFetch | src/store/useStore.ts:107 | a fetch replaces the list only when the response is an array |
| Store.ToggledStatus | src/store/useStore.ts:137 | the new status is pending iff the status passed is `completed` |
| Store.AppStore.constructor | src/store/useStore.ts:87-95 | the store starts with empty lists and every loading flag off |
| Store.AppStore.SetTasks | src/store/useStore.ts:98 | replaces the task list |
| Store.AppStore.BeginFetchTasks | src/store/useStore.ts:100-103 | the fetch counts as initial iff the list is empty, and only then raises the tasks flag |
| Store.AppStore.FinishFetchTasks | src/store/useStore.ts:104-114 | the list is replaced on an array response; the flag drops only for an initial fetch |
| Store.AppStore.FetchTasks | src/store/useStore.ts:99-115 | the whole fetch: the list follows the response; the tasks flag is left on only if it was on and the list was not empty; other flags stay |
| Store.AppStore.AddTask | src/store/useStore.ts:116-125 | the created task is prepended |
| Store.AppStore.UpdateTask | src/store/useStore.ts:126-135 | only the task with the id is patched; length, order and the others are unchanged |
| Store.AppStore.ToggleTask | src/store/useStore.ts:136-145 | only the task with the id gets the toggled status |
| Store.AppStore.TogglePin | src/store/useStore.ts:146-154 | only the task with the id gets the negated pin |
| Store.AppStore.DeleteTask | src/store/useStore.ts:155-158 | every task with the id is removed and every other one kept, in order (`Seqs.RemoveById`) |
| Store.AppStore.ToggleTimer | src/store/useStore.ts:161-196 | an unknown id changes nothing; otherwise the toggle update is computed from the first task with the id and merged into every task with that id (that first task ends as `Timer.Step` says), and tasks with other ids are unchanged |
| Store.AppStore.StopTimer | src/store/useStore.ts:198-224 | an unknown id changes nothing; otherwise the stop update is computed from the first task with the id and merged into every task with that id, which all end idle and consistent, and tasks with other ids are unchanged |
| Store.AppStore.ResetTimer | src/store/useStore.ts:226-244 | the tasks with the id are reset, and the others are unchanged |
| Store.AppStore.SetGoals | src/store/useStore.ts:247 | replaces the goal list |
| Store.AppStore.BeginFetchGoals | src/store/useStore.ts:249-252 | initial iff the list is empty, and only then raises the goals flag |
| Store.AppStore.FinishFetchGoals | src/store/useStore.ts:253-263 | array-only replace; the flag drops only for an initial fetch |
| Store.AppStore.FetchGoals | src/store/useStore.ts:248-264 | as for tasks, on the goals list and flag |
| Store.AppStore.AddGoal | src/store/useStore.ts:265-274 | the created goal is prepended |
| Store.AppStore.UpdateGoal | src/store/useStore.ts:275-284 | only the goal with the id is patched |
| Store.AppStore.DeleteGoal | src/store/useStore.ts:285-288 | the goals with the id are removed and the others kept in order (`Seqs.RemoveById`) |
| Store.AppStore.SetWatchlist | src/store/useStore.ts:291 | replaces the watchlist |
| Store.AppStore.BeginFetchWatchlist | src/store/useStore.ts:293-296 | initial iff the list is empty, and only then raises the watchlist flag |
| Store.AppStore.FinishFetchWatchlist | src/store/useStore.ts:297-307 | array-only replace; the flag drops only for an initial fetch |
| Store.AppStore.FetchWatchlist | src/store/useStore.ts:292-308 | as for tasks, on the watchlist and its flag |
| Store.AppStore.AddWatchlistItem | src/store/useStore.ts:309-318 | the created item is prepended |
| Store.AppStore.UpdateWatchlistItem | src/store/useStore.ts:319-328 | only the item with the id is patched |
| Store.AppStore.RemoveWatchlistItem | src/store/useStore.ts:329-332 | the items with the id are removed and the others kept in order (`Seqs.RemoveById`) |
| Store.AppStore.Bootstrap | src/store/useStore.ts:335-341 | the three fetches together: each list follows its response, and each flag as in its own fetch |
| TasksPage.ClockFieldsSplitSeconds | src/app/tasks/page.tsx:26-29 | minutes and seconds are below 60, and hours, minutes and seconds recompose the whole seconds of `ms` |
| TasksPage.FormatTime | src/app/tasks/page.tsx:26-31 | `HH:MM:SS` with colons in place; exactly eight characters below 100 hours, and the hours field is not capped |
| TasksPage.FormatTimeFields | src/app/tasks/page.tsx:26-31 | the three fields are digits denoting `⌊ms/3600000⌋`, `⌊ms/60000⌋ mod 60` and `⌊ms/1000⌋ mod 60`, the last two below 60 |
| TasksPage.FormatTimeRoundTrip | src/app/tasks/page.tsx:26-31 | reading the text back gives `⌊ms/1000⌋`: only sub-second precision is lost; the reader refuses minutes or seconds of 60 or more, so the split is the clock's |
| TasksPage.TimerDisplay.constructor | src/app/tasks/page.tsx:34 | the display starts at the banked time, not ticking |
| TasksPage.TimerDisplay.Render | src/app/tasks/page.tsx:36-46 | the effect ticks iff the task is running with a start time; otherwise it shows the banked time |
| TasksPage.TimerDisplay.Tick | src/app/tasks/page.tsx:39-41 | an interval tick shows banked + (now − start) |
| TasksPage.TimerDisplay.Text | src/app/tasks/page.tsx:48 | the text shown reads back as the displayed whole seconds |
| TasksPage.ShowAt | src/app/tasks/page.tsx:33-49 | after the effect and a tick at `now`, a running task shows its elapsed time at `now`, and any other task its banked time |
| TasksPage.PauseKeepsDisplayedTime | src/app/tasks/page.tsx:37-45 | the reading at a pause instant equals what the pause stores |
| TasksPage.ButtonsAfterActions | src/app/tasks/page.tsx:312-324 | Stop implies Reset is shown; after a stop, Stop is hidden; after a reset, both are hidden; a toggle flips the Pause icon; after a stop, Reset shows iff time was banked |
| TasksPage.VisibleTasks | src/app/tasks/page.tsx:171-176 | the visible list is a permutation of the tasks the filter keeps |
| TasksPage.VisibleTasksPinnedFirst | src/app/tasks/page.tsx:176 | the kept pinned tasks come first and then the kept unpinned ones, each group in cache order |
| TasksPage.OtherFilterKeepsAll | src/app/tasks/page.tsx:171-175 | a filter value other than completed, pending or high keeps every task |
| TasksPage.AddTaskTitle | src/app/tasks/page.tsx:83 | nothing is sent iff the title is blank after trimming; otherwise the untrimmed title is sent |
| TasksPage.SaveEditing | src/app/tasks/page.tsx:158-163 | an update is sent iff an edit is open and its title is not blank; it patches only the title of that task |
| TasksPage.EmptyTasksLoadForever | src/app/tasks/page.tsx:54-55 | as written, an empty list shows the loading screen and does not open the add form by itself (see Findings) |
| TasksPage.ScreenFor | src/app/tasks/page.tsx:79 | the loading screen iff the tasks flag is on and the list is empty; otherwise the visible tasks, or the empty message |
| TasksPage.FirstFetchReturnsNothing | src/app/tasks/page.tsx:203 | once a fetch into an empty cache returns an empty array, whether or not another fetch has already raised the flag, the page shows the empty message with the add form open |
| Progress.Percent | src/app/goals/page.tsx:144 | a rounded share is between 0 and 100; all done gives 100, none done gives 0 |
| Progress.RoundedShareBounds | src/app/goals/page.tsx:144 | round-half-up of `100·done/total` is an integer in 0..100 |
| Progress.CalculateProgress | src/app/goals/page.tsx:141-145 | 0 for no sub-tasks, and always within 0..100 |
| Progress.FullIffAllDone | src/app/goals/page.tsx:144 | below 200 sub-tasks, 100 iff every one is done |
| Progress.ZeroIffNoneDone | src/app/goals/page.tsx:144 | below 200 sub-tasks, 0 iff none is done |
| Progress.RoundsUpToFull | src/app/goals/page.tsx:144 | from 200 sub-tasks up, one open sub-task still shows 100 |
| Progress.PercentMonotone | src/app/goals/page.tsx:143-144 | completing one more sub-task never lowers progress |
| Progress.CountAtMostLength | src/app/goals/page.tsx:143 | the completed count never exceeds the number of sub-tasks |
| Progress.ProgressFullIffAllCompleted | src/app/goals/page.tsx:141-145 | below 200 sub-tasks, progress is 100 iff the list is non-empty and every sub-task is completed |
| GoalsPage.AddInitialStep | src/app/goals/page.tsx:218-219 | a blank step is not added; any other step is appended |
| GoalsPage.DropIndex | src/app/goals/page.tsx:98 | `filter((_, i) => i !== index)` drops exactly that index, and an index out of range drops nothing |
| GoalsPage.StepsToSubtasks | src/app/goals/page.tsx:65 | each initial step becomes an open sub-task, in entry order |
| GoalsPage.AddGoalPayload | src/app/goals/page.tsx:58-66 | nothing is sent iff the title is blank; otherwise the form's title, description, emoji and priority, with the steps as open sub-tasks in order (`GoalsPage.StepsToSubtasks`), at 0 % progress |
| GoalsPage.AddSubtask | src/app/goals/page.tsx:77-85 | a request is sent iff the title is not blank and the goal is cached; it appends one open sub-task with the untrimmed title after the existing ones |
| GoalsPage.AppendOpenSubtaskLowersProgress | src/app/goals/page.tsx:82 | appending an open sub-task never raises progress, an empty list included |
| GoalsPage.PercentMoreOpen | src/app/goals/page.tsx:144 | the same count out of a larger total gives no more percent |
| GoalsPage.RemoveSubtask | src/app/goals/page.tsx:94-100 | a request is sent iff the goal is cached, with that index dropped |
| GoalsPage.SubtaskCell.constructor | src/models/Goal.ts:3-8 | a cell holds the title, flag, deadline and notes it was made with |
| GoalsPage.Snapshot | src/app/goals/page.tsx:110 | the values the shared cells hold, in order |
| GoalsPage.ToggleSubtaskAsWritten | src/app/goals/page.tsx:106-128 | as written: flips exactly the indexed sub-task, the cached goal sees the flip through the shared object, and the toast condition is always false |
| GoalsPage.ToggleSubtaskAt | src/app/goals/page.tsx:110-122 | as intended: an index out of range throws; otherwise exactly that sub-task flips, and the toast fires iff progress goes from below 100 to 100 |
| GoalsPage.CelebratesOnLastStep | src/app/goals/page.tsx:116-123 | completing the last open sub-task fires the toast |
| GoalsPage.MissedCelebration | src/app/goals/page.tsx:110-122 | on one goal with one open sub-task, the as-written toggle does not fire the toast and the intended one does |
| GoalsPage.ToggleSubtask | src/app/goals/page.tsx:106-119 | a request is sent iff the goal is cached and the index is in range; it carries the list with that sub-task flipped |
| Dashboard.PendingWidget | src/app/page.tsx:62 | at most 5 tasks, all pending, a prefix of the pending tasks in cache order, and exactly min(5, pending) of them |
| Dashboard.ActiveGoalWidget | src/app/page.tsx:63 | the first active goal, and none iff there is no active goal |
| Dashboard.WatchlistWidget | src/app/page.tsx:64-67 | at most 3 items drawn from the list, none finished, by `updatedAt` descending, exactly min(3, unfinished) of them, and every unfinished item left out is no newer than any shown |
| Dashboard.NewestUnfinishedShown | src/app/page.tsx:64-67 | the most recently updated unfinished item is always shown |
| Dashboard.MarkWatched | src/app/page.tsx:180 | marking watched keeps the length and the ids; the items with the id become finished and every other item is unchanged |
| Dashboard.MarkedWatchedLeavesWidget | src/app/page.tsx:64-67 | after an item is marked watched, it is no longer in the widget |
| Dashboard.DashboardProgress | src/app/page.tsx:73-77 | missing sub-tasks give 0; otherwise the goals-page formula |
| Dashboard.Greeting | src/app/page.tsx:70-71 | morning iff hour < 12, afternoon iff 12 ≤ hour < 18, evening iff hour ≥ 18 |
| Dashboard.FirstWord | src/app/page.tsx:83 | the text before the first space |
| Dashboard.DisplayName | src/app/page.tsx:83 | never empty and has no space; the first word of the name when there is one, and `User` when the name is missing, empty or starts with a space |
| Dashboard.DashboardLoading | src/app/page.tsx:59 | the widgets are not loading iff none of the three store flags nor the analytics flag is on |
| Dashboard.LoadingAfterInitialFetches | src/app/page.tsx:38-59 | the effect fetches every list of an empty store; once those fetches have resolved, however they resolved, the widgets wait only for the analytics request |
| WatchlistPage.EmptySearchMatchesAll | src/app/watchlist/page.tsx:92 | an empty search keeps every item |
| WatchlistPage.SearchFindsOccurrence | src/app/watchlist/page.tsx:92 | an item matches iff the lower-cased search occurs in the lower-cased title |
| WatchlistPage.OtherFilterKeepsNothing | src/app/watchlist/page.tsx:93-99 | an unknown filter keeps nothing |
| WatchlistPage.FilterSelectsTypeOrStatus | src/app/watchlist/page.tsx:93-99 | movie/show match the type, watching/finished match the status, and all keeps every item |
| WatchlistPage.VisibleItems | src/app/watchlist/page.tsx:90-106 | a permutation of the matching items, by `createdAt` descending for newest and ascending for oldest |
| WatchlistPage.AddItemPayload | src/app/watchlist/page.tsx:48-50 | nothing is sent iff the title is blank |
| WatchlistPage.StatusWidth | src/app/watchlist/page.tsx:304 | 100 % iff finished, 0 % iff not started, and within 0..100 |
| WatchlistPage.StatusWidthOrdered | src/app/watchlist/page.tsx:304 | the bar grows from not started to watching to finished |
| HistoryPage.FirstSeenKeysExact | src/app/history/page.tsx:47-58 | the group keys have no repeats, and are exactly the date labels that occur |
| HistoryPage.GroupActivitiesByDate | src/app/history/page.tsx:47-59 | the loop yields keys in first-seen order, and under each key exactly the activities with that date, in input order |
| HistoryPage.GroupStep | src/app/history/page.tsx:55-56 | one push keeps the grouping exact |
| HistoryPage.StepKeys | src/app/history/page.tsx:55 | a new label is appended to the keys and a known one leaves them |
| HistoryPage.StepGroup | src/app/history/page.tsx:56 | the pushed activity lands in its own date's group only |
| HistoryPage.FilterNoneOfKey | src/app/history/page.tsx:55 | a label not yet seen has no activities |
| HistoryPage.ActionIcon | src/app/history/page.tsx:61-71 | a plus iff the tag is a created or added one, a check iff it is a completed or finished one, and the generic icon iff it is none of the six |
| HistoryPage.DisplayTitle | src/app/history/page.tsx:75 | never empty; the title itself when there is one, and `Unknown item` when it is missing or empty |
| HistoryPage.ActionText | src/app/history/page.tsx:73-86 | each of the six tags gets its own sentence around the displayed title (`Created task "…"`, …, `Achieved goal "…"!`, `Added "…" to watchlist`, `Watched "…"`); an unknown action has its first `_` made a space |
| HistoryPage.QuotedContainsTitle | src/app/history/page.tsx:78-83 | each of the six sentences contains the title |
| HistoryPage.OnlyFirstUnderscoreSpaced | src/app/history/page.tsx:84 | `x_y_z` renders as `x y_z` |
| Text.TrimStart | src/app/tasks/page.tsx:83 | a suffix that does not start with white space, everything dropped before it being white space |
| Text.TrimEnd | src/app/tasks/page.tsx:83 | a prefix that does not end with white space, everything dropped after it being white space |
| Text.Trim | src/app/tasks/page.tsx:83 | no white space at either end, and every other character of the input is kept |
| Text.TrimIsSlice | src/app/tasks/page.tsx:83 | the trimmed string is the contiguous slice of the input after its leading white space, with only white space before and after it |
| Text.TrimStartEmpty | src/app/tasks/page.tsx:83 | trimming yields nothing iff the string is all white space |
| Text.BlankIffAllSpace | src/app/tasks/page.tsx:83 | `!s.trim()` iff every character is white space |
| Text.ContainsIffOccurs | src/app/watchlist/page.tsx:92 | `includes` holds iff the needle occurs at some position |
| Text.Lower | src/app/watchlist/page.tsx:92 | lower-casing works character by character and keeps the length |
| Text.ReplaceFirst | src/app/history/page.tsx:84 | only the first occurrence of the character is replaced |
| Text.NatToStringRoundTrip | src/app/tasks/page.tsx:30 | the decimal text of n reads back as n |
| Text.Pad2 | src/app/tasks/page.tsx:30 | `padStart(2, '0')` gives at least two digits, and exactly two below 100 |
| Text.Pad2Value | src/app/tasks/page.tsx:30 | the padded text reads back as the number |

## Left out

- HTTP, `fetch` and persistence. The client actions' requests to the server are not modelled: a store method only changes the cache. `dbConnect`, Mongoose and NextAuth are not modelled either. The server store is the in-memory `Database.Store`, and `auth()` is the `Session` parameter.
- Document ids and the clock are parameters (`id`, `activityId`, `now`). The analytics handler's `since` (seven calendar days back, set with `setDate`) is a parameter too. That handler reads the clock once per activity; the model reads it once.
- Concurrency. The `Promise.all` steps (bootstrap, delete, export, analytics) run in sequence. The races between optimistic cache updates and server writes are not modelled.
- Floating point. `Math.round` of a float quotient is modelled as exact integer round-half-up (`Progress.Percent`). At some .5 boundaries the source's double quotient falls just below the half and rounds down: 23 of 40 shows 57 % where the model gives 58; likewise 29, 57 and 113 of 200. The bounds, the 0 and 100 iffs and monotonicity hold either way. `formatTime` takes a natural number of milliseconds, so negative or fractional inputs are not modelled. The dashboard bar height is not modelled.
- Calendar and locale. `toLocaleDateString` is an abstract date-key function in `HistoryPage`. `toISOString` is not modelled: the export date is the instant `now`.
- Case folding. `toLowerCase` is modelled on ASCII letters only.
- UI. React rendering, toasts, `confirm`, the `setInterval` scheduling itself (one tick is `Tick`), the theme, the offline banner and the settings page are not modelled. Static pages and navigation chrome are not modelled either.
- Sort ties. MongoDB leaves the order of equal sort keys unspecified. The model breaks ties with a stable sort over insertion order.
- Request bodies. A JSON `null` is modelled as an absent property. Non-string titles and Mongoose cast errors (for example a malformed date) are not modelled. Unknown body properties are ignored, as they are by the handlers.
- Store.AppStore.AddTask, Store.AppStore.AddGoal, Store.AppStore.AddWatchlistItem: each prepends whatever the server answered, even an error body. The model takes the created record as given.
- Recurring-task regeneration, `completedAt`/`watchedAt` stamping, `task_completed`/`goal_completed`/`watchlist_finished` logging and any clamp on negative elapsed time: no code in this repository implements them, so nothing here models them. As a result, analytics buckets are filled only by activities already present in the store.
- The per-id PATCH/DELETE routes (`src/app/api/tasks/[id]/route.ts` and its siblings) are not part of this model. So the cache's updates are not tied to a server write.
- Store.AppStore.ToggleTimer, Store.AppStore.StopTimer, Store.AppStore.ResetTimer: the request body is sent with `JSON.stringify`, which drops `startTime: undefined`, so the server is never told to clear it. Only the cache is modelled.
- Pausing a running task that has no start time stores `NaN` in the source. The model stores an absent banked time, which every reader treats like `NaN` (`|| 0`, `> 0`). `Timer.LostStartDropsBankedTime` states the loss.
- Queries.GetPreferences: answers a stored object with each missing preference filled by its schema default, as `Queries.Loaded` states field by field. The exact JSON a given MongoDB document would produce is not modelled.
- Database.Store.UpdatePreferences: a body without `preferences` is stored as absent, which reads back as the defaults. Whether MongoDB unsets the field in that case is not modelled.
- Schema.NewUser: the `email` unique index is stated as a predicate (`Schema.EmailsUnique`), and `Database.DeleteKeepsEmailsUnique` and `Database.SetPreferences` preserve it. No operation creates users here, because sign-up is NextAuth's adapter.

## Findings

| source | as written | input that shows it | evidently intended | confidence | as-written member | corrected member |
|---|---|---|---|---|---|---|
| src/app/goals/page.tsx:110-122 | `[...goal.subtasks]` copies only the array, and line 113 flips the shared sub-task object before `progressBefore` is read, so both progress readings see the flip | one goal with a single open sub-task, toggled at index 0: both readings are 100, so no toast | the toast fires when a toggle takes progress from below 100 to 100 | high (not executed) | GoalsPage.ToggleSubtaskAsWritten, GoalsPage.MissedCelebration | GoalsPage.ToggleSubtaskAt, GoalsPage.CelebratesOnLastStep |
| src/app/tasks/page.tsx:54-55, 79, 203, 239 | `loading` is the store's whole flag object, which is always truthy, so `isInitialLoading` is just `tasks.length === 0` | a user with no tasks: the first fetch returns `[]`, and the page shows "Loading tasks..." for good and does not open the add form by itself (only the header's New Task button opens it) | `loading.tasks && tasks.length === 0`, as the goals and watchlist pages' own flags intend | high (not executed) | TasksPage.EmptyTasksLoadForever | TasksPage.ScreenFor, TasksPage.FirstFetchReturnsNothing |

Other consequences of the code as written, stated by the members named:
- `/contact` is public to the middleware but missing from the layout's list. A logged-out visitor is therefore pushed to `/landing` (`AppLayout.ContactPushedToLanding`).
- From 200 sub-tasks up, one open sub-task still shows 100 % (`Progress.RoundsUpToFull`).
- A running task whose start time is missing loses its banked time when paused (`Timer.LostStartDropsBankedTime`).
- The middleware matcher also skips paths such as `/apiary`, because its exclusion is a prefix test (`Middleware.Handle`).
- The API accepts a title made only of white space, because it tests `!title` rather than a trimmed title (`Api.PostTask`).
