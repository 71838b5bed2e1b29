# claim-flow task board, modelled in Dafny

claim-flow is a single-page task board held entirely in memory. The page
keeps a list of tasks and a set of filter criteria. It shows the tasks that
pass the criteria either as a dashboard or as a kanban board. Three parts of
the page change the task list through one update-by-id:

- dragging a card to another column;
- the status buttons in a task's detail dialog;
- the priority buttons in the same dialog.

A filter editor owns the criteria and reports every change to the page. A
sprint manager keeps its own sprint list. The detail dialog keeps its own
comment thread.

This project models that logic as one Dafny module per source component:

- `Tasks` (tasks.dfy): the task, assignee, partial-update (`{ ...task, ...updates }`) and filter-criteria records, the three column statuses and the overdue predicate.
- `Board` (board.dfy), for `app/page.tsx`:
  - the filtered view;
  - the update-by-id;
  - the de-duplicated assignee list, built with `Map` semantics;
  - the `TaskStore` class holding the page's `tasks` and `filters` state.
- `TaskFilters` (task_filters.dfy): list toggles, the active-filter badge and the `FilterEditor` class. Each handler of `FilterEditor` replaces the criteria and returns the value it reports to the page.
- `Kanban` (kanban.dfy): the status columns, the column headers and the `KanbanBoard` drag state. Its drop handler returns the update command it issues.
- `Dashboard` (dashboard.dfy): per-status counts, the overdue list and the open high-priority list.
- `Sprints` (sprints.dfy): the sprint record, the guarded creation in `SprintManager`, and the rounded progress percentage.
- `TaskModal` (task_modal.dfy): the comment thread with its guarded append, the relative-time buckets, and the status and priority commands.

Four helper modules support these:

- `Seqs`: a stable filter `Keep` (`Array.prototype.filter`) with its subsequence, membership, multiplicity and partition lemmas.
- `OrderedMap`: a JavaScript `Map` as an insertion-ordered list of entries.
- `Text`: ASCII `toLowerCase`, `includes`, and `trim` over ECMAScript white space.
- `Decimal`: `String(n)` for counters, and its injectivity.

Conventions:

- A callback a component calls (`onTaskUpdate`, `onUpdate`, `onFilterChange`) becomes the value its method returns. The page's side is `Board.Apply` / `TaskStore.HandleUpdateTask` and `TaskStore.SetFilters`.
- Times are milliseconds since the epoch. The current time `now` is a parameter.
- A task's due date `"yyyy-mm-dd"` parses as UTC midnight, so it is stored as that time value.

## Model

| member | source | states |
|---|---|---|
| Tasks.Merge | app/page.tsx:108 | `{ ...task, ...updates }`: each field the update has replaces the task's, each it lacks is kept; its uses are stated by MergeStatus, MergePriority, MergeIdempotent and Board.UpdateByIdSpec |
| Tasks.IsOverdue | components/kanban-board.tsx:65-67 | a task is overdue when its due time is strictly before `now` and its status is not "done"; used by Kanban.HeaderSpec and Dashboard.OverdueTasksSpec |
| Tasks.MergeStatus | components/kanban-board.tsx:47 | merging `{ status }` into a task replaces its status and leaves every other field as it was |
| Tasks.MergePriority | components/task-modal.tsx:33 | merging `{ priority }` replaces the priority and nothing else |
| Tasks.MergeIdempotent | app/page.tsx:108 | spreading the same updates over a task twice is the same as once |
| Board.Matches | app/page.tsx:79-104 | the filter callback: four checks in source order, each able to reject the task; characterised criterion by criterion in FilterTasksSpec |
| Board.FilterTasks | app/page.tsx:78-105 | `filteredTasks`: the tasks passing `Matches`, kept by the stable filter; its properties are stated by FilterTasksSpec, FilterEmptyCriteria, FilterIdempotent and SearchIgnoresCase |
| Board.FilterTasksSpec | app/page.tsx:78-105 | the filtered list is an order-preserving subsequence of the tasks; a task is in it exactly when it passes all four criteria (lower-cased search in the lower-cased title or description, and status, priority and assignee id each accepted by an empty or containing list); each passing task keeps its multiplicity and a failing one has none |
| Board.FilterEmptyCriteria | app/page.tsx:81-103 | with an empty search and three empty lists the filter returns the task list unchanged |
| Board.FilterIdempotent | app/page.tsx:78-105 | filtering the filtered list again with the same criteria changes nothing |
| Board.SearchIgnoresCase | app/page.tsx:82-83 | two searches with the same lower-case form select the same tasks |
| Board.UpdateById | app/page.tsx:107-109 | `tasks.map(...)` merging the updates into each task with the id; stated by UpdateByIdSpec, UpdateAbsentId, UpdateIdempotent and UpdateKeepsIds |
| Board.UpdateByIdSpec | app/page.tsx:107-109 | the update keeps the length; tasks with another id are unchanged; a task with the id takes each field the update has and keeps each field it lacks |
| Board.UpdateAbsentId | app/page.tsx:108 | an id no task has leaves the list equal to the input |
| Board.UpdateIdempotent | app/page.tsx:108 | applying the same update twice is applying it once, for every update, including one that renames the task |
| Board.UpdateKeepsIds | app/page.tsx:108 | an update without an `id` field keeps the list of ids |
| Board.Apply | app/page.tsx:107-109 | `onUpdateTask(id, updates)` as the page handles it: the list keeps its length and every task with another id is unchanged |
| Board.ApplyStatusCommand | app/page.tsx:107-109 | a `{ status }` command sets the status of the tasks with that id and changes nothing else |
| Board.ApplyPriorityCommand | app/page.tsx:107-109 | a `{ priority }` command sets the priority of the tasks with that id and changes nothing else |
| Board.UniqueAssignees | app/page.tsx:111 | the values of the map built from `(assignee.id, assignee)` pairs; stated by UniqueAssigneesIds and UniqueAssigneesLast |
| Board.AssigneeEntry | app/page.tsx:111 | each entry of the map built from the tasks is keyed by an assignee id and holds an assignee with that id, the value of the id's last pair |
| Board.UniqueAssigneesIds | app/page.tsx:111 | `uniqueAssignees` has one entry per distinct assignee id, each an id of some task, in strictly increasing order of each id's first occurrence among the tasks |
| Board.UniqueAssigneesLast | app/page.tsx:111 | each entry of `uniqueAssignees` is the assignee object of the last task carrying its id |
| Board.LastAssignee | app/page.tsx:111 | the last pair with a given key comes from a task whose assignee has that id, and no later task has it |
| Board.TaskStore.constructor | app/page.tsx:13-76 | the page starts with the four seed tasks, ids "1" to "4", and empty criteria |
| Board.TaskStore.HandleUpdateTask | app/page.tsx:107-109 | the task list becomes the update-by-id of the old list; the criteria are unchanged |
| Board.TaskStore.SetFilters | app/page.tsx:117 | the criteria the editor reports replace the page's criteria; the tasks are unchanged |
| Seqs.Keep | app/page.tsx:79-104 | `Array.prototype.filter`: the elements satisfying the predicate, in order; its length never exceeds the input's, and its membership, multiplicity and subsequence lemmas carry every filter of the board |
| OrderedMap.FromPairs | app/page.tsx:111 | `new Map(pairs)`: each pair set in turn; its keys stay distinct; stated by FromPairsSpec |
| OrderedMap.Values | app/page.tsx:111 | `Array.from(map.values())`: the entries' values in entry order |
| OrderedMap.FirstOccurrences | app/page.tsx:111 | reference definition for the key order: the distinct keys, no duplicates, every key of the input present and nothing else |
| OrderedMap.FirstIndex | app/page.tsx:111 | the index of a key's first occurrence: it holds the key and no earlier index does |
| OrderedMap.FirstOccurrencesOrdered | app/page.tsx:111 | the distinct keys are listed in strictly increasing order of their first occurrence |
| OrderedMap.FromPairsSpec | app/page.tsx:111 | `new Map(pairs)` holds the keys in order of first occurrence, each with the value of its last occurrence |
| OrderedMap.Set | app/page.tsx:111 | setting a present key keeps the key order and overwrites only that entry's value; a new key is appended; keys stay distinct |
| Text.Lower | app/page.tsx:82-83 | `toLowerCase`: same length, each ASCII capital mapped to its small letter and every other character kept |
| Text.Contains | app/page.tsx:83 | `includes`: the needle occurs at some position of the text |
| Text.Trim | components/task-modal.tsx:37 | `trim()`: only white space is removed, a blank prefix and a blank suffix, leaving a slice of the input with no white space at either end; its emptiness is stated by TrimEmptyIffBlank |
| Text.TrimEmptyIffBlank | components/task-modal.tsx:37 | `s.trim()` is empty exactly when every character of `s` is ECMAScript white space |
| Decimal.NatToString | components/sprint-manager.tsx:66 | `String(n)` for a counter: at least one digit, only digits, no leading zero; round-trip stated by ParseNatToString |
| Decimal.ParseNatToString | components/sprint-manager.tsx:66 | reading `String(n)` back as decimal digits gives `n` |
| Decimal.NatToStringInjective | components/task-modal.tsx:41 | distinct counters give distinct ids |
| Decimal.SequentialIdsDistinct | components/task-modal.tsx:41 | ids "1", ..., "n" never repeat |
| TaskFilters.Toggle | components/task-filters.tsx:35-37 | remove a selected value, append an unselected one; stated by ToggleFlips, ToggleTwiceRestores and ToggleNoDuplicates |
| TaskFilters.HasActiveFilters | components/task-filters.tsx:67 | some list criterion is non-empty; the search is not counted |
| TaskFilters.ActiveFilterCount | components/task-filters.tsx:89 | the sum of the three list lengths |
| TaskFilters.FilterBadge | components/task-filters.tsx:89 | the count is shown only when a filter is active; stated by FilterBadgeShown |
| TaskFilters.ToggleFlips | components/task-filters.tsx:35-37 | toggling a value flips its membership and leaves every other value's membership as it was |
| TaskFilters.ToggleTwiceRestores | components/task-filters.tsx:35-37 | toggling an absent value twice restores the list exactly |
| TaskFilters.ToggleNoDuplicates | components/task-filters.tsx:35-37 | toggling keeps a list free of duplicates |
| TaskFilters.FilterBadgeShown | components/task-filters.tsx:67-89 | the badge is shown exactly when the sum of the three list lengths is positive, whatever the search, and then shows that positive sum |
| TaskFilters.FilterEditor.constructor | components/task-filters.tsx:20-25 | the editor starts with empty criteria |
| TaskFilters.FilterEditor.HandleSearchChange | components/task-filters.tsx:28-32 | only the search is replaced, and the reported value equals the new criteria |
| TaskFilters.FilterEditor.ToggleStatusFilter | components/task-filters.tsx:34-41 | only the status list changes, to its toggle; it stays duplicate-free; the reported value equals the new criteria |
| TaskFilters.FilterEditor.TogglePriorityFilter | components/task-filters.tsx:43-50 | only the priority list changes, to its toggle; it stays duplicate-free; the reported value equals the new criteria |
| TaskFilters.FilterEditor.ToggleAssigneeFilter | components/task-filters.tsx:52-59 | only the assignee list changes, to its toggle; it stays duplicate-free; the reported value equals the new criteria |
| TaskFilters.FilterEditor.ResetFilters | components/task-filters.tsx:61-65 | the criteria become an empty search and three empty lists, with no active filter, and that value is reported |
| Kanban.Column | components/kanban-board.tsx:78 | `statusTasks`: the tasks with the column's status, in list order; stated by ColumnSpec, ColumnsPartition and TaskInOneColumn |
| Kanban.Header | components/kanban-board.tsx:79-80 | `totalTasks` and `overdueTasks` of a column; stated by HeaderSpec |
| Kanban.ColumnSpec | components/kanban-board.tsx:78 | a column keeps the input order and holds exactly the tasks with its status, each as often as the input does |
| Kanban.StatusesExclusive | components/kanban-board.tsx:11-15 | no task satisfies two of the three column predicates |
| Kanban.ColumnsPartition | components/kanban-board.tsx:11-15 | together the three columns hold each task at most as often as the list; exactly as often when every status is a column's |
| Kanban.TaskInOneColumn | components/kanban-board.tsx:77-78 | a task of the list is in the column of its status and in no other; a task with any other status is in no column |
| Kanban.HeaderSpec | components/kanban-board.tsx:65-80 | the overdue count counts the column's tasks due before now and not done; it never exceeds the total and is 0 in the "done" column |
| Kanban.DropLandsInColumn | components/kanban-board.tsx:43-50 | in the task list updated by the command a drop issues (before the page's filter), the dropped task (status changed, all else kept) is in the drop column and no other |
| Kanban.DropShownInColumn | components/kanban-board.tsx:43-50 | on the board the page renders from the filtered list, the dropped task appears in the drop column exactly when it passes the active filters, and in no other column |
| Kanban.KanbanBoard.constructor | components/kanban-board.tsx:24-25 | nothing is dragged and no column is highlighted |
| Kanban.KanbanBoard.HandleDragStart | components/kanban-board.tsx:27-31 | the task becomes the dragged task; the highlight is unchanged |
| Kanban.KanbanBoard.HandleDragOver | components/kanban-board.tsx:33-37 | the column becomes the highlighted one; the dragged task is unchanged |
| Kanban.KanbanBoard.HandleDragLeave | components/kanban-board.tsx:39-41 | no column is highlighted; the dragged task is unchanged |
| Kanban.KanbanBoard.HandleDrop | components/kanban-board.tsx:43-50 | the highlight is cleared; with a dragged task exactly one `(id, { status })` command is issued and the drag ends; without one nothing is issued |
| Dashboard.TasksByStatus | components/dashboard.tsx:15-19 | the three filtered lengths; stated by StatusCountSpec and StatusCountsTotal |
| Dashboard.OverdueTasks | components/dashboard.tsx:21 | the overdue tasks, in list order; stated by OverdueTasksSpec |
| Dashboard.HighPriorityTasks | components/dashboard.tsx:22 | the open high-priority tasks, in list order; stated by HighPriorityTasksSpec |
| Dashboard.StatusCountSpec | components/dashboard.tsx:15-19 | each count is the size of a list holding every task with that status as often as the input, and nothing else |
| Dashboard.StatusCountsTotal | components/dashboard.tsx:15-19 | the three counts sum to at most the number of tasks, and to exactly that when every status is one of the three |
| Dashboard.OverdueTasksSpec | components/dashboard.tsx:21 | the overdue list is, in input order, exactly the tasks due before now and not done |
| Dashboard.HighPriorityTasksSpec | components/dashboard.tsx:22 | the high-priority list is, in input order, exactly the tasks of priority "high" that are not done |
| Dashboard.NoDoneTaskListed | components/dashboard.tsx:21-22 | no task with status "done" is in either list |
| Dashboard.SeedStatusCounts | components/dashboard.tsx:15-19 | on the page's initial tasks the counts are 1 to do, 2 in progress, 1 done |
| Dashboard.SeedHighPriority | components/dashboard.tsx:22 | on the initial tasks the high-priority list is tasks "1" and "2" |
| Dashboard.SeedOverdue | components/dashboard.tsx:21 | after the last initial due date, tasks "1", "2" and "3" are overdue |
| Sprints.CanCreate | components/sprint-manager.tsx:62 | the creation guard: name, start date and end date all non-empty (truthy) |
| Sprints.NewSprint | components/sprint-manager.tsx:65-73 | the created sprint: id `String(count + 1)`, the draft's fields, status upcoming, no tasks |
| Sprints.NewSprintIds | components/sprint-manager.tsx:63-74 | appending the created sprint keeps ids "1", ..., "n+1"; no two sprints share an id, and the new id is none of the old ones |
| Sprints.Progress | components/sprint-manager.tsx:93-95 | 0 for a non-positive task count; otherwise the integer nearest to 100 * completed / total, with halves rounded up |
| Sprints.ProgressBounds | components/sprint-manager.tsx:94 | with 0 <= completed <= total, progress is within [0, 100], and it is 100 when every task is completed |
| Sprints.SeedProgress | components/sprint-manager.tsx:24-52 | the seed sprints show 47, 0 and 100 percent; a created sprint shows 0 |
| Sprints.SprintManager.constructor | components/sprint-manager.tsx:24-59 | three seed sprints with ids "1", "2", "3"; the form is hidden and the draft empty |
| Sprints.SprintManager.OpenForm | components/sprint-manager.tsx:207 | the form is shown; sprints and draft unchanged |
| Sprints.SprintManager.CancelForm | components/sprint-manager.tsx:199 | the form is hidden; sprints and draft unchanged |
| Sprints.SprintManager.EditName | components/sprint-manager.tsx:170 | only the draft's name changes |
| Sprints.SprintManager.EditStartDate | components/sprint-manager.tsx:177 | only the draft's start date changes |
| Sprints.SprintManager.EditEndDate | components/sprint-manager.tsx:183 | only the draft's end date changes |
| Sprints.SprintManager.HandleCreateSprint | components/sprint-manager.tsx:61-78 | with name, start and end all non-empty: appends one upcoming sprint with id `String(length + 1)` and no tasks, keeps the earlier ones, clears the draft and hides the form; otherwise nothing changes; sequential ids stay sequential |
| TaskModal.NewComment | components/task-modal.tsx:40-45 | the added comment: id `String(count + 1)`, author "You" / "YO", the draft text, time `now` |
| TaskModal.FormatTime | components/task-modal.tsx:52-62 | `formatTime`: floor-divided minutes, then hours, then the date; stated by FormatTimeSpec |
| TaskModal.NewCommentIds | components/task-modal.tsx:38-46 | appending the new comment keeps ids "1", ..., "n+1", and its id is none of the earlier ones |
| TaskModal.FormatTimeSpec | components/task-modal.tsx:52-62 | under one hour elapsed: whole minutes N with N < 60; from one hour to under a day: whole hours H, 1 <= H < 24; from a day on: the date |
| TaskModal.TaskModal.constructor | components/task-modal.tsx:15-25 | the thread holds the seed comment "1"; the draft is empty and the input hidden |
| TaskModal.TaskModal.HandleStatusChange | components/task-modal.tsx:28-30 | issues exactly `(task.id, { status })` |
| TaskModal.TaskModal.HandlePriorityChange | components/task-modal.tsx:32-34 | issues exactly `(task.id, { priority })` |
| TaskModal.TaskModal.OpenCommentInput | components/task-modal.tsx:266 | the input is shown; thread and draft unchanged |
| TaskModal.TaskModal.CancelCommentInput | components/task-modal.tsx:258 | the input is hidden; thread and draft unchanged |
| TaskModal.TaskModal.EditComment | components/task-modal.tsx:241 | only the draft changes |
| TaskModal.TaskModal.HandleAddComment | components/task-modal.tsx:36-50 | a draft with a non-white character is appended as comment `String(length + 1)` by "You" at `now`, with earlier comments kept, the draft cleared and the input hidden; a blank draft changes nothing; sequential ids stay sequential |

## Left out

- Rendering, layout, icons and the colour pickers (`getPriorityColor`, `getStatusColor`): presentation only.
- The sidebar, the team panel and the avatar component: they only toggle view flags, clear an input or pick a colour. The page's `currentView` and `selectedTask` state is left out for the same reason.
- The filter editor's `showAdvanced` toggle: it only shows or hides the advanced filters.
- The detail dialog's local `description` draft, its due-date input and its "Save Changes" button: none of them has any effect on the tasks.
- `onClose`, `onTaskClick` and `onSelectSprint`: these callbacks only open or close views.
- Drag-event plumbing (`preventDefault`, `dataTransfer`): it has no effect on the board's state.
- Text.Lower: lower-cases ASCII letters only, not full Unicode case mapping.
- Sprints.Progress: computed with exact integer rounding. The source rounds the floating-point value `completed / total * 100`, which can differ on a rounding tie that the division does not represent exactly. Non-integer counts are not modelled.
- TaskModal.FormatTime: the date branch returns the timestamp without the locale formatting of `toLocaleDateString`. The "Nm ago" / "Hh ago" text is represented by the number it shows.
- Dates are integers: invalid dates (NaN time values) are not modelled. Reading the clock (`new Date()`) becomes the parameter `now`.
- The seed comment's time `2024-11-12T10:30:00` has no zone, so the browser reads it as local time. The model fixes it as UTC.
- A `Patch` carries only the eight task fields. The page's `updates` parameter is untyped, so a caller could also copy unknown keys or explicit `undefined` values into a task; no caller in the board, the dialog or the page sends them.
- The detail dialog's `tab` state: it only selects which panel is shown.
- Sprint dates are kept as the strings typed into the form. They are never compared. The sprint list parses them only to display them with `toLocaleDateString`, and that display is not modelled.
