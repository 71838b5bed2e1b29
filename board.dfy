/**
 * The page's task store: the task list, the filter criteria, the filtered
 * view of the list, the update-by-id that every view's commands go through,
 * and the de-duplicated assignee list the filter editor offers.
 */
module Board {
  import opened Tasks
  import opened Seqs
  import Text
  import OrderedMap

  // ---------------------------------------------------------------------------
  // The filter predicate

  /** The search criterion: empty, or a case-insensitive substring of the title or the description. */
  predicate SearchMatches(t: Task, search: string)
  {
    search == "" ||
    var searchLower := Text.Lower(search);
    Text.Contains(Text.Lower(t.title), searchLower) ||
    Text.Contains(Text.Lower(t.description), searchLower)
  }

  /** A list criterion: empty, or containing the value. */
  predicate ListMatches(accepted: seq<string>, value: string)
  {
    |accepted| == 0 || value in accepted
  }

  /** The four checks of the filter callback, each of which may reject the task. */
  predicate Matches(t: Task, f: FilterOptions)
  {
    if f.search != "" && !SearchMatches(t, f.search) then false
    else if |f.status| > 0 && t.status !in f.status then false
    else if |f.priority| > 0 && t.priority !in f.priority then false
    else if |f.assignee| > 0 && t.assignee.id !in f.assignee then false
    else true
  }

  function MatchesFilters(f: FilterOptions): Task -> bool
  {
    (t: Task) => Matches(t, f)
  }

  /** `filteredTasks` */
  function FilterTasks(tasks: seq<Task>, f: FilterOptions): seq<Task>
  {
    Keep(tasks, MatchesFilters(f))
  }

  /**
   * A task is in the filtered list exactly when it is in the list and passes
   * all four criteria; the filtered list keeps the list's order and every
   * occurrence of a passing task, and none of a failing one.
   */
  lemma FilterTasksSpec(tasks: seq<Task>, f: FilterOptions, t: Task)
    ensures SubseqOf(FilterTasks(tasks, f), tasks)
    ensures t in FilterTasks(tasks, f) <==>
              t in tasks &&
              SearchMatches(t, f.search) &&
              ListMatches(f.status, t.status) &&
              ListMatches(f.priority, t.priority) &&
              ListMatches(f.assignee, t.assignee.id)
    ensures multiset(FilterTasks(tasks, f))[t] ==
              if Matches(t, f) then multiset(tasks)[t] else 0
  {
    KeepIsSubseq(tasks, MatchesFilters(f));
    KeepMembership(tasks, MatchesFilters(f), t);
    KeepMultiset(tasks, MatchesFilters(f), t);
  }

  /** With no search and no list criteria, the filter lets every task through. */
  lemma FilterEmptyCriteria(tasks: seq<Task>)
    ensures FilterTasks(tasks, EmptyFilters) == tasks
  {
    KeepAll(tasks, MatchesFilters(EmptyFilters));
  }

  /** Filtering the filtered list again with the same criteria changes nothing. */
  lemma FilterIdempotent(tasks: seq<Task>, f: FilterOptions)
    ensures FilterTasks(FilterTasks(tasks, f), f) == FilterTasks(tasks, f)
  {
    KeepIdempotent(tasks, MatchesFilters(f));
  }

  /** The search ignores letter case: searches that lower-case alike select alike. */
  lemma SearchIgnoresCase(tasks: seq<Task>, f: FilterOptions, search: string)
    requires Text.Lower(search) == Text.Lower(f.search)
    ensures FilterTasks(tasks, f.(search := search)) == FilterTasks(tasks, f)
  {
    var g := f.(search := search);
    assert |search| == |f.search|;
    KeepCongruent(tasks, MatchesFilters(g), MatchesFilters(f));
  }

  // ---------------------------------------------------------------------------
  // Update by id

  /** `tasks.map(task => task.id === taskId ? { ...task, ...updates } : task)` */
  function UpdateById(tasks: seq<Task>, taskId: string, updates: Patch): seq<Task>
  {
    seq(|tasks|, i requires 0 <= i < |tasks| =>
      if tasks[i].id == taskId then Merge(tasks[i], updates) else tasks[i])
  }

  /**
   * The update keeps the list's length; each task with the id gets the
   * patch's fields and keeps its others; every other task is unchanged.
   */
  lemma UpdateByIdSpec(tasks: seq<Task>, taskId: string, updates: Patch)
    ensures |UpdateById(tasks, taskId, updates)| == |tasks|
    ensures forall i :: 0 <= i < |tasks| && tasks[i].id != taskId ==>
              UpdateById(tasks, taskId, updates)[i] == tasks[i]
    ensures forall i :: 0 <= i < |tasks| && tasks[i].id == taskId ==>
              var u := UpdateById(tasks, taskId, updates)[i];
              && u.id == OrElse(updates.id, taskId)
              && u.title == OrElse(updates.title, tasks[i].title)
              && u.description == OrElse(updates.description, tasks[i].description)
              && u.projectId == OrElse(updates.projectId, tasks[i].projectId)
              && u.status == OrElse(updates.status, tasks[i].status)
              && u.priority == OrElse(updates.priority, tasks[i].priority)
              && u.assignee == OrElse(updates.assignee, tasks[i].assignee)
              && u.dueDate == OrElse(updates.dueDate, tasks[i].dueDate)
  {
  }

  /** Updating an id no task has returns the list unchanged. */
  lemma UpdateAbsentId(tasks: seq<Task>, taskId: string, updates: Patch)
    requires forall i :: 0 <= i < |tasks| ==> tasks[i].id != taskId
    ensures UpdateById(tasks, taskId, updates) == tasks
  {
  }

  /**
   * Applying the same update twice is applying it once: a task the first
   * pass renamed away from `taskId` is skipped by the second.
   */
  lemma UpdateIdempotent(tasks: seq<Task>, taskId: string, updates: Patch)
    ensures UpdateById(UpdateById(tasks, taskId, updates), taskId, updates) ==
            UpdateById(tasks, taskId, updates)
  {
    var once := UpdateById(tasks, taskId, updates);
    forall i | 0 <= i < |tasks|
      ensures UpdateById(once, taskId, updates)[i] == once[i]
    {
      MergeIdempotent(tasks[i], updates);
    }
  }

  /** The ids of a task list, in order. */
  function Ids(tasks: seq<Task>): (r: seq<string>)
    ensures |r| == |tasks| && forall i :: 0 <= i < |tasks| ==> r[i] == tasks[i].id
  {
    seq(|tasks|, i requires 0 <= i < |tasks| => tasks[i].id)
  }

  /** An update without an `id` field keeps every id, so unique ids stay unique. */
  lemma UpdateKeepsIds(tasks: seq<Task>, taskId: string, updates: Patch)
    requires updates.id.None?
    ensures Ids(UpdateById(tasks, taskId, updates)) == Ids(tasks)
  {
  }

  /** Applying a command issued by a view (kanban drop, modal buttons). */
  function Apply(tasks: seq<Task>, cmd: UpdateCommand): (r: seq<Task>)
    ensures |r| == |tasks|
    ensures forall i :: 0 <= i < |tasks| && tasks[i].id != cmd.taskId ==> r[i] == tasks[i]
  {
    UpdateById(tasks, cmd.taskId, cmd.updates)
  }

  /** A `{ status }` command moves every task with that id to the status and changes nothing else. */
  lemma ApplyStatusCommand(tasks: seq<Task>, taskId: string, status: string)
    ensures |Apply(tasks, UpdateCommand(taskId, StatusPatch(status)))| == |tasks|
    ensures forall i :: 0 <= i < |tasks| ==>
              Apply(tasks, UpdateCommand(taskId, StatusPatch(status)))[i] ==
              if tasks[i].id == taskId then tasks[i].(status := status) else tasks[i]
  {
  }

  /** A `{ priority }` command sets the priority of every task with that id and changes nothing else. */
  lemma ApplyPriorityCommand(tasks: seq<Task>, taskId: string, priority: string)
    ensures |Apply(tasks, UpdateCommand(taskId, PriorityPatch(priority)))| == |tasks|
    ensures forall i :: 0 <= i < |tasks| ==>
              Apply(tasks, UpdateCommand(taskId, PriorityPatch(priority)))[i] ==
              if tasks[i].id == taskId then tasks[i].(priority := priority) else tasks[i]
  {
  }

  // ---------------------------------------------------------------------------
  // Assignees offered by the filter editor

  /** `tasks.map(task => [task.assignee.id, task.assignee])` */
  function AssigneePairs(tasks: seq<Task>): (r: seq<(string, Assignee)>)
    ensures |r| == |tasks| && forall i :: 0 <= i < |tasks| ==> r[i] == (tasks[i].assignee.id, tasks[i].assignee)
  {
    seq(|tasks|, i requires 0 <= i < |tasks| => (tasks[i].assignee.id, tasks[i].assignee))
  }

  /** `Array.from(new Map(pairs).values())` */
  function UniqueAssignees(tasks: seq<Task>): seq<Assignee>
  {
    OrderedMap.Values(OrderedMap.FromPairs(AssigneePairs(tasks)))
  }

  /** The ids of the assignees of a task list, in task order. */
  function AssigneeIds(tasks: seq<Task>): (r: seq<string>)
    ensures |r| == |tasks| && forall i :: 0 <= i < |tasks| ==> r[i] == tasks[i].assignee.id
  {
    seq(|tasks|, i requires 0 <= i < |tasks| => tasks[i].assignee.id)
  }

  /** The `j`-th entry of the map holds the assignee of the last task carrying the entry's key. */
  lemma AssigneeEntry(tasks: seq<Task>, j: int)
    requires 0 <= j < |OrderedMap.FromPairs(AssigneePairs(tasks))|
    ensures var e := OrderedMap.FromPairs(AssigneePairs(tasks));
            && e[j].0 in OrderedMap.Keys(AssigneePairs(tasks))
            && e[j].1 == OrderedMap.LastValue(AssigneePairs(tasks), e[j].0)
            && e[j].1.id == e[j].0
  {
    var pairs := AssigneePairs(tasks);
    OrderedMap.FromPairsSpec(pairs);
    LastAssignee(tasks, OrderedMap.FromPairs(pairs)[j].0);
  }

  /**
   * One assignee per distinct assignee id, ordered by the id's first
   * occurrence among the tasks.
   */
  lemma UniqueAssigneesIds(tasks: seq<Task>)
    ensures |UniqueAssignees(tasks)| == |OrderedMap.FirstOccurrences(AssigneeIds(tasks))|
    ensures forall j :: 0 <= j < |UniqueAssignees(tasks)| ==>
              UniqueAssignees(tasks)[j].id == OrderedMap.FirstOccurrences(AssigneeIds(tasks))[j]
    ensures forall j :: 0 <= j < |UniqueAssignees(tasks)| ==> UniqueAssignees(tasks)[j].id in AssigneeIds(tasks)
    ensures forall j, j' :: 0 <= j < j' < |UniqueAssignees(tasks)| ==>
              OrderedMap.FirstIndex(AssigneeIds(tasks), UniqueAssignees(tasks)[j].id) <
              OrderedMap.FirstIndex(AssigneeIds(tasks), UniqueAssignees(tasks)[j'].id)
  {
    OrderedMap.FirstOccurrencesOrdered(AssigneeIds(tasks));
    var pairs := AssigneePairs(tasks);
    var e := OrderedMap.FromPairs(pairs);
    OrderedMap.FromPairsSpec(pairs);
    assert OrderedMap.Keys(pairs) == AssigneeIds(tasks);
    forall j | 0 <= j < |e| ensures UniqueAssignees(tasks)[j].id == OrderedMap.Keys(e)[j] {
      AssigneeEntry(tasks, j);
    }
  }

  /** Each assignee offered is the assignee object of the last task carrying its id. */
  lemma UniqueAssigneesLast(tasks: seq<Task>, j: int)
    requires 0 <= j < |UniqueAssignees(tasks)|
    ensures exists i :: 0 <= i < |tasks| && tasks[i].assignee == UniqueAssignees(tasks)[j] &&
              forall i' :: i < i' < |tasks| ==> tasks[i'].assignee.id != UniqueAssignees(tasks)[j].id
  {
    var pairs := AssigneePairs(tasks);
    var e := OrderedMap.FromPairs(pairs);
    AssigneeEntry(tasks, j);
    var k := e[j].0;
    LastAssignee(tasks, k);
    var i :| 0 <= i < |tasks| && tasks[i].assignee == OrderedMap.LastValue(pairs, k) &&
             forall i' :: i < i' < |tasks| ==> tasks[i'].assignee.id != k;
    assert UniqueAssignees(tasks)[j] == e[j].1;
  }

  /** The value stored under an assignee id is an assignee with that id, from its last task. */
  lemma LastAssignee(tasks: seq<Task>, k: string)
    requires k in OrderedMap.Keys(AssigneePairs(tasks))
    ensures OrderedMap.LastValue(AssigneePairs(tasks), k).id == k
    ensures exists i :: 0 <= i < |tasks| && tasks[i].assignee == OrderedMap.LastValue(AssigneePairs(tasks), k) &&
              forall i' :: i < i' < |tasks| ==> tasks[i'].assignee.id != k
  {
    var pairs := AssigneePairs(tasks);
    OrderedMap.LastValueIsLast(pairs, k);
    var i :| 0 <= i < |pairs| && pairs[i] == (k, OrderedMap.LastValue(pairs, k)) &&
             forall i' :: i < i' < |pairs| ==> pairs[i'].0 != k;
    assert tasks[i].assignee == OrderedMap.LastValue(pairs, k);
  }

  // ---------------------------------------------------------------------------
  // The page's state

  /** The page's initial task list. */
  const SeedTasks: seq<Task> := [
    Task("1", "Design homepage mockups", "Create initial design mockups for the new homepage",
         "1", Todo, High, Assignee("1", "Sarah Chen", "SC"), 1731628800000),
    Task("2", "Review API authentication", "Review and implement OAuth2 authentication",
         "2", InProgress, High, Assignee("2", "Alex Rodriguez", "AR"), 1731369600000),
    Task("3", "Fix header layout issues", "Resolve responsive design issues on mobile",
         "1", InProgress, "medium", Assignee("3", "Jordan Liu", "JL"), 1731196800000),
    Task("4", "Database optimization", "Index frequently queried columns for better performance",
         "2", Done, "low", Assignee("4", "Morgan Smith", "MS"), 1731024000000)
  ]

  /** The page component: the task list and the criteria last reported by the filter editor. */
  class TaskStore {
    var tasks: seq<Task>
    var filters: FilterOptions

    /** The four seed tasks, no criteria. */
    constructor ()
      ensures tasks == SeedTasks && Ids(tasks) == ["1", "2", "3", "4"]
      ensures filters == EmptyFilters
    {
      tasks := SeedTasks;
      filters := EmptyFilters;
      new;
      assert Ids(tasks) == ["1", "2", "3", "4"];
    }

    /** `handleUpdateTask(taskId, updates)` */
    method HandleUpdateTask(taskId: string, updates: Patch)
      modifies this
      ensures tasks == UpdateById(old(tasks), taskId, updates)
      ensures filters == old(filters)
    {
      tasks := UpdateById(tasks, taskId, updates);
    }

    /** `setFilters`, the editor's `onFilterChange` */
    method SetFilters(f: FilterOptions)
      modifies this
      ensures filters == f && tasks == old(tasks)
    {
      filters := f;
    }
  }
}
