/**
 * The records the board passes around: tasks with their assignees, the
 * partial updates merged into them (`{ ...task, ...updates }`), the update
 * commands the views send to the task store, and the filter criteria.
 *
 * Status and priority stay strings, as in the components: the kanban board
 * and the filters handle any string, and only the three column statuses and
 * the three priorities are ever produced by the buttons.
 */
module Tasks {

  datatype Option<T> = None | Some(value: T)

  /** `o ?? d`: the value carried by `o`, or `d` when there is none. */
  function OrElse<T>(o: Option<T>, d: T): T
  {
    match o
    case Some(x) => x
    case None => d
  }

  datatype Assignee = Assignee(id: string, name: string, avatar: string)

  /** A task; `dueDate` is the due date's time value in milliseconds. */
  datatype Task = Task(
    id: string,
    title: string,
    description: string,
    projectId: string,
    status: string,
    priority: string,
    assignee: Assignee,
    dueDate: int)

  /** The fields of an `updates` object; `None` is a key the object does not have. */
  datatype Patch = Patch(
    id: Option<string>,
    title: Option<string>,
    description: Option<string>,
    projectId: Option<string>,
    status: Option<string>,
    priority: Option<string>,
    assignee: Option<Assignee>,
    dueDate: Option<int>)

  const EmptyPatch := Patch(None, None, None, None, None, None, None, None)

  /** `{ status }` */
  function StatusPatch(status: string): Patch
  {
    EmptyPatch.(status := Some(status))
  }

  /** `{ priority }` */
  function PriorityPatch(priority: string): Patch
  {
    EmptyPatch.(priority := Some(priority))
  }

  /** `{ ...task, ...updates }`: every field the patch has overrides the task's. */
  function Merge(t: Task, p: Patch): Task
  {
    Task(
      OrElse(p.id, t.id),
      OrElse(p.title, t.title),
      OrElse(p.description, t.description),
      OrElse(p.projectId, t.projectId),
      OrElse(p.status, t.status),
      OrElse(p.priority, t.priority),
      OrElse(p.assignee, t.assignee),
      OrElse(p.dueDate, t.dueDate))
  }

  /** Merging `{ status }` replaces the status and nothing else. */
  lemma MergeStatus(t: Task, status: string)
    ensures Merge(t, StatusPatch(status)) == t.(status := status)
  {
  }

  /** Merging `{ priority }` replaces the priority and nothing else. */
  lemma MergePriority(t: Task, priority: string)
    ensures Merge(t, PriorityPatch(priority)) == t.(priority := priority)
  {
  }

  /** Merging the same patch twice is merging it once. */
  lemma MergeIdempotent(t: Task, p: Patch)
    ensures Merge(Merge(t, p), p) == Merge(t, p)
  {
  }

  /** A call `onUpdate(taskId, updates)` / `onTaskUpdate(taskId, updates)`. */
  datatype UpdateCommand = UpdateCommand(taskId: string, updates: Patch)

  const Todo := "todo"
  const InProgress := "in-progress"
  const Done := "done"
  const High := "high"

  /** The board's columns, in display order. */
  const Statuses: seq<string> := [Todo, InProgress, Done]

  /** `new Date(task.dueDate) < new Date() && task.status !== "done"` */
  predicate IsOverdue(t: Task, now: int)
  {
    t.dueDate < now && t.status != Done
  }

  /** `t => t.status === status` */
  function HasStatus(status: string): Task -> bool
  {
    (t: Task) => t.status == status
  }

  /** `t => isTaskOverdue(t)` at time `now` */
  function OverdueAt(now: int): Task -> bool
  {
    (t: Task) => IsOverdue(t, now)
  }

  /** The filter criteria; empty lists and an empty search constrain nothing. */
  datatype FilterOptions = FilterOptions(
    search: string,
    status: seq<string>,
    priority: seq<string>,
    assignee: seq<string>)

  const EmptyFilters := FilterOptions("", [], [], [])
}
