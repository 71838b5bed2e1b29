/**
 * The dashboard's aggregates over the task list: the number of tasks per
 * status, the overdue tasks and the open high-priority tasks.
 */
module Dashboard {
  import opened Tasks
  import opened Seqs
  import Board

  /** `tasksByStatus` */
  datatype StatusCounts = StatusCounts(todo: nat, inProgress: nat, done: nat)

  /** `tasks.filter(t => t.status === status).length` for each of the three statuses. */
  function TasksByStatus(tasks: seq<Task>): StatusCounts
  {
    StatusCounts(
      |Keep(tasks, HasStatus(Todo))|,
      |Keep(tasks, HasStatus(InProgress))|,
      |Keep(tasks, HasStatus(Done))|)
  }

  /**
   * Each count is the number of tasks with that status (the filtered list
   * holds each such task as often as the list does, and nothing else).
   */
  lemma StatusCountSpec(tasks: seq<Task>, status: string, t: Task)
    ensures multiset(Keep(tasks, HasStatus(status)))[t] == if t.status == status then multiset(tasks)[t] else 0
    ensures status == Todo ==> TasksByStatus(tasks).todo == |multiset(Keep(tasks, HasStatus(status)))|
    ensures status == InProgress ==> TasksByStatus(tasks).inProgress == |multiset(Keep(tasks, HasStatus(status)))|
    ensures status == Done ==> TasksByStatus(tasks).done == |multiset(Keep(tasks, HasStatus(status)))|
  {
    KeepMultiset(tasks, HasStatus(status), t);
  }

  /** The three counts add up to at most the number of tasks, and to exactly that when every status is one of the three. */
  lemma StatusCountsTotal(tasks: seq<Task>)
    ensures TasksByStatus(tasks).todo + TasksByStatus(tasks).inProgress + TasksByStatus(tasks).done <= |tasks|
    ensures (forall i :: 0 <= i < |tasks| ==> tasks[i].status in Statuses) ==>
              TasksByStatus(tasks).todo + TasksByStatus(tasks).inProgress + TasksByStatus(tasks).done == |tasks|
  {
    assert Exclusive(HasStatus(Todo), HasStatus(InProgress), HasStatus(Done));
    KeepThreeWay(tasks, HasStatus(Todo), HasStatus(InProgress), HasStatus(Done));
    if forall i :: 0 <= i < |tasks| ==> tasks[i].status in Statuses {
      KeepThreeWayCover(tasks, HasStatus(Todo), HasStatus(InProgress), HasStatus(Done));
    }
  }

  /** `overdueTasks` at time `now` */
  function OverdueTasks(tasks: seq<Task>, now: int): seq<Task>
  {
    Keep(tasks, OverdueAt(now))
  }

  /** `t => t.priority === "high" && t.status !== "done"` */
  function OpenHighPriority(): Task -> bool
  {
    (t: Task) => t.priority == High && t.status != Done
  }

  /** `highPriorityTasks` */
  function HighPriorityTasks(tasks: seq<Task>): seq<Task>
  {
    Keep(tasks, OpenHighPriority())
  }

  /** The overdue list is, in list order, exactly the tasks due before `now` and not done. */
  lemma OverdueTasksSpec(tasks: seq<Task>, now: int, t: Task)
    ensures SubseqOf(OverdueTasks(tasks, now), tasks)
    ensures t in OverdueTasks(tasks, now) <==> t in tasks && t.dueDate < now && t.status != Done
    ensures multiset(OverdueTasks(tasks, now))[t] == if IsOverdue(t, now) then multiset(tasks)[t] else 0
  {
    KeepIsSubseq(tasks, OverdueAt(now));
    KeepMembership(tasks, OverdueAt(now), t);
    KeepMultiset(tasks, OverdueAt(now), t);
  }

  /** The high-priority list is, in list order, exactly the open tasks of priority "high". */
  lemma HighPriorityTasksSpec(tasks: seq<Task>, t: Task)
    ensures SubseqOf(HighPriorityTasks(tasks), tasks)
    ensures t in HighPriorityTasks(tasks) <==> t in tasks && t.priority == High && t.status != Done
    ensures multiset(HighPriorityTasks(tasks))[t] ==
              if t.priority == High && t.status != Done then multiset(tasks)[t] else 0
  {
    KeepIsSubseq(tasks, OpenHighPriority());
    KeepMembership(tasks, OpenHighPriority(), t);
    KeepMultiset(tasks, OpenHighPriority(), t);
  }

  /** No finished task is listed as overdue or as open high priority. */
  lemma NoDoneTaskListed(tasks: seq<Task>, now: int)
    ensures forall t :: t in OverdueTasks(tasks, now) ==> t.status != Done
    ensures forall t :: t in HighPriorityTasks(tasks) ==> t.status != Done
  {
    forall t | t in OverdueTasks(tasks, now) ensures t.status != Done {
      KeepMembership(tasks, OverdueAt(now), t);
    }
    forall t | t in HighPriorityTasks(tasks) ensures t.status != Done {
      KeepMembership(tasks, OpenHighPriority(), t);
    }
  }

  /** The page's initial tasks, one by one. */
  lemma SeedSplit()
    ensures Board.SeedTasks == [Board.SeedTasks[0]] + [Board.SeedTasks[1]] + [Board.SeedTasks[2]] + [Board.SeedTasks[3]]
  {
  }

  /** Filtering the initial tasks is filtering each of them. */
  lemma KeepSeed(p: Task -> bool)
    ensures Keep(Board.SeedTasks, p) ==
              Keep([Board.SeedTasks[0]], p) + Keep([Board.SeedTasks[1]], p) +
              Keep([Board.SeedTasks[2]], p) + Keep([Board.SeedTasks[3]], p)
  {
    var s := Board.SeedTasks;
    SeedSplit();
    KeepAppend([s[0]] + [s[1]] + [s[2]], [s[3]], p);
    KeepAppend([s[0]] + [s[1]], [s[2]], p);
    KeepAppend([s[0]], [s[1]], p);
  }

  /** On the page's initial tasks: one to do, two in progress, one done. */
  lemma SeedStatusCounts()
    ensures TasksByStatus(Board.SeedTasks) == StatusCounts(1, 2, 1)
  {
    KeepSeed(HasStatus(Todo));
    KeepSeed(HasStatus(InProgress));
    KeepSeed(HasStatus(Done));
  }

  /** On the page's initial tasks, "1" and "2" are open and of high priority. */
  lemma SeedHighPriority()
    ensures Board.Ids(HighPriorityTasks(Board.SeedTasks)) == ["1", "2"]
  {
    KeepSeed(OpenHighPriority());
  }

  /** Once the last due date has passed, initial tasks "1", "2" and "3" are overdue. */
  lemma SeedOverdue(now: int)
    requires now > 1731628800000
    ensures Board.Ids(OverdueTasks(Board.SeedTasks, now)) == ["1", "2", "3"]
  {
    KeepSeed(OverdueAt(now));
  }
}
