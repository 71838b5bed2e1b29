/**
 * The kanban board: three status columns over the task list, the per-column
 * header counts, and the drag-and-drop state whose drop issues a `{ status }`
 * update to the page.
 */
module Kanban {
  import opened Tasks
  import opened Seqs
  import Board

  /** `tasks.filter(t => t.status === status.id)`: the tasks of one column, in list order. */
  function Column(tasks: seq<Task>, status: string): seq<Task>
  {
    Keep(tasks, HasStatus(status))
  }

  /**
   * A column keeps the list's order and holds exactly the tasks with its
   * status, each as often as the list has it.
   */
  lemma ColumnSpec(tasks: seq<Task>, status: string, t: Task)
    ensures SubseqOf(Column(tasks, status), tasks)
    ensures t in Column(tasks, status) <==> t in tasks && t.status == status
    ensures multiset(Column(tasks, status))[t] == if t.status == status then multiset(tasks)[t] else 0
  {
    KeepIsSubseq(tasks, HasStatus(status));
    KeepMembership(tasks, HasStatus(status), t);
    KeepMultiset(tasks, HasStatus(status), t);
  }

  /** No task belongs to two of the three columns. */
  lemma StatusesExclusive()
    ensures Exclusive(HasStatus(Todo), HasStatus(InProgress), HasStatus(Done))
  {
  }

  /**
   * The columns split the list: together they hold each task at most as often
   * as the list does, and exactly as often when every status is a column's.
   */
  lemma ColumnsPartition(tasks: seq<Task>)
    ensures multiset(Column(tasks, Todo)) + multiset(Column(tasks, InProgress)) +
            multiset(Column(tasks, Done)) <= multiset(tasks)
    ensures (forall i :: 0 <= i < |tasks| ==> tasks[i].status in Statuses) ==>
              multiset(Column(tasks, Todo)) + multiset(Column(tasks, InProgress)) +
              multiset(Column(tasks, Done)) == multiset(tasks)
  {
    StatusesExclusive();
    KeepThreeWay(tasks, HasStatus(Todo), HasStatus(InProgress), HasStatus(Done));
    if forall i :: 0 <= i < |tasks| ==> tasks[i].status in Statuses {
      KeepThreeWayCover(tasks, HasStatus(Todo), HasStatus(InProgress), HasStatus(Done));
    }
  }

  /** A task whose status is a column's is in that column and no other; any other task is in none. */
  lemma TaskInOneColumn(tasks: seq<Task>, t: Task)
    requires t in tasks
    ensures forall k :: 0 <= k < |Statuses| ==> (t in Column(tasks, Statuses[k]) <==> t.status == Statuses[k])
    ensures t.status !in Statuses ==> forall k :: 0 <= k < |Statuses| ==> t !in Column(tasks, Statuses[k])
  {
    forall k | 0 <= k < |Statuses|
      ensures t in Column(tasks, Statuses[k]) <==> t.status == Statuses[k]
    {
      ColumnSpec(tasks, Statuses[k], t);
    }
  }

  /** The numbers in a column's header. */
  datatype ColumnHeader = ColumnHeader(total: nat, overdue: nat)

  /** `totalTasks` and `overdueTasks` of the column `status` at time `now`. */
  function Header(tasks: seq<Task>, status: string, now: int): ColumnHeader
  {
    var statusTasks := Column(tasks, status);
    ColumnHeader(|statusTasks|, |Keep(statusTasks, OverdueAt(now))|)
  }

  /**
   * The header counts the column's tasks and, among them, those overdue: so
   * the overdue count never exceeds the total and is zero in the "done" column.
   */
  lemma HeaderSpec(tasks: seq<Task>, status: string, now: int, t: Task)
    ensures Header(tasks, status, now).overdue <= Header(tasks, status, now).total
    ensures status == Done ==> Header(tasks, status, now).overdue == 0
    ensures multiset(Keep(Column(tasks, status), OverdueAt(now)))[t] ==
              if t.status == status && t.dueDate < now && t.status != Done then multiset(tasks)[t] else 0
  {
    var statusTasks := Column(tasks, status);
    ColumnSpec(tasks, status, t);
    KeepMultiset(statusTasks, OverdueAt(now), t);
    if status == Done {
      forall i | 0 <= i < |statusTasks| ensures !OverdueAt(now)(statusTasks[i]) {
        ColumnSpec(tasks, status, statusTasks[i]);
      }
      KeepNone(statusTasks, OverdueAt(now));
    }
  }

  /**
   * Dropping task `i` on a column issues `(id, { status })`; in the updated
   * task list (before the page's filter) that task, with only its status
   * changed, sits in the column it was dropped on and in no other.
   */
  lemma DropLandsInColumn(tasks: seq<Task>, i: int, status: string, other: string)
    requires 0 <= i < |tasks|
    requires other != status
    ensures Board.Apply(tasks, UpdateCommand(tasks[i].id, StatusPatch(status)))[i] == tasks[i].(status := status)
    ensures tasks[i].(status := status) in Column(Board.Apply(tasks, UpdateCommand(tasks[i].id, StatusPatch(status))), status)
    ensures tasks[i].(status := status) !in Column(Board.Apply(tasks, UpdateCommand(tasks[i].id, StatusPatch(status))), other)
  {
    var after := Board.Apply(tasks, UpdateCommand(tasks[i].id, StatusPatch(status)));
    Board.ApplyStatusCommand(tasks, tasks[i].id, status);
    ColumnSpec(after, status, after[i]);
    ColumnSpec(after, other, after[i]);
  }

  /**
   * What the board shows after the drop: the page passes the filtered list,
   * so the moved task appears in the column it was dropped on exactly when it
   * passes the active filters, and never in another column.
   */
  lemma DropShownInColumn(tasks: seq<Task>, i: int, status: string, other: string, f: FilterOptions)
    requires 0 <= i < |tasks|
    requires other != status
    ensures (tasks[i].(status := status) in Column(Board.FilterTasks(Board.Apply(tasks, UpdateCommand(tasks[i].id, StatusPatch(status))), f), status))
        <==> Board.Matches(tasks[i].(status := status), f)
    ensures tasks[i].(status := status) !in Column(Board.FilterTasks(Board.Apply(tasks, UpdateCommand(tasks[i].id, StatusPatch(status))), f), other)
  {
    var after := Board.Apply(tasks, UpdateCommand(tasks[i].id, StatusPatch(status)));
    var moved := tasks[i].(status := status);
    var shown := Board.FilterTasks(after, f);
    Board.ApplyStatusCommand(tasks, tasks[i].id, status);
    assert after[i] == moved;
    Board.FilterTasksSpec(after, f, moved);
    ColumnSpec(shown, status, moved);
    ColumnSpec(shown, other, moved);
  }

  /** The board's drag state: the task being dragged and the column under the cursor. */
  class KanbanBoard {
    var draggedTask: Option<Task>
    var dragOverColumn: Option<string>

    constructor ()
      ensures draggedTask == None && dragOverColumn == None
    {
      draggedTask := None;
      dragOverColumn := None;
    }

    /** `handleDragStart(e, task)` */
    method HandleDragStart(task: Task)
      modifies this
      ensures draggedTask == Some(task) && dragOverColumn == old(dragOverColumn)
    {
      draggedTask := Some(task);
    }

    /** `handleDragOver(e, columnId)`: highlight the column. */
    method HandleDragOver(columnId: string)
      modifies this
      ensures dragOverColumn == Some(columnId) && draggedTask == old(draggedTask)
    {
      dragOverColumn := Some(columnId);
    }

    /** `handleDragLeave()`: no column highlighted. */
    method HandleDragLeave()
      modifies this
      ensures dragOverColumn == None && draggedTask == old(draggedTask)
    {
      dragOverColumn := None;
    }

    /**
     * `handleDrop(e, status)`: the highlight goes; a dragged task gets exactly
     * one `{ status }` update and stops being dragged; without one, nothing
     * is issued.
     */
    method HandleDrop(status: string) returns (issued: Option<UpdateCommand>)
      modifies this
      ensures dragOverColumn == None && draggedTask == None
      ensures old(draggedTask).Some? ==>
                issued == Some(UpdateCommand(old(draggedTask).value.id, StatusPatch(status)))
      ensures old(draggedTask).None? ==> issued == None
    {
      dragOverColumn := None;
      issued := None;
      if draggedTask.Some? {
        issued := Some(UpdateCommand(draggedTask.value.id, StatusPatch(status)));
        draggedTask := None;
      }
    }
  }
}
