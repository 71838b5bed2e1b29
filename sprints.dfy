/**
 * The sprint manager: the sprint list, the new-sprint form, the guarded
 * creation of an upcoming sprint, and the rounded progress percentage.
 */
module Sprints {
  import opened Decimal

  datatype SprintStatus = Active | Upcoming | Completed

  /** A sprint; the dates are the form's `yyyy-mm-dd` strings, kept as entered. */
  datatype Sprint = Sprint(
    id: string,
    name: string,
    startDate: string,
    endDate: string,
    status: SprintStatus,
    tasksCount: int,
    completedTasks: int)

  /** The new-sprint form's fields. */
  datatype SprintDraft = SprintDraft(name: string, startDate: string, endDate: string)

  const EmptyDraft := SprintDraft("", "", "")

  const SeedSprints: seq<Sprint> := [
    Sprint("1", "Sprint 1 - Q4 Launch Prep", "2024-11-04", "2024-11-18", Active, 15, 7),
    Sprint("2", "Sprint 2 - Feature Polish", "2024-11-19", "2024-12-02", Upcoming, 12, 0),
    Sprint("3", "Sprint 0 - Foundation", "2024-10-21", "2024-11-03", Completed, 10, 10)
  ]

  /** The ids of a sprint list, in order. */
  function SprintIds(sprints: seq<Sprint>): (r: seq<string>)
    ensures |r| == |sprints| && forall i :: 0 <= i < |sprints| ==> r[i] == sprints[i].id
  {
    seq(|sprints|, i requires 0 <= i < |sprints| => sprints[i].id)
  }

  /** The creation guard: a string is truthy when it is not empty. */
  predicate CanCreate(d: SprintDraft)
  {
    d.name != "" && d.startDate != "" && d.endDate != ""
  }

  /** The sprint created from the form when the list has `count` sprints. */
  function NewSprint(count: nat, d: SprintDraft): Sprint
  {
    Sprint(NatToString(count + 1), d.name, d.startDate, d.endDate, Upcoming, 0, 0)
  }

  /**
   * Appending created sprints keeps the ids "1", "2", ..., so they never
   * repeat, and the new one's id is none of the earlier ones.
   */
  lemma NewSprintIds(sprints: seq<Sprint>, d: SprintDraft)
    requires SequentialIds(SprintIds(sprints))
    ensures SequentialIds(SprintIds(sprints + [NewSprint(|sprints|, d)]))
    ensures NoRepeatedIds(sprints + [NewSprint(|sprints|, d)])
    ensures NewSprint(|sprints|, d).id !in SprintIds(sprints)
  {
    var after := sprints + [NewSprint(|sprints|, d)];
    assert SprintIds(after) == SprintIds(sprints) + [NatToString(|sprints| + 1)];
    AppendNextId(SprintIds(sprints));
    SequentialIdsDistinct(SprintIds(after));
    forall i | 0 <= i < |sprints| ensures SprintIds(sprints)[i] != NewSprint(|sprints|, d).id {
      NatToStringInjective(i + 1, |sprints| + 1);
    }
  }

  /** No two sprints share an id. */
  predicate NoRepeatedIds(sprints: seq<Sprint>)
  {
    forall i, j :: 0 <= i < j < |sprints| ==> sprints[i].id != sprints[j].id
  }

  /**
   * `getProgressPercentage(sprint)`: `Math.round(completed / total * 100)`
   * for a positive total, else 0. The rounding is computed exactly: the
   * integer nearest to `100 * completed / total`, halves rounded up.
   */
  function Progress(s: Sprint): (r: int)
    ensures s.tasksCount <= 0 ==> r == 0
    ensures s.tasksCount > 0 ==>
              2 * s.tasksCount * r <= 200 * s.completedTasks + s.tasksCount < 2 * s.tasksCount * (r + 1)
  {
    if s.tasksCount > 0 then
      var q := (200 * s.completedTasks + s.tasksCount) / (2 * s.tasksCount);
      q
    else 0
  }

  /** With no more completed tasks than tasks, progress is a percentage, and 100 when all are done. */
  lemma ProgressBounds(s: Sprint)
    requires 0 <= s.completedTasks <= s.tasksCount
    ensures 0 <= Progress(s) <= 100
    ensures s.tasksCount > 0 && s.completedTasks == s.tasksCount ==> Progress(s) == 100
  {
    var t, c, r := s.tasksCount, s.completedTasks, Progress(s);
    if t > 0 {
      var t2 := 2 * t;
      assert t2 * r <= 200 * c + t < t2 * (r + 1);
      assert t2 * 0 < t2 * (r + 1);
      ScaleLess(t2, 0, r + 1);
      assert t2 * r < t2 * 101;
      ScaleLess(t2, r, 101);
      if c == t {
        assert t2 * 100 < t2 * (r + 1);
        ScaleLess(t2, 100, r + 1);
      }
    }
  }

  /** Cancelling a positive factor from a strict inequality. */
  lemma ScaleLess(k: int, a: int, b: int)
    requires k > 0 && k * a < k * b
    ensures a < b
  {
  }

  /** The three seed sprints show 47%, 0% and 100%, and a created sprint 0%. */
  lemma SeedProgress(count: nat, d: SprintDraft)
    ensures Progress(SeedSprints[0]) == 47
    ensures Progress(SeedSprints[1]) == 0
    ensures Progress(SeedSprints[2]) == 100
    ensures Progress(NewSprint(count, d)) == 0
  {
  }

  /** The sprint manager's state. */
  class SprintManager {
    var sprints: seq<Sprint>
    var showNewSprintForm: bool
    var newSprint: SprintDraft

    constructor ()
      ensures sprints == SeedSprints && SequentialIds(SprintIds(sprints))
      ensures !showNewSprintForm && newSprint == EmptyDraft
    {
      sprints := SeedSprints;
      showNewSprintForm := false;
      newSprint := EmptyDraft;
      new;
      assert SprintIds(sprints) == [NatToString(1), NatToString(2), NatToString(3)];
    }

    /** The "New Sprint" button. */
    method OpenForm()
      modifies this
      ensures showNewSprintForm
      ensures sprints == old(sprints) && newSprint == old(newSprint)
    {
      showNewSprintForm := true;
    }

    /** The form's "Cancel" button: hides the form and keeps the draft. */
    method CancelForm()
      modifies this
      ensures !showNewSprintForm
      ensures sprints == old(sprints) && newSprint == old(newSprint)
    {
      showNewSprintForm := false;
    }

    /** Typing into one of the three inputs replaces that field of the draft. */
    method EditName(value: string)
      modifies this
      ensures newSprint == old(newSprint).(name := value)
      ensures sprints == old(sprints) && showNewSprintForm == old(showNewSprintForm)
    {
      newSprint := newSprint.(name := value);
    }

    method EditStartDate(value: string)
      modifies this
      ensures newSprint == old(newSprint).(startDate := value)
      ensures sprints == old(sprints) && showNewSprintForm == old(showNewSprintForm)
    {
      newSprint := newSprint.(startDate := value);
    }

    method EditEndDate(value: string)
      modifies this
      ensures newSprint == old(newSprint).(endDate := value)
      ensures sprints == old(sprints) && showNewSprintForm == old(showNewSprintForm)
    {
      newSprint := newSprint.(endDate := value);
    }

    /**
     * `handleCreateSprint()`: with all three fields filled, append one
     * upcoming sprint with id `String(length + 1)` and no tasks, clear the
     * draft and hide the form; otherwise change nothing.
     */
    method HandleCreateSprint()
      modifies this
      ensures CanCreate(old(newSprint)) ==>
                && sprints == old(sprints) + [NewSprint(|old(sprints)|, old(newSprint))]
                && newSprint == EmptyDraft && !showNewSprintForm
      ensures !CanCreate(old(newSprint)) ==>
                sprints == old(sprints) && newSprint == old(newSprint) &&
                showNewSprintForm == old(showNewSprintForm)
      ensures SequentialIds(SprintIds(old(sprints))) ==> SequentialIds(SprintIds(sprints))
    {
      if CanCreate(newSprint) {
        if SequentialIds(SprintIds(sprints)) {
          NewSprintIds(sprints, newSprint);
        }
        sprints := sprints + [NewSprint(|sprints|, newSprint)];
        newSprint := EmptyDraft;
        showNewSprintForm := false;
      }
    }
  }
}
