/**
 * The filter editor: it owns the criteria, replaces them on every event and
 * reports each new value to the page (`onFilterChange`).
 */
module TaskFilters {
  import opened Tasks
  import opened Seqs

  /** `s => s !== value` */
  function Other(value: string): string -> bool
  {
    (s: string) => s != value
  }

  /**
   * `list.includes(value) ? list.filter(s => s !== value) : [...list, value]`:
   * remove a selected value, or append an unselected one.
   */
  function Toggle(list: seq<string>, value: string): seq<string>
  {
    if value in list then Keep(list, Other(value)) else list + [value]
  }

  /** Toggling flips the membership of the toggled value and of no other value. */
  lemma ToggleFlips(list: seq<string>, value: string, x: string)
    ensures x in Toggle(list, value) <==> if x == value then value !in list else x in list
  {
    if value in list {
      KeepMembership(list, Other(value), x);
    }
  }

  /** Toggling an unselected value twice gives back exactly the original list. */
  lemma ToggleTwiceRestores(list: seq<string>, value: string)
    requires value !in list
    ensures Toggle(Toggle(list, value), value) == list
  {
    KeepAppend(list, [value], Other(value));
    KeepAll(list, Other(value));
    assert Keep([value], Other(value)) == [];
  }

  /** Toggling keeps a list free of duplicates. */
  lemma ToggleNoDuplicates(list: seq<string>, value: string)
    requires NoDuplicates(list)
    ensures NoDuplicates(Toggle(list, value))
  {
    if value in list {
      KeepNoDuplicates(list, Other(value));
    }
  }

  /** `hasActiveFilters`: some list criterion is set (the search does not count). */
  predicate HasActiveFilters(f: FilterOptions)
  {
    |f.status| > 0 || |f.priority| > 0 || |f.assignee| > 0
  }

  /** The count shown on the "Filters" button: `status.length + priority.length + assignee.length`. */
  function ActiveFilterCount(f: FilterOptions): nat
  {
    |f.status| + |f.priority| + |f.assignee|
  }

  /** The badge after "Filters": shown only when some list criterion is set, then with the count. */
  function FilterBadge(f: FilterOptions): Option<nat>
  {
    if HasActiveFilters(f) then Some(ActiveFilterCount(f)) else None
  }

  /** The badge is shown exactly when its count is positive, whatever the search. */
  lemma FilterBadgeShown(f: FilterOptions, search: string)
    ensures FilterBadge(f).Some? <==> ActiveFilterCount(f) > 0
    ensures FilterBadge(f).Some? ==> FilterBadge(f).value == |f.status| + |f.priority| + |f.assignee| > 0
    ensures HasActiveFilters(f.(search := search)) == HasActiveFilters(f)
  {
  }

  /** The editor's own copy of the criteria. */
  class FilterEditor {
    var filters: FilterOptions

    constructor ()
      ensures filters == EmptyFilters
    {
      filters := EmptyFilters;
    }

    /** `handleSearchChange(value)`: replace the search and nothing else. */
    method HandleSearchChange(value: string) returns (reported: FilterOptions)
      modifies this
      ensures filters == old(filters).(search := value)
      ensures reported == filters
    {
      filters := filters.(search := value);
      reported := filters;
    }

    /** `toggleStatusFilter(status)` */
    method ToggleStatusFilter(status: string) returns (reported: FilterOptions)
      modifies this
      ensures filters == old(filters).(status := Toggle(old(filters).status, status))
      ensures NoDuplicates(old(filters).status) ==> NoDuplicates(filters.status)
      ensures reported == filters
    {
      if NoDuplicates(filters.status) {
        ToggleNoDuplicates(filters.status, status);
      }
      filters := filters.(status := Toggle(filters.status, status));
      reported := filters;
    }

    /** `togglePriorityFilter(priority)` */
    method TogglePriorityFilter(priority: string) returns (reported: FilterOptions)
      modifies this
      ensures filters == old(filters).(priority := Toggle(old(filters).priority, priority))
      ensures NoDuplicates(old(filters).priority) ==> NoDuplicates(filters.priority)
      ensures reported == filters
    {
      if NoDuplicates(filters.priority) {
        ToggleNoDuplicates(filters.priority, priority);
      }
      filters := filters.(priority := Toggle(filters.priority, priority));
      reported := filters;
    }

    /** `toggleAssigneeFilter(assigneeId)` */
    method ToggleAssigneeFilter(assigneeId: string) returns (reported: FilterOptions)
      modifies this
      ensures filters == old(filters).(assignee := Toggle(old(filters).assignee, assigneeId))
      ensures NoDuplicates(old(filters).assignee) ==> NoDuplicates(filters.assignee)
      ensures reported == filters
    {
      if NoDuplicates(filters.assignee) {
        ToggleNoDuplicates(filters.assignee, assigneeId);
      }
      filters := filters.(assignee := Toggle(filters.assignee, assigneeId));
      reported := filters;
    }

    /** `resetFilters()`: empty search and no list criteria. */
    method ResetFilters() returns (reported: FilterOptions)
      modifies this
      ensures filters == EmptyFilters && !HasActiveFilters(filters)
      ensures reported == filters
    {
      filters := EmptyFilters;
      reported := filters;
    }
  }
}
