/**
 * The task list page: its search filter, its sort, its statistics cards, the
 * sort selector and the completion toggle.
 */
module TasksPage {
  import opened Common
  import opened Entities
  import Seqs
  import Ascii
  import TaskServiceApi
  import TaskRowMolecule

  const UpdateFailed: string := "Failed to update task"

  /** The search predicate: the lowercased query occurs in the lowercased title or the lowercased description. */
  predicate MatchesQuery(t: Task, query: string)
    ensures query == "" ==> MatchesQuery(t, query)
    ensures MatchesQuery(t, query) ==> |query| <= |t.title| || |query| <= |t.description|
  {
    var q := Ascii.Lower(query);
    Ascii.Contains(Ascii.Lower(t.title), q) || Ascii.Contains(Ascii.Lower(t.description), q)
  }

  /** The filter of the page's effect: the tasks matching the query, in their order. */
  function SearchFilter(tasks: seq<Task>, query: string): (r: seq<Task>)
    ensures forall t :: t in r <==> t in tasks && MatchesQuery(t, query)
    ensures Seqs.IsSubsequence(r, tasks)
  {
    Seqs.Filter((t: Task) => MatchesQuery(t, query), tasks)
  }

  /** An empty query keeps every task. */
  lemma EmptyQueryKeepsAll(tasks: seq<Task>)
    ensures SearchFilter(tasks, "") == tasks
  {
    forall t | t in tasks ensures MatchesQuery(t, "") {
      assert Ascii.Lower("") == "";
    }
    Seqs.FilterKeepsAll((t: Task) => MatchesQuery(t, ""), tasks);
  }

  /** The fixed priority order: High 3, Medium 2, Low 1, anything else 0. */
  function PriorityRank(priority: string): (r: int)
    ensures 0 <= r <= 3
    ensures r == 3 <==> priority == "High"
    ensures r == 2 <==> priority == "Medium"
    ensures r == 1 <==> priority == "Low"
  {
    if priority == "High" then 3
    else if priority == "Medium" then 2
    else if priority == "Low" then 1
    else 0
  }

  /** The field value the comparator subtracts, or None when `sortBy` names no known field. */
  function SortValue(t: Task, sortBy: string): (v: Option<int>)
    ensures v.None? <==> sortBy != "priority" && sortBy != "dueDate" && sortBy != "createdAt"
    ensures sortBy == "priority" ==> v == Some(PriorityRank(t.priority))
    ensures sortBy == "dueDate" && t.dueDate.None? ==> v == Some(0)
    ensures sortBy == "dueDate" && t.dueDate.Some? ==> v == t.dueDate
    ensures sortBy == "createdAt" ==> v == Some(t.createdAt)
  {
    if sortBy == "priority" then Some(PriorityRank(t.priority))
    else if sortBy == "dueDate" then Some(t.dueDate.GetOr(0))
    else if sortBy == "createdAt" then Some(t.createdAt)
    else None
  }

  /**
   * The comparator `(a, b) => ...` of `sortTasks` is `key(a) - key(b)` for this key: the
   * field value for "asc", its negation for any other order, and 0 when the field is unknown.
   */
  function SortKeyOf(t: Task, sortBy: string, sortOrder: Option<string>): (k: int)
    ensures SortValue(t, sortBy).None? ==> k == 0
    ensures SortValue(t, sortBy).Some? && sortOrder == Some("asc") ==> k == SortValue(t, sortBy).value
    ensures SortValue(t, sortBy).Some? && sortOrder != Some("asc") ==> k == -SortValue(t, sortBy).value
  {
    match SortValue(t, sortBy)
    case None => 0
    case Some(v) => if sortOrder == Some("asc") then v else -v
  }

  /** The comparator of `sortTasks` as written: 0 for an unknown field, else the difference of the two values, in the order's direction. */
  function Compare(a: Task, b: Task, sortBy: string, sortOrder: Option<string>): (r: int)
    ensures SortValue(a, sortBy).None? ==> r == 0
    ensures SortValue(a, sortBy).Some? && sortOrder == Some("asc") ==> r == SortValue(a, sortBy).value - SortValue(b, sortBy).value
    ensures SortValue(a, sortBy).Some? && sortOrder != Some("asc") ==> r == SortValue(b, sortBy).value - SortValue(a, sortBy).value
  {
    var aValue :=
      if sortBy == "priority" then PriorityRank(a.priority)
      else if sortBy == "dueDate" then (if a.dueDate.Some? then a.dueDate.value else 0)
      else a.createdAt;
    var bValue :=
      if sortBy == "priority" then PriorityRank(b.priority)
      else if sortBy == "dueDate" then (if b.dueDate.Some? then b.dueDate.value else 0)
      else b.createdAt;
    if sortBy != "priority" && sortBy != "dueDate" && sortBy != "createdAt" then 0
    else if sortOrder == Some("asc") then aValue - bValue
    else bValue - aValue
  }

  /** The comparator is the difference of the sort keys, so sorting by key is sorting under the comparator. */
  lemma CompareIsKeyDifference(a: Task, b: Task, sortBy: string, sortOrder: Option<string>)
    ensures Compare(a, b, sortBy, sortOrder) == SortKeyOf(a, sortBy, sortOrder) - SortKeyOf(b, sortBy, sortOrder)
    ensures Compare(a, b, sortBy, sortOrder) == -Compare(b, a, sortBy, sortOrder)
  {
  }

  function SortKey(sortBy: string, sortOrder: Option<string>): Task -> int
  {
    t => SortKeyOf(t, sortBy, sortOrder)
  }

  /** `sortTasks`: a stable sort of a copy of the tasks under the comparator. */
  function SortTasks(tasks: seq<Task>, sortBy: string, sortOrder: Option<string>): (r: seq<Task>)
    ensures multiset(r) == multiset(tasks)
    ensures forall i, j :: 0 <= i < j < |r| ==> SortKeyOf(r[i], sortBy, sortOrder) <= SortKeyOf(r[j], sortBy, sortOrder)
  {
    Seqs.SortBy(SortKey(sortBy, sortOrder), tasks)
  }

  /** Stability: the tasks that share a sort key keep their relative input order. */
  lemma SortTasksStable(tasks: seq<Task>, sortBy: string, sortOrder: Option<string>, k: int)
    ensures Seqs.KeyClass(SortKey(sortBy, sortOrder), k, SortTasks(tasks, sortBy, sortOrder))
         == Seqs.KeyClass(SortKey(sortBy, sortOrder), k, tasks)
  {
    Seqs.SortByStable(SortKey(sortBy, sortOrder), k, tasks);
  }

  /** An unknown field makes the comparator return 0, and the stable sort leaves the order as it was. */
  lemma SortByUnknownFieldKeepsOrder(tasks: seq<Task>, sortBy: string, sortOrder: Option<string>)
    requires sortBy != "priority" && sortBy != "dueDate" && sortBy != "createdAt"
    ensures SortTasks(tasks, sortBy, sortOrder) == tasks
  {
    Seqs.SortByConstantKey(SortKey(sortBy, sortOrder), 0, tasks);
  }

  /** By priority, any order other than "asc" puts higher ranks first; "asc" puts them last. */
  lemma SortByPriorityOrder(tasks: seq<Task>, sortOrder: Option<string>)
    ensures var r := SortTasks(tasks, "priority", sortOrder);
      forall i, j :: 0 <= i < j < |r| ==>
        if sortOrder == Some("asc") then PriorityRank(r[i].priority) <= PriorityRank(r[j].priority)
        else PriorityRank(r[i].priority) >= PriorityRank(r[j].priority)
  {
  }

  /** `value.split('-')` destructured into `[field, order]`; the order is None when there is no '-'. */
  function ParseSortOption(value: string): (r: (string, Option<string>))
    ensures '-' !in r.0
    ensures r.1.Some? ==> '-' !in r.1.value
    ensures r.1.None? ==> r.0 == value
  {
    var parts := Ascii.Split(value, '-');
    Ascii.JoinSplit(value, '-');
    (parts[0], if |parts| > 1 then Some(parts[1]) else None)
  }

  /** A value "field-order" or "field-order-..." parses into that field and that order. */
  lemma ParseSortOptionOf(field: string, order: string, rest: Option<string>)
    requires '-' !in field && '-' !in order
    ensures ParseSortOption(field + "-" + order + (if rest.Some? then "-" + rest.value else "")) == (field, Some(order))
  {
    if rest.Some? {
      var tail := order + "-" + rest.value;
      Ascii.SplitAtFirst(order, '-', rest.value);
      Ascii.SplitAtFirst(field, '-', tail);
      var v := field + "-" + order + (if rest.Some? then "-" + rest.value else "");
      assert v == field + "-" + tail;
      var parts := Ascii.Split(v, '-');
      assert parts == [field] + ([order] + Ascii.Split(rest.value, '-'));
      assert parts[0] == field && parts[1] == order;
    } else {
      Ascii.SplitWithoutSeparator(order, '-');
      Ascii.SplitAtFirst(field, '-', order);
      assert field + "-" + order + "" == field + "-" + order;
      assert Ascii.Split(field + "-" + order, '-') == [field, order];
    }
  }

  /** Both "Medium" sort options yield field "priority" and order "medium". */
  lemma MediumSortOptionsParse(option: string)
    requires option == "priority-medium-desc" || option == "priority-medium-asc"
    ensures ParseSortOption(option) == ("priority", Some("medium"))
  {
    NoDash();
    var last := if option == "priority-medium-desc" then "desc" else "asc";
    var rest := Some(last);
    ParseSortOptionOf("priority", "medium", rest);
    assert option == "priority" + "-" + "medium" + (if rest.Some? then "-" + rest.value else "");
  }

  lemma NoDash()
    ensures '-' !in "priority" && '-' !in "medium"
  {
  }

  /** Any order other than "asc", "medium" included, sorts exactly like "desc". */
  lemma NonAscOrderSortsDescending(tasks: seq<Task>, sortBy: string, order: Option<string>)
    requires order != Some("asc")
    ensures SortTasks(tasks, sortBy, order) == SortTasks(tasks, sortBy, Some("desc"))
  {
    Seqs.SortBySameKeys(SortKey(sortBy, order), SortKey(sortBy, Some("desc")), tasks);
  }

  /** The statistics cards. */
  datatype TaskStats = TaskStats(total: nat, completed: nat, pending: nat, overdue: nat)

  /** The overdue test of the statistics: not completed and due strictly before now (today included). */
  predicate CountsAsOverdue(t: Task, now: Instant)
    ensures CountsAsOverdue(t, now) ==> !IsCompleted(t) && t.dueDate.Some? && t.dueDate.value < now
  {
    t.status != Completed && t.dueDate.Some? && t.dueDate.value < now
  }

  function OverdueAt(now: Instant): Task -> bool
  {
    t => CountsAsOverdue(t, now)
  }

  /**
   * `getTaskStats`: the counts of completed, pending and overdue tasks; completed and pending never
   * exceed the total together, nor does overdue exceed the unfinished tasks.
   */
  function GetTaskStats(tasks: seq<Task>, now: Instant): (s: TaskStats)
    ensures s.total == |tasks|
    ensures s.completed == |Seqs.Filter(IsCompleted, tasks)|
    ensures s.pending == |Seqs.Filter(IsPending, tasks)|
    ensures s.overdue == |Seqs.Filter(OverdueAt(now), tasks)|
    ensures s.completed + s.pending <= s.total
    ensures s.overdue <= s.total - s.completed
  {
    Seqs.FilterComplement(IsCompleted, tasks);
    Seqs.FilterMonotone(IsPending, Seqs.Not(IsCompleted), tasks);
    Seqs.FilterMonotone(OverdueAt(now), Seqs.Not(IsCompleted), tasks);
    TaskStats(
      total := |tasks|,
      completed := |Seqs.Filter(IsCompleted, tasks)|,
      pending := |Seqs.Filter(IsPending, tasks)|,
      overdue := |Seqs.Filter(OverdueAt(now), tasks)|)
  }

  /** When every status is "pending" or "completed", as the tracker itself writes them, pending is total minus completed. */
  lemma {:induction false} StatsPartitionTwoStatuses(tasks: seq<Task>, now: Instant)
    requires forall t :: t in tasks ==> t.status == Pending || t.status == Completed
    ensures GetTaskStats(tasks, now).pending == |tasks| - GetTaskStats(tasks, now).completed
  {
    Seqs.FilterComplement(IsCompleted, tasks);
    Seqs.FilterAgreeing(IsPending, Seqs.Not(IsCompleted), tasks);
  }

  /** A task the row shows as overdue is counted as overdue by the statistics (the converse fails for tasks due earlier today). */
  lemma RowOverdueIsCounted(t: Task, now: Instant, dayOf: Instant -> int)
    ensures TaskRowMolecule.IsOverdue(t, now, dayOf) ==> CountsAsOverdue(t, now)
  {
  }

  /** The patch `handleToggleComplete` sends: every field of the task, with status and completion toggled. */
  function TogglePayload(task: Task, now: Instant): (p: TaskServiceApi.TaskPatch)
    ensures p.status == Some(ToggledStatus(task.status))
    ensures p.completedAt == Some(ToggledCompletedAt(task.status, now))
    ensures p.id == Some(task.id) && p.title == Some(task.title) && p.description == Some(task.description)
    ensures p.dueDate == Some(task.dueDate) && p.priority == Some(task.priority) && p.projectId == Some(task.projectId)
    ensures p.parentTaskId == Some(task.parentTaskId) && p.isSubTask == Some(task.isSubTask) && p.createdAt == Some(task.createdAt)
  {
    TaskServiceApi.TaskPatch(
      id := Some(task.id),
      title := Some(task.title),
      description := Some(task.description),
      dueDate := Some(task.dueDate),
      priority := Some(task.priority),
      status := Some(ToggledStatus(task.status)),
      projectId := Some(task.projectId),
      parentTaskId := Some(task.parentTaskId),
      isSubTask := Some(task.isSubTask),
      createdAt := Some(task.createdAt),
      completedAt := Some(ToggledCompletedAt(task.status, now)))
  }

  /** When the page's copy matches the stored task, the update flips status and completion and copies every other field. */
  lemma TogglePayloadUpdate(task: Task, now: Instant)
    ensures TaskServiceApi.MergeTask(task, TogglePayload(task, now), task.id)
         == task.(status := ToggledStatus(task.status), completedAt := ToggledCompletedAt(task.status, now))
  {
  }

  /**
   * Over any stored record with the task's id, the toggle stores the page's copy of the task with
   * status and completion flipped: the copy's fields overwrite the stored ones, except that a falsy
   * `parentTaskId` in the copy leaves the stored link in place.
   */
  lemma TogglePayloadOverStored(stored: Task, task: Task, now: Instant)
    ensures TaskServiceApi.MergeTask(stored, TogglePayload(task, now), task.id)
         == task.(status := ToggledStatus(task.status),
                  completedAt := ToggledCompletedAt(task.status, now),
                  parentTaskId := if task.parentTaskId.Some? && task.parentTaskId.value != 0 then task.parentTaskId else stored.parentTaskId)
  {
  }

  class Tasks {
    var tasks: seq<Task>
    var searchQuery: string
    var sortBy: string
    var sortOrder: Option<string>

    constructor()
      ensures tasks == [] && searchQuery == ""
      ensures sortBy == "createdAt" && sortOrder == Some("desc")
    {
      tasks, searchQuery := [], "";
      sortBy, sortOrder := "createdAt", Some("desc");
    }

    /** The list the page shows: what the effect computes from the current state. */
    function FilteredTasks(): (r: seq<Task>)
      reads this
      ensures r == SortTasks(SearchFilter(tasks, searchQuery), sortBy, sortOrder)
      ensures multiset(r) == multiset(SearchFilter(tasks, searchQuery))
      ensures forall t :: t in r <==> t in tasks && MatchesQuery(t, searchQuery)
      ensures forall i, j :: 0 <= i < j < |r| ==> SortKeyOf(r[i], sortBy, sortOrder) <= SortKeyOf(r[j], sortBy, sortOrder)
    {
      var f := SearchFilter(tasks, searchQuery);
      var r := SortTasks(f, sortBy, sortOrder);
      assert forall t :: t in r <==> t in multiset(f);
      r
    }

    method LoadTasks(svc: TaskServiceApi.TaskService)
      modifies this`tasks
      ensures tasks == svc.GetAll()
    {
      tasks := svc.GetAll();
    }

    method HandleSearch(query: string)
      modifies this`searchQuery
      ensures searchQuery == query
    {
      searchQuery := query;
    }

    method HandleSortChange(value: string)
      modifies this`sortBy, this`sortOrder
      ensures (sortBy, sortOrder) == ParseSortOption(value)
    {
      var parsed := ParseSortOption(value);
      sortBy, sortOrder := parsed.0, parsed.1;
    }

    /** `getTaskStats()` over the page's task list. */
    function Stats(now: Instant): (s: TaskStats)
      reads this
      ensures s.total == |tasks|
      ensures s.completed == |Seqs.Filter(IsCompleted, tasks)|
      ensures s.pending == |Seqs.Filter(IsPending, tasks)|
      ensures s.overdue == |Seqs.Filter(OverdueAt(now), tasks)|
    {
      GetTaskStats(tasks, now)
    }

    /**
     * Sends the toggle payload for the listed task and replaces it in the list with the stored result.
     * A task missing from the list, or a rejected update, leaves the list as it is and reports the failure.
     */
    method HandleToggleComplete(svc: TaskServiceApi.TaskService, taskId: int, now: Instant) returns (r: Result<Task>)
      modifies this`tasks, svc
      ensures TaskServiceApi.IndexOf(old(tasks), taskId) == -1 ==>
        r == Err(UpdateFailed) && tasks == old(tasks) && svc.storage == old(svc.storage)
      ensures TaskServiceApi.IndexOf(old(tasks), taskId) != -1 ==>
        var stored := old(svc.GetData());
        var u := TaskServiceApi.UpdateOutcome(stored, taskId, TogglePayload(old(tasks)[TaskServiceApi.IndexOf(old(tasks), taskId)], now));
        (u.Err? ==> r == Err(UpdateFailed) && tasks == old(tasks) && svc.storage == old(svc.storage)) &&
        (u.Ok? ==> r == u && tasks == ReplaceTask(old(tasks), taskId, u.value) &&
                   svc.storage == Some(stored[TaskServiceApi.IndexOf(stored, taskId) := u.value]))
    {
      var i := TaskServiceApi.IndexOf(tasks, taskId);
      if i == -1 {
        return Err(UpdateFailed);
      }
      var u := svc.Update(taskId, TogglePayload(tasks[i], now));
      if u.Err? {
        return Err(UpdateFailed);
      }
      tasks := ReplaceTask(tasks, taskId, u.value);
      r := u;
    }
  }
}
