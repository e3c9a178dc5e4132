/**
 * The task service: CRUD over the task collection kept in local storage under
 * "taskflow_tasks". The collection is newest-first because `create` prepends.
 */
module TaskServiceApi {
  import opened Common
  import opened Entities
  import Seqs

  const TaskNotFound: string := "Task not found"

  /**
   * The argument of `create`, as the callers build it. A None field is a key that is
   * absent (or null); `title`, `dueDate` and `priority` are stored as given.
   */
  datatype TaskInput = TaskInput(
    title: string,
    description: Option<string>,
    dueDate: Option<Instant>,
    priority: string,
    projectId: Option<int>,
    parentTaskId: Option<int>,
    isSubTask: Option<bool>)

  /**
   * The partial record given to `update`: each field is None when the key is absent.
   * For the nullable fields, `Some(None)` is an explicit null.
   */
  datatype TaskPatch = TaskPatch(
    id: Option<int>,
    title: Option<string>,
    description: Option<string>,
    dueDate: Option<Option<Instant>>,
    priority: Option<string>,
    status: Option<string>,
    projectId: Option<Option<int>>,
    parentTaskId: Option<Option<int>>,
    isSubTask: Option<bool>,
    createdAt: Option<Instant>,
    completedAt: Option<Option<Instant>>)

  /** `{}`: a patch with no keys. */
  const EmptyPatch: TaskPatch := TaskPatch(None, None, None, None, None, None, None, None, None, None, None)

  /** `x || null` for an id: null and 0 are falsy and become null, any other id is kept. */
  function OrNull(x: Option<int>): (r: Option<int>)
    ensures r.None? <==> x.None? || x.value == 0
    ensures r.Some? ==> r == x
  {
    if x.Some? && x.value != 0 then x else None
  }

  /** The key is present and holds a truthy id (neither null nor 0). */
  predicate IsTruthyId(x: Option<Option<int>>)
  {
    x.Some? && x.value.Some? && x.value.value != 0
  }

  /** `tasks.map(t => t.Id)`. */
  function Ids(tasks: seq<Task>): (ids: seq<int>)
    ensures |ids| == |tasks|
    ensures forall i :: 0 <= i < |tasks| ==> ids[i] == tasks[i].id
  {
    seq(|tasks|, i requires 0 <= i < |tasks| => tasks[i].id)
  }

  /** `Math.max(...tasks.map(t => t.Id), 0) + 1`: 1 on an empty collection, and above every stored id. */
  function NextId(tasks: seq<Task>): (id: int)
    ensures 1 <= id
    ensures tasks == [] ==> id == 1
    ensures forall t :: t in tasks ==> t.id < id
    ensures id == 1 || exists t :: t in tasks && t.id == id - 1
  {
    var ids := Ids(tasks);
    var m := Seqs.MaxOrZero(ids);
    assert forall t :: t in tasks ==> t.id in ids by {
      forall t | t in tasks ensures t.id in ids {
        var i :| 0 <= i < |tasks| && tasks[i] == t;
        assert ids[i] == t.id;
      }
    }
    m + 1
  }

  /** After a create, the next id is one more than the id just given out: successive creates yield consecutive ids. */
  lemma {:induction false} NextIdAfterCreate(tasks: seq<Task>, t: Task)
    requires t.id == NextId(tasks)
    ensures NextId([t] + tasks) == t.id + 1
  {
    var ids := Ids([t] + tasks);
    assert ids == [t.id] + Ids(tasks);
    assert ids[1..] == Ids(tasks);
  }

  /** The record `create` builds from its argument. */
  function NewTask(data: TaskInput, id: int, now: Instant): (t: Task)
    ensures t.id == id && t.createdAt == now
    ensures t.status == Pending && t.completedAt.None?
    ensures t.title == data.title && t.dueDate == data.dueDate && t.priority == data.priority
    ensures t.description == "" <==> data.description.None? || data.description.value == ""
    ensures data.description.Some? ==> t.description == data.description.value
    ensures t.projectId.None? <==> data.projectId.None? || data.projectId.value == 0
    ensures t.parentTaskId.None? <==> data.parentTaskId.None? || data.parentTaskId.value == 0
    ensures t.projectId.Some? ==> t.projectId == data.projectId
    ensures t.parentTaskId.Some? ==> t.parentTaskId == data.parentTaskId
    ensures t.isSubTask <==> data.isSubTask == Some(true)
  {
    Task(
      id := id,
      title := data.title,
      description := data.description.GetOr(""),
      dueDate := data.dueDate,
      priority := data.priority,
      status := Pending,
      projectId := OrNull(data.projectId),
      parentTaskId := OrNull(data.parentTaskId),
      isSubTask := data.isSubTask.GetOr(false),
      createdAt := now,
      completedAt := None)
  }

  /** `tasks.findIndex(t => t.Id === id)`. */
  function IndexOf(tasks: seq<Task>, id: int): (i: int)
    ensures -1 <= i < |tasks|
    ensures 0 <= i ==> tasks[i].id == id && forall j :: 0 <= j < i ==> tasks[j].id != id
    ensures i == -1 <==> forall j :: 0 <= j < |tasks| ==> tasks[j].id != id
  {
    Seqs.FindIndex((t: Task) => t.id == id, tasks)
  }

  /** `getById`: the first task carrying the id, or "Task not found". */
  function Lookup(tasks: seq<Task>, id: int): (r: Result<Task>)
    ensures r.Err? <==> forall j :: 0 <= j < |tasks| ==> tasks[j].id != id
    ensures r.Err? ==> r.message == TaskNotFound
    ensures r.Ok? ==> r.value.id == id
    ensures r.Ok? ==> exists i :: 0 <= i < |tasks| && tasks[i] == r.value && forall j :: 0 <= j < i ==> tasks[j].id != id
  {
    var i := IndexOf(tasks, id);
    if i == -1 then Err(TaskNotFound) else Ok(tasks[i])
  }

  /** `getByProject`: exactly the tasks whose project is `projectId`, in stored order. */
  function ByProject(tasks: seq<Task>, projectId: int): (r: seq<Task>)
    ensures forall t :: t in r <==> t in tasks && t.projectId == Some(projectId)
    ensures Seqs.IsSubsequence(r, tasks)
  {
    Seqs.Filter((t: Task) => t.projectId == Some(projectId), tasks)
  }

  /** A task created in a project is the first of that project's tasks afterwards, ahead of the earlier ones. */
  lemma ByProjectAfterCreate(tasks: seq<Task>, t: Task, projectId: int)
    requires t.projectId == Some(projectId)
    ensures ByProject([t] + tasks, projectId) == [t] + ByProject(tasks, projectId)
  {
    assert ([t] + tasks)[1..] == tasks;
  }

  /**
   * The record `update` stores: the patch spread over the stored task, `Id` forced
   * back to `id`, `parentTaskId` kept unless the patch holds a truthy one, and
   * `isSubTask` kept unless the patch has the key.
   */
  function MergeTask(current: Task, patch: TaskPatch, id: int): (t: Task)
    ensures t.id == id
    ensures patch.title.Some? ==> t.title == patch.title.value
    ensures patch.title.None? ==> t.title == current.title
    ensures patch.description.Some? ==> t.description == patch.description.value
    ensures patch.description.None? ==> t.description == current.description
    ensures patch.dueDate.Some? ==> t.dueDate == patch.dueDate.value
    ensures patch.dueDate.None? ==> t.dueDate == current.dueDate
    ensures patch.priority.Some? ==> t.priority == patch.priority.value
    ensures patch.priority.None? ==> t.priority == current.priority
    ensures patch.status.Some? ==> t.status == patch.status.value
    ensures patch.status.None? ==> t.status == current.status
    ensures patch.projectId.Some? ==> t.projectId == patch.projectId.value
    ensures patch.projectId.None? ==> t.projectId == current.projectId
    ensures IsTruthyId(patch.parentTaskId) ==> t.parentTaskId == patch.parentTaskId.value
    ensures !IsTruthyId(patch.parentTaskId) ==> t.parentTaskId == current.parentTaskId
    ensures current.parentTaskId.Some? ==> t.parentTaskId.Some?
    ensures patch.isSubTask.Some? ==> t.isSubTask == patch.isSubTask.value
    ensures patch.isSubTask.None? ==> t.isSubTask == current.isSubTask
    ensures patch.createdAt.Some? ==> t.createdAt == patch.createdAt.value
    ensures patch.createdAt.None? ==> t.createdAt == current.createdAt
    ensures patch.completedAt.Some? ==> t.completedAt == patch.completedAt.value
    ensures patch.completedAt.None? ==> t.completedAt == current.completedAt
  {
    Task(
      id := id,
      title := patch.title.GetOr(current.title),
      description := patch.description.GetOr(current.description),
      dueDate := patch.dueDate.GetOr(current.dueDate),
      priority := patch.priority.GetOr(current.priority),
      status := patch.status.GetOr(current.status),
      projectId := patch.projectId.GetOr(current.projectId),
      parentTaskId := if IsTruthyId(patch.parentTaskId) then patch.parentTaskId.value else current.parentTaskId,
      isSubTask := patch.isSubTask.GetOr(current.isSubTask),
      createdAt := patch.createdAt.GetOr(current.createdAt),
      completedAt := patch.completedAt.GetOr(current.completedAt))
  }

  /** `update(id, {})` stores the task exactly as it was. */
  lemma MergeEmptyPatch(t: Task)
    ensures MergeTask(t, EmptyPatch, t.id) == t
  {
  }

  /** Applying the same patch twice stores the same record as applying it once. */
  lemma MergeIdempotent(t: Task, patch: TaskPatch, id: int)
    ensures MergeTask(MergeTask(t, patch, id), patch, id) == MergeTask(t, patch, id)
  {
  }

  /** The value `update` resolves with or the error it rejects with. */
  function UpdateOutcome(tasks: seq<Task>, id: int, patch: TaskPatch): (r: Result<Task>)
    ensures r.Err? <==> forall j :: 0 <= j < |tasks| ==> tasks[j].id != id
    ensures r.Err? ==> r.message == TaskNotFound
    ensures r.Ok? ==> r.value == MergeTask(Lookup(tasks, id).value, patch, id)
  {
    var i := IndexOf(tasks, id);
    if i == -1 then Err(TaskNotFound) else Ok(MergeTask(tasks[i], patch, id))
  }

  /** An empty patch changes nothing: `update(id, {})` resolves with the stored task and writes the collection back unchanged. */
  lemma {:induction false} UpdateWithEmptyPatch(tasks: seq<Task>, id: int)
    ensures UpdateOutcome(tasks, id, EmptyPatch) == Lookup(tasks, id)
    ensures UpdateOutcome(tasks, id, EmptyPatch).Ok? ==> tasks[IndexOf(tasks, id) := Lookup(tasks, id).value] == tasks
  {
    var i := IndexOf(tasks, id);
    if i != -1 {
      MergeEmptyPatch(tasks[i]);
    }
  }

  /** After a delete, looking the id up fails. */
  lemma DeleteThenLookupFails(tasks: seq<Task>, id: int)
    ensures Lookup(WithoutTask(tasks, id), id).Err?
  {
    var r := WithoutTask(tasks, id);
    forall j | 0 <= j < |r| ensures r[j].id != id {
      assert r[j] in r;
    }
  }

  class TaskService {
    /** The "taskflow_tasks" entry of local storage; None while the key is absent. */
    var storage: Option<seq<Task>>

    /** Opens the service over the current storage entry, seeding it on first use. */
    constructor(stored: Option<seq<Task>>, seed: seq<Task>)
      ensures storage == Some(stored.GetOr(seed))
    {
      storage := stored;
      new;
      InitializeData(seed);
    }

    /** Writes the seed only when nothing is stored, so saved state is never overwritten. */
    method InitializeData(seed: seq<Task>)
      modifies this
      ensures old(storage).None? ==> storage == Some(seed)
      ensures old(storage).Some? ==> storage == old(storage)
    {
      if storage.None? {
        storage := Some(seed);
      }
    }

    /** `getData`: the stored collection, or [] when nothing is stored. */
    function GetData(): (tasks: seq<Task>)
      reads this
      ensures storage.None? ==> tasks == []
      ensures storage.Some? ==> tasks == storage.value
    {
      storage.GetOr([])
    }

    function GetAll(): seq<Task>
      reads this
    {
      GetData()
    }

    function GetById(id: int): Result<Task>
      reads this
    {
      Lookup(GetData(), id)
    }

    function GetByProject(projectId: int): seq<Task>
      reads this
    {
      ByProject(GetData(), projectId)
    }

    /** Allocates the next id, prepends the new task and saves. */
    method Create(data: TaskInput, now: Instant) returns (t: Task)
      modifies this
      ensures t == NewTask(data, NextId(old(GetData())), now)
      ensures storage == Some([t] + old(GetData()))
    {
      var tasks := GetData();
      t := NewTask(data, NextId(tasks), now);
      storage := Some([t] + tasks);
    }

    /** Replaces the first task with the id by the merged record, or rejects and writes nothing. */
    method Update(id: int, patch: TaskPatch) returns (r: Result<Task>)
      modifies this
      ensures r == UpdateOutcome(old(GetData()), id, patch)
      ensures r.Err? ==> storage == old(storage)
      ensures r.Ok? ==> storage == Some(old(GetData())[IndexOf(old(GetData()), id) := r.value])
    {
      var tasks := GetData();
      var i := IndexOf(tasks, id);
      if i == -1 {
        return Err(TaskNotFound);
      }
      var updated := MergeTask(tasks[i], patch, id);
      storage := Some(tasks[i := updated]);
      r := Ok(updated);
    }

    /** Removes every task with the id and resolves with the first of them, or rejects and writes nothing. */
    method Delete(id: int) returns (r: Result<Task>)
      modifies this
      ensures r == Lookup(old(GetData()), id)
      ensures r.Err? ==> storage == old(storage)
      ensures r.Ok? ==> storage == Some(WithoutTask(old(GetData()), id))
    {
      var tasks := GetData();
      var i := IndexOf(tasks, id);
      if i == -1 {
        return Err(TaskNotFound);
      }
      storage := Some(WithoutTask(tasks, id));
      r := Ok(tasks[i]);
    }
  }
}
