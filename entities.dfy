/**
 * The two persisted record kinds, task and project, and the operations on a
 * list of tasks keyed by `Id` that both the task service and the pages use.
 */
module Entities {
  import opened Common
  import Seqs

  /** A point in time, in milliseconds since the epoch (what `new Date(x).getTime()` yields). */
  type Instant = int

  const Pending: string := "pending"
  const Completed: string := "completed"

  /**
   * A stored task. `dueDate` is None when the task has no due date or one that is
   * not a valid date; `status` is a free string because `update` stores whatever
   * it is given, although the tracker itself only writes "pending" and "completed".
   */
  datatype Task = Task(
    id: int,
    title: string,
    description: string,
    dueDate: Option<Instant>,
    priority: string,
    status: string,
    projectId: Option<int>,
    parentTaskId: Option<int>,
    isSubTask: bool,
    createdAt: Instant,
    completedAt: Option<Instant>)

  /** A stored project; `color` is an opaque token such as "#3b82f6". */
  datatype Project = Project(
    id: int,
    title: string,
    description: string,
    color: string,
    createdAt: Instant)

  predicate IsCompleted(t: Task)
  {
    t.status == Completed
  }

  predicate IsPending(t: Task)
  {
    t.status == Pending
  }

  /** `tasks.filter(t => t.Id !== id)`: every task with that id removed, the others kept in order. */
  function WithoutTask(tasks: seq<Task>, id: int): (r: seq<Task>)
    ensures forall t :: t in r <==> t in tasks && t.id != id
    ensures Seqs.IsSubsequence(r, tasks)
  {
    Seqs.Filter((t: Task) => t.id != id, tasks)
  }

  /** The list shrinks exactly when some task carries the id, and is returned unchanged otherwise. */
  lemma WithoutTaskShrinks(tasks: seq<Task>, id: int)
    ensures |WithoutTask(tasks, id)| < |tasks| <==> exists j :: 0 <= j < |tasks| && tasks[j].id == id
    ensures (forall j :: 0 <= j < |tasks| ==> tasks[j].id != id) ==> WithoutTask(tasks, id) == tasks
  {
    var keep := (t: Task) => t.id != id;
    if j :| 0 <= j < |tasks| && tasks[j].id == id {
      Seqs.FilterDropsFailing(keep, tasks, j);
    } else {
      Seqs.FilterKeepsAll(keep, tasks);
    }
  }

  /** `tasks.map(t => t.Id === id ? u : t)`: every task with that id replaced by `u`, the others untouched. */
  function ReplaceTask(tasks: seq<Task>, id: int, u: Task): (r: seq<Task>)
    ensures |r| == |tasks|
    ensures forall i :: 0 <= i < |tasks| ==> r[i] == if tasks[i].id == id then u else tasks[i]
  {
    seq(|tasks|, i requires 0 <= i < |tasks| => if tasks[i].id == id then u else tasks[i])
  }

  /** Replacing by the id of a task that is not in the list leaves the list as it is. */
  lemma ReplaceAbsentTask(tasks: seq<Task>, id: int, u: Task)
    requires forall j :: 0 <= j < |tasks| ==> tasks[j].id != id
    ensures ReplaceTask(tasks, id, u) == tasks
  {
  }

  /** The status a completion toggle moves a task to: a completed task reopens, any other becomes completed. */
  function ToggledStatus(status: string): (r: string)
    ensures r == Completed || r == Pending
    ensures r == Pending <==> status == Completed
  {
    if status == Completed then Pending else Completed
  }

  /** The completion instant a toggle records: cleared when reopening, `now` when completing. */
  function ToggledCompletedAt(status: string, now: Instant): (r: Option<Instant>)
    ensures r.None? <==> ToggledStatus(status) == Pending
    ensures r.Some? ==> r.value == now
  {
    if status == Completed then None else Some(now)
  }

  /** Toggling twice gives back a "pending" or "completed" status. */
  lemma ToggleTwice(status: string)
    requires status == Pending || status == Completed
    ensures ToggledStatus(ToggledStatus(status)) == status
  {
  }
}
