/**
 * The project detail page: its local list of the project's tasks, the
 * handlers that keep that list in step with the task service, and the
 * project's completion statistics.
 */
module ProjectDetailPage {
  import opened Common
  import opened Entities
  import Seqs
  import TaskServiceApi

  const UpdateFailed: string := "Failed to update task"
  const DeleteFailed: string := "Failed to delete task"

  /** Multiplying by a non-negative factor keeps the order. */
  lemma MulLeMul(d: int, a: int, b: int)
    requires 0 <= d && a <= b
    ensures d * a <= d * b
  {
    assert d * b - d * a == d * (b - a);
  }

  /** Euclidean division: `x / d` is the `q` with `d * q <= x < d * (q + 1)`, for a positive divisor. */
  lemma DivIsUnique(x: int, d: int, q: int)
    requires d > 0 && d * q <= x < d * (q + 1)
    ensures x / d == q
  {
    var r := x / d;
    assert d * r <= x < d * r + d;
    assert d * (q + 1) == d * q + d;
    if r < q {
      MulLeMul(d, r + 1, q);
    } else if r > q {
      MulLeMul(d, q + 1, r);
    }
  }

  /** The quotient `(200 * completed + total) / (2 * total)` lies in 0..100 and hits both ends where it should. */
  lemma RoundedPercentageFacts(completed: nat, total: nat)
    requires 0 < total && completed <= total
    ensures var p := (200 * completed + total) / (2 * total);
      0 <= p <= 100 &&
      2 * total * p <= 200 * completed + total < 2 * total * (p + 1) &&
      (completed == 0 ==> p == 0) &&
      (completed == total ==> p == 100)
  {
    var x, d := 200 * completed + total, 2 * total;
    var p := x / d;
    assert d * p <= x < d * p + d;
    assert d * (p + 1) == d * p + d;
    MulLeMul(200, completed, total);
    assert x < d * 101;
    if p > 100 {
      MulLeMul(d, 101, p);
    }
    if completed == 0 {
      DivIsUnique(x, d, 0);
    }
    if completed == total {
      DivIsUnique(x, d, 100);
    }
  }

  /**
   * `Math.round(completed / total * 100)`, and 0 when there are no tasks, computed
   * exactly: the nearest integer to the percentage, halves rounded up.
   */
  function CompletionPercentage(completed: nat, total: nat): (p: int)
    requires completed <= total
    ensures 0 <= p <= 100
    ensures total == 0 ==> p == 0
    ensures total > 0 ==> 2 * total * p <= 200 * completed + total < 2 * total * (p + 1)
    ensures completed == 0 ==> p == 0
    ensures 0 < total == completed ==> p == 100
  {
    if total == 0 then 0
    else
      RoundedPercentageFacts(completed, total);
      (200 * completed + total) / (2 * total)
  }

  /** One of three completed is 33%, two of three 67%: rounding, not truncation. */
  lemma CompletionPercentageThirds()
    ensures CompletionPercentage(1, 3) == 33
    ensures CompletionPercentage(2, 3) == 67
  {
    DivIsUnique(203, 6, 33);
    DivIsUnique(403, 6, 67);
  }

  /** The project's statistics cards. */
  datatype ProjectStats = ProjectStats(totalTasks: nat, completedTasks: nat, pendingTasks: int, completionPercentage: int)

  /** `getProjectStats`: pending are the tasks not completed, and the percentage is in 0..100. */
  function GetProjectStats(tasks: seq<Task>): (s: ProjectStats)
    ensures s.totalTasks == |tasks|
    ensures s.completedTasks == |Seqs.Filter(IsCompleted, tasks)|
    ensures s.pendingTasks == |Seqs.Filter(Seqs.Not(IsCompleted), tasks)|
    ensures s.completedTasks + s.pendingTasks == s.totalTasks
    ensures 0 <= s.completionPercentage <= 100
    ensures s.completedTasks == 0 ==> s.completionPercentage == 0
    ensures 0 < s.totalTasks == s.completedTasks ==> s.completionPercentage == 100
    ensures s.completionPercentage == CompletionPercentage(s.completedTasks, s.totalTasks)
  {
    var completed := Seqs.Filter(IsCompleted, tasks);
    Seqs.FilterComplement(IsCompleted, tasks);
    ProjectStats(
      totalTasks := |tasks|,
      completedTasks := |completed|,
      pendingTasks := |tasks| - |completed|,
      completionPercentage := CompletionPercentage(|completed|, |tasks|))
  }

  /** A project with no completed task shows 0%, one whose tasks are all completed 100%. */
  lemma {:induction false} ProjectStatsExtremes(tasks: seq<Task>)
    ensures (forall t :: t in tasks ==> !IsCompleted(t)) ==> GetProjectStats(tasks).completionPercentage == 0
    ensures tasks != [] && (forall t :: t in tasks ==> IsCompleted(t)) ==> GetProjectStats(tasks).completionPercentage == 100
  {
    if forall t :: t in tasks ==> !IsCompleted(t) {
      Seqs.FilterKeepsNone(IsCompleted, tasks);
    }
    if forall t :: t in tasks ==> IsCompleted(t) {
      Seqs.FilterKeepsAll(IsCompleted, tasks);
    }
  }

  /** The argument `handleCreateTask` passes to `create`: the form data with `projectId` overridden by the route's id. */
  function CreatePayload(formData: TaskServiceApi.TaskInput, routeId: int): (d: TaskServiceApi.TaskInput)
    ensures d.projectId == Some(routeId)
    ensures d.(projectId := formData.projectId) == formData
  {
    formData.(projectId := Some(routeId))
  }

  /** Whatever project the form names, the created task belongs to the page's project (a route id of 0 is falsy and stores null). */
  lemma CreatedTaskBelongsToRoute(formData: TaskServiceApi.TaskInput, routeId: int, id: int, now: Instant)
    ensures var t := TaskServiceApi.NewTask(CreatePayload(formData, routeId), id, now);
      (routeId != 0 ==> t.projectId == Some(routeId)) && (routeId == 0 ==> t.projectId.None?)
  {
  }

  /** The patch the page's toggle sends: only the status and the completion instant. */
  function StatusPayload(task: Task, now: Instant): (p: TaskServiceApi.TaskPatch)
    ensures p == TaskServiceApi.EmptyPatch.(status := p.status, completedAt := p.completedAt)
    ensures p.status == Some(ToggledStatus(task.status))
    ensures p.completedAt == Some(ToggledCompletedAt(task.status, now))
  {
    TaskServiceApi.EmptyPatch.(
      status := Some(ToggledStatus(task.status)),
      completedAt := Some(ToggledCompletedAt(task.status, now)))
  }

  /** The stored task keeps every field but status and completion, which follow the page's copy of the task. */
  lemma StatusPayloadUpdate(stored: Task, task: Task, now: Instant)
    ensures TaskServiceApi.MergeTask(stored, StatusPayload(task, now), stored.id)
         == stored.(status := ToggledStatus(task.status), completedAt := ToggledCompletedAt(task.status, now))
  {
  }

  class ProjectDetail {
    /** `parseInt(id)` of the route parameter. */
    const routeId: int
    var tasks: seq<Task>

    constructor(routeId: int)
      ensures this.routeId == routeId && tasks == []
    {
      this.routeId := routeId;
      tasks := [];
    }

    /** `getProjectStats()` over the page's task list. */
    function Stats(): (s: ProjectStats)
      reads this
      ensures s.totalTasks == |tasks|
      ensures s.completedTasks == |Seqs.Filter(IsCompleted, tasks)|
      ensures s.pendingTasks == s.totalTasks - s.completedTasks
      ensures s.completionPercentage == CompletionPercentage(s.completedTasks, s.totalTasks)
    {
      GetProjectStats(tasks)
    }

    /** The task half of `loadData`: the page lists the project's tasks in stored order. */
    method LoadTasks(svc: TaskServiceApi.TaskService)
      modifies this`tasks
      ensures tasks == svc.GetByProject(routeId)
    {
      tasks := svc.GetByProject(routeId);
    }

    /** Creates the task in this project and puts it at the head of the local list. */
    method HandleCreateTask(svc: TaskServiceApi.TaskService, formData: TaskServiceApi.TaskInput, now: Instant) returns (t: Task)
      modifies this`tasks, svc
      ensures t == TaskServiceApi.NewTask(CreatePayload(formData, routeId), TaskServiceApi.NextId(old(svc.GetData())), now)
      ensures svc.storage == Some([t] + old(svc.GetData()))
      ensures tasks == [t] + old(tasks)
    {
      t := svc.Create(CreatePayload(formData, routeId), now);
      tasks := [t] + tasks;
    }

    /**
     * Sends the status toggle for the listed task and replaces every local entry with
     * that id by the stored result. A task missing from the list, or a rejected update,
     * leaves the list as it is and reports the failure.
     */
    method HandleToggleComplete(svc: TaskServiceApi.TaskService, taskId: int, now: Instant) returns (r: Result<Task>)
      modifies this`tasks, svc
      ensures TaskServiceApi.IndexOf(old(tasks), taskId) == -1 ==>
        r == Err(UpdateFailed) && tasks == old(tasks) && svc.storage == old(svc.storage)
      ensures TaskServiceApi.IndexOf(old(tasks), taskId) != -1 ==>
        var stored := old(svc.GetData());
        var u := TaskServiceApi.UpdateOutcome(stored, taskId, StatusPayload(old(tasks)[TaskServiceApi.IndexOf(old(tasks), taskId)], now));
        (u.Err? ==> r == Err(UpdateFailed) && tasks == old(tasks) && svc.storage == old(svc.storage)) &&
        (u.Ok? ==> r == u && tasks == ReplaceTask(old(tasks), taskId, u.value) &&
                   svc.storage == Some(stored[TaskServiceApi.IndexOf(stored, taskId) := u.value]))
    {
      var i := TaskServiceApi.IndexOf(tasks, taskId);
      if i == -1 {
        return Err(UpdateFailed);
      }
      var u := svc.Update(taskId, StatusPayload(tasks[i], now));
      if u.Err? {
        return Err(UpdateFailed);
      }
      tasks := ReplaceTask(tasks, taskId, u.value);
      r := u;
    }

    /**
     * Unless the user declines the confirmation, deletes the task in the service and drops
     * every local entry with its id; a declined or rejected delete changes nothing.
     */
    method HandleDeleteTask(svc: TaskServiceApi.TaskService, taskId: int, confirmed: bool) returns (r: Option<Result<Task>>)
      modifies this`tasks, svc
      ensures !confirmed ==> r.None? && tasks == old(tasks) && svc.storage == old(svc.storage)
      ensures confirmed ==> r.Some? && var d := TaskServiceApi.Lookup(old(svc.GetData()), taskId);
        (d.Err? ==> r.value == Err(DeleteFailed) && tasks == old(tasks) && svc.storage == old(svc.storage)) &&
        (d.Ok? ==> r.value == d && tasks == WithoutTask(old(tasks), taskId) &&
                   svc.storage == Some(WithoutTask(old(svc.GetData()), taskId)))
    {
      if !confirmed {
        return None;
      }
      var d := svc.Delete(taskId);
      if d.Err? {
        return Some(Err(DeleteFailed));
      }
      tasks := WithoutTask(tasks, taskId);
      r := Some(d);
    }
  }
}
