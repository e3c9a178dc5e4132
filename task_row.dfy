/**
 * The derived display state of one task row: whether the task is overdue, and
 * the priority and status badges.
 */
module TaskRowMolecule {
  import opened Entities
  import Ascii

  /** date-fns `isPast`: strictly before the current instant. */
  predicate IsPast(d: Instant, now: Instant)
  {
    d < now
  }

  /** date-fns `isToday`: on the same local calendar day as now; `dayOf` gives the calendar day of an instant. */
  predicate IsToday(d: Instant, now: Instant, dayOf: Instant -> int)
  {
    dayOf(d) == dayOf(now)
  }

  /** A task is overdue when it has a valid due date that is past and not today, and it is not completed. */
  predicate IsOverdue(task: Task, now: Instant, dayOf: Instant -> int)
    ensures IsOverdue(task, now, dayOf) ==> task.dueDate.Some? && task.dueDate.value < now && !IsCompleted(task)
  {
    match task.dueDate
    case None => false
    case Some(d) => IsPast(d, now) && !IsToday(d, now, dayOf) && task.status != Completed
  }

  /** Overdue exactly when all three conditions hold of the due date; a completed task never is. */
  lemma OverdueIff(task: Task, now: Instant, dayOf: Instant -> int)
    ensures IsOverdue(task, now, dayOf) <==>
      task.dueDate.Some? && task.dueDate.value < now && dayOf(task.dueDate.value) != dayOf(now) && !IsCompleted(task)
    ensures IsCompleted(task) ==> !IsOverdue(task, now, dayOf)
    ensures task.dueDate.None? ==> !IsOverdue(task, now, dayOf)
  {
  }

  /** `getPriorityVariant`: the lowercased priority when it is a known level, "default" otherwise. */
  function PriorityVariant(priority: string): (v: string)
    ensures v == "high" || v == "medium" || v == "low" || v == "default"
    ensures v != "default" ==> v == Ascii.Lower(priority)
    ensures v == "default" <==> Ascii.Lower(priority) != "high" && Ascii.Lower(priority) != "medium" && Ascii.Lower(priority) != "low"
  {
    var p := Ascii.Lower(priority);
    if p == "high" then "high"
    else if p == "medium" then "medium"
    else if p == "low" then "low"
    else "default"
  }

  /** The variant ignores case: any spelling of a priority gets the variant of its lowercase form. */
  lemma PriorityVariantIgnoresCase(priority: string)
    ensures PriorityVariant(Ascii.Lower(priority)) == PriorityVariant(priority)
  {
    Ascii.LowerIdempotent(priority);
  }

  /** The three priorities the task form offers map to their own variants. */
  lemma PriorityVariantOfFormLevels()
    ensures PriorityVariant("High") == "high"
    ensures PriorityVariant("Medium") == "medium"
    ensures PriorityVariant("Low") == "low"
  {
    assert Ascii.Lower("High") == "high";
    assert Ascii.Lower("Medium") == "medium";
    assert Ascii.Lower("Low") == "low";
  }

  /** `getStatusVariant`: completed takes precedence over overdue, which takes precedence over pending. */
  function StatusVariant(task: Task, now: Instant, dayOf: Instant -> int): (v: string)
    ensures v == "completed" <==> IsCompleted(task)
    ensures v == "overdue" <==> IsOverdue(task, now, dayOf)
    ensures v == "pending" <==> !IsCompleted(task) && !IsOverdue(task, now, dayOf)
  {
    if task.status == Completed then "completed"
    else if IsOverdue(task, now, dayOf) then "overdue"
    else "pending"
  }

  /** The text of the status badge. */
  function StatusLabel(task: Task, now: Instant, dayOf: Instant -> int): (shown: string)
    ensures shown == "Completed" <==> IsCompleted(task)
    ensures shown == "Overdue" <==> IsOverdue(task, now, dayOf)
    ensures shown == "Pending" <==> !IsCompleted(task) && !IsOverdue(task, now, dayOf)
  {
    if task.status == Completed then "Completed"
    else if IsOverdue(task, now, dayOf) then "Overdue"
    else "Pending"
  }

  /** The badge text always names the badge variant. */
  lemma StatusLabelMatchesVariant(task: Task, now: Instant, dayOf: Instant -> int)
    ensures var v, l := StatusVariant(task, now, dayOf), StatusLabel(task, now, dayOf);
      (v == "completed" && l == "Completed") || (v == "overdue" && l == "Overdue") || (v == "pending" && l == "Pending")
  {
  }
}
