# TaskFlow core, modelled in Dafny

TaskFlow is a small task tracker written in React. Tasks and projects live in
the browser's `localStorage` behind two service singletons, `TaskService` and
`ProjectService`. Three pieces of the UI hold logic that needs checking:

- the Tasks page searches, sorts and counts tasks;
- the project detail page keeps a local task list in step with the service and
  shows a completion percentage;
- the task row decides whether a task is overdue and which badges to show.

Two forms validate their input before handing it on.

This project models that core and proves what it promises. Each source file has
its own module:

| module | models |
|---|---|
| `Common` | `Option` and `Result`; a rejected promise is `Err(message)` |
| `Seqs` | the array operations the code relies on: `filter`, `findIndex`, `Math.max(..., 0)` and the stable `sort` |
| `Ascii` | `toLowerCase`, `includes`, `trim` and `split`, over ASCII |
| `Entities` | the task and project records, and the id-keyed list edits (`filter` out, `map` replace) |
| `TaskServiceApi`, `ProjectServiceApi` | the services |
| `TaskRowMolecule` | the task row |
| `TasksPage` | the Tasks page |
| `ProjectDetailPage` | the project detail page |
| `TaskFormMolecule`, `ProjectFormMolecule` | the two forms |

How state and values are represented:

- Each service is a class. Its field `storage: Option<seq<...>>` is the stored
  JSON array, and `None` means the storage key is absent.
- `Create`, `Update` and `Delete` are methods. Each one ties the new storage to a
  pure function of the old storage (`NewTask`, `UpdateOutcome`, `WithoutTask`).
- The pages and forms are classes too. Their fields are the React state the
  handlers update.
- Time is an integer `Instant`, and the clock is a `now` parameter. A missing or
  unparseable due date is `None`. "Same calendar day" is an uninterpreted
  `dayOf` parameter.

JavaScript behaviour the code depends on is written out:

- falsy ids (`0`, `null`) become `null`;
- `description || ""`;
- the `parentTaskId` and `isSubTask` fallbacks in `update`;
- `Id` is forced on update;
- `value.split('-')` is destructured into two names;
- `priorityOrder[p] || 0`;
- a comparator that returns `0` for an unknown sort field;
- `Math.round` of the completion ratio is an exact integer round-half-up.

Some behaviour is modelled exactly as written:

- The sort option "Medium (Low to High)" has the value `priority-medium-asc`.
  It splits into the field `priority` and the order `medium`, so it sorts High
  to Low, exactly like `priority-medium-desc` and `priority-desc`. See
  `MediumSortOptionsParse` and `NonAscOrderSortsDescending`.
- A task with no due date sorts by `dueDate` with key 0, the epoch
  (Tasks.jsx:53-54). Under "asc" it therefore sorts before every task due after
  1970, and under any other order after them. See `SortValue`.
- The Tasks page counts as pending only tasks whose status is `"pending"`, not
  every task that is not completed. `StatsPartitionTwoStatuses` shows that the
  two agree when only the two statuses the tracker writes occur. The project
  page does use total minus completed.
- The statistics count a task due earlier today as overdue; the row does not
  show it as overdue. `RowOverdueIsCounted` proves the direction that holds.

## Model

| member | source | states |
|---|---|---|
| Seqs.Filter | src/components/pages/Tasks.jsx:73-76 | `filter` keeps exactly the elements that pass, in their original order (a subsequence), and never grows the list |
| Seqs.FilterComplement | src/components/pages/ProjectDetail.jsx:93-97 | the elements that pass a test and those that fail it add up to the whole list |
| Seqs.FilterMonotone | src/components/pages/Tasks.jsx:121-127 | a weaker test never keeps fewer elements, which bounds each statistic by the one it refines |
| Seqs.FilterAgreeing | src/components/pages/Tasks.jsx:121-122 | two tests that agree on every element keep the same elements |
| Seqs.FilterKeepsAll | src/components/pages/ProjectDetail.jsx:88 | a test every element passes keeps the whole list |
| Seqs.FilterKeepsNone | src/components/pages/ProjectDetail.jsx:88 | a test no element passes keeps nothing |
| Seqs.FilterDropsFailing | src/services/api/taskService.js:119 | a list that holds an element failing the test shrinks strictly |
| Seqs.FindIndex | src/services/api/taskService.js:86 | `findIndex` gives the first index whose element passes, or -1 exactly when none does |
| Seqs.MaxOrZero | src/services/api/taskService.js:61 | `Math.max(...xs, 0)` is at least 0 and at least every element, and is 0 or one of the elements |
| Seqs.InsertBy | src/components/pages/Tasks.jsx:43 | inserting into a list sorted by key keeps it sorted, adds exactly that element to the multiset, and heads the result with it or with the old head |
| Seqs.SortBy | src/components/pages/Tasks.jsx:42-70 | the sort result is ordered by key and is a permutation of the input |
| Seqs.SortBySameKeys | src/components/pages/Tasks.jsx:64-68 | two key functions that agree everywhere sort identically |
| Seqs.KeyClass | src/components/pages/Tasks.jsx:43 | the elements with a given key, in list order |
| Seqs.KeyClassInsert | src/components/pages/Tasks.jsx:43 | inserting an element adds it in front of the elements with its key and leaves other keys alone |
| Seqs.SortByStable | src/components/pages/Tasks.jsx:43 | the sort is stable: for every key, the elements with that key keep their relative order |
| Seqs.SortByConstantKey | src/components/pages/Tasks.jsx:60-61 | when every key is the same, the sort returns the list unchanged |
| Ascii.LowerChar | src/components/pages/Tasks.jsx:74 | `toLowerCase` on one character: upper-case letters move to lower case, everything else is kept |
| Ascii.Lower | src/components/molecules/TaskRow.jsx:13 | `toLowerCase` keeps the length and lowers each character |
| Ascii.LowerIdempotent | src/components/molecules/TaskRow.jsx:13 | lowering twice equals lowering once |
| Ascii.TrimStart | src/components/molecules/TaskForm.jsx:35 | removes a whitespace-only prefix and leaves a result that does not start with whitespace |
| Ascii.TrimEnd | src/components/molecules/TaskForm.jsx:35 | removes a whitespace-only suffix and leaves a result that does not end with whitespace |
| Ascii.TrimEmptyIffBlank | src/components/molecules/ProjectForm.jsx:50-56 | `!s.trim()` holds exactly when `s` is empty or only whitespace |
| Ascii.Trim | src/components/molecules/TaskForm.jsx:35 | `trim` returns a slice of the text whose surroundings are whitespace only; it is never longer, and is empty or starts and ends with a non-space |
| Ascii.Contains | src/components/pages/Tasks.jsx:74-75 | `includes` is true for the empty needle and only for a needle no longer than the text |
| Ascii.ContainsIffOccurs | src/components/pages/Tasks.jsx:74-75 | `includes` holds exactly when the needle occurs as a contiguous slice at some position |
| Ascii.Split | src/components/pages/Tasks.jsx:133 | `split` yields at least one part and no part contains the separator |
| Ascii.JoinSplit | src/components/pages/Tasks.jsx:133 | joining the parts of a split with the separator gives back the input |
| Ascii.SplitWithoutSeparator | src/components/pages/Tasks.jsx:133 | a string without the separator splits into itself alone |
| Ascii.SplitAtFirst | src/components/pages/Tasks.jsx:133 | splitting cuts at the first separator and splits the rest |
| Entities.WithoutTask | src/services/api/taskService.js:119 | `filter(t => t.Id !== id)` keeps exactly the tasks with another id, in order |
| Entities.WithoutTaskShrinks | src/services/api/taskService.js:111-119 | the list shrinks exactly when some task has the id, and is unchanged otherwise |
| Entities.ReplaceTask | src/components/pages/Tasks.jsx:107 | `map(t => t.Id === id ? u : t)` keeps the length and replaces every entry with the id, and only those |
| Entities.ReplaceAbsentTask | src/components/pages/ProjectDetail.jsx:68 | replacing an id no entry has changes nothing |
| Entities.ToggledStatus | src/components/pages/Tasks.jsx:103 | the toggled status is "pending" exactly when the old one was "completed", and "completed" otherwise |
| Entities.ToggledCompletedAt | src/components/pages/Tasks.jsx:104 | the completion instant is cleared when the task reopens, and is now when it completes |
| Entities.ToggleTwice | src/components/pages/Tasks.jsx:103 | toggling a pending or completed status twice restores it |
| TaskServiceApi.OrNull | src/services/api/taskService.js:69-70 | `x \|\| null` on an id: null exactly when the id is missing or 0, otherwise the id |
| TaskServiceApi.Ids | src/services/api/taskService.js:61 | `tasks.map(t => t.Id)` lists the ids in order |
| TaskServiceApi.NextId | src/services/api/taskService.js:61-63 | the new id is 1 on an empty list and otherwise above every stored id (hence unique), and is 1 or one past an existing id |
| TaskServiceApi.NextIdAfterCreate | src/services/api/taskService.js:61-76 | after a create, the next id is one past the created one |
| TaskServiceApi.NewTask | src/services/api/taskService.js:62-74 | a created task is "pending" and not completed, with a falsy description as "", falsy project or parent ids as null, a falsy isSubTask as false, and title, due date and priority as given |
| TaskServiceApi.IndexOf | src/services/api/taskService.js:86 | the index of the first task with the id, or -1 exactly when there is none |
| TaskServiceApi.Lookup | src/services/api/taskService.js:36-42 | `getById` gives the first task with the id, and fails with "Task not found" exactly when none has it |
| TaskServiceApi.ByProject | src/services/api/taskService.js:50-52 | `getByProject` keeps exactly the tasks of that project, in stored order |
| TaskServiceApi.ByProjectAfterCreate | src/services/api/taskService.js:75 | a created task of the project heads that project's list, and the rest of the list is unchanged |
| TaskServiceApi.MergeTask | src/services/api/taskService.js:93-99 | each field the patch carries takes the patch value and each it leaves out keeps the stored value; the id is the target id; the parent link takes a truthy patch id and otherwise stays, so a set link is never lost |
| TaskServiceApi.MergeEmptyPatch | src/services/api/taskService.js:93-99 | merging an empty patch under the task's own id gives the task back |
| TaskServiceApi.MergeIdempotent | src/services/api/taskService.js:93-99 | applying the same patch twice equals applying it once |
| TaskServiceApi.UpdateOutcome | src/services/api/taskService.js:85-102 | `update` fails with "Task not found" exactly when no task has the id, and otherwise yields the first such task merged with the patch |
| TaskServiceApi.UpdateWithEmptyPatch | src/services/api/taskService.js:93-101 | an empty patch returns the stored task and stores the list unchanged |
| TaskServiceApi.DeleteThenLookupFails | src/services/api/taskService.js:119 | after a delete, `getById` of that id fails |
| TaskServiceApi.TaskService.constructor | src/services/api/taskService.js:3-13 | the store holds what was already stored, or the seed when nothing was |
| TaskServiceApi.TaskService.InitializeData | src/services/api/taskService.js:8-13 | the seed is written only when the key is absent |
| TaskServiceApi.TaskService.GetData | src/services/api/taskService.js:15-18 | an absent key reads as an empty list, and a present one as what it holds |
| TaskServiceApi.TaskService.Create | src/services/api/taskService.js:57-80 | the new task gets the next id and is put in front of the stored list, which is otherwise unchanged |
| TaskServiceApi.TaskService.Update | src/services/api/taskService.js:82-105 | the merged task replaces the first match in place, and a failed update leaves the store as it was |
| TaskServiceApi.TaskService.Delete | src/services/api/taskService.js:107-124 | returns the first task with the id and stores the list without every task with that id, and a failed delete leaves the store as it was |
| ProjectServiceApi.Ids | src/services/api/projectService.js:52 | `projects.map(p => p.Id)` lists the ids in order |
| ProjectServiceApi.NextId | src/services/api/projectService.js:52-54 | the new id is 1 on an empty list and otherwise above every stored id, and is 1 or one past an existing id |
| ProjectServiceApi.NewProject | src/services/api/projectService.js:53-59 | a created project keeps the given title, description and color, with the new id and creation time |
| ProjectServiceApi.IndexOf | src/services/api/projectService.js:71 | the index of the first project with the id, or -1 exactly when there is none |
| ProjectServiceApi.Lookup | src/services/api/projectService.js:37-43 | `getById` gives the first project with the id, and fails with "Project not found" exactly when none has it |
| ProjectServiceApi.WithoutProject | src/services/api/projectService.js:103 | keeps exactly the projects with another id, in order |
| ProjectServiceApi.MergeProject | src/services/api/projectService.js:78-82 | each field the patch carries takes the patch value and each it leaves out keeps the stored value, and the id is the target id |
| ProjectServiceApi.UpdateOutcome | src/services/api/projectService.js:70-86 | `update` fails with "Project not found" exactly when no project has the id, and otherwise yields the first such project merged with the patch |
| ProjectServiceApi.UpdateWithEmptyPatch | src/services/api/projectService.js:78-85 | an empty patch returns the stored project and stores the list unchanged |
| ProjectServiceApi.DeleteThenLookupFails | src/services/api/projectService.js:103 | after a delete, `getById` of that id fails, and every other project is kept |
| ProjectServiceApi.ProjectService.constructor | src/services/api/projectService.js:4-14 | the store holds what was already stored, or the seed when nothing was |
| ProjectServiceApi.ProjectService.InitializeData | src/services/api/projectService.js:9-14 | the seed is written only when the key is absent |
| ProjectServiceApi.ProjectService.GetData | src/services/api/projectService.js:16-19 | an absent key reads as an empty list, and a present one as what it holds |
| ProjectServiceApi.ProjectService.Create | src/services/api/projectService.js:48-65 | the new project gets the next id and is put in front of the stored list |
| ProjectServiceApi.ProjectService.Update | src/services/api/projectService.js:67-89 | the merged project replaces the first match in place, and a failed update leaves the store as it was |
| ProjectServiceApi.ProjectService.Delete | src/services/api/projectService.js:91-108 | returns the first project with the id and stores the list without every project with that id, and a failed delete leaves the store as it was |
| TaskRowMolecule.OverdueIff | src/components/molecules/TaskRow.jsx:8-10 | overdue exactly when a valid due date is strictly past, not today, and the task is not completed; so never for a completed task or one without a due date |
| TaskRowMolecule.IsOverdue | src/components/molecules/TaskRow.jsx:8-10 | an overdue task has a due date before now and is not completed |
| TaskRowMolecule.PriorityVariant | src/components/molecules/TaskRow.jsx:12-19 | the variant is the lower-cased priority when that is high, medium or low, and "default" exactly otherwise |
| TaskRowMolecule.PriorityVariantIgnoresCase | src/components/molecules/TaskRow.jsx:13 | the variant does not depend on letter case |
| TaskRowMolecule.PriorityVariantOfFormLevels | src/components/molecules/TaskForm.jsx:88-90 | the three priorities the form offers get their own variants |
| TaskRowMolecule.StatusVariant | src/components/molecules/TaskRow.jsx:21-25 | "completed" exactly for completed tasks, "overdue" exactly for overdue ones, and "pending" for the rest |
| TaskRowMolecule.StatusLabel | src/components/molecules/TaskRow.jsx:72-74 | the badge reads Completed exactly for completed tasks, Overdue exactly for overdue ones, and Pending exactly for the rest |
| TaskRowMolecule.StatusLabelMatchesVariant | src/components/molecules/TaskRow.jsx:72-74 | the badge text is Completed, Overdue or Pending, in agreement with the variant |
| TasksPage.SearchFilter | src/components/pages/Tasks.jsx:73-76 | keeps exactly the tasks whose lower-cased title or description contains the lower-cased query, in order |
| TasksPage.MatchesQuery | src/components/pages/Tasks.jsx:73-76 | the empty query matches every task, and a match needs a title or description at least as long as the query |
| TasksPage.EmptyQueryKeepsAll | src/components/pages/Tasks.jsx:73-76 | an empty query keeps every task |
| TasksPage.PriorityRank | src/components/pages/Tasks.jsx:48-50 | High ranks 3, Medium 2, Low 1, and anything else 0 |
| TasksPage.SortValue | src/components/pages/Tasks.jsx:46-61 | priority sorts by rank, dueDate by the instant or 0 when absent, createdAt by the creation instant, and any other field has no value |
| TasksPage.SortKeyOf | src/components/pages/Tasks.jsx:63-67 | the key is the sort value for "asc", its negation for any other order, and 0 for an unknown field |
| TasksPage.Compare | src/components/pages/Tasks.jsx:43-68 | the comparator as written: 0 for an unknown field, otherwise the difference of the two field values, a minus b for "asc" and b minus a for any other order |
| TasksPage.CompareIsKeyDifference | src/components/pages/Tasks.jsx:43-68 | the comparator as written returns the difference of the two sort keys, so it orders the list as sorting by key does; swapping the two tasks negates it |
| TasksPage.SortTasks | src/components/pages/Tasks.jsx:42-70 | the sorted list is a permutation of the input, ordered by the comparator's key |
| TasksPage.SortTasksStable | src/components/pages/Tasks.jsx:42-70 | tasks that compare equal keep their relative order |
| TasksPage.SortByUnknownFieldKeepsOrder | src/components/pages/Tasks.jsx:60-61 | an unknown sort field leaves the order as it was |
| TasksPage.SortByPriorityOrder | src/components/pages/Tasks.jsx:47-51 | sorting by priority orders by rank, rising for "asc" and falling for any other order |
| TasksPage.ParseSortOption | src/components/pages/Tasks.jsx:132-136 | the field and the order contain no dash, and when no order is found the whole value is the field |
| TasksPage.ParseSortOptionOf | src/components/pages/Tasks.jsx:133 | `field-order`, with anything after a further dash, parses to that field and that order |
| TasksPage.MediumSortOptionsParse | src/components/pages/Tasks.jsx:236-237 | both Medium options parse to the field priority and the order medium |
| TasksPage.NonAscOrderSortsDescending | src/components/pages/Tasks.jsx:64-68 | every order other than "asc" sorts exactly as "desc" |
| TasksPage.GetTaskStats | src/components/pages/Tasks.jsx:120-130 | total is the list length; completed, pending and overdue count the completed tasks, the tasks with status "pending" and the overdue tasks; completed plus pending never exceeds the total, and overdue never exceeds the unfinished tasks |
| TasksPage.Tasks.Stats | src/components/pages/Tasks.jsx:120-138 | the page's statistics count its own task list: the total, and the completed, pending and overdue tasks |
| TasksPage.CountsAsOverdue | src/components/pages/Tasks.jsx:123-127 | a task counted as overdue is not completed and has a due date before now |
| TasksPage.StatsPartitionTwoStatuses | src/components/pages/Tasks.jsx:121-122 | with only "pending" and "completed" statuses, pending is total minus completed |
| TasksPage.RowOverdueIsCounted | src/components/pages/Tasks.jsx:123-127 | a task the row shows as overdue is counted as overdue |
| TasksPage.TogglePayload | src/components/pages/Tasks.jsx:101-105 | the toggle sends every field of the page's copy of the task, with the toggled status and completion instant |
| TasksPage.TogglePayloadUpdate | src/components/pages/Tasks.jsx:101-105 | merged into the same task, the payload changes only status and completion |
| TasksPage.TogglePayloadOverStored | src/components/pages/Tasks.jsx:101-105 | merged into any stored task with that id, the payload stores the page's copy with status and completion toggled, keeping the stored parent link only when the copy's is falsy |
| TasksPage.Tasks.constructor | src/components/pages/Tasks.jsx:17-24 | no tasks, an empty query, and sorting by createdAt in "desc" order |
| TasksPage.Tasks.FilteredTasks | src/components/pages/Tasks.jsx:72-79 | the displayed list is the search result sorted by the current field and order: it holds exactly the tasks matching the query, is a permutation of the search result, and is ordered by the sort key |
| TasksPage.Tasks.LoadTasks | src/components/pages/Tasks.jsx:29-30 | the page holds all stored tasks |
| TasksPage.Tasks.HandleSearch | src/components/pages/Tasks.jsx:116-118 | the query becomes the input |
| TasksPage.Tasks.HandleSortChange | src/components/pages/Tasks.jsx:132-136 | the sort field and order become the two leading parts of the option value |
| TasksPage.Tasks.HandleToggleComplete | src/components/pages/Tasks.jsx:98-114 | a task not on the page, or a rejected update, fails with "Failed to update task" and changes nothing; otherwise the store is updated and every local entry with the id is replaced |
| ProjectDetailPage.CompletionPercentage | src/components/pages/ProjectDetail.jsx:89-91 | the percentage is within 0..100, is the nearest integer to completed/total*100 (halves up), is 0 with no tasks or none completed, and is 100 when all are completed |
| ProjectDetailPage.CompletionPercentageThirds | src/components/pages/ProjectDetail.jsx:90 | one of three is 33 and two of three is 67: rounding, not truncation |
| ProjectDetailPage.GetProjectStats | src/components/pages/ProjectDetail.jsx:87-99 | total is the length, completed counts the completed tasks, pending counts the others and adds up with completed to the total, and the percentage is `CompletionPercentage` of those counts, within 0..100 |
| ProjectDetailPage.ProjectDetail.Stats | src/components/pages/ProjectDetail.jsx:87-113 | the page's statistics count its own task list: the total, the completed tasks, the rest as pending, and the rounded percentage of those counts |
| ProjectDetailPage.ProjectStatsExtremes | src/components/pages/ProjectDetail.jsx:88-91 | 0% when no task is completed, and 100% when every task of a non-empty project is |
| ProjectDetailPage.CreatePayload | src/components/pages/ProjectDetail.jsx:48-51 | the form data with only the project id replaced by the route id |
| ProjectDetailPage.CreatedTaskBelongsToRoute | src/components/pages/ProjectDetail.jsx:48-51 | whatever project the form names, the created task belongs to the route's project |
| ProjectDetailPage.StatusPayload | src/components/pages/ProjectDetail.jsx:63-66 | the toggle sends only status and completion, toggled |
| ProjectDetailPage.StatusPayloadUpdate | src/components/pages/ProjectDetail.jsx:63-66 | the stored task keeps every field except status and completion |
| ProjectDetailPage.ProjectDetail.constructor | src/components/pages/ProjectDetail.jsx:17-20 | the page starts with the route id and no tasks |
| ProjectDetailPage.ProjectDetail.LoadTasks | src/components/pages/ProjectDetail.jsx:31-34 | the page holds the stored tasks of its project, in stored order |
| ProjectDetailPage.ProjectDetail.HandleCreateTask | src/components/pages/ProjectDetail.jsx:46-58 | the task is created in the route's project and put in front of the local list and of the store |
| ProjectDetailPage.ProjectDetail.HandleToggleComplete | src/components/pages/ProjectDetail.jsx:60-73 | a task not on the page, or a rejected update, fails with "Failed to update task" and changes nothing; otherwise only status and completion change in the store, and every local entry with the id is replaced |
| ProjectDetailPage.ProjectDetail.HandleDeleteTask | src/components/pages/ProjectDetail.jsx:75-85 | a declined confirmation changes nothing; a rejected delete fails with "Failed to delete task" and changes nothing; otherwise every entry with the id leaves both the store and the local list |
| TaskFormMolecule.With | src/components/molecules/TaskForm.jsx:19-22 | the named field takes the value and no other field changes |
| TaskFormMolecule.InitialFormData | src/components/molecules/TaskForm.jsx:9-14 | without a task, the defaults are "", "", "" and "Medium"; when editing, title and description are copied, the due date is formatted exactly when present, a set priority is copied and an empty one falls back to Medium |
| TaskFormMolecule.ValidationErrors | src/components/molecules/TaskForm.jsx:32-45 | the title is reported exactly when it trims to empty, the due date exactly when it is empty, each with its message, and no other field is reported |
| TaskFormMolecule.IsValid | src/components/molecules/TaskForm.jsx:35-44 | the form is valid exactly when the title is not blank and a due date is set |
| TaskFormMolecule.BlankTitleReported | src/components/molecules/TaskForm.jsx:35-37 | the title is reported exactly when it is empty or only whitespace |
| TaskFormMolecule.NoErrorsIffValid | src/components/molecules/TaskForm.jsx:43-44 | there are no errors exactly when the trimmed title and the due date are both non-empty |
| TaskFormMolecule.DescriptionAndPriorityUnchecked | src/components/molecules/TaskForm.jsx:32-45 | description and priority never affect validation |
| TaskFormMolecule.TaskForm.constructor | src/components/molecules/TaskForm.jsx:9-16 | the form starts from the initial data with no errors |
| TaskFormMolecule.TaskForm.HandleChange | src/components/molecules/TaskForm.jsx:18-30 | only the named field changes, its error is blanked, and every other error is kept |
| TaskFormMolecule.TaskForm.ValidateForm | src/components/molecules/TaskForm.jsx:32-45 | the errors become those of the current values, and the result is true exactly when the form is valid |
| TaskFormMolecule.TaskForm.HandleSubmit | src/components/molecules/TaskForm.jsx:47-53 | the values are passed on unchanged, and only when the form is valid |
| ProjectFormMolecule.With | src/components/molecules/ProjectForm.jsx:27-30 | the named field takes the value and no other field changes |
| ProjectFormMolecule.InitialFormData | src/components/molecules/ProjectForm.jsx:7-11 | without a project, the defaults are "", "" and "#3b82f6", the first swatch; when editing, title and description are copied and an empty color falls back to the default |
| ProjectFormMolecule.ValidationErrors | src/components/molecules/ProjectForm.jsx:47-60 | title and description are each reported exactly when they trim to empty, with their messages, and the color never is |
| ProjectFormMolecule.IsValid | src/components/molecules/ProjectForm.jsx:50-59 | the form is valid exactly when neither title nor description is blank |
| ProjectFormMolecule.BlankFieldsReported | src/components/molecules/ProjectForm.jsx:50-56 | a required field is reported exactly when it is empty or only whitespace |
| ProjectFormMolecule.NoErrorsIffValid | src/components/molecules/ProjectForm.jsx:58-59 | there are no errors exactly when the trimmed title and the trimmed description are both non-empty |
| ProjectFormMolecule.ColorUnchecked | src/components/molecules/ProjectForm.jsx:47-60 | the color never affects validity nor the errors reported |
| ProjectFormMolecule.ProjectForm.constructor | src/components/molecules/ProjectForm.jsx:7-13 | the form starts from the initial data with no errors |
| ProjectFormMolecule.ProjectForm.HandleChange | src/components/molecules/ProjectForm.jsx:26-38 | only the named field changes, its error is blanked, and every other error is kept |
| ProjectFormMolecule.ProjectForm.HandleColorSelect | src/components/molecules/ProjectForm.jsx:40-45 | only the color changes |
| ProjectFormMolecule.ProjectForm.ValidateForm | src/components/molecules/ProjectForm.jsx:47-60 | the errors become those of the current values, and the result is true exactly when the form is valid |
| ProjectFormMolecule.ProjectForm.HandleSubmit | src/components/molecules/ProjectForm.jsx:62-68 | the values are passed on unchanged, and only when the form is valid |

## Left out

- Persistence: `localStorage`, `JSON.stringify`/`JSON.parse` and the seed JSON files are not modelled. The store is `Option<seq<...>>`, and the seed is any sequence given to the constructor.
- Asynchrony: the `Promise`/`setTimeout` wrappers and their delays are not modelled; every service call completes at once.
- Loading state: the loading and error flags and the `Promise.all` in the project page's `loadData` are not modelled. `ProjectDetail.LoadTasks` models only the task half of `loadData`, and the project lookup is `ProjectServiceApi.Lookup`.
- `TaskService.GetAll`, `TaskService.GetById`, `TaskService.GetByProject`, `ProjectService.GetAll` and `ProjectService.GetById` are read-only views with no contract of their own. They apply `GetData`, `Lookup` and `ByProject`, which carry the contracts. The copies (`{ ...task }`) they return are not modelled: records are values here.
- Dates: parsing, `toISOString`, date-fns `isPast`, `isToday` and `format`, and time zones are not modelled. An instant is an integer, and an invalid date is absent. "Same calendar day" is the `dayOf` parameter, and `format(..., "yyyy-MM-dd")` is a `formatDate` parameter that yields non-empty text.
- TaskFormMolecule.InitialFormData: an edited task whose stored due date is present but unparseable makes `format` throw. That case is not modelled, because an invalid date is absent here.
- TasksPage.CountsAsOverdue: a task whose due date is `null` is never counted as overdue here, while `new Date(null)` in the code is the epoch and so counts; the task record does not tell a null due date from an absent or invalid one, and all three are `None`.
- Sorting by dates treats a missing due date as key 0, as the code does. `NaN` keys from unparseable dates are not modelled.
- The sort comparator's key-difference form is modelled as a stable sort by an integer key. `Array.prototype.sort` is stable in current engines; the engine's own algorithm is not modelled.
- `priorityOrder[a.priority]` for keys inherited from `Object.prototype` (such as "constructor") is not modelled: such priorities rank 0 here.
- ProjectDetailPage.CompletionPercentage: the percentage is exact round-half-up. Floating-point division can land just below a .5 boundary (29 of 200 gives 14.499..., so 14), and that difference is not modelled.
- Unicode: `toLowerCase`, `includes` and `trim` are modelled over ASCII only; full Unicode case mapping and whitespace are not.
- `update` with a key present but set to `undefined`, or `isSubTask` explicitly `null`, is not modelled: a patch field is either absent or has a value.
- `parseInt` of the route id is an integer; `NaN` is not modelled.
- Tasks page `handleCreateTask` and `loadTasks` after create: these only call `TaskService.Create` and reload, and they are not modelled separately.
- The stored-then-derived `filteredTasks` state is modelled as derived from tasks, query and sort state (`Tasks.FilteredTasks`). The one render in which it still holds the unsorted loaded list is not modelled.
- Toasts, `confirm()` (modelled as a `confirmed` parameter of `HandleDeleteTask`), routing, rendering, animation, CSS variant maps and the static placeholder pages are not modelled.
- The concrete sort of four tasks (Low, High, Medium, High) is not stated as its own lemma. It follows from `SortTasks`, `SortTasksStable` and `SortByPriorityOrder`.
