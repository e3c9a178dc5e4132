/**
 * The task form: its field values, its per-field error messages, and the
 * validation that decides whether the form is handed to its caller.
 */
module TaskFormMolecule {
  import opened Common
  import opened Entities
  import Ascii

  const TitleRequired: string := "Title is required"
  const DueDateRequired: string := "Due date is required"
  const DefaultPriority: string := "Medium"

  /** The form's inputs, named as in `formData`. */
  datatype Field = Title | Description | DueDate | Priority

  /** `formData`: every input holds the text the user typed or picked. */
  datatype FormData = FormData(title: string, description: string, dueDate: string, priority: string)

  /** The value the input `field` shows. */
  function Get(form: FormData, field: Field): string
  {
    match field
    case Title => form.title
    case Description => form.description
    case DueDate => form.dueDate
    case Priority => form.priority
  }

  /** `{ ...prev, [field]: value }`: the named field takes the value and no other field moves. */
  function With(form: FormData, field: Field, value: string): (r: FormData)
    ensures Get(r, field) == value
    ensures forall other :: other != field ==> Get(r, other) == Get(form, other)
  {
    match field
    case Title => form.(title := value)
    case Description => form.(description := value)
    case DueDate => form.(dueDate := value)
    case Priority => form.(priority := value)
  }

  /** The text `format(new Date(d), "yyyy-MM-dd")` yields for a valid date, never empty. */
  type DateText = s: string | s != "" witness "0"

  /** The first `formData`, from the task being edited if there is one; `formatDate` formats a due instant. */
  function InitialFormData(initialData: Option<Task>, formatDate: Instant -> DateText): (r: FormData)
    ensures initialData.None? ==> r == FormData("", "", "", DefaultPriority)
    ensures initialData.Some? ==> r.title == initialData.value.title && r.description == initialData.value.description
    ensures r.dueDate == "" <==> initialData.None? || initialData.value.dueDate.None?
    ensures initialData.Some? && initialData.value.dueDate.Some? ==> r.dueDate == formatDate(initialData.value.dueDate.value)
    ensures r.priority != ""
    ensures initialData.Some? && initialData.value.priority != "" ==> r.priority == initialData.value.priority
    ensures initialData.Some? && initialData.value.priority == "" ==> r.priority == DefaultPriority
  {
    match initialData
    case None => FormData("", "", "", DefaultPriority)
    case Some(task) =>
      FormData(
        task.title,
        task.description,
        if task.dueDate.Some? then formatDate(task.dueDate.value) else "",
        if task.priority != "" then task.priority else DefaultPriority)
  }

  /** The form may be submitted: a title that is not only whitespace, and some due date. */
  predicate IsValid(form: FormData)
    ensures IsValid(form) <==> !Ascii.IsBlank(form.title) && form.dueDate != ""
  {
    Ascii.TrimEmptyIffBlank(form.title);
    Ascii.Trim(form.title) != "" && form.dueDate != ""
  }

  /** `newErrors` of `validateForm`: one message per failing required field, and nothing else. */
  function ValidationErrors(form: FormData): (errors: map<Field, string>)
    ensures Title in errors <==> Ascii.Trim(form.title) == ""
    ensures DueDate in errors <==> form.dueDate == ""
    ensures errors.Keys <= {Title, DueDate}
    ensures Title in errors ==> errors[Title] == TitleRequired
    ensures DueDate in errors ==> errors[DueDate] == DueDateRequired
  {
    var withTitle: map<Field, string> := if Ascii.Trim(form.title) == "" then map[Title := TitleRequired] else map[];
    if form.dueDate == "" then withTitle[DueDate := DueDateRequired] else withTitle
  }

  /** The title is reported exactly when it holds whitespace only (or nothing). */
  lemma BlankTitleReported(form: FormData)
    ensures Title in ValidationErrors(form) <==> Ascii.IsBlank(form.title)
  {
    Ascii.TrimEmptyIffBlank(form.title);
  }

  /** `Object.keys(newErrors).length === 0` is exactly the validity of the form. */
  lemma NoErrorsIffValid(form: FormData)
    ensures |ValidationErrors(form)| == 0 <==> IsValid(form)
  {
    var errors := ValidationErrors(form);
    if |errors| == 0 {
      assert Title !in errors && DueDate !in errors;
    } else {
      var k :| k in errors;
    }
  }

  /** The description and the priority are never checked: any values pass. */
  lemma DescriptionAndPriorityUnchecked(form: FormData, description: string, priority: string)
    ensures IsValid(form.(description := description, priority := priority)) == IsValid(form)
    ensures ValidationErrors(form.(description := description, priority := priority)) == ValidationErrors(form)
  {
    var edited := form.(description := description, priority := priority);
    var before, after := ValidationErrors(form), ValidationErrors(edited);
    assert Title in after <==> Title in before;
    assert DueDate in after <==> DueDate in before;
    assert after.Keys == before.Keys;
  }

  class TaskForm {
    var formData: FormData
    /** Field to message; a field mapped to "" shows no error, as in `errors[field]` being falsy. */
    var errors: map<Field, string>

    constructor(initialData: Option<Task>, formatDate: Instant -> DateText)
      ensures formData == InitialFormData(initialData, formatDate) && errors == map[]
    {
      formData := InitialFormData(initialData, formatDate);
      errors := map[];
    }

    /** The field takes the new text; an error shown on that field is blanked, the others stay. */
    method HandleChange(field: Field, value: string)
      modifies this
      ensures formData == With(old(formData), field, value)
      ensures field in errors ==> errors[field] == ""
      ensures errors.Keys == old(errors).Keys
      ensures forall k :: k in errors && k != field ==> errors[k] == old(errors)[k]
    {
      formData := With(formData, field, value);
      if field in errors && errors[field] != "" {
        errors := errors[field := ""];
      }
    }

    /** Replaces the errors by those of the current values and reports whether there are none. */
    method ValidateForm() returns (ok: bool)
      modifies this`errors
      ensures errors == ValidationErrors(formData)
      ensures ok <==> IsValid(formData)
    {
      var form := formData;
      var found := ValidationErrors(form);
      NoErrorsIffValid(form);
      errors := found;
      ok := |found| == 0;
      assert formData == form;
    }

    /** The values handed to `onSubmit`, unchanged, and only when the form is valid. */
    method HandleSubmit() returns (submitted: Option<FormData>)
      modifies this`errors
      ensures errors == ValidationErrors(formData)
      ensures submitted.Some? <==> IsValid(formData)
      ensures submitted.Some? ==> submitted.value == formData
    {
      var ok := ValidateForm();
      if !ok {
        return None;
      }
      submitted := Some(formData);
    }
  }
}
