/**
 * The project form: title, description and a colour from a fixed palette, with
 * both text fields required.
 */
module ProjectFormMolecule {
  import opened Common
  import opened Entities
  import Ascii

  const TitleRequired: string := "Project title is required"
  const DescriptionRequired: string := "Project description is required"
  const DefaultColor: string := "#3b82f6"

  /** The swatches offered, in display order: blue, green, purple, red, orange, pink, indigo, teal. */
  const ProjectColors: seq<string> :=
    ["#3b82f6", "#10b981", "#8b5cf6", "#ef4444", "#f59e0b", "#ec4899", "#6366f1", "#14b8a6"]

  /** The form's text inputs, named as in `formData`. */
  datatype Field = Title | Description | Color

  datatype FormData = FormData(title: string, description: string, color: string)

  /** The value the input `field` holds. */
  function Get(form: FormData, field: Field): string
  {
    match field
    case Title => form.title
    case Description => form.description
    case Color => form.color
  }

  /** `{ ...prev, [field]: value }`: the named field takes the value and no other field moves. */
  function With(form: FormData, field: Field, value: string): (r: FormData)
    ensures Get(r, field) == value
    ensures forall other :: other != field ==> Get(r, other) == Get(form, other)
  {
    match field
    case Title => form.(title := value)
    case Description => form.(description := value)
    case Color => form.(color := value)
  }

  /** The first `formData`, from the project being edited if there is one; an empty colour falls back to blue. */
  function InitialFormData(initialData: Option<Project>): (r: FormData)
    ensures initialData.None? ==> r == FormData("", "", DefaultColor)
    ensures initialData.Some? ==> r.title == initialData.value.title && r.description == initialData.value.description
    ensures r.color != ""
    ensures initialData.Some? && initialData.value.color != "" ==> r.color == initialData.value.color
    ensures initialData.None? || initialData.value.color == "" ==> r.color == ProjectColors[0]
  {
    match initialData
    case None => FormData("", "", DefaultColor)
    case Some(project) =>
      FormData(project.title, project.description, if project.color != "" then project.color else DefaultColor)
  }

  /** The form may be submitted: neither the title nor the description is only whitespace. */
  predicate IsValid(form: FormData)
    ensures IsValid(form) <==> !Ascii.IsBlank(form.title) && !Ascii.IsBlank(form.description)
  {
    Ascii.TrimEmptyIffBlank(form.title);
    Ascii.TrimEmptyIffBlank(form.description);
    Ascii.Trim(form.title) != "" && Ascii.Trim(form.description) != ""
  }

  /** `newErrors` of `validateForm`: one message per failing required field, and nothing else. */
  function ValidationErrors(form: FormData): (errors: map<Field, string>)
    ensures Title in errors <==> Ascii.Trim(form.title) == ""
    ensures Description in errors <==> Ascii.Trim(form.description) == ""
    ensures errors.Keys <= {Title, Description}
    ensures Title in errors ==> errors[Title] == TitleRequired
    ensures Description in errors ==> errors[Description] == DescriptionRequired
  {
    var withTitle: map<Field, string> := if Ascii.Trim(form.title) == "" then map[Title := TitleRequired] else map[];
    if Ascii.Trim(form.description) == "" then withTitle[Description := DescriptionRequired] else withTitle
  }

  /** A required field is reported exactly when it holds whitespace only (or nothing). */
  lemma BlankFieldsReported(form: FormData)
    ensures Title in ValidationErrors(form) <==> Ascii.IsBlank(form.title)
    ensures Description in ValidationErrors(form) <==> Ascii.IsBlank(form.description)
  {
    Ascii.TrimEmptyIffBlank(form.title);
    Ascii.TrimEmptyIffBlank(form.description);
  }

  /** `Object.keys(newErrors).length === 0` is exactly the validity of the form. */
  lemma NoErrorsIffValid(form: FormData)
    ensures |ValidationErrors(form)| == 0 <==> IsValid(form)
  {
    var errors := ValidationErrors(form);
    if |errors| == 0 {
      assert Title !in errors && Description !in errors;
    } else {
      var k :| k in errors;
    }
  }

  /** The colour is never checked: any value passes. */
  lemma ColorUnchecked(form: FormData, color: string)
    ensures IsValid(form.(color := color)) == IsValid(form)
    ensures ValidationErrors(form.(color := color)) == ValidationErrors(form)
  {
    var before, after := ValidationErrors(form), ValidationErrors(form.(color := color));
    assert Title in after <==> Title in before;
    assert Description in after <==> Description in before;
    assert after.Keys == before.Keys;
  }

  class ProjectForm {
    var formData: FormData
    /** Field to message; a field mapped to "" shows no error, as in `errors[field]` being falsy. */
    var errors: map<Field, string>

    constructor(initialData: Option<Project>)
      ensures formData == InitialFormData(initialData) && errors == map[]
    {
      formData := InitialFormData(initialData);
      errors := map[];
    }

    /** The field takes the new text; an error shown on that field is blanked, the others stay. */
    method HandleChange(field: Field, value: string)
      modifies this
      ensures formData == With(old(formData), field, value)
      ensures field in errors ==> errors[field] == ""
      ensures errors.Keys == old(errors).Keys
      ensures forall k :: k in errors && k != field ==> errors[k] == old(errors)[k]
    {
      formData := With(formData, field, value);
      if field in errors && errors[field] != "" {
        errors := errors[field := ""];
      }
    }

    /** Picking a swatch changes the colour only, and leaves the errors alone. */
    method HandleColorSelect(color: string)
      modifies this`formData
      ensures formData == With(old(formData), Color, color)
      ensures formData.title == old(formData).title && formData.description == old(formData).description
    {
      formData := formData.(color := color);
    }

    /** Replaces the errors by those of the current values and reports whether there are none. */
    method ValidateForm() returns (ok: bool)
      modifies this`errors
      ensures errors == ValidationErrors(formData)
      ensures ok <==> IsValid(formData)
    {
      var form := formData;
      var found := ValidationErrors(form);
      NoErrorsIffValid(form);
      errors := found;
      ok := |found| == 0;
      assert formData == form;
    }

    /** The values handed to `onSubmit`, unchanged, and only when the form is valid. */
    method HandleSubmit() returns (submitted: Option<FormData>)
      modifies this`errors
      ensures errors == ValidationErrors(formData)
      ensures submitted.Some? <==> IsValid(formData)
      ensures submitted.Some? ==> submitted.value == formData
    {
      var ok := ValidateForm();
      if !ok {
        return None;
      }
      submitted := Some(formData);
    }
  }
}
