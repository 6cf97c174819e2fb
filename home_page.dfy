/**
 * The create view: a two-field form (title, description) validated against
 * its schema before the create request is issued. The form is cleared after
 * a successful create and kept as entered after a failure.
 */
module HomePage {
  import opened Wrappers
  import opened TaskModel
  import opened FormSchema

  const TITLE_TOO_SHORT: string := "Title must be at least 3 characters long."
  const DESCRIPTION_TOO_SHORT: string := "Description must be at least 3 characters long."
  const DESCRIPTION_TOO_LONG: string := "Description cannot exceed 500 characters."

  /** The create schema: title of 3 characters or more, description of 3 to 500. */
  const TaskSchema: ObjectSchema := [
    FieldSpec(Title, [MinLength(3, TITLE_TOO_SHORT)]),
    FieldSpec(Description, [MinLength(3, DESCRIPTION_TOO_SHORT), MaxLength(500, DESCRIPTION_TOO_LONG)])
  ]

  /** The create form is valid exactly when the title and description lengths are in bounds. */
  lemma TaskSchemaAccepts(form: FormData)
    ensures Parse(TaskSchema, form).Success? <==>
      && Title in form && |form[Title]| >= 3
      && Description in form && 3 <= |form[Description]| <= 500
  {
    var title, description := TaskSchema[0], TaskSchema[1];
    assert FieldOk(title, form) <==> Title in form && |form[Title]| >= 3 by {
      assert title.field == Title && title.rules == [MinLength(3, TITLE_TOO_SHORT)];
      if Title in form {
        assert Accepts(title.rules[0], form[Title]) <==> |form[Title]| >= 3;
      }
    }
    assert FieldOk(description, form) <==> Description in form && 3 <= |form[Description]| <= 500 by {
      assert description.field == Description;
      assert description.rules == [MinLength(3, DESCRIPTION_TOO_SHORT), MaxLength(500, DESCRIPTION_TOO_LONG)];
      if Description in form {
        assert Accepts(description.rules[0], form[Description]) <==> |form[Description]| >= 3;
        assert Accepts(description.rules[1], form[Description]) <==> |form[Description]| <= 500;
      }
    }
    assert (forall i :: 0 <= i < |TaskSchema| ==> FieldOk(TaskSchema[i], form)) <==> FieldOk(title, form) && FieldOk(description, form);
  }

  /** Each field is flagged on its own: an error is reported for exactly the fields out of bounds. */
  lemma TaskSchemaErrors(form: FormData)
    ensures var e := Errors(TaskSchema, form);
      && (Title in e <==> !(Title in form && |form[Title]| >= 3))
      && (Description in e <==> !(Description in form && 3 <= |form[Description]| <= 500))
      && Status !in e
  {
    assert TaskSchema[0].rules[0] == MinLength(3, TITLE_TOO_SHORT);
    assert TaskSchema[1].rules[1] == MaxLength(500, DESCRIPTION_TOO_LONG);
  }

  /** The validated data is the title and description as entered, and nothing else. */
  lemma ValidatedCreateData(form: FormData)
    requires Parse(TaskSchema, form).Success?
    ensures Title in form && Description in form
    ensures Parse(TaskSchema, form).value == map[Title := form[Title], Description := form[Description]]
  {
    TaskSchemaAccepts(form);
    assert SchemaFields(TaskSchema) == {Title, Description} by {
      assert TaskSchema[0].field == Title && TaskSchema[1].field == Description;
    }
  }

  class Component {
    var formData: FormData
    var err: Option<FieldErrors>

    constructor ()
      ensures formData == map[] && err == None
    {
      formData := map[];
      err := None;
    }

    /** `handleInput`: sets the named field and clears that field's error only. */
    method HandleInput(name: Field, value: string)
      modifies this
      ensures formData == WithInput(old(formData), name, value)
      ensures err == ClearError(old(err), name)
    {
      formData := formData[name := value];
      if err.Some? && name in err.value {
        err := Some(err.value - {name});
      }
    }

    /**
     * `handleSubmit`: clears the errors, then validates; only a valid form
     * issues the create request, whose outcome is the input `outcome`. An
     * invalid form sets the per-field errors and keeps the form; a successful
     * create empties the form; a failed one keeps it.
     */
    method HandleSubmit(outcome: Fetched) returns (sent: Option<Request>)
      modifies this
      ensures Parse(TaskSchema, old(formData)).Failure? ==>
        && sent.None?
        && err == Some(Errors(TaskSchema, old(formData)))
        && formData == old(formData)
      ensures Parse(TaskSchema, old(formData)).Success? ==>
        && sent == Some(CreateTaskRequest(BodyOf(Parse(TaskSchema, old(formData)).value)))
        && err == None
        && formData == (if Succeeded(outcome) then map[] else old(formData))
    {
      err := None;
      var parsed := Parse(TaskSchema, formData);
      if parsed.Failure? {
        err := Some(parsed.error);
        return None;
      }
      sent := Some(CreateTaskRequest(BodyOf(parsed.value)));
      if Succeeded(outcome) {
        formData := map[];
      }
    }
  }
}
