/**
 * The detail/edit view of one task: it loads the task by id, shows a spinner
 * while loading, an error panel when the load failed, and otherwise an edit
 * form of title, description and status, validated against its schema before
 * the update request is issued.
 */
module ShowTask {
  import opened Wrappers
  import opened TaskModel
  import opened FormSchema

  const TITLE_TOO_SHORT: string := "Title must be at least 3 characters long."
  const DESCRIPTION_TOO_SHORT: string := "Description must be at least 3 characters long."
  const DESCRIPTION_TOO_LONG: string := "Description cannot exceed 500 characters."
  const INVALID_STATUS: string := "Invalid status selected."

  const FETCH_FAILED: string := "Failed to fetch task details."
  const FETCH_ERROR: string := "Task not found or an error occurred."
  const LOAD_ERROR: string := "Task not found or could not be loaded."

  /** The update schema: the create schema plus the four-value status enumeration. */
  const TaskSchema: ObjectSchema := [
    FieldSpec(Title, [MinLength(3, TITLE_TOO_SHORT)]),
    FieldSpec(Description, [MinLength(3, DESCRIPTION_TOO_SHORT), MaxLength(500, DESCRIPTION_TOO_LONG)]),
    FieldSpec(Status, [OneOf([PENDING, RUNNING, COMPLETED, FAILED], INVALID_STATUS)])
  ]

  /** The edit form is valid exactly when the lengths are in bounds and the status is one of the four. */
  lemma TaskSchemaAccepts(form: FormData)
    ensures Parse(TaskSchema, form).Success? <==>
      && Title in form && |form[Title]| >= 3
      && Description in form && 3 <= |form[Description]| <= 500
      && Status in form && IsTaskStatus(form[Status])
  {
    var title, description, status := TaskSchema[0], TaskSchema[1], TaskSchema[2];
    assert FieldOk(title, form) <==> Title in form && |form[Title]| >= 3 by {
      assert title.field == Title && title.rules == [MinLength(3, TITLE_TOO_SHORT)];
      if Title in form {
        assert Accepts(title.rules[0], form[Title]) <==> |form[Title]| >= 3;
      }
    }
    assert FieldOk(description, form) <==> Description in form && 3 <= |form[Description]| <= 500 by {
      assert description.field == Description;
      assert description.rules == [MinLength(3, DESCRIPTION_TOO_SHORT), MaxLength(500, DESCRIPTION_TOO_LONG)];
      if Description in form {
        assert Accepts(description.rules[0], form[Description]) <==> |form[Description]| >= 3;
        assert Accepts(description.rules[1], form[Description]) <==> |form[Description]| <= 500;
      }
    }
    assert FieldOk(status, form) <==> Status in form && IsTaskStatus(form[Status]) by {
      assert status.field == Status && status.rules == [OneOf([PENDING, RUNNING, COMPLETED, FAILED], INVALID_STATUS)];
      if Status in form {
        assert Accepts(status.rules[0], form[Status]) <==> form[Status] in [PENDING, RUNNING, COMPLETED, FAILED];
      }
    }
    assert (forall i :: 0 <= i < |TaskSchema| ==> FieldOk(TaskSchema[i], form))
      <==> FieldOk(title, form) && FieldOk(description, form) && FieldOk(status, form);
  }

  /** The "Select Status" placeholder (the empty value) never passes validation, and is reported on the status field. */
  lemma PlaceholderStatusRejected(form: FormData)
    requires Status in form && form[Status] == ""
    ensures Parse(TaskSchema, form).Failure?
    ensures Status in Parse(TaskSchema, form).error
  {
    TaskSchemaAccepts(form);
    assert !FieldOk(TaskSchema[2], form) by {
      assert TaskSchema[2].rules[0] == OneOf([PENDING, RUNNING, COMPLETED, FAILED], INVALID_STATUS);
    }
  }

  /** The validated data is exactly the three fields as entered. */
  lemma ValidatedUpdateData(form: FormData)
    requires Parse(TaskSchema, form).Success?
    ensures Title in form && Description in form && Status in form
    ensures Parse(TaskSchema, form).value == map[Title := form[Title], Description := form[Description], Status := form[Status]]
  {
    TaskSchemaAccepts(form);
    assert SchemaFields(TaskSchema) == {Title, Description, Status} by {
      assert TaskSchema[0].field == Title && TaskSchema[1].field == Description && TaskSchema[2].field == Status;
    }
  }

  /** What `apiData.taskData` holds: the fetched record, or the validated form data after an update. */
  datatype TaskView = Record(task: Task) | Validated(fields: FormData)

  /** The `apiData` state: the fetched envelope, or the error object a failed fetch leaves. */
  datatype ApiData = ApiData(status: bool, message: Option<string>, taskData: Option<TaskView>)

  /** The envelope of a successful fetch, as `apiData` stores it. */
  function FromEnvelope(env: Envelope): (a: ApiData)
    ensures a.status == env.status && a.message == env.message
    ensures env.taskData.Some? && env.taskData.value.One? ==> a.taskData == Some(Record(env.taskData.value.record))
  {
    ApiData(env.status, env.message,
      if env.taskData.Some? && env.taskData.value.One? then Some(Record(env.taskData.value.record)) else None)
  }

  /** `{...prevApiData, taskData: validatedData}`. */
  function WithTaskData(prev: Option<ApiData>, data: FormData): (a: ApiData)
    ensures a.taskData == Some(Validated(data))
    ensures prev.Some? ==> a.status == prev.value.status && a.message == prev.value.message
    ensures prev.None? ==> !a.status && a.message.None?
  {
    match prev
    case Some(p) => p.(taskData := Some(Validated(data)))
    case None => ApiData(false, None, Some(Validated(data)))
  }

  /** The three things the view can show. */
  datatype Screen = Spinner | ErrorPanel(message: string) | EditForm(form: FormData, errors: Option<FieldErrors>)

  /** The render selection. */
  function Render(loading: bool, apiData: Option<ApiData>, formData: FormData, err: Option<FieldErrors>): (s: Screen)
    ensures s.Spinner? <==> loading
    ensures s.ErrorPanel? <==> !loading && (apiData.None? || !apiData.value.status)
    ensures s.ErrorPanel? ==> s.message != ""
    ensures s.EditForm? ==> s.form == formData && s.errors == err
  {
    if loading then Spinner
    else if apiData.None? || !apiData.value.status then
      ErrorPanel(OrElse(if apiData.Some? then apiData.value.message.GetOr("") else "", LOAD_ERROR))
    else EditForm(formData, err)
  }

  class Component {
    const taskid: string
    var apiData: Option<ApiData>
    var formData: FormData
    var err: Option<FieldErrors>
    var loading: bool

    constructor (taskid: string)
      ensures this.taskid == taskid
      ensures apiData.None? && formData == map[] && err.None? && loading
    {
      this.taskid := taskid;
      apiData := None;
      formData := map[];
      err := None;
      loading := true;
    }

    /** `handleInput`: sets the named field and clears that field's error only. */
    method HandleInput(name: Field, value: string)
      modifies this
      ensures formData == WithInput(old(formData), name, value)
      ensures err == ClearError(old(err), name)
      ensures apiData == old(apiData) && loading == old(loading)
    {
      formData := formData[name := value];
      if err.Some? && name in err.value {
        err := Some(err.value - {name});
      }
    }

    /**
     * `getTask`: fetches the task by id, whose outcome is the input
     * `outcome`. On success `apiData` is the envelope and the form holds the
     * record; on failure `apiData` is `{status: false, message}`. Loading is
     * over whatever the outcome.
     */
    method GetTask(outcome: Fetched) returns (sent: Request)
      modifies this
      ensures sent == ShowTaskRequest(taskid)
      ensures !loading && err == old(err)
      ensures Succeeded(outcome) ==>
        && apiData == Some(FromEnvelope(outcome.reply.body))
        && formData == (if outcome.reply.body.taskData.Some? && outcome.reply.body.taskData.value.One?
                        then FormOf(outcome.reply.body.taskData.value.record) else map[])
      ensures !Succeeded(outcome) ==>
        && apiData == Some(ApiData(false, Some(OrElse(ThrownMessage(outcome, FETCH_FAILED), FETCH_ERROR)), None))
        && formData == old(formData)
    {
      loading := true;
      sent := ShowTaskRequest(taskid);
      if Succeeded(outcome) {
        var env := outcome.reply.body;
        apiData := Some(FromEnvelope(env));
        formData := if env.taskData.Some? && env.taskData.value.One? then FormOf(env.taskData.value.record) else map[];
      } else {
        apiData := Some(ApiData(false, Some(OrElse(ThrownMessage(outcome, FETCH_FAILED), FETCH_ERROR)), None));
      }
      loading := false;
    }

    /**
     * `handleSubmit`: clears the errors, then validates; only a valid form
     * issues the update request, whose outcome is the input `outcome`. An
     * invalid form sets the per-field errors; a successful update stores the
     * validated data as `apiData.taskData`; the form is kept either way.
     */
    method HandleSubmit(outcome: Fetched) returns (sent: Option<Request>)
      modifies this
      ensures formData == old(formData) && loading == old(loading)
      ensures Parse(TaskSchema, old(formData)).Failure? ==>
        && sent.None?
        && err == Some(Errors(TaskSchema, old(formData)))
        && apiData == old(apiData)
      ensures Parse(TaskSchema, old(formData)).Success? ==>
        var validated := Parse(TaskSchema, old(formData)).value;
        && sent == Some(UpdateTaskRequest(taskid, BodyOf(validated)))
        && err == None
        && apiData == (if Succeeded(outcome) then Some(WithTaskData(old(apiData), validated)) else old(apiData))
    {
      err := None;
      var parsed := Parse(TaskSchema, formData);
      if parsed.Failure? {
        err := Some(parsed.error);
        return None;
      }
      sent := Some(UpdateTaskRequest(taskid, BodyOf(parsed.value)));
      if Succeeded(outcome) {
        apiData := Some(WithTaskData(apiData, parsed.value));
      }
    }
  }
}
