/**
 * How the client's requests meet the service: a form that passes client
 * validation also passes the service's checks, the toggle patches the status
 * alone, and a few request sequences against the task store.
 */
module ClientServer {
  import opened Wrappers
  import opened TaskModel
  import opened FormSchema
  import opened TaskControllers
  import HomePage
  import ShowTask
  import TaskListPage
  import TaskCard

  /** A create form that passes client validation passes the service's required-field check. */
  lemma CreateFormPassesServerCheck(form: FormData)
    requires Parse(HomePage.TaskSchema, form).Success?
    ensures Title in form && Description in form
    ensures var body := BodyOf(Parse(HomePage.TaskSchema, form).value);
      && Truthy(body.title) && Truthy(body.description)
      && body.title.value == form[Title] && body.description.value == form[Description]
      && body.status.None?
  {
    HomePage.TaskSchemaAccepts(form);
    HomePage.ValidatedCreateData(form);
  }

  /**
   * An edit form that passes client validation passes the service's
   * "no fields" guard and update validators, and its update replaces all
   * three fields of the stored record.
   */
  lemma UpdateFormPassesServerChecks(form: FormData, t: Task)
    requires Parse(ShowTask.TaskSchema, form).Success?
    ensures Title in form && Description in form && Status in form
    ensures var body := BodyOf(Parse(ShowTask.TaskSchema, form).value);
      && !NoFieldsProvided(body)
      && PatchValid(body)
      && ApplyPatch(t, body) == t.(title := form[Title], description := form[Description], status := form[Status])
  {
    ShowTask.TaskSchemaAccepts(form);
    ShowTask.ValidatedUpdateData(form);
  }

  /**
   * The toggle request is always accepted by the update validators, and its
   * update changes the status alone: title, description and id are kept.
   */
  lemma ToggleChangesStatusOnly(t: Task, current: string)
    ensures var body := TaskListPage.ToggleBody(current);
      && !NoFieldsProvided(body)
      && PatchValid(body)
      && ApplyPatch(t, body) == t.(status := TaskListPage.ToggleTarget(current))
  {
  }

  /**
   * A toggle that a task card can fire always targets Completed: the button
   * of a completed task is disabled, so the Pending branch of the toggle is
   * never reached from the list.
   */
  lemma CardToggleCompletes(t: Task)
    requires TaskCard.HandleClick(t, TaskCard.ToggleClick).Some?
    ensures var cb := TaskCard.HandleClick(t, TaskCard.ToggleClick).value;
      && cb == TaskCard.OnToggleComplete(t.id, t.status)
      && TaskListPage.ToggleTarget(cb.status) == COMPLETED
  {
  }

  /** A successful listing from the service renders as the list or the empty notice, never as an error. */
  lemma ListingRenders(env: Envelope)
    requires env.status && env.taskData.Some? && env.taskData.value.Many?
    ensures var s := TaskListPage.Render(false, Some(env));
      if |env.taskData.value.records| > 0 then s == TaskListPage.TaskList(env.taskData.value.records)
      else s == TaskListPage.EmptyNotice
  {
  }

  /** Deleting a stored task and then showing it by the same id yields 404. */
  method DeleteThenShow(store: TaskStore, id: string) returns (deleted: Reply, shown: Reply)
    requires store.Valid()
    modifies store
    ensures store.Valid()
    ensures id in old(store.tasks) && store.isObjectId(id) ==> deleted.code == OK && shown.code == NOT_FOUND
    ensures id !in old(store.tasks) && store.isObjectId(id) ==> deleted.code == NOT_FOUND && store.tasks == old(store.tasks)
  {
    deleted := store.DeleteTask(id, None);
    shown := store.ShowTask(id, None);
  }

  /** A created task is shown with status Pending, the given text and the id the create returned. */
  method CreateThenShow(store: TaskStore, title: string, description: string, status: Option<string>)
    returns (created: Reply, shown: Reply)
    requires store.Valid()
    requires title != "" && description != ""
    modifies store
    ensures store.Valid()
    ensures created.code == CREATED && created.body.task.Some?
    ensures var t := created.body.task.value;
      && shown == Reply(OK, Envelope(true, None, None, Some(One(t))))
      && t.title == title && t.description == description && t.status == PENDING
  {
    created := store.CreateTask(TaskBody(Some(title), Some(description), status), None);
    shown := store.ShowTask(created.body.task.value.id, None);
  }
}
