/**
 * The list view: it fetches every task, renders a list, an empty notice or
 * an error panel, and offers per-task delete and complete/pending toggle.
 * A successful delete or toggle sets the refresh flag, which makes the view
 * fetch the list again; a failure changes nothing but shows a notification.
 */
module TaskListPage {
  import opened Wrappers
  import opened TaskModel

  const FETCH_FAILED: string := "Failed to fetch tasks."
  const LOAD_FAILED: string := "Could not load tasks."
  const UNEXPECTED: string := "An unexpected error occurred."

  /** The toggle target: a completed task goes back to Pending, any other becomes Completed. */
  function ToggleTarget(current: string): (next: string)
    ensures IsTaskStatus(next)
    ensures next == COMPLETED <==> current != COMPLETED
    ensures next == PENDING <==> current == COMPLETED
  {
    if current == COMPLETED then PENDING else COMPLETED
  }

  /** Toggling twice is the identity on Pending and Completed. */
  lemma ToggleInvolution(s: string)
    requires s == PENDING || s == COMPLETED
    ensures ToggleTarget(ToggleTarget(s)) == s
  {
  }

  /** The toggle request body: the new status and nothing else. */
  function ToggleBody(current: string): (b: TaskBody)
    ensures b.title.None? && b.description.None?
    ensures b.status == Some(ToggleTarget(current))
  {
    TaskBody(None, None, Some(ToggleTarget(current)))
  }

  /** The four things the view can show. */
  datatype Screen = Spinner | TaskList(items: seq<Task>) | EmptyNotice | LoadError(message: string)

  /**
   * The render selection: the list when the fetched envelope says success
   * and carries a non-empty array, the empty notice when its payload has no
   * elements, an error panel otherwise.
   */
  function Render(loading: bool, tasks: Option<Envelope>): (s: Screen)
    ensures s.Spinner? <==> loading
    ensures s.TaskList? <==> !loading && tasks.Some? && tasks.value.status && tasks.value.taskData.Some?
                             && tasks.value.taskData.value.Many? && |tasks.value.taskData.value.records| > 0
    ensures s.TaskList? ==> s.items == tasks.value.taskData.value.records
    ensures s.LoadError? <==> !loading && !(tasks.Some? && tasks.value.status && tasks.value.taskData.Some?)
    ensures s.LoadError? ==> s.message != ""
  {
    if loading then Spinner
    else if tasks.Some? && tasks.value.status && tasks.value.taskData.Some? then
      match tasks.value.taskData.value
      case Many(records) => if |records| > 0 then TaskList(records) else EmptyNotice
      case One(_) => EmptyNotice  // a single object has no length
    else
      LoadError(OrElse(if tasks.Some? then tasks.value.message.GetOr("") else "", UNEXPECTED))
  }

  class Component {
    var refresh: bool
    var tasks: Option<Envelope>
    var loading: bool

    constructor ()
      ensures !refresh && tasks.None? && loading
    {
      refresh := false;
      tasks := None;
      loading := true;
    }

    /**
     * `getTasks`: resets the refresh flag and fetches the list, whose outcome
     * is the input `outcome`. On success `tasks` is the envelope; on failure
     * it is `{status: false, message}`. Loading is over whatever the outcome.
     */
    method GetTasks(outcome: Fetched) returns (sent: Request)
      modifies this
      ensures sent == GetAllTaskRequest
      ensures !refresh && !loading
      ensures Succeeded(outcome) ==> tasks == Some(outcome.reply.body)
      ensures !Succeeded(outcome) ==>
        tasks == Some(Envelope(false, Some(OrElse(ThrownMessage(outcome, FETCH_FAILED), LOAD_FAILED)), None, None))
    {
      loading := true;
      refresh := false;
      sent := GetAllTaskRequest;
      if Succeeded(outcome) {
        tasks := Some(outcome.reply.body);
      } else {
        tasks := Some(Envelope(false, Some(OrElse(ThrownMessage(outcome, FETCH_FAILED), LOAD_FAILED)), None, None));
      }
      loading := false;
    }

    /** `deleteTask`: issues the delete; only a successful outcome sets the refresh flag. */
    method DeleteTask(taskId: string, outcome: Fetched) returns (sent: Request)
      modifies this
      ensures sent == DeleteTaskRequest(taskId)
      ensures refresh == (Succeeded(outcome) || old(refresh))
      ensures tasks == old(tasks) && loading == old(loading)
    {
      sent := DeleteTaskRequest(taskId);
      if Succeeded(outcome) {
        refresh := true;
      }
    }

    /**
     * `toggleTaskComplete`: issues an update carrying only the toggled
     * status; only a successful outcome sets the refresh flag.
     */
    method ToggleTaskComplete(taskId: string, currentStatus: string, outcome: Fetched) returns (sent: Request)
      modifies this
      ensures sent == UpdateTaskRequest(taskId, ToggleBody(currentStatus))
      ensures refresh == (Succeeded(outcome) || old(refresh))
      ensures tasks == old(tasks) && loading == old(loading)
    {
      sent := UpdateTaskRequest(taskId, ToggleBody(currentStatus));
      if Succeeded(outcome) {
        refresh := true;
      }
    }
  }
}
