/**
 * The Task entity and the wire format shared by the server and the client:
 * the four status values, the JSON envelope every endpoint answers with,
 * the HTTP status codes used (RFC 9110, section 15), the requests the client
 * issues and the outcome of a client-side fetch.
 */
module TaskModel {
  import opened Wrappers

  const PENDING: string := "Pending"
  const RUNNING: string := "Running"
  const COMPLETED: string := "Completed"
  const FAILED: string := "Failed"

  /** The status enumeration of the task schema. */
  predicate IsTaskStatus(s: string) {
    s == PENDING || s == RUNNING || s == COMPLETED || s == FAILED
  }

  /** A stored task; `createdAt` is the store's creation counter. */
  datatype Task = Task(id: string, title: string, description: string, status: string, createdAt: nat)

  /**
   * A request body as the server reads it. `None` is a key that is absent
   * (or `undefined`); `Some(v)` a key present with the string `v`.
   */
  datatype TaskBody = TaskBody(title: Option<string>, description: Option<string>, status: Option<string>)

  /** JavaScript truthiness of an optional string: present and non-empty. */
  predicate Truthy(v: Option<string>) {
    v.Some? && v.value != ""
  }

  /** `a || b` on strings: the first unless it is empty. */
  function OrElse(a: string, b: string): (r: string)
    ensures a != "" ==> r == a
    ensures a == "" ==> r == b
  {
    if a != "" then a else b
  }

  /** The `taskData` payload: one record (show, update) or a list (get-all). */
  datatype TaskData = One(record: Task) | Many(records: seq<Task>)

  /**
   * The JSON envelope `{status, message?, task?, taskData?}`. Only create
   * answers with `task`; the reads and update answer with `taskData`.
   */
  datatype Envelope = Envelope(status: bool, message: Option<string>, task: Option<Task>, taskData: Option<TaskData>)

  /** An HTTP response: status code and JSON body. */
  datatype Reply = Reply(code: int, body: Envelope)

  // Status codes of RFC 9110, section 15.
  const OK: int := 200
  const CREATED: int := 201
  const BAD_REQUEST: int := 400
  const NOT_FOUND: int := 404
  const INTERNAL_SERVER_ERROR: int := 500

  /** `response.ok` of the Fetch standard: a 2xx code. */
  predicate IsSuccessful(code: int) {
    200 <= code <= 299
  }

  /** An error reply with no payload. */
  function ErrorReply(code: int, message: string): (r: Reply)
    ensures !r.body.status && r.body.message == Some(message)
    ensures r.body.task.None? && r.body.taskData.None?
  {
    Reply(code, Envelope(false, Some(message), None, None))
  }

  /** The requests the client issues, one per route of the task router. */
  datatype Request =
    | CreateTaskRequest(body: TaskBody)
    | GetAllTaskRequest
    | ShowTaskRequest(id: string)
    | UpdateTaskRequest(id: string, body: TaskBody)
    | DeleteTaskRequest(id: string)

  /** The outcome of a client `fetch`: a response, or a thrown network error. */
  datatype Fetched = Received(reply: Reply) | NetworkError(message: string)

  /** True when the client took the success branch: a response with `response.ok`. */
  predicate Succeeded(f: Fetched) {
    f.Received? && IsSuccessful(f.reply.code)
  }

  /**
   * The message of the error a failed fetch throws: for a non-2xx response the
   * server's `message || fallback`, for a network error the thrown message.
   */
  function ThrownMessage(f: Fetched, fallback: string): (m: string)
    requires !Succeeded(f)
    ensures f.Received? && f.reply.body.message.Some? && f.reply.body.message.value != "" ==> m == f.reply.body.message.value
    ensures f.Received? && (f.reply.body.message.None? || f.reply.body.message.value == "") ==> m == fallback
    ensures f.Received? && fallback != "" ==> m != ""
    ensures f.NetworkError? ==> m == f.message
  {
    match f
    case Received(reply) => OrElse(reply.body.message.GetOr(""), fallback)
    case NetworkError(msg) => msg
  }
}
