# Task tracker: a verified model of its core

This project models the core of a small task tracker. A task has an id, a title, a description, a status (one of Pending, Running, Completed, Failed) and a creation time.

- **Task service.** Five request handlers (create, list, show, update, delete) work over a task collection. Each answers with an HTTP status code (200, 201, 400, 404 or 500, as in section 15 of RFC 9110) and a JSON envelope `{status, message, task?, taskData?}`.
- **Client forms.** A create form and an edit form are checked against object schemas before any request leaves the browser. They track per-field errors, and they clear or keep their input depending on the outcome of the request.
- **Status-driven rendering.** The list view, the task card and the status badge pick what to show from the task's status: the Completed/Pending toggle, a colour per status with a gray fallback, and a toggle button that is disabled once a task is Completed.

Modules, one per source file plus two shared ones:

| file | module | models |
|---|---|---|
| wrappers.dfy | Wrappers | Option and Result |
| task_model.dfy | TaskModel | the Task record, the status enumeration, the envelope, the status codes, the client's requests and fetch outcomes |
| task_controllers.dfy | TaskControllers | `backend/controllers/taskControllers.js`: class `TaskStore`, which holds a map from id to task |
| form_schema.dfy | FormSchema | the schema checking both forms use (length and enumeration rules per field), and `handleInput` |
| home_page.dfy | HomePage | `frontend/src/pages/HomePage.jsx` |
| show_task.dfy | ShowTask | `frontend/src/pages/ShowTask.jsx` |
| task_list_page.dfy | TaskListPage | `frontend/src/pages/TaskListPage.jsx` |
| task_card.dfy | TaskCard | `frontend/src/components/Task.jsx` |
| badge.dfy | Badge | `frontend/src/components/Badge.jsx` |
| client_server.dfy | ClientServer | how the client's requests meet the service |

The document store is abstracted as follows:
- **Id syntax.** ObjectId well-formedness is the store's constant predicate `isObjectId`. A malformed id stands for the store's cast error.
- **Ids and timestamps.** A created task gets `createdAt = clock` and id `mintId(clock)`, and `clock` then grows by one. `mintId` is injective and yields well-formed ids, so ids are fresh and creation times strictly increase.
- **Store errors.** An unexpected store error is the input `fault`. When it is present, its message is carried into the 500 reply.
- **Schema.** The server-side task schema (`backend/models/taskModel.js`) is not part of this model. Its rules are assumed: title and description are required non-empty strings, and status is in the four-value enumeration. `TaskStore.Valid()` keeps them as an invariant of every stored task.

Each client component is a class that holds its React state: `formData`, `err`, `apiData`, `loading`, `refresh` and `tasks`. A handler is a method. The outcome of its `fetch` is an input (`Fetched`: a response or a network error). Where the handler issues a request, the method returns it, so the contracts state that validation decides whether any request is sent.

Three details of the service's code that the model follows:
- **Create reply.** Create answers with the new record under `task`, while show and update answer under `taskData` (`taskControllers.js:22`, `:63`, `:102`).
- **"No fields" check.** Update's no-fields check tests truthiness (`taskControllers.js:85`), so an empty string counts as absent. Such a field is still written by the update, and it then fails the required-field validator, so the reply is 400.
- **Check order.** Update runs its no-fields check before the id cast (`taskControllers.js:85` before `:89`), so an empty body with a malformed id gets "No fields provided for update." rather than the identifier-format error.

## Model

| member | source | states |
|---|---|---|
| TaskControllers.TaskStore.CreateTask | backend/controllers/taskControllers.js:4-31 | A falsy title or description gives 400 `{false, "Title and description are required."}` and no change. A store fault gives 500 with the fault's message or the fallback, and no change. Otherwise exactly one task is added under a fresh, well-formed id, with the given title and description and status Pending whatever the body carried. The reply is 201 `{true, message, task}`. Envelope status holds iff the code is 2xx. |
| TaskControllers.TaskStore.GetAllTask | backend/controllers/taskControllers.js:34-49 | Reads only. With no fault it answers 200 with a list that holds exactly the stored records, in strictly decreasing `createdAt` (newest first). A fault gives 500 with its message or "Failed to retrieve tasks." |
| TaskControllers.TaskStore.ShowTask | backend/controllers/taskControllers.js:52-76 | Reads only. A malformed id gives 400 "Invalid Task ID format." (not 404). A fault gives 500. A well-formed unknown id gives 404 "Task not found.". A stored id gives 200 with exactly that record. |
| TaskControllers.TaskStore.UpdateTask | backend/controllers/taskControllers.js:79-118 | No truthy field gives 400 "No fields provided for update.". Then a malformed id gives 400, a carried field that breaks the schema (an empty text or a status outside the enumeration) gives 400, a fault gives 500, and an unknown id gives 404. Every failure leaves the collection unchanged. On success only that record changes, becoming the `ApplyPatch` of the body, and the reply is 200 with the new record. |
| TaskControllers.TaskStore.DeleteTask | backend/controllers/taskControllers.js:121-145 | A malformed id gives 400, a fault gives 500, and an unknown id gives 404, each with no change. A stored id is removed and nothing else changes (200 `{true, "Task deleted successfully."}`). |
| TaskControllers.SchemaValid | backend/controllers/taskControllers.js:12-17 | The assumed schema the store enforces when a task is saved: it holds iff title and description are truthy and the status is one of Pending, Running, Completed, Failed. |
| TaskControllers.NoFieldsProvided | backend/controllers/taskControllers.js:85-87 | The update guard blocks a body iff every field it carries is the empty string (none is truthy). |
| TaskControllers.PatchValid | backend/controllers/taskControllers.js:89-93 | The `runValidators` check passes iff applying the patch keeps every schema-valid record schema-valid. |
| TaskControllers.ApplyPatch | backend/controllers/taskControllers.js:89-93 | Partial update by field presence. Each field the body carries replaces the record's. Absent fields, the id and `createdAt` are kept. |
| TaskControllers.PatchPreservesSchema | backend/controllers/taskControllers.js:92 | Running the validators on the update keeps the stored record schema-valid: a patch that passes them leaves a valid record valid. |
| TaskControllers.NewestFirstIsDistinct | backend/controllers/taskControllers.js:36 | A list in strictly decreasing `createdAt` repeats no record, so the listing shows every task once. |
| TaskModel.ThrownMessage | frontend/src/pages/ShowTask.jsx:36-37 | A non-2xx response fails with the server's message when it is non-empty, and with exactly the fallback when it is missing or empty. A network error fails with its own message. |
| FormSchema.FirstBroken | frontend/src/pages/HomePage.jsx:11-14 | A field value gives no error iff it meets every rule of its field. Otherwise the error is the message of a rule it breaks. |
| FormSchema.FieldError | frontend/src/pages/HomePage.jsx:11-14 | A field has no error iff it is present and meets all its rules. |
| FormSchema.Errors | frontend/src/pages/HomePage.jsx:43-45 | The error map has an entry for exactly those schema fields that are missing or break a rule. |
| FormSchema.Parse | frontend/src/pages/HomePage.jsx:28 | Parsing succeeds iff every field of the schema is ok. The validated data then has exactly the schema's fields, with their values as entered (unknown keys are stripped). On failure the result is the non-empty error map. |
| FormSchema.BodyOf | frontend/src/pages/HomePage.jsx:33 | The request body carries exactly the fields of the validated data, and a field is absent when the data lacks it. |
| FormSchema.FormOf | frontend/src/pages/ShowTask.jsx:40 | Loading a record into the edit form fills exactly its title, description and status. |
| FormSchema.WithInput | frontend/src/pages/HomePage.jsx:17 | `handleInput` sets the named field to the new value. Every other field keeps its presence and value. |
| FormSchema.ClearError | frontend/src/pages/HomePage.jsx:18-20 | `handleInput` removes the edited field's error. Other errors stay, and no error map appears where there was none. |
| HomePage.TaskSchemaAccepts | frontend/src/pages/HomePage.jsx:11-14 | The create form is valid iff the title has at least 3 characters and the description has between 3 and 500. |
| HomePage.TaskSchemaErrors | frontend/src/pages/HomePage.jsx:11-14 | Title and description are flagged independently, each iff it is out of bounds. A 2-character title and a 501-character description are both reported. Status is never flagged. |
| HomePage.ValidatedCreateData | frontend/src/pages/HomePage.jsx:28 | The validated create data is the title and description as entered, and nothing else. |
| HomePage.Component.HandleInput | frontend/src/pages/HomePage.jsx:16-21 | It updates only the named field and clears only that field's error. |
| HomePage.Component.HandleSubmit | frontend/src/pages/HomePage.jsx:23-51 | It validates before any request. An invalid form sends nothing, sets the per-field errors and keeps the form. A valid form sends the create request with the validated data and clears the errors. After a successful create the form is empty; after a failure it is kept as entered. |
| ShowTask.TaskSchemaAccepts | frontend/src/pages/ShowTask.jsx:15-19 | The edit form is valid iff the title has at least 3 characters, the description has between 3 and 500, and the status is Pending, Running, Completed or Failed. |
| ShowTask.PlaceholderStatusRejected | frontend/src/pages/ShowTask.jsx:18 | The "Select Status" placeholder value `""` fails validation, and the failure is reported on the status field. |
| ShowTask.ValidatedUpdateData | frontend/src/pages/ShowTask.jsx:56 | The validated edit data is exactly title, description and status as entered. |
| ShowTask.FromEnvelope | frontend/src/pages/ShowTask.jsx:39 | `apiData` keeps the fetched envelope's status and message, and the record it carries. |
| ShowTask.WithTaskData | frontend/src/pages/ShowTask.jsx:71 | After an update, `apiData.taskData` is the validated data. The previous status and message are kept, and with no previous `apiData` the status is false. |
| ShowTask.Render | frontend/src/pages/ShowTask.jsx:93-104 | The spinner shows iff loading. Otherwise the error panel shows iff `apiData` is missing or its status is false, with a non-empty message. Otherwise the edit form shows, holding the current form data and errors. |
| ShowTask.Component.HandleInput | frontend/src/pages/ShowTask.jsx:21-27 | It sets only the named field and clears only that field's error. Nothing else changes. |
| ShowTask.Component.GetTask | frontend/src/pages/ShowTask.jsx:30-47 | It fetches the task by its id. On success `apiData` is the envelope and the form holds the record. On failure `apiData` is `{status: false, message}` and the form is unchanged. Loading is false afterwards either way. |
| ShowTask.Component.HandleSubmit | frontend/src/pages/ShowTask.jsx:51-82 | It validates before any request. An invalid form sends nothing and sets the per-field errors. A valid form sends the update request with the validated data. After success `apiData.taskData` is that data. The form itself is never changed. |
| TaskListPage.ToggleTarget | frontend/src/pages/TaskListPage.jsx:61 | The target is Pending iff the current status is Completed, and Completed for every other status. It is always in the enumeration. |
| TaskListPage.ToggleInvolution | frontend/src/pages/TaskListPage.jsx:61 | Toggling twice returns Pending to Pending and Completed to Completed. |
| TaskListPage.ToggleBody | frontend/src/pages/TaskListPage.jsx:66 | The toggle request body carries the new status and nothing else. |
| TaskListPage.Render | frontend/src/pages/TaskListPage.jsx:81-137 | The spinner shows iff loading. The list shows iff the fetched envelope has status true and a non-empty array. The error panel shows iff there is no envelope, its status is false or it has no `taskData`. What is left is the empty notice. |
| TaskListPage.Component.GetTasks | frontend/src/pages/TaskListPage.jsx:21-38 | It resets `refresh` and sends the list request. On success `tasks` is the envelope; on failure it is `{status: false, message}`. Loading is false afterwards. |
| TaskListPage.Component.DeleteTask | frontend/src/pages/TaskListPage.jsx:42-57 | It sends the delete for the given id. Only a successful outcome sets `refresh`. `tasks` and `loading` are untouched. |
| TaskListPage.Component.ToggleTaskComplete | frontend/src/pages/TaskListPage.jsx:60-78 | It sends an update whose body carries only the toggled status. Only a successful outcome sets `refresh`. `tasks` and `loading` are untouched. |
| TaskCard.BadgeColor | frontend/src/components/Task.jsx:8-21 | Pending→blue, Running→yellow, Completed→green, Failed→red, and any other status→gray. |
| TaskCard.StatusColorsDistinct | frontend/src/components/Task.jsx:9-17 | The four statuses map to four distinct colours, none of them gray. |
| TaskCard.StatusBadgeClass | frontend/src/components/Task.jsx:48 | Combined with the badge, every status selects a class of the table, and the class is non-gray iff the status is one of the four. |
| TaskCard.IsCompleted | frontend/src/components/Task.jsx:33 | A task counts as completed iff its status is exactly "Completed", which is one of the four schema statuses. |
| TaskCard.ToggleButton | frontend/src/components/Task.jsx:57-73 | The toggle button is disabled, and labelled "Completed", iff the task's status is Completed. |
| TaskCard.HandleClick | frontend/src/components/Task.jsx:23-30 | Delete hands over the task's id. Toggle hands over the id and the current status unchanged. A disabled toggle fires nothing. |
| TaskCard.Render | frontend/src/components/Task.jsx:35-92 | The card shows the title and description as stored and the status as the badge text. The badge's class is the table class of the status's colour (`SelectedColorClass(BadgeColor(status))`). It is struck through, and its toggle disabled, iff the task is completed. |
| Badge.SelectedColorClass | frontend/src/components/Badge.jsx:11-21 | The lookup is total. It gives the table's class for a known colour name and the gray class for an unknown one, and it is always one of the six table entries. |
| Badge.ColorClassesDistinct | frontend/src/components/Badge.jsx:11-18 | The six colour names have six different classes. |
| Badge.GrayOnlyForGrayOrUnknown | frontend/src/components/Badge.jsx:21 | The gray class is selected iff the colour is "gray" or unknown. |
| Badge.Render | frontend/src/components/Badge.jsx:23-36 | The badge text is rendered unchanged, with exactly the class `SelectedColorClass(color)` selects, which is always a table entry. |
| ClientServer.CreateFormPassesServerCheck | backend/controllers/taskControllers.js:8-10 | A create form that passes client validation sends a truthy title and description, so the service's required-field check passes. |
| ClientServer.UpdateFormPassesServerChecks | backend/controllers/taskControllers.js:85-93 | An edit form that passes client validation passes the "no fields" guard and the update validators. Its update replaces all three fields. |
| ClientServer.ToggleChangesStatusOnly | frontend/src/pages/TaskListPage.jsx:66 | The toggle body always passes the update's checks, and its update changes the status alone. Title, description and id are kept. |
| ClientServer.CardToggleCompletes | frontend/src/components/Task.jsx:69 | Any toggle a card can fire targets Completed. A completed task's button is disabled, so the list never sends the Pending branch. |
| ClientServer.ListingRenders | frontend/src/pages/TaskListPage.jsx:109-131 | A successful listing renders as the list when it is non-empty and as the empty notice otherwise, never as the error panel. |
| ClientServer.DeleteThenShow | backend/controllers/taskControllers.js:125-134 | After a successful delete, showing the same id gives 404. Deleting an unknown id gives 404 and changes nothing. |
| ClientServer.CreateThenShow | backend/controllers/taskControllers.js:12-22 | A created task can then be shown. It has the given title and description and status Pending. |

## Left out

- I/O, `fetch`, JSON parsing, toasts, React effect scheduling and async ordering are not modelled. Each request's outcome is an input to the state update, and a response body that is not JSON counts as a network error.
- Input arriving while a submit is awaiting its response is not modelled: each handler runs as one step.
- Concurrent clients are not modelled. The race between two updates of the same task (last write wins) is outside a model that runs one request at a time.
- Express setup, routing, CORS, the database connection, the liveness route and its test are not modelled. `backend/index.js`, `backend/routes/taskRoutes.js` and `backend/test/task.test.js` are not part of this model; the five handlers carry their route names.
- The store's internals are not modelled. The ObjectId syntax is the abstract predicate `isObjectId`, id generation is the injective `mintId`, and `updatedAt` is left out. The schema library's validation message is represented by one constant.
- Request body fields are either absent or strings. JSON `null`, numbers and other non-string values are not modelled.
- FormSchema.FieldError: the message for a missing field is the schema library's default "Required". The actual wording, and which message `getZodError` keeps when a field breaks several rules, are not modelled. The model keeps the first rule's message.
- String lengths are counted in characters of `seq<char>`. The schema library counts UTF-16 code units, so the two differ for characters outside the Basic Multilingual Plane.
- ShowTask.Component.GetTask: the form becomes empty, not `undefined`, when a successful reply carries no single record. The service's show handler always carries one.
- Badge.SelectedColorClass: inherited object keys such as "toString" are treated as unknown colours. They cannot be reached, because `BadgeColor` only yields the five names it lists.
- Animations, Tailwind class strings other than the badge table, `Layout.jsx` and `Navigation.jsx` are presentation only and are not modelled.
