/**
 * The five request handlers of the task service over an in-memory task
 * collection. Each handler reads or changes the collection and answers with
 * an HTTP status code and a `{status, message, task?, taskData?}` envelope.
 *
 * The document store is abstracted as follows: the ObjectId syntax is the
 * predicate `isObjectId` (a malformed id makes the store raise a cast error);
 * a new task's id is `mintId(clock)` and its `createdAt` is `clock`, a counter
 * that grows by one per created task; an unexpected store error is the input
 * `fault`, its message carried along.
 */
module TaskControllers {
  import opened Wrappers
  import opened TaskModel

  const MISSING_FIELDS: string := "Title and description are required."
  const CREATED_MESSAGE: string := "Task created successfully."
  const CREATE_FAILED: string := "Failed to create task."
  const LIST_FAILED: string := "Failed to retrieve tasks."
  const NOT_FOUND_MESSAGE: string := "Task not found."
  const SHOW_FAILED: string := "Failed to retrieve task."
  const INVALID_ID: string := "Invalid Task ID format."
  const NO_FIELDS: string := "No fields provided for update."
  const UPDATE_NOT_FOUND: string := "Task not found for update."
  const UPDATED_MESSAGE: string := "Task updated successfully."
  const UPDATE_FAILED: string := "Failed to update task."
  /** Stands for the schema library's validation error text, which is not modelled. */
  const VALIDATION_FAILED: string := "Validation failed."
  const DELETE_NOT_FOUND: string := "Task not found for deletion."
  const DELETED_MESSAGE: string := "Task deleted successfully."
  const DELETE_FAILED: string := "Failed to delete task."

  /** The schema's constraints on a stored task: required text fields and the status enumeration. */
  function SchemaValid(t: Task): (b: bool)
    ensures b <==> Truthy(Some(t.title)) && Truthy(Some(t.description)) && t.status in [PENDING, RUNNING, COMPLETED, FAILED]
  {
    t.title != "" && t.description != "" && IsTaskStatus(t.status)
  }

  /** The "no fields" guard of update: none of the three fields is truthy. */
  function NoFieldsProvided(body: TaskBody): (b: bool)
    ensures b <==> && (body.title.Some? ==> body.title.value == "")
                   && (body.description.Some? ==> body.description.value == "")
                   && (body.status.Some? ==> body.status.value == "")
  {
    !Truthy(body.title) && !Truthy(body.description) && !Truthy(body.status)
  }

  /**
   * The update validators: every field the body carries must satisfy the
   * schema (required text is non-empty, status is in the enumeration), which
   * is exactly when the patch keeps every schema-valid record schema-valid.
   */
  function PatchValid(body: TaskBody): (b: bool)
    ensures b <==> forall t :: SchemaValid(t) ==> SchemaValid(ApplyPatch(t, body))
  {
    // a schema-valid record on which an invalid patch shows
    var valid := Task("", "-", "-", PENDING, 0);
    assert SchemaValid(valid) && ApplyPatch(valid, body).title == body.title.GetOr("-");
    && (body.title.Some? ==> body.title.value != "")
    && (body.description.Some? ==> body.description.value != "")
    && (body.status.Some? ==> IsTaskStatus(body.status.value))
  }

  /** Partial update by field presence: the fields the body carries replace the record's. */
  function ApplyPatch(t: Task, body: TaskBody): (u: Task)
    ensures u.id == t.id && u.createdAt == t.createdAt
    ensures u.title == (if body.title.Some? then body.title.value else t.title)
    ensures u.description == (if body.description.Some? then body.description.value else t.description)
    ensures u.status == (if body.status.Some? then body.status.value else t.status)
  {
    t.(title := body.title.GetOr(t.title),
       description := body.description.GetOr(t.description),
       status := body.status.GetOr(t.status))
  }

  /** A validated patch keeps a schema-valid record schema-valid. */
  lemma PatchPreservesSchema(t: Task, body: TaskBody)
    requires SchemaValid(t) && PatchValid(body)
    ensures SchemaValid(ApplyPatch(t, body))
  {
  }

  /** Newest first: `createdAt` strictly decreases along the list. */
  predicate NewestFirst(s: seq<Task>) {
    forall i, j :: 0 <= i < j < |s| ==> s[i].createdAt > s[j].createdAt
  }

  /** `s` holds exactly the records of `m`. */
  predicate HoldsExactly(s: seq<Task>, m: map<string, Task>) {
    && (forall i :: 0 <= i < |s| ==> s[i].id in m && m[s[i].id] == s[i])
    && (forall id :: id in m ==> m[id] in s)
  }

  /** A strictly ordered list has no repeated record. */
  lemma NewestFirstIsDistinct(s: seq<Task>, i: nat, j: nat)
    requires NewestFirst(s) && i < j < |s|
    ensures s[i] != s[j]
  {
    assert s[i].createdAt > s[j].createdAt;
  }

  class TaskStore {
    /** The task collection, keyed by id. */
    var tasks: map<string, Task>
    /** The next creation counter. */
    var clock: nat
    /** The store's ObjectId syntax check. */
    const isObjectId: string -> bool
    /** The store's id generator, applied to the creation counter. */
    const mintId: nat -> string

    ghost predicate Valid()
      reads this
    {
      && (forall m, n :: mintId(m) == mintId(n) ==> m == n)
      && (forall n :: isObjectId(mintId(n)))
      && (forall id :: id in tasks ==>
            && tasks[id].id == id
            && tasks[id].createdAt < clock
            && mintId(tasks[id].createdAt) == id
            && SchemaValid(tasks[id]))
    }

    constructor (isObjectId: string -> bool, mintId: nat -> string)
      requires forall m, n :: mintId(m) == mintId(n) ==> m == n
      requires forall n :: isObjectId(mintId(n))
      ensures Valid()
      ensures tasks == map[] && clock == 0
      ensures this.isObjectId == isObjectId && this.mintId == mintId
    {
      this.isObjectId := isObjectId;
      this.mintId := mintId;
      tasks := map[];
      clock := 0;
    }

    /**
     * POST /create-task. A falsy title or description is refused with 400;
     * otherwise one task is stored with the given text, status "Pending"
     * whatever the body said, and a fresh id, and returned under `task`.
     */
    method CreateTask(body: TaskBody, fault: Option<string>) returns (r: Reply)
      requires Valid()
      modifies this
      ensures Valid()
      ensures r.body.status <==> IsSuccessful(r.code)
      ensures !Truthy(body.title) || !Truthy(body.description) ==>
        r == ErrorReply(BAD_REQUEST, MISSING_FIELDS) && tasks == old(tasks) && clock == old(clock)
      ensures Truthy(body.title) && Truthy(body.description) && fault.Some? ==>
        r == ErrorReply(INTERNAL_SERVER_ERROR, OrElse(fault.value, CREATE_FAILED))
        && tasks == old(tasks) && clock == old(clock)
      ensures Truthy(body.title) && Truthy(body.description) && fault.None? ==>
        var t := Task(mintId(old(clock)), body.title.value, body.description.value, PENDING, old(clock));
        && t.id !in old(tasks)
        && isObjectId(t.id)
        && tasks == old(tasks)[t.id := t]
        && clock == old(clock) + 1
        && r == Reply(CREATED, Envelope(true, Some(CREATED_MESSAGE), Some(t), None))
    {
      if !Truthy(body.title) || !Truthy(body.description) {
        return ErrorReply(BAD_REQUEST, MISSING_FIELDS);
      }
      if fault.Some? {
        return ErrorReply(INTERNAL_SERVER_ERROR, OrElse(fault.value, CREATE_FAILED));
      }
      var t := Task(mintId(clock), body.title.value, body.description.value, PENDING, clock);
      // every stored id was minted from an earlier counter value, and minting is injective
      assert t.id !in tasks;
      tasks := tasks[t.id := t];
      clock := clock + 1;
      r := Reply(CREATED, Envelope(true, Some(CREATED_MESSAGE), Some(t), None));
    }

    /**
     * GET /get-all-task. Every stored task, newest first, under `taskData`;
     * the collection is only read. Scans the creation counter downwards, the
     * way the store's sort on `createdAt` descending delivers the records.
     */
    method GetAllTask(fault: Option<string>) returns (r: Reply)
      requires Valid()
      ensures r.body.status <==> IsSuccessful(r.code)
      ensures fault.Some? ==> r == ErrorReply(INTERNAL_SERVER_ERROR, OrElse(fault.value, LIST_FAILED))
      ensures fault.None? ==>
        && r.code == OK && r.body.status && r.body.message.None? && r.body.task.None?
        && r.body.taskData.Some? && r.body.taskData.value.Many?
        && NewestFirst(r.body.taskData.value.records)
        && HoldsExactly(r.body.taskData.value.records, tasks)
    {
      if fault.Some? {
        return ErrorReply(INTERNAL_SERVER_ERROR, OrElse(fault.value, LIST_FAILED));
      }
      var list: seq<Task> := [];
      var k: nat := clock;
      while k > 0
        invariant k <= clock
        invariant ScannedFrom(list, k)
      {
        k := k - 1;
        var id := mintId(k);
        if id in tasks {
          ScanTake(list, k, id);
          list := list + [tasks[id]];
        } else {
          ScanSkip(list, k, id);
        }
      }
      r := Reply(OK, Envelope(true, None, None, Some(Many(list))));
    }

    /**
     * The scan invariant: `list` holds, newest first, exactly the stored
     * records created at counter `k` or later.
     */
    ghost predicate ScannedFrom(list: seq<Task>, k: nat)
      reads this
    {
      && (forall i :: 0 <= i < |list| ==> list[i].id in tasks && tasks[list[i].id] == list[i])
      && (forall i :: 0 <= i < |list| ==> list[i].createdAt >= k)
      && NewestFirst(list)
      && (forall id :: id in tasks && tasks[id].createdAt >= k ==> tasks[id] in list)
    }

    /** The only record that can have been created at counter `k` is stored under `mintId(k)`. */
    lemma CreatedAt(k: nat, id: string)
      requires Valid() && id in tasks && tasks[id].createdAt == k
      ensures id == mintId(k)
    {
    }

    /** One scan step over a counter value whose id is stored: its record joins the end of the list. */
    lemma ScanTake(list: seq<Task>, k: nat, id: string)
      requires Valid() && ScannedFrom(list, k + 1)
      requires id == mintId(k) && id in tasks
      ensures ScannedFrom(list + [tasks[id]], k)
    {
      assert mintId(tasks[id].createdAt) == mintId(k);
      var list' := list + [tasks[id]];
      forall id' | id' in tasks && tasks[id'].createdAt >= k
        ensures tasks[id'] in list'
      {
        if tasks[id'].createdAt == k {
          CreatedAt(k, id');
        } else {
          assert tasks[id'] in list;
        }
      }
    }

    /** One scan step over a counter value whose id is not stored. */
    lemma ScanSkip(list: seq<Task>, k: nat, id: string)
      requires Valid() && ScannedFrom(list, k + 1)
      requires id == mintId(k) && id !in tasks
      ensures ScannedFrom(list, k)
    {
      forall id' | id' in tasks && tasks[id'].createdAt >= k
        ensures tasks[id'] in list
      {
        if tasks[id'].createdAt == k {
          CreatedAt(k, id');
        }
      }
    }

    /**
     * GET /show-task/:id. A malformed id is 400, a well-formed unknown id 404,
     * a stored id 200 with exactly that record; the collection is only read.
     */
    method ShowTask(id: string, fault: Option<string>) returns (r: Reply)
      requires Valid()
      ensures r.body.status <==> IsSuccessful(r.code)
      ensures !isObjectId(id) ==> r == ErrorReply(BAD_REQUEST, INVALID_ID)
      ensures isObjectId(id) && fault.Some? ==> r == ErrorReply(INTERNAL_SERVER_ERROR, OrElse(fault.value, SHOW_FAILED))
      ensures isObjectId(id) && fault.None? && id !in tasks ==> r == ErrorReply(NOT_FOUND, NOT_FOUND_MESSAGE)
      ensures isObjectId(id) && fault.None? && id in tasks ==>
        r == Reply(OK, Envelope(true, None, None, Some(One(tasks[id]))))
      ensures r.code == OK ==> id in tasks && r.body.taskData == Some(One(tasks[id])) && r.body.taskData.value.record.id == id
    {
      if !isObjectId(id) {
        return ErrorReply(BAD_REQUEST, INVALID_ID);
      }
      if fault.Some? {
        return ErrorReply(INTERNAL_SERVER_ERROR, OrElse(fault.value, SHOW_FAILED));
      }
      if id !in tasks {
        return ErrorReply(NOT_FOUND, NOT_FOUND_MESSAGE);
      }
      r := Reply(OK, Envelope(true, None, None, Some(One(tasks[id]))));
    }

    /**
     * PUT /update-task/:id. The "no fields" guard comes first, then the id
     * cast, then the update validators; a stored id is patched with exactly
     * the fields the body carries and the new record returned. Every failure
     * leaves the collection as it was.
     */
    method UpdateTask(id: string, body: TaskBody, fault: Option<string>) returns (r: Reply)
      requires Valid()
      modifies this
      ensures Valid()
      ensures clock == old(clock)
      ensures r.body.status <==> IsSuccessful(r.code)
      ensures r.code != OK ==> tasks == old(tasks)
      ensures NoFieldsProvided(body) ==> r == ErrorReply(BAD_REQUEST, NO_FIELDS)
      ensures !NoFieldsProvided(body) && !isObjectId(id) ==> r == ErrorReply(BAD_REQUEST, INVALID_ID)
      ensures !NoFieldsProvided(body) && isObjectId(id) && !PatchValid(body) ==>
        r == ErrorReply(BAD_REQUEST, VALIDATION_FAILED)
      ensures !NoFieldsProvided(body) && isObjectId(id) && PatchValid(body) && fault.Some? ==>
        r == ErrorReply(INTERNAL_SERVER_ERROR, OrElse(fault.value, UPDATE_FAILED))
      ensures !NoFieldsProvided(body) && isObjectId(id) && PatchValid(body) && fault.None? && id !in old(tasks) ==>
        r == ErrorReply(NOT_FOUND, UPDATE_NOT_FOUND)
      ensures !NoFieldsProvided(body) && isObjectId(id) && PatchValid(body) && fault.None? && id in old(tasks) ==>
        var u := ApplyPatch(old(tasks)[id], body);
        && tasks == old(tasks)[id := u]
        && r == Reply(OK, Envelope(true, Some(UPDATED_MESSAGE), None, Some(One(u))))
    {
      if NoFieldsProvided(body) {
        return ErrorReply(BAD_REQUEST, NO_FIELDS);
      }
      if !isObjectId(id) {
        return ErrorReply(BAD_REQUEST, INVALID_ID);
      }
      if !PatchValid(body) {
        return ErrorReply(BAD_REQUEST, VALIDATION_FAILED);
      }
      if fault.Some? {
        return ErrorReply(INTERNAL_SERVER_ERROR, OrElse(fault.value, UPDATE_FAILED));
      }
      if id !in tasks {
        return ErrorReply(NOT_FOUND, UPDATE_NOT_FOUND);
      }
      var u := ApplyPatch(tasks[id], body);
      PatchPreservesSchema(tasks[id], body);
      tasks := tasks[id := u];
      r := Reply(OK, Envelope(true, Some(UPDATED_MESSAGE), None, Some(One(u))));
    }

    /**
     * DELETE /delete-task/:id. A malformed id is 400, an unknown id 404; a
     * stored id is removed, and nothing else.
     */
    method DeleteTask(id: string, fault: Option<string>) returns (r: Reply)
      requires Valid()
      modifies this
      ensures Valid()
      ensures clock == old(clock)
      ensures r.body.status <==> IsSuccessful(r.code)
      ensures r.code != OK ==> tasks == old(tasks)
      ensures !isObjectId(id) ==> r == ErrorReply(BAD_REQUEST, INVALID_ID)
      ensures isObjectId(id) && fault.Some? ==> r == ErrorReply(INTERNAL_SERVER_ERROR, OrElse(fault.value, DELETE_FAILED))
      ensures isObjectId(id) && fault.None? && id !in old(tasks) ==> r == ErrorReply(NOT_FOUND, DELETE_NOT_FOUND)
      ensures isObjectId(id) && fault.None? && id in old(tasks) ==>
        && tasks == old(tasks) - {id}
        && r == Reply(OK, Envelope(true, Some(DELETED_MESSAGE), None, None))
    {
      if !isObjectId(id) {
        return ErrorReply(BAD_REQUEST, INVALID_ID);
      }
      if fault.Some? {
        return ErrorReply(INTERNAL_SERVER_ERROR, OrElse(fault.value, DELETE_FAILED));
      }
      if id !in tasks {
        return ErrorReply(NOT_FOUND, DELETE_NOT_FOUND);
      }
      tasks := tasks - {id};
      r := Reply(OK, Envelope(true, Some(DELETED_MESSAGE), None, None));
    }
  }
}
