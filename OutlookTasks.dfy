/**
 * The `outlook_tasks` tool: Microsoft To Do tasks under `/me/todo/lists`.
 * Each operation builds one Graph request from its validated parameters,
 * sends it through the tool's client and wraps the answer, or the error, in
 * a tool result.
 */
module OutlookTasks {
  import opened Wrappers
  import opened Json
  import opened Text
  import opened Graph
  import opened ToolResult
  import opened Payload

  const TaskSelect := "id,title,status,importance,dueDateTime,bodyLastModifiedDateTime,body"
  const TaskListSelect := "id,displayName,isOwner,isShared"
  const DefaultListId := "default"
  const DefaultMaxResults := 50
  const DefaultTaskOrder := "createdDateTime desc"
  const DefaultImportance := "normal"

  datatype ListTasksParams = ListTasksParams(
    listId: Option<string>, maxResults: Option<int>, filter: Option<string>, orderBy: Option<string>)

  datatype CreateTaskParams = CreateTaskParams(
    listId: Option<string>, title: string, dueDateTime: Option<string>,
    importance: Option<string>, body: Option<string>)

  datatype UpdateTaskParams = UpdateTaskParams(
    listId: Option<string>, taskId: string, title: Option<string>, status: Option<string>,
    importance: Option<string>, dueDateTime: Option<string>, body: Option<string>)

  datatype DeleteTaskParams = DeleteTaskParams(listId: Option<string>, taskId: string)

  datatype ListTaskListsParams = ListTaskListsParams(maxResults: Option<int>)

  /** The task properties Graph reads from a task payload. */
  datatype TaskFields = TaskFields(
    title: Option<string>, status: Option<string>, importance: Option<string>,
    dueDateTime: Option<string>, body: Option<string>)

  function ReadTask(v: Value): TaskFields {
    TaskFields(
      StrOf(Get(v, "title")), StrOf(Get(v, "status")), StrOf(Get(v, "importance")),
      UtcDateTimeOf(Get(v, "dueDateTime")), BodyContentOf(Get(v, "body"), "text"))
  }

  /** The zod enumeration of task importances. */
  predicate ValidImportance(s: string) {
    s == "low" || s == "normal" || s == "high"
  }

  /** The zod enumeration of task statuses. */
  predicate ValidStatus(s: string) {
    s in {"notStarted", "inProgress", "completed", "waitingOnOthers", "deferred"}
  }

  /** The bounds the create_task schema puts on its parameters. */
  predicate ValidCreateTask(p: CreateTaskParams) {
    |p.title| >= 1 && (p.importance.Some? ==> ValidImportance(p.importance.value))
  }

  /** `/me/todo/lists/${listId}/tasks`. */
  function TasksPath(listId: string): string {
    "/me/todo/lists/" + listId + "/tasks"
  }

  /** `/me/todo/lists/${listId}/tasks/${taskId}`. */
  function TaskPath(listId: string, taskId: string): string {
    TasksPath(listId) + "/" + taskId
  }

  /** A task path names one list and one task: different (slash-free) list ids or task ids give different paths. */
  lemma TaskPathInjective(l1: string, t1: string, l2: string, t2: string)
    requires '/' !in l1 && '/' !in l2
    requires TaskPath(l1, t1) == TaskPath(l2, t2)
    ensures l1 == l2 && t1 == t2
  {
    var prefix := "/me/todo/lists/";
    var s := TaskPath(l1, t1);
    assert s == prefix + (l1 + ['/'] + ("tasks/" + t1));
    assert s == prefix + (l2 + ['/'] + ("tasks/" + t2));
    var rest := s[|prefix|..];
    assert rest == l1 + ['/'] + ("tasks/" + t1);
    assert rest == l2 + ['/'] + ("tasks/" + t2);
    IndexOfAfter(l1, '/', "tasks/" + t1);
    IndexOfAfter(l2, '/', "tasks/" + t2);
    assert l1 == rest[..|l1|] == l2;
    assert t1 == s[|prefix| + |l1| + 7..] == t2;
  }

  /** The object literal `{ title, dueDateTime, importance, body }`. */
  function TaskLiteral(title: string, due: Value, importance: string, body: Value): (task: Value)
    ensures Keys(task) == {"title", "dueDateTime", "importance", "body"}
    ensures Get(task, "title") == Str(title) && Get(task, "status") == Undefined
    ensures Get(task, "importance") == Str(importance)
    ensures Get(task, "dueDateTime") == due && Get(task, "body") == body
  {
    var f0 := Field("title", Str(title));
    var f1 := Field("dueDateTime", due);
    var f2 := Field("importance", Str(importance));
    var f3 := Field("body", body);
    PropsLiteral(f0, f1, f2);
    PropsSnoc([f0, f1, f2], f3);
    assert [f0, f1, f2] + [f3] == [f0, f1, f2, f3];
    Obj([f0, f1, f2, f3])
  }

  /**
   * The body create_task posts: every property present, `importance`
   * defaulting to 'normal', and `dueDateTime` and `body` undefined unless supplied.
   */
  function CreateTaskBody(p: CreateTaskParams): (task: Value)
    ensures Keys(task) == {"title", "dueDateTime", "importance", "body"}
    ensures ReadTask(task) == TaskFields(
      Some(p.title), None, Some(p.importance.GetOr(DefaultImportance)), Kept(p.dueDateTime), Kept(p.body))
    ensures Get(task, "dueDateTime") == Undefined <==> !Supplied(p.dueDateTime)
    ensures Get(task, "body") == Undefined <==> !Supplied(p.body)
  {
    var due := if Supplied(p.dueDateTime) then UtcDateTime(p.dueDateTime.value) else Undefined;
    var body := if Supplied(p.body) then ContentFirstBody(p.body.value, "text") else Undefined;
    UtcDateTimeRoundTrip(p.dueDateTime.GetOr(""));
    BodyRoundTrip(p.body.GetOr(""), "text");
    TaskLiteral(p.title, due, p.importance.GetOr(DefaultImportance), body)
  }

  /** A task created from schema-valid parameters has a valid importance. */
  lemma CreatedImportanceValid(p: CreateTaskParams)
    requires ValidCreateTask(p)
    ensures ReadTask(CreateTaskBody(p)).importance.Some?
    ensures ValidImportance(ReadTask(CreateTaskBody(p)).importance.value)
  {
  }

  /** The names of the update values that are set (truthy), as patch keys. */
  function SuppliedUpdates(u: UpdateTaskParams): set<string> {
    (if Supplied(u.title) then {"title"} else {})
    + (if Supplied(u.status) then {"status"} else {})
    + (if Supplied(u.importance) then {"importance"} else {})
    + (if Supplied(u.dueDateTime) then {"dueDateTime"} else {})
    + (if Supplied(u.body) then {"body"} else {})
  }

  /** A truthy string parameter as a property value, `undefined` otherwise. */
  function StrIfSupplied(o: Option<string>): Value {
    if Supplied(o) then Str(o.value) else Undefined
  }

  /** What a reader finds in a task object whose five properties hold these values. */
  lemma ReadTaskOf(task: Value, u: UpdateTaskParams)
    requires Get(task, "title") == StrIfSupplied(u.title)
    requires Get(task, "status") == StrIfSupplied(u.status)
    requires Get(task, "importance") == StrIfSupplied(u.importance)
    requires Get(task, "dueDateTime") == if Supplied(u.dueDateTime) then UtcDateTime(u.dueDateTime.value) else Undefined
    requires Get(task, "body") == if Supplied(u.body) then ContentFirstBody(u.body.value, "text") else Undefined
    ensures ReadTask(task) == TaskFields(
      Kept(u.title), Kept(u.status), Kept(u.importance), Kept(u.dueDateTime), Kept(u.body))
  {
    UtcDateTimeRoundTrip(u.dueDateTime.GetOr(""));
    BodyRoundTrip(u.body.GetOr(""), "text");
  }

  /** `if (o) m[key] = v`, on a dictionary. */
  ghost function AssignIf(m: map<string, Value>, key: string, o: Option<string>, v: Value): map<string, Value> {
    if Supplied(o) then m[key := v] else m
  }

  /** The five conditional assignments of update_task, read back key by key. */
  lemma PatchProps(u: UpdateTaskParams, m: map<string, Value>)
    requires m ==
      AssignIf(AssignIf(AssignIf(AssignIf(AssignIf(map[],
        "title", u.title, StrIfSupplied(u.title)),
        "status", u.status, StrIfSupplied(u.status)),
        "importance", u.importance, StrIfSupplied(u.importance)),
        "dueDateTime", u.dueDateTime, UtcDateTime(u.dueDateTime.GetOr(""))),
        "body", u.body, ContentFirstBody(u.body.GetOr(""), "text"))
    ensures m.Keys == SuppliedUpdates(u)
    ensures At(m, "title") == StrIfSupplied(u.title)
    ensures At(m, "status") == StrIfSupplied(u.status)
    ensures At(m, "importance") == StrIfSupplied(u.importance)
    ensures At(m, "dueDateTime") == if Supplied(u.dueDateTime) then UtcDateTime(u.dueDateTime.value) else Undefined
    ensures At(m, "body") == if Supplied(u.body) then ContentFirstBody(u.body.value, "text") else Undefined
  {
  }

  /**
   * The PATCH body update_task sends, filled by conditional assignment: a
   * property for each truthy update value and no other, never `listId` or `taskId`.
   */
  method TaskPatch(u: UpdateTaskParams) returns (task: Value)
    ensures Keys(task) == SuppliedUpdates(u)
    ensures "listId" !in Keys(task) && "taskId" !in Keys(task)
    ensures ReadTask(task) == TaskFields(
      Kept(u.title), Kept(u.status), Kept(u.importance), Kept(u.dueDateTime), Kept(u.body))
  {
    assert "listId" !in SuppliedUpdates(u) && "taskId" !in SuppliedUpdates(u) by {
      assert "listId"[0] != "status"[0] && "taskId"[1] != "title"[1];
    }
    var fields: seq<Field> := [];
    ghost var props: map<string, Value> := map[];
    if Supplied(u.title) {
      fields := Assign(fields, "title", Str(u.title.value));
    }
    props := AssignIf(props, "title", u.title, StrIfSupplied(u.title));
    assert Props(fields) == props;
    if Supplied(u.status) {
      fields := Assign(fields, "status", Str(u.status.value));
    }
    props := AssignIf(props, "status", u.status, StrIfSupplied(u.status));
    assert Props(fields) == props;
    if Supplied(u.importance) {
      fields := Assign(fields, "importance", Str(u.importance.value));
    }
    props := AssignIf(props, "importance", u.importance, StrIfSupplied(u.importance));
    assert Props(fields) == props;
    if Supplied(u.dueDateTime) {
      fields := Assign(fields, "dueDateTime", UtcDateTime(u.dueDateTime.value));
    }
    props := AssignIf(props, "dueDateTime", u.dueDateTime, UtcDateTime(u.dueDateTime.GetOr("")));
    assert Props(fields) == props;
    if Supplied(u.body) {
      fields := Assign(fields, "body", ContentFirstBody(u.body.value, "text"));
    }
    props := AssignIf(props, "body", u.body, ContentFirstBody(u.body.GetOr(""), "text"));
    assert Props(fields) == props;
    PatchProps(u, props);
    task := Obj(fields);
    ReadTaskOf(task, u);
  }

  /** The tool object: its Graph client is set by `initialize`. */
  class OutlookTasksTool {
    var client: Option<Client>

    constructor()
      ensures client == None
    {
      client := None;
    }

    /** `initialize(config)`: keeps the client `createGraphClient(config)` builds. */
    method Initialize(graph: Client)
      modifies this
      ensures client == Some(graph)
    {
      client := Some(graph);
    }

    /**
     * list_tasks: GET the tasks of `listId` (default 'default'), at most
     * `maxResults` (default 50), ordered by `orderBy` (default
     * 'createdDateTime desc'), with `query = query.filter(filter)` only when a filter is given.
     */
    method ListTasks(p: ListTasksParams) returns (r: ToolResult)
      ensures r == Perform(client,
        Request(GET, TasksPath(p.listId.GetOr(DefaultListId)),
          ListQuery(TaskSelect, p.maxResults.GetOr(DefaultMaxResults), p.orderBy.GetOr(DefaultTaskOrder), p.filter),
          Undefined),
        "Failed to list tasks", ListValue)
    {
      var listId := p.listId.GetOr(DefaultListId);
      var maxResults := p.maxResults.GetOr(DefaultMaxResults);
      var orderBy := p.orderBy.GetOr(DefaultTaskOrder);
      var query := [Select(TaskSelect), Top(maxResults), OrderBy(orderBy)];
      if Supplied(p.filter) {
        query := query + [Filter(p.filter.value)];
      }
      r := Perform(client, Request(GET, TasksPath(listId), query, Undefined), "Failed to list tasks", ListValue);
    }

    /** create_task: POST the task body to the list's task collection. */
    function CreateTask(p: CreateTaskParams): (r: ToolResult)
      reads this
      ensures var req := Request(POST, TasksPath(p.listId.GetOr(DefaultListId)), [], CreateTaskBody(p));
        && (r.isError <==> Fails(client, req))
        && (Fails(client, req) ==> r == Failure("Failed to create task", ErrorMessage(client, req)))
        && (!Fails(client, req) ==> r.payload == Created("taskId", "task", Answer(client, req)))
    {
      Perform(client, Request(POST, TasksPath(p.listId.GetOr(DefaultListId)), [], CreateTaskBody(p)),
        "Failed to create task", resp => Created("taskId", "task", resp))
    }

    /** update_task: PATCH the task at `/me/todo/lists/{listId}/tasks/{taskId}` with the patch. */
    method UpdateTask(p: UpdateTaskParams) returns (r: ToolResult, patch: Value)
      ensures Keys(patch) == SuppliedUpdates(p)
      ensures ReadTask(patch) == TaskFields(
        Kept(p.title), Kept(p.status), Kept(p.importance), Kept(p.dueDateTime), Kept(p.body))
      ensures var req := Request(PATCH, TaskPath(p.listId.GetOr(DefaultListId), p.taskId), [], patch);
        && (r.isError <==> Fails(client, req))
        && (Fails(client, req) ==> r == Failure("Failed to update task", ErrorMessage(client, req)))
        && (!Fails(client, req) ==> r.payload == Updated("task", Answer(client, req)))
    {
      var listId := p.listId.GetOr(DefaultListId);
      patch := TaskPatch(p);
      r := Perform(client, Request(PATCH, TaskPath(listId, p.taskId), [], patch),
        "Failed to update task", resp => Updated("task", resp));
    }

    /** delete_task: DELETE the task at `/me/todo/lists/{listId}/tasks/{taskId}`. */
    function DeleteTask(p: DeleteTaskParams): (r: ToolResult)
      reads this
      ensures var req := Request(DELETE, TaskPath(p.listId.GetOr(DefaultListId), p.taskId), [], Undefined);
        && (r.isError <==> Fails(client, req))
        && (Fails(client, req) ==> r == Failure("Failed to delete task", ErrorMessage(client, req)))
        && (!Fails(client, req) ==> Keys(r.payload) == {"success"} && Get(r.payload, "success") == Bool(true))
    {
      var req := Request(DELETE, TaskPath(p.listId.GetOr(DefaultListId), p.taskId), [], Undefined);
      PropsLiteral(Field("success", Bool(true)), Field("", Undefined), Field("", Undefined));
      assert [Field("success", Bool(true))] + [] == [Field("success", Bool(true))];
      Perform(client, req, "Failed to delete task", Deleted)
    }

    /** list_task_lists: GET `/me/todo/lists`, at most `maxResults` (default 50). */
    function ListTaskLists(p: ListTaskListsParams): (r: ToolResult)
      reads this
      ensures var req := Request(GET, "/me/todo/lists",
          [Select(TaskListSelect), Top(p.maxResults.GetOr(DefaultMaxResults))], Undefined);
        && (r.isError <==> Fails(client, req))
        && (Fails(client, req) ==> r == Failure("Failed to list task lists", ErrorMessage(client, req)))
        && (!Fails(client, req) ==> r.payload == Get(Answer(client, req), "value"))
    {
      Perform(client,
        Request(GET, "/me/todo/lists", [Select(TaskListSelect), Top(p.maxResults.GetOr(DefaultMaxResults))], Undefined),
        "Failed to list task lists", ListValue)
    }
  }
}
