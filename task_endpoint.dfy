/**
 * Endpoints of the task service and the client-side `Set`
 * (taskendpoint/set.go). Every endpoint first reads the caller from the JWT
 * claims; the client-side `Set` sends no caller at all, relying on the token
 * travelling with the request.
 */
module TaskEndpoint {
  import opened Kit
  import opened TaskService

  datatype CreateTaskRequest = CreateTaskRequest(title: string, description: string)
  datatype CreateTaskResponse = CreateTaskResponse(task: Task, err: Option<Err>) {
    function Failed(): Option<Err> { err }
  }

  datatype TasksRequest = TasksRequest
  datatype TasksResponse = TasksResponse(tasks: seq<Task>, err: Option<Err>) {
    function Failed(): Option<Err> { err }
  }

  datatype TaskRequest = TaskRequest(taskID: Uint64)
  datatype TaskResponse = TaskResponse(task: Task, err: Option<Err>) {
    function Failed(): Option<Err> { err }
  }

  datatype UpdateTaskRequest = UpdateTaskRequest(taskID: Uint64, title: string, description: string, done: bool)
  datatype UpdateTaskResponse = UpdateTaskResponse(task: Task, err: Option<Err>) {
    function Failed(): Option<Err> { err }
  }

  datatype DeleteTaskRequest = DeleteTaskRequest(taskID: Uint64)
  datatype DeleteTaskResponse = DeleteTaskResponse(result: bool, err: Option<Err>) {
    function Failed(): Option<Err> { err }
  }

  /** The task service operations behind the endpoints. */
  type CreateTaskOp = (Ctx, Auth, string, string) -> Ret<Task>
  type TasksOp = (Ctx, Auth) -> Ret<seq<Task>>
  type TaskOp = (Ctx, Auth, Uint64) -> Ret<Task>
  type UpdateTaskOp = (Ctx, Auth, Task) -> Ret<Task>
  type DeleteTaskOp = (Ctx, Auth, Uint64) -> Ret<bool>

  /**
   * `claims`: the caller is the `uuid` claim and the `user_id` claim; every
   * way of failing (no claims, a non-string `uuid`, a `user_id` that is not a
   * uint64) is the same ClaimsMissing error.
   */
  function ClaimsAuth(ctx: Ctx): (r: Result<Auth>)
    ensures r.Fail? ==> r.err == TaskSvcClaimsMissing
    ensures r.Ok? <==>
      && ContextClaims(ctx).Some?
      && StringClaim(ContextClaims(ctx).value, "uuid").Some?
      && Uint64Claim(ContextClaims(ctx).value, "user_id").Some?
    ensures r.Ok? ==>
      var c := ContextClaims(ctx).value;
      && "uuid" in c && c["uuid"] == Str(r.value.accessUUID)
      && "user_id" in c && c["user_id"] == Num(r.value.userID)
  {
    match ContextClaims(ctx)
    case None => Fail(TaskSvcClaimsMissing)
    case Some(c) =>
      match StringClaim(c, "uuid")
      case None => Fail(TaskSvcClaimsMissing)
      case Some(uuid) =>
        match Uint64Claim(c, "user_id")
        case None => Fail(TaskSvcClaimsMissing)
        case Some(userID) => Ok(Auth(uuid, userID))
  }

  /** `MakeCreateTaskEndpoint`: the response carries a claims failure, or the service's result for the claimed caller. */
  function MakeCreateTaskEndpoint(createTask: CreateTaskOp, ctx: Ctx, req: CreateTaskRequest): (r: Reply<CreateTaskResponse>)
    ensures r.Response?
    ensures ClaimsAuth(ctx).Fail? ==> r.value == CreateTaskResponse(ZeroTask, Some(TaskSvcClaimsMissing))
    ensures ClaimsAuth(ctx).Ok? ==>
      var s := createTask(ctx, ClaimsAuth(ctx).value, req.title, req.description);
      r.value == CreateTaskResponse(s.value, s.err)
  {
    match ClaimsAuth(ctx)
    case Fail(e) => Response(CreateTaskResponse(ZeroTask, Some(e)))
    case Ok(auth) =>
      var s := createTask(ctx, auth, req.title, req.description);
      Response(CreateTaskResponse(s.value, s.err))
  }

  /** `MakeTasksEndpoint`. */
  function MakeTasksEndpoint(tasks: TasksOp, ctx: Ctx, req: TasksRequest): (r: Reply<TasksResponse>)
    ensures r.Response?
    ensures ClaimsAuth(ctx).Fail? ==> r.value == TasksResponse([], Some(TaskSvcClaimsMissing))
    ensures ClaimsAuth(ctx).Ok? ==>
      var s := tasks(ctx, ClaimsAuth(ctx).value);
      r.value == TasksResponse(s.value, s.err)
  {
    match ClaimsAuth(ctx)
    case Fail(e) => Response(TasksResponse([], Some(e)))
    case Ok(auth) =>
      var s := tasks(ctx, auth);
      Response(TasksResponse(s.value, s.err))
  }

  /** `MakeTaskEndpoint`. */
  function MakeTaskEndpoint(getTask: TaskOp, ctx: Ctx, req: TaskRequest): (r: Reply<TaskResponse>)
    ensures r.Response?
    ensures ClaimsAuth(ctx).Fail? ==> r.value == TaskResponse(ZeroTask, Some(TaskSvcClaimsMissing))
    ensures ClaimsAuth(ctx).Ok? ==>
      var s := getTask(ctx, ClaimsAuth(ctx).value, req.taskID);
      r.value == TaskResponse(s.value, s.err)
  {
    match ClaimsAuth(ctx)
    case Fail(e) => Response(TaskResponse(ZeroTask, Some(e)))
    case Ok(auth) =>
      var s := getTask(ctx, auth, req.taskID);
      Response(TaskResponse(s.value, s.err))
  }

  /** The task record the UpdateTask endpoint builds: the request's fields, owned by the claimed caller. */
  function RequestTask(req: UpdateTaskRequest, auth: Auth): Task {
    Task(req.taskID, req.title, req.description, req.done, auth.userID)
  }

  /** `MakeUpdateTaskEndpoint`: the task's owner is the claimed caller, never something the request says. */
  function MakeUpdateTaskEndpoint(updateTask: UpdateTaskOp, ctx: Ctx, req: UpdateTaskRequest): (r: Reply<UpdateTaskResponse>)
    ensures r.Response?
    ensures ClaimsAuth(ctx).Fail? ==> r.value == UpdateTaskResponse(ZeroTask, Some(TaskSvcClaimsMissing))
    ensures ClaimsAuth(ctx).Ok? ==>
      var auth := ClaimsAuth(ctx).value;
      var t := Task(req.taskID, req.title, req.description, req.done, auth.userID);
      r.value == UpdateTaskResponse(updateTask(ctx, auth, t).value, updateTask(ctx, auth, t).err)
  {
    match ClaimsAuth(ctx)
    case Fail(e) => Response(UpdateTaskResponse(ZeroTask, Some(e)))
    case Ok(auth) =>
      var s := updateTask(ctx, auth, RequestTask(req, auth));
      Response(UpdateTaskResponse(s.value, s.err))
  }

  /** `MakeDeleteTaskEndpoint`. */
  function MakeDeleteTaskEndpoint(deleteTask: DeleteTaskOp, ctx: Ctx, req: DeleteTaskRequest): (r: Reply<DeleteTaskResponse>)
    ensures r.Response?
    ensures ClaimsAuth(ctx).Fail? ==> r.value == DeleteTaskResponse(false, Some(TaskSvcClaimsMissing))
    ensures ClaimsAuth(ctx).Ok? ==>
      var s := deleteTask(ctx, ClaimsAuth(ctx).value, req.taskID);
      r.value == DeleteTaskResponse(s.value, s.err)
  {
    match ClaimsAuth(ctx)
    case Fail(e) => Response(DeleteTaskResponse(false, Some(e)))
    case Ok(auth) =>
      var s := deleteTask(ctx, auth, req.taskID);
      Response(DeleteTaskResponse(s.value, s.err))
  }

  /** `Set.CreateTask`: the Auth argument is not sent. */
  function SetCreateTask(endpoint: (Ctx, CreateTaskRequest) -> Reply<CreateTaskResponse>, ctx: Ctx, a: Auth,
                         title: string, description: string)
    : (r: Ret<Task>)
    ensures endpoint(ctx, CreateTaskRequest(title, description)).Failure? ==>
      r == Ret(ZeroTask, Some(endpoint(ctx, CreateTaskRequest(title, description)).err))
    ensures endpoint(ctx, CreateTaskRequest(title, description)).Response? ==>
      var resp := endpoint(ctx, CreateTaskRequest(title, description)).value;
      r == Ret(resp.task, resp.Failed())
  {
    match endpoint(ctx, CreateTaskRequest(title, description))
    case Failure(e) => Ret(ZeroTask, Some(e))
    case Response(resp) => Ret(resp.task, resp.err)
  }

  /** `Set.Tasks`. */
  function SetTasks(endpoint: (Ctx, TasksRequest) -> Reply<TasksResponse>, ctx: Ctx, a: Auth): (r: Ret<seq<Task>>)
    ensures endpoint(ctx, TasksRequest).Failure? ==> r == Ret([], Some(endpoint(ctx, TasksRequest).err))
    ensures endpoint(ctx, TasksRequest).Response? ==>
      var resp := endpoint(ctx, TasksRequest).value;
      r == Ret(resp.tasks, resp.Failed())
  {
    match endpoint(ctx, TasksRequest)
    case Failure(e) => Ret([], Some(e))
    case Response(resp) => Ret(resp.tasks, resp.err)
  }

  /** `Set.Task`. */
  function SetTask(endpoint: (Ctx, TaskRequest) -> Reply<TaskResponse>, ctx: Ctx, a: Auth, taskID: Uint64): (r: Ret<Task>)
    ensures endpoint(ctx, TaskRequest(taskID)).Failure? ==> r == Ret(ZeroTask, Some(endpoint(ctx, TaskRequest(taskID)).err))
    ensures endpoint(ctx, TaskRequest(taskID)).Response? ==>
      var resp := endpoint(ctx, TaskRequest(taskID)).value;
      r == Ret(resp.task, resp.Failed())
  {
    match endpoint(ctx, TaskRequest(taskID))
    case Failure(e) => Ret(ZeroTask, Some(e))
    case Response(resp) => Ret(resp.task, resp.err)
  }

  /** The request `Set.UpdateTask` sends: the task's owner is dropped. */
  function UpdateRequestOf(task: Task): (r: UpdateTaskRequest)
    ensures r.taskID == task.id && r.title == task.title && r.description == task.description && r.done == task.done
  {
    UpdateTaskRequest(task.id, task.title, task.description, task.done)
  }

  /** `Set.UpdateTask`. */
  function SetUpdateTask(endpoint: (Ctx, UpdateTaskRequest) -> Reply<UpdateTaskResponse>, ctx: Ctx, a: Auth, task: Task)
    : (r: Ret<Task>)
    ensures endpoint(ctx, UpdateRequestOf(task)).Failure? ==>
      r == Ret(ZeroTask, Some(endpoint(ctx, UpdateRequestOf(task)).err))
    ensures endpoint(ctx, UpdateRequestOf(task)).Response? ==>
      var resp := endpoint(ctx, UpdateRequestOf(task)).value;
      r == Ret(resp.task, resp.Failed())
  {
    match endpoint(ctx, UpdateRequestOf(task))
    case Failure(e) => Ret(ZeroTask, Some(e))
    case Response(resp) => Ret(resp.task, resp.err)
  }

  /** `Set.DeleteTask`. */
  function SetDeleteTask(endpoint: (Ctx, DeleteTaskRequest) -> Reply<DeleteTaskResponse>, ctx: Ctx, a: Auth, taskID: Uint64)
    : (r: Ret<bool>)
    ensures endpoint(ctx, DeleteTaskRequest(taskID)).Failure? ==> r == Ret(false, Some(endpoint(ctx, DeleteTaskRequest(taskID)).err))
    ensures endpoint(ctx, DeleteTaskRequest(taskID)).Response? ==>
      var resp := endpoint(ctx, DeleteTaskRequest(taskID)).value;
      r == Ret(resp.result, resp.Failed())
  {
    match endpoint(ctx, DeleteTaskRequest(taskID))
    case Failure(e) => Ret(false, Some(e))
    case Response(resp) => Ret(resp.result, resp.err)
  }

  /** The client-side `Set` builds its requests without the Auth argument: any two callers get the same result. */
  lemma SetIgnoresAuth(ctx: Ctx, a: Auth, b: Auth, title: string, description: string, taskID: Uint64, task: Task,
                       create: (Ctx, CreateTaskRequest) -> Reply<CreateTaskResponse>,
                       list: (Ctx, TasksRequest) -> Reply<TasksResponse>,
                       get: (Ctx, TaskRequest) -> Reply<TaskResponse>,
                       update: (Ctx, UpdateTaskRequest) -> Reply<UpdateTaskResponse>,
                       delete: (Ctx, DeleteTaskRequest) -> Reply<DeleteTaskResponse>)
    ensures SetCreateTask(create, ctx, a, title, description) == SetCreateTask(create, ctx, b, title, description)
    ensures SetTasks(list, ctx, a) == SetTasks(list, ctx, b)
    ensures SetTask(get, ctx, a, taskID) == SetTask(get, ctx, b, taskID)
    ensures SetUpdateTask(update, ctx, a, task) == SetUpdateTask(update, ctx, b, task)
    ensures SetDeleteTask(delete, ctx, a, taskID) == SetDeleteTask(delete, ctx, b, taskID)
  {
  }

  /**
   * A task created through `Set` over the server endpoint is created for the
   * caller named by the token, with the title and description the client
   * passed; without valid claims the service is not consulted.
   */
  lemma SetCreateTaskOverEndpoint(createTask: CreateTaskOp, ctx: Ctx, a: Auth, title: string, description: string)
    ensures var r := SetCreateTask((c, q) => MakeCreateTaskEndpoint(createTask, c, q), ctx, a, title, description);
            && (ClaimsAuth(ctx).Fail? ==> r == Ret(ZeroTask, Some(TaskSvcClaimsMissing)))
            && (ClaimsAuth(ctx).Ok? ==> r == createTask(ctx, ClaimsAuth(ctx).value, title, description))
  {
  }

  /** The list returned through `Set` over the server endpoint is the claimed caller's. */
  lemma SetTasksOverEndpoint(tasks: TasksOp, ctx: Ctx, a: Auth)
    ensures var r := SetTasks((c, q) => MakeTasksEndpoint(tasks, c, q), ctx, a);
            && (ClaimsAuth(ctx).Fail? ==> r == Ret([], Some(TaskSvcClaimsMissing)))
            && (ClaimsAuth(ctx).Ok? ==> r == tasks(ctx, ClaimsAuth(ctx).value))
  {
  }

  /** A task fetched through `Set` over the server endpoint is looked up for the claimed caller, with the client's task ID. */
  lemma SetTaskOverEndpoint(getTask: TaskOp, ctx: Ctx, a: Auth, taskID: Uint64)
    ensures var r := SetTask((c, q) => MakeTaskEndpoint(getTask, c, q), ctx, a, taskID);
            && (ClaimsAuth(ctx).Fail? ==> r == Ret(ZeroTask, Some(TaskSvcClaimsMissing)))
            && (ClaimsAuth(ctx).Ok? ==> r == getTask(ctx, ClaimsAuth(ctx).value, taskID))
  {
  }

  /** A delete through `Set` over the server endpoint acts for the claimed caller, with the client's task ID. */
  lemma SetDeleteTaskOverEndpoint(deleteTask: DeleteTaskOp, ctx: Ctx, a: Auth, taskID: Uint64)
    ensures var r := SetDeleteTask((c, q) => MakeDeleteTaskEndpoint(deleteTask, c, q), ctx, a, taskID);
            && (ClaimsAuth(ctx).Fail? ==> r == Ret(false, Some(TaskSvcClaimsMissing)))
            && (ClaimsAuth(ctx).Ok? ==> r == deleteTask(ctx, ClaimsAuth(ctx).value, taskID))
  {
  }

  /**
   * An update sent through `Set` to the endpoint: the owner in the client's
   * task record is dropped and replaced by the user ID claimed by the token;
   * without valid claims the service is not consulted.
   */
  lemma UpdateOwnerFromClaims(updateTask: UpdateTaskOp, ctx: Ctx, a: Auth, task: Task)
    ensures var r := SetUpdateTask((c, q) => MakeUpdateTaskEndpoint(updateTask, c, q), ctx, a, task);
            && (ClaimsAuth(ctx).Fail? ==> r == Ret(ZeroTask, Some(TaskSvcClaimsMissing)))
            && (ClaimsAuth(ctx).Ok? ==>
                  var auth := ClaimsAuth(ctx).value;
                  r == updateTask(ctx, auth, task.(userID := auth.userID)))
  {
  }

  /**
   * End to end through the endpoint and the service: an update reaches the
   * repository with the claimed caller as the owner, whatever owner the
   * client's record named.
   */
  lemma UpdateReachesRepositoryAsCaller(repo: Repository, ctx: Ctx, a: Auth, task: Task)
    ensures ClaimsAuth(ctx).Ok? && ClaimsAuth(ctx).value.userID != 0 && task.id != 0 ==>
      var auth := ClaimsAuth(ctx).value;
      TaskService.UpdateTask(repo, auth, task.(userID := auth.userID)).calls == [Update(task.(userID := auth.userID))]
    ensures var r := SetUpdateTask((c, q) => MakeUpdateTaskEndpoint((c', x, t) => TaskService.UpdateTask(repo, x, t).result, c, q),
                                   ctx, a, task);
            ClaimsAuth(ctx).Ok? ==>
              r == TaskService.UpdateTask(repo, ClaimsAuth(ctx).value, task.(userID := ClaimsAuth(ctx).value.userID)).result
  {
    UpdateOwnerFromClaims((c', x, t) => TaskService.UpdateTask(repo, x, t).result, ctx, a, task);
  }
}
