/**
 * gRPC mapping of the task service (tasktransport/grpc.go): protobuf messages
 * as plain records, errors carried as their text. The list reply is built
 * and read back with a loop, as in the source.
 */
module TaskGRPC {
  import opened Kit
  import opened TaskService
  import opened TaskEndpoint

  datatype PbTask = PbTask(id: Uint64, title: string, description: string, done: bool, userId: Uint64)
  /** `pb.CreateTaskRequest`: its UserId field is never set by the client nor read by the server. */
  datatype PbCreateTaskRequest = PbCreateTaskRequest(title: string, description: string, userId: Uint64)
  datatype PbCreateTaskReply = PbCreateTaskReply(task: PbTask, err: string)
  datatype PbTasksRequest = PbTasksRequest
  datatype PbTasksReply = PbTasksReply(tasks: seq<PbTask>, err: string)
  datatype PbTaskRequest = PbTaskRequest(taskId: Uint64)
  datatype PbTaskReply = PbTaskReply(task: PbTask, err: string)
  datatype PbUpdateTaskRequest = PbUpdateTaskRequest(id: Uint64, title: string, description: string, done: bool)
  datatype PbUpdateTaskReply = PbUpdateTaskReply(task: PbTask, err: string)
  datatype PbDeleteTaskRequest = PbDeleteTaskRequest(taskId: Uint64)
  datatype PbDeleteTaskReply = PbDeleteTaskReply(result: bool, err: string)

  /** `err2str`. */
  function Err2Str(e: Option<Err>): string {
    if e.None? then "" else Message(e.value)
  }

  /** `str2err`: only the invalid-argument text maps back to a sentinel. */
  function Str2Err(s: string): (r: Option<Err>)
    ensures r.None? <==> s == ""
    ensures r.Some? ==> Message(r.value) == s
    ensures r == Some(TaskSvcInvalidArgument) <==> s == InvalidArgumentText
    ensures s != "" && s != InvalidArgumentText ==> r == Some(Fresh(s))
  {
    if s == "" then None
    else if s == InvalidArgumentText then Some(TaskSvcInvalidArgument)
    else Some(Fresh(s))
  }

  /**
   * Carrying an error across the task gRPC link: no error and the task
   * service's invalid argument arrive unchanged, the other invalid arguments
   * arrive as the task service's, and every other error with a non-empty text
   * arrives as a fresh error with that text.
   */
  lemma ErrorCrossesGRPC(e: Option<Err>)
    ensures e.None? || e == Some(TaskSvcInvalidArgument) ==> Str2Err(Err2Str(e)) == e
    ensures e.Some? && Message(e.value) == InvalidArgumentText ==> Str2Err(Err2Str(e)) == Some(TaskSvcInvalidArgument)
    ensures e.Some? && Message(e.value) !in {"", InvalidArgumentText} ==> Str2Err(Err2Str(e)) == Some(Fresh(Message(e.value)))
  {
  }

  /** The protobuf form of a task, all five fields. */
  function TaskToPb(t: Task): PbTask {
    PbTask(t.id, t.title, t.description, t.done, t.userID)
  }

  function TaskFromPb(p: PbTask): Task {
    Task(p.id, p.title, p.description, p.done, p.userId)
  }

  lemma TaskPbRoundTrip(t: Task)
    ensures TaskFromPb(TaskToPb(t)) == t
  {
  }

  // CreateTask

  function EncodeCreateTaskRequest(req: CreateTaskRequest): PbCreateTaskRequest {
    PbCreateTaskRequest(req.title, req.description, 0)
  }

  function DecodeCreateTaskRequest(req: PbCreateTaskRequest): CreateTaskRequest {
    CreateTaskRequest(req.title, req.description)
  }

  function EncodeCreateTaskResponse(resp: CreateTaskResponse): PbCreateTaskReply {
    PbCreateTaskReply(TaskToPb(resp.task), Err2Str(resp.err))
  }

  function DecodeCreateTaskResponse(reply: PbCreateTaskReply): CreateTaskResponse {
    CreateTaskResponse(TaskFromPb(reply.task), Str2Err(reply.err))
  }

  /** Title and description reach the server; the message's user ID stays 0. */
  lemma CreateTaskRequestRoundTrip(req: CreateTaskRequest)
    ensures DecodeCreateTaskRequest(EncodeCreateTaskRequest(req)) == req
    ensures EncodeCreateTaskRequest(req).userId == 0
  {
  }

  /** All five task fields come back; the error comes back as `str2err` of its text. */
  lemma CreateTaskResponseRoundTrip(resp: CreateTaskResponse)
    ensures DecodeCreateTaskResponse(EncodeCreateTaskResponse(resp)) == CreateTaskResponse(resp.task, Str2Err(Err2Str(resp.err)))
    ensures resp.err.None? || resp.err == Some(TaskSvcInvalidArgument) ==>
      DecodeCreateTaskResponse(EncodeCreateTaskResponse(resp)) == resp
  {
    ErrorCrossesGRPC(resp.err);
  }

  // Tasks

  function EncodeTasksRequest(req: TasksRequest): PbTasksRequest {
    PbTasksRequest
  }

  function DecodeTasksRequest(req: PbTasksRequest): TasksRequest {
    TasksRequest
  }

  /** `encodeGRPCTasksResponse`: one protobuf task per task, in order. */
  method EncodeTasksResponse(resp: TasksResponse) returns (reply: PbTasksReply)
    ensures |reply.tasks| == |resp.tasks|
    ensures forall i :: 0 <= i < |resp.tasks| ==> reply.tasks[i] == TaskToPb(resp.tasks[i])
    ensures reply.err == Err2Str(resp.err)
  {
    var tasks: seq<PbTask> := [];
    for i := 0 to |resp.tasks|
      invariant |tasks| == i
      invariant forall j :: 0 <= j < i ==> tasks[j] == TaskToPb(resp.tasks[j])
    {
      tasks := tasks + [TaskToPb(resp.tasks[i])];
    }
    reply := PbTasksReply(tasks, Err2Str(resp.err));
  }

  /** `decodeGRPCTasksResponse`: one task per protobuf task, in order. */
  method DecodeTasksResponse(reply: PbTasksReply) returns (resp: TasksResponse)
    ensures |resp.tasks| == |reply.tasks|
    ensures forall i :: 0 <= i < |reply.tasks| ==> resp.tasks[i] == TaskFromPb(reply.tasks[i])
    ensures resp.err == Str2Err(reply.err)
  {
    var tasks: seq<Task> := [];
    for i := 0 to |reply.tasks|
      invariant |tasks| == i
      invariant forall j :: 0 <= j < i ==> tasks[j] == TaskFromPb(reply.tasks[j])
    {
      tasks := tasks + [TaskFromPb(reply.tasks[i])];
    }
    resp := TasksResponse(tasks, Str2Err(reply.err));
  }

  /** The list of tasks comes back with its length, order and every field; the error as `str2err` of its text. */
  method TasksResponseRoundTrip(resp: TasksResponse) returns (back: TasksResponse)
    ensures back == TasksResponse(resp.tasks, Str2Err(Err2Str(resp.err)))
    ensures resp.err.None? || resp.err == Some(TaskSvcInvalidArgument) ==> back == resp
  {
    var reply := EncodeTasksResponse(resp);
    back := DecodeTasksResponse(reply);
    forall i | 0 <= i < |resp.tasks|
      ensures back.tasks[i] == resp.tasks[i]
    {
      TaskPbRoundTrip(resp.tasks[i]);
    }
    ErrorCrossesGRPC(resp.err);
  }

  // Task

  function EncodeTaskRequest(req: TaskRequest): PbTaskRequest {
    PbTaskRequest(req.taskID)
  }

  function DecodeTaskRequest(req: PbTaskRequest): TaskRequest {
    TaskRequest(req.taskId)
  }

  function EncodeTaskResponse(resp: TaskResponse): PbTaskReply {
    PbTaskReply(TaskToPb(resp.task), Err2Str(resp.err))
  }

  function DecodeTaskResponse(reply: PbTaskReply): TaskResponse {
    TaskResponse(TaskFromPb(reply.task), Str2Err(reply.err))
  }

  lemma TaskRequestRoundTrip(req: TaskRequest)
    ensures DecodeTaskRequest(EncodeTaskRequest(req)) == req
  {
  }

  lemma TaskResponseRoundTrip(resp: TaskResponse)
    ensures DecodeTaskResponse(EncodeTaskResponse(resp)) == TaskResponse(resp.task, Str2Err(Err2Str(resp.err)))
    ensures resp.err.None? || resp.err == Some(TaskSvcInvalidArgument) ==> DecodeTaskResponse(EncodeTaskResponse(resp)) == resp
  {
    ErrorCrossesGRPC(resp.err);
  }

  // UpdateTask

  function EncodeUpdateTaskRequest(req: UpdateTaskRequest): PbUpdateTaskRequest {
    PbUpdateTaskRequest(req.taskID, req.title, req.description, req.done)
  }

  function DecodeUpdateTaskRequest(req: PbUpdateTaskRequest): UpdateTaskRequest {
    UpdateTaskRequest(req.id, req.title, req.description, req.done)
  }

  /** `encodeGRPCUpdateTaskResponse`: the task's owner is not copied. */
  function EncodeUpdateTaskResponse(resp: UpdateTaskResponse): PbUpdateTaskReply {
    PbUpdateTaskReply(PbTask(resp.task.id, resp.task.title, resp.task.description, resp.task.done, 0), Err2Str(resp.err))
  }

  /** `decodeGRPCUpdateTaskResponse`: the task's owner is not read. */
  function DecodeUpdateTaskResponse(reply: PbUpdateTaskReply): UpdateTaskResponse {
    UpdateTaskResponse(Task(reply.task.id, reply.task.title, reply.task.description, reply.task.done, 0), Str2Err(reply.err))
  }

  lemma UpdateTaskRequestRoundTrip(req: UpdateTaskRequest)
    ensures DecodeUpdateTaskRequest(EncodeUpdateTaskRequest(req)) == req
  {
  }

  /** The updated task comes back with every field but its owner, which is always 0. */
  lemma UpdateTaskResponseDropsOwner(resp: UpdateTaskResponse)
    ensures DecodeUpdateTaskResponse(EncodeUpdateTaskResponse(resp)) ==
      UpdateTaskResponse(resp.task.(userID := 0), Str2Err(Err2Str(resp.err)))
    ensures DecodeUpdateTaskResponse(EncodeUpdateTaskResponse(resp)).task.userID == 0
    ensures DecodeUpdateTaskResponse(EncodeUpdateTaskResponse(resp)) == resp <==>
      resp.task.userID == 0 && Str2Err(Err2Str(resp.err)) == resp.err
  {
  }

  // DeleteTask

  function EncodeDeleteTaskRequest(req: DeleteTaskRequest): PbDeleteTaskRequest {
    PbDeleteTaskRequest(req.taskID)
  }

  function DecodeDeleteTaskRequest(req: PbDeleteTaskRequest): DeleteTaskRequest {
    DeleteTaskRequest(req.taskId)
  }

  function EncodeDeleteTaskResponse(resp: DeleteTaskResponse): PbDeleteTaskReply {
    PbDeleteTaskReply(resp.result, Err2Str(resp.err))
  }

  function DecodeDeleteTaskResponse(reply: PbDeleteTaskReply): DeleteTaskResponse {
    DeleteTaskResponse(reply.result, Str2Err(reply.err))
  }

  lemma DeleteTaskRequestRoundTrip(req: DeleteTaskRequest)
    ensures DecodeDeleteTaskRequest(EncodeDeleteTaskRequest(req)) == req
  {
  }

  lemma DeleteTaskResponseRoundTrip(resp: DeleteTaskResponse)
    ensures DecodeDeleteTaskResponse(EncodeDeleteTaskResponse(resp)) == DeleteTaskResponse(resp.result, Str2Err(Err2Str(resp.err)))
    ensures resp.err.None? || resp.err == Some(TaskSvcInvalidArgument) ==>
      DecodeDeleteTaskResponse(EncodeDeleteTaskResponse(resp)) == resp
  {
    ErrorCrossesGRPC(resp.err);
  }
}
