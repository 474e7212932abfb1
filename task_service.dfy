/**
 * The task service (tasksvc/tasksvc.go, taskservice/service.go): argument
 * guards in front of an abstract task repository. Each operation returns its
 * result and the repository calls it made.
 */
module TaskService {
  import opened Kit

  /** `tasksvc.Task`. */
  datatype Task = Task(id: Uint64, title: string, description: string, done: bool, userID: Uint64)

  /** `tasksvc.Task{}`. */
  const ZeroTask := Task(0, "", "", false, 0)

  /** `tasksvc.Auth`: who is calling, as read from the JWT claims. */
  datatype Auth = Auth(accessUUID: string, userID: Uint64)

  /** `tasksvc.TaskRepository`, one function per method. A nil task slice is the empty sequence. */
  datatype Repository = Repository(
    create: (string, string, Uint64) -> Ret<Task>,
    findAll: Uint64 -> Ret<seq<Task>>,
    find: (Uint64, Uint64) -> Ret<Task>,
    update: Task -> Ret<Task>,
    delete: (Uint64, Uint64) -> Ret<bool>)

  /** A call made to the repository. */
  datatype RepoCall =
    | Create(title: string, description: string, userID: Uint64)
    | FindAll(userID: Uint64)
    | Find(userID: Uint64, taskID: Uint64)
    | Update(task: Task)
    | Delete(userID: Uint64, taskID: Uint64)

  /** `basicService.CreateTask`: an empty title or a zero user ID is refused before the repository is reached. */
  function CreateTask(repo: Repository, a: Auth, title: string, description: string): (r: Traced<Ret<Task>, RepoCall>)
    ensures r.calls == [] <==> title == "" || a.userID == 0
    ensures r.calls == [] ==> r.result == Ret(ZeroTask, Some(TaskSvcInvalidArgument))
    ensures r.calls != [] ==>
      r.calls == [Create(title, description, a.userID)] && r.result == repo.create(title, description, a.userID)
  {
    if title == "" || a.userID == 0 then Traced(Ret(ZeroTask, Some(TaskSvcInvalidArgument)), [])
    else Traced(repo.create(title, description, a.userID), [Create(title, description, a.userID)])
  }

  /** `basicService.Tasks`. */
  function Tasks(repo: Repository, a: Auth): (r: Traced<Ret<seq<Task>>, RepoCall>)
    ensures r.calls == [] <==> a.userID == 0
    ensures r.calls == [] ==> r.result == Ret([], Some(TaskSvcInvalidArgument))
    ensures r.calls != [] ==> r.calls == [FindAll(a.userID)] && r.result == repo.findAll(a.userID)
  {
    if a.userID == 0 then Traced(Ret([], Some(TaskSvcInvalidArgument)), [])
    else Traced(repo.findAll(a.userID), [FindAll(a.userID)])
  }

  /** `basicService.Task`: the lookup is scoped to the caller's user ID. */
  function GetTask(repo: Repository, a: Auth, taskID: Uint64): (r: Traced<Ret<Task>, RepoCall>)
    ensures r.calls == [] <==> a.userID == 0 || taskID == 0
    ensures r.calls == [] ==> r.result == Ret(ZeroTask, Some(TaskSvcInvalidArgument))
    ensures r.calls != [] ==> r.calls == [Find(a.userID, taskID)] && r.result == repo.find(a.userID, taskID)
  {
    if a.userID == 0 || taskID == 0 then Traced(Ret(ZeroTask, Some(TaskSvcInvalidArgument)), [])
    else Traced(repo.find(a.userID, taskID), [Find(a.userID, taskID)])
  }

  /** `basicService.UpdateTask`: the task record goes to the repository unchanged; its owner is not checked here. */
  function UpdateTask(repo: Repository, a: Auth, task: Task): (r: Traced<Ret<Task>, RepoCall>)
    ensures r.calls == [] <==> a.userID == 0 || task.id == 0
    ensures r.calls == [] ==> r.result == Ret(ZeroTask, Some(TaskSvcInvalidArgument))
    ensures r.calls != [] ==> r.calls == [Update(task)] && r.result == repo.update(task)
  {
    if a.userID == 0 || task.id == 0 then Traced(Ret(ZeroTask, Some(TaskSvcInvalidArgument)), [])
    else Traced(repo.update(task), [Update(task)])
  }

  /** `basicService.DeleteTask`: the deletion is scoped to the caller's user ID. */
  function DeleteTask(repo: Repository, a: Auth, taskID: Uint64): (r: Traced<Ret<bool>, RepoCall>)
    ensures r.calls == [] <==> a.userID == 0 || taskID == 0
    ensures r.calls == [] ==> r.result == Ret(false, Some(TaskSvcInvalidArgument))
    ensures r.calls != [] ==> r.calls == [Delete(a.userID, taskID)] && r.result == repo.delete(a.userID, taskID)
  {
    if a.userID == 0 || taskID == 0 then Traced(Ret(false, Some(TaskSvcInvalidArgument)), [])
    else Traced(repo.delete(a.userID, taskID), [Delete(a.userID, taskID)])
  }

  /** The user a repository call acts for, when it names one. */
  function CallOwner(c: RepoCall): Uint64 {
    match c
    case Create(_, _, u) => u
    case FindAll(u) => u
    case Find(u, _) => u
    case Update(t) => t.userID
    case Delete(u, _) => u
  }

  /**
   * Create, list, get and delete only ever reach the repository on behalf of
   * the calling user, and never for user 0; an update acts for the owner
   * written in the task record, whoever the caller is.
   */
  lemma RepositoryScopedToCaller(repo: Repository, a: Auth, title: string, description: string, taskID: Uint64, task: Task)
    ensures forall c <- CreateTask(repo, a, title, description).calls :: CallOwner(c) == a.userID != 0
    ensures forall c <- Tasks(repo, a).calls :: CallOwner(c) == a.userID != 0
    ensures forall c <- GetTask(repo, a, taskID).calls :: CallOwner(c) == a.userID != 0
    ensures forall c <- DeleteTask(repo, a, taskID).calls :: CallOwner(c) == a.userID != 0
    ensures forall c <- UpdateTask(repo, a, task).calls :: CallOwner(c) == task.userID
  {
  }

  /** No operation's outcome depends on the access UUID. */
  lemma AccessUUIDIgnored(repo: Repository, a: Auth, uuid: string, title: string, description: string,
                          taskID: Uint64, task: Task)
    ensures var b := a.(accessUUID := uuid);
            && CreateTask(repo, a, title, description) == CreateTask(repo, b, title, description)
            && Tasks(repo, a) == Tasks(repo, b)
            && GetTask(repo, a, taskID) == GetTask(repo, b, taskID)
            && UpdateTask(repo, a, task) == UpdateTask(repo, b, task)
            && DeleteTask(repo, a, taskID) == DeleteTask(repo, b, taskID)
  {
  }
}
