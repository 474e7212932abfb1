/**
 * The task service's proxying decorator (taskservice/middleware.go): before
 * any operation, the access token is checked with the auth service and then
 * the user with the user service; the first failure is returned and the
 * wrapped operation is not run.
 */
module TaskProxy {
  import opened Kit
  import opened TaskService
  import AuthEndpoint
  import UserEndpoint

  /** A call made by the decorator, in order. */
  datatype Call =
    | TokenCheck(ctx: Ctx, validateReq: AuthEndpoint.ValidateRequest)
    | UserCheck(ctx: Ctx, isExistsReq: UserEndpoint.IsExistsRequest)
    | NextCreateTask(ctx: Ctx, a: Auth, title: string, description: string)
    | NextTasks(ctx: Ctx, a: Auth)
    | NextTask(ctx: Ctx, a: Auth, taskID: Uint64)
    | NextUpdateTask(ctx: Ctx, a: Auth, task: Task)
    | NextDeleteTask(ctx: Ctx, a: Auth, taskID: Uint64)

  /** The auth service's remote Validate endpoint. */
  type ValidateEndpoint = (Ctx, AuthEndpoint.ValidateRequest) -> Reply<AuthEndpoint.ValidateResponse>
  /** The user service's remote IsExists endpoint. */
  type IsExistsEndpoint = (Ctx, UserEndpoint.IsExistsRequest) -> Reply<UserEndpoint.IsExistsResponse>

  /** The error a remote reply stands for: its transport error, else the error in the response. */
  function ReplyErr<R>(reply: Reply<R>, failed: R -> Option<Err>): Option<Err> {
    match reply
    case Failure(e) => Some(e)
    case Response(resp) => failed(resp)
  }

  /**
   * `proxingMiddleware.validate`: the token check (with the access UUID)
   * comes first and a failure there skips the user check (with the user ID).
   * The replies' `V` fields are never read.
   */
  function Validate(ctx: Ctx, a: Auth, validateUUID: ValidateEndpoint, isUserExists: IsExistsEndpoint)
    : (r: Traced<Option<Err>, Call>)
    ensures var tok := validateUUID(ctx, AuthEndpoint.ValidateRequest(a.accessUUID));
            var usr := isUserExists(ctx, UserEndpoint.IsExistsRequest(a.userID));
            && |r.calls| >= 1 && r.calls[0] == TokenCheck(ctx, AuthEndpoint.ValidateRequest(a.accessUUID))
            && (tok.Failure? ==> r == Traced(Some(tok.err), r.calls[..1]))
            && (tok.Response? && tok.value.err.Some? ==> r == Traced(tok.value.err, r.calls[..1]))
            && (tok.Response? && tok.value.err.None? ==>
                  && r.calls == [TokenCheck(ctx, AuthEndpoint.ValidateRequest(a.accessUUID)),
                                 UserCheck(ctx, UserEndpoint.IsExistsRequest(a.userID))]
                  && (usr.Failure? ==> r.result == Some(usr.err))
                  && (usr.Response? ==> r.result == usr.value.err))
            && (r.result.None? <==> tok.Response? && tok.value.err.None? && usr.Response? && usr.value.err.None?)
  {
    var tokCall := TokenCheck(ctx, AuthEndpoint.ValidateRequest(a.accessUUID));
    var tok := ReplyErr(validateUUID(ctx, AuthEndpoint.ValidateRequest(a.accessUUID)), (resp: AuthEndpoint.ValidateResponse) => resp.err);
    if tok.Some? then Traced(tok, [tokCall])
    else
      var usr := ReplyErr(isUserExists(ctx, UserEndpoint.IsExistsRequest(a.userID)), (resp: UserEndpoint.IsExistsResponse) => resp.err);
      Traced(usr, [tokCall, UserCheck(ctx, UserEndpoint.IsExistsRequest(a.userID))])
  }

  /** Runs `call` after the checks when they passed; otherwise returns `zero` and the checks' error. */
  function Guarded<T>(check: Traced<Option<Err>, Call>, zero: T, call: Call, run: Ret<T>): Traced<Ret<T>, Call> {
    match check.result
    case Some(e) => Traced(Ret(zero, Some(e)), check.calls)
    case None => Traced(run, check.calls + [call])
  }

  /** `proxingMiddleware.CreateTask`. */
  function CreateTask(ctx: Ctx, a: Auth, title: string, description: string,
                      validateUUID: ValidateEndpoint, isUserExists: IsExistsEndpoint,
                      next: (Ctx, Auth, string, string) -> Ret<Task>)
    : (r: Traced<Ret<Task>, Call>)
    ensures var v := Validate(ctx, a, validateUUID, isUserExists);
            && (v.result.Some? ==> r == Traced(Ret(ZeroTask, v.result), v.calls))
            && (v.result.None? ==> r == Traced(next(ctx, a, title, description), v.calls + [NextCreateTask(ctx, a, title, description)]))
  {
    Guarded(Validate(ctx, a, validateUUID, isUserExists), ZeroTask,
            NextCreateTask(ctx, a, title, description), next(ctx, a, title, description))
  }

  /** `proxingMiddleware.Tasks`: a failed check gives a nil (empty) list. */
  function Tasks(ctx: Ctx, a: Auth, validateUUID: ValidateEndpoint, isUserExists: IsExistsEndpoint,
                 next: (Ctx, Auth) -> Ret<seq<Task>>)
    : (r: Traced<Ret<seq<Task>>, Call>)
    ensures var v := Validate(ctx, a, validateUUID, isUserExists);
            && (v.result.Some? ==> r == Traced(Ret([], v.result), v.calls))
            && (v.result.None? ==> r == Traced(next(ctx, a), v.calls + [NextTasks(ctx, a)]))
  {
    Guarded(Validate(ctx, a, validateUUID, isUserExists), [], NextTasks(ctx, a), next(ctx, a))
  }

  /** `proxingMiddleware.Task`. */
  function GetTask(ctx: Ctx, a: Auth, taskID: Uint64, validateUUID: ValidateEndpoint, isUserExists: IsExistsEndpoint,
                   next: (Ctx, Auth, Uint64) -> Ret<Task>)
    : (r: Traced<Ret<Task>, Call>)
    ensures var v := Validate(ctx, a, validateUUID, isUserExists);
            && (v.result.Some? ==> r == Traced(Ret(ZeroTask, v.result), v.calls))
            && (v.result.None? ==> r == Traced(next(ctx, a, taskID), v.calls + [NextTask(ctx, a, taskID)]))
  {
    Guarded(Validate(ctx, a, validateUUID, isUserExists), ZeroTask, NextTask(ctx, a, taskID), next(ctx, a, taskID))
  }

  /** `proxingMiddleware.UpdateTask`. */
  function UpdateTask(ctx: Ctx, a: Auth, task: Task, validateUUID: ValidateEndpoint, isUserExists: IsExistsEndpoint,
                      next: (Ctx, Auth, Task) -> Ret<Task>)
    : (r: Traced<Ret<Task>, Call>)
    ensures var v := Validate(ctx, a, validateUUID, isUserExists);
            && (v.result.Some? ==> r == Traced(Ret(ZeroTask, v.result), v.calls))
            && (v.result.None? ==> r == Traced(next(ctx, a, task), v.calls + [NextUpdateTask(ctx, a, task)]))
  {
    Guarded(Validate(ctx, a, validateUUID, isUserExists), ZeroTask, NextUpdateTask(ctx, a, task), next(ctx, a, task))
  }

  /** `proxingMiddleware.DeleteTask`. */
  function DeleteTask(ctx: Ctx, a: Auth, taskID: Uint64, validateUUID: ValidateEndpoint, isUserExists: IsExistsEndpoint,
                      next: (Ctx, Auth, Uint64) -> Ret<bool>)
    : (r: Traced<Ret<bool>, Call>)
    ensures var v := Validate(ctx, a, validateUUID, isUserExists);
            && (v.result.Some? ==> r == Traced(Ret(false, v.result), v.calls))
            && (v.result.None? ==> r == Traced(next(ctx, a, taskID), v.calls + [NextDeleteTask(ctx, a, taskID)]))
  {
    Guarded(Validate(ctx, a, validateUUID, isUserExists), false, NextDeleteTask(ctx, a, taskID), next(ctx, a, taskID))
  }

  /** A call that runs the wrapped service. */
  predicate IsNext(c: Call) {
    !c.TokenCheck? && !c.UserCheck?
  }

  /**
   * The wrapped service runs at most once, as the last call, and only when
   * both checks passed (`tokOk` and `usrOk`); a failed token check is the only
   * call made.
   */
  predicate NextOnlyAfterChecks(calls: seq<Call>, tokOk: bool, usrOk: bool) {
    && ((exists i :: 0 <= i < |calls| && IsNext(calls[i])) <==> tokOk && usrOk)
    && (!tokOk ==> |calls| == 1)
    && (forall i :: 0 <= i < |calls| - 1 ==> !IsNext(calls[i]))
  }

  /** Whether the token check answered without error. */
  predicate TokenOK(ctx: Ctx, a: Auth, validateUUID: ValidateEndpoint) {
    var tok := validateUUID(ctx, AuthEndpoint.ValidateRequest(a.accessUUID));
    tok.Response? && tok.value.err.None?
  }

  /** Whether the user check answered without error. */
  predicate UserOK(ctx: Ctx, a: Auth, isUserExists: IsExistsEndpoint) {
    var usr := isUserExists(ctx, UserEndpoint.IsExistsRequest(a.userID));
    usr.Response? && usr.value.err.None?
  }

  /** The call order of `Guarded` over `Validate`, for any wrapped call. */
  lemma GuardedNextOnlyAfterChecks<T>(ctx: Ctx, a: Auth, validateUUID: ValidateEndpoint, isUserExists: IsExistsEndpoint,
                                      zero: T, call: Call, run: Ret<T>)
    requires IsNext(call)
    ensures NextOnlyAfterChecks(Guarded(Validate(ctx, a, validateUUID, isUserExists), zero, call, run).calls,
                                TokenOK(ctx, a, validateUUID), UserOK(ctx, a, isUserExists))
  {
    var v := Validate(ctx, a, validateUUID, isUserExists);
    var r := Guarded(v, zero, call, run);
    if v.result.None? {
      assert r.calls[|r.calls| - 1] == call;
    }
  }

  /** Every proxied operation calls the wrapped service only after both checks passed, and last. */
  lemma NextRunsOnlyAfterBothChecks(ctx: Ctx, a: Auth, validateUUID: ValidateEndpoint, isUserExists: IsExistsEndpoint,
                                    title: string, description: string, taskID: Uint64, task: Task,
                                    nextCreate: (Ctx, Auth, string, string) -> Ret<Task>,
                                    nextTasks: (Ctx, Auth) -> Ret<seq<Task>>,
                                    nextTask: (Ctx, Auth, Uint64) -> Ret<Task>,
                                    nextUpdate: (Ctx, Auth, Task) -> Ret<Task>,
                                    nextDelete: (Ctx, Auth, Uint64) -> Ret<bool>)
    ensures var tokOk, usrOk := TokenOK(ctx, a, validateUUID), UserOK(ctx, a, isUserExists);
            && NextOnlyAfterChecks(CreateTask(ctx, a, title, description, validateUUID, isUserExists, nextCreate).calls, tokOk, usrOk)
            && NextOnlyAfterChecks(Tasks(ctx, a, validateUUID, isUserExists, nextTasks).calls, tokOk, usrOk)
            && NextOnlyAfterChecks(GetTask(ctx, a, taskID, validateUUID, isUserExists, nextTask).calls, tokOk, usrOk)
            && NextOnlyAfterChecks(UpdateTask(ctx, a, task, validateUUID, isUserExists, nextUpdate).calls, tokOk, usrOk)
            && NextOnlyAfterChecks(DeleteTask(ctx, a, taskID, validateUUID, isUserExists, nextDelete).calls, tokOk, usrOk)
  {
    GuardedNextOnlyAfterChecks(ctx, a, validateUUID, isUserExists, ZeroTask,
                               NextCreateTask(ctx, a, title, description), nextCreate(ctx, a, title, description));
    GuardedNextOnlyAfterChecks(ctx, a, validateUUID, isUserExists, [], NextTasks(ctx, a), nextTasks(ctx, a));
    GuardedNextOnlyAfterChecks(ctx, a, validateUUID, isUserExists, ZeroTask, NextTask(ctx, a, taskID), nextTask(ctx, a, taskID));
    GuardedNextOnlyAfterChecks(ctx, a, validateUUID, isUserExists, ZeroTask, NextUpdateTask(ctx, a, task), nextUpdate(ctx, a, task));
    GuardedNextOnlyAfterChecks(ctx, a, validateUUID, isUserExists, false, NextDeleteTask(ctx, a, taskID), nextDelete(ctx, a, taskID));
  }
}
