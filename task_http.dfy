/**
 * The task service's HTTP transport (tasktransport/http.go): error to status
 * code and the decoders that read `task_id` from the request path. The
 * gateway serves this handler over the task service's gRPC client, so the
 * errors it maps have crossed gRPC first.
 */
module TaskHTTP {
  import opened Kit
  import opened TaskService
  import opened TaskEndpoint
  import TaskGRPC
  import AuthHTTP

  const StatusBadRequest := 400
  const StatusUnauthorized := 401
  const StatusInternalServerError := 500

  /** `err2code`. */
  function Err2Code(e: Err): (code: int)
    ensures code == StatusUnauthorized <==> e in {TokenExpired, UserSvcUserNotFound, AuthSvcUserIDContextMissing}
    ensures code == StatusBadRequest <==> e in {UserSvcInvalidArgument, AuthSvcInvalidArgument, TaskSvcInvalidArgument}
    ensures code in {StatusBadRequest, StatusUnauthorized, StatusInternalServerError}
  {
    match e
    case TokenExpired | UserSvcUserNotFound | AuthSvcUserIDContextMissing => StatusUnauthorized
    case UserSvcInvalidArgument | AuthSvcInvalidArgument | TaskSvcInvalidArgument => StatusBadRequest
    case _ => StatusInternalServerError
  }

  /** The two status tables disagree on exactly the ledger's KeyNotFound and the task service's invalid argument. */
  lemma StatusTablesDiffer(e: Err)
    ensures Err2Code(e) != AuthHTTP.Err2Code(e) <==> e == KeyNotFound || e == TaskSvcInvalidArgument
    ensures Err2Code(KeyNotFound) == StatusInternalServerError && AuthHTTP.Err2Code(KeyNotFound) == StatusUnauthorized
    ensures Err2Code(TaskSvcInvalidArgument) == StatusBadRequest && AuthHTTP.Err2Code(TaskSvcInvalidArgument) == StatusInternalServerError
  {
  }

  /**
   * At the gateway, an error the task service put in its response is mapped
   * after crossing gRPC: it is a 400 exactly when its text is "invalid
   * argument" and a 500 otherwise, so none of the 401 cases is reached that
   * way (an expired token, an unknown user and a revoked token all give 500).
   */
  lemma GatewayStatusOfServiceError(e: Err)
    requires Message(e) != ""
    ensures var arrived := TaskGRPC.Str2Err(TaskGRPC.Err2Str(Some(e)));
            && arrived.Some?
            && (Err2Code(arrived.value) == StatusBadRequest <==> Message(e) == InvalidArgumentText)
            && (Message(e) != InvalidArgumentText ==> Err2Code(arrived.value) == StatusInternalServerError)
            && Err2Code(arrived.value) != StatusUnauthorized
  {
    TaskGRPC.ErrorCrossesGRPC(Some(e));
  }

  // strconv.ParseUint(s, 10, 64)

  predicate IsDigit(c: char) {
    '0' <= c <= '9'
  }

  predicate IsDigits(s: string) {
    forall i :: 0 <= i < |s| ==> IsDigit(s[i])
  }

  function DigitValue(c: char): nat
    requires IsDigit(c)
  {
    (c - '0') as nat
  }

  /** The value of a string of decimal digits, most significant first. */
  function DecimalValue(s: string): nat
    requires IsDigits(s)
  {
    if |s| == 0 then 0 else DecimalValue(s[..|s| - 1]) * 10 + DigitValue(s[|s| - 1])
  }

  /**
   * `strconv.ParseUint(s, 10, 64)`: a non-empty string of decimal digits
   * (leading zeros allowed, no sign, no underscores) whose value is below
   * 2^64; anything else is an error.
   */
  function ParseUint(s: string): (r: Option<Uint64>)
    ensures r.Some? <==> |s| > 0 && IsDigits(s) && DecimalValue(s) < TwoTo64
    ensures r.Some? ==> r.value == DecimalValue(s)
  {
    if |s| > 0 && IsDigits(s) && DecimalValue(s) < TwoTo64 then Some(DecimalValue(s)) else None
  }

  /** The decimal text of `n` without leading zeros (`strconv.FormatUint(n, 10)`). */
  function FormatUint(n: nat): (s: string)
    ensures |s| > 0 && IsDigits(s)
    decreases n
  {
    var d := ['0' + (n % 10) as char];
    if n < 10 then d else FormatUint(n / 10) + d
  }

  /** Reading back the decimal text of a number gives the number. */
  lemma {:induction false} FormatUintValue(n: nat)
    ensures DecimalValue(FormatUint(n)) == n
    decreases n
  {
    var s := FormatUint(n);
    assert s[..|s| - 1] == if n < 10 then [] else FormatUint(n / 10);
    assert DigitValue(s[|s| - 1]) == n % 10;
    if n >= 10 {
      FormatUintValue(n / 10);
    }
  }

  /** Every uint64 round-trips through its decimal text, and 2^64 is out of range. */
  lemma ParseFormatRoundTrip(n: Uint64)
    ensures ParseUint(FormatUint(n)) == Some(n)
    ensures ParseUint(FormatUint(TwoTo64)) == None
  {
    FormatUintValue(n);
    FormatUintValue(TwoTo64);
  }

  /** An empty path value, or one with a character that is not a digit, is refused. */
  lemma ParseUintRejects(s: string, i: nat)
    requires i < |s| && !IsDigit(s[i])
    ensures ParseUint(s) == None
    ensures ParseUint("") == None
  {
  }

  /** `mux.Vars(r)["task_id"]`: a missing variable reads as the empty string. */
  function PathTaskID(vars: map<string, string>): Option<Uint64> {
    ParseUint(if "task_id" in vars then vars["task_id"] else "")
  }

  /** `decodeHTTPTaskRequest`. */
  function DecodeTaskRequest(vars: map<string, string>): (r: Result<TaskRequest>)
    ensures r.Fail? <==> PathTaskID(vars).None?
    ensures r.Fail? ==> r.err == BadRouting
    ensures r.Ok? ==> "task_id" in vars && ParseUint(vars["task_id"]) == Some(r.value.taskID)
  {
    match PathTaskID(vars)
    case None => Fail(BadRouting)
    case Some(id) => Ok(TaskRequest(id))
  }

  /**
   * `decodeHTTPUpdateTaskRequest`: `body` is the JSON decoding of the request
   * body. The path is checked first; a body that does not decode is an
   * invalid argument; the path's task ID replaces any ID in the body.
   */
  function DecodeUpdateTaskRequest(vars: map<string, string>, body: Result<UpdateTaskRequest>): (r: Result<UpdateTaskRequest>)
    ensures PathTaskID(vars).None? ==> r == Fail(BadRouting)
    ensures PathTaskID(vars).Some? && body.Fail? ==> r == Fail(TaskSvcInvalidArgument)
    ensures PathTaskID(vars).Some? && body.Ok? ==>
      && r.Ok?
      && r.value.taskID == PathTaskID(vars).value
      && r.value.title == body.value.title
      && r.value.description == body.value.description
      && r.value.done == body.value.done
  {
    match PathTaskID(vars)
    case None => Fail(BadRouting)
    case Some(id) =>
      match body
      case Fail(_) => Fail(TaskSvcInvalidArgument)
      case Ok(req) => Ok(req.(taskID := id))
  }

  /** `decodeHTTPDeleteTaskRequest`. */
  function DecodeDeleteTaskRequest(vars: map<string, string>): (r: Result<DeleteTaskRequest>)
    ensures r.Fail? <==> PathTaskID(vars).None?
    ensures r.Fail? ==> r.err == BadRouting
    ensures r.Ok? ==> "task_id" in vars && ParseUint(vars["task_id"]) == Some(r.value.taskID)
  {
    match PathTaskID(vars)
    case None => Fail(BadRouting)
    case Some(id) => Ok(DeleteTaskRequest(id))
  }

  /** A path written from a task ID decodes to that ID in all three decoders, whatever ID the body carried. */
  lemma PathCarriesTaskID(id: Uint64, vars: map<string, string>, body: UpdateTaskRequest)
    requires "task_id" in vars && vars["task_id"] == FormatUint(id)
    ensures DecodeTaskRequest(vars) == Ok(TaskRequest(id))
    ensures DecodeDeleteTaskRequest(vars) == Ok(DeleteTaskRequest(id))
    ensures DecodeUpdateTaskRequest(vars, Ok(body)) == Ok(body.(taskID := id))
  {
    ParseFormatRoundTrip(id);
  }
}
