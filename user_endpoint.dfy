/**
 * Endpoints of the user service and the client-side `Set` (userendpoint/set.go).
 * The service behind the endpoints is given as functions, one per operation.
 */
module UserEndpoint {
  import opened Kit

  datatype UserIDRequest = UserIDRequest(name: string, password: string)

  datatype UserIDResponse = UserIDResponse(id: Uint64, err: Option<Err>) {
    function Failed(): Option<Err> { err }
  }

  datatype IsExistsRequest = IsExistsRequest(id: Uint64)

  datatype IsExistsResponse = IsExistsResponse(v: bool, err: Option<Err>) {
    function Failed(): Option<Err> { err }
  }

  /** `MakeUserIDEndpoint`: never a transport error; the service's error travels in the response. */
  function MakeUserIDEndpoint(userID: (Ctx, string, string) -> Ret<Uint64>, ctx: Ctx, req: UserIDRequest)
    : (r: Reply<UserIDResponse>)
    ensures r.Response?
    ensures r.value.id == userID(ctx, req.name, req.password).value
    ensures r.value.Failed() == userID(ctx, req.name, req.password).err
  {
    var s := userID(ctx, req.name, req.password);
    Response(UserIDResponse(s.value, s.err))
  }

  /** `MakeIsExistsEndpoint`. */
  function MakeIsExistsEndpoint(isExists: (Ctx, Uint64) -> Ret<bool>, ctx: Ctx, req: IsExistsRequest)
    : (r: Reply<IsExistsResponse>)
    ensures r.Response?
    ensures r.value.v == isExists(ctx, req.id).value
    ensures r.value.Failed() == isExists(ctx, req.id).err
  {
    var s := isExists(ctx, req.id);
    Response(IsExistsResponse(s.value, s.err))
  }

  /** `Set.UserID`: the client side of the user-ID call. */
  function SetUserID(endpoint: (Ctx, UserIDRequest) -> Reply<UserIDResponse>, ctx: Ctx, name: string, password: string)
    : (r: Ret<Uint64>)
    ensures endpoint(ctx, UserIDRequest(name, password)).Failure? ==>
      r == Ret(0, Some(endpoint(ctx, UserIDRequest(name, password)).err))
    ensures endpoint(ctx, UserIDRequest(name, password)).Response? ==>
      var resp := endpoint(ctx, UserIDRequest(name, password)).value;
      r == Ret(resp.id, resp.Failed())
  {
    match endpoint(ctx, UserIDRequest(name, password))
    case Failure(e) => Ret(0, Some(e))
    case Response(resp) => Ret(resp.id, resp.err)
  }

  /** `Set.IsExists`. */
  function SetIsExists(endpoint: (Ctx, IsExistsRequest) -> Reply<IsExistsResponse>, ctx: Ctx, id: Uint64)
    : (r: Ret<bool>)
    ensures endpoint(ctx, IsExistsRequest(id)).Failure? ==>
      r == Ret(false, Some(endpoint(ctx, IsExistsRequest(id)).err))
    ensures endpoint(ctx, IsExistsRequest(id)).Response? ==>
      var resp := endpoint(ctx, IsExistsRequest(id)).value;
      r == Ret(resp.v, resp.Failed())
  {
    match endpoint(ctx, IsExistsRequest(id))
    case Failure(e) => Ret(false, Some(e))
    case Response(resp) => Ret(resp.v, resp.err)
  }

  /** A client `Set` over the server endpoint returns exactly what the service returned. */
  lemma SetUserIDOverEndpoint(userID: (Ctx, string, string) -> Ret<Uint64>, ctx: Ctx, name: string, password: string)
    ensures SetUserID((c, q) => MakeUserIDEndpoint(userID, c, q), ctx, name, password) == userID(ctx, name, password)
  {
  }

  lemma SetIsExistsOverEndpoint(isExists: (Ctx, Uint64) -> Ret<bool>, ctx: Ctx, id: Uint64)
    ensures SetIsExists((c, q) => MakeIsExistsEndpoint(isExists, c, q), ctx, id) == isExists(ctx, id)
  {
  }
}
