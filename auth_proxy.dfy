/**
 * The auth service's proxying decorator (authservice/middleware.go): Login
 * first resolves the credentials with the user service, Refresh first checks
 * that the user exists; Logout and Validate delegate directly. Each operation
 * returns its result and the calls it made, in order.
 */
module AuthProxy {
  import opened Kit
  import opened UserEndpoint
  import opened AuthService
  import Tokenizer

  datatype Call =
    | UserIDCall(ctx: Ctx, userIDReq: UserIDRequest)
    | IsExistsCall(ctx: Ctx, isExistsReq: IsExistsRequest)
    | NextLogin(ctx: Ctx, username: string, password: string)
    | NextLogout(ctx: Ctx, accessUUID: string)
    | NextRefresh(ctx: Ctx, accessUUID: string, refreshUUID: string, userID: Uint64)
    | NextValidate(ctx: Ctx, accessUUID: string)

  /** The remote user-ID endpoint. */
  type UserIDEndpoint = (Ctx, UserIDRequest) -> Reply<UserIDResponse>
  /** The remote user-existence endpoint. */
  type IsExistsEndpoint = (Ctx, IsExistsRequest) -> Reply<IsExistsResponse>

  /** `proxingMiddleware.Login`. */
  function Login(ctx: Ctx, username: string, password: string, userID: UserIDEndpoint,
                 next: (Ctx, string, string) -> Ret<Tokens>)
    : (r: Traced<Ret<Tokens>, Call>)
    ensures var req := UserIDRequest(username, password);
            var reply := userID(ctx, req);
            && |r.calls| >= 1 && r.calls[0] == UserIDCall(ctx, req)
            && (reply.Failure? ==> r == Traced(Ret(None, Some(reply.err)), [UserIDCall(ctx, req)]))
            && (reply.Response? && reply.value.err.Some? ==>
                  r == Traced(Ret(None, reply.value.err), [UserIDCall(ctx, req)]))
            && (reply.Response? && reply.value.err.None? ==>
                  var ctx' := ctx[UserIDKey := U64(reply.value.id)];
                  && ContextUserID(ctx') == Some(reply.value.id)
                  && r == Traced(next(ctx', username, password), [UserIDCall(ctx, req), NextLogin(ctx', username, password)]))
  {
    var req := UserIDRequest(username, password);
    match userID(ctx, req)
    case Failure(e) => Traced(Ret(None, Some(e)), [UserIDCall(ctx, req)])
    case Response(resp) =>
      if resp.err.Some? then Traced(Ret(None, resp.err), [UserIDCall(ctx, req)])
      else
        var ctx' := ctx[UserIDKey := U64(resp.id)];
        Traced(next(ctx', username, password), [UserIDCall(ctx, req), NextLogin(ctx', username, password)])
  }

  /** `proxingMiddleware.Logout`: no remote call. */
  function Logout(ctx: Ctx, accessUUID: string, next: (Ctx, string) -> Ret<bool>): (r: Traced<Ret<bool>, Call>)
    ensures r.calls == [NextLogout(ctx, accessUUID)]
    ensures r.result == next(ctx, accessUUID)
  {
    Traced(next(ctx, accessUUID), [NextLogout(ctx, accessUUID)])
  }

  /**
   * `proxingMiddleware.Refresh`: only the reply's error is inspected; a reply
   * saying the user does not exist, without an error, still proceeds.
   */
  function Refresh(ctx: Ctx, accessUUID: string, refreshUUID: string, userID: Uint64, isUserExists: IsExistsEndpoint,
                   next: (Ctx, string, string, Uint64) -> Ret<Tokens>)
    : (r: Traced<Ret<Tokens>, Call>)
    ensures var req := IsExistsRequest(userID);
            var reply := isUserExists(ctx, req);
            && |r.calls| >= 1 && r.calls[0] == IsExistsCall(ctx, req)
            && (reply.Failure? ==> r == Traced(Ret(None, Some(reply.err)), [IsExistsCall(ctx, req)]))
            && (reply.Response? && reply.value.err.Some? ==>
                  r == Traced(Ret(None, reply.value.err), [IsExistsCall(ctx, req)]))
            && (reply.Response? && reply.value.err.None? ==>
                  r == Traced(next(ctx, accessUUID, refreshUUID, userID),
                              [IsExistsCall(ctx, req), NextRefresh(ctx, accessUUID, refreshUUID, userID)]))
  {
    var req := IsExistsRequest(userID);
    match isUserExists(ctx, req)
    case Failure(e) => Traced(Ret(None, Some(e)), [IsExistsCall(ctx, req)])
    case Response(resp) =>
      if resp.err.Some? then Traced(Ret(None, resp.err), [IsExistsCall(ctx, req)])
      else Traced(next(ctx, accessUUID, refreshUUID, userID), [IsExistsCall(ctx, req), NextRefresh(ctx, accessUUID, refreshUUID, userID)])
  }

  /** `proxingMiddleware.Validate`: no remote call. */
  function Validate(ctx: Ctx, accessUUID: string, next: (Ctx, string) -> Ret<bool>): (r: Traced<Ret<bool>, Call>)
    ensures r.calls == [NextValidate(ctx, accessUUID)]
    ensures r.result == next(ctx, accessUUID)
  {
    Traced(next(ctx, accessUUID), [NextValidate(ctx, accessUUID)])
  }

  /**
   * Refresh reaches the wrapped operation exactly when the existence check
   * answered without error, whatever its boolean says.
   */
  lemma RefreshIgnoresExistsFlag(ctx: Ctx, accessUUID: string, refreshUUID: string, userID: Uint64,
                                 isUserExists: IsExistsEndpoint, next: (Ctx, string, string, Uint64) -> Ret<Tokens>)
    ensures var reply := isUserExists(ctx, IsExistsRequest(userID));
            var r := Refresh(ctx, accessUUID, refreshUUID, userID, isUserExists, next);
            NextRefresh(ctx, accessUUID, refreshUUID, userID) in r.calls <==> reply.Response? && reply.value.err.None?
  {
  }

  /**
   * Login behind the proxy: the tokenizer is called with exactly the ID the
   * user service resolved, and not at all when resolution failed.
   */
  lemma LoginBehindProxy(ctx: Ctx, username: string, password: string, userID: UserIDEndpoint,
                         generate: Uint64 -> Result<Tokenizer.TokenPair>)
    ensures var reply := userID(ctx, UserIDRequest(username, password));
            var r := Login(ctx, username, password, userID, (c, u, p) => AuthService.Login(c, u, p, generate).result);
            && (reply.Response? && reply.value.err.None? ==>
                  r.result == AuthService.Login(ctx[UserIDKey := U64(reply.value.id)], username, password, generate).result
                  && AuthService.Login(ctx[UserIDKey := U64(reply.value.id)], username, password, generate).calls == [reply.value.id])
            && (reply.Failure? ==> r.result == Ret(None, Some(reply.err)))
            && (reply.Response? && reply.value.err.Some? ==> r.result == Ret(None, reply.value.err))
  {
  }
}
