/**
 * Endpoints of the auth service and the client-side `Set`
 * (authendpoint/set.go). Logout and Refresh take their arguments from the JWT
 * claims the transport put in the context, not from the request body.
 */
module AuthEndpoint {
  import opened Kit
  import opened AuthService

  datatype LoginRequest = LoginRequest(username: string, password: string)
  datatype LoginResponse = LoginResponse(tokens: Tokens, err: Option<Err>) {
    function Failed(): Option<Err> { err }
  }

  datatype LogoutRequest = LogoutRequest
  datatype LogoutResponse = LogoutResponse(success: bool, err: Option<Err>) {
    function Failed(): Option<Err> { err }
  }

  datatype RefreshRequest = RefreshRequest
  datatype RefreshResponse = RefreshResponse(tokens: Tokens, err: Option<Err>) {
    function Failed(): Option<Err> { err }
  }

  datatype ValidateRequest = ValidateRequest(accessUUID: string)
  datatype ValidateResponse = ValidateResponse(v: bool, err: Option<Err>) {
    function Failed(): Option<Err> { err }
  }

  /** A call an endpoint made to the service behind it. */
  datatype Call =
    | LogoutCall(ctx: Ctx, accessUUID: string)
    | RefreshCall(ctx: Ctx, accessUUID: string, refreshUUID: string, userID: Uint64)

  /** The service operations behind the endpoints. */
  type LoginOp = (Ctx, string, string) -> Ret<Tokens>
  type LogoutOp = (Ctx, string) -> Ret<bool>
  type RefreshOp = (Ctx, string, string, Uint64) -> Ret<Tokens>
  type ValidateOp = (Ctx, string) -> Ret<bool>

  /** `MakeLoginEndpoint`: never a transport error; the service's error travels in the response. */
  function MakeLoginEndpoint(login: LoginOp, ctx: Ctx, req: LoginRequest): (r: Reply<LoginResponse>)
    ensures r.Response?
    ensures r.value.tokens == login(ctx, req.username, req.password).value
    ensures r.value.Failed() == login(ctx, req.username, req.password).err
  {
    var s := login(ctx, req.username, req.password);
    Response(LoginResponse(s.value, s.err))
  }

  /**
   * `MakeLogoutEndpoint`: the token to revoke is the `uuid` claim. Without
   * claims, or with a `uuid` that is not a string, the service is not called
   * and the response carries ClaimsMissing or ClaimsInvalid.
   */
  function MakeLogoutEndpoint(logout: LogoutOp, ctx: Ctx, req: LogoutRequest): (r: Traced<Reply<LogoutResponse>, Call>)
    ensures r.result.Response?
    ensures r.calls == [] <==> ContextClaims(ctx).None? || StringClaim(ContextClaims(ctx).value, "uuid").None?
    ensures ContextClaims(ctx).None? ==> r.result.value == LogoutResponse(false, Some(AuthSvcClaimsMissing))
    ensures ContextClaims(ctx).Some? && StringClaim(ContextClaims(ctx).value, "uuid").None? ==>
      r.result.value == LogoutResponse(false, Some(AuthSvcClaimsInvalid))
    ensures ContextClaims(ctx).Some? && StringClaim(ContextClaims(ctx).value, "uuid").Some? ==>
      var uuid := StringClaim(ContextClaims(ctx).value, "uuid").value;
      && r.calls == [LogoutCall(ctx, uuid)]
      && r.result.value == LogoutResponse(logout(ctx, uuid).value, logout(ctx, uuid).err)
  {
    match ContextClaims(ctx)
    case None => Traced(Response(LogoutResponse(false, Some(AuthSvcClaimsMissing))), [])
    case Some(claims) =>
      match StringClaim(claims, "uuid")
      case None => Traced(Response(LogoutResponse(false, Some(AuthSvcClaimsInvalid))), [])
      case Some(uuid) =>
        var s := logout(ctx, uuid);
        Traced(Response(LogoutResponse(s.value, s.err)), [LogoutCall(ctx, uuid)])
  }

  /** The three claims Refresh needs, when they are all well-formed. */
  function RefreshClaims(claims: Claims): Option<(string, string, Uint64)> {
    match (StringClaim(claims, "access_uuid"), StringClaim(claims, "refresh_uuid"), Uint64Claim(claims, "user_id"))
    case (Some(a), Some(f), Some(u)) => Some((a, f, u))
    case _ => None
  }

  /**
   * `MakeRefreshEndpoint`: access UUID, refresh UUID and user ID all come
   * from the refresh token's claims; if any is missing or ill-typed the
   * service is not called.
   */
  function MakeRefreshEndpoint(refresh: RefreshOp, ctx: Ctx, req: RefreshRequest): (r: Traced<Reply<RefreshResponse>, Call>)
    ensures r.result.Response?
    ensures ContextClaims(ctx).None? ==> r == Traced(Response(RefreshResponse(None, Some(AuthSvcClaimsMissing))), [])
    ensures ContextClaims(ctx).Some? && RefreshClaims(ContextClaims(ctx).value).None? ==>
      r == Traced(Response(RefreshResponse(None, Some(AuthSvcClaimsInvalid))), [])
    ensures ContextClaims(ctx).Some? && RefreshClaims(ContextClaims(ctx).value).Some? ==>
      var claims := ContextClaims(ctx).value;
      var a := claims["access_uuid"].s;
      var f := claims["refresh_uuid"].s;
      var u := claims["user_id"].n;
      && "access_uuid" in claims && "refresh_uuid" in claims && "user_id" in claims
      && claims["access_uuid"].Str? && claims["refresh_uuid"].Str? && claims["user_id"].Num? && 0 <= u < TwoTo64
      && r.calls == [RefreshCall(ctx, a, f, u)]
      && r.result.value == RefreshResponse(refresh(ctx, a, f, u).value, refresh(ctx, a, f, u).err)
  {
    match ContextClaims(ctx)
    case None => Traced(Response(RefreshResponse(None, Some(AuthSvcClaimsMissing))), [])
    case Some(claims) =>
      match RefreshClaims(claims)
      case None => Traced(Response(RefreshResponse(None, Some(AuthSvcClaimsInvalid))), [])
      case Some((a, f, u)) =>
        var s := refresh(ctx, a, f, u);
        Traced(Response(RefreshResponse(s.value, s.err)), [RefreshCall(ctx, a, f, u)])
  }

  /** `MakeValidateEndpoint`. */
  function MakeValidateEndpoint(validate: ValidateOp, ctx: Ctx, req: ValidateRequest): (r: Reply<ValidateResponse>)
    ensures r.Response?
    ensures r.value.v == validate(ctx, req.accessUUID).value
    ensures r.value.Failed() == validate(ctx, req.accessUUID).err
  {
    var s := validate(ctx, req.accessUUID);
    Response(ValidateResponse(s.value, s.err))
  }

  /** `Set.Login`: a transport error becomes a nil token map. */
  function SetLogin(endpoint: (Ctx, LoginRequest) -> Reply<LoginResponse>, ctx: Ctx, username: string, password: string)
    : (r: Ret<Tokens>)
    ensures endpoint(ctx, LoginRequest(username, password)).Failure? ==>
      r == Ret(None, Some(endpoint(ctx, LoginRequest(username, password)).err))
    ensures endpoint(ctx, LoginRequest(username, password)).Response? ==>
      var resp := endpoint(ctx, LoginRequest(username, password)).value;
      r == Ret(resp.tokens, resp.Failed())
  {
    match endpoint(ctx, LoginRequest(username, password))
    case Failure(e) => Ret(None, Some(e))
    case Response(resp) => Ret(resp.tokens, resp.err)
  }

  /** `Set.Logout`: sends an empty request; `accessUUID` is not sent. */
  function SetLogout(endpoint: (Ctx, LogoutRequest) -> Reply<LogoutResponse>, ctx: Ctx, accessUUID: string)
    : (r: Ret<bool>)
    ensures endpoint(ctx, LogoutRequest).Failure? ==> r == Ret(false, Some(endpoint(ctx, LogoutRequest).err))
    ensures endpoint(ctx, LogoutRequest).Response? ==>
      var resp := endpoint(ctx, LogoutRequest).value;
      r == Ret(resp.success, resp.Failed())
  {
    match endpoint(ctx, LogoutRequest)
    case Failure(e) => Ret(false, Some(e))
    case Response(resp) => Ret(resp.success, resp.err)
  }

  /** `Set.Refresh`: sends an empty request; none of its three arguments is sent. */
  function SetRefresh(endpoint: (Ctx, RefreshRequest) -> Reply<RefreshResponse>, ctx: Ctx,
                      accessUUID: string, refreshUUID: string, userID: Uint64)
    : (r: Ret<Tokens>)
    ensures endpoint(ctx, RefreshRequest).Failure? ==> r == Ret(None, Some(endpoint(ctx, RefreshRequest).err))
    ensures endpoint(ctx, RefreshRequest).Response? ==>
      var resp := endpoint(ctx, RefreshRequest).value;
      r == Ret(resp.tokens, resp.Failed())
  {
    match endpoint(ctx, RefreshRequest)
    case Failure(e) => Ret(None, Some(e))
    case Response(resp) => Ret(resp.tokens, resp.err)
  }

  /** `Set.Validate`. */
  function SetValidate(endpoint: (Ctx, ValidateRequest) -> Reply<ValidateResponse>, ctx: Ctx, accessUUID: string)
    : (r: Ret<bool>)
    ensures endpoint(ctx, ValidateRequest(accessUUID)).Failure? ==>
      r == Ret(false, Some(endpoint(ctx, ValidateRequest(accessUUID)).err))
    ensures endpoint(ctx, ValidateRequest(accessUUID)).Response? ==>
      var resp := endpoint(ctx, ValidateRequest(accessUUID)).value;
      r == Ret(resp.v, resp.Failed())
  {
    match endpoint(ctx, ValidateRequest(accessUUID))
    case Failure(e) => Ret(false, Some(e))
    case Response(resp) => Ret(resp.v, resp.err)
  }

  /** Login and Validate through `Set` over the server endpoint return exactly what the service returned. */
  lemma SetLoginOverEndpoint(login: LoginOp, ctx: Ctx, username: string, password: string)
    ensures SetLogin((c, q) => MakeLoginEndpoint(login, c, q), ctx, username, password) == login(ctx, username, password)
  {
  }

  lemma SetValidateOverEndpoint(validate: ValidateOp, ctx: Ctx, accessUUID: string)
    ensures SetValidate((c, q) => MakeValidateEndpoint(validate, c, q), ctx, accessUUID) == validate(ctx, accessUUID)
  {
  }

  /**
   * Logout through `Set` over the server endpoint revokes the token named by
   * the context's `uuid` claim, whatever access UUID the caller passed.
   */
  lemma SetLogoutOverEndpoint(logout: LogoutOp, ctx: Ctx, accessUUID: string)
    ensures var r := SetLogout((c, q) => MakeLogoutEndpoint(logout, c, q).result, ctx, accessUUID);
            && (ContextClaims(ctx).None? ==> r == Ret(false, Some(AuthSvcClaimsMissing)))
            && (ContextClaims(ctx).Some? && StringClaim(ContextClaims(ctx).value, "uuid").None? ==>
                  r == Ret(false, Some(AuthSvcClaimsInvalid)))
            && (ContextClaims(ctx).Some? && StringClaim(ContextClaims(ctx).value, "uuid").Some? ==>
                  r == logout(ctx, StringClaim(ContextClaims(ctx).value, "uuid").value))
  {
  }

  /** Refresh through `Set` over the server endpoint uses the claims, never the caller's arguments. */
  lemma SetRefreshOverEndpoint(refresh: RefreshOp, ctx: Ctx, accessUUID: string, refreshUUID: string, userID: Uint64)
    ensures var r := SetRefresh((c, q) => MakeRefreshEndpoint(refresh, c, q).result, ctx, accessUUID, refreshUUID, userID);
            && (ContextClaims(ctx).None? ==> r == Ret(None, Some(AuthSvcClaimsMissing)))
            && (ContextClaims(ctx).Some? && RefreshClaims(ContextClaims(ctx).value).None? ==>
                  r == Ret(None, Some(AuthSvcClaimsInvalid)))
            && (ContextClaims(ctx).Some? && RefreshClaims(ContextClaims(ctx).value).Some? ==>
                  var (a, f, u) := RefreshClaims(ContextClaims(ctx).value).value;
                  r == refresh(ctx, a, f, u))
  {
  }
}
