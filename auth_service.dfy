/** The auth service's Login (authservice/service.go). */
module AuthService {
  import opened Kit
  import Tokenizer

  /** A Go `map[string]string` that may be nil. */
  type Tokens = Option<map<string, string>>

  const AccessTokenKey := "access_token"
  const RefreshTokenKey := "refresh_token"

  /**
   * `basicService.Login`: the user ID comes from the request context (the
   * proxy put it there); the credentials are not read. `generate` is the
   * tokenizer; the trace lists the user IDs it was called with.
   */
  function Login(ctx: Ctx, username: string, password: string,
                 generate: Uint64 -> Result<Tokenizer.TokenPair>)
    : (r: Traced<Ret<Tokens>, Uint64>)
    ensures ContextUserID(ctx).None? ==>
      r == Traced(Ret(None, Some(AuthServiceUserIDContextMissing)), [])
    ensures ContextUserID(ctx).Some? ==> r.calls == [ContextUserID(ctx).value]
    ensures ContextUserID(ctx).Some? && generate(ContextUserID(ctx).value).Fail? ==>
      r.result == Ret(None, Some(generate(ContextUserID(ctx).value).err))
    ensures r.result.err.None? <==> ContextUserID(ctx).Some? && generate(ContextUserID(ctx).value).Ok?
    ensures r.result.err.None? ==>
      && r.result.value.Some?
      && r.result.value.value.Keys == {AccessTokenKey, RefreshTokenKey}
      && r.result.value.value[AccessTokenKey] == generate(ContextUserID(ctx).value).value.access.hash
      && r.result.value.value[RefreshTokenKey] == generate(ContextUserID(ctx).value).value.refresh.hash
  {
    match ContextUserID(ctx)
    case None => Traced(Ret(None, Some(AuthServiceUserIDContextMissing)), [])
    case Some(userID) =>
      match generate(userID)
      case Fail(e) => Traced(Ret(None, Some(e)), [userID])
      case Ok(pair) =>
        Traced(Ret(Some(map[AccessTokenKey := pair.access.hash, RefreshTokenKey := pair.refresh.hash]), None), [userID])
  }

  /** Login's result does not depend on the username and password it is given. */
  lemma LoginIgnoresCredentials(ctx: Ctx, u1: string, p1: string, u2: string, p2: string,
                                generate: Uint64 -> Result<Tokenizer.TokenPair>)
    ensures Login(ctx, u1, p1, generate) == Login(ctx, u2, p2, generate)
  {
  }
}
