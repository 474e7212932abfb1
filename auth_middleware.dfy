/**
 * The authenticating endpoint middleware (authtransport/middleware.go): a
 * request passes only if its JWT claims carry a `uuid` that is present in the
 * token ledger.
 */
module AuthMiddleware {
  import opened Kit
  import opened InMem

  /**
   * `NewAuthenticater(store)(next)(ctx, request)`. `fault` is the backend's
   * answer to the ledger lookup; `forwarded` is the context `next` was called
   * with, or None when `next` was not called. The store is only read.
   */
  method Authenticate<Req, Resp(==)>(store: Client, fault: Option<Err>, ctx: Ctx, request: Req,
                                    next: (Ctx, Req) -> Reply<Resp>)
    returns (r: Reply<Resp>, forwarded: Option<Ctx>)
    ensures ContextClaims(ctx).None? ==> r == Failure(AuthSvcClaimsMissing) && forwarded.None?
    ensures ContextClaims(ctx).Some? && StringClaim(ContextClaims(ctx).value, "uuid").None? ==>
      r == Failure(AuthSvcUUIDMissing) && forwarded.None?
    ensures ContextClaims(ctx).Some? && StringClaim(ContextClaims(ctx).value, "uuid").Some? ==>
      var uuid := StringClaim(ContextClaims(ctx).value, "uuid").value;
      && (fault.Some? ==> r == Failure(fault.value) && forwarded.None?)
      && (fault.None? && uuid !in store.kv ==> r == Failure(KeyNotFound) && forwarded.None?)
      && (fault.None? && uuid in store.kv ==>
            forwarded == Some(ctx[JWTUUIDKey := Text(uuid)]) && r == next(ctx[JWTUUIDKey := Text(uuid)], request))
  {
    forwarded := None;
    var claims := ContextClaims(ctx);
    if claims.None? {
      return Failure(AuthSvcClaimsMissing), forwarded;
    }
    var uuid := StringClaim(claims.value, "uuid");
    if uuid.None? {
      return Failure(AuthSvcUUIDMissing), forwarded;
    }
    var err := store.Get(uuid.value, fault);
    if err.Some? {
      return Failure(err.value), forwarded;
    }
    var ctx' := ctx[JWTUUIDKey := Text(uuid.value)];
    forwarded := Some(ctx');
    r := next(ctx', request);
  }

  /**
   * Revocation: once a token's key is deleted from the ledger, a request
   * carrying that token is rejected with KeyNotFound and never reaches `next`.
   */
  method RevokedTokenIsRejected<Req, Resp(==)>(store: Client, ctx: Ctx, request: Req, next: (Ctx, Req) -> Reply<Resp>)
    returns (r: Reply<Resp>, forwarded: Option<Ctx>)
    requires ContextClaims(ctx).Some? && StringClaim(ContextClaims(ctx).value, "uuid").Some?
    modifies store
    ensures r == Failure(KeyNotFound) && forwarded.None?
  {
    var uuid := StringClaim(ContextClaims(ctx).value, "uuid").value;
    var _ := store.Delete(uuid, None);
    r, forwarded := Authenticate(store, None, ctx, request, next);
  }

  /** A token whose key was just stored passes, and `next` sees its uuid in the context. */
  method IssuedTokenIsAccepted<Req, Resp(==)>(store: Client, ctx: Ctx, request: Req, hash: Bytes,
                                             next: (Ctx, Req) -> Reply<Resp>)
    returns (r: Reply<Resp>, forwarded: Option<Ctx>)
    requires ContextClaims(ctx).Some? && StringClaim(ContextClaims(ctx).value, "uuid").Some?
    modifies store
    ensures var uuid := StringClaim(ContextClaims(ctx).value, "uuid").value;
            forwarded == Some(ctx[JWTUUIDKey := Text(uuid)]) && r == next(forwarded.value, request)
  {
    var uuid := StringClaim(ContextClaims(ctx).value, "uuid").value;
    var _ := store.Put(uuid, hash, None);
    r, forwarded := Authenticate(store, None, ctx, request, next);
  }
}
