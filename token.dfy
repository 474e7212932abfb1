/**
 * Generation of an access/refresh token pair (authservice/token.go).
 * The foreign calls are inputs: the fresh UUID v4, the two clock readings,
 * HS256 signing and the name-based UUID v5 function.
 */
module Tokenizer {
  import opened Kit

  datatype AccessToken = AccessToken(uuid: string, hash: string)
  datatype RefreshToken = RefreshToken(accessUUID: string, refreshUUID: string, hash: string)

  /** The pair `Generate` returns; a failed call returns none of it. */
  datatype TokenPair = TokenPair(access: AccessToken, refresh: RefreshToken)

  /** Outcome of `jwt.NewWithClaims(method, claims).SignedString(key)`. */
  datatype Signed = Signed(hash: string) | SignFailed(err: Err)

  /** The environment `Generate` reads. */
  datatype Env = Env(
    sign: (string, Claims, string) -> Signed,  // (signing method, claims, key)
    uuidV5: (string, string) -> string,        // (namespace, name)
    accessSecret: string,                      // os.Getenv("ACCESS_SECRET")
    refreshSecret: string)                     // os.Getenv("REFRESH_SECRET")

  const HS256 := "HS256"
  /** The URL namespace of RFC 4122, Appendix C. */
  const NameSpaceURL := "6ba7b811-9dad-11d1-80b4-00c04fd430c8"
  /** Lifetimes in seconds: 30 minutes and 7 days. */
  const AccessLifetime := 30 * 60
  const RefreshLifetime := 7 * 24 * 60 * 60

  function AccessClaims(id: string, userID: Uint64, now: int): Claims {
    map["uuid" := Str(id), "user_id" := Num(userID), "exp" := Num(now + AccessLifetime)]
  }

  function RefreshClaims(accessUUID: string, refreshUUID: string, userID: Uint64, now: int): Claims {
    map["access_uuid" := Str(accessUUID), "refresh_uuid" := Str(refreshUUID),
        "user_id" := Num(userID), "exp" := Num(now + RefreshLifetime)]
  }

  /** `generateAccessToken`: `id` is the fresh UUID v4, `now` the clock in Unix seconds. */
  function GenerateAccessToken(env: Env, userID: Uint64, id: string, now: int): (r: Result<AccessToken>)
    ensures r.Ok? <==> env.sign(HS256, AccessClaims(id, userID, now), env.accessSecret).Signed?
    ensures r.Ok? ==> r.value.uuid == id && AccessClaims(id, userID, now)["uuid"] == Str(r.value.uuid)
  {
    match env.sign(HS256, AccessClaims(id, userID, now), env.accessSecret)
    case SignFailed(e) => Fail(e)
    case Signed(h) => Ok(AccessToken(id, h))
  }

  /** The refresh UUID: UUID v5 of the access UUID in the URL namespace. */
  function RefreshUUID(env: Env, accessUUID: string): string {
    env.uuidV5(NameSpaceURL, accessUUID)
  }

  /** `generateRefreshToken`. */
  function GenerateRefreshToken(env: Env, userID: Uint64, accessUUID: string, now: int): (r: Result<RefreshToken>)
    ensures r.Ok? <==> env.sign(HS256, RefreshClaims(accessUUID, RefreshUUID(env, accessUUID), userID, now), env.refreshSecret).Signed?
    ensures r.Ok? ==> r.value.accessUUID == accessUUID && r.value.refreshUUID == RefreshUUID(env, accessUUID)
  {
    var refreshUUID := RefreshUUID(env, accessUUID);
    match env.sign(HS256, RefreshClaims(accessUUID, refreshUUID, userID, now), env.refreshSecret)
    case SignFailed(e) => Fail(e)
    case Signed(h) => Ok(RefreshToken(accessUUID, refreshUUID, h))
  }

  /**
   * `tokenizer.Generate`. `accessID` is the UUID v4 minted for this call;
   * `accessNow` and `refreshNow` are the two clock readings (one per token).
   */
  function Generate(env: Env, userID: Uint64, accessID: string, accessNow: int, refreshNow: int): (r: Result<TokenPair>)
    ensures r.Ok? ==>
      && r.value.access.uuid == accessID
      && r.value.refresh.accessUUID == r.value.access.uuid
      && r.value.refresh.refreshUUID == env.uuidV5(NameSpaceURL, r.value.access.uuid)
      && Signed(r.value.access.hash) == env.sign(HS256, AccessClaims(accessID, userID, accessNow), env.accessSecret)
      && Signed(r.value.refresh.hash) ==
           env.sign(HS256, RefreshClaims(accessID, r.value.refresh.refreshUUID, userID, refreshNow), env.refreshSecret)
    ensures GenerateAccessToken(env, userID, accessID, accessNow).Fail? ==>
      r == Fail(GenerateAccessToken(env, userID, accessID, accessNow).err)
  {
    match GenerateAccessToken(env, userID, accessID, accessNow)
    case Fail(e) => Fail(e)
    case Ok(access) =>
      match GenerateRefreshToken(env, userID, access.uuid, refreshNow)
      case Fail(e) => Fail(e)
      case Ok(refresh) => Ok(TokenPair(access, refresh))
  }

  /** Either both tokens are signed, or the call fails with the first signing error and returns neither. */
  lemma GenerateIsAtomic(env: Env, userID: Uint64, accessID: string, accessNow: int, refreshNow: int)
    ensures var r := Generate(env, userID, accessID, accessNow, refreshNow);
            var a := env.sign(HS256, AccessClaims(accessID, userID, accessNow), env.accessSecret);
            var f := env.sign(HS256, RefreshClaims(accessID, RefreshUUID(env, accessID), userID, refreshNow), env.refreshSecret);
            && (r.Ok? <==> a.Signed? && f.Signed?)
            && (a.SignFailed? ==> r == Fail(a.err))
            && (a.Signed? && f.SignFailed? ==> r == Fail(f.err))
  {
  }

  /** The refresh UUID depends on the access UUID alone: not on the user, the clock or the signatures. */
  lemma RefreshUUIDIsDeterministic(env: Env, u1: Uint64, u2: Uint64, accessID: string,
                                   a1: int, r1: int, a2: int, r2: int)
    requires Generate(env, u1, accessID, a1, r1).Ok? && Generate(env, u2, accessID, a2, r2).Ok?
    ensures Generate(env, u1, accessID, a1, r1).value.refresh.refreshUUID
         == Generate(env, u2, accessID, a2, r2).value.refresh.refreshUUID
  {
  }

  /**
   * With one clock value the refresh token expires 7 days after issue and the
   * access token 30 minutes after; with a clock that does not run backwards the
   * refresh token always outlives the access token.
   */
  lemma RefreshOutlivesAccess(id: string, refreshUUID: string, userID: Uint64, accessNow: int, refreshNow: int)
    requires accessNow <= refreshNow
    ensures AccessClaims(id, userID, accessNow)["exp"].n < RefreshClaims(id, refreshUUID, userID, refreshNow)["exp"].n
    ensures accessNow == refreshNow ==>
      RefreshClaims(id, refreshUUID, userID, refreshNow)["exp"].n - AccessClaims(id, userID, accessNow)["exp"].n
        == 7 * 24 * 3600 - 30 * 60
  {
  }
}
