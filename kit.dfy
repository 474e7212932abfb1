/**
 * Shared vocabulary of the three services: Go's (value, error) returns, the
 * package-level sentinel errors, request contexts and JWT claim maps, and the
 * shape of a go-kit endpoint call.
 */
module Kit {

  /** Go's `uint64`. */
  const TwoTo64: int := 0x1_0000_0000_0000_0000
  type Uint64 = n: int | 0 <= n < TwoTo64

  datatype Option<+T> = None | Some(value: T)

  /**
   * Every error value the core can produce. A sentinel declared with
   * `errors.New` at package level is its own constructor: Go compares errors
   * by identity, so two sentinels with the same text are still different
   * values. `Fresh(msg)` is an error made at run time (`errors.New(msg)`, a
   * store or signing failure, a transport failure, a JSON decoding failure).
   */
  datatype Err =
    // backend/usersvc/usersvc.go
    | UserSvcInvalidArgument
    | UserSvcUserNotFound
    // backend/usersvc/pkg/userservice/service.go
    | UserServiceInvalidArgument
    | UserServiceUserNotFound
    // backend/authsvc/authsvc.go
    | AuthSvcInvalidArgument
    | AuthSvcUserIDContextMissing
    | AuthSvcClaimsMissing
    | AuthSvcClaimsInvalid
    | AuthSvcUUIDMissing
    // backend/authsvc/pkg/authservice/service.go
    | AuthServiceUserIDContextMissing
    // backend/authsvc/inmem/inmem.go
    | KeyNotFound
    // backend/tasksvc/tasksvc.go
    | TaskSvcInvalidArgument
    | TaskSvcUserIDContextMissing
    | TaskSvcClaimsMissing
    | TaskSvcClaimsInvalid
    // go-kit's auth/jwt package
    | TokenExpired
    // backend/tasksvc/pkg/tasktransport/http.go
    | BadRouting
    | Fresh(msg: string)

  const InvalidArgumentText := "invalid argument"
  const UserNotFoundText := "user not found"
  const UserIDContextMissingText := "user ID was not passed through the context"
  const ClaimsMissingText := "JWT claims was not passed through the context"
  const ClaimsInvalidText := "JWT claims was invalid"
  const UUIDMissingText := "JWT UUID is missing from JWT claims"
  const KeyNotFoundText := "key not found"
  const TokenExpiredText := "JWT Token is expired"
  const BadRoutingText := "inconsistent mapping between route and handler (programmer error)"

  /** `err.Error()`. */
  function Message(e: Err): string {
    match e
    case UserSvcInvalidArgument => InvalidArgumentText
    case UserSvcUserNotFound => UserNotFoundText
    case UserServiceInvalidArgument => InvalidArgumentText
    case UserServiceUserNotFound => UserNotFoundText
    case AuthSvcInvalidArgument => InvalidArgumentText
    case AuthSvcUserIDContextMissing => UserIDContextMissingText
    case AuthSvcClaimsMissing => ClaimsMissingText
    case AuthSvcClaimsInvalid => ClaimsInvalidText
    case AuthSvcUUIDMissing => UUIDMissingText
    case AuthServiceUserIDContextMissing => UserIDContextMissingText
    case KeyNotFound => KeyNotFoundText
    case TaskSvcInvalidArgument => InvalidArgumentText
    case TaskSvcUserIDContextMissing => UserIDContextMissingText
    case TaskSvcClaimsMissing => ClaimsMissingText
    case TaskSvcClaimsInvalid => ClaimsInvalidText
    case TokenExpired => TokenExpiredText
    case BadRouting => BadRoutingText
    case Fresh(m) => m
  }

  /** A Go `(T, error)` pair; `err == None` is a nil error. */
  datatype Ret<T> = Ret(value: T, err: Option<Err>)

  /** What a go-kit `endpoint.Endpoint` returns: a non-nil error, or a response. */
  datatype Reply<R> = Failure(err: Err) | Response(value: R)

  /** A decoded value or the error that stopped decoding. */
  datatype Result<T> = Ok(value: T) | Fail(err: Err)

  /** A result together with the calls made to collaborators, in order. */
  datatype Traced<T, C> = Traced(result: T, calls: seq<C>)

  /** A value of a `jwt.MapClaims` map as decoded from JSON. */
  datatype ClaimVal = Str(s: string) | Num(n: int) | Flag(b: bool) | Null
  type Claims = map<string, ClaimVal>

  /** Keys used with `context.WithValue` / `ctx.Value`. */
  datatype CtxKey =
    | UserIDKey     // authsvc.UserIDContextKey
    | JWTUUIDKey    // authsvc.JWTUUIDContextKey
    | JWTClaimsKey  // kitjwt.JWTClaimsContextKey

  /** The dynamic type of a context value, as far as the type assertions here look. */
  datatype CtxVal = U64(n: Uint64) | Text(s: string) | MapClaims(claims: Claims) | OtherVal

  /** A request context: later `WithValue` calls shadow earlier ones, as a map update does. */
  type Ctx = map<CtxKey, CtxVal>

  /** `ctx.Value(UserIDContextKey).(uint64)`. */
  function ContextUserID(ctx: Ctx): Option<Uint64> {
    if UserIDKey in ctx && ctx[UserIDKey].U64? then Some(ctx[UserIDKey].n) else None
  }

  /** `ctx.Value(kitjwt.JWTClaimsContextKey).(stdjwt.MapClaims)`. */
  function ContextClaims(ctx: Ctx): Option<Claims> {
    if JWTClaimsKey in ctx && ctx[JWTClaimsKey].MapClaims? then Some(ctx[JWTClaimsKey].claims) else None
  }

  /** `claims[name].(string)`. */
  function StringClaim(c: Claims, name: string): Option<string> {
    if name in c && c[name].Str? then Some(c[name].s) else None
  }

  /**
   * `strconv.ParseUint(fmt.Sprintf("%.f", claims[name]), 10, 64)`: a number in
   * range parses; a missing key, a string, a boolean or a negative or too large
   * number gives text ParseUint rejects.
   */
  function Uint64Claim(c: Claims, name: string): Option<Uint64> {
    if name in c && c[name].Num? && 0 <= c[name].n < TwoTo64 then Some(c[name].n) else None
  }
}
