# gtdkit authentication and authorisation path, in Dafny

This project models the authentication and authorisation path of gtdkit, a
to-do application built from three Go micro-services on go-kit:

- **authsvc** issues a JWT access/refresh token pair at login. It keeps a
  ledger of valid tokens in Consul's key/value store. Its transport
  package defines an endpoint middleware that rejects a request whose token
  is not in the ledger; the HTTP handler receives the ledger client but
  does not install that middleware.
- **usersvc** resolves credentials to a user ID and answers whether a user
  exists.
- **tasksvc** serves a user's tasks. Before any operation, it asks authsvc
  whether the access token is still valid and asks usersvc whether the user
  exists.

Each Go file of the core is one Dafny module:

| file | module |
|---|---|
| shared vocabulary (errors, contexts, claims, call results) | `Kit` (kit.dfy) |
| backend/authsvc/pkg/authservice/token.go | `Tokenizer` (token.dfy) |
| backend/authsvc/pkg/authservice/service.go | `AuthService` (auth_service.dfy) |
| backend/authsvc/pkg/authservice/middleware.go | `AuthProxy` (auth_proxy.dfy) |
| backend/authsvc/inmem/inmem.go | `InMem` (inmem.dfy) |
| backend/authsvc/pkg/authtransport/middleware.go | `AuthMiddleware` (auth_middleware.dfy) |
| backend/authsvc/pkg/authendpoint/set.go | `AuthEndpoint` (auth_endpoint.dfy) |
| backend/authsvc/pkg/authtransport/http.go | `AuthHTTP` (auth_http.dfy) |
| backend/usersvc/pkg/userservice/service.go | `UserService` (user_service.dfy) |
| backend/usersvc/pkg/userendpoint/set.go | `UserEndpoint` (user_endpoint.dfy) |
| backend/usersvc/pkg/usertransport/grpc.go | `UserGRPC` (user_grpc.dfy) |
| backend/tasksvc/tasksvc.go, backend/tasksvc/pkg/taskservice/service.go | `TaskService` (task_service.dfy) |
| backend/tasksvc/pkg/taskservice/middleware.go | `TaskProxy` (task_proxy.dfy) |
| backend/tasksvc/pkg/taskendpoint/set.go | `TaskEndpoint` (task_endpoint.dfy) |
| backend/tasksvc/pkg/tasktransport/grpc.go | `TaskGRPC` (task_grpc.dfy) |
| backend/tasksvc/pkg/tasktransport/http.go | `TaskHTTP` (task_http.dfy) |

Modelling conventions:

- **Errors.** Go compares errors by identity, so every package-level
  sentinel is its own constructor of `Kit.Err`. Two sentinels with the same
  text are still different errors: usersvc's, userservice's, authsvc's and
  tasksvc's "invalid argument" are four values. authservice's "user ID was
  not passed through the context" is not authsvc's. An error made at run
  time (`errors.New(text)`, a store, signing, transport or JSON failure) is
  `Fresh(text)`.
- **Go results.** A `(T, error)` result is `Ret(value, err)`. A go-kit
  endpoint returns either a transport error or a response:
  `Reply = Failure(err) | Response(value)`.
- **Foreign calls.** Remote endpoints, the wrapped `next` service, the task
  repository, JWT signing, UUID generation and the clock are
  function-typed parameters.
- **Call traces.** Where the source promises that a collaborator is *not*
  called, the function returns `Traced(result, calls)`. `calls` lists the
  calls made, in order.
- **Contexts and claims.** A request context is a map from context keys to
  values; a later `WithValue` shadows an earlier one, as a map update does.
  JWT claims are a map from names to JSON values.
- **Token ledger.** The ledger is a class holding a `map`. Put and Delete
  change it in place. A Consul failure is the `fault` argument of each call.
- **List loops.** The two loops that build task lists in the gRPC transport
  are methods with loop invariants.

Some properties the proofs make explicit:

- The auth proxy's Refresh and the task proxy's checks look only at the
  error in a reply, never at its boolean (`AuthProxy.RefreshIgnoresExistsFlag`,
  `TaskProxy.Validate`).
- A missing user ID at Login raises authservice's own sentinel. The auth HTTP
  transport answers it with 500, not 401 (`AuthHTTP.LoginMissingContextIs500`).
- The gateway serves the task HTTP handler over the task gRPC client. Errors
  from the task service therefore cross gRPC before `err2code` sees them, so
  only their "invalid argument" text survives as a 400. None of them can reach
  the 401 branch (`TaskHTTP.GatewayStatusOfServiceError`).
- An UpdateTask reply always loses the task's owner
  (`TaskGRPC.UpdateTaskResponseDropsOwner`).
- The owner of an updated task is the caller named in the token, whatever
  the client sent (`TaskEndpoint.UpdateOwnerFromClaims`).

## Model

| member | source | states |
|---|---|---|
| Tokenizer.GenerateAccessToken | backend/authsvc/pkg/authservice/token.go:51-68 | succeeds exactly when HS256 signing of the access claims with the access secret succeeds; the token's UUID is the minted UUID and equals its `uuid` claim |
| Tokenizer.GenerateRefreshToken | backend/authsvc/pkg/authservice/token.go:70-88 | succeeds exactly when signing with the refresh secret succeeds; records the access UUID and the UUID v5 of it in the URL namespace |
| Tokenizer.Generate | backend/authsvc/pkg/authservice/token.go:32-44 | on success the refresh token points at the access token's UUID, its refresh UUID is UUID v5 of that UUID, and each hash is the signature with its own secret over that token's claims for the requested user and the minted access UUID; an access-signing failure is returned as is |
| Tokenizer.GenerateIsAtomic | backend/authsvc/pkg/authservice/token.go:32-44 | a pair is returned exactly when both signings succeed; otherwise the first signing error is returned and no token at all |
| Tokenizer.RefreshUUIDIsDeterministic | backend/authsvc/pkg/authservice/token.go:71 | equal access UUIDs give equal refresh UUIDs, whatever the user, clocks or signatures |
| Tokenizer.RefreshOutlivesAccess | backend/authsvc/pkg/authservice/token.go:51-79 | for one clock value the expiries are now+30 min and now+7 days; with a clock that does not run backwards the refresh token outlives the access token |
| AuthService.Login | backend/authsvc/pkg/authservice/service.go:32-49 | no uint64 user ID in the context: authservice's sentinel and no tokenizer call; otherwise the tokenizer is called once with that ID and its error is returned with a nil map; the result has no error exactly when the ID is present and the tokenizer succeeds, and then holds exactly the keys access_token and refresh_token bound to the two hashes |
| AuthService.LoginIgnoresCredentials | backend/authsvc/pkg/authservice/service.go:32 | Login's result does not depend on username and password |
| AuthProxy.Login | backend/authsvc/pkg/authservice/middleware.go:115-129 | the user-ID endpoint is called first with the credentials; a transport or reply error is returned and `next` is not called; otherwise `next` runs with the same credentials and a context carrying the resolved ID |
| AuthProxy.Logout | backend/authsvc/pkg/authservice/middleware.go:131-133 | delegates unchanged, with no remote call |
| AuthProxy.Refresh | backend/authsvc/pkg/authservice/middleware.go:135-147 | the existence check is made with the given user ID; a transport or reply error short-circuits; otherwise `next` runs with unchanged arguments |
| AuthProxy.Validate | backend/authsvc/pkg/authservice/middleware.go:149-151 | delegates unchanged, with no remote call |
| AuthProxy.RefreshIgnoresExistsFlag | backend/authsvc/pkg/authservice/middleware.go:141-146 | `next.Refresh` runs if and only if the existence reply carries no error, whatever its V says |
| AuthProxy.LoginBehindProxy | backend/authsvc/pkg/authservice/middleware.go:126-128 | with the basic service behind the proxy, the tokenizer is called with exactly the ID the user service resolved, and failures of the resolution are returned unchanged |
| InMem.Client.constructor | backend/authsvc/inmem/inmem.go:19-21 | the client starts on the given store contents |
| InMem.Client.Get | backend/authsvc/inmem/inmem.go:23-34 | a backend error is returned unchanged; otherwise no error exactly when the key is present, ErrKeyNotFound exactly when absent; the store is only read |
| InMem.Client.Put | backend/authsvc/inmem/inmem.go:36-41 | stores key→value and returns only the backend error; a failed call leaves the store as it was |
| InMem.Client.Delete | backend/authsvc/inmem/inmem.go:43-47 | removes the key (an absent key is no error) and returns only the backend error |
| InMem.PutThenGet | backend/authsvc/inmem/inmem.go:23-41 | after a successful Put, Get succeeds, and every other key keeps its presence and value |
| InMem.DeleteThenGet | backend/authsvc/inmem/inmem.go:23-47 | after a successful Delete, Get yields ErrKeyNotFound, and every other key keeps its presence and value |
| AuthMiddleware.Authenticate | backend/authsvc/pkg/authtransport/middleware.go:13-36 | checks in order: claims present (else ErrClaimsMissing), `uuid` a string (else ErrUUIDMissing), ledger lookup (its error returned); `next` is called only on success, with the original request and the context's JWT UUID set to the token's uuid |
| AuthMiddleware.RevokedTokenIsRejected | backend/authsvc/pkg/authtransport/middleware.go:26-29 | once a token's key is deleted from the ledger, a request with that token gets ErrKeyNotFound and never reaches `next` |
| AuthMiddleware.IssuedTokenIsAccepted | backend/authsvc/pkg/authtransport/middleware.go:26-33 | once a token's key is stored, a request with that token reaches `next` with the token's uuid in its context |
| AuthEndpoint.MakeLoginEndpoint | backend/authsvc/pkg/authendpoint/set.go:96-103 | never a transport error; tokens and error copied from the service |
| AuthEndpoint.MakeLogoutEndpoint | backend/authsvc/pkg/authendpoint/set.go:105-122 | no claims: ErrClaimsMissing; non-string `uuid`: ErrClaimsInvalid; the service is called exactly when neither happens, with the `uuid` claim, and its results are copied |
| AuthEndpoint.MakeRefreshEndpoint | backend/authsvc/pkg/authendpoint/set.go:124-151 | no claims: ErrClaimsMissing; a bad access_uuid, refresh_uuid or user_id: ErrClaimsInvalid, without a service call; otherwise Refresh is called with exactly those three claims |
| AuthEndpoint.MakeValidateEndpoint | backend/authsvc/pkg/authendpoint/set.go:153-160 | never a transport error; V and error copied from the service |
| AuthEndpoint.SetLogin | backend/authsvc/pkg/authendpoint/set.go:56-64 | a transport error gives a nil map and that error; a response gives its tokens and its error |
| AuthEndpoint.SetLogout | backend/authsvc/pkg/authendpoint/set.go:66-74 | sends an empty request; a transport error gives false and that error; a response gives its success flag and its error |
| AuthEndpoint.SetRefresh | backend/authsvc/pkg/authendpoint/set.go:76-84 | sends an empty request; a transport error gives a nil map and that error; a response gives its tokens and its error |
| AuthEndpoint.SetValidate | backend/authsvc/pkg/authendpoint/set.go:86-94 | a transport error gives false and that error; a response gives its V and its error |
| AuthEndpoint.SetLoginOverEndpoint | backend/authsvc/pkg/authendpoint/set.go:56-64 | the client Set over the server endpoint returns exactly the service's Login result |
| AuthEndpoint.SetValidateOverEndpoint | backend/authsvc/pkg/authendpoint/set.go:86-94 | the client Set over the server endpoint returns exactly the service's Validate result |
| AuthEndpoint.SetLogoutOverEndpoint | backend/authsvc/pkg/authendpoint/set.go:66-74 | the token revoked is the context's `uuid` claim, whatever access UUID the caller passed |
| AuthEndpoint.SetRefreshOverEndpoint | backend/authsvc/pkg/authendpoint/set.go:76-84 | Refresh runs with the claims' triple, never the caller's arguments |
| AuthHTTP.Err2Code | backend/authsvc/pkg/authtransport/http.go:205-213 | 401 exactly for the expired token, usersvc's user-not-found, authsvc's missing user ID and the ledger's key-not-found; 400 exactly for usersvc's and authsvc's invalid argument; 500 otherwise |
| AuthHTTP.ErrorDecoder | backend/authsvc/pkg/authtransport/http.go:215-233 | a JSON failure is returned; each of the four known texts gives its sentinel (if and only if); any other text a fresh error with that text |
| AuthHTTP.ErrorCrossesHTTP | backend/authsvc/pkg/authtransport/http.go:200-233 | encode then decode returns the four decodable sentinels unchanged and usersvc's invalid argument as authsvc's, keeping the status code; the expired token comes back as a fresh error with status 500 |
| AuthHTTP.LoginMissingContextIs500 | backend/authsvc/pkg/authtransport/http.go:205-213 | authservice's missing-user-ID sentinel maps to 500, authsvc's to 401, and the client decodes the former's text to the latter |
| AuthHTTP.CopyURL | backend/authsvc/pkg/authtransport/http.go:194-198 | the copy has the given path and differs from the base in nothing else |
| AuthHTTP.SanitizeInstanceAsWritten | backend/authsvc/pkg/authtransport/http.go:108-111 | "http://" is prefixed exactly when the instance does not start with "http" |
| AuthHTTP.SanitizeAsWrittenKeepsSchemelessHost | backend/authsvc/pkg/authtransport/http.go:109-111 | "httpbin.org:80" is left without a scheme |
| AuthHTTP.SanitizeInstance | backend/authsvc/pkg/authtransport/http.go:108-111 | the result always starts with "http://" or "https://"; an instance with one of those schemes is kept |
| AuthHTTP.SanitizeInstanceIdempotent | backend/authsvc/pkg/authtransport/http.go:108-111 | sanitising twice is sanitising once |
| AuthHTTP.EncodeGenericResponse | backend/authsvc/pkg/authtransport/http.go:308-315 | a response whose Failed() is non-nil goes to the error encoder, with err2code's status and the error's text, and never to the body encoder |
| AuthHTTP.DecodeHTTPResponse | backend/authsvc/pkg/authtransport/http.go:245-252 | any status other than 200 is decoded by errorDecoder; 200 gives the decoded body |
| AuthHTTP.ResponseCrossesHTTP | backend/authsvc/pkg/authtransport/http.go:245-315 | a failed response reaches the client as an error decoded from its text, never as a body; a successful one reaches it as its body |
| UserService.User | backend/usersvc/pkg/userservice/service.go:29-39 | empty username or password: ErrInvalidArgument (checked first); other than admin/password: ErrUserNotFound; admin/password: ID 1 and no error; 0 with any error |
| UserEndpoint.MakeUserIDEndpoint | backend/usersvc/pkg/userendpoint/set.go:53-59 | never a transport error; ID and error copied from the service |
| UserEndpoint.MakeIsExistsEndpoint | backend/usersvc/pkg/userendpoint/set.go:61-67 | never a transport error; V and error copied from the service |
| UserEndpoint.SetUserID | backend/usersvc/pkg/userendpoint/set.go:35-42 | a transport error gives 0 and that error; a response gives its ID and its error |
| UserEndpoint.SetIsExists | backend/usersvc/pkg/userendpoint/set.go:44-51 | a transport error gives false and that error; a response gives its V and its error |
| UserEndpoint.SetUserIDOverEndpoint | backend/usersvc/pkg/userendpoint/set.go:35-59 | the client Set over the server endpoint returns exactly the service's result |
| UserEndpoint.SetIsExistsOverEndpoint | backend/usersvc/pkg/userendpoint/set.go:44-67 | the client Set over the server endpoint returns exactly the service's result |
| UserGRPC.Str2Err | backend/usersvc/pkg/usertransport/grpc.go:136-149 | "" is no error; the invalid-argument and user-not-found texts are usersvc's sentinels (if and only if); any other text is a fresh error with that text |
| UserGRPC.ErrorCrossesGRPC | backend/usersvc/pkg/usertransport/grpc.go:136-156 | no error and usersvc's two sentinels cross unchanged; userservice's two sentinels arrive as usersvc's; every non-empty text is preserved |
| UserGRPC.EmptyTextErrorIsLost | backend/usersvc/pkg/usertransport/grpc.go:136-156 | an error whose text is empty crosses as no error |
| UserGRPC.UserIDRequestRoundTrip | backend/usersvc/pkg/usertransport/grpc.go:96-109 | name and password reach the server unchanged |
| UserGRPC.UserIDResponseRoundTrip | backend/usersvc/pkg/usertransport/grpc.go:101-114 | the ID is preserved; the error comes back as str2err of its text, so unchanged for no error and the two sentinels |
| UserGRPC.IsExistsRequestRoundTrip | backend/usersvc/pkg/usertransport/grpc.go:116-129 | the ID reaches the server unchanged |
| UserGRPC.IsExistsResponseRoundTrip | backend/usersvc/pkg/usertransport/grpc.go:121-134 | V is preserved; the error comes back as str2err of its text |
| TaskService.CreateTask | backend/tasksvc/pkg/taskservice/service.go:35-40 | the repository is called exactly when the title is non-empty and the user ID non-zero (an empty description is accepted), with the caller as owner; otherwise ErrInvalidArgument and an empty task |
| TaskService.Tasks | backend/tasksvc/pkg/taskservice/service.go:42-47 | user ID 0: ErrInvalidArgument without a repository call; otherwise FindAll for that user |
| TaskService.GetTask | backend/tasksvc/pkg/taskservice/service.go:49-54 | user ID 0 or task ID 0: ErrInvalidArgument without a repository call; otherwise Find scoped to (user, task) |
| TaskService.UpdateTask | backend/tasksvc/pkg/taskservice/service.go:56-61 | user ID 0 or task ID 0: ErrInvalidArgument without a repository call; otherwise the task record goes to Update unchanged |
| TaskService.DeleteTask | backend/tasksvc/pkg/taskservice/service.go:63-68 | user ID 0 or task ID 0: ErrInvalidArgument and false without a repository call; otherwise Delete scoped to (user, task) |
| TaskService.RepositoryScopedToCaller | backend/tasksvc/pkg/taskservice/service.go:35-68 | create, list, get and delete reach the repository only for the calling, non-zero user; update acts for the owner in the record |
| TaskService.AccessUUIDIgnored | backend/tasksvc/pkg/taskservice/service.go:35-68 | no operation depends on the access UUID |
| TaskProxy.Validate | backend/tasksvc/pkg/taskservice/middleware.go:211-235 | the token check comes first, with the access UUID; its failure skips the user check, made with the user ID; transport and reply errors are returned unchanged; no error exactly when both replies carry none, V never consulted |
| TaskProxy.CreateTask | backend/tasksvc/pkg/taskservice/middleware.go:166-173 | a failed check gives an empty task and its error with no call to `next`; otherwise `next` runs with unchanged arguments and its result is returned |
| TaskProxy.Tasks | backend/tasksvc/pkg/taskservice/middleware.go:175-182 | a failed check gives an empty list and its error; otherwise `next`'s result |
| TaskProxy.GetTask | backend/tasksvc/pkg/taskservice/middleware.go:184-191 | a failed check gives an empty task and its error; otherwise `next`'s result |
| TaskProxy.UpdateTask | backend/tasksvc/pkg/taskservice/middleware.go:193-200 | a failed check gives an empty task and its error; otherwise `next`'s result |
| TaskProxy.DeleteTask | backend/tasksvc/pkg/taskservice/middleware.go:202-209 | a failed check gives false and its error; otherwise `next`'s result |
| TaskProxy.GuardedNextOnlyAfterChecks | backend/tasksvc/pkg/taskservice/middleware.go:166-235 | for any wrapped call placed behind the two checks: it is made iff both checks answered without error, and only as the last call; a failed token check is the only call made |
| TaskProxy.NextRunsOnlyAfterBothChecks | backend/tasksvc/pkg/taskservice/middleware.go:166-235 | for each of CreateTask, Tasks, Task, UpdateTask and DeleteTask, the wrapped operation runs iff both checks answered without error, and only as the last call; a failed token check is the only call made |
| TaskEndpoint.ClaimsAuth | backend/tasksvc/pkg/taskendpoint/set.go:190-207 | no claims, a non-string `uuid` or a `user_id` that is not a uint64 all give ErrClaimsMissing; otherwise Auth is exactly (uuid, user_id) of the claims |
| TaskEndpoint.MakeCreateTaskEndpoint | backend/tasksvc/pkg/taskendpoint/set.go:115-126 | never a transport error; a claims failure is only the response's error; otherwise the service result for the claimed caller |
| TaskEndpoint.MakeTasksEndpoint | backend/tasksvc/pkg/taskendpoint/set.go:128-139 | as for CreateTask, with an empty list on a claims failure |
| TaskEndpoint.MakeTaskEndpoint | backend/tasksvc/pkg/taskendpoint/set.go:141-152 | as for CreateTask, with the request's task ID |
| TaskEndpoint.MakeUpdateTaskEndpoint | backend/tasksvc/pkg/taskendpoint/set.go:154-175 | the task passed to the service has the request's ID, title, description and done, and the claimed caller as owner |
| TaskEndpoint.MakeDeleteTaskEndpoint | backend/tasksvc/pkg/taskendpoint/set.go:177-188 | as for CreateTask, with false on a claims failure |
| TaskEndpoint.SetCreateTask | backend/tasksvc/pkg/taskendpoint/set.go:62-69 | the request holds title and description only; a transport error gives an empty task and that error; a response gives its task and its error |
| TaskEndpoint.SetTasks | backend/tasksvc/pkg/taskendpoint/set.go:71-78 | a transport error gives an empty list and that error; a response gives its tasks and its error |
| TaskEndpoint.SetTask | backend/tasksvc/pkg/taskendpoint/set.go:80-87 | a transport error gives an empty task and that error; a response gives its task and its error |
| TaskEndpoint.UpdateRequestOf | backend/tasksvc/pkg/taskendpoint/set.go:92-97 | the update request carries the task's ID, title, description and done |
| TaskEndpoint.SetUpdateTask | backend/tasksvc/pkg/taskendpoint/set.go:89-104 | a transport error gives an empty task and that error; a response gives its task and its error |
| TaskEndpoint.SetDeleteTask | backend/tasksvc/pkg/taskendpoint/set.go:106-113 | a transport error gives false and that error; a response gives its result and its error |
| TaskEndpoint.SetCreateTaskOverEndpoint | backend/tasksvc/pkg/taskendpoint/set.go:62-126 | through Set and the server endpoint, CreateTask runs for the claimed caller with the client's title and description; without valid claims, ErrClaimsMissing and an empty task |
| TaskEndpoint.SetTasksOverEndpoint | backend/tasksvc/pkg/taskendpoint/set.go:71-139 | through Set and the server endpoint, the list is the claimed caller's; without valid claims, ErrClaimsMissing and an empty list |
| TaskEndpoint.SetTaskOverEndpoint | backend/tasksvc/pkg/taskendpoint/set.go:80-152 | through Set and the server endpoint, the lookup is for the claimed caller with the client's task ID; without valid claims, ErrClaimsMissing and an empty task |
| TaskEndpoint.SetDeleteTaskOverEndpoint | backend/tasksvc/pkg/taskendpoint/set.go:106-188 | through Set and the server endpoint, the delete acts for the claimed caller with the client's task ID; without valid claims, ErrClaimsMissing and false |
| TaskEndpoint.SetIgnoresAuth | backend/tasksvc/pkg/taskendpoint/set.go:62-113 | every client Set method gives the same result for any two Auth arguments |
| TaskEndpoint.UpdateOwnerFromClaims | backend/tasksvc/pkg/taskendpoint/set.go:154-175 | an update sent through Set reaches the service with its owner replaced by the claimed user ID; without valid claims, ErrClaimsMissing |
| TaskEndpoint.UpdateReachesRepositoryAsCaller | backend/tasksvc/pkg/taskendpoint/set.go:165-171 | through endpoint and service, the repository's Update receives the record owned by the claimed caller |
| TaskGRPC.Str2Err | backend/tasksvc/pkg/tasktransport/grpc.go:482-493 | "" is no error; exactly the invalid-argument text is tasksvc's sentinel; any other text a fresh error with that text |
| TaskGRPC.ErrorCrossesGRPC | backend/tasksvc/pkg/tasktransport/grpc.go:482-500 | no error and tasksvc's invalid argument cross unchanged; any invalid argument arrives as tasksvc's; every other non-empty text as a fresh error |
| TaskGRPC.TaskPbRoundTrip | backend/tasksvc/pkg/tasktransport/grpc.go:280-314 | a task converted to protobuf and back keeps all five fields |
| TaskGRPC.CreateTaskRequestRoundTrip | backend/tasksvc/pkg/tasktransport/grpc.go:272-300 | title and description are preserved; the message's user ID is left 0 |
| TaskGRPC.CreateTaskResponseRoundTrip | backend/tasksvc/pkg/tasktransport/grpc.go:280-314 | all five task fields are preserved; the error comes back as str2err of its text |
| TaskGRPC.EncodeTasksResponse | backend/tasksvc/pkg/tasktransport/grpc.go:320-338 | one protobuf task per task, same length and order |
| TaskGRPC.DecodeTasksResponse | backend/tasksvc/pkg/tasktransport/grpc.go:344-362 | one task per protobuf task, same length and order |
| TaskGRPC.TasksResponseRoundTrip | backend/tasksvc/pkg/tasktransport/grpc.go:320-362 | the list comes back with its length, order and every field; the error as str2err of its text |
| TaskGRPC.TaskRequestRoundTrip | backend/tasksvc/pkg/tasktransport/grpc.go:364-390 | the task ID is preserved |
| TaskGRPC.TaskResponseRoundTrip | backend/tasksvc/pkg/tasktransport/grpc.go:371-404 | all five task fields are preserved; the error as str2err of its text |
| TaskGRPC.UpdateTaskRequestRoundTrip | backend/tasksvc/pkg/tasktransport/grpc.go:406-437 | task ID, title, description and done are preserved |
| TaskGRPC.UpdateTaskResponseDropsOwner | backend/tasksvc/pkg/tasktransport/grpc.go:416-450 | the decoded task always has owner 0; the reply survives unchanged exactly when its owner was 0 and its error survives str2err |
| TaskGRPC.DeleteTaskRequestRoundTrip | backend/tasksvc/pkg/tasktransport/grpc.go:452-472 | the task ID is preserved |
| TaskGRPC.DeleteTaskResponseRoundTrip | backend/tasksvc/pkg/tasktransport/grpc.go:459-480 | the result is preserved; the error as str2err of its text |
| TaskHTTP.Err2Code | backend/tasksvc/pkg/tasktransport/http.go:141-149 | 401 exactly for the expired token, usersvc's user-not-found and authsvc's missing user ID; 400 exactly for the three invalid arguments; 500 otherwise, ErrClaimsMissing included |
| TaskHTTP.StatusTablesDiffer | backend/tasksvc/pkg/tasktransport/http.go:141-149 | the task and auth status tables differ exactly on the ledger's key-not-found and tasksvc's invalid argument |
| TaskHTTP.GatewayStatusOfServiceError | backend/apigateway/main.go:65-69 | an error from the task service reaches err2code after crossing gRPC: 400 exactly when its text is "invalid argument", 500 otherwise, never 401 |
| TaskHTTP.ParseUint | backend/tasksvc/pkg/tasktransport/http.go:163 | a value exactly for a non-empty all-digit string below 2^64, and that value is the string's decimal value |
| TaskHTTP.FormatUintValue | backend/tasksvc/pkg/tasktransport/http.go:163 | the decimal value of a number's decimal text is the number |
| TaskHTTP.ParseFormatRoundTrip | backend/tasksvc/pkg/tasktransport/http.go:163-170 | every uint64 parses back from its decimal text; the text of 2^64 is refused |
| TaskHTTP.ParseUintRejects | backend/tasksvc/pkg/tasktransport/http.go:163-166 | the empty string and any string with a non-digit are refused |
| TaskHTTP.DecodeTaskRequest | backend/tasksvc/pkg/tasktransport/http.go:161-171 | ErrBadRouting exactly when task_id is missing or not a uint64; otherwise the request carries the parsed ID |
| TaskHTTP.DecodeUpdateTaskRequest | backend/tasksvc/pkg/tasktransport/http.go:173-190 | the path is checked first (ErrBadRouting); a body that does not decode gives ErrInvalidArgument; otherwise the body's fields with the path's task ID |
| TaskHTTP.DecodeDeleteTaskRequest | backend/tasksvc/pkg/tasktransport/http.go:192-202 | ErrBadRouting exactly when task_id is missing or not a uint64; otherwise the request carries the parsed ID |
| TaskHTTP.PathCarriesTaskID | backend/tasksvc/pkg/tasktransport/http.go:161-202 | a path written from a task ID decodes to that ID in all three decoders, overriding any ID in the body |

## Left out

- `AuthMiddleware.Authenticate` is modelled as the middleware authtransport/middleware.go:13-36 defines. `NewHTTPHandler` (authtransport/http.go:34) takes the ledger client but installs no middleware with it, so the model does not claim that the auth HTTP routes check the ledger.
- Logging and instrumenting decorators (authservice/middleware.go:16-107, taskservice/middleware.go:17-152, and the endpoint wrappers installed by the two endpoint sets' `New`): they return `next`'s results unchanged and only write log lines and metrics, which are I/O.
- Token-store rotation in Logout, Refresh and Validate: its implementation is not part of this model. authservice's `Service` shown declares only Login, and `New` does not take the store.
- JWT signing and verification, UUID v4/v5 generation, `time.Now` and `os.Getenv`: these are foreign calls and are parameters (`Tokenizer.Env`, the minted UUID, two clock readings).
- JSON and protobuf encoding: protobuf messages are plain records. JSON decoding of request and response bodies is an input (`Result<...>`) of the decoders that use it.
- The `"%.f"` formatting of a `user_id` claim before `ParseUint` is floating point. A claim is modelled as an integer in range (valid) or anything else (invalid). Fractional numbers, and numbers above 2^53 that a float64 cannot hold exactly, are not modelled.
- Service discovery, Consul wiring, rate limiters, circuit breakers, go-kit server and client construction, routes, `NewGRPCServer`/`NewGRPCClient` and the rest of `NewHTTPClient`: these are library behaviour and networking. `url.Parse` is not modelled; `AuthHTTP.URL` keeps only the fields `copyURL` touches.
- encodeHTTPGenericResponse in tasktransport/http.go:208-215 is the auth transport's routing with the task status table. Only the auth one is modelled (`AuthHTTP.EncodeGenericResponse`).
- `Kit.Err`: two errors made at run time with the same text are equal in the model but distinct in Go. No modelled operation compares two such errors.
- `InMem.Client.Get`, `InMem.Client.Put`, `InMem.Client.Delete`: a Consul failure is an argument, and a failed call is taken to leave the store unchanged; what Consul does to a key on a failed call is not modelled.
- Nil versus empty: a nil slice or map is the empty sequence or `None`. The difference between a nil and an empty task list is not modelled.
- `AuthService.Login` reads `UserIDContextKey` from authservice. That declaration is not part of this model; it is taken to be authsvc's `UserIDContextKey`, the key the proxy writes.
- userservice/service.go declares only `User`, while userendpoint/set.go calls `UserID` and `IsExists`. `UserEndpoint` is therefore modelled over abstract service functions, and `UserService.User` stands alone.
- The pointer fields of the protobuf replies (`Task *Task`) are always set by the encoders here; a nil task in a reply is not modelled.

## Findings

| source | as written | input that shows it | evidently intended | confidence | as-written member | corrected member |
|---|---|---|---|---|---|---|
| backend/authsvc/pkg/authtransport/http.go:109-111 | `NewHTTPClient` adds "http://" only when the instance does not start with "http" | instance "httpbin.org:80" (any host whose name starts with "http") stays without a scheme | add "http://" unless the instance already starts with "http://" or "https://" | medium; not executed | AuthHTTP.SanitizeAsWrittenKeepsSchemelessHost | AuthHTTP.SanitizeInstance |
