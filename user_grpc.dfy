/**
 * gRPC mapping of the user service (usertransport/grpc.go): protobuf messages
 * as plain records, errors carried as their text.
 */
module UserGRPC {
  import opened Kit
  import opened UserEndpoint

  datatype PbUserIDRequest = PbUserIDRequest(name: string, password: string)
  datatype PbUserIDReply = PbUserIDReply(id: Uint64, err: string)
  datatype PbIsExistsRequest = PbIsExistsRequest(id: Uint64)
  datatype PbIsExistsReply = PbIsExistsReply(v: bool, err: string)

  /** `err2str`: a nil error is the empty string, any other error its text. */
  function Err2Str(e: Option<Err>): string {
    if e.None? then "" else Message(e.value)
  }

  /** `str2err`: the client's view of an error text. */
  function Str2Err(s: string): (r: Option<Err>)
    ensures r.None? <==> s == ""
    ensures r.Some? ==> Message(r.value) == s
    ensures r == Some(UserSvcInvalidArgument) <==> s == InvalidArgumentText
    ensures r == Some(UserSvcUserNotFound) <==> s == UserNotFoundText
    ensures s !in {"", InvalidArgumentText, UserNotFoundText} ==> r == Some(Fresh(s))
  {
    if s == "" then None
    else if s == InvalidArgumentText then Some(UserSvcInvalidArgument)
    else if s == UserNotFoundText then Some(UserSvcUserNotFound)
    else Some(Fresh(s))
  }

  /**
   * Carrying an error across gRPC keeps its text and turns every error with an
   * "invalid argument" or "user not found" text into the usersvc sentinel, so
   * userservice's own sentinels arrive as usersvc's; no error and the two
   * usersvc sentinels arrive unchanged.
   */
  lemma ErrorCrossesGRPC(e: Option<Err>)
    ensures e.Some? && Message(e.value) != "" ==> Str2Err(Err2Str(e)).Some? && Message(Str2Err(Err2Str(e)).value) == Message(e.value)
    ensures e.None? || e == Some(UserSvcInvalidArgument) || e == Some(UserSvcUserNotFound) ==> Str2Err(Err2Str(e)) == e
    ensures e == Some(UserServiceInvalidArgument) ==> Str2Err(Err2Str(e)) == Some(UserSvcInvalidArgument)
    ensures e == Some(UserServiceUserNotFound) ==> Str2Err(Err2Str(e)) == Some(UserSvcUserNotFound)
  {
  }

  /** An error whose text is empty crosses gRPC as success. */
  lemma EmptyTextErrorIsLost()
    ensures Str2Err(Err2Str(Some(Fresh("")))) == None
  {
  }

  function DecodeUserIDRequest(req: PbUserIDRequest): UserIDRequest {
    UserIDRequest(req.name, req.password)
  }

  function EncodeUserIDResponse(resp: UserIDResponse): PbUserIDReply {
    PbUserIDReply(resp.id, Err2Str(resp.err))
  }

  function EncodeUserIDRequest(req: UserIDRequest): PbUserIDRequest {
    PbUserIDRequest(req.name, req.password)
  }

  function DecodeUserIDResponse(reply: PbUserIDReply): UserIDResponse {
    UserIDResponse(reply.id, Str2Err(reply.err))
  }

  function DecodeIsExistsRequest(req: PbIsExistsRequest): IsExistsRequest {
    IsExistsRequest(req.id)
  }

  function EncodeIsExistsResponse(resp: IsExistsResponse): PbIsExistsReply {
    PbIsExistsReply(resp.v, Err2Str(resp.err))
  }

  function EncodeIsExistsRequest(req: IsExistsRequest): PbIsExistsRequest {
    PbIsExistsRequest(req.id)
  }

  function DecodeIsExistsResponse(reply: PbIsExistsReply): IsExistsResponse {
    IsExistsResponse(reply.v, Str2Err(reply.err))
  }

  /** The client's request reaches the server unchanged. */
  lemma UserIDRequestRoundTrip(req: UserIDRequest)
    ensures DecodeUserIDRequest(EncodeUserIDRequest(req)) == req
  {
  }

  /** The server's reply reaches the client with its ID, and its error as `str2err` of the error's text. */
  lemma UserIDResponseRoundTrip(resp: UserIDResponse)
    ensures DecodeUserIDResponse(EncodeUserIDResponse(resp)) == UserIDResponse(resp.id, Str2Err(Err2Str(resp.err)))
    ensures resp.err.None? || resp.err == Some(UserSvcInvalidArgument) || resp.err == Some(UserSvcUserNotFound) ==>
      DecodeUserIDResponse(EncodeUserIDResponse(resp)) == resp
  {
    ErrorCrossesGRPC(resp.err);
  }

  lemma IsExistsRequestRoundTrip(req: IsExistsRequest)
    ensures DecodeIsExistsRequest(EncodeIsExistsRequest(req)) == req
  {
  }

  lemma IsExistsResponseRoundTrip(resp: IsExistsResponse)
    ensures DecodeIsExistsResponse(EncodeIsExistsResponse(resp)) == IsExistsResponse(resp.v, Str2Err(Err2Str(resp.err)))
    ensures resp.err.None? || resp.err == Some(UserSvcInvalidArgument) || resp.err == Some(UserSvcUserNotFound) ==>
      DecodeIsExistsResponse(EncodeIsExistsResponse(resp)) == resp
  {
    ErrorCrossesGRPC(resp.err);
  }
}
