/**
 * The auth service's HTTP transport (authtransport/http.go): error to status
 * code, error text back to error on the client, failure routing of responses,
 * and the client's base-URL handling.
 */
module AuthHTTP {
  import opened Kit

  const StatusOK := 200
  const StatusBadRequest := 400
  const StatusUnauthorized := 401
  const StatusInternalServerError := 500

  /** `err2code`. */
  function Err2Code(e: Err): (code: int)
    ensures code == StatusUnauthorized <==>
      e in {TokenExpired, UserSvcUserNotFound, AuthSvcUserIDContextMissing, KeyNotFound}
    ensures code == StatusBadRequest <==> e in {UserSvcInvalidArgument, AuthSvcInvalidArgument}
    ensures code in {StatusBadRequest, StatusUnauthorized, StatusInternalServerError}
  {
    match e
    case TokenExpired | UserSvcUserNotFound | AuthSvcUserIDContextMissing | KeyNotFound => StatusUnauthorized
    case UserSvcInvalidArgument | AuthSvcInvalidArgument => StatusBadRequest
    case _ => StatusInternalServerError
  }

  /**
   * `errorDecoder`: `body` is the JSON-decoded `error` field of the reply, or
   * the JSON decoding error. Four texts map back to sentinels; any other text
   * becomes a fresh error with that text.
   */
  function ErrorDecoder(body: Result<string>): (r: Err)
    ensures body.Fail? ==> r == body.err
    ensures body.Ok? ==> Message(r) == body.value
    ensures body.Ok? ==> (r == AuthSvcInvalidArgument <==> body.value == InvalidArgumentText)
    ensures body.Ok? ==> (r == UserSvcUserNotFound <==> body.value == UserNotFoundText)
    ensures body.Ok? ==> (r == AuthSvcUserIDContextMissing <==> body.value == UserIDContextMissingText)
    ensures body.Ok? ==> (r == KeyNotFound <==> body.value == KeyNotFoundText)
    ensures body.Ok? && body.value !in {InvalidArgumentText, UserNotFoundText, UserIDContextMissingText, KeyNotFoundText} ==>
      r == Fresh(body.value)
  {
    match body
    case Fail(e) => e
    case Ok(text) =>
      if text == InvalidArgumentText then AuthSvcInvalidArgument
      else if text == UserNotFoundText then UserSvcUserNotFound
      else if text == UserIDContextMissingText then AuthSvcUserIDContextMissing
      else if text == KeyNotFoundText then KeyNotFound
      else Fresh(text)
  }

  /**
   * Sending an error through `errorEncoder` and back through `errorDecoder`:
   * the four decodable sentinels come back as themselves, usersvc's invalid
   * argument comes back as authsvc's, and all six keep their status code; the
   * expired-token error comes back as a fresh error, which is a 500.
   */
  lemma ErrorCrossesHTTP(e: Err)
    ensures e in {AuthSvcInvalidArgument, UserSvcUserNotFound, AuthSvcUserIDContextMissing, KeyNotFound} ==>
      ErrorDecoder(Ok(Message(e))) == e
    ensures e == UserSvcInvalidArgument ==> ErrorDecoder(Ok(Message(e))) == AuthSvcInvalidArgument
    ensures e in {AuthSvcInvalidArgument, UserSvcUserNotFound, AuthSvcUserIDContextMissing, KeyNotFound, UserSvcInvalidArgument} ==>
      Err2Code(ErrorDecoder(Ok(Message(e)))) == Err2Code(e)
    ensures e == TokenExpired ==>
      ErrorDecoder(Ok(Message(e))) == Fresh(TokenExpiredText) && Err2Code(ErrorDecoder(Ok(Message(e)))) == StatusInternalServerError
  {
  }

  /**
   * authservice's own missing-user-ID sentinel is not authsvc's: a Login that
   * finds no user ID in its context is answered 500, not 401, and the client
   * decodes it to authsvc's sentinel, which it would map to 401.
   */
  lemma LoginMissingContextIs500()
    ensures Err2Code(AuthServiceUserIDContextMissing) == StatusInternalServerError
    ensures Err2Code(AuthSvcUserIDContextMissing) == StatusUnauthorized
    ensures ErrorDecoder(Ok(Message(AuthServiceUserIDContextMissing))) == AuthSvcUserIDContextMissing
  {
  }

  /** The parts of a `url.URL` the client uses. */
  datatype URL = URL(scheme: string, host: string, path: string, rawQuery: string, fragment: string)

  /** `copyURL`: a copy of `base` that differs from it in the path only; `base` is a value and stays as it was. */
  function CopyURL(base: URL, path: string): (r: URL)
    ensures r.path == path
    ensures r.scheme == base.scheme && r.host == base.host && r.rawQuery == base.rawQuery && r.fragment == base.fragment
    ensures r.(path := base.path) == base
  {
    base.(path := path)
  }

  predicate HasPrefix(s: string, prefix: string) {
    |prefix| <= |s| && s[..|prefix|] == prefix
  }

  /**
   * The sanitising step of `NewHTTPClient`, as written: "http://" is put in
   * front of an instance that does not start with "http".
   */
  function SanitizeInstanceAsWritten(instance: string): (r: string)
    ensures HasPrefix(instance, "http") ==> r == instance
    ensures !HasPrefix(instance, "http") ==> r == "http://" + instance
    ensures HasPrefix(r, "http")
  {
    if HasPrefix(instance, "http") then instance else "http://" + instance
  }

  /** A host whose name starts with "http" is left without a scheme. */
  lemma SanitizeAsWrittenKeepsSchemelessHost()
    ensures var r := SanitizeInstanceAsWritten("httpbin.org:80");
            r == "httpbin.org:80" && !HasPrefix(r, "http://") && !HasPrefix(r, "https://")
  {
    assert "httpbin.org:80"[..4] == "http";
    assert "httpbin.org:80"[..7] != "http://" by {
      assert "httpbin.org:80"[4] != "http://"[4];
    }
    assert "httpbin.org:80"[..8] != "https://" by {
      assert "httpbin.org:80"[4] != "https://"[4];
    }
  }

  /** The sanitising step with the scheme checked in full. */
  function SanitizeInstance(instance: string): (r: string)
    ensures HasPrefix(r, "http://") || HasPrefix(r, "https://")
    ensures HasPrefix(instance, "http://") || HasPrefix(instance, "https://") ==> r == instance
    ensures !(HasPrefix(instance, "http://") || HasPrefix(instance, "https://")) ==> r == "http://" + instance
  {
    if HasPrefix(instance, "http://") || HasPrefix(instance, "https://") then instance
    else
      var r := "http://" + instance;
      assert r[..7] == "http://";
      r
  }

  /** Sanitising twice is sanitising once, and an instance with a scheme is left alone. */
  lemma SanitizeInstanceIdempotent(instance: string)
    ensures SanitizeInstance(SanitizeInstance(instance)) == SanitizeInstance(instance)
  {
  }

  /** What the server writes for a response: an error reply with a status code, or the JSON body with 200. */
  datatype HTTPReply<R> = ErrorReply(status: int, error: string) | BodyReply(value: R)
  {
    function Status(): int {
      if ErrorReply? then status else StatusOK
    }
  }

  /**
   * `encodeHTTPGenericResponse`: `failed` is the response's `Failed()`. A
   * failed response goes to `errorEncoder`, never to the body encoder.
   */
  function EncodeGenericResponse<R>(response: R, failed: Option<Err>): (r: HTTPReply<R>)
    ensures r.ErrorReply? <==> failed.Some?
    ensures failed.Some? ==> r.Status() == Err2Code(failed.value) && r.error == Message(failed.value)
    ensures failed.None? ==> r.Status() == StatusOK && r.value == response
  {
    match failed
    case Some(e) => ErrorReply(Err2Code(e), Message(e))
    case None => BodyReply(response)
  }

  /**
   * `decodeHTTP*Response` on the client: any status other than 200 is decoded
   * as an error reply; otherwise the body is the response. `errorBody` and
   * `body` are the JSON decodings of the reply body.
   */
  function DecodeHTTPResponse<R>(status: int, errorBody: Result<string>, body: Result<R>): (r: Result<R>)
    ensures status != StatusOK ==> r == Fail(ErrorDecoder(errorBody))
    ensures status == StatusOK ==> r == body
  {
    if status != StatusOK then Fail(ErrorDecoder(errorBody)) else body
  }

  /**
   * A failed server response always reaches the client as an error (its status
   * is never 200), decoded from the error's text; a successful one reaches it
   * as its body.
   */
  lemma ResponseCrossesHTTP<R>(response: R, failed: Option<Err>, otherBody: Result<R>)
    ensures var w := EncodeGenericResponse(response, failed);
            && (failed.Some? ==>
                  && w.Status() != StatusOK
                  && DecodeHTTPResponse(w.Status(), Ok(w.error), otherBody) == Fail(ErrorDecoder(Ok(Message(failed.value)))))
            && (failed.None? ==> DecodeHTTPResponse(w.Status(), Fail(Fresh("")), Ok(w.value)) == Ok(response))
  {
  }
}
