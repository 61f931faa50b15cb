/**
 * The Authenticator of auth/autheticator.go: the same token cache as token.go, held by
 * an object that also keeps the last token it wrote. The POST is an outcome parameter
 * that yields the status and the unread body; JSON decoding is a parameter; the three
 * clock readings are parameters. The response body is modelled together with whether
 * it has been closed, because sendAuthRequest closes it before parseAuthResponse reads it.
 */
module Auth {
  import opened Wrappers
  import opened Http
  import opened TokenCache

  const ServiceURLKey: string := "MY_API_URL"

  /** The decoded response; the optional fields are Go pointers, absent when the JSON omits them. */
  datatype AuthResponse = AuthResponse(code: int, expiresIn: Option<int>, accessToken: Option<string>, result: Option<string>)

  /** What the POST gave: a transport error, or a status and the body still to be read. */
  datatype AuthReply = PostFailed | Replied(status: int, body: Bytes)

  /** The *http.Response handed to parseAuthResponse: status, body, and whether Body.Close has run. */
  datatype Response = Response(status: int, body: Bytes, closed: bool)

  datatype AuthError =
    | BadTokenFile                     // readToken failed
    | RequestFailed                    // the POST itself failed
    | UnexpectedStatus(status: int)    // any status other than 200
    | ReadFailed                       // io.ReadAll on the body failed
    | BadResponse                      // the body is not a JSON AuthResponse
    | Rejected(result: string)         // Code != 0

  /**
   * sendAuthRequest as written: only a 200 reply is passed on, and the deferred
   * response.Body.Close() has run by the time the caller gets it.
   */
  function SendAuthRequest(reply: AuthReply): (r: Result<Response, AuthError>)
    ensures r.Success? <==> reply.Replied? && reply.status == 200
    ensures r.Success? ==> r.value == Response(200, reply.body, true)
    ensures reply.PostFailed? ==> r == Failure(RequestFailed)
    ensures reply.Replied? && reply.status != 200 ==> r == Failure(UnexpectedStatus(reply.status))
  {
    match reply
    case PostFailed => Failure(RequestFailed)
    case Replied(status, body) =>
      if status != 200 then Failure(UnexpectedStatus(status)) else Success(Response(status, body, true))
  }

  /** sendAuthRequest with the Close left to the caller, after the body is parsed: the same checks, an open body. */
  function SendAuthRequestCorrected(reply: AuthReply): (r: Result<Response, AuthError>)
    ensures r.Success? <==> SendAuthRequest(reply).Success?
    ensures r.Success? ==> r.value == Response(200, reply.body, false)
    ensures r.Failure? ==> r == SendAuthRequest(reply)
  {
    match reply
    case PostFailed => Failure(RequestFailed)
    case Replied(status, body) =>
      if status != 200 then Failure(UnexpectedStatus(status)) else Success(Response(status, body, false))
  }

  /** io.ReadAll(response.Body): a closed body gives a read error, an open one its bytes. */
  function ReadBody(response: Response): (r: Result<Bytes, AuthError>)
    ensures r.Success? <==> !response.closed
    ensures r.Success? ==> r.value == response.body
    ensures r.Failure? ==> r.error == ReadFailed
  {
    if response.closed then Failure(ReadFailed) else Success(response.body)
  }

  /** parseAuthResponse's three ends as written: the response, an error, or a nil-pointer panic. */
  datatype Parsed = Parsed(response: AuthResponse) | ParseFailed(error: AuthError) | NilResultPanic

  /**
   * parseAuthResponse as written: read the body, decode it, and on a non-zero Code
   * build the error message from *Result, which panics when there is no "result" field.
   */
  function ParseAuthResponseAsWritten(response: Response, decode: Bytes -> Option<AuthResponse>): (r: Parsed)
    ensures response.closed ==> r == ParseFailed(ReadFailed)
    ensures r.Parsed? <==>
      !response.closed && decode(response.body).Some? && decode(response.body).value.code == 0
    ensures r.Parsed? ==> r.response == decode(response.body).value
    ensures r == NilResultPanic <==>
      && !response.closed && decode(response.body).Some?
      && decode(response.body).value.code != 0 && decode(response.body).value.result.None?
  {
    match ReadBody(response)
    case Failure(e) => ParseFailed(e)
    case Success(body) =>
      match decode(body)
      case None => ParseFailed(BadResponse)
      case Some(resp) =>
        if resp.code == 0 then Parsed(resp)
        else if resp.result.None? then NilResultPanic
        else ParseFailed(Rejected(resp.result.value))
  }

  /** parseAuthResponse as evidently intended: a rejection is an error whether or not it has a result text. */
  function ParseAuthResponse(response: Response, decode: Bytes -> Option<AuthResponse>): (r: Result<AuthResponse, AuthError>)
    ensures response.closed ==> r == Failure(ReadFailed)
    ensures r.Success? <==>
      !response.closed && decode(response.body).Some? && decode(response.body).value.code == 0
    ensures r.Success? ==> r.value == decode(response.body).value
    ensures !response.closed && decode(response.body).Some? && decode(response.body).value.code != 0 ==>
      r == Failure(Rejected(decode(response.body).value.result.GetOr("")))
  {
    match ReadBody(response)
    case Failure(e) => Failure(e)
    case Success(body) =>
      match decode(body)
      case None => Failure(BadResponse)
      case Some(resp) =>
        if resp.code == 0 then Success(resp)
        else Failure(Rejected(resp.result.GetOr("")))
  }

  /** As written, no reply ever gets through both steps: a 200 reply's body is already closed. */
  lemma ClosedBodyNeverParses(reply: AuthReply, decode: Bytes -> Option<AuthResponse>)
    ensures SendAuthRequest(reply).Success? ==>
      ParseAuthResponseAsWritten(SendAuthRequest(reply).value, decode) == ParseFailed(ReadFailed)
    ensures !(SendAuthRequest(reply).Success? && ParseAuthResponseAsWritten(SendAuthRequest(reply).value, decode).Parsed?)
  {
  }

  /** The bytes of the body {"code":0,"accessToken":"n"}: the service grants token "n". */
  const GrantBody: Bytes := [0x7B, 0x22, 0x63, 0x6F, 0x64, 0x65, 0x22, 0x3A, 0x30, 0x2C, 0x22, 0x61, 0x63, 0x63,
                             0x65, 0x73, 0x73, 0x54, 0x6F, 0x6B, 0x65, 0x6E, 0x22, 0x3A, 0x22, 0x6E, 0x22, 0x7D]

  /** The bytes of the body {"code":1}: a rejection without a "result" field. */
  const RejectBody: Bytes := [0x7B, 0x22, 0x63, 0x6F, 0x64, 0x65, 0x22, 0x3A, 0x31, 0x7D]

  /** The concrete input: a 200 reply granting token "n" is lost as written and read once the Close is moved. */
  lemma ClosedBodyExample()
    ensures var reply := Replied(200, GrantBody);
      var decode := (b: Bytes) => if b == GrantBody then Some(AuthResponse(0, None, Some("n"), None)) else None;
      && ParseAuthResponseAsWritten(SendAuthRequest(reply).value, decode) == ParseFailed(ReadFailed)
      && ParseAuthResponse(SendAuthRequestCorrected(reply).value, decode) == Success(AuthResponse(0, None, Some("n"), None))
  {
  }

  /** With the body read before it is closed, a 200 reply is parsed exactly when it decodes with code 0. */
  lemma CorrectedReadsBody(reply: AuthReply, decode: Bytes -> Option<AuthResponse>)
    requires reply.Replied? && reply.status == 200
    ensures SendAuthRequestCorrected(reply).Success?
    ensures ParseAuthResponse(SendAuthRequestCorrected(reply).value, decode).Success? <==>
      decode(reply.body).Some? && decode(reply.body).value.code == 0
  {
  }

  /**
   * The concrete input that shows the panic once the body can be read: a rejection
   * without a "result" field.
   */
  lemma NilResultExample()
    ensures var decode := (b: Bytes) => if b == RejectBody then Some(AuthResponse(1, None, None, None)) else None;
      ParseAuthResponseAsWritten(Response(200, RejectBody, false), decode) == NilResultPanic
  {
  }

  /** The corrected parser agrees with the code as written wherever that does not panic. */
  lemma ParseAuthResponseAgrees(response: Response, decode: Bytes -> Option<AuthResponse>)
    ensures ParseAuthResponseAsWritten(response, decode) != NilResultPanic ==>
      match ParseAuthResponseAsWritten(response, decode)
      case Parsed(resp) => ParseAuthResponse(response, decode) == Success(resp)
      case ParseFailed(e) => ParseAuthResponse(response, decode) == Failure(e)
      case NilResultPanic => false
  {
  }

  class Authenticator {
    var accessToken: string
    const appID: string
    const loginKey: string
    const serviceURL: string
    /** The process environment, shared with everything else that reads it. */
    const env: Environment

    /** InitAuthenticator: every field read from the environment. */
    constructor (env: Environment)
      ensures accessToken == Getenv(env.vars, AccessTokenKey)
      ensures appID == Getenv(env.vars, AppIdKey) && loginKey == Getenv(env.vars, LoginKeyKey)
      ensures serviceURL == Getenv(env.vars, ServiceURLKey)
      ensures this.env == env
    {
      accessToken := Getenv(env.vars, AccessTokenKey);
      appID := Getenv(env.vars, AppIdKey);
      loginKey := Getenv(env.vars, LoginKeyKey);
      serviceURL := Getenv(env.vars, ServiceURLKey);
      this.env := env;
    }

    /** writeToken: the object keeps the token, and the environment caches it with the second of `now`. */
    method WriteToken(token: string, now: int)
      modifies this`accessToken, env
      ensures accessToken == token
      ensures env.vars == WithToken(old(env.vars), token, Unix(now))
      ensures env.dotenv == TokenFile(token, Unix(now))
    {
      accessToken := token;
      env.WriteToken(token, Unix(now));
    }

    /**
     * GetAccessToken as written. `checkNow` is the freshness check's instant and
     * `requestNow` the one createRequest signs with; `sent` is the URL and request
     * posted, if any. Only the cached token is ever returned: once a request is sent
     * the call fails, because parseAuthResponse reads a body sendAuthRequest has
     * closed. The method has no modifies clause, so neither the object nor the
     * environment changes.
     */
    method GetAccessToken(checkNow: int, requestNow: int, post: (string, AuthRequest) -> AuthReply,
                          decode: Bytes -> Option<AuthResponse>, md5Hex: string -> string)
      returns (r: Result<string, AuthError>, sent: Option<(string, AuthRequest)>)
      ensures ReadToken(env.vars).Failure? ==> r == Failure(BadTokenFile) && sent.None?
      ensures var cached := ReadToken(env.vars);
        cached.Success? && Fresh(cached.value.0, cached.value.1, checkNow) ==>
          r == Success(cached.value.0) && sent.None?
      ensures var cached := ReadToken(env.vars);
        cached.Success? && !Fresh(cached.value.0, cached.value.1, checkNow) ==>
          && sent == Some((serviceURL, NewAuthRequest(appID, loginKey, requestNow, md5Hex)))
          && var reply := post(sent.value.0, sent.value.1);
             r == Failure(if reply.Replied? && reply.status == 200 then ReadFailed else SendAuthRequest(reply).error)
      ensures r.Success? ==> sent.None? && r.value == ReadToken(env.vars).value.0
    {
      var cached := ReadToken(env.vars);
      if cached.Failure? {
        return Failure(BadTokenFile), None;
      }
      var (token, createdAt) := cached.value;
      if Fresh(token, createdAt, checkNow) {
        return Success(token), None;
      }
      var request := NewAuthRequest(appID, loginKey, requestNow, md5Hex);
      sent := Some((serviceURL, request));
      var response := SendAuthRequest(post(serviceURL, request));
      if response.Failure? {
        return Failure(response.error), sent;
      }
      // The body was closed on the way out of sendAuthRequest, so parsing stops at the
      // read; the token write that follows in the source is never reached.
      var parsed := ParseAuthResponseAsWritten(response.value, decode);
      r := Failure(parsed.error);
    }

    /**
     * GetAccessToken with the body closed only after it is parsed, and with the parser
     * that does not dereference a missing result. `writeNow` is the instant the new
     * token is written with. A successful response without an access token leaves
     * everything as it was and returns the token the object already held.
     */
    method GetAccessTokenCorrected(checkNow: int, requestNow: int, writeNow: int, post: (string, AuthRequest) -> AuthReply,
                                   decode: Bytes -> Option<AuthResponse>, md5Hex: string -> string)
      returns (r: Result<string, AuthError>, sent: Option<(string, AuthRequest)>)
      modifies this`accessToken, env
      ensures ReadToken(old(env.vars)).Failure? ==>
        r == Failure(BadTokenFile) && sent.None? && unchanged(this) && unchanged(env)
      ensures var cached := ReadToken(old(env.vars));
        cached.Success? && Fresh(cached.value.0, cached.value.1, checkNow) ==>
          r == Success(cached.value.0) && sent.None? && unchanged(this) && unchanged(env)
      ensures var cached := ReadToken(old(env.vars));
        cached.Success? && !Fresh(cached.value.0, cached.value.1, checkNow) ==>
          && sent == Some((serviceURL, NewAuthRequest(appID, loginKey, requestNow, md5Hex)))
          && var replied := SendAuthRequestCorrected(post(sent.value.0, sent.value.1));
             var response := if replied.Success? then ParseAuthResponse(replied.value, decode) else Failure(replied.error);
             && (response.Failure? ==> r == Failure(response.error) && unchanged(this) && unchanged(env))
             && (response.Success? && response.value.accessToken.None? ==>
                   r == Success(old(accessToken)) && unchanged(this) && unchanged(env))
             && (response.Success? && response.value.accessToken.Some? ==>
                   && r == Success(response.value.accessToken.value)
                   && accessToken == response.value.accessToken.value
                   && env.vars == WithToken(old(env.vars), accessToken, Unix(writeNow))
                   && env.dotenv == TokenFile(accessToken, Unix(writeNow)))
    {
      var cached := ReadToken(env.vars);
      if cached.Failure? {
        return Failure(BadTokenFile), None;
      }
      var (token, createdAt) := cached.value;
      if Fresh(token, createdAt, checkNow) {
        return Success(token), None;
      }
      var request := NewAuthRequest(appID, loginKey, requestNow, md5Hex);
      sent := Some((serviceURL, request));
      var replied := SendAuthRequestCorrected(post(serviceURL, request));
      if replied.Failure? {
        return Failure(replied.error), sent;
      }
      var response := ParseAuthResponse(replied.value, decode);
      if response.Failure? {
        return Failure(response.error), sent;
      }
      if response.value.accessToken.Some? {
        WriteToken(response.value.accessToken.value, writeNow);
      }
      r := Success(accessToken);
    }
  }
}
