/**
 * getAccessToken (token.go): reuse the cached IOPGPS access token while it is fresh;
 * otherwise sign a new authentication request, post it, and cache the token the
 * service returns. The POST, reading its body and JSON decoding are one outcome
 * parameter; the two clock readings are parameters.
 */
module Token {
  import opened Wrappers
  import opened TokenCache

  const ServiceURL: string := "https://open.iopgps.com/api/auth"

  /** The decoded authentication response; absent JSON fields decode to zero values. */
  datatype AuthResponse = AuthResponse(code: int, expiresIn: int, accessToken: string, result: string)

  /** What the POST to ServiceURL gave: a transport error, or a status and the decoded body (None: unreadable or not JSON). */
  datatype AuthReply = PostFailed | Replied(status: int, body: Option<AuthResponse>)

  datatype AuthError =
    | BadTokenFile                     // readToken failed
    | RequestFailed                    // the POST itself failed
    | UnexpectedStatus(status: int)    // any status other than 200
    | BadResponse                      // the body could not be read or decoded
    | Rejected(result: string)         // Code != 0

  /** The checks getAccessToken applies to the reply, in order. */
  function CheckReply(reply: AuthReply): (r: Result<string, AuthError>)
    ensures r.Success? <==> reply.Replied? && reply.status == 200 && reply.body.Some? && reply.body.value.code == 0
    ensures r.Success? ==> r.value == reply.body.value.accessToken
    ensures reply.Replied? && reply.status != 200 ==> r == Failure(UnexpectedStatus(reply.status))
    ensures reply.Replied? && reply.status == 200 && reply.body.Some? && reply.body.value.code != 0 ==>
      r == Failure(Rejected(reply.body.value.result))
  {
    match reply
    case PostFailed => Failure(RequestFailed)
    case Replied(status, body) =>
      if status != 200 then Failure(UnexpectedStatus(status))
      else if body.None? then Failure(BadResponse)
      else if body.value.code != 0 then Failure(Rejected(body.value.result))
      else Success(body.value.accessToken)
  }

  /**
   * getAccessToken. `checkNow` is the instant of the freshness check and `requestNow`
   * the instant the request is signed with, which is also the instant the new token
   * is written with. `sent` is the URL and request posted, if any.
   */
  method GetAccessToken(env: Environment, checkNow: int, requestNow: int, post: (string, AuthRequest) -> AuthReply, md5Hex: string -> string)
    returns (r: Result<string, AuthError>, sent: Option<(string, AuthRequest)>)
    modifies env
    ensures ReadToken(old(env.vars)).Failure? ==> r == Failure(BadTokenFile) && sent.None? && unchanged(env)
    ensures var cached := ReadToken(old(env.vars));
      cached.Success? && Fresh(cached.value.0, cached.value.1, checkNow) ==>
        r == Success(cached.value.0) && sent.None? && unchanged(env)
    ensures var cached := ReadToken(old(env.vars));
      cached.Success? && !Fresh(cached.value.0, cached.value.1, checkNow) ==>
        && sent == Some((ServiceURL, NewAuthRequest(Getenv(old(env.vars), AppIdKey), Getenv(old(env.vars), LoginKeyKey), requestNow, md5Hex)))
        && r == CheckReply(post(sent.value.0, sent.value.1))
        && (r.Success? ==> env.vars == WithToken(old(env.vars), r.value, sent.value.1.time) &&
                           env.dotenv == TokenFile(r.value, sent.value.1.time))
        && (r.Failure? ==> unchanged(env))
  {
    var appid := Getenv(env.vars, AppIdKey);
    var loginKey := Getenv(env.vars, LoginKeyKey);
    var cached := ReadToken(env.vars);
    if cached.Failure? {
      return Failure(BadTokenFile), None;
    }
    var (token, createdAt) := cached.value;
    if Fresh(token, createdAt, checkNow) {
      return Success(token), None;
    }
    var request := NewAuthRequest(appid, loginKey, requestNow, md5Hex);
    sent := Some((ServiceURL, request));
    r := CheckReply(post(ServiceURL, request));
    if r.Success? {
      env.WriteToken(r.value, Unix(requestNow));
    }
  }
}
