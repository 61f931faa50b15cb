/**
 * The IOPGPS access-token cache shared by token.go and auth/autheticator.go: the
 * process environment it lives in (the variables os.Getenv/os.Setenv see and the
 * key/value pairs godotenv.Write last put in .env), the TIME encoding, the
 * freshness window, and the two-stage MD5 signature of the authentication request.
 * Instants are nanoseconds since the Unix epoch, as time.Time holds them; MD5 with
 * hex encoding (RFC 1321) is a parameter.
 */
module TokenCache {
  import opened Wrappers
  import opened Text

  const AccessTokenKey: string := "ACCESS_TOKEN"
  const TimeKey: string := "TIME"
  const AppIdKey: string := "APPID"
  const LoginKeyKey: string := "LOGIN_KEY"

  const NanosPerSecond: int := 1_000_000_000

  /** 2h - 20m, in seconds: how long a token is reused after it was written. */
  const TokenLifetime: int := 2 * 3600 - 20 * 60

  /** time.Time.Unix(): whole seconds, rounded down, of an instant. */
  function Unix(instant: int): (r: int)
    ensures r * NanosPerSecond <= instant < (r + 1) * NanosPerSecond
  {
    instant / NanosPerSecond
  }

  /** os.Getenv: the empty string for an unset variable. */
  function Getenv(vars: map<string, string>, key: string): string {
    if key in vars then vars[key] else ""
  }

  /** readToken's only error: TIME is not a base-10 int64 ("formato de archivo inválido"). */
  datatype TokenFileError = InvalidFormat

  /** readToken: the cached token and the second it was created, read from the environment. */
  function ReadToken(vars: map<string, string>): (r: Result<(string, int), TokenFileError>)
    ensures r.Success? <==> ParseInt64(Getenv(vars, TimeKey)).Success?
    ensures r.Success? ==> r.value.0 == Getenv(vars, AccessTokenKey) && r.value.1 == ParseInt64(Getenv(vars, TimeKey)).value
    ensures TimeKey !in vars ==> r == Failure(InvalidFormat)
  {
    match ParseInt64(Getenv(vars, TimeKey))
    case Success(seconds) => Success((Getenv(vars, AccessTokenKey), seconds))
    case Failure(_) => Failure(InvalidFormat)
  }

  /** The environment after writeToken: ACCESS_TOKEN and TIME replaced, every other variable untouched. */
  function WithToken(vars: map<string, string>, token: string, createdAt: int): (r: map<string, string>)
    ensures Getenv(r, AccessTokenKey) == token && Getenv(r, TimeKey) == IntToDecimal(createdAt)
    ensures forall k :: k != AccessTokenKey && k != TimeKey ==> (k in r <==> k in vars) && (k in vars ==> r[k] == vars[k])
  {
    vars[AccessTokenKey := token][TimeKey := IntToDecimal(createdAt)]
  }

  /** What godotenv.Write leaves in .env after writeToken: exactly the two keys. */
  function TokenFile(token: string, createdAt: int): map<string, string> {
    map[AccessTokenKey := token, TimeKey := IntToDecimal(createdAt)]
  }

  /**
   * TIME round trip: what writeToken stores, in the environment and in .env, readToken
   * reads back as the same token and the same second.
   */
  lemma ReadAfterWrite(vars: map<string, string>, token: string, createdAt: int)
    requires InInt64(createdAt)
    ensures ReadToken(WithToken(vars, token, createdAt)) == Success((token, createdAt))
    ensures ReadToken(TokenFile(token, createdAt)) == Success((token, createdAt))
  {
    ParseInt64OfIntToDecimal(createdAt);
  }

  /** The cached token is reused: it is non-empty and `now` is before createdAt + 2h - 20m. */
  predicate Fresh(token: string, createdAt: int, now: int) {
    token != "" && now < (createdAt + TokenLifetime) * NanosPerSecond
  }

  /**
   * A token written at instant `written` is reused until just under 100 minutes later and
   * never from 100 minutes on: TIME keeps whole seconds, so up to a second of the window
   * is lost.
   */
  lemma RenewedTokenWindow(vars: map<string, string>, token: string, written: int, now: int)
    requires token != "" && InInt64(Unix(written))
    ensures ReadToken(WithToken(vars, token, Unix(written))) == Success((token, Unix(written)))
    ensures now < written + (TokenLifetime - 1) * NanosPerSecond ==> Fresh(token, Unix(written), now)
    ensures now >= written + TokenLifetime * NanosPerSecond ==> !Fresh(token, Unix(written), now)
  {
    ReadAfterWrite(vars, token, Unix(written));
  }

  /** The environment a token cache lives in: process variables and the .env file. */
  class Environment {
    var vars: map<string, string>
    var dotenv: map<string, string>

    constructor (vars: map<string, string>, dotenv: map<string, string>)
      ensures this.vars == vars && this.dotenv == dotenv
    {
      this.vars := vars;
      this.dotenv := dotenv;
    }

    /**
     * writeToken's effect on the environment: os.Setenv of both keys, then .env
     * rewritten with just those two keys. A failed file write ends the process.
     */
    method WriteToken(token: string, createdAt: int)
      modifies this
      ensures vars == WithToken(old(vars), token, createdAt)
      ensures dotenv == TokenFile(token, createdAt)
    {
      var time := IntToDecimal(createdAt);
      vars := vars[AccessTokenKey := token];
      vars := vars[TimeKey := time];
      dotenv := map[AccessTokenKey := token, TimeKey := time];
    }
  }

  /** The text hashed the second time: the login key's hash followed by the decimal time. */
  function SignedText(loginKeyHash: string, time: int): string {
    loginKeyHash + IntToDecimal(time)
  }

  /** generateSignature: hex(MD5(hex(MD5(loginKey)) ++ decimal(time))). */
  function GenerateSignature(loginKey: string, time: int, md5Hex: string -> string): string {
    md5Hex(SignedText(md5Hex(loginKey), time))
  }

  /** Distinct request times are signed over distinct texts, so a signature is bound to its time. */
  lemma SignedTextInjective(loginKeyHash: string, t1: int, t2: int)
    requires InInt64(t1) && InInt64(t2)
    requires SignedText(loginKeyHash, t1) == SignedText(loginKeyHash, t2)
    ensures t1 == t2
  {
    assert IntToDecimal(t1) == SignedText(loginKeyHash, t1)[|loginKeyHash|..];
    assert IntToDecimal(t2) == SignedText(loginKeyHash, t2)[|loginKeyHash|..];
    IntToDecimalInjective(t1, t2);
  }

  /** The authentication request body. */
  datatype AuthRequest = AuthRequest(appid: string, time: int, signature: string)

  /** createRequest: one clock reading gives both the request time and the signed time. */
  function NewAuthRequest(appid: string, loginKey: string, now: int, md5Hex: string -> string): (r: AuthRequest)
    ensures r.appid == appid && r.time == Unix(now)
    ensures r.signature == GenerateSignature(loginKey, r.time, md5Hex)
  {
    var currentTime := Unix(now);
    AuthRequest(appid, currentTime, GenerateSignature(loginKey, currentTime, md5Hex))
  }
}
