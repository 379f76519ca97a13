/**
 * `admin_login` (src/controllers/auth_controller.py) with `verify_api_key`
 * (src/services/auth_service.py): the API key is the last space-separated piece of the
 * Authorization header, it must equal the configured admin key, and exceptions are
 * turned into HTTP errors.
 *
 * The configured key is the environment variable ADMIN_API_KEY, `None` when unset; the
 * token generator (a clock read and a PyJWT call) is given as its outcome.
 */
module AuthController {
  import opened Wrappers
  import opened PyStrings

  /** The body of a successful login: `{"token": ..., "expires_at": ...}`. */
  datatype Login = Login(token: string, expiresAt: real)

  /** What the `try` block can raise: an `HTTPException`, or any other exception with its `str()`. */
  datatype Raised = HttpException(status: int, detail: string) | OtherException(text: string)

  const Unauthorized: HttpError := HttpError(401, "Unauthorized: Invalid API key")
  const InternalErrorPrefix: string := "Internal Server Error: "

  /** `authorization.split(' ')[-1]`. */
  function ApiKey(authorization: string): string {
    LastPiece(authorization)
  }

  /** `verify_api_key`: equality with the configured key; an unset key matches nothing. */
  predicate VerifyApiKey(apiKey: string, adminKey: Option<string>): (ok: bool)
    ensures adminKey.None? ==> !ok
    ensures adminKey.Some? ==> (ok <==> apiKey == adminKey.value)
  {
    adminKey.Some? && adminKey.value == apiKey
  }

  /** The `try` block of `admin_login`. */
  function LoginAttempt(authorization: string, adminKey: Option<string>, jwt: Result<Login, string>): (r: Result<Login, Raised>)
    ensures r.Ok? <==> VerifyApiKey(ApiKey(authorization), adminKey) && jwt.Ok?
    ensures r.Ok? ==> r.value == jwt.value
    ensures !VerifyApiKey(ApiKey(authorization), adminKey) ==> r == Err(HttpException(401, "Unauthorized: Invalid API key"))
    ensures VerifyApiKey(ApiKey(authorization), adminKey) && jwt.Err? ==> r == Err(OtherException(jwt.error))
  {
    if !VerifyApiKey(ApiKey(authorization), adminKey) then
      Err(HttpException(Unauthorized.status, Unauthorized.detail))
    else match jwt {
      case Ok(login) => Ok(login)
      case Err(text) => Err(OtherException(text))
    }
  }

  /** The `except` clauses: an `HTTPException` is re-raised as it is, anything else becomes a 500. */
  function Handle(attempt: Result<Login, Raised>): (r: Result<Login, HttpError>)
    ensures attempt.Ok? ==> r == Ok(attempt.value)
    ensures attempt.Err? && attempt.error.HttpException? ==>
      r == Err(HttpError(attempt.error.status, attempt.error.detail))
    ensures attempt.Err? && attempt.error.OtherException? ==>
      r == Err(HttpError(500, InternalErrorPrefix + attempt.error.text))
  {
    match attempt
    case Ok(login) => Ok(login)
    case Err(HttpException(status, detail)) => Err(HttpError(status, detail))
    case Err(OtherException(text)) => Err(HttpError(500, InternalErrorPrefix + text))
  }

  /** `admin_login`. */
  function AdminLogin(authorization: string, adminKey: Option<string>, jwt: Result<Login, string>): (r: Result<Login, HttpError>)
    ensures r.Ok? <==> adminKey == Some(ApiKey(authorization)) && jwt.Ok?
    ensures r.Ok? ==> r.value == jwt.value
    ensures adminKey != Some(ApiKey(authorization)) ==> r == Err(Unauthorized)
    ensures adminKey == Some(ApiKey(authorization)) && jwt.Err? ==>
      r == Err(HttpError(500, InternalErrorPrefix + jwt.error))
  {
    Handle(LoginAttempt(authorization, adminKey, jwt))
  }

  /** A rejected key never reaches the token generator: its outcome does not matter. */
  lemma RejectionIgnoresGenerator(authorization: string, adminKey: Option<string>, jwt1: Result<Login, string>, jwt2: Result<Login, string>)
    requires !VerifyApiKey(ApiKey(authorization), adminKey)
    ensures AdminLogin(authorization, adminKey, jwt1) == AdminLogin(authorization, adminKey, jwt2) == Err(Unauthorized)
  {
  }

  /** With ADMIN_API_KEY unset every login is refused with 401. */
  lemma UnsetKeyRefusesAll(authorization: string, jwt: Result<Login, string>)
    ensures AdminLogin(authorization, None, jwt) == Err(Unauthorized)
  {
  }

  /** "Bearer <key>" yields the key, for any key without a space. */
  lemma BearerHeader(key: string)
    requires ' ' !in key
    ensures ApiKey("Bearer " + key) == key
  {
    assert "Bearer " + key == "Bearer" + " " + key;
    SplitAfterPrefix("Bearer", key);
    SplitSpaceFree(key);
  }

  /** A header without a space is the key as a whole. */
  lemma HeaderWithoutSpace(authorization: string)
    requires ' ' !in authorization
    ensures ApiKey(authorization) == authorization
  {
    SplitSpaceFree(authorization);
  }

  /** A header ending in a space yields the empty key. */
  lemma TrailingSpace(authorization: string)
    requires authorization != [] && authorization[|authorization| - 1] == ' '
    ensures ApiKey(authorization) == []
  {
    LastPieceIsSuffixAfterLastSpace(authorization);
  }
}
