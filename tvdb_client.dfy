/**
 * The TVDB API client: it holds the credentials, is unauthenticated until a
 * login response carries a token, and then sends searches with a bearer
 * header.  The network is not modelled: each call takes the HTTP outcome it
 * would receive as an input and returns the request it would send.
 */
module TvdbClient {
  import opened Wrappers
  import opened PyText
  import opened PyValue

  /**
   * `TVDBAuthenticationError`, `TVDBRequestError`, and the AttributeError
   * Python raises when a login body is not shaped as a dict holding a dict.
   */
  datatype ClientError = AuthenticationError | RequestError | UnexpectedShape

  /** What an HTTP exchange yields: a 2xx response and its decoded body, or a transport error or error status. */
  datatype HttpOutcome = Response(body: Json) | TransportFailure

  const BaseUrl: string := "https://api4.thetvdb.com/v4"

  /** A request the client sends: a method, a URL, its query parameters or JSON body, and its headers. */
  datatype Request = Request(verb: string, url: string, fields: seq<(string, Json)>, headers: seq<(string, string)>)

  /** The Authorization value for a token: the scheme "Bearer", one space, the token (section 2.1 of RFC 6750). */
  function BearerCredentials(token: string): string {
    "Bearer " + token
  }

  /** Removing the 7-character prefix "Bearer " from an Authorization value. */
  function ParseBearer(value: string): Option<string> {
    if |value| >= 7 && value[..7] == "Bearer " then Some(value[7..]) else None
  }

  lemma BearerRoundTrip(token: string)
    ensures ParseBearer(BearerCredentials(token)) == Some(token)
  {
    assert BearerCredentials(token)[..7] == "Bearer ";
    assert BearerCredentials(token)[7..] == token;
  }

  /**
   * The token a login response yields: `response.json().get("data", {}).get("token")`,
   * which must be truthy.  It is kept as its `str()`, the only form in which the
   * client ever uses it.
   */
  function LoginToken(response: HttpOutcome): (r: Result<string, ClientError>)
    ensures r.Ok? ==> r.value != []
    ensures response.TransportFailure? ==> r == Err(AuthenticationError)
    ensures r.Ok? <==> response.Response? && TokenOf(response.body).Some? && Truthy(TokenOf(response.body).value)
    ensures r.Ok? ==> r.value == Str(TokenOf(response.body).value)
    ensures r == Err(UnexpectedShape) <==> response.Response? && TokenOf(response.body).None?
    ensures r.Err? && r.error != UnexpectedShape ==> r.error == AuthenticationError
  {
    match response
    case TransportFailure => Err(AuthenticationError)
    case Response(body) =>
      match TokenOf(body)
      case None => Err(UnexpectedShape)
      case Some(token) =>
        if !Truthy(token) then Err(AuthenticationError)
        else TruthyStrNonEmpty(token); Ok(Str(token))
  }

  /**
   * `data.get("data", {}).get("token")` on a decoded body, or nothing when
   * the body or its "data" is not a dict and `.get` does not exist.
   */
  function TokenOf(body: Json): Option<Json> {
    if body.JObj? && GetOr(body.entries, "data", JObj([])).JObj?
    then Some(Get(GetOr(body.entries, "data", JObj([])).entries, "token"))
    else None
  }

  /** `{key: value for key, value in params.items() if value is not None}` */
  function CleanParams(params: seq<(string, Json)>): (r: seq<(string, Json)>)
    ensures |r| <= |params|
    ensures forall p :: p in r <==> p in params && p.1 != JNull
    ensures IsSubsequence(r, params)
  {
    if params == [] then []
    else if params[0].1 == JNull then CleanParams(params[1..])
    else [params[0]] + CleanParams(params[1..])
  }

  /** Parameters that hold no `None` are sent exactly as given. */
  lemma {:induction false} CleanParamsKeepsSet(params: seq<(string, Json)>)
    requires forall k :: 0 <= k < |params| ==> params[k].1 != JNull
    ensures CleanParams(params) == params
  {
    if params != [] {
      CleanParamsKeepsSet(params[1..]);
    }
  }

  /** `load_tvdb_credentials`: the validation error it raises. */
  datatype CredentialsError = MissingCredentials

  /** `env or load_environment_variables()`: the given mapping unless it is `None` or empty. */
  function CredentialSource(env: Option<map<string, string>>, loaded: map<string, string>): map<string, string> {
    if env.Some? && |env.value| > 0 then env.value else loaded
  }

  /**
   * `load_tvdb_credentials(env)`: read TVDB_API_KEY and TVDB_PIN, strip both,
   * and refuse unless both are non-empty.
   */
  function LoadTvdbCredentials(env: Option<map<string, string>>, loaded: map<string, string>)
    : (r: Result<(string, string), CredentialsError>)
  {
    var mapping := CredentialSource(env, loaded);
    var apiKey := Strip(GetSetting(mapping, "TVDB_API_KEY", ""));
    var pin := Strip(GetSetting(mapping, "TVDB_PIN", ""));
    if apiKey == [] || pin == [] then Err(MissingCredentials) else Ok((apiKey, pin))
  }

  /**
   * The credentials load exactly when both settings have a non-space character,
   * and what is returned is non-empty and has no surrounding whitespace.
   */
  lemma CredentialsLoaded(env: Option<map<string, string>>, loaded: map<string, string>)
    ensures var mapping := CredentialSource(env, loaded);
      LoadTvdbCredentials(env, loaded).Ok? <==>
        HasNonSpace(GetSetting(mapping, "TVDB_API_KEY", "")) && HasNonSpace(GetSetting(mapping, "TVDB_PIN", ""))
    ensures LoadTvdbCredentials(env, loaded).Ok? ==>
      var (apiKey, pin) := LoadTvdbCredentials(env, loaded).value;
      apiKey != [] && pin != [] && Strip(apiKey) == apiKey && Strip(pin) == pin
    ensures LoadTvdbCredentials(env, loaded).Ok? ==>
      var mapping := CredentialSource(env, loaded);
      LoadTvdbCredentials(env, loaded).value
        == (Strip(GetSetting(mapping, "TVDB_API_KEY", "")), Strip(GetSetting(mapping, "TVDB_PIN", "")))
  {
    var mapping := CredentialSource(env, loaded);
    StrippedSetting(GetSetting(mapping, "TVDB_API_KEY", ""));
    StrippedSetting(GetSetting(mapping, "TVDB_PIN", ""));
  }

  lemma StrippedSetting(raw: string)
    ensures Strip(raw) != [] <==> HasNonSpace(raw)
    ensures Strip(Strip(raw)) == Strip(raw)
  {
    StripEmptyIff(raw);
    StripIdempotent(raw);
  }

  /** `TVDBClient`: its credentials and the bearer token it caches once authenticated. */
  class Client {
    const apiKey: string
    const pin: string
    var token: Option<string>

    /** A cached token is never empty. */
    ghost predicate Valid()
      reads this
    {
      token.Some? ==> token.value != []
    }

    constructor (apiKey: string, pin: string)
      ensures Valid()
      ensures this.apiKey == apiKey && this.pin == pin && token == None
    {
      this.apiKey := apiKey;
      this.pin := pin;
      token := None;
    }

    /** The login request: the API key and PIN as a JSON body. */
    function LoginRequest(): (r: Request)
      ensures r.verb == "POST" && r.url == BaseUrl + "/login"
      ensures Lookup(r.fields, "apikey") == Some(JStr(apiKey)) && Lookup(r.fields, "pin") == Some(JStr(pin))
    {
      Request("POST", BaseUrl + "/login", [("apikey", JStr(apiKey)), ("pin", JStr(pin))],
              [("Content-Type", "application/json")])
    }

    /**
     * `authenticate`: send the login request; on a token, cache it, and on any
     * failure raise and leave the cached token as it was.
     */
    method Authenticate(response: HttpOutcome) returns (r: Result<(), ClientError>, sent: Request)
      requires Valid()
      modifies this
      ensures Valid()
      ensures sent == LoginRequest()
      ensures r.Ok? <==> LoginToken(response).Ok?
      ensures r.Err? ==> r.error == LoginToken(response).error && token == old(token)
      ensures r.Ok? ==> token == Some(LoginToken(response).value)
      ensures r.Ok? ==> Headers().Ok? && Lookup(Headers().value, "Authorization") == Some(BearerCredentials(token.value))
    {
      sent := LoginRequest();
      var fetched := LoginToken(response);
      if fetched.Err? {
        return Err(fetched.error), sent;
      }
      token := Some(fetched.value);
      r := Ok(());
    }

    /** `_headers`: the bearer and content-type headers, refused while no token is cached. */
    function Headers(): (r: Result<seq<(string, string)>, ClientError>)
      reads this
      ensures r.Err? <==> token.None? || token.value == []
      ensures r.Err? ==> r.error == AuthenticationError
      ensures Valid() ==> (r.Err? <==> token.None?)
      ensures r.Ok? ==> Lookup(r.value, "Authorization") == Some(BearerCredentials(token.value))
    {
      if token.None? || token.value == [] then Err(AuthenticationError)
      else Ok([("Authorization", BearerCredentials(token.value)), ("Content-Type", "application/json")])
    }

    /**
     * `search(**params)`: send only the parameters that are not `None`, with the
     * bearer headers; raise the authentication error before sending anything when
     * no token is cached, and the request error when the exchange fails.
     */
    method Search(params: seq<(string, Json)>, response: HttpOutcome)
      returns (r: Result<Json, ClientError>, sent: Option<Request>)
      ensures Headers().Err? ==> r == Err(AuthenticationError) && sent == None
      ensures Headers().Ok? ==>
        sent == Some(Request("GET", BaseUrl + "/search", CleanParams(params), Headers().value))
        && r == (if response.Response? then Ok(response.body) else Err(RequestError))
    {
      var cleanParams := CleanParams(params);
      var headers := Headers();
      if headers.Err? {
        return Err(headers.error), None;
      }
      sent := Some(Request("GET", BaseUrl + "/search", cleanParams, headers.value));
      match response {
        case TransportFailure => r := Err(RequestError);
        case Response(body) => r := Ok(body);
      }
    }
  }
}
