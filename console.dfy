/** The two-step console federation protocol: exchange session credentials
    for a signin token at the federation endpoint, then build the login URL
    that carries the token. JSON encoding, url.Parse and the HTTP round trip
    are parameters.

    A URL is modelled by the string url.Parse was given and its url.Values;
    the RawQuery that url.Values.Encode makes from them is a bijective
    escaping of that map, so decoding the query of a URL gives back
    exactly the map stored here. */
module Console {
  import opened Types
  import Strconv
  import Partition

  /** The endpoint both requests go to, whatever the region. */
  const FederationUrl: string := "https://signin.aws.amazon.com/federation"

  /** url.Values: every key maps to a list of values. */
  type Values = map<string, seq<string>>

  datatype Url = Url(location: string, query: Values)

  /** What decoding a query gives a reader asking for one value per key (url.Values.Get). */
  function QueryParams(v: Values): map<string, string> {
    map k | k in v && |v[k]| > 0 :: v[k][0]
  }

  /** The url.Values in which every key of `values` has just its one value. */
  function SingleValued(values: map<string, string>): (v: Values)
    ensures v.Keys == values.Keys
    ensures forall k :: k in v ==> |v[k]| == 1
    ensures QueryParams(v) == values
  {
    map k | k in values :: [values[k]]
  }

  /** url.Parse: None when the string parses, else the parser's error message. */
  type UrlParser = string -> Option<string>

  /** The URL urlParams returns for `rawUrl` and `values`. */
  function WithParams(rawUrl: string, values: map<string, string>, parseUrl: UrlParser): Result<Url, Error> {
    match parseUrl(rawUrl)
    case Some(e) => Failure(UrlError(e))
    case None => Success(Url(rawUrl, SingleValued(values)))
  }

  /** urlParams: parse `rawUrl`, then Set each key of `values` (in the map's
      unspecified iteration order) and install the result as the query. */
  method UrlParams(rawUrl: string, values: map<string, string>, parseUrl: UrlParser) returns (r: Result<Url, Error>)
    ensures r == WithParams(rawUrl, values, parseUrl)
    ensures r.Success? ==> r.value.location == rawUrl && QueryParams(r.value.query) == values
    ensures r.Success? ==> r.value.query.Keys == values.Keys && forall k :: k in r.value.query ==> |r.value.query[k]| == 1
  {
    var parseError := parseUrl(rawUrl);
    if parseError.Some? {
      return Failure(UrlError(parseError.value));
    }
    var v: Values := map[];
    var remaining := values.Keys;
    while remaining != {}
      invariant remaining <= values.Keys
      invariant v.Keys == values.Keys - remaining
      invariant forall k :: k in v ==> v[k] == [values[k]]
      decreases remaining
    {
      var key :| key in remaining;
      v := v[key := [values[key]]];
      remaining := remaining - {key};
    }
    assert v == SingleValued(values);
    r := Success(Url(rawUrl, v));
  }

  /** The body of a signin-token response as JSON decoding sees it:
      malformed, or an object that may hold a SigninToken string. */
  datatype TokenDocument = Malformed(message: string) | Document(signinToken: Option<string>)

  /** extractToken: the decode error, else the SigninToken field, which is
      "" when the object has no such field. */
  function ExtractToken(body: TokenDocument): (r: Result<string, Error>)
    ensures body.Malformed? <==> r.Failure?
    ensures body.Malformed? ==> r.error == TokenDecodeError(body.message)
    ensures body.Document? ==> r.value == body.signinToken.GetOr("")
  {
    match body
    case Malformed(message) => Failure(TokenDecodeError(message))
    case Document(token) => Success(token.GetOr(""))
  }

  /** A GET with a User-Agent header. */
  datatype Request = Request(url: Url, userAgent: string)

  /** The outcome of performing a request: a transport error (timeouts
      included), or a response with its status code, status line and body. */
  datatype Exchange = TransportFailure(message: string) | Response(statusCode: int, status: string, body: TokenDocument)

  const StatusOK: int := 200

  /** The library and network calls GenerateLoginURL relies on. */
  datatype Libraries = Libraries(
    marshal: map<string, string> -> string,   // json.Marshal of a string map
    parseUrl: UrlParser,
    send: Request -> Exchange)                // http.DefaultClient.Do, 15-second timeout

  /** The credentials as the JSON object sent in the Session parameter. */
  function SessionCredentials(creds: Credentials): map<string, string> {
    map["sessionId" := creds.accessKeyId, "sessionKey" := creds.secretAccessKey, "sessionToken" := creds.sessionToken]
  }

  /** The parameters of the getSigninToken request. */
  function SigninValues(creds: Credentials, duration: int, marshal: map<string, string> -> string): (values: map<string, string>)
    ensures values.Keys == {"Action", "Session"} + (if duration != 0 then {"SessionDuration"} else {})
    ensures values["Action"] == "getSigninToken"
    ensures values["Session"] == marshal(SessionCredentials(creds))
    ensures duration != 0 ==> Strconv.ParseDecimal(values["SessionDuration"]) == Some(WholeSeconds(duration))
  {
    var values := map["Action" := "getSigninToken", "Session" := marshal(SessionCredentials(creds))];
    if duration != 0 then
      Strconv.ItoaRoundTrip(WholeSeconds(duration));
      values["SessionDuration" := Strconv.Itoa(WholeSeconds(duration))]
    else values
  }

  /** The parameters of the final login URL. */
  function LoginValues(location: string, token: string): map<string, string> {
    map["Action" := "login", "Destination" := location, "SigninToken" := token]
  }

  /** The result of GenerateLoginURL and the signin-token request it sent, if any. */
  datatype LoginOutcome = LoginOutcome(result: Result<Url, Error>, request: Option<Request>)

  function LoginUrlOutcome(creds: Credentials, duration: int, location: string, userAgent: string, lib: Libraries): LoginOutcome {
    match WithParams(FederationUrl, SigninValues(creds, duration, lib.marshal), lib.parseUrl)
    case Failure(e) => LoginOutcome(Failure(e), None)
    case Success(signinUrl) =>
      var request := Request(signinUrl, userAgent);
      match lib.send(request)
      case TransportFailure(message) => LoginOutcome(Failure(RequestError(message)), Some(request))
      case Response(code, status, body) =>
        if code != StatusOK then LoginOutcome(Failure(StatusError(status)), Some(request))
        else match ExtractToken(body)
          case Failure(e) => LoginOutcome(Failure(e), Some(request))
          case Success(token) => LoginOutcome(WithParams(FederationUrl, LoginValues(location, token), lib.parseUrl), Some(request))
  }

  method GenerateLoginUrl(creds: Credentials, duration: int, location: string, userAgent: string, lib: Libraries)
    returns (r: Result<Url, Error>, request: Option<Request>)
    ensures LoginOutcome(r, request) == LoginUrlOutcome(creds, duration, location, userAgent, lib)
  {
    var session := lib.marshal(SessionCredentials(creds));
    var values := map["Action" := "getSigninToken", "Session" := session];
    if duration != 0 {
      values := values["SessionDuration" := Strconv.Itoa(WholeSeconds(duration))];
    }
    var signinUrl := UrlParams(FederationUrl, values, lib.parseUrl);
    if signinUrl.Failure? {
      return Failure(signinUrl.error), None;
    }
    request := Some(Request(signinUrl.value, userAgent));
    var exchange := lib.send(request.value);
    if exchange.TransportFailure? {
      return Failure(RequestError(exchange.message)), request;
    }
    if exchange.statusCode != StatusOK {
      return Failure(StatusError(exchange.status)), request;
    }
    var token := ExtractToken(exchange.body);
    if token.Failure? {
      return Failure(token.error), request;
    }
    r := UrlParams(FederationUrl, LoginValues(location, token.value), lib.parseUrl);
  }

  /** The Session parameter encodes exactly the three credential fields under fixed keys. */
  lemma SessionPayload(creds: Credentials)
    ensures SessionCredentials(creds).Keys == {"sessionId", "sessionKey", "sessionToken"}
    ensures SessionCredentials(creds)["sessionId"] == creds.accessKeyId
    ensures SessionCredentials(creds)["sessionKey"] == creds.secretAccessKey
    ensures SessionCredentials(creds)["sessionToken"] == creds.sessionToken
  {
  }

  /** The signin-token request, when sent, goes to the federation endpoint
      with the given User-Agent and decodes to exactly SigninValues. */
  lemma SigninRequestShape(creds: Credentials, duration: int, location: string, userAgent: string, lib: Libraries)
    ensures var out := LoginUrlOutcome(creds, duration, location, userAgent, lib);
      out.request.Some? ==>
        && out.request.value.url.location == FederationUrl
        && out.request.value.userAgent == userAgent
        && QueryParams(out.request.value.url.query) == SigninValues(creds, duration, lib.marshal)
    ensures var out := LoginUrlOutcome(creds, duration, location, userAgent, lib);
      out.request.None? <==> lib.parseUrl(FederationUrl).Some?
  {
  }

  /** A response other than 200 OK fails with its status line and yields no URL. */
  lemma NonOkStatusFails(creds: Credentials, duration: int, location: string, userAgent: string, lib: Libraries)
    requires lib.parseUrl(FederationUrl).None?
    requires var request := Request(Url(FederationUrl, SingleValued(SigninValues(creds, duration, lib.marshal))), userAgent);
      lib.send(request).Response? && lib.send(request).statusCode != StatusOK
    ensures var request := Request(Url(FederationUrl, SingleValued(SigninValues(creds, duration, lib.marshal))), userAgent);
      var out := LoginUrlOutcome(creds, duration, location, userAgent, lib);
      && out.result == Failure(StatusError(lib.send(request).status))
      && out.result.error.Message() == "request failed: " + lib.send(request).status
  {
  }

  /** A successful run returns a URL on the federation endpoint whose query is
      exactly Action=login, the destination and the token of a 200 response. */
  lemma LoginUrlShape(creds: Credentials, duration: int, location: string, userAgent: string, lib: Libraries)
    ensures var out := LoginUrlOutcome(creds, duration, location, userAgent, lib);
      out.result.Success? ==>
        && out.request.Some?
        && lib.send(out.request.value).Response?
        && lib.send(out.request.value).statusCode == StatusOK
        && lib.send(out.request.value).body.Document?
        && out.result.value.location == FederationUrl
        && QueryParams(out.result.value.query) == LoginValues(location, lib.send(out.request.value).body.signinToken.GetOr(""))
  {
  }

  /** A 200 response without a SigninToken field is not an error: the login
      URL then carries an empty token. */
  lemma MissingTokenYieldsEmptyToken(creds: Credentials, duration: int, location: string, userAgent: string, lib: Libraries)
    requires lib.parseUrl(FederationUrl).None?
    requires var request := Request(Url(FederationUrl, SingleValued(SigninValues(creds, duration, lib.marshal))), userAgent);
      lib.send(request) == Response(StatusOK, "200 OK", Document(None))
    ensures LoginUrlOutcome(creds, duration, location, userAgent, lib).result
      == Success(Url(FederationUrl, SingleValued(LoginValues(location, ""))))
  {
  }

  /** This revision always federates against the commercial partition's
      endpoint, whichever region was chosen. */
  lemma FixedFederationEndpoint()
    ensures FederationUrl == Partition.PartitionTable["aws"].federationUrl
  {
  }

  /** User credentials, no duration, and a 200 response carrying TOK123. */
  lemma LoginExample(lib: Libraries)
    requires lib.parseUrl(FederationUrl).None?
    requires var creds := Credentials("AKIAEXAMPLE", "secret", "");
      var request := Request(Url(FederationUrl, SingleValued(SigninValues(creds, 0, lib.marshal))), "ua");
      lib.send(request) == Response(StatusOK, "200 OK", Document(Some("TOK123")))
    ensures var out := LoginUrlOutcome(Credentials("AKIAEXAMPLE", "secret", ""), 0,
                                       "https://console.aws.amazon.com/console/home", "ua", lib);
      && out.request.Some?
      && "SessionDuration" !in out.request.value.url.query
      && QueryParams(out.request.value.url.query)["Action"] == "getSigninToken"
      && out.result.Success?
      && QueryParams(out.result.value.query) == map["Action" := "login",
           "Destination" := "https://console.aws.amazon.com/console/home", "SigninToken" := "TOK123"]
  {
  }
}
