/**
 * The atomiadns JSON API client adapter (webapp/rest.js): building requests,
 * the password handshake that yields a session token, executing a named
 * operation with the session-expiry logout/redirect, and turning server
 * faults into messages fit for a user.
 *
 * The environment is a `Config`, the HTTP client is the function `post`
 * from the request sent to the response received, and the callbacks and
 * the web framework's `logout`/`redirect` are recorded as returned values.
 */
module Rest {
  import opened Wrappers
  import opened JsText
  import opened Json

  /** `process.env['ATOMIADNS_SOAP_URI']` and `process.env['ATOMIADNS_RAW_ERRORS']`. */
  datatype Config = Config(soapUri: Option<string>, rawErrors: Option<string>)

  const DefaultBaseUri: string := "http://127.0.0.1/atomiadns.json/"

  const UsernameHeader: string := "X-Auth-Username"
  const TokenHeader: string := "X-Auth-Token"
  const PasswordHeader: string := "X-Auth-Password"

  const NoopOperation: string := "Noop"

  const UnknownExceptionType: string := "InternalError.UnknownException"
  const DifferentTtlType: string := "LogicalError.DifferentTTLForSameLabelClassAndType"
  const UnknownErrorMessage: string := "Unknown error"
  const DifferentTtlMessage: string :=
    "You can't have records for the same name and type but with different TTL values"

  /** `errorMessageMap`: fault type to the message shown to the user. */
  const ErrorMessageMap: map<string, string> :=
    map[UnknownExceptionType := UnknownErrorMessage, DifferentTtlType := DifferentTtlMessage]

  const AuthFailedPrefix: string := "authentication failed, status code from rest api was "
  const InvalidInputMessage: string := "invalid input to executeOperation"
  const InvalidJsonPrefix: string := "invalid JSON returned for "
  const InvalidStatusPrefix: string := "invalid status for "

  /** What is handed to the HTTP client; `body` is `None` when unset. */
  datatype Request = Request(uri: string, headers: map<string, string>, body: Option<string>)

  /** What the HTTP client hands back: a transport error, or a status with
      the `x-auth-token` header and the body (`None`: the body is `undefined`). */
  datatype Response =
    | TransportError(cause: string)
    | Http(status: nat, tokenHeader: Option<string>, body: Option<string>)

  /** The error argument of a callback: the transport's error object passed
      on as it is, or a message built here. */
  datatype Failure = Transport(cause: string) | Message(text: string)

  /** Statuses 401 to 403 mean the credentials or the session were refused. */
  predicate IsAuthRejection(resp: Response) {
    resp.Http? && 401 <= resp.status <= 403
  }

  // ---------------------------------------------------------------------
  // Request construction
  // ---------------------------------------------------------------------

  /** The configured base URI, or the built-in default when none is set. */
  function ConfiguredBase(cfg: Config): string {
    if cfg.soapUri.Some? then cfg.soapUri.value else DefaultBaseUri
  }

  /** The base URI requests go to: a '/' is appended unless the configured
      base already ends in one or is empty. */
  function BaseUri(cfg: Config): string {
    var b := ConfiguredBase(cfg);
    if b == [] || b[|b| - 1] == '/' then b else b + "/"
  }

  lemma BaseUriNormalises(cfg: Config)
    ensures cfg.soapUri.None? ==> BaseUri(cfg) == DefaultBaseUri
    ensures BaseUri(cfg) == ConfiguredBase(cfg) || BaseUri(cfg) == ConfiguredBase(cfg) + "/"
    ensures BaseUri(cfg) == [] <==> cfg.soapUri == Some([])
    ensures BaseUri(cfg) != [] ==> BaseUri(cfg)[|BaseUri(cfg)| - 1] == '/'
  {
  }

  /** Normalising an already normalised base changes nothing. */
  lemma BaseUriIdempotent(cfg: Config)
    ensures BaseUri(cfg.(soapUri := Some(BaseUri(cfg)))) == BaseUri(cfg)
  {
  }

  /** One trailing '/' on a non-empty base makes no difference, but a '/'
      added to a base that already has one is kept: slashes are never collapsed. */
  lemma BaseUriTrailingSlash(b: string, raw: Option<string>)
    requires b != []
    ensures b[|b| - 1] != '/' ==> BaseUri(Config(Some(b), raw)) == BaseUri(Config(Some(b + "/"), raw))
    ensures b[|b| - 1] == '/' ==> BaseUri(Config(Some(b + "/"), raw)) == b + "/" != BaseUri(Config(Some(b), raw))
  {
  }

  /** `getOperationRequest`: the URI is the normalised base followed by the
      operation name; the headers carry the username, then the token if
      there is one, otherwise the password if there is one. */
  method GetOperationRequest(cfg: Config, operation: string, username: string,
                             token: Option<string>, password: Option<string>)
    returns (req: Request)
    ensures req.uri == BaseUri(cfg) + operation
    ensures req.headers.Keys <= {UsernameHeader, TokenHeader, PasswordHeader}
    ensures UsernameHeader in req.headers && req.headers[UsernameHeader] == username
    ensures TokenHeader in req.headers <==> token.Some?
    ensures token.Some? ==> req.headers[TokenHeader] == token.value
    ensures PasswordHeader in req.headers <==> token.None? && password.Some?
    ensures PasswordHeader in req.headers ==> req.headers[PasswordHeader] == password.value
    ensures req.body == None
  {
    var uriBase := ConfiguredBase(cfg);
    if LastIndexOf(uriBase, '/') != |uriBase| - 1 {
      uriBase := uriBase + "/";
    }

    var headers := map[UsernameHeader := username];
    if token.Some? {
      headers := headers[TokenHeader := token.value];
    } else if password.Some? {
      headers := headers[PasswordHeader := password.value];
    }

    req := Request(uriBase + operation, headers, None);
  }

  // ---------------------------------------------------------------------
  // Authentication handshake
  // ---------------------------------------------------------------------

  /** The callback of `authenticate`: `callback(error)`, `callback(null, token)`
      (the token may be `undefined`) or `callback(null, null)` for refused
      credentials. */
  datatype AuthOutcome = AuthFailed(error: Failure) | Granted(token: Option<string>) | Rejected

  function AuthFailureMessage(status: nat): string {
    AuthFailedPrefix + NumberToString(status)
  }

  /** The failure message names the status: it can be read back from it. */
  lemma AuthFailureMessageDecodes(status: nat)
    ensures var m := AuthFailureMessage(status);
      |m| > |AuthFailedPrefix| && m[..|AuthFailedPrefix|] == AuthFailedPrefix &&
      AllDigits(m[|AuthFailedPrefix|..]) && DigitsValue(m[|AuthFailedPrefix|..]) == status
  {
    var m := AuthFailureMessage(status);
    assert m[|AuthFailedPrefix|..] == NumberToString(status);
    NumberToStringRoundTrip(status);
  }

  /** How `authenticate` classifies the response to its `Noop` request. */
  function AuthResult(resp: Response): (outcome: AuthOutcome)
    ensures outcome.AuthFailed? && outcome.error.Transport? <==> resp.TransportError?
    ensures resp.TransportError? ==> outcome.error.cause == resp.cause
    ensures outcome.Granted? <==> resp.Http? && resp.status == 200
    ensures outcome.Granted? ==> outcome.token == resp.tokenHeader
    ensures outcome.Rejected? <==> IsAuthRejection(resp)
    ensures outcome.AuthFailed? && outcome.error.Message? <==>
      resp.Http? && resp.status != 200 && !IsAuthRejection(resp)
    ensures outcome.AuthFailed? && outcome.error.Message? ==>
      outcome.error.text == AuthFailureMessage(resp.status)
  {
    match resp
    case TransportError(e) => AuthFailed(Transport(e))
    case Http(status, tokenHeader, _) =>
      if status == 200 then Granted(tokenHeader)
      else if 401 <= status <= 403 then Rejected
      else AuthFailed(Message(AuthFailureMessage(status)))
  }

  /** Two failed handshakes with different statuses report different messages. */
  lemma AuthFailureDistinguishesStatus(r1: Response, r2: Response)
    requires AuthResult(r1).AuthFailed? && AuthResult(r1).error.Message?
    requires AuthResult(r2).AuthFailed? && AuthResult(r2).error.Message?
    requires r1.status != r2.status
    ensures AuthResult(r1) != AuthResult(r2)
  {
    if AuthResult(r1) == AuthResult(r2) {
      AuthFailureMessageDecodes(r1.status);
      AuthFailureMessageDecodes(r2.status);
    }
  }

  /** `authenticate`: a `Noop` request with the password and no token, sent
      once, and its response classified by `AuthResult`. */
  method Authenticate(cfg: Config, username: string, password: Option<string>, post: Request -> Response)
    returns (sent: Request, outcome: AuthOutcome)
    ensures sent.uri == BaseUri(cfg) + NoopOperation
    ensures sent.headers == if password.Some?
      then map[UsernameHeader := username, PasswordHeader := password.value]
      else map[UsernameHeader := username]
    ensures sent.body == None
    ensures outcome == AuthResult(post(sent))
  {
    sent := GetOperationRequest(cfg, NoopOperation, username, None, password);
    outcome := AuthResult(post(sent));
  }

  // ---------------------------------------------------------------------
  // Error humanisation
  // ---------------------------------------------------------------------

  /** Raw errors are on when the variable is set to a non-empty string. */
  predicate RawErrors(cfg: Config) {
    cfg.rawErrors.Some? && cfg.rawErrors.value != []
  }

  /** The fault type of `error`, when it parses, carries a string `error_type`
      and that type has an entry in `ErrorMessageMap`. */
  function MappedFaultType(parse: string -> Option<Json>, error: string): (k: Option<string>)
    ensures k.Some? ==> k.value in ErrorMessageMap
    ensures k.Some? ==> parse(error).Some? && ErrorTypeField(parse(error).value) == k
    ensures (parse(error).Some? && ErrorTypeField(parse(error).value).Some? &&
             ErrorTypeField(parse(error).value).value in ErrorMessageMap) ==> k.Some?
  {
    var fault := parse(error);
    if fault.Some? && ErrorTypeField(fault.value).Some? && ErrorTypeField(fault.value).value in ErrorMessageMap
    then ErrorTypeField(fault.value)
    else None
  }

  /** `humanizeError`: the input itself when raw errors are on, otherwise
      always one of the map's messages: that of the fault type when it is
      mapped, "Unknown error" in every other case. */
  function HumanizeError(cfg: Config, parse: string -> Option<Json>, error: string): (r: string)
    ensures RawErrors(cfg) ==> r == error
    ensures !RawErrors(cfg) ==> r in ErrorMessageMap.Values
    ensures !RawErrors(cfg) && MappedFaultType(parse, error).Some? ==>
      r == ErrorMessageMap[MappedFaultType(parse, error).value]
    ensures !RawErrors(cfg) && MappedFaultType(parse, error).None? ==> r == UnknownErrorMessage
  {
    if RawErrors(cfg) then error
    else
      var k := MappedFaultType(parse, error);
      if k.Some? then ErrorMessageMap[k.value] else ErrorMessageMap[UnknownExceptionType]
  }

  /** "Unknown error" comes out exactly when no mapped type is found or the
      type is the one that maps to it. */
  lemma HumanizeUnknownExactly(cfg: Config, parse: string -> Option<Json>, error: string)
    requires !RawErrors(cfg)
    ensures HumanizeError(cfg, parse, error) == UnknownErrorMessage <==>
      MappedFaultType(parse, error) in {None, Some(UnknownExceptionType)}
  {
  }

  /** A serialised fault object whose `error_type` is a mapped type humanises
      to that type's message, whatever other fields it carries, given a codec
      under which the fault survives serialisation. */
  lemma HumanizeKnownFault(cfg: Config, codec: JsonCodec, fields: map<string, Json>, k: string)
    requires !RawErrors(cfg) && k in ErrorMessageMap
    requires "error_type" in fields && fields["error_type"] == JString(k)
    requires RoundTrips(codec, JObject(fields))
    ensures HumanizeError(cfg, codec.parse, codec.stringify(JObject(fields)).value) == ErrorMessageMap[k]
  {
  }

  /** An empty ATOMIADNS_RAW_ERRORS behaves as if it were not set. */
  lemma EmptyRawErrorsIsOff(soapUri: Option<string>, parse: string -> Option<Json>, error: string)
    ensures HumanizeError(Config(soapUri, Some([])), parse, error) == HumanizeError(Config(soapUri, None), parse, error)
  {
  }

  // ---------------------------------------------------------------------
  // Operation execution
  // ---------------------------------------------------------------------

  /** The caller's user; either field may be missing. */
  datatype User = User(email: Option<string>, token: Option<string>)

  /** How `executeOperation` ends after sending: the callback with a result,
      the callback with an error, or the session expiry that bypasses it. */
  datatype Reply = Ok(result: Json) | Err(error: Failure) | SessionExpired

  /** What `executeOperation` does, in order: invoke the callback, or log
      the caller out, or redirect the caller. */
  datatype Event = Callback(error: Option<Failure>, result: Option<Json>) | Logout | Redirect(url: string)

  function CallbackCount(trace: seq<Event>): nat {
    if trace == [] then 0 else (if trace[0].Callback? then 1 else 0) + CallbackCount(trace[1..])
  }

  /** The response classification of `executeOperation`, tested in the
      order: transport error, 200, 401..403, empty body, anything else. */
  function OperationReply(cfg: Config, parse: string -> Option<Json>, operation: string, resp: Response): (r: Reply)
    ensures r.Err? && r.error.Transport? <==> resp.TransportError?
    ensures resp.TransportError? ==> r.error.cause == resp.cause
    ensures r.SessionExpired? <==> IsAuthRejection(resp)
    ensures r.Ok? <==> resp.Http? && resp.status == 200 && resp.body.Some? && parse(resp.body.value).Some?
    ensures r.Ok? ==> parse(resp.body.value) == Some(r.result)
    ensures resp.Http? && resp.status == 200 && !r.Ok? ==> r == Err(Message(InvalidJsonPrefix + operation))
    ensures resp.Http? && resp.status != 200 && !IsAuthRejection(resp) && (resp.body.None? || resp.body.value == []) ==>
      r == Err(Message(InvalidStatusPrefix + operation))
    ensures resp.Http? && resp.status != 200 && !IsAuthRejection(resp) && resp.body.Some? && resp.body.value != [] ==>
      r == Err(Message(HumanizeError(cfg, parse, resp.body.value)))
    ensures !RawErrors(cfg) && r.Err? && r.error.Message? ==>
      r.error.text in {InvalidJsonPrefix + operation, InvalidStatusPrefix + operation} + ErrorMessageMap.Values
  {
    match resp
    case TransportError(e) => Err(Transport(e))
    case Http(status, _, body) =>
      if status == 200 then
        if body.Some? && parse(body.value).Some? then Ok(parse(body.value).value)
        else Err(Message(InvalidJsonPrefix + operation))
      else if 401 <= status <= 403 then SessionExpired
      else if body.None? || body.value == [] then Err(Message(InvalidStatusPrefix + operation))
      else Err(Message(HumanizeError(cfg, parse, body.value)))
  }

  /** `executeOperation`.  With the operation, the user, its email or its
      token missing, nothing is sent and the callback gets the invalid-input
      error.  Otherwise the request carries the email and the token (never a
      password) and the serialised arguments; the reply then becomes one
      callback, or, for 401..403, a logout followed by a redirect to the
      caller's URL with no callback at all. */
  method ExecuteOperation(cfg: Config, codec: JsonCodec, post: Request -> Response, reqUrl: string,
                          user: Option<User>, operation: Option<string>, args: Json)
    returns (sent: Option<Request>, trace: seq<Event>)
    ensures sent.Some? <==>
      operation.Some? && user.Some? && user.value.email.Some? && user.value.token.Some?
    ensures sent.None? ==> trace == [Callback(Some(Message(InvalidInputMessage)), None)]
    ensures sent.Some? ==> sent.value == Request(
      BaseUri(cfg) + operation.value,
      map[UsernameHeader := user.value.email.value, TokenHeader := user.value.token.value],
      codec.stringify(args))
    ensures sent.Some? ==>
      match OperationReply(cfg, codec.parse, operation.value, post(sent.value))
      case Ok(v) => trace == [Callback(None, Some(v))]
      case Err(f) => trace == [Callback(Some(f), None)]
      case SessionExpired => trace == [Logout, Redirect(reqUrl)]
    ensures CallbackCount(trace) == if sent.Some? && IsAuthRejection(post(sent.value)) then 0 else 1
    ensures forall e :: e in trace && e.Callback? ==> (e.error.Some? <==> e.result.None?)
  {
    if operation.None? || user.None? || user.value.email.None? || user.value.token.None? {
      sent := None;
      trace := [Callback(Some(Message(InvalidInputMessage)), None)];
      assert trace[1..] == [];
      assert CallbackCount(trace) == 1;
      return;
    }

    var operationReq := GetOperationRequest(cfg, operation.value, user.value.email.value, user.value.token, None);
    operationReq := operationReq.(body := codec.stringify(args));
    sent := Some(operationReq);

    match OperationReply(cfg, codec.parse, operation.value, post(operationReq)) {
      case Ok(v) =>
        trace := [Callback(None, Some(v))];
        assert trace[1..] == [];
      case Err(f) =>
        trace := [Callback(Some(f), None)];
        assert trace[1..] == [];
      case SessionExpired =>
        trace := [Logout];
        trace := trace + [Redirect(reqUrl)];
        assert trace[1..][1..] == [];
        assert CallbackCount(trace) == 0;
    }
  }
}
