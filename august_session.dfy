/**
 * The session manager of the August client: request options, request bodies,
 * and the login / identity probe / two-factor handshake that produces a session.
 */
module AugustSession {
  import opened Wrappers
  import opened Json
  import opened Http

  /** Why a call fails. */
  datatype Error =
    | InvalidCredentials(status: int)  // login refused: "Invalid user credentials: <status>"
    | NullishProperty                  // a property read on an undefined or null body (a TypeError)
    | UnknownDoorStatus(state: Json)   // "Unknown door status: <state>"

  /** What the caller gives `StartSession`; `code` is the two-factor code, if any. */
  datatype SessionOptions = SessionOptions(
    apiKey: string, uuid: string, idType: string, identifier: string, password: string, code: Option<string>)

  /** The value of a session at one moment. */
  datatype SessionState = SessionState(apiKey: string, idType: string, identifier: string, token: string)

  /** A session; only the handshake changes its token. */
  class Session {
    const apiKey: string
    const idType: string
    const identifier: string
    var token: string

    constructor (apiKey: string, idType: string, identifier: string, token: string)
      ensures View() == SessionState(apiKey, idType, identifier, token)
    {
      this.apiKey := apiKey;
      this.idType := idType;
      this.identifier := identifier;
      this.token := token;
    }

    function View(): SessionState
      reads this
    {
      SessionState(apiKey, idType, identifier, token)
    }
  }

  /** The value of a result that holds a session. */
  function ViewOf(r: Result<Session, Error>): Result<SessionState, Error>
    reads if r.Success? then {r.value} else {}
  {
    match r
    case Success(s) => Success(s.View())
    case Failure(e) => Failure(e)
  }

  const Hostname := "api-production.august.com"
  const Port := 443
  const ApiKeyHeader := "x-august-api-key"
  const KeaseApiKeyHeader := "x-kease-api-key"
  const AccessTokenHeader := "x-august-access-token"

  const LoginPath := "/session"
  const MePath := "/users/me"

  function SendCodePath(idType: string): string { "/validation/" + idType }
  function ValidatePath(idType: string): string { "/validate/" + idType }

  /** The headers every request carries. */
  function BaseHeaders(apiKey: string): map<string, string>
  {
    map[ApiKeyHeader := apiKey, KeaseApiKeyHeader := apiKey, "Content-Type" := "application/json",
        "Accept-Version" := "0.0.1", "User-Agent" := "August/Luna-3.2.2"]
  }

  /**
   * The options of a request to the vendor's host, given the access token of
   * the session it is made with, if any.
   */
  function OptionsFor(apiKey: string, path: string, verb: Verb, token: Option<string>): RequestOptions
  {
    var headers := BaseHeaders(apiKey);
    RequestOptions(Hostname, Port, path, verb,
                   if token.Some? then headers[AccessTokenHeader := token.value] else headers)
  }

  /**
   * Builds the options of a request: both API-key headers carry the key, and
   * the access-token header is added exactly when there is a session.
   */
  method GetRequestOptions(apiKey: string, path: string, verb: Verb, session: Session?) returns (options: RequestOptions)
    ensures options.hostname == Hostname && options.port == Port && options.path == path && options.verb == verb
    ensures ApiKeyHeader in options.headers && options.headers[ApiKeyHeader] == apiKey
    ensures KeaseApiKeyHeader in options.headers && options.headers[KeaseApiKeyHeader] == apiKey
    ensures AccessTokenHeader in options.headers <==> session != null
    ensures session != null ==> options.headers[AccessTokenHeader] == session.token
    ensures options.headers.Keys == BaseHeaders(apiKey).Keys + (if session != null then {AccessTokenHeader} else {})
    ensures forall h :: h in BaseHeaders(apiKey) ==> options.headers[h] == BaseHeaders(apiKey)[h]
    ensures options == OptionsFor(apiKey, path, verb, if session == null then None else Some(session.token))
  {
    var headers := BaseHeaders(apiKey);
    if session != null {
      headers := headers[AccessTokenHeader := session.token];
    }
    options := RequestOptions(Hostname, Port, path, verb, headers);
  }

  /** The login body: the identifier qualified by its type, the password and the install id. */
  function LoginBody(o: SessionOptions): Json
  {
    JObject([("identifier", JString(o.idType + ":" + o.identifier)),
             ("password", JString(o.password)),
             ("installId", JString(o.uuid))])
  }

  lemma LoginBodyMembers(o: SessionOptions)
    ensures var body := LoginBody(o);
      && |body.fields| == 3
      && Get(body, "identifier") == Some(JString(o.idType + ":" + o.identifier))
      && Get(body, "password") == Some(JString(o.password))
      && Get(body, "installId") == Some(JString(o.uuid))
  {
    var fields := LoginBody(o).fields;
    assert fields[..2][..1] == fields[..1];
    assert Lookup(fields[..1], "identifier") == Some(fields[0].1);
    assert Lookup(fields[..2], "password") == Some(fields[1].1);
  }

  /** The send-code body names the identifier the code goes to. */
  function SendCodeBody(identifier: string): Json
  {
    JObject([("value", JString(identifier))])
  }

  lemma SendCodeBodyMembers(identifier: string)
    ensures var body := SendCodeBody(identifier);
      |body.fields| == 1 && Get(body, "value") == Some(JString(identifier))
  {
  }

  /**
   * The validate body: the code, then the identifier under a member named by
   * the identifier type (which replaces the code when that type is "code").
   */
  function ValidateBody(code: string, idType: string, identifier: string): Json
  {
    JObject(Put([("code", JString(code))], idType, JString(identifier)))
  }

  lemma ValidateBodyMembers(code: string, idType: string, identifier: string)
    ensures idType != "code" ==>
              ValidateBody(code, idType, identifier) == JObject([("code", JString(code)), (idType, JString(identifier))])
    ensures idType == "code" ==> ValidateBody(code, idType, identifier) == JObject([("code", JString(identifier))])
    ensures Get(ValidateBody(code, idType, identifier), idType) == Some(JString(identifier))
  {
  }

  function LoginRequest(o: SessionOptions): Request
  {
    Request(OptionsFor(o.apiKey, LoginPath, POST, None), Some(LoginBody(o)))
  }

  function ProbeRequest(s: SessionState): Request
  {
    Request(OptionsFor(s.apiKey, MePath, GET, Some(s.token)), None)
  }

  function SendCodeRequest(s: SessionState): Request
  {
    Request(OptionsFor(s.apiKey, SendCodePath(s.idType), POST, Some(s.token)), Some(SendCodeBody(s.identifier)))
  }

  function ValidateRequest(code: string, s: SessionState): Request
  {
    Request(OptionsFor(s.apiKey, ValidatePath(s.idType), POST, Some(s.token)),
            Some(ValidateBody(code, s.idType, s.identifier)))
  }

  /** A login response is accepted when its status is 200 and its user id is truthy. */
  predicate LoginAccepted(response: Response)
  {
    response.status == 200 && response.payload.Some? && Truthy(Get(response.payload.value, "userId"))
  }

  /** What a login response makes of the caller's options. */
  function LoginOutcome(o: SessionOptions, response: Response): (r: Result<SessionState, Error>)
    ensures r.Success? <==> LoginAccepted(response)
    ensures r.Success? ==> r.value == SessionState(o.apiKey, o.idType, o.identifier, response.token)
    ensures r.Failure? && response.status != 200 ==> r.error == InvalidCredentials(response.status)
    ensures r.Failure? && response.status == 200 ==>
              r.error == if response.payload in {None, Some(JNull)} then NullishProperty else InvalidCredentials(200)
  {
    if response.status != 200 then Failure(InvalidCredentials(response.status))
    else if response.payload.None? || response.payload.value == JNull then Failure(NullishProperty)
    else if !Truthy(Get(response.payload.value, "userId")) then Failure(InvalidCredentials(response.status))
    else Success(SessionState(o.apiKey, o.idType, o.identifier, response.token))
  }

  /** A code is supplied when it is neither undefined nor empty. */
  predicate HasCode(code: Option<string>)
  {
    code.Some? && code.value != ""
  }

  /** The exchanges a handshake makes, and the session it ends with. */
  datatype Handshaken = Handshaken(exchanges: seq<Exchange>, result: Result<SessionState, Error>)

  /**
   * The two-factor step after a refused probe: a code send when no code is
   * supplied, otherwise a validation, followed by a code send when it fails.
   */
  function TwoFactor(code: Option<string>, respond: Responder, history: seq<Exchange>, s: SessionState): (out: Handshaken)
    ensures out.result.Success? && 1 <= |out.exchanges| <= 2
  {
    if !HasCode(code) then
      Handshaken([Exchanged(respond, history, SendCodeRequest(s))], Success(s))
    else
      var validate := Exchanged(respond, history, ValidateRequest(code.value, s));
      if validate.response.status != 200 then
        Handshaken([validate, Exchanged(respond, history + [validate], SendCodeRequest(s))], Success(s))
      else
        Handshaken([validate], Success(s.(token := validate.response.token)))
  }

  /**
   * The steps after an accepted login: the identity probe, then nothing when it
   * is accepted and the two-factor step when it is refused.
   */
  function AfterLogin(code: Option<string>, respond: Responder, history: seq<Exchange>, s: SessionState): (out: Handshaken)
    ensures out.result.Success? && 1 <= |out.exchanges| <= 3
    ensures out.exchanges[0] == Exchanged(respond, history, ProbeRequest(s))
  {
    var probe := Exchanged(respond, history, ProbeRequest(s));
    if probe.response.status == 200 then
      Handshaken([probe], Success(s))
    else
      var rest := TwoFactor(code, respond, history + [probe], s);
      Handshaken([probe] + rest.exchanges, rest.result)
  }

  /**
   * The handshake as a function of the service's answers: login, identity
   * probe, then nothing, a code send, or a validation followed on failure by
   * a fresh code send.
   */
  function Handshake(o: SessionOptions, respond: Responder, history: seq<Exchange>): (out: Handshaken)
    ensures 1 <= |out.exchanges| <= 4
    ensures out.exchanges[0] == Exchanged(respond, history, LoginRequest(o))
    ensures out.result.Success? <==> LoginAccepted(out.exchanges[0].response)
    ensures out.result.Success? ==> |out.exchanges| >= 2
  {
    var login := Exchanged(respond, history, LoginRequest(o));
    match LoginOutcome(o, login.response)
    case Failure(e) => Handshaken([login], Failure(e))
    case Success(s) =>
      var rest := AfterLogin(o.code, respond, history + [login], s);
      Handshaken([login] + rest.exchanges, rest.result)
  }

  /** An exchange issues a session token when it is an accepted login or an accepted code validation. */
  predicate IssuesToken(e: Exchange, idType: string)
  {
    || (e.request.options.path == LoginPath && LoginAccepted(e.response))
    || (e.request.options.path == ValidatePath(idType) && e.response.status == 200)
  }

  /** The token of the last exchange of `log` that issued one. */
  function LastIssuedToken(log: seq<Exchange>, idType: string): Option<string>
  {
    if log == [] then None
    else if IssuesToken(log[|log| - 1], idType) then Some(log[|log| - 1].response.token)
    else LastIssuedToken(log[..|log| - 1], idType)
  }

  lemma LastIssuedTokenAppend(log: seq<Exchange>, e: Exchange, idType: string)
    ensures LastIssuedToken(log + [e], idType) ==
              if IssuesToken(e, idType) then Some(e.response.token) else LastIssuedToken(log, idType)
  {
  }

  lemma {:induction false} RequestsToConcat(a: seq<Exchange>, b: seq<Exchange>, path: string)
    ensures RequestsTo(a + b, path) == RequestsTo(a, path) + RequestsTo(b, path)
  {
    if b != [] {
      var last := b[|b| - 1];
      assert (a + b)[..|a + b| - 1] == a + b[..|b| - 1];
      RequestsToConcat(a, b[..|b| - 1], path);
      assert RequestsTo([last], path) == if last.request.options.path == path then 1 else 0 by {
        assert [last][..0] == [];
      }
    } else {
      assert a + b == a;
    }
  }

  lemma RequestsToSingle(e: Exchange, path: string)
    ensures RequestsTo([e], path) == if e.request.options.path == path then 1 else 0
  {
  }

  /** The paths of the four handshake requests differ from one another. */
  lemma HandshakePathsDistinct(idType: string)
    ensures LoginPath != SendCodePath(idType) && LoginPath != ValidatePath(idType)
    ensures MePath != SendCodePath(idType) && MePath != ValidatePath(idType)
    ensures SendCodePath(idType) != ValidatePath(idType) && LoginPath != MePath
  {
  }

  /** A refused login ends the handshake: one request, and the login's error. */
  lemma LoginRefusalIsFinal(o: SessionOptions, respond: Responder, history: seq<Exchange>)
    requires Handshake(o, respond, history).result.Failure?
    ensures var out := Handshake(o, respond, history);
      && out.exchanges == [Exchanged(respond, history, LoginRequest(o))]
      && out.result == LoginOutcome(o, out.exchanges[0].response)
      && !LoginAccepted(out.exchanges[0].response)
  {
  }

  /** An accepted identity probe needs no second factor: no code is sent or validated, and the login token stays. */
  lemma AcceptedProbeSkipsTwoFactor(o: SessionOptions, respond: Responder, history: seq<Exchange>)
    requires Handshake(o, respond, history).result.Success?
    requires Handshake(o, respond, history).exchanges[1].response.status == 200
    ensures var out := Handshake(o, respond, history);
      && |out.exchanges| == 2
      && out.exchanges[1].request == ProbeRequest(out.result.value)
      && RequestsTo(out.exchanges, SendCodePath(o.idType)) == 0
      && RequestsTo(out.exchanges, ValidatePath(o.idType)) == 0
      && out.result.value.token == out.exchanges[0].response.token
  {
  }

  /**
   * A refused probe and no code: exactly one code is sent, to the session's
   * identifier, and the session keeps the login token.
   */
  lemma MissingCodeSendsOneCode(o: SessionOptions, respond: Responder, history: seq<Exchange>)
    requires Handshake(o, respond, history).result.Success?
    requires Handshake(o, respond, history).exchanges[1].response.status != 200
    requires !HasCode(o.code)
    ensures var out := Handshake(o, respond, history);
      && |out.exchanges| == 3
      && out.exchanges[2].request == SendCodeRequest(out.result.value)
      && RequestsTo(out.exchanges, SendCodePath(o.idType)) == 1
      && RequestsTo(out.exchanges, ValidatePath(o.idType)) == 0
      && out.result.value.token == out.exchanges[0].response.token
  {
    var out := Handshake(o, respond, history);
    var ex := out.exchanges;
    HandshakePathsDistinct(o.idType);
    assert ex == [ex[0]] + [ex[1]] + [ex[2]];
    forall path | path in {SendCodePath(o.idType), ValidatePath(o.idType)}
      ensures RequestsTo(ex, path) == RequestsTo([ex[0]], path) + RequestsTo([ex[1]], path) + RequestsTo([ex[2]], path)
    {
      RequestsToConcat([ex[0]] + [ex[1]], [ex[2]], path);
      RequestsToConcat([ex[0]], [ex[1]], path);
    }
    RequestsToSingle(ex[0], SendCodePath(o.idType));
    RequestsToSingle(ex[1], SendCodePath(o.idType));
    RequestsToSingle(ex[2], SendCodePath(o.idType));
    RequestsToSingle(ex[0], ValidatePath(o.idType));
    RequestsToSingle(ex[1], ValidatePath(o.idType));
    RequestsToSingle(ex[2], ValidatePath(o.idType));
  }

  /**
   * A refused probe and a code: exactly one validation is made with that code.
   * When it is accepted its token becomes the session's and no code is sent;
   * otherwise exactly one fresh code is sent and the login token stays.
   */
  lemma SuppliedCodeValidatesOnce(o: SessionOptions, respond: Responder, history: seq<Exchange>)
    requires Handshake(o, respond, history).result.Success?
    requires Handshake(o, respond, history).exchanges[1].response.status != 200
    requires HasCode(o.code)
    ensures var out := Handshake(o, respond, history);
      var s := LoginOutcome(o, out.exchanges[0].response).value;
      && |out.exchanges| >= 3
      && out.exchanges[2].request == ValidateRequest(o.code.value, s)
      && RequestsTo(out.exchanges, ValidatePath(o.idType)) == 1
      && (out.exchanges[2].response.status == 200 ==>
            && |out.exchanges| == 3
            && RequestsTo(out.exchanges, SendCodePath(o.idType)) == 0
            && out.result.value == s.(token := out.exchanges[2].response.token))
      && (out.exchanges[2].response.status != 200 ==>
            && |out.exchanges| == 4
            && out.exchanges[3].request == SendCodeRequest(s)
            && RequestsTo(out.exchanges, SendCodePath(o.idType)) == 1
            && out.result.value == s)
  {
    var out := Handshake(o, respond, history);
    var ex := out.exchanges;
    HandshakePathsDistinct(o.idType);
    forall path | path in {SendCodePath(o.idType), ValidatePath(o.idType)}
      ensures RequestsTo(ex, path) == RequestsTo([ex[0]], path) + RequestsTo([ex[1]], path) + RequestsTo(ex[2..], path)
    {
      assert ex == [ex[0]] + [ex[1]] + ex[2..];
      RequestsToConcat([ex[0]] + [ex[1]], ex[2..], path);
      RequestsToConcat([ex[0]], [ex[1]], path);
    }
    RequestsToSingle(ex[0], SendCodePath(o.idType));
    RequestsToSingle(ex[1], SendCodePath(o.idType));
    RequestsToSingle(ex[0], ValidatePath(o.idType));
    RequestsToSingle(ex[1], ValidatePath(o.idType));
    RequestsToSingle(ex[2], SendCodePath(o.idType));
    RequestsToSingle(ex[2], ValidatePath(o.idType));
    if |ex| == 4 {
      assert ex[2..] == [ex[2]] + [ex[3]];
      RequestsToConcat([ex[2]], [ex[3]], SendCodePath(o.idType));
      RequestsToConcat([ex[2]], [ex[3]], ValidatePath(o.idType));
      RequestsToSingle(ex[3], SendCodePath(o.idType));
      RequestsToSingle(ex[3], ValidatePath(o.idType));
    } else {
      assert ex[2..] == [ex[2]];
    }
  }

  /** The session's token is always the one issued by the handshake's last accepted login or validation. */
  lemma TokenIsLastIssued(o: SessionOptions, respond: Responder, history: seq<Exchange>)
    requires Handshake(o, respond, history).result.Success?
    ensures var out := Handshake(o, respond, history);
      LastIssuedToken(out.exchanges, o.idType) == Some(out.result.value.token)
  {
    var out := Handshake(o, respond, history);
    var ex := out.exchanges;
    HandshakePathsDistinct(o.idType);
    LastIssuedTokenAppend([], ex[0], o.idType);
    assert [ex[0]] == [] + [ex[0]];
    LastIssuedTokenAppend([ex[0]], ex[1], o.idType);
    assert ex[..2] == [ex[0]] + [ex[1]];
    if |ex| >= 3 {
      LastIssuedTokenAppend(ex[..2], ex[2], o.idType);
      assert ex[..3] == ex[..2] + [ex[2]];
    }
    if |ex| == 4 {
      LastIssuedTokenAppend(ex[..3], ex[3], o.idType);
      assert ex == ex[..3] + [ex[3]];
    }
  }

  /** Logs in: the session is built from the options and the response's token. */
  method Login(options: SessionOptions, server: Server) returns (r: Result<Session, Error>)
    modifies server
    ensures server.log == old(server.log) + [Exchanged(server.respond, old(server.log), LoginRequest(options))]
    ensures ViewOf(r) == LoginOutcome(options, server.log[|server.log| - 1].response)
    ensures r.Success? ==> fresh(r.value)
  {
    var data := LoginBody(options);
    var requestOptions := GetRequestOptions(options.apiKey, LoginPath, POST, null);
    var res := server.MakeRequest(Request(requestOptions, Some(data)));
    match LoginOutcome(options, res)
    case Failure(e) =>
      r := Failure(e);
    case Success(s) =>
      var session := new Session(s.apiKey, s.idType, s.identifier, s.token);
      r := Success(session);
  }

  /** The identity probe. */
  method GetMe(session: Session, server: Server) returns (response: Response)
    modifies server
    ensures server.log == old(server.log) + [Exchanged(server.respond, old(server.log), ProbeRequest(session.View()))]
    ensures response == server.log[|server.log| - 1].response
  {
    var options := GetRequestOptions(session.apiKey, MePath, GET, session);
    response := server.MakeRequest(Request(options, None));
  }

  /** Asks the service to send a code to the session's identifier. */
  method SendCode(session: Session, server: Server) returns (response: Response)
    modifies server
    ensures server.log == old(server.log) + [Exchanged(server.respond, old(server.log), SendCodeRequest(session.View()))]
    ensures response == server.log[|server.log| - 1].response
  {
    var data := SendCodeBody(session.identifier);
    var options := GetRequestOptions(session.apiKey, SendCodePath(session.idType), POST, session);
    response := server.MakeRequest(Request(options, Some(data)));
  }

  /** Submits a code for validation. */
  method ValidateCode(code: string, session: Session, server: Server) returns (response: Response)
    modifies server
    ensures server.log == old(server.log) + [Exchanged(server.respond, old(server.log), ValidateRequest(code, session.View()))]
    ensures response == server.log[|server.log| - 1].response
  {
    var payload := [("code", JString(code))];
    payload := Put(payload, session.idType, JString(session.identifier));
    var options := GetRequestOptions(session.apiKey, ValidatePath(session.idType), POST, session);
    response := server.MakeRequest(Request(options, Some(JObject(payload))));
  }

  /** The two-factor step of `StartSession`, taken after a refused probe. */
  method VerifySession(code: Option<string>, session: Session, server: Server)
    modifies server, session
    ensures server.log == old(server.log) + TwoFactor(code, server.respond, old(server.log), old(session.View())).exchanges
    ensures session.View() == TwoFactor(code, server.respond, old(server.log), old(session.View())).result.value
  {
    ghost var history, s := server.log, session.View();
    if !HasCode(code) {
      var sent := SendCode(session, server);
    } else {
      var resp := ValidateCode(code.value, session, server);
      ghost var validate := Exchanged(server.respond, history, ValidateRequest(code.value, s));
      if resp.status != 200 {
        var sent := SendCode(session, server);
        assert server.log == history + [validate, Exchanged(server.respond, history + [validate], SendCodeRequest(s))];
      } else {
        session.token := resp.token;
      }
    }
  }

  /** The steps of `StartSession` after an accepted login: the identity probe and, when it is refused, the two-factor step. */
  method ConfirmSession(code: Option<string>, session: Session, server: Server)
    modifies server, session
    ensures server.log == old(server.log) + AfterLogin(code, server.respond, old(server.log), old(session.View())).exchanges
    ensures session.View() == AfterLogin(code, server.respond, old(server.log), old(session.View())).result.value
  {
    ghost var history, s := server.log, session.View();
    var me := GetMe(session, server);
    if me.status != 200 {
      VerifySession(code, session, server);
      assert server.log == history + AfterLogin(code, server.respond, history, s).exchanges;
    }
  }

  /**
   * Starts a session: logs in, probes the identity endpoint and, when the probe
   * is refused, sends or validates a two-factor code. It makes at most four
   * requests and never retries.
   */
  method StartSession(options: SessionOptions, server: Server) returns (r: Result<Session, Error>)
    modifies server
    ensures server.log == old(server.log) + Handshake(options, server.respond, old(server.log)).exchanges
    ensures ViewOf(r) == Handshake(options, server.respond, old(server.log)).result
    ensures r.Success? ==> fresh(r.value)
  {
    var login := Login(options, server);
    if login.Failure? {
      return login;
    }
    var session := login.value;
    ConfirmSession(options.code, session, server);
    r := Success(session);
  }
}
