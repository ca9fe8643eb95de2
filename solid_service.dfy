/** `SolidCssMcpService` (src/services/solid.service.ts): one credential
    slot, the guard that reads it, and the five-call handshake against a
    Community Solid Server that fills it.

    HTTP is an oracle: `Network.respond` gives the parsed JSON reply (or the
    rejection) for each request. Within one handshake no request repeats,
    so a function of the request can stand for any sequence of replies. */
module SolidService {
  import opened Wrappers
  import Utf8
  import UriComponent
  import Base64

  // ---------------------------------------------------------------------
  // Errors

  /** The error values the core throws or lets through. */
  datatype JsError =
    | /** `new SolidToolError(message, status)` */
      SolidToolError(message: string, status: int)
    | /** an `Error` carrying a numeric `statusCode` field (0 is falsy) */
      CodedError(message: string, statusCode: int)
    | /** any other `Error`, such as the TypeError of a missing field */
      PlainError(message: string)

  const NotAuthenticatedMessage: string :=
    "Not authenticated. Please login first using the 'solid_login' tool."

  /** The TypeError V8 throws when a property of `undefined` is read. */
  function ReadOfUndefined(property: string): JsError {
    PlainError("Cannot read properties of undefined (reading '" + property + "')")
  }

  /** The TypeError V8 throws when `const { p } = null`. */
  function DestructureOfNull(property: string): JsError {
    PlainError("Cannot destructure property '" + property + "' of '(intermediate value)' as it is null.")
  }

  /** A possibly-undefined value inside a template string: `${v}`. */
  function Interpolate(v: Option<string>): string {
    match v
    case Some(s) => s
    case None => "undefined"
  }

  // ---------------------------------------------------------------------
  // Values produced by the authentication library

  /** The key pair `generateDpopKeyPair()` returned, by an opaque handle. */
  datatype DpopKey = DpopKey(handle: nat)

  /** What `buildAuthenticatedFetch(accessToken, { dpopKey })` built,
      recorded by its two inputs. */
  datatype AuthFetch = AuthFetch(accessToken: Option<string>, dpopKey: DpopKey)

  // ---------------------------------------------------------------------
  // Requests and replies

  datatype HttpMethod = GET | POST

  datatype HeaderValue =
    | Plain(text: string)
    | /** HTTP Basic client authentication, sent as the text
          `BasicAuthorization(id, secret)` */
      Basic(id: Option<string>, secret: Option<string>)
    | /** `createDpopHeader(htu, htm, key)`, recorded by its inputs */
      DpopProof(htu: string, htm: HttpMethod, key: DpopKey)

  /** Request bodies; a JSON body lists its fields, and `JSON.stringify`
      drops a field whose value is undefined. */
  datatype Body =
    | LoginBody(email: Option<string>, password: Option<string>)
    | ClientCredentialsBody(name: string, webId: string)
    | FormBody(text: string)

  datatype Request = Request(url: string, verb: HttpMethod, headers: map<string, HeaderValue>, body: Option<Body>)

  datatype PasswordControls = PasswordControls(login: Option<string>)
  datatype AccountControls = AccountControls(clientCredentials: Option<string>)
  datatype Controls = Controls(password: Option<PasswordControls>, account: Option<AccountControls>)

  /** The fields the handshake reads from a JSON reply; None is absent. */
  datatype Payload = Payload(
    controls: Option<Controls>,
    authorization: Option<string>,
    id: Option<string>,
    secret: Option<string>,
    accessToken: Option<string>)

  /** What `await (await fetch(...)).json()` yields: a rejection of either
      promise, the JSON `null`, or an object. */
  datatype Reply = Rejected(reason: JsError) | NullJson | Json(payload: Payload)

  /** `const { field } = await (await fetch(...)).json()`: a rejection is
      passed on, destructuring `null` throws, an object is read. */
  function Destructure(reply: Reply, field: string): (r: Result<Payload, JsError>)
    ensures r.Success? <==> reply.Json?
    ensures r.Success? ==> r.value == reply.payload
    ensures reply.Rejected? ==> r == Failure(reply.reason)
    ensures reply.NullJson? ==> r == Failure(DestructureOfNull(field))
  {
    match reply
    case Rejected(e) => Failure(e)
    case NullJson => Failure(DestructureOfNull(field))
    case Json(payload) => Success(payload)
  }

  // ---------------------------------------------------------------------
  // Derived strings

  function AccountApiUrl(base: string): string {
    base + ".account/"
  }

  function TokenEndpoint(base: string): string {
    base + ".oidc/token"
  }

  function AccountTokenAuthorization(token: Option<string>): string {
    "CSS-Account-Token " + Interpolate(token)
  }

  /** The index of the first `c` in `s`, or `|s|` when there is none. */
  function FirstIndex(s: string, c: char): (i: nat)
    ensures i <= |s|
    ensures c !in s[..i]
    ensures forall j :: 0 <= j < i ==> s[j] != c
    ensures i < |s| ==> s[i] == c
  {
    if s == [] || s[0] == c then 0
    else
      var j := FirstIndex(s[1..], c);
      assert s[..j + 1] == [s[0]] + s[1..][..j];
      j + 1
  }

  /** `email.split('@')[0]`: the text before the first `@`, or all of it. */
  function LocalPart(email: string): (local: string)
    ensures local <= email && '@' !in local
    ensures local == email || email[|local|] == '@'
  {
    email[..FirstIndex(email, '@')]
  }

  function WebId(base: string, email: string): string {
    base + LocalPart(email) + "/profile/card#me"
  }

  const ClientCredentialsName: string := "mcp-demo-token"

  const TokenRequestBody: string := "grant_type=client_credentials&scope=webid"

  /** `${encodeURIComponent(clientId)}:${encodeURIComponent(clientSecret)}` */
  function ClientAuthString(id: Option<string>, secret: Option<string>): string {
    UriComponent.Encode(Interpolate(id)) + ":" + UriComponent.Encode(Interpolate(secret))
  }

  /** `Basic ${Buffer.from(authString).toString('base64')}` */
  function BasicAuthorization(id: Option<string>, secret: Option<string>): string {
    "Basic " + Base64.Encode(Utf8.Encode(ClientAuthString(id, secret)))
  }

  /** The user-pass of HTTP Basic client authentication: split at the
      first colon, each half URL-decoded (section 2.3.1 of RFC 6749). */
  function SplitUserPass(pair: string): Option<(string, string)> {
    var colon := FirstIndex(pair, ':');
    if colon == |pair| then None
    else match (UriComponent.Decode(pair[..colon]), UriComponent.Decode(pair[colon + 1..]))
      case (Some(user), Some(pass)) => Some((user, pass))
      case _ => None
  }

  /** How a token endpoint reads an `authorization` header of the Basic
      scheme: base64 and UTF-8 (section 2 of RFC 7617), then the user-pass. */
  function ParseBasicAuthorization(header: string): Option<(string, string)> {
    if |header| < 6 || header[..6] != "Basic " then None
    else match Base64.Decode(header[6..])
      case None => None
      case Some(bytes) =>
        match Utf8.Decode(bytes)
        case None => None
        case Some(pair) => SplitUserPass(pair)
  }

  lemma SplitEncodedUserPass(user: string, pass: string)
    ensures SplitUserPass(UriComponent.Encode(user) + ":" + UriComponent.Encode(pass)) == Some((user, pass))
  {
    var u := UriComponent.Encode(user);
    var pair := u + ":" + UriComponent.Encode(pass);
    UriComponent.EncodeHasNoColon(user);
    assert pair[..|u|] == u && pair[|u|] == ':';
    assert FirstIndex(pair, ':') == |u|;
    assert pair[|u| + 1..] == UriComponent.Encode(pass);
    UriComponent.RoundTrip(user);
    UriComponent.RoundTrip(pass);
  }

  lemma ParseBasicOfText(pair: string)
    ensures ParseBasicAuthorization("Basic " + Base64.Encode(Utf8.Encode(pair))) == SplitUserPass(pair)
  {
    var header := "Basic " + Base64.Encode(Utf8.Encode(pair));
    assert header[..6] == "Basic " && header[6..] == Base64.Encode(Utf8.Encode(pair));
    Base64.RoundTrip(Utf8.Encode(pair));
    Utf8.RoundTrip(pair);
  }

  /** The token endpoint recovers exactly the client id and secret that
      were sent, whatever characters they hold. */
  lemma BasicAuthorizationRoundTrip(id: Option<string>, secret: Option<string>)
    ensures ParseBasicAuthorization(BasicAuthorization(id, secret)) == Some((Interpolate(id), Interpolate(secret)))
  {
    ParseBasicOfText(ClientAuthString(id, secret));
    SplitEncodedUserPass(Interpolate(id), Interpolate(secret));
  }

  /** The text a header is sent as; a DPoP proof is a signed token that
      is not modelled as text. */
  function HeaderText(h: HeaderValue): Option<string> {
    match h
    case Plain(text) => Some(text)
    case Basic(id, secret) => Some(BasicAuthorization(id, secret))
    case DpopProof(_, _, _) => None
  }

  // ---------------------------------------------------------------------
  // The five requests

  /** Call 1: `fetch(`${cssBase}.account/`)`. */
  function DiscoveryRequest(base: string): Request {
    Request(AccountApiUrl(base), GET, map[], None)
  }

  /** Call 2: POST the email and password to the password-login control. */
  function LoginRequest(link: Option<string>, email: Option<string>, password: Option<string>): Request {
    Request(Interpolate(link), POST, map["content-type" := Plain("application/json")],
      Some(LoginBody(email, password)))
  }

  /** Call 3: the account API again, with the account token. */
  function AuthorizedDiscoveryRequest(base: string, token: Option<string>): Request {
    Request(AccountApiUrl(base), GET, map["authorization" := Plain(AccountTokenAuthorization(token))], None)
  }

  /** Call 4: POST a client-credentials request for the WebID. */
  function ClientCredentialsRequest(link: Option<string>, token: Option<string>, webId: string): Request {
    Request(Interpolate(link), POST,
      map["authorization" := Plain(AccountTokenAuthorization(token)),
          "content-type" := Plain("application/json")],
      Some(ClientCredentialsBody(ClientCredentialsName, webId)))
  }

  /** Call 5: the client-credentials grant at the token endpoint. */
  function TokenRequest(base: string, id: Option<string>, secret: Option<string>, key: DpopKey): Request {
    Request(TokenEndpoint(base), POST,
      map["authorization" := Basic(id, secret),
          "content-type" := Plain("application/x-www-form-urlencoded"),
          "dpop" := DpopProof(TokenEndpoint(base), POST, key)],
      Some(FormBody(TokenRequestBody)))
  }

  // ---------------------------------------------------------------------
  // The handshake as a trace

  /** The requests made, in order, and how the run ended. */
  datatype Trace = Trace(calls: seq<Request>, outcome: Result<AuthFetch, JsError>)

  function Then(call: Request, rest: Trace): Trace {
    Trace([call] + rest.calls, rest.outcome)
  }

  function Stop(error: JsError): Trace {
    Trace([], Failure(error))
  }

  /** What a run carries from its start to its end. */
  datatype Context = Context(email: Option<string>, password: Option<string>, base: string, key: DpopKey)

  /** The five steps of the handshake, each holding what it took from the
      replies before it. */
  datatype Step =
    | Discovery
    | Login(link: Option<string>)
    | Rediscovery(accountToken: Option<string>)
    | ClientCredentials(link: Option<string>, accountToken: Option<string>, webId: string)
    | Token(id: Option<string>, secret: Option<string>)

  /** The number of steps still to go, this one included. */
  function Remaining(step: Step): nat {
    match step
    case Discovery => 5
    case Login(_) => 4
    case Rediscovery(_) => 3
    case ClientCredentials(_, _, _) => 2
    case Token(_, _) => 1
  }

  /** The request a step sends. */
  function StepRequest(step: Step, ctx: Context): Request {
    match step
    case Discovery => DiscoveryRequest(ctx.base)
    case Login(link) => LoginRequest(link, ctx.email, ctx.password)
    case Rediscovery(token) => AuthorizedDiscoveryRequest(ctx.base, token)
    case ClientCredentials(link, token, webId) => ClientCredentialsRequest(link, token, webId)
    case Token(id, secret) => TokenRequest(ctx.base, id, secret, ctx.key)
  }

  /** The field a step destructures from its JSON reply. */
  function DestructuredField(step: Step): string {
    match step
    case Discovery => "controls"
    case Login(_) => "authorization"
    case Rediscovery(_) => "controls"
    case ClientCredentials(_, _, _) => "id"
    case Token(_, _) => "access_token"
  }

  datatype Progress = Next(step: Step) | Done(fetch: AuthFetch) | Abort(error: JsError)

  /** What a step does with its reply: go on to a later step, finish with
      the authenticated fetch, or throw. */
  function Advance(step: Step, reply: Reply, ctx: Context): (p: Progress)
    ensures p.Next? ==> Remaining(p.step) == Remaining(step) - 1
    ensures p.Done? <==> step.Token? && reply.Json?
    ensures p.Done? ==> p.fetch == AuthFetch(reply.payload.accessToken, ctx.key)
    ensures reply.Rejected? ==> p == Abort(reply.reason)
    ensures reply.NullJson? ==> p == Abort(DestructureOfNull(DestructuredField(step)))
  {
    match Destructure(reply, DestructuredField(step))
    case Failure(e) => Abort(e)
    case Success(body) =>
      match step
      case Discovery =>
        if body.controls.None? then Abort(ReadOfUndefined("password"))
        else if body.controls.value.password.None? then Abort(ReadOfUndefined("login"))
        else Next(Login(body.controls.value.password.value.login))
      case Login(_) => Next(Rediscovery(body.authorization))
      case Rediscovery(token) =>
        // the WebID is derived before the controls are read
        if ctx.email.None? then Abort(ReadOfUndefined("split"))
        else if body.controls.None? then Abort(ReadOfUndefined("account"))
        else if body.controls.value.account.None? then Abort(ReadOfUndefined("clientCredentials"))
        else Next(ClientCredentials(body.controls.value.account.value.clientCredentials, token,
                                    WebId(ctx.base, ctx.email.value)))
      case ClientCredentials(_, _, _) => Next(Token(body.id, body.secret))
      case Token(_, _) => Done(AuthFetch(body.accessToken, ctx.key))
  }

  /** What a step does with an object reply: the discovery step reads
      `controls.password.login`; the second discovery derives the WebID
      from the email and then reads `controls.account.clientCredentials`;
      the login and credentials steps read fields that may be undefined
      and always move on. */
  lemma AdvanceOnObject(step: Step, reply: Reply, ctx: Context)
    requires reply.Json?
    ensures var p, controls := Advance(step, reply, ctx), reply.payload.controls;
      step.Discovery? ==>
        && (controls.None? ==> p == Abort(ReadOfUndefined("password")))
        && (controls.Some? && controls.value.password.None? ==> p == Abort(ReadOfUndefined("login")))
        && (OffersLogin(reply) ==> p == Next(Login(LoginLink(reply))))
    ensures var p, controls := Advance(step, reply, ctx), reply.payload.controls;
      step.Rediscovery? ==>
        && (ctx.email.None? ==> p == Abort(ReadOfUndefined("split")))
        && (ctx.email.Some? && controls.None? ==> p == Abort(ReadOfUndefined("account")))
        && (ctx.email.Some? && controls.Some? && controls.value.account.None? ==>
              p == Abort(ReadOfUndefined("clientCredentials")))
        && (ctx.email.Some? && OffersClientCredentials(reply) ==>
              p == Next(ClientCredentials(ClientCredentialsLink(reply), step.accountToken,
                                          WebId(ctx.base, ctx.email.value))))
    ensures step.Login? ==> Advance(step, reply, ctx) == Next(Rediscovery(reply.payload.authorization))
    ensures step.ClientCredentials? ==> Advance(step, reply, ctx) == Next(Token(reply.payload.id, reply.payload.secret))
  {
  }

  /** The run from `step` on. */
  function Run(step: Step, ctx: Context, respond: Request -> Reply): Trace
    decreases Remaining(step)
  {
    var call := StepRequest(step, ctx);
    match Advance(step, respond(call), ctx)
    case Next(later) => Then(call, Run(later, ctx, respond))
    case Done(fetch) => Trace([call], Success(fetch))
    case Abort(error) => Trace([call], Failure(error))
  }

  /** The run of `authenticate(email, password, oidcIssuer)`. */
  function Handshake(email: Option<string>, password: Option<string>, oidcIssuer: Option<string>,
                     key: DpopKey, respond: Request -> Reply): Trace
  {
    Run(Discovery, Context(email, password, Interpolate(oidcIssuer), key), respond)
  }

  /** Sending the next request of a run keeps "what was sent, then what
      remains" equal to the whole run. */
  lemma Resume(start: seq<Request>, whole: Trace, sent: seq<Request>, call: Request, next: Trace)
    requires sent + Then(call, next).calls == start + whole.calls && Then(call, next).outcome == whole.outcome
    ensures (sent + [call]) + next.calls == start + whole.calls && next.outcome == whole.outcome
  {
    assert sent + Then(call, next).calls == (sent + [call]) + next.calls;
  }


  // ---------------------------------------------------------------------
  // Reply shapes the handshake depends on

  /** A step-1 reply from which `controls.password.login` can be read. */
  predicate OffersLogin(r: Reply) {
    r.Json? && r.payload.controls.Some? && r.payload.controls.value.password.Some?
  }

  /** A step-3 reply from which `controls.account.clientCredentials` can be read. */
  predicate OffersClientCredentials(r: Reply) {
    r.Json? && r.payload.controls.Some? && r.payload.controls.value.account.Some?
  }

  function LoginLink(r: Reply): Option<string>
    requires OffersLogin(r)
  {
    r.payload.controls.value.password.value.login
  }

  function ClientCredentialsLink(r: Reply): Option<string>
    requires OffersClientCredentials(r)
  {
    r.payload.controls.value.account.value.clientCredentials
  }

  // ---------------------------------------------------------------------
  // The service object

  /** The HTTP client: every request handed to `fetch`, in order. */
  class Network {
    var sent: seq<Request>
    const respond: Request -> Reply

    constructor(respond: Request -> Reply)
      ensures sent == [] && this.respond == respond
    {
      sent := [];
      this.respond := respond;
    }

    method Fetch(request: Request) returns (reply: Reply)
      modifies this
      ensures sent == old(sent) + [request]
      ensures reply == respond(request)
    {
      sent := sent + [request];
      reply := respond(request);
    }

    /** `fetch` followed by `.json()` and the destructuring of `field`. */
    method FetchJson(request: Request, field: string) returns (r: Result<Payload, JsError>)
      modifies this
      ensures sent == old(sent) + [request]
      ensures r == Destructure(respond(request), field)
    {
      var reply := Fetch(request);
      r := Destructure(reply, field);
    }
  }

  class SolidCssMcpService {
    /** The single credential slot; None until an authentication succeeds. */
    var authFetch: Option<AuthFetch>

    constructor()
      ensures authFetch == None
    {
      authFetch := None;
    }

    /** The guard every data operation would pass through. */
    method GetAuthFetch() returns (r: Result<AuthFetch, JsError>)
      ensures authFetch.None? ==> r == Failure(SolidToolError(NotAuthenticatedMessage, 401))
      ensures authFetch.Some? ==> r == Success(authFetch.value)
    {
      if authFetch.None? {
        return Failure(SolidToolError(NotAuthenticatedMessage, 401));
      }
      return Success(authFetch.value);
    }

    /** The handshake; `dpopKey` is the key pair `generateDpopKeyPair()`
        yields for this run. The slot is written only when every step
        succeeded. */
    method Authenticate(email: Option<string>, password: Option<string>, oidcIssuer: Option<string>,
                        net: Network, dpopKey: DpopKey)
      returns (r: Result<AuthFetch, JsError>)
      modifies this, net
      ensures net.sent == old(net.sent) + Handshake(email, password, oidcIssuer, dpopKey, net.respond).calls
      ensures r == Handshake(email, password, oidcIssuer, dpopKey, net.respond).outcome
      ensures authFetch == if r.Success? then Some(r.value) else old(authFetch)
    {
      var cssBase := Interpolate(oidcIssuer);
      ghost var ctx := Context(email, password, cssBase, dpopKey);
      ghost var whole := Handshake(email, password, oidcIssuer, dpopKey, net.respond);
      ghost var start := net.sent;
      // at each step: what has been sent, then the run from that step, is the whole run
      assert net.sent + Run(Discovery, ctx, net.respond).calls == start + whole.calls;

      var call1 := DiscoveryRequest(cssBase);
      var index := net.FetchJson(call1, "controls");
      if index.Failure? { return Failure(index.error); }
      var indexControls := index.value.controls;
      if indexControls.None? { return Failure(ReadOfUndefined("password")); }
      if indexControls.value.password.None? { return Failure(ReadOfUndefined("login")); }
      var loginLink := indexControls.value.password.value.login;
      Resume(start, whole, start, call1, Run(Login(loginLink), ctx, net.respond));

      var call2 := LoginRequest(loginLink, email, password);
      ghost var sent := net.sent;
      var login := net.FetchJson(call2, "authorization");
      if login.Failure? { return Failure(login.error); }
      var authorization := login.value.authorization;
      Resume(start, whole, sent, call2, Run(Rediscovery(authorization), ctx, net.respond));

      var call3 := AuthorizedDiscoveryRequest(cssBase, authorization);
      sent := net.sent;
      var authIndex := net.FetchJson(call3, "controls");
      if authIndex.Failure? { return Failure(authIndex.error); }
      var authControls := authIndex.value.controls;
      if email.None? { return Failure(ReadOfUndefined("split")); }
      var webId := WebId(cssBase, email.value);
      if authControls.None? { return Failure(ReadOfUndefined("account")); }
      if authControls.value.account.None? { return Failure(ReadOfUndefined("clientCredentials")); }
      var credentialsLink := authControls.value.account.value.clientCredentials;
      Resume(start, whole, sent, call3, Run(ClientCredentials(credentialsLink, authorization, webId), ctx, net.respond));

      var call4 := ClientCredentialsRequest(credentialsLink, authorization, webId);
      sent := net.sent;
      var credentials := net.FetchJson(call4, "id");
      if credentials.Failure? { return Failure(credentials.error); }
      var clientId, clientSecret := credentials.value.id, credentials.value.secret;
      Resume(start, whole, sent, call4, Run(Token(clientId, clientSecret), ctx, net.respond));

      var call5 := TokenRequest(cssBase, clientId, clientSecret, dpopKey);
      var tokenReply := net.FetchJson(call5, "access_token");
      if tokenReply.Failure? { return Failure(tokenReply.error); }

      authFetch := Some(AuthFetch(tokenReply.value.accessToken, dpopKey));
      return Success(authFetch.value);
    }
  }
}
