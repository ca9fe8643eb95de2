/** The two runs of `authenticate` that src/services/solid.service.test.ts
    sets up, against a server that answers each request of the handshake.
    The test queues its replies in call order; since the five requests of
    a run are distinct, answering by request is the same server. */
module HandshakeScenarios {
  import opened Wrappers
  import opened SolidService

  const Issuer: string := "http://localhost:3000/"
  const AccountUrl: string := "http://localhost:3000/.account/"
  const LoginUrl: string := "http://localhost:3000/.account/login/password"
  const CredentialsUrl: string := "http://localhost:3000/.account/my/credentials"
  const TokenUrl: string := "http://localhost:3000/.oidc/token"

  const NoFields: Payload := Payload(None, None, None, None, None)

  const IndexReply: Reply :=
    Json(NoFields.(controls := Some(Controls(Some(PasswordControls(Some(LoginUrl))), None))))
  const LoginReply: Reply := Json(NoFields.(authorization := Some("mock_account_token")))
  const AuthIndexReply: Reply :=
    Json(NoFields.(controls := Some(Controls(None, Some(AccountControls(Some(CredentialsUrl)))))))
  const CredentialsReply: Reply := Json(NoFields.(id := Some("mock_client_id"), secret := Some("mock_client_secret")))
  const TokenReply: Reply := Json(NoFields.(accessToken := Some("mock_access_token")))

  /** The mocked server of the successful test. */
  function MockedServer(request: Request): Reply {
    if request.url == AccountUrl && "authorization" !in request.headers then IndexReply
    else if request.url == LoginUrl then LoginReply
    else if request.url == AccountUrl then AuthIndexReply
    else if request.url == CredentialsUrl then CredentialsReply
    else if request.url == TokenUrl then TokenReply
    else Rejected(PlainError("unexpected request"))
  }

  /** The failing test's server: every reply is `{ error: 'Server Error' }`,
      an object without any of the fields the handshake reads. */
  function FailingServer(request: Request): Reply {
    Json(NoFields)
  }

  lemma LocalPartOfTestEmail()
    ensures LocalPart("test@example.com") == "test"
  {
    var email := "test@example.com";
    assert email[4] == '@' && '@' !in email[..4];
    assert FirstIndex(email[4..], '@') == 0;
    assert FirstIndex(email[3..], '@') == 1;
    assert FirstIndex(email[2..], '@') == 2;
    assert FirstIndex(email[1..], '@') == 3;
    assert FirstIndex(email, '@') == 4;
  }

  const TestEmail: string := "test@example.com"
  const TestWebId: string := "http://localhost:3000/test/profile/card#me"

  function TestContext(key: DpopKey): Context {
    Context(Some(TestEmail), Some("password"), Issuer, key)
  }

  /** The steps of the successful test after the first. */
  const LoginStep: Step := Login(Some(LoginUrl))
  const RediscoveryStep: Step := Rediscovery(Some("mock_account_token"))
  const CredentialsStep: Step := ClientCredentials(Some(CredentialsUrl), Some("mock_account_token"), TestWebId)
  const TokenStep: Step := Token(Some("mock_client_id"), Some("mock_client_secret"))

  // What the mocked server answers to each request of the run, one
  // request at a time.

  lemma DiscoveryAnswered(key: DpopKey)
    ensures var c := StepRequest(Discovery, TestContext(key));
      c.url == AccountUrl && MockedServer(c) == IndexReply
  {
    assert AccountApiUrl(Issuer) == AccountUrl;
  }

  lemma LoginAnswered(key: DpopKey)
    ensures var c := StepRequest(LoginStep, TestContext(key));
      c.url == LoginUrl && MockedServer(c) == LoginReply
  {
    assert LoginUrl != AccountUrl;
  }

  lemma RediscoveryAnswered(key: DpopKey)
    ensures var c := StepRequest(RediscoveryStep, TestContext(key));
      c.url == AccountUrl && MockedServer(c) == AuthIndexReply
  {
    assert AccountApiUrl(Issuer) == AccountUrl;
    assert AccountUrl != LoginUrl;
  }

  lemma CredentialsAnswered(key: DpopKey)
    ensures var c := StepRequest(CredentialsStep, TestContext(key));
      && c.url == CredentialsUrl
      && c.body == Some(ClientCredentialsBody("mcp-demo-token", TestWebId))
      && MockedServer(c) == CredentialsReply
  {
    assert CredentialsUrl != AccountUrl && CredentialsUrl != LoginUrl;
  }

  lemma TokenAnswered(key: DpopKey)
    ensures var c := StepRequest(TokenStep, TestContext(key));
      c.url == TokenUrl && MockedServer(c) == TokenReply
  {
    assert TokenEndpoint(Issuer) == TokenUrl;
    assert TokenUrl != AccountUrl && TokenUrl != LoginUrl && TokenUrl != CredentialsUrl;
  }

  /** The third reply leads to the client-credentials step for the test
      user's WebID. */
  lemma RediscoveryAdvances(key: DpopKey)
    ensures Advance(RediscoveryStep, AuthIndexReply, TestContext(key)) == Next(CredentialsStep)
  {
    TestUserWebId();
  }

  lemma TestUserWebId()
    ensures WebId(Issuer, TestEmail) == TestWebId
  {
    LocalPartOfTestEmail();
    calc {
      WebId(Issuer, TestEmail);
      Issuer + "test" + "/profile/card#me";
    }
  }

  // The mocked run from each step on, from the last step back to the first.

  lemma RunFromToken(key: DpopKey)
    ensures var ctx := TestContext(key);
      Run(TokenStep, ctx, MockedServer)
        == Trace([StepRequest(TokenStep, ctx)], Success(AuthFetch(Some("mock_access_token"), key)))
  {
    TokenAnswered(key);
  }

  lemma RunFromCredentials(key: DpopKey)
    ensures var ctx := TestContext(key);
      Run(CredentialsStep, ctx, MockedServer)
        == Trace([StepRequest(CredentialsStep, ctx), StepRequest(TokenStep, ctx)],
                 Success(AuthFetch(Some("mock_access_token"), key)))
  {
    CredentialsAnswered(key);
    RunFromToken(key);
  }

  lemma RunFromRediscovery(key: DpopKey)
    ensures var ctx := TestContext(key);
      Run(RediscoveryStep, ctx, MockedServer)
        == Trace([StepRequest(RediscoveryStep, ctx), StepRequest(CredentialsStep, ctx), StepRequest(TokenStep, ctx)],
                 Success(AuthFetch(Some("mock_access_token"), key)))
  {
    RediscoveryAnswered(key);
    RediscoveryAdvances(key);
    RunFromCredentials(key);
  }

  lemma RunFromLogin(key: DpopKey)
    ensures var ctx := TestContext(key);
      Run(LoginStep, ctx, MockedServer)
        == Trace([StepRequest(LoginStep, ctx), StepRequest(RediscoveryStep, ctx), StepRequest(CredentialsStep, ctx),
                  StepRequest(TokenStep, ctx)],
                 Success(AuthFetch(Some("mock_access_token"), key)))
  {
    LoginAnswered(key);
    RunFromRediscovery(key);
  }

  /** The successful test: five requests, the first to the account API and
      the last to the token endpoint, the WebID of the test user, and the
      authenticated fetch built from the mocked access token. */
  lemma MockedLoginSucceeds(key: DpopKey)
    ensures var t := Handshake(Some(TestEmail), Some("password"), Some(Issuer), key, MockedServer);
      && |t.calls| == 5
      && t.calls[0].url == AccountUrl
      && t.calls[1].url == LoginUrl
      && t.calls[2].url == AccountUrl
      && t.calls[3].url == CredentialsUrl
      && t.calls[3].body == Some(ClientCredentialsBody("mcp-demo-token", TestWebId))
      && t.calls[4].url == TokenUrl
      && t.outcome == Success(AuthFetch(Some("mock_access_token"), key))
  {
    var ctx := TestContext(key);
    assert Interpolate(Some(Issuer)) == Issuer;
    DiscoveryAnswered(key);
    LoginAnswered(key);
    RediscoveryAnswered(key);
    CredentialsAnswered(key);
    TokenAnswered(key);
    RunFromLogin(key);
  }

  /** The failing test: the first reply has no `controls`, so the run
      stops after one request with the TypeError of reading `password`. */
  lemma ServerErrorFails(key: DpopKey)
    ensures var t := Handshake(Some("test@example.com"), Some("password"), Some(Issuer), key, FailingServer);
      && t.calls == [DiscoveryRequest(Issuer)]
      && t.outcome == Failure(ReadOfUndefined("password"))
  {
  }
}
