/** What the handshake of `SolidCssMcpService.authenticate`
    (src/services/solid.service.ts) promises, stated over its trace. */
module HandshakeFacts {
  import opened Wrappers
  import opened SolidService

  /** The fields the five steps destructure from their replies, in order. */
  const DestructuredFields: seq<string> := ["controls", "authorization", "controls", "id", "access_token"]

  /** A run never makes more requests than it has steps left, always makes
      the request of the step it starts at, and succeeds only after making
      all of them. */
  lemma {:induction false} RunLength(step: Step, ctx: Context, respond: Request -> Reply)
    ensures var t := Run(step, ctx, respond);
      && 1 <= |t.calls| <= Remaining(step)
      && t.calls[0] == StepRequest(step, ctx)
      && (t.outcome.Success? ==> |t.calls| == Remaining(step))
    decreases Remaining(step)
  {
    var call := StepRequest(step, ctx);
    var p := Advance(step, respond(call), ctx);
    if p.Next? {
      RunLength(p.step, ctx, respond);
    }
  }

  /** A run goes on only after an object reply, and reads the field of
      the step it stopped at from the last reply: a rejection there is
      passed on unchanged, a `null` there fails the destructuring, and a
      success needs an object there too. */
  lemma {:induction false} RunReplies(step: Step, ctx: Context, respond: Request -> Reply)
    ensures var t := Run(step, ctx, respond);
      var last := |t.calls| - 1;
      && 0 <= last < Remaining(step)
      && (forall i :: 0 <= i < last ==> respond(t.calls[i]).Json?)
      && (respond(t.calls[last]).Rejected? ==> t.outcome == Failure(respond(t.calls[last]).reason))
      && (respond(t.calls[last]).NullJson? ==>
            t.outcome == Failure(DestructureOfNull(DestructuredFields[5 - Remaining(step) + last])))
      && (t.outcome.Success? ==> respond(t.calls[last]).Json?)
    decreases Remaining(step)
  {
    var t := Run(step, ctx, respond);
    var call := StepRequest(step, ctx);
    var p := Advance(step, respond(call), ctx);
    RunLength(step, ctx, respond);
    if p.Next? {
      var u := Run(p.step, ctx, respond);
      RunReplies(p.step, ctx, respond);
      assert t.calls == [call] + u.calls;
      forall i | 0 <= i < |t.calls| - 1
        ensures respond(t.calls[i]).Json?
      {
        if i > 0 {
          assert t.calls[i] == u.calls[i - 1];
        }
      }
    }
  }

  /** A run succeeds exactly when it made the requests of all the steps
      left and the last of them was answered with an object; the
      credential then holds that reply's access token and the run's key. */
  lemma {:induction false} RunSucceeds(step: Step, ctx: Context, respond: Request -> Reply)
    ensures var t := Run(step, ctx, respond);
      && (t.outcome.Success? <==> |t.calls| == Remaining(step) && respond(t.calls[|t.calls| - 1]).Json?)
      && (t.outcome.Success? ==>
            t.outcome.value == AuthFetch(respond(t.calls[|t.calls| - 1]).payload.accessToken, ctx.key))
    decreases Remaining(step)
  {
    var t := Run(step, ctx, respond);
    var call := StepRequest(step, ctx);
    var p := Advance(step, respond(call), ctx);
    RunLength(step, ctx, respond);
    if p.Next? {
      RunSucceeds(p.step, ctx, respond);
      var u := Run(p.step, ctx, respond);
      assert t.calls == [call] + u.calls && t.calls[|t.calls| - 1] == u.calls[|u.calls| - 1];
    }
  }

  /** The handshake as a whole: one to five requests, the first to the
      account API, and it succeeds only after all five. */
  lemma HandshakeLength(email: Option<string>, password: Option<string>, oidcIssuer: Option<string>,
                        key: DpopKey, respond: Request -> Reply)
    ensures var t := Handshake(email, password, oidcIssuer, key, respond);
      && 1 <= |t.calls| <= 5
      && t.calls[0] == DiscoveryRequest(Interpolate(oidcIssuer))
      && (t.outcome.Success? ==> |t.calls| == 5)
  {
    RunLength(Discovery, Context(email, password, Interpolate(oidcIssuer), key), respond);
  }

  /** A rejected request ends the handshake at once, with that very error. */
  lemma RejectionEndsHandshake(email: Option<string>, password: Option<string>, oidcIssuer: Option<string>,
                               key: DpopKey, respond: Request -> Reply, i: nat)
    requires var t := Handshake(email, password, oidcIssuer, key, respond);
      i < |t.calls| && respond(t.calls[i]).Rejected?
    ensures var t := Handshake(email, password, oidcIssuer, key, respond);
      i == |t.calls| - 1 && t.outcome == Failure(respond(t.calls[i]).reason)
  {
    RunReplies(Discovery, Context(email, password, Interpolate(oidcIssuer), key), respond);
  }

  /** A `null` reply ends the handshake with the TypeError of
      destructuring the field that step reads. */
  lemma NullEndsHandshake(email: Option<string>, password: Option<string>, oidcIssuer: Option<string>,
                          key: DpopKey, respond: Request -> Reply, i: nat)
    requires var t := Handshake(email, password, oidcIssuer, key, respond);
      i < |t.calls| && respond(t.calls[i]).NullJson?
    ensures var t := Handshake(email, password, oidcIssuer, key, respond);
      i == |t.calls| - 1 && i < |DestructuredFields| && t.outcome == Failure(DestructureOfNull(DestructuredFields[i]))
  {
    RunReplies(Discovery, Context(email, password, Interpolate(oidcIssuer), key), respond);
  }

  /** The steps a run passes through, the one it starts at first. */
  function Steps(step: Step, ctx: Context, respond: Request -> Reply): seq<Step>
    decreases Remaining(step)
  {
    match Advance(step, respond(StepRequest(step, ctx)), ctx)
    case Next(later) => [step] + Steps(later, ctx, respond)
    case _ => [step]
  }

  /** A run is the chain of its steps: the `i`-th request is the request
      of the `i`-th step, and each step but the last moves on to the next
      one on its reply. */
  lemma {:induction false} RunFollowsSteps(step: Step, ctx: Context, respond: Request -> Reply)
    ensures var t := Run(step, ctx, respond);
      var s := Steps(step, ctx, respond);
      var last := |s| - 1;
      && |s| == |t.calls| && s[0] == step
      && (forall i :: 0 <= i < |s| ==> t.calls[i] == StepRequest(s[i], ctx))
      && (forall i :: 0 <= i < last ==> Advance(s[i], respond(t.calls[i]), ctx) == Next(s[i + 1]))
    decreases Remaining(step)
  {
    var t := Run(step, ctx, respond);
    var s := Steps(step, ctx, respond);
    var call := StepRequest(step, ctx);
    var p := Advance(step, respond(call), ctx);
    if p.Next? {
      RunFollowsSteps(p.step, ctx, respond);
      var u := Run(p.step, ctx, respond);
      var v := Steps(p.step, ctx, respond);
      assert t.calls == [call] + u.calls && s == [step] + v;
      forall i | 0 <= i < |s|
        ensures t.calls[i] == StepRequest(s[i], ctx)
      {
        if i > 0 { assert t.calls[i] == u.calls[i - 1] && s[i] == v[i - 1]; }
      }
      forall i | 0 <= i < |s| - 1
        ensures Advance(s[i], respond(t.calls[i]), ctx) == Next(s[i + 1])
      {
        if i > 0 { assert t.calls[i] == u.calls[i - 1] && s[i] == v[i - 1] && s[i + 1] == v[i]; }
      }
    }
  }

  /** The last step of a run is the one that did not move on: its
      reply ended the run, with that step's credential or error. */
  lemma {:induction false} RunEndsAtLastStep(step: Step, ctx: Context, respond: Request -> Reply)
    ensures var t := Run(step, ctx, respond);
      var s := Steps(step, ctx, respond);
      |s| == |t.calls| > 0 &&
      var p := Advance(s[|s| - 1], respond(t.calls[|s| - 1]), ctx);
      && !p.Next?
      && (p.Done? ==> t.outcome == Success(p.fetch))
      && (p.Abort? ==> t.outcome == Failure(p.error))
    decreases Remaining(step)
  {
    var t := Run(step, ctx, respond);
    var s := Steps(step, ctx, respond);
    var call := StepRequest(step, ctx);
    var p := Advance(step, respond(call), ctx);
    if p.Next? {
      RunEndsAtLastStep(p.step, ctx, respond);
      var u := Run(p.step, ctx, respond);
      var v := Steps(p.step, ctx, respond);
      assert t.calls == [call] + u.calls && s == [step] + v;
      assert s[|s| - 1] == v[|v| - 1] && t.calls[|s| - 1] == u.calls[|v| - 1];
    }
  }

  /** Each step of a run is one step further along than the one before. */
  predicate CountsDown(s: seq<Step>, start: nat) {
    forall i :: 0 <= i < |s| ==> Remaining(s[i]) + i == start
  }

  lemma {:induction false} StepsCountDown(step: Step, ctx: Context, respond: Request -> Reply)
    ensures CountsDown(Steps(step, ctx, respond), Remaining(step))
    decreases Remaining(step)
  {
    var s := Steps(step, ctx, respond);
    var p := Advance(step, respond(StepRequest(step, ctx)), ctx);
    if p.Next? {
      StepsCountDown(p.step, ctx, respond);
      var v := Steps(p.step, ctx, respond);
      assert CountsDown(v, Remaining(p.step));
      assert s == [step] + v && Remaining(p.step) + 1 == Remaining(step);
      forall i | 0 <= i < |s|
        ensures Remaining(s[i]) + i == Remaining(step)
      {
        if i > 0 {
          assert s[i] == v[i - 1];
        }
      }
    }
  }

  /** The run succeeds exactly when all five requests were made and the
      token endpoint answered with an object. */
  lemma SuccessIff(email: Option<string>, password: Option<string>, oidcIssuer: Option<string>,
                   key: DpopKey, respond: Request -> Reply)
    ensures var t := Handshake(email, password, oidcIssuer, key, respond);
      t.outcome.Success? <==> |t.calls| == 5 && respond(t.calls[4]).Json?
  {
    RunSucceeds(Discovery, Context(email, password, Interpolate(oidcIssuer), key), respond);
  }

  /** The five requests of a successful run, each built from the replies
      before it, and the credential built from the last reply and the key. */
  lemma SuccessfulRun(email: Option<string>, password: Option<string>, oidcIssuer: Option<string>,
                      key: DpopKey, respond: Request -> Reply)
    requires Handshake(email, password, oidcIssuer, key, respond).outcome.Success?
    ensures var t := Handshake(email, password, oidcIssuer, key, respond);
      var base := Interpolate(oidcIssuer);
      && |t.calls| == 5
      && var r := (i: nat) requires i < 5 => respond(t.calls[i]);
      && OffersLogin(r(0)) && r(1).Json? && email.Some? && OffersClientCredentials(r(2))
      && r(3).Json? && r(4).Json?
      && t.calls[0] == DiscoveryRequest(base)
      && t.calls[1] == LoginRequest(LoginLink(r(0)), email, password)
      && t.calls[2] == AuthorizedDiscoveryRequest(base, r(1).payload.authorization)
      && t.calls[3] == ClientCredentialsRequest(ClientCredentialsLink(r(2)), r(1).payload.authorization,
                                                WebId(base, email.value))
      && t.calls[4] == TokenRequest(base, r(3).payload.id, r(3).payload.secret, key)
      && t.outcome.value == AuthFetch(r(4).payload.accessToken, key)
  {
    var base := Interpolate(oidcIssuer);
    var ctx := Context(email, password, base, key);
    var t := Run(Discovery, ctx, respond);
    var s := Steps(Discovery, ctx, respond);
    RunFollowsSteps(Discovery, ctx, respond);
    RunSucceeds(Discovery, ctx, respond);
    RunLength(Discovery, ctx, respond);
    RunReplies(Discovery, ctx, respond);
    var r := (i: nat) requires i < 5 => respond(t.calls[i]);
    assert Advance(s[0], r(0), ctx) == Next(s[1]);
    assert s[1] == Login(LoginLink(r(0)));
    assert Advance(s[1], r(1), ctx) == Next(s[2]);
    assert s[2] == Rediscovery(r(1).payload.authorization);
    assert Advance(s[2], r(2), ctx) == Next(s[3]);
    assert s[3] == ClientCredentials(ClientCredentialsLink(r(2)), r(1).payload.authorization, WebId(base, email.value));
    assert Advance(s[3], r(3), ctx) == Next(s[4]);
  }

  /** The steps of a run come in the handshake's fixed order. */
  lemma StepOrder(step: Step, ctx: Context, respond: Request -> Reply)
    requires step.Discovery?
    ensures var s := Steps(step, ctx, respond);
      && |s| <= 5
      && forall i :: 0 <= i < |s| ==>
           && (i == 0 <==> s[i].Discovery?) && (i == 1 <==> s[i].Login?) && (i == 2 <==> s[i].Rediscovery?)
           && (i == 3 <==> s[i].ClientCredentials?) && (i == 4 <==> s[i].Token?)
  {
    StepsCountDown(step, ctx, respond);
    var s := Steps(step, ctx, respond);
    assert |s| > 0;
    assert Remaining(s[|s| - 1]) + (|s| - 1) == 5;
    forall i | 0 <= i < |s|
      ensures && (i == 0 <==> s[i].Discovery?) && (i == 1 <==> s[i].Login?) && (i == 2 <==> s[i].Rediscovery?)
              && (i == 3 <==> s[i].ClientCredentials?) && (i == 4 <==> s[i].Token?)
    {
      assert Remaining(s[i]) + i == 5;
    }
  }

  /** The requests of any run, in order: GET the account API, POST the
      login, GET the account API again, POST the credentials request, POST
      to the token endpoint of the same server. */
  lemma RequestOrder(email: Option<string>, password: Option<string>, oidcIssuer: Option<string>,
                     key: DpopKey, respond: Request -> Reply)
    ensures var t := Handshake(email, password, oidcIssuer, key, respond);
      var base := Interpolate(oidcIssuer);
      forall i :: 0 <= i < |t.calls| ==>
        && t.calls[i].verb == (if i == 0 || i == 2 then GET else POST)
        && (i == 0 || i == 2 ==> t.calls[i].url == AccountApiUrl(base))
        && (i == 4 ==> t.calls[i].url == TokenEndpoint(base))
  {
    var ctx := Context(email, password, Interpolate(oidcIssuer), key);
    RunFollowsSteps(Discovery, ctx, respond);
    StepOrder(Discovery, ctx, respond);
  }

  /** Calls 3 and 4 carry the account token the login reply gave,
      whatever it was, in the CSS-Account-Token scheme. */
  lemma AccountTokenCarried(email: Option<string>, password: Option<string>, oidcIssuer: Option<string>,
                            key: DpopKey, respond: Request -> Reply)
    ensures var t := Handshake(email, password, oidcIssuer, key, respond);
      forall i :: 2 <= i < |t.calls| && i <= 3 ==>
        && respond(t.calls[1]).Json?
        && "authorization" in t.calls[i].headers
        && t.calls[i].headers["authorization"] ==
             Plain(AccountTokenAuthorization(respond(t.calls[1]).payload.authorization))
  {
    var ctx := Context(email, password, Interpolate(oidcIssuer), key);
    var t := Run(Discovery, ctx, respond);
    var s := Steps(Discovery, ctx, respond);
    RunFollowsSteps(Discovery, ctx, respond);
    StepOrder(Discovery, ctx, respond);
    if |t.calls| > 2 {
      assert Advance(s[1], respond(t.calls[1]), ctx) == Next(s[2]);
      assert s[2] == Rediscovery(respond(t.calls[1]).payload.authorization);
      if |t.calls| > 3 {
        assert Advance(s[2], respond(t.calls[2]), ctx) == Next(s[3]);
        assert s[3].accountToken == s[2].accountToken;
      }
    }
  }

  /** The credentials request asks for the WebID of the email's local
      part on the same server, under the fixed token name. */
  lemma WebIdRequested(email: Option<string>, password: Option<string>, oidcIssuer: Option<string>,
                       key: DpopKey, respond: Request -> Reply)
    ensures var t := Handshake(email, password, oidcIssuer, key, respond);
      |t.calls| > 3 ==>
        && email.Some?
        && t.calls[3].body == Some(ClientCredentialsBody("mcp-demo-token",
             Interpolate(oidcIssuer) + LocalPart(email.value) + "/profile/card#me"))
  {
    var ctx := Context(email, password, Interpolate(oidcIssuer), key);
    var t := Run(Discovery, ctx, respond);
    var s := Steps(Discovery, ctx, respond);
    RunFollowsSteps(Discovery, ctx, respond);
    StepOrder(Discovery, ctx, respond);
    if |t.calls| > 3 {
      assert Advance(s[2], respond(t.calls[2]), ctx) == Next(s[3]);
    }
  }

  /** The fifth request, whenever it is made, is the token request for
      the client id and secret of the fourth reply. */
  lemma FifthRequest(email: Option<string>, password: Option<string>, oidcIssuer: Option<string>,
                     key: DpopKey, respond: Request -> Reply)
    ensures var t := Handshake(email, password, oidcIssuer, key, respond);
      |t.calls| == 5 ==>
        && respond(t.calls[3]).Json?
        && t.calls[4] == TokenRequest(Interpolate(oidcIssuer), respond(t.calls[3]).payload.id,
                                      respond(t.calls[3]).payload.secret, key)
  {
    var ctx := Context(email, password, Interpolate(oidcIssuer), key);
    var t := Run(Discovery, ctx, respond);
    var s := Steps(Discovery, ctx, respond);
    RunFollowsSteps(Discovery, ctx, respond);
    StepOrder(Discovery, ctx, respond);
    if |t.calls| == 5 {
      assert Advance(s[3], respond(t.calls[3]), ctx) == Next(s[4]);
    }
  }

  /** The token request authenticates with the client id and secret,
      which the token endpoint reads back exactly, asks for the
      client-credentials grant, and carries a DPoP proof bound to the token
      endpoint, POST and the key. */
  lemma TokenRequestParts(base: string, id: Option<string>, secret: Option<string>, key: DpopKey)
    ensures var request := TokenRequest(base, id, secret, key);
      && request.url == TokenEndpoint(base) && request.verb == POST
      && "authorization" in request.headers && HeaderText(request.headers["authorization"]).Some?
      && ParseBasicAuthorization(HeaderText(request.headers["authorization"]).value) ==
           Some((Interpolate(id), Interpolate(secret)))
      && "dpop" in request.headers && request.headers["dpop"] == DpopProof(TokenEndpoint(base), POST, key)
      && request.body == Some(FormBody("grant_type=client_credentials&scope=webid"))
  {
    var request := TokenRequest(base, id, secret, key);
    assert request.headers["authorization"] == Basic(id, secret);
    assert HeaderText(Basic(id, secret)) == Some(BasicAuthorization(id, secret));
    BasicAuthorizationRoundTrip(id, secret);
  }

  /** An object reply ends the handshake exactly when a field the step
      reads from it is missing, with the TypeError of reading a property
      of `undefined`: at the discovery step `controls` or
      `controls.password`; at the second discovery the email (split for
      the WebID first), then `controls` or `controls.account`. The login
      and credentials steps always move on, and the token step ends the
      run with success. */
  lemma MissingFieldEndsHandshake(email: Option<string>, password: Option<string>, oidcIssuer: Option<string>,
                                  key: DpopKey, respond: Request -> Reply, i: nat)
    requires var t := Handshake(email, password, oidcIssuer, key, respond);
      i < |t.calls| && respond(t.calls[i]).Json?
    ensures var t := Handshake(email, password, oidcIssuer, key, respond);
      var reply := respond(t.calls[i]);
      var controls := reply.payload.controls;
      var ends := i == |t.calls| - 1;
      && (i == 0 ==> (ends <==> !OffersLogin(reply)))
      && (i == 0 && controls.None? ==> ends && t.outcome == Failure(ReadOfUndefined("password")))
      && (i == 0 && controls.Some? && controls.value.password.None? ==>
            ends && t.outcome == Failure(ReadOfUndefined("login")))
      && (i == 2 ==> (ends <==> email.None? || !OffersClientCredentials(reply)))
      && (i == 2 && email.None? ==> ends && t.outcome == Failure(ReadOfUndefined("split")))
      && (i == 2 && email.Some? && controls.None? ==> ends && t.outcome == Failure(ReadOfUndefined("account")))
      && (i == 2 && email.Some? && controls.Some? && controls.value.account.None? ==>
            ends && t.outcome == Failure(ReadOfUndefined("clientCredentials")))
      && (i == 1 || i == 3 ==> !ends)
      && (i == 4 ==> ends && t.outcome.Success?)
  {
    var ctx := Context(email, password, Interpolate(oidcIssuer), key);
    var t := Run(Discovery, ctx, respond);
    StepEnds(ctx, respond, i);
    AdvanceOnObject(Steps(Discovery, ctx, respond)[i], respond(t.calls[i]), ctx);
  }

  /** Step `i` of a handshake ends it exactly when its reply does not
      move it on, and then the outcome is what that reply gave. */
  lemma StepEnds(ctx: Context, respond: Request -> Reply, i: nat)
    requires i < |Run(Discovery, ctx, respond).calls|
    ensures var t := Run(Discovery, ctx, respond);
      var s := Steps(Discovery, ctx, respond);
      i < |s| &&
      var p := Advance(s[i], respond(t.calls[i]), ctx);
      && (i == 0 ==> s[i].Discovery?) && (i == 1 ==> s[i].Login?) && (i == 2 ==> s[i].Rediscovery?)
      && (i == 3 ==> s[i].ClientCredentials?) && (i == 4 ==> s[i].Token?)
      && (i == |t.calls| - 1 <==> !p.Next?)
      && (p.Done? ==> t.outcome == Success(p.fetch))
      && (p.Abort? ==> t.outcome == Failure(p.error))
  {
    var t := Run(Discovery, ctx, respond);
    var s := Steps(Discovery, ctx, respond);
    RunFollowsSteps(Discovery, ctx, respond);
    RunEndsAtLastStep(Discovery, ctx, respond);
    StepOrder(Discovery, ctx, respond);
    if i < |t.calls| - 1 {
      assert Advance(s[i], respond(t.calls[i]), ctx) == Next(s[i + 1]);
    }
  }

  /** The second request, whenever it is made, posts the email and
      password to the login link of the first reply, which offered one. */
  lemma LoginRequested(email: Option<string>, password: Option<string>, oidcIssuer: Option<string>,
                       key: DpopKey, respond: Request -> Reply)
    ensures var t := Handshake(email, password, oidcIssuer, key, respond);
      |t.calls| > 1 ==>
        && OffersLogin(respond(t.calls[0]))
        && t.calls[1] == LoginRequest(LoginLink(respond(t.calls[0])), email, password)
  {
    var ctx := Context(email, password, Interpolate(oidcIssuer), key);
    var t := Run(Discovery, ctx, respond);
    var s := Steps(Discovery, ctx, respond);
    RunFollowsSteps(Discovery, ctx, respond);
    StepOrder(Discovery, ctx, respond);
    if |t.calls| > 1 {
      assert Advance(s[0], respond(t.calls[0]), ctx) == Next(s[1]);
    }
  }

  /** The fourth request, whenever it is made, posts to the
      client-credentials link of the third reply, which offered one, with
      the account token of the second reply and the email's WebID. */
  lemma CredentialsRequested(email: Option<string>, password: Option<string>, oidcIssuer: Option<string>,
                             key: DpopKey, respond: Request -> Reply)
    ensures var t := Handshake(email, password, oidcIssuer, key, respond);
      |t.calls| > 3 ==>
        && email.Some? && respond(t.calls[1]).Json? && OffersClientCredentials(respond(t.calls[2]))
        && t.calls[3] == ClientCredentialsRequest(ClientCredentialsLink(respond(t.calls[2])),
                                                  respond(t.calls[1]).payload.authorization,
                                                  WebId(Interpolate(oidcIssuer), email.value))
  {
    var ctx := Context(email, password, Interpolate(oidcIssuer), key);
    var t := Run(Discovery, ctx, respond);
    var s := Steps(Discovery, ctx, respond);
    RunFollowsSteps(Discovery, ctx, respond);
    StepOrder(Discovery, ctx, respond);
    if |t.calls| > 3 {
      assert Advance(s[1], respond(t.calls[1]), ctx) == Next(s[2]);
      assert Advance(s[2], respond(t.calls[2]), ctx) == Next(s[3]);
    }
  }
}
