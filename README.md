# solid-mcp in Dafny

This project models the core of solid-mcp. solid-mcp is a Model Context Protocol (MCP) server that lets an MCP client log into a Solid Pod hosted on a Community Solid Server (CSS) and then read, write, list and delete its resources. The model covers four parts:

- **`SolidCssMcpService`** (`solid_service.dfy`). It is a class with one credential slot, `authFetch`. `GetAuthFetch` is the guard that fails with status 401 while the slot is empty. `Authenticate` is the five-call handshake:
  1. account API discovery;
  2. password login;
  3. discovery again with the account token;
  4. a client-credentials request for the WebID;
  5. the client-credentials grant at the OIDC token endpoint, which uses HTTP Basic client authentication and a DPoP proof.

  HTTP is an oracle `respond: Request -> Reply` held by class `Network`, which records every request sent. `handshake_facts.dfy` states the order of the calls, what each call carries, and when the run aborts. `handshake_scenarios.dfy` replays the two unit tests against mocked servers. The Basic credential is modelled down to its bytes (`uri_component.dfy`, `utf8.dfy`, `base64.dfy`), so that a token endpoint's reading of it can be proved to recover the client id and secret.
- **The Solid tools** (`solid_tools.dfy`). This file covers:
  - `handleSolidError`, with a parser of its texts that proves the three wordings are distinct and carry the status or message (`decimal.dfy` renders numbers);
  - the five tool handlers, which never reject. The data operations `readResource`, `writeResource`, `listContainer` and `deleteResource` are an oracle `Pod`;
  - the name, description and input schema of each tool.
- **The tool table** (`js_map.dfy`, `mcp_tools.dfy`):
  - a JavaScript `Map` with insertion order;
  - the tool definitions;
  - the handlers, as the five Solid handlers, `ping`, or any other function;
  - result normalisation;
  - the catch-and-rethrow with "Tool execution failed: ";
  - registration of the five Solid tools and listing.
- **The three server variants**, each with its adapter or registry class and its server class:
  - `stdio_server.dfy` models src/server.Stdio.ts;
  - `adapted_server.dfy` models src/server.Adapted.ts;
  - `registry_server.dfy` models src/server.ts.

  `server_variants.dfy` compares what a client sees from each variant. A handler's error comes back under three prefixes, one prefix or none. Only the two adapters know `ping`.

## Model

| member | source | states |
|---|---|---|
| SolidService.Destructure | src/services/solid.service.ts:47 | destructuring a reply succeeds exactly on a JSON object and yields its fields; a rejection is passed on; `null` throws the TypeError for the field |
| SolidService.FirstIndex | src/services/solid.service.ts:63 | the index of the first occurrence of a character, or the length when it is absent |
| SolidService.LocalPart | src/services/solid.service.ts:63 | `email.split('@')[0]` is a prefix of the email with no `@`, and is either the whole email or stops at its first `@` |
| SolidService.SplitEncodedUserPass | src/services/solid.service.ts:79 | splitting `encodeURIComponent(id):encodeURIComponent(secret)` at its first colon and decoding both halves gives back id and secret |
| SolidService.ParseBasicOfText | src/services/solid.service.ts:86 | reading a `Basic` header undoes the base64 of the UTF-8 bytes of the user-pass |
| SolidService.BasicAuthorizationRoundTrip | src/services/solid.service.ts:79-86 | a token endpoint reading the Basic header recovers exactly the client id and secret sent, with `undefined` rendered as "undefined" |
| SolidService.Advance | src/services/solid.service.ts:46-95 | each step moves to the next step, finishes only at the token step on an object reply (the credential built from the access token and the key), and aborts with the rejection or the `null`-destructuring TypeError |
| SolidService.AdvanceOnObject | src/services/solid.service.ts:47-75 | on an object reply the discovery step aborts reading `password` without `controls` and `login` without `controls.password`, else follows the login link; the second discovery aborts on `split` without an email, then on `account` and `clientCredentials` for the missing controls, else requests credentials for the email's WebID with the carried account token; the login and credentials steps always move on with the fields they read |
| SolidService.Resume | src/services/solid.service.ts:46-95 | sending the next request keeps "requests sent, then the rest of the run" equal to the whole run |
| SolidService.Network.constructor | src/services/solid.service.ts:1 | a client that has sent nothing |
| SolidService.Network.Fetch | src/services/solid.service.ts:46 | `fetch` appends the request to those sent and returns the oracle's reply |
| SolidService.Network.FetchJson | src/services/solid.service.ts:46-47 | fetch, `.json()` and destructuring, appending the request sent |
| SolidService.SolidCssMcpService.constructor | src/services/solid.service.ts:32 | a new service's credential slot is empty |
| SolidService.SolidCssMcpService.GetAuthFetch | src/services/solid.service.ts:34-39 | with an empty slot it fails with `SolidToolError` 401 and the "Not authenticated" message; otherwise it returns the stored credential |
| SolidService.SolidCssMcpService.Authenticate | src/services/solid.service.ts:41-98 | sends exactly the requests of the handshake run, returns its outcome, and writes the slot only when the run succeeds (a later success overwrites it) |
| HandshakeFacts.RunLength | src/services/solid.service.ts:46-95 | a run makes between one request and as many as it has steps left, starts with its own step's request, and succeeds only after all of them |
| HandshakeFacts.RunReplies | src/services/solid.service.ts:46-95 | every reply but the last was an object; a rejected last reply ends the run with that error and a `null` one with the destructuring TypeError |
| HandshakeFacts.RunSucceeds | src/services/solid.service.ts:92-97 | a run succeeds exactly when it made all its requests and the last reply was an object; the credential holds that reply's access token and the run's key |
| HandshakeFacts.HandshakeLength | src/services/solid.service.ts:46-97 | `authenticate` makes one to five requests, the first to the account API, and succeeds only after five |
| HandshakeFacts.RejectionEndsHandshake | src/services/solid.service.ts:46-92 | a rejected request is the last one made, and the run fails with that very error |
| HandshakeFacts.NullEndsHandshake | src/services/solid.service.ts:47-92 | a `null` reply is the last one, and the run fails with the TypeError of destructuring that step's field |
| HandshakeFacts.RunFollowsSteps | src/services/solid.service.ts:46-95 | the i-th request is the request of the i-th step, and each step moves to the next on its reply |
| HandshakeFacts.RunEndsAtLastStep | src/services/solid.service.ts:46-97 | the last step's reply does not move the run on, and the run ends with that step's credential or error |
| HandshakeFacts.StepEnds | src/services/solid.service.ts:46-97 | step i of the handshake is the i-th of the fixed five, and it is the last exactly when its reply does not move it on, the outcome then being that reply's credential or error |
| HandshakeFacts.StepsCountDown | src/services/solid.service.ts:46-95 | each step of a run is one step further along than the one before it |
| HandshakeFacts.SuccessIff | src/services/solid.service.ts:83-97 | `authenticate` succeeds if and only if five requests were made and the token endpoint answered with an object |
| HandshakeFacts.SuccessfulRun | src/services/solid.service.ts:41-98 | in a successful run each of the five requests is built from the replies before it (login link, account token, credentials link, WebID, id and secret), and the credential comes from the last reply and the key |
| HandshakeFacts.StepOrder | src/services/solid.service.ts:46-95 | the steps come in the fixed order discovery, login, rediscovery, client credentials, token |
| HandshakeFacts.RequestOrder | src/services/solid.service.ts:46-83 | requests 1 and 3 GET `issuer + ".account/"`, requests 2, 4 and 5 are POSTs, and request 5 goes to `issuer + ".oidc/token"`, with the issuer concatenated verbatim |
| HandshakeFacts.AccountTokenCarried | src/services/solid.service.ts:55-70 | requests 3 and 4 carry `CSS-Account-Token` plus the authorization the login reply gave |
| HandshakeFacts.WebIdRequested | src/services/solid.service.ts:63-73 | request 4 is made only with an email, and asks for the WebID of the email's local part under the name `mcp-demo-token` |
| HandshakeFacts.FifthRequest | src/services/solid.service.ts:75-91 | request 5, when made, is the token request for the id and secret of reply 4 |
| HandshakeFacts.MissingFieldEndsHandshake | src/services/solid.service.ts:47-92 | an object reply ends the run exactly when a field its step reads is missing: reply 1 without `controls` (reading `password`) or `controls.password` (reading `login`); reply 3 when the email is undefined (reading `split`, checked first), then without `controls` (reading `account`) or `controls.account` (reading `clientCredentials`); replies 2 and 4 never end it, and reply 5 ends it with success |
| HandshakeFacts.LoginRequested | src/services/solid.service.ts:47-54 | request 2, when made, posts the email and password to the login link of reply 1, which offered one |
| HandshakeFacts.CredentialsRequested | src/services/solid.service.ts:55-74 | request 4, when made, posts to the client-credentials link of reply 3, which offered one, with reply 2's account token and the defined email's WebID |
| HandshakeFacts.TokenRequestParts | src/services/solid.service.ts:78-91 | the token request has the client-credentials body, a Basic header that decodes to id and secret, and a DPoP proof over the token URL, POST and the run's key |
| HandshakeScenarios.LocalPartOfTestEmail | src/services/solid.service.test.ts:60-64 | the local part of the test email is `test` |
| HandshakeScenarios.DiscoveryAnswered | src/services/solid.service.test.ts:25-31 | the first request reaches the mocked account API |
| HandshakeScenarios.LoginAnswered | src/services/solid.service.test.ts:33-37 | the second request reaches the mocked login link |
| HandshakeScenarios.RediscoveryAnswered | src/services/solid.service.test.ts:39-45 | the third request reaches the mocked account API with the token |
| HandshakeScenarios.CredentialsAnswered | src/services/solid.service.test.ts:47-52 | the fourth request reaches the mocked credentials link |
| HandshakeScenarios.TokenAnswered | src/services/solid.service.test.ts:54-58 | the fifth request reaches the mocked token endpoint |
| HandshakeScenarios.RediscoveryAdvances | src/services/solid.service.test.ts:39-45 | the third mocked reply leads to the credentials request for the test user's WebID |
| HandshakeScenarios.TestUserWebId | src/services/solid.service.ts:63-64 | the test user's WebID is `http://localhost:3000/test/profile/card#me` |
| HandshakeScenarios.RunFromToken | src/services/solid.service.test.ts:54-58 | from the token step, the mocked run makes one request and succeeds |
| HandshakeScenarios.RunFromCredentials | src/services/solid.service.test.ts:47-58 | from the credentials step, the mocked run makes two requests and succeeds |
| HandshakeScenarios.RunFromRediscovery | src/services/solid.service.test.ts:39-58 | from the rediscovery step, the mocked run makes three requests and succeeds |
| HandshakeScenarios.RunFromLogin | src/services/solid.service.test.ts:33-58 | from the login step, the mocked run makes four requests and succeeds |
| HandshakeScenarios.MockedLoginSucceeds | src/services/solid.service.test.ts:24-71 | against the mocked server the run makes five requests, the first to `.account/` and the last to `.oidc/token`, and yields the fetch built from the mocked access token |
| HandshakeScenarios.ServerErrorFails | src/services/solid.service.test.ts:73-87 | against a server answering `{ error }`, the run stops after one request with the TypeError of reading `password` |
| UriComponent.HexDigit | src/services/solid.service.ts:79 | an upper-case hex digit that reads back as its value |
| UriComponent.EncodeByte | src/services/solid.service.ts:79 | the escape of one byte uses only characters the encoder may output |
| UriComponent.EncodeBytes | src/services/solid.service.ts:79 | the same for a byte string |
| UriComponent.Encode | src/services/solid.service.ts:79 | `encodeURIComponent` outputs only unreserved characters and `%` escapes |
| UriComponent.EncodeHasNoColon | src/services/solid.service.ts:79 | no colon survives encoding, so the colon of the user-pass is unambiguous |
| UriComponent.DecodeEncodeByte | src/services/solid.service.ts:79 | decoding the escape of a byte gives the byte back, then the rest |
| UriComponent.DecodeEncodeBytes | src/services/solid.service.ts:79 | decoding the escape of bytes gives them back |
| UriComponent.RoundTrip | src/services/solid.service.ts:79 | `decodeURIComponent(encodeURIComponent(s)) == s` |
| Utf8.EncodeChar | src/services/solid.service.ts:86 | a character is one to four bytes, one exactly when it is ASCII, and all bytes after the first are continuation bytes |
| Utf8.Encode | src/services/solid.service.ts:86 | `Buffer.from(text)` gives at least one byte per character |
| Utf8.CodePointOfEncodeChar | src/services/solid.service.ts:86 | the payload bits of a character's bytes are its code point |
| Utf8.DecodeEncodeChar | src/services/solid.service.ts:86 | the lead byte announces the length, and decoding gives the character back |
| Utf8.RoundTrip | src/services/solid.service.ts:86 | decoding the UTF-8 bytes of a string gives the string back |
| Utf8.EncodeAscii | src/services/solid.service.ts:86 | on ASCII text the bytes are the character codes |
| Utf8.EncodeAppend | src/services/solid.service.ts:86 | the encoding of a concatenation is the concatenation of the encodings |
| Base64.Letter | src/services/solid.service.ts:86 | each sextet has a letter that reads back as that sextet |
| Base64.Encode | src/services/solid.service.ts:86 | `toString('base64')` has 4 letters per 3 bytes, rounded up, drawn from the alphabet and `=` |
| Base64.DecodeGroup | src/services/solid.service.ts:86 | four letters decode to the three bytes they encode |
| Base64.DecodeTailOfTwo | src/services/solid.service.ts:86 | a final group with one `=` decodes to its two bytes |
| Base64.DecodeTailOfOne | src/services/solid.service.ts:86 | a final group with two `=` decodes to its byte |
| Base64.RoundTripOne | src/services/solid.service.ts:86 | one byte decodes back from its encoding |
| Base64.RoundTripTwo | src/services/solid.service.ts:86 | two bytes decode back from their encoding |
| Base64.RoundTrip | src/services/solid.service.ts:86 | decoding the base64 of any byte string gives it back |
| Decimal.DigitChar | src/tools/solid.tools.ts:7 | a digit's character reads back as the digit |
| Decimal.NatText | src/tools/solid.tools.ts:7 | a natural number's text is non-empty, all digits, and has no leading zero |
| Decimal.IntText | src/tools/solid.tools.ts:7 | a number in a template string renders as non-empty text |
| Decimal.DigitsValueOfNatText | src/tools/solid.tools.ts:7 | the digits of a natural number have that number as value |
| Decimal.IntTextRoundTrip | src/tools/solid.tools.ts:7-10 | reading back the text of an integer gives the integer |
| Decimal.IntTextAlphabet | src/tools/solid.tools.ts:7-10 | the text of a number holds no `)`, so the closing parenthesis ends it |
| SolidTools.ReportOf | src/tools/solid.tools.ts:5-17 | a `SolidToolError` gets the tool wording with its status and message; otherwise a non-zero `statusCode` gets the status wording with that code; everything else, code 0 included, gets the unexpected wording with its message |
| SolidTools.Suffix | src/tools/solid.tools.ts:11-13 | the suffix is non-empty exactly for 401, 403 and 404, and is the one sentence for that code |
| SolidTools.ParseToolTailOf | src/tools/solid.tools.ts:7 | the tail `status): message` reads back as its status and message |
| SolidTools.ParseToolHead | src/tools/solid.tools.ts:7 | a text with the tool head is read by the tool rule |
| SolidTools.ParseToolReport | src/tools/solid.tools.ts:7 | the tool wording reads back as its report |
| SolidTools.ParseStatusTailOf | src/tools/solid.tools.ts:10-13 | the tail `code).suffix` reads back as its code |
| SolidTools.ParseStatusHead | src/tools/solid.tools.ts:10 | a text with the status head is read by the status rule |
| SolidTools.ParseStatusReport | src/tools/solid.tools.ts:10-14 | the status wording reads back as its report |
| SolidTools.ParseUnexpectedReport | src/tools/solid.tools.ts:16 | the unexpected wording reads back as its message |
| SolidTools.ParseRender | src/tools/solid.tools.ts:5-17 | every wording reads back as the report it renders, so the three wordings never coincide |
| SolidTools.HandleSolidErrorReport | src/tools/solid.tools.ts:5-17 | the text of `handleSolidError` tells which test the error met and carries its status, code or message; a `SolidToolError` never gets the status wording; a zero code gets the unexpected wording |
| SolidTools.ToolHeadIsNotStatusHead | src/tools/solid.tools.ts:6-10 | the tool wording never starts like the status wording |
| SolidTools.Settle | src/tools/solid.tools.ts:56-61 | a handler's try/catch gives one text item: the operation's text, or a text that reads back as the error's report |
| SolidTools.LoginResult | src/tools/solid.tools.ts:36-41 | a successful login gives the fixed success text whatever `authenticate` returned; a failed one gives the error's rendering |
| SolidTools.DataCallOf | src/tools/solid.tools.ts:55-121 | every tool but `solid_login` calls one data operation: `read_resource` reads and `delete_resource` deletes its `resourceUrl`, `write_text_resource` writes its `resourceUrl`, `content` and `contentType`, `list_container` lists its `containerUrl` |
| SolidTools.ReadsOnlyDeclaredArguments | src/tools/solid.tools.ts:26-121 | two argument maps that agree on a tool's declared properties give the same data call and the same result, and for `solid_login` the same handshake |
| SolidTools.ReadsEveryDeclaredArgument | src/tools/solid.tools.ts:50-121 | changing any declared argument of a data tool changes the data call it makes |
| SolidTools.ToolResultShape | src/tools/solid.tools.ts:35-126 | every handler returns exactly one text item: the fixed login text, the operation's text, or the error's report |
| SolidTools.InvokeSolidTool | src/tools/solid.tools.ts:35-126 | a handler run returns the tool's result; only `solid_login` sends requests (those of the handshake) and fills the slot, and only on success |
| SolidTools.ToolNamed | src/tools/solid.tools.ts:24-112 | a name maps back only to the tool registered under it |
| SolidTools.NameIdentifiesTool | src/tools/solid.tools.ts:24-112 | the five tools have five different names |
| SolidTools.PropertyNames | src/tools/solid.tools.ts:26-34 | the property names of a schema, in order |
| SolidTools.SchemaMatchesHandler | src/tools/solid.tools.ts:26-119 | every required argument is declared, and the declared properties of each tool are listed by name, in order |
| JsMap.Empty | src/server.Stdio.ts:33 | a new `Map` is valid and empty |
| JsMap.IndexOf | src/server.Stdio.ts:73 | the first position of a present key |
| JsMap.Get | src/server.Stdio.ts:73 | `map.get(key)` is defined exactly for keys that were set |
| JsMap.GetAt | src/server.Stdio.ts:73 | the value at a key's position is the one `get` returns |
| JsMap.Set | src/server.Stdio.ts:37 | `map.set` keeps a present key's position and appends a new key with its value |
| JsMap.GetAfterSet | src/server.Stdio.ts:37 | after `set`, `get` of that key gives the new value and every other key is unchanged |
| JsMap.Values | src/server.Stdio.ts:65 | `map.values()` lists one value per key, in insertion order: the i-th value is what `get` gives for the i-th key |
| JsMap.SetKeepsOthers | src/server.Stdio.ts:37 | overwriting a key keeps the number of entries and every other value |
| McpTools.Prefixed | src/server.Stdio.ts:57-58 | the rethrown error's message is "Tool execution failed: " before the original message |
| McpTools.Rethrown | src/server.Stdio.ts:78-83 | a catch that rethrows passes a result through and prefixes an error |
| McpTools.ArgsOrEmpty | src/server.Stdio.ts:125 | `args || {}`: missing arguments become the empty object |
| McpTools.HandlerOf | src/server.Stdio.ts:73-79 | a found entry's handler, and nothing for a missing one |
| McpTools.Invoke | src/server.Stdio.ts:79 | awaiting a handler yields its outcome and performs its effects: the handshake for `solid_login`, nothing for the others |
| McpTools.BuiltInHandlersResolve | src/server.Stdio.ts:150-161 | the Solid handlers and `ping` never reject and resolve to one text item |
| McpTools.Normalise | src/server.Stdio.ts:45-55 | a content object is returned as it is, a string becomes one text item, any other value one text item holding its JSON |
| McpTools.NormaliseIdempotent | src/server.Stdio.ts:45-55 | normalising twice is normalising once; any value but a content object becomes exactly one item |
| McpTools.Register | src/server.Stdio.ts:36-62 | `tool(name, ...)` keeps a present name's position and appends a new name with its definition |
| McpTools.RegisterThenGet | src/server.ts:22-24 | after `tool(name, ...)` the name is bound to the new definition and every other name keeps its entry |
| McpTools.Position | src/server.ts:68-72 | each tool's place in the registration order |
| McpTools.RegisterDefinition | src/tools/solid.tools.ts:23 | one `server.tool` call of a register function appends a new name |
| McpTools.Definitions | src/tools/solid.tools.ts:22-127 | the definitions the register functions pass, in order |
| McpTools.NamesOf | src/tools/solid.tools.ts:24-112 | the names of definitions, in order |
| McpTools.RegisterEach | src/server.ts:66-74 | registering a sequence of definitions keeps the table valid |
| McpTools.RegisterEachAppends | src/server.ts:66-74 | registering definitions with distinct new names appends names and definitions in order |
| McpTools.RegisterEachFive | src/server.ts:68-72 | the five register calls in a row are the registration of the five definitions |
| McpTools.WithSolidTools | src/server.ts:66-74 | registering the five Solid tools keeps the table valid |
| McpTools.SolidToolNamesInOrder | src/tools/solid.tools.ts:24-112 | the five definitions have the five distinct names, in registration order |
| McpTools.SolidToolsRegistered | src/server.ts:66-74 | on an empty table the five tools are listed in order, each with its own definition |
| McpTools.FoundAtPosition | src/server.ts:26-28 | in a table keyed by the five names, each is found at its tool's position |
| McpTools.SolidToolFound | src/server.ts:26-28 | each registered Solid tool is found under its name with its definition |
| McpTools.WithSolidToolsThen | src/server.Stdio.ts:138-164 | registering the five tools then one more keeps the table valid |
| McpTools.SolidToolsThenNames | src/server.Stdio.ts:138-164 | on an empty table the five names come first and the extra name last |
| McpTools.SolidToolsThenFound | src/server.Stdio.ts:138-164 | on an empty table each Solid tool and the extra tool are found under their names |
| McpTools.Listing | src/server.Stdio.ts:64-70 | one record per registered name, in registration order, each the stored definition without its handler |
| McpTools.ListingFindsEach | src/server.ts:26-36 | every listed tool is found under its listed name and is listed with its stored fields |
| StdioServer.Registered | src/server.Stdio.ts:138-164 | `registerTools` keeps the table valid |
| StdioServer.ServerCallCases | src/server.Stdio.ts:56-130 | an unknown name fails with one prefix; a handler's result comes back normalised; a handler's error comes back under three prefixes |
| StdioServer.RegisteredNames | src/server.Stdio.ts:138-164 | after `registerTools` the table holds the five Solid tools, then `ping` |
| StdioServer.ToolsRegistered | src/server.Stdio.ts:138-164 | after `registerTools` each Solid tool and `ping` are bound to their own definitions |
| StdioServer.FoundCall | src/server.Stdio.ts:72-84 | a call to a bound name runs that definition's handler through the wrapper and both catches |
| StdioServer.SolidToolCall | src/server.Stdio.ts:121-130 | a registered Solid tool never fails and returns what its handler returns |
| StdioServer.PingCall | src/server.Stdio.ts:150-161 | `ping` answers one text item `pong` whatever its arguments |
| StdioServer.UnregisteredCall | src/server.Stdio.ts:72-76 | any other name fails with "Tool execution failed: Unknown tool: name" |
| StdioServer.McpServerAdapter.constructor | src/server.Stdio.ts:33 | the adapter starts with no tools |
| StdioServer.McpServerAdapter.Tool | src/server.Stdio.ts:36-62 | `tool()` inserts or overwrites the entry for its name |
| StdioServer.McpServerAdapter.GetTools | src/server.Stdio.ts:64-70 | one name, description and schema record per tool, in registration order |
| StdioServer.McpServerAdapter.CallTool | src/server.Stdio.ts:72-84 | an unknown name fails with "Unknown tool: name"; otherwise it returns the wrapped handler's outcome, rethrown with the prefix, and performs the handler's effects |
| StdioServer.SolidMcpServer.constructor | src/server.Stdio.ts:92-110 | a fresh service with an empty slot and the six tools registered under their names |
| StdioServer.SolidMcpServer.RegisterTools | src/server.Stdio.ts:138-164 | the five register calls and the `ping` registration, in that order |
| StdioServer.SolidMcpServer.ListTools | src/server.Stdio.ts:114-118 | the `list_tools` answer has one record per registered tool |
| StdioServer.SolidMcpServer.HandleCallTool | src/server.Stdio.ts:121-130 | the `call_tool` answer is the adapter's call with `args` defaulted and its error rethrown with the prefix; only the found handler's effects happen |
| AdaptedServer.Registered | src/server.Adapted.ts:114-134 | `registerTools` keeps the table valid |
| AdaptedServer.ServerCallCases | src/server.Adapted.ts:54-106 | an unknown name and a handler's error each fail under one prefix; a handler's result comes back normalised |
| AdaptedServer.RegisteredNames | src/server.Adapted.ts:114-134 | after `registerTools` the table holds the five Solid tools, then `ping` |
| AdaptedServer.ToolsRegistered | src/server.Adapted.ts:114-134 | after `registerTools` each Solid tool and `ping` are bound to their own definitions |
| AdaptedServer.FoundCall | src/server.Adapted.ts:54-60 | a call to a bound name runs that definition's handler through the wrapper and the server's catch |
| AdaptedServer.SolidToolCall | src/server.Adapted.ts:97-106 | a registered Solid tool never fails and returns what its handler returns |
| AdaptedServer.PingCall | src/server.Adapted.ts:126-131 | `ping` answers one text item `pong` whatever its arguments |
| AdaptedServer.UnregisteredCall | src/server.Adapted.ts:54-58 | any other name fails with "Tool execution failed: Unknown tool: name" |
| AdaptedServer.McpServerAdapter.constructor | src/server.Adapted.ts:19-24 | the adapter starts with no tools and holds the service it is given |
| AdaptedServer.McpServerAdapter.Tool | src/server.Adapted.ts:27-48 | `tool()` inserts or overwrites the entry for its name |
| AdaptedServer.McpServerAdapter.GetTools | src/server.Adapted.ts:50-52 | the stored entries themselves, in registration order: the i-th is what the map holds for the i-th name, named by it and listed as the i-th listing record |
| AdaptedServer.McpServerAdapter.CallTool | src/server.Adapted.ts:54-60 | an unknown name fails with "Unknown tool: name"; otherwise the normalised result or the handler's own error, with the handler's effects |
| AdaptedServer.SolidMcpServer.constructor | src/server.Adapted.ts:68-86 | a fresh service with an empty slot, shared with the adapter, and the six tools registered |
| AdaptedServer.SolidMcpServer.RegisterTools | src/server.Adapted.ts:114-134 | the five register calls and the `ping` registration, in that order |
| AdaptedServer.SolidMcpServer.ListTools | src/server.Adapted.ts:90-94 | the `list_tools` answer is the adapter's stored entries in registration order: the i-th is what its map holds for the i-th name, named by it and listed as the i-th listing record |
| AdaptedServer.SolidMcpServer.HandleCallTool | src/server.Adapted.ts:97-106 | the `call_tool` answer is the adapter's call with `args` defaulted and its error rethrown with the prefix |
| RegistryServer.ServerCallCases | src/server.ts:83-93 | an unknown name fails with "Unknown tool: name" and no prefix; otherwise the call is exactly the handler's result or error |
| RegistryServer.SolidToolCall | src/server.ts:83-93 | a registered Solid tool returns its handler's content object |
| RegistryServer.UnregisteredCall | src/server.ts:85-89 | any other name, `ping` included, is unknown |
| RegistryServer.McpToolRegistry.constructor | src/server.ts:20 | the registry starts with no tools |
| RegistryServer.McpToolRegistry.Tool | src/server.ts:22-24 | `tool()` stores the four fields and overwrites any earlier entry for the name |
| RegistryServer.McpToolRegistry.GetTool | src/server.ts:26-28 | defined exactly for registered names, and the entry carries that name |
| RegistryServer.McpToolRegistry.ListTools | src/server.ts:30-36 | each entry projected to name, description and schema, in registration order |
| RegistryServer.SolidPodMcpServer.constructor | src/server.ts:45-64 | a fresh service with an empty slot, and exactly the five Solid tools, each found with its definition |
| RegistryServer.SolidPodMcpServer.RegisterAllTools | src/server.ts:66-74 | the five register calls, in order |
| RegistryServer.SolidPodMcpServer.ListTools | src/server.ts:77-81 | the `list_tools` answer has one record per registered tool |
| RegistryServer.SolidPodMcpServer.HandleCallTool | src/server.ts:83-93 | the `call_tool` answer is the unknown-tool error or the handler's own outcome, with only that handler's effects |
| ServerVariants.SolidToolsAgree | src/server.Stdio.ts:121-130 | a Solid tool call gives the same content object from all three servers |
| ServerVariants.ErrorPrefixes | src/server.Adapted.ts:97-106 | a handler's error reaches the client under three prefixes from the stdio server, one from the adapted server and none from the registry server |
| ServerVariants.UnknownNamePrefixes | src/server.ts:85-89 | an unknown name gets one prefix from both adapters and none from the registry server |
| ServerVariants.PingInAdapters | src/server.Adapted.ts:126-131 | `ping` answers `pong` in both adapters |
| ServerVariants.PingNotInRegistry | src/server.ts:66-74 | `ping` is unknown to the registry server |
| ServerVariants.PingSchemasDiffer | src/server.Stdio.ts:150-154 | the two `ping` definitions differ only in the schema's `required`: an empty list in one, absent in the other |

## Left out

- Transport and process wiring: `Server`, `StdioServerTransport`, `start`, `main`, `process.exit`, the server name, version and capabilities, `onerror`, and all console logging.
- src/logger.ts and src/server.Test.ts are not part of this model. The first is a logger configuration; the second is a stub with a hard-coded one-tool list.
- `fetch` and `response.json()` are the oracle `Network.respond`. It answers each request with a rejection, JSON `null` or an object of optional fields. Response status and `ok` are not read by the code and are not modelled.
- `generateDpopKeyPair`, `createDpopHeader` and `buildAuthenticatedFetch` are library calls. They appear as symbolic values: a key handle, a proof recorded by its inputs, and a credential recorded by its access token and key. Their cryptography is not modelled.
- `readResource`, `writeResource`, `listContainer` and `deleteResource` are called by the tools but not defined by the service. They are the oracle `Pod`.
- `JSON.stringify` of a non-string handler result is carried as its output text (`Returned.Other`) rather than computed.
- Thrown values that are not `Error` instances (rendered with `String(error)` in the catches) are not modelled; every thrown value is a `JsError`.
- Tool arguments are string-valued. A non-string argument value is not modelled.
- `encodeURIComponent` on lone surrogates is not modelled, because Dafny strings hold Unicode scalar values only.
- Concurrency is not modelled; each `await` is one sequential step.
- StdioServer.McpServerAdapter.Tool: the wrapper closure `tool()` builds around a handler is applied when the tool is called rather than stored, so a stored entry holds the handler it was given. The observable results are the same. The same holds for AdaptedServer.McpServerAdapter.GetTools, which returns the entries with the given handler where the source returns the wrapped one.
- SolidService.SolidCssMcpService.Authenticate: the code keeps one credential per service and has no session map, session ids or expiry, so none is modelled. The unit test at src/services/solid.service.test.ts:66-67 expects a string session id, but the code returns the authenticated fetch, so the model returns the fetch and does not promise a string. The control links are used as given, without relative-URL resolution, as in the code.
- SolidService.Advance: a JSON `null` field of an object reply is treated like a missing one. In the code, `controls: null` throws "Cannot read properties of null (reading 'password')" where the model reports `undefined`, and the same holds for the other control fields. Likewise SolidService.AccountTokenAuthorization writes `undefined` for an `authorization: null` reply, where the headers at src/services/solid.service.ts:59 and :70 interpolate `null`.
- SolidTools.ReportOf: `status` and `statusCode` are modelled as integers, and an `Error` without a `statusCode` as a plain error. `NaN`, fractional numbers and non-number values such as the string "404" are not modelled, although the code at src/tools/solid.tools.ts:9-13 only tests whether `statusCode` is truthy and compares it with `===`.
- SolidService.SolidCssMcpService.Authenticate: a rejection by `generateDpopKeyPair` (src/services/solid.service.ts:78) or by `createDpopHeader` (line 88) is not modelled. The key pair is a parameter and the proof a symbolic value, so the modelled handshake never fails at those two calls.
