/** The five Solid tools of src/tools/solid.tools.ts: how an error becomes
    the one text a tool returns (`handleSolidError`), what each handler
    returns, and the name, description and input schema each
    `register*Tool` function hands to `server.tool`.

    The data operations `readResource`, `writeResource`, `listContainer` and
    `deleteResource` are not part of the service shown, so they are an
    oracle `Pod` that answers a `DataCall` with a text or an error. */
module SolidTools {
  import opened Wrappers
  import Decimal
  import opened SolidService

  // ---------------------------------------------------------------------
  // handleSolidError

  /** The three ways `handleSolidError` can word an error. */
  datatype Report =
    | ToolReport(status: int, message: string)
    | StatusReport(code: int)
    | UnexpectedReport(message: string)

  const ToolErrorHead: string := "❌ Error ("
  const StatusHead: string := "❌ A Solid error occurred ("
  const UnexpectedHead: string := "❌ An unexpected error occurred: "

  const UnauthorizedSuffix: string := " Unauthorized. Your session may have expired."
  const ForbiddenSuffix: string := " Forbidden. You may not have permission for this action."
  const NotFoundSuffix: string := " Resource not found."

  /** Which wording an error gets: the `SolidToolError` test comes first,
      then a truthy `statusCode` (0 is falsy), then everything else. */
  function ReportOf(e: JsError): (r: Report)
    ensures e.SolidToolError? <==> r.ToolReport?
    ensures r.StatusReport? <==> e.CodedError? && e.statusCode != 0
    ensures r.UnexpectedReport? ==> r.message == e.message
    ensures r.ToolReport? ==> r == ToolReport(e.status, e.message)
    ensures r.StatusReport? ==> r.code == e.statusCode
  {
    match e
    case SolidToolError(message, status) => ToolReport(status, message)
    case CodedError(message, code) => if code != 0 then StatusReport(code) else UnexpectedReport(message)
    case PlainError(message) => UnexpectedReport(message)
  }

  /** The three independent `if`s that extend the status-code message. */
  function Suffix(code: int): (s: string)
    ensures s != [] <==> code == 401 || code == 403 || code == 404
    ensures code == 401 ==> s == UnauthorizedSuffix
    ensures code == 403 ==> s == ForbiddenSuffix
    ensures code == 404 ==> s == NotFoundSuffix
  {
    (if code == 401 then UnauthorizedSuffix else "")
    + (if code == 403 then ForbiddenSuffix else "")
    + (if code == 404 then NotFoundSuffix else "")
  }

  function Render(r: Report): string {
    match r
    case ToolReport(status, message) => ToolErrorHead + (Decimal.IntText(status) + ("): " + message))
    case StatusReport(code) => StatusHead + (Decimal.IntText(code) + (")." + Suffix(code)))
    case UnexpectedReport(message) => UnexpectedHead + message
  }

  /** `handleSolidError(error)`: the text of the one content item. */
  function HandleSolidError(e: JsError): string {
    Render(ReportOf(e))
  }

  /** Reads a rendered error back: the wording, the status or code, and the
      message. */
  function ParseReport(text: string): Option<Report> {
    if ToolErrorHead <= text then ParseToolTail(text[|ToolErrorHead|..])
    else if StatusHead <= text then ParseStatusTail(text[|StatusHead|..])
    else if UnexpectedHead <= text then Some(UnexpectedReport(text[|UnexpectedHead|..]))
    else None
  }

  /** `<status>): <message>` */
  function ParseToolTail(rest: string): Option<Report> {
    var i := FirstIndex(rest, ')');
    if "): " <= rest[i..] then
      match Decimal.ParseInt(rest[..i])
      case Some(status) => Some(ToolReport(status, rest[i + 3..]))
      case None => None
    else None
  }

  /** `<code>).` and the suffix for that code */
  function ParseStatusTail(rest: string): Option<Report> {
    var i := FirstIndex(rest, ')');
    match Decimal.ParseInt(rest[..i])
    case Some(code) => if rest[i..] == ")." + Suffix(code) then Some(StatusReport(code)) else None
    case None => None
  }

  /** The first `c` in `a + b` is the one that starts `b`, when `a` has none. */
  lemma FirstIndexAtJoin(a: string, b: string, c: char)
    requires c !in a && b != [] && b[0] == c
    ensures FirstIndex(a + b, c) == |a|
  {
    var s := a + b;
    var i := FirstIndex(s, c);
    assert forall j :: 0 <= j < |a| ==> s[j] == a[j];
    assert s[|a|] == c;
  }

  /** The rendered number runs up to the first `)`. */
  lemma NumberThenParen(n: int, tail: string)
    requires tail != [] && tail[0] == ')'
    ensures var s := Decimal.IntText(n) + tail;
      var i := FirstIndex(s, ')');
      i == |Decimal.IntText(n)| && s[..i] == Decimal.IntText(n) && s[i..] == tail
  {
    Decimal.IntTextAlphabet(n, ')');
    FirstIndexAtJoin(Decimal.IntText(n), tail, ')');
    var s := Decimal.IntText(n) + tail;
    assert s[..|Decimal.IntText(n)|] == Decimal.IntText(n);
    assert s[|Decimal.IntText(n)|..] == tail;
  }

  lemma ParseToolTailOf(status: int, message: string)
    ensures ParseToolTail(Decimal.IntText(status) + ("): " + message)) == Some(ToolReport(status, message))
  {
    var rest := Decimal.IntText(status) + ("): " + message);
    NumberThenParen(status, "): " + message);
    Decimal.IntTextRoundTrip(status);
    assert rest[|Decimal.IntText(status)| + 3..] == message;
  }

  /** A text with the `SolidToolError` head is read by that rule. */
  lemma ParseToolHead(rest: string)
    ensures ParseReport(ToolErrorHead + rest) == ParseToolTail(rest)
  {
    assert (ToolErrorHead + rest)[|ToolErrorHead|..] == rest;
  }

  lemma ParseToolReport(status: int, message: string)
    ensures ParseReport(Render(ToolReport(status, message))) == Some(ToolReport(status, message))
  {
    var rest := Decimal.IntText(status) + ("): " + message);
    assert Render(ToolReport(status, message)) == ToolErrorHead + rest;
    ParseToolHead(rest);
    ParseToolTailOf(status, message);
  }

  lemma ParseStatusTailOf(code: int)
    ensures ParseStatusTail(Decimal.IntText(code) + (")." + Suffix(code))) == Some(StatusReport(code))
  {
    NumberThenParen(code, ")." + Suffix(code));
    Decimal.IntTextRoundTrip(code);
  }

  /** A text with the status-code head is read by the status-code rule. */
  lemma ParseStatusHead(rest: string)
    ensures ParseReport(StatusHead + rest) == ParseStatusTail(rest)
  {
    var text := StatusHead + rest;
    assert text[2] == 'A' != ToolErrorHead[2];
    assert text[|StatusHead|..] == rest;
  }

  lemma ParseStatusReport(code: int)
    ensures ParseReport(Render(StatusReport(code))) == Some(StatusReport(code))
  {
    var rest := Decimal.IntText(code) + (")." + Suffix(code));
    assert Render(StatusReport(code)) == StatusHead + rest;
    ParseStatusHead(rest);
    ParseStatusTailOf(code);
  }

  lemma ParseUnexpectedReport(message: string)
    ensures ParseReport(Render(UnexpectedReport(message))) == Some(UnexpectedReport(message))
  {
    var text := UnexpectedHead + message;
    assert text[2] == 'A' != ToolErrorHead[2];
    assert text[3] == 'n' != StatusHead[3];
    assert text[|UnexpectedHead|..] == message;
  }

  /** Every wording can be read back: the three are told apart by their
      heads, and the number and message are recovered. */
  lemma {:induction false} ParseRender(r: Report)
    ensures ParseReport(Render(r)) == Some(r)
  {
    match r
    case ToolReport(status, message) => ParseToolReport(status, message);
    case StatusReport(code) => ParseStatusReport(code);
    case UnexpectedReport(message) => ParseUnexpectedReport(message);
  }

  /** What `handleSolidError` promises: the text tells which test the error
      met and carries its status or message; a `SolidToolError` never gets
      the status-code wording; a falsy code gets the unexpected wording. */
  lemma HandleSolidErrorReport(e: JsError)
    ensures ParseReport(HandleSolidError(e)) == Some(ReportOf(e))
    ensures e.SolidToolError? ==> !(StatusHead <= HandleSolidError(e))
    ensures e.CodedError? && e.statusCode == 0 ==> HandleSolidError(e) == UnexpectedHead + e.message
  {
    ParseRender(ReportOf(e));
    if e.SolidToolError? {
      ToolHeadIsNotStatusHead(Decimal.IntText(e.status) + ("): " + e.message));
    }
  }

  lemma ToolHeadIsNotStatusHead(rest: string)
    ensures !(StatusHead <= ToolErrorHead + rest)
  {
    assert (ToolErrorHead + rest)[2] == 'E' != StatusHead[2];
  }

  // ---------------------------------------------------------------------
  // Tool results

  /** `{ type: 'text', text }` */
  datatype TextContent = TextContent(text: string)

  /** `{ content: [...] }` */
  datatype CallToolResult = CallToolResult(content: seq<TextContent>)

  function TextResult(text: string): CallToolResult {
    CallToolResult([TextContent(text)])
  }

  /** The `try`/`catch` every handler wraps its call in: the call's text on
      success, the error's rendering otherwise; nothing is rethrown. */
  function Settle(r: Result<string, JsError>): (c: CallToolResult)
    ensures |c.content| == 1
    ensures r.Success? ==> c.content[0].text == r.value
    ensures r.Failure? ==> ParseReport(c.content[0].text) == Some(ReportOf(r.error))
  {
    match r
    case Success(text) => TextResult(text)
    case Failure(e) => HandleSolidErrorReport(e); TextResult(HandleSolidError(e))
  }

  const LoginSuccessText: string := "✅ Login successful. Session is active."

  /** The `solid_login` handler's result for what `authenticate` did. */
  function LoginResult(auth: Result<AuthFetch, JsError>): (c: CallToolResult)
    ensures auth.Success? ==> c == TextResult(LoginSuccessText)
    ensures auth.Failure? ==> c == TextResult(HandleSolidError(auth.error))
  {
    Settle(if auth.Success? then Success(LoginSuccessText) else Failure(auth.error))
  }

  // ---------------------------------------------------------------------
  // The tools

  datatype SolidTool = SolidLogin | ReadResource | WriteTextResource | ListContainer | DeleteResource

  /** Call arguments; a missing property reads as `undefined`. */
  type Args = map<string, string>

  function Arg(args: Args, key: string): Option<string> {
    if key in args then Some(args[key]) else None
  }

  /** A call of one of the service's data operations. */
  datatype DataCall =
    | Read(resourceUrl: Option<string>)
    | Write(resourceUrl: Option<string>, content: Option<string>, contentType: Option<string>)
    | List(containerUrl: Option<string>)
    | Delete(resourceUrl: Option<string>)

  /** What the service's data operations answer. */
  type Pod = DataCall -> Result<string, JsError>

  /** The data operation a data tool's handler calls, with the arguments it
      destructures. */
  function DataCallOf(tool: SolidTool, args: Args): (call: Option<DataCall>)
    ensures call.None? <==> tool.SolidLogin?
    ensures tool.ReadResource? ==> call == Some(Read(Arg(args, "resourceUrl")))
    ensures tool.WriteTextResource? ==>
      call == Some(Write(Arg(args, "resourceUrl"), Arg(args, "content"), Arg(args, "contentType")))
    ensures tool.ListContainer? ==> call == Some(List(Arg(args, "containerUrl")))
    ensures tool.DeleteResource? ==> call == Some(Delete(Arg(args, "resourceUrl")))
  {
    match tool
    case SolidLogin => None
    case ReadResource => Some(Read(Arg(args, "resourceUrl")))
    case WriteTextResource => Some(Write(Arg(args, "resourceUrl"), Arg(args, "content"), Arg(args, "contentType")))
    case ListContainer => Some(List(Arg(args, "containerUrl")))
    case DeleteResource => Some(Delete(Arg(args, "resourceUrl")))
  }

  /** The run of `authenticate(args.email, args.password, args.oidcIssuer)`. */
  function LoginRun(args: Args, key: DpopKey, respond: Request -> Reply): Trace {
    Handshake(Arg(args, "email"), Arg(args, "password"), Arg(args, "oidcIssuer"), key, respond)
  }

  /** What a tool's handler returns, given the outcome of the login
      handshake (used by `solid_login` only) and the pod. */
  function ToolResult(tool: SolidTool, args: Args, auth: Result<AuthFetch, JsError>, pod: Pod): CallToolResult {
    match DataCallOf(tool, args)
    case None => LoginResult(auth)
    case Some(call) => Settle(pod(call))
  }

  /** Every handler returns one text item: the operation's text, or the
      rendering of its error, and `solid_login` the fixed success text
      whatever `authenticate` returned. */
  lemma {:induction false} ToolResultShape(tool: SolidTool, args: Args, auth: Result<AuthFetch, JsError>, pod: Pod)
    ensures var c := ToolResult(tool, args, auth, pod);
      && |c.content| == 1
      && (tool.SolidLogin? && auth.Success? ==> c.content[0].text == LoginSuccessText)
      && (tool.SolidLogin? && auth.Failure? ==> ParseReport(c.content[0].text) == Some(ReportOf(auth.error)))
      && (!tool.SolidLogin? ==> var r := pod(DataCallOf(tool, args).value);
            (r.Success? ==> c.content[0].text == r.value)
            && (r.Failure? ==> ParseReport(c.content[0].text) == Some(ReportOf(r.error))))
  {
    if tool.SolidLogin? && auth.Failure? {
      HandleSolidErrorReport(auth.error);
    }
  }

  /** A handler run: `solid_login` performs the handshake on `service`
      through `net` with the fresh key pair `key`; the other tools call the
      pod and touch neither. */
  method InvokeSolidTool(tool: SolidTool, args: Args, service: SolidCssMcpService, net: Network,
                         key: DpopKey, pod: Pod)
    returns (result: CallToolResult)
    modifies service, net
    ensures result == ToolResult(tool, args, LoginRun(args, key, net.respond).outcome, pod)
    ensures net.sent == old(net.sent) + (if tool.SolidLogin? then LoginRun(args, key, net.respond).calls else [])
    ensures service.authFetch == if tool.SolidLogin? && LoginRun(args, key, net.respond).outcome.Success?
                                 then Some(LoginRun(args, key, net.respond).outcome.value)
                                 else old(service.authFetch)
  {
    match DataCallOf(tool, args)
    case None =>
      var auth := service.Authenticate(Arg(args, "email"), Arg(args, "password"), Arg(args, "oidcIssuer"), net, key);
      result := LoginResult(auth);
    case Some(call) =>
      result := Settle(pod(call));
  }

  // ---------------------------------------------------------------------
  // Registration

  /** One property of an input schema: `{ type, description }`. */
  datatype Property = Property(name: string, kind: string, description: string)

  /** `{ type: 'object', properties, required? }` */
  datatype Schema = ObjectSchema(properties: seq<Property>, required: Option<seq<string>>)

  function StringProperty(name: string, description: string): Property {
    Property(name, "string", description)
  }

  function Name(tool: SolidTool): string {
    match tool
    case SolidLogin => "solid_login"
    case ReadResource => "read_resource"
    case WriteTextResource => "write_text_resource"
    case ListContainer => "list_container"
    case DeleteResource => "delete_resource"
  }

  /** The tool a name was registered for, if any. */
  function ToolNamed(name: string): (tool: Option<SolidTool>)
    ensures tool.Some? ==> Name(tool.value) == name
  {
    if name == "solid_login" then Some(SolidLogin)
    else if name == "read_resource" then Some(ReadResource)
    else if name == "write_text_resource" then Some(WriteTextResource)
    else if name == "list_container" then Some(ListContainer)
    else if name == "delete_resource" then Some(DeleteResource)
    else None
  }

  /** Each tool is registered under its own name. */
  lemma NameIdentifiesTool(tool: SolidTool)
    ensures ToolNamed(Name(tool)) == Some(tool)
    ensures forall other: SolidTool :: Name(other) == Name(tool) ==> other == tool
  {
    forall other: SolidTool | Name(other) == Name(tool)
      ensures other == tool
    {
      assert |Name(other)| == |Name(tool)|;
    }
  }

  function Description(tool: SolidTool): string {
    match tool
    case SolidLogin => "Logs into a Solid Pod to establish an authenticated session for other tools."
    case ReadResource => "Reads the content of a resource from the Solid Pod."
    case WriteTextResource => "Writes or overwrites a text-based resource on the Solid Pod."
    case ListContainer => "Lists all resources within a specified container on the Solid Pod."
    case DeleteResource => "Deletes a resource from the Solid Pod."
  }

  function InputSchema(tool: SolidTool): Schema {
    match tool
    case SolidLogin =>
      ObjectSchema([StringProperty("email", "The account email for the Solid Pod."),
                    StringProperty("password", "The account password for the Solid Pod."),
                    StringProperty("oidcIssuer", "The OIDC Issuer URL (e.g., http://localhost:3000/).")],
                   Some(["email", "password", "oidcIssuer"]))
    case ReadResource =>
      ObjectSchema([StringProperty("resourceUrl", "The full URL of the resource to read.")], Some(["resourceUrl"]))
    case WriteTextResource =>
      ObjectSchema([StringProperty("resourceUrl", "The full URL of the resource to write."),
                    StringProperty("content", "The text content to write to the file."),
                    StringProperty("contentType", "The MIME type (e.g., text/plain).")],
                   Some(["resourceUrl", "content"]))
    case ListContainer =>
      ObjectSchema([StringProperty("containerUrl", "The URL of the container to list.")], Some(["containerUrl"]))
    case DeleteResource =>
      ObjectSchema([StringProperty("resourceUrl", "The full URL of the resource to delete.")], Some(["resourceUrl"]))
  }

  function PropertyNames(schema: Schema): (names: seq<string>)
    ensures |names| == |schema.properties|
    ensures forall i :: 0 <= i < |names| ==> names[i] == schema.properties[i].name
  {
    seq(|schema.properties|, i requires 0 <= i < |schema.properties| => schema.properties[i].name)
  }

  /** Every argument a tool requires is declared in its schema, and the
      arguments its handler reads are exactly the declared ones. */
  lemma SchemaMatchesHandler(tool: SolidTool)
    ensures var schema := InputSchema(tool);
      && schema.required.Some?
      && (forall n :: n in schema.required.value ==> n in PropertyNames(schema))
      && (tool.SolidLogin? ==> PropertyNames(schema) == ["email", "password", "oidcIssuer"])
      && (tool.WriteTextResource? ==> PropertyNames(schema) == ["resourceUrl", "content", "contentType"])
      && (tool.ListContainer? ==> PropertyNames(schema) == ["containerUrl"])
      && (tool.ReadResource? || tool.DeleteResource? ==> PropertyNames(schema) == ["resourceUrl"])
  {
    var names := PropertyNames(InputSchema(tool));
    match tool
    case SolidLogin => assert names == ["email", "password", "oidcIssuer"];
    case WriteTextResource => assert names == ["resourceUrl", "content", "contentType"];
    case ListContainer => assert names == ["containerUrl"];
    case ReadResource => assert names == ["resourceUrl"];
    case DeleteResource => assert names == ["resourceUrl"];
  }

  /** A handler reads nothing but the arguments its schema declares: two
      argument maps that agree on those give the same data call, the same
      result and, for `solid_login`, the same handshake. */
  lemma ReadsOnlyDeclaredArguments(tool: SolidTool, a: Args, b: Args, auth: Result<AuthFetch, JsError>, pod: Pod,
                                   key: DpopKey, respond: Request -> Reply)
    requires forall n :: n in PropertyNames(InputSchema(tool)) ==> Arg(a, n) == Arg(b, n)
    ensures DataCallOf(tool, a) == DataCallOf(tool, b)
    ensures ToolResult(tool, a, auth, pod) == ToolResult(tool, b, auth, pod)
    ensures tool.SolidLogin? ==> LoginRun(a, key, respond) == LoginRun(b, key, respond)
  {
    var names := PropertyNames(InputSchema(tool));
    match tool {
    case SolidLogin =>
      assert names[0] == "email" && names[1] == "password" && names[2] == "oidcIssuer";
      SameLoginRun(a, b, key, respond);
    case WriteTextResource =>
      assert names[0] == "resourceUrl" && names[1] == "content" && names[2] == "contentType";
    case ListContainer =>
      assert names[0] == "containerUrl";
    case ReadResource =>
      assert names[0] == "resourceUrl";
    case DeleteResource =>
      assert names[0] == "resourceUrl";
    }
    SameToolResult(tool, a, b, auth, pod);
  }

  lemma SameToolResult(tool: SolidTool, a: Args, b: Args, auth: Result<AuthFetch, JsError>, pod: Pod)
    requires DataCallOf(tool, a) == DataCallOf(tool, b)
    ensures ToolResult(tool, a, auth, pod) == ToolResult(tool, b, auth, pod)
  {
  }

  lemma SameLoginRun(a: Args, b: Args, key: DpopKey, respond: Request -> Reply)
    requires Arg(a, "email") == Arg(b, "email") && Arg(a, "password") == Arg(b, "password")
    requires Arg(a, "oidcIssuer") == Arg(b, "oidcIssuer")
    ensures LoginRun(a, key, respond) == LoginRun(b, key, respond)
  {
  }

  /** And a data tool's handler reads every argument its schema declares:
      changing any one of them changes the data call. */
  lemma ReadsEveryDeclaredArgument(tool: SolidTool, args: Args, name: string, value: string)
    requires !tool.SolidLogin? && name in PropertyNames(InputSchema(tool))
    requires Arg(args, name) != Some(value)
    ensures DataCallOf(tool, args[name := value]) != DataCallOf(tool, args)
  {
    SchemaMatchesHandler(tool);
    assert Arg(args[name := value], name) == Some(value);
  }
}
