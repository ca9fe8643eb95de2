/** What the three server variants share: the tool definitions they store,
    the handlers behind them, the normalisation of a handler's result and
    the listing of a tool table.

    Handlers are named rather than stored as closures: the five Solid
    handlers, the `ping` handler the adapters add, and `Custom` for any
    other function a caller of `tool()` may pass. */
module McpTools {
  import opened Wrappers
  import opened JsMap
  import opened SolidService
  import opened SolidTools

  /** What a handler's promise resolves to. */
  datatype Returned =
    | /** an object with a truthy `content` */
      Content(result: CallToolResult)
    | /** a string */
      Text(text: string)
    | /** any other value, with the text `JSON.stringify(value, null, 2)` gives */
      Other(json: string)

  datatype Handler =
    | SolidHandler(tool: SolidTool)
    | Ping
    | Custom(run: Args -> Result<Returned, JsError>)

  /** `{ name, description, inputSchema, handler }` */
  datatype ToolDefinition = ToolDefinition(name: string, description: string, inputSchema: Schema, handler: Handler)

  /** `{ name, description, inputSchema }` */
  datatype ToolInfo = ToolInfo(name: string, description: string, inputSchema: Schema)

  function Info(d: ToolDefinition): ToolInfo {
    ToolInfo(d.name, d.description, d.inputSchema)
  }

  const FailurePrefix: string := "Tool execution failed: "

  function UnknownTool(name: string): string {
    "Unknown tool: " + name
  }

  /** `new Error(`Tool execution failed: ${error.message}`)` */
  function Prefixed(e: JsError): (p: JsError)
    ensures p.message == FailurePrefix + e.message
  {
    PlainError(FailurePrefix + e.message)
  }

  /** A `catch` that rethrows with the prefix; a value passes through. */
  function Rethrown<T>(r: Result<T, JsError>): (s: Result<T, JsError>)
    ensures r.Success? ==> s == r
    ensures r.Failure? ==> s == Failure(Prefixed(r.error))
  {
    if r.Success? then r else Failure(Prefixed(r.error))
  }

  /** `args || {}` */
  function ArgsOrEmpty(args: Option<Args>): (a: Args)
    ensures args.None? ==> a == map[]
    ensures args.Some? ==> a == args.value
  {
    if args.Some? then args.value else map[]
  }

  // ---------------------------------------------------------------------
  // Handlers

  const PongResult: CallToolResult := TextResult("pong")

  /** What a handler's promise settles to. `solid_login` runs the handshake
      with the key pair `key` against `respond`; the data tools ask `pod`. */
  function Outcome(h: Handler, args: Args, key: DpopKey, respond: Request -> Reply, pod: Pod)
    : Result<Returned, JsError>
  {
    match h
    case SolidHandler(tool) => Success(Content(ToolResult(tool, args, LoginRun(args, key, respond).outcome, pod)))
    case Ping => Success(Content(PongResult))
    case Custom(run) => run(args)
  }

  predicate IsLogin(h: Handler) {
    h.SolidHandler? && h.tool.SolidLogin?
  }

  /** The requests a handler sends. */
  function Sends(h: Handler, args: Args, key: DpopKey, respond: Request -> Reply): seq<Request> {
    if IsLogin(h) then LoginRun(args, key, respond).calls else []
  }

  /** The credential slot after a handler ran. */
  function SlotAfter(h: Handler, args: Args, key: DpopKey, respond: Request -> Reply, slot: Option<AuthFetch>)
    : Option<AuthFetch>
  {
    if IsLogin(h) && LoginRun(args, key, respond).outcome.Success? then Some(LoginRun(args, key, respond).outcome.value)
    else slot
  }

  /** The handler of a looked-up entry, if any. */
  function HandlerOf(d: Option<ToolDefinition>): (h: Option<Handler>)
    ensures h.Some? <==> d.Some?
    ensures d.Some? ==> h.value == d.value.handler
  {
    if d.Some? then Some(d.value.handler) else None
  }

  /** The effect of a call that reached `h` (or no handler at all): the
      login handshake's requests and slot update, nothing otherwise. */
  twostate predicate Performed(h: Option<Handler>, args: Args, key: DpopKey, service: SolidCssMcpService, net: Network)
    reads service, net
  {
    if h.Some? then
      && net.sent == old(net.sent) + Sends(h.value, args, key, net.respond)
      && service.authFetch == SlotAfter(h.value, args, key, net.respond, old(service.authFetch))
    else
      && net.sent == old(net.sent)
      && service.authFetch == old(service.authFetch)
  }

  /** `await handler(args)` */
  method Invoke(h: Handler, args: Args, service: SolidCssMcpService, net: Network, key: DpopKey, pod: Pod)
    returns (o: Result<Returned, JsError>)
    modifies service, net
    ensures o == Outcome(h, args, key, net.respond, pod)
    ensures Performed(Some(h), args, key, service, net)
  {
    match h
    case SolidHandler(tool) =>
      var result := InvokeSolidTool(tool, args, service, net, key, pod);
      o := Success(Content(result));
    case Ping =>
      o := Success(Content(PongResult));
    case Custom(run) =>
      o := run(args);
  }

  /** The Solid handlers and `ping` always resolve to a content object: they
      never reject. */
  lemma BuiltInHandlersResolve(h: Handler, args: Args, key: DpopKey, respond: Request -> Reply, pod: Pod)
    requires !h.Custom?
    ensures Outcome(h, args, key, respond, pod).Success?
    ensures Outcome(h, args, key, respond, pod).value.Content?
    ensures |Outcome(h, args, key, respond, pod).value.result.content| == 1
  {
    if h.SolidHandler? {
      ToolResultShape(h.tool, args, LoginRun(args, key, respond).outcome, pod);
    }
  }

  // ---------------------------------------------------------------------
  // Normalisation

  /** The adapters' check `result && typeof result === 'object' &&
      result.content`: a content object passes through, a string becomes
      its own text, any other value its JSON text. */
  function Normalise(r: Returned): (c: CallToolResult)
    ensures r.Content? ==> c == r.result
    ensures r.Text? ==> c == TextResult(r.text)
    ensures r.Other? ==> c == TextResult(r.json)
  {
    match r
    case Content(result) => result
    case Text(text) => TextResult(text)
    case Other(json) => TextResult(json)
  }

  /** Normalising a normalised result changes nothing, and anything but a
      content object becomes exactly one text item. */
  lemma NormaliseIdempotent(r: Returned)
    ensures Normalise(Content(Normalise(r))) == Normalise(r)
    ensures !r.Content? ==> |Normalise(r).content| == 1
  {
  }

  // ---------------------------------------------------------------------
  // Tables

  /** Every entry is stored under its own name, as `tool(name, ...)` does. */
  ghost predicate NamesAgree(t: Table<ToolDefinition>) {
    |t.values| == |t.keys| && forall i :: 0 <= i < |t.keys| ==> t.values[i].name == t.keys[i]
  }

  /** `tool(name, description, inputSchema, handler)` on a table. */
  function Register(t: Table<ToolDefinition>, name: string, description: string, inputSchema: Schema, handler: Handler)
    : (r: Table<ToolDefinition>)
    requires t.Valid() && NamesAgree(t)
    ensures r.Valid() && NamesAgree(r)
    ensures name in t.keys ==> r.keys == t.keys
    ensures name !in t.keys ==>
      r.keys == t.keys + [name] && r.values == t.values + [ToolDefinition(name, description, inputSchema, handler)]
  {
    Set(t, name, ToolDefinition(name, description, inputSchema, handler))
  }

  /** After `tool(name, ...)` the name is bound to the new definition, and
      every other name keeps its definition: registering a name again
      replaces the earlier entry. */
  lemma {:induction false} RegisterThenGet(t: Table<ToolDefinition>, name: string, description: string, inputSchema: Schema,
                                            handler: Handler, other: string)
    requires t.Valid() && NamesAgree(t)
    ensures Get(Register(t, name, description, inputSchema, handler), name)
      == Some(ToolDefinition(name, description, inputSchema, handler))
    ensures other != name ==> Get(Register(t, name, description, inputSchema, handler), other) == Get(t, other)
  {
    GetAfterSet(t, name, ToolDefinition(name, description, inputSchema, handler), other);
  }

  /** What `register<X>Tool(server, service)` passes to `server.tool`. */
  function SolidDefinition(tool: SolidTool): ToolDefinition {
    ToolDefinition(Name(tool), Description(tool), InputSchema(tool), SolidHandler(tool))
  }

  /** The order in which every server registers the Solid tools. */
  const SolidToolOrder: seq<SolidTool> := [SolidLogin, ReadResource, WriteTextResource, ListContainer, DeleteResource]

  const SolidToolNames: seq<string> :=
    ["solid_login", "read_resource", "write_text_resource", "list_container", "delete_resource"]

  /** Where `tool` sits in the registration order. */
  function Position(tool: SolidTool): (i: nat)
    ensures i < |SolidToolOrder| && SolidToolOrder[i] == tool
  {
    match tool
    case SolidLogin => 0
    case ReadResource => 1
    case WriteTextResource => 2
    case ListContainer => 3
    case DeleteResource => 4
  }

  /** `server.tool(d.name, d.description, d.inputSchema, d.handler)` */
  function RegisterDefinition(t: Table<ToolDefinition>, d: ToolDefinition): (r: Table<ToolDefinition>)
    requires t.Valid() && NamesAgree(t)
    ensures r.Valid() && NamesAgree(r)
    ensures d.name !in t.keys ==> r.keys == t.keys + [d.name] && r.values == t.values + [d]
  {
    Register(t, d.name, d.description, d.inputSchema, d.handler)
  }

  /** The definitions of `tools`, in order. */
  function Definitions(tools: seq<SolidTool>): (ds: seq<ToolDefinition>)
    ensures |ds| == |tools|
    ensures forall i :: 0 <= i < |tools| ==> ds[i] == SolidDefinition(tools[i])
  {
    seq(|tools|, i requires 0 <= i < |tools| => SolidDefinition(tools[i]))
  }

  /** The names of `ds`, in order. */
  function NamesOf(ds: seq<ToolDefinition>): (names: seq<string>)
    ensures |names| == |ds|
    ensures forall i :: 0 <= i < |ds| ==> names[i] == ds[i].name
  {
    seq(|ds|, i requires 0 <= i < |ds| => ds[i].name)
  }

  /** `server.tool(d.name, d.description, d.inputSchema, d.handler)` for
      each definition of `ds`, in order. */
  function RegisterEach(t: Table<ToolDefinition>, ds: seq<ToolDefinition>): (r: Table<ToolDefinition>)
    requires t.Valid() && NamesAgree(t)
    ensures r.Valid() && NamesAgree(r)
    decreases |ds|
  {
    if ds == [] then t else RegisterEach(RegisterDefinition(t, ds[0]), ds[1..])
  }

  /** Registering definitions of distinct new names appends them in order. */
  lemma {:induction false} RegisterEachAppends(t: Table<ToolDefinition>, ds: seq<ToolDefinition>)
    requires t.Valid() && NamesAgree(t)
    requires forall i :: 0 <= i < |ds| ==> ds[i].name !in t.keys
    requires forall i, j :: 0 <= i < j < |ds| ==> ds[i].name != ds[j].name
    ensures RegisterEach(t, ds).keys == t.keys + NamesOf(ds)
    ensures RegisterEach(t, ds).values == t.values + ds
    decreases |ds|
  {
    if ds != [] {
      var d := ds[0];
      var t1 := RegisterDefinition(t, d);
      var rest := ds[1..];
      RegisterEachAppends(t1, rest);
      assert NamesOf(ds) == [d.name] + NamesOf(rest);
      assert ds == [d] + rest;
      SeqAssoc(t.keys, [d.name], NamesOf(rest));
      SeqAssoc(t.values, [d], rest);
    }
  }

  lemma SeqAssoc<T>(a: seq<T>, b: seq<T>, c: seq<T>)
    ensures a + (b + c) == (a + b) + c
  {
  }

  /** Registering five definitions is five registrations in a row. */
  lemma RegisterEachFive(t: Table<ToolDefinition>, ds: seq<ToolDefinition>)
    requires t.Valid() && NamesAgree(t) && |ds| == 5
    ensures RegisterEach(t, ds) == RegisterDefinition(RegisterDefinition(RegisterDefinition(RegisterDefinition(
      RegisterDefinition(t, ds[0]), ds[1]), ds[2]), ds[3]), ds[4])
  {
    var t1 := RegisterDefinition(t, ds[0]);
    var t2 := RegisterDefinition(t1, ds[1]);
    var t3 := RegisterDefinition(t2, ds[2]);
    var t4 := RegisterDefinition(t3, ds[3]);
    var t5 := RegisterDefinition(t4, ds[4]);
    assert RegisterEach(t4, ds[4..]) == RegisterEach(t5, []);
    assert RegisterEach(t3, ds[3..]) == RegisterEach(t4, ds[4..]);
    assert RegisterEach(t2, ds[2..]) == RegisterEach(t3, ds[3..]);
    assert RegisterEach(t1, ds[1..]) == RegisterEach(t2, ds[2..]);
  }

  /** The five registration calls every server makes, in the same order. */
  function WithSolidTools(t: Table<ToolDefinition>): (r: Table<ToolDefinition>)
    requires t.Valid() && NamesAgree(t)
    ensures r.Valid() && NamesAgree(r)
  {
    RegisterEach(t, Definitions(SolidToolOrder))
  }

  /** Each definition is stored under its tool's name. */
  lemma DefinitionNames(tools: seq<SolidTool>)
    ensures NamesOf(Definitions(tools)) == seq(|tools|, i requires 0 <= i < |tools| => Name(tools[i]))
  {
  }

  lemma OrderNames()
    ensures seq(|SolidToolOrder|, i requires 0 <= i < |SolidToolOrder| => Name(SolidToolOrder[i])) == SolidToolNames
  {
  }

  lemma SolidToolNamesDistinct()
    ensures forall i, j :: 0 <= i < j < |SolidToolNames| ==> SolidToolNames[i] != SolidToolNames[j]
  {
  }

  /** The five tools have the five distinct names, in registration order. */
  lemma SolidToolNamesInOrder()
    ensures NamesOf(Definitions(SolidToolOrder)) == SolidToolNames
    ensures forall i, j :: 0 <= i < j < |SolidToolNames| ==> SolidToolNames[i] != SolidToolNames[j]
  {
    DefinitionNames(SolidToolOrder);
    OrderNames();
    SolidToolNamesDistinct();
  }

  /** Registering the five tools on an empty table lists them in order, each
      under its name with its own definition. */
  lemma SolidToolsRegistered(t: Table<ToolDefinition>)
    requires t.Valid() && NamesAgree(t) && t.keys == []
    ensures WithSolidTools(t).keys == SolidToolNames
    ensures WithSolidTools(t).values == Definitions(SolidToolOrder)
  {
    SolidToolNamesInOrder();
    RegisterEachAppends(t, Definitions(SolidToolOrder));
  }

  /** Each tool's definition sits at its position in the registration order. */
  lemma DefinitionAtPosition(tool: SolidTool)
    ensures Definitions(SolidToolOrder)[Position(tool)] == SolidDefinition(tool)
  {
  }

  /** In a table keyed by the five names, each name is found at its tool's
      position. */
  lemma FoundAtPosition(t: Table<ToolDefinition>, tool: SolidTool)
    requires t.Valid() && t.keys == SolidToolNames
    ensures Get(t, Name(tool)) == Some(t.values[Position(tool)])
  {
    var i := Position(tool);
    assert t.keys[i] == Name(tool);
    GetAt(t, i);
  }

  /** Each registered Solid tool is found under its name. */
  lemma SolidToolFound(t: Table<ToolDefinition>, tool: SolidTool)
    requires t.Valid() && t.keys == SolidToolNames
    requires t.values == Definitions(SolidToolOrder)
    ensures Get(t, Name(tool)) == Some(SolidDefinition(tool))
  {
    FoundAtPosition(t, tool);
    DefinitionAtPosition(tool);
  }

  /** The five Solid tools, then one more definition, as the adapters do
      with `ping`. */
  function WithSolidToolsThen(t: Table<ToolDefinition>, extra: ToolDefinition): (r: Table<ToolDefinition>)
    requires t.Valid() && NamesAgree(t)
    ensures r.Valid() && NamesAgree(r)
  {
    RegisterDefinition(WithSolidTools(t), extra)
  }

  /** On an empty table, the five names come first and the extra name last. */
  lemma SolidToolsThenNames(t: Table<ToolDefinition>, extra: ToolDefinition)
    requires t.Valid() && NamesAgree(t) && t.keys == []
    requires extra.name !in SolidToolNames
    ensures WithSolidToolsThen(t, extra).keys == SolidToolNames + [extra.name]
  {
    SolidToolsRegistered(t);
  }

  /** On an empty table, each Solid tool and the extra definition are found
      under their names. */
  lemma {:induction false} SolidToolsThenFound(t: Table<ToolDefinition>, extra: ToolDefinition)
    requires t.Valid() && NamesAgree(t) && t.keys == []
    requires extra.name !in SolidToolNames
    ensures forall tool :: Get(WithSolidToolsThen(t, extra), Name(tool)) == Some(SolidDefinition(tool))
    ensures Get(WithSolidToolsThen(t, extra), extra.name) == Some(extra)
  {
    var s := WithSolidTools(t);
    SolidToolsRegistered(t);
    forall tool
      ensures Get(WithSolidToolsThen(t, extra), Name(tool)) == Some(SolidDefinition(tool))
    {
      SolidToolFound(s, tool);
      assert Name(tool) in SolidToolNames;
      RegisterThenGet(s, extra.name, extra.description, extra.inputSchema, extra.handler, Name(tool));
    }
    RegisterThenGet(s, extra.name, extra.description, extra.inputSchema, extra.handler, extra.name);
  }

  /** `Array.from(tools.values()).map(t => ({ name, description, inputSchema }))`:
      one record per registered name, in registration order, each the
      stored definition without its handler. */
  function Listing(t: Table<ToolDefinition>): (infos: seq<ToolInfo>)
    requires t.Valid() && NamesAgree(t)
    ensures |infos| == |t.keys|
    ensures forall i :: 0 <= i < |infos| ==>
      && infos[i].name == t.keys[i]
      && infos[i] == Info(t.values[i])
  {
    var vs := Values(t);
    seq(|vs|, i requires 0 <= i < |vs| => Info(vs[i]))
  }

  /** Every listed tool can be looked up by its listed name, and is listed
      with the name, description and schema stored for it. */
  lemma {:induction false} ListingFindsEach(t: Table<ToolDefinition>)
    requires t.Valid() && NamesAgree(t)
    ensures forall i :: 0 <= i < |Listing(t)| ==>
      Get(t, Listing(t)[i].name).Some? && Info(Get(t, Listing(t)[i].name).value) == Listing(t)[i]
  {
    forall i | 0 <= i < |Listing(t)|
      ensures Get(t, Listing(t)[i].name).Some? && Info(Get(t, Listing(t)[i].name).value) == Listing(t)[i]
    {
      GetAt(t, i);
    }
  }
}
