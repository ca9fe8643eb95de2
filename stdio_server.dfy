/** src/server.Stdio.ts: an adapter that collects the tools the Solid
    registration functions declare, wraps each handler so that its result
    is always a content object and its error carries the prefix "Tool
    execution failed: ", and a server that lists and calls them. The
    adapter's `callTool` and the server's `call_tool` handler each catch
    and rethrow with the prefix once more. */
module StdioServer {
  import opened Wrappers
  import opened JsMap
  import opened SolidService
  import opened SolidTools
  import opened McpTools

  /** The `ping` tool this server adds: `{ type: 'object', properties: {},
      required: [] }`. */
  const PingDefinition: ToolDefinition :=
    ToolDefinition("ping", "Test connectivity", ObjectSchema([], Some([])), Ping)

  /** `registerTools()`: the five Solid tools, then `ping`. */
  function Registered(t: Table<ToolDefinition>): (r: Table<ToolDefinition>)
    requires t.Valid() && NamesAgree(t)
    ensures r.Valid() && NamesAgree(r)
  {
    WithSolidToolsThen(t, PingDefinition)
  }

  /** The handler `tool()` stores around the one it is given: a result is
      normalised, an error is rethrown with the prefix. */
  function Wrapped(o: Result<Returned, JsError>): Result<CallToolResult, JsError> {
    match o
    case Success(v) => Success(Normalise(v))
    case Failure(e) => Failure(Prefixed(e))
  }

  /** `adapter.callTool(name, args)` */
  function AdapterCall(t: Table<ToolDefinition>, name: string, args: Args, key: DpopKey, respond: Request -> Reply,
                       pod: Pod): Result<CallToolResult, JsError>
    requires t.Valid()
  {
    match Get(t, name)
    case None => Failure(PlainError(UnknownTool(name)))
    case Some(d) => Rethrown(Wrapped(Outcome(d.handler, args, key, respond, pod)))
  }

  /** The `call_tool` request handler, for `request.params.arguments`
      possibly absent. */
  function ServerCall(t: Table<ToolDefinition>, name: string, args: Option<Args>, key: DpopKey,
                      respond: Request -> Reply, pod: Pod): Result<CallToolResult, JsError>
    requires t.Valid()
  {
    Rethrown(AdapterCall(t, name, ArgsOrEmpty(args), key, respond, pod))
  }

  /** An unknown name is rejected with one prefix; a handler's result comes
      back normalised; a handler's error comes back under three prefixes,
      one from the stored wrapper, one from `callTool` and one from the
      request handler. */
  lemma ServerCallCases(t: Table<ToolDefinition>, name: string, args: Option<Args>, key: DpopKey,
                        respond: Request -> Reply, pod: Pod)
    requires t.Valid()
    ensures Get(t, name).None? ==>
      ServerCall(t, name, args, key, respond, pod) == Failure(PlainError(FailurePrefix + UnknownTool(name)))
    ensures Get(t, name).Some? ==>
      var o := Outcome(Get(t, name).value.handler, ArgsOrEmpty(args), key, respond, pod);
      && (o.Success? ==> ServerCall(t, name, args, key, respond, pod) == Success(Normalise(o.value)))
      && (o.Failure? ==> ServerCall(t, name, args, key, respond, pod)
                         == Failure(PlainError(FailurePrefix + (FailurePrefix + (FailurePrefix + o.error.message)))))
  {
  }

  /** Registering on an empty table lists the five Solid tools, then
      `ping`. */
  lemma RegisteredNames(t: Table<ToolDefinition>)
    requires t.Valid() && NamesAgree(t) && t.keys == []
    ensures Registered(t).keys == SolidToolNames + ["ping"]
  {
    SolidToolsThenNames(t, PingDefinition);
  }

  /** Registering on an empty table binds the five Solid tools and `ping`
      each to its own definition. */
  lemma ToolsRegistered(t: Table<ToolDefinition>)
    requires t.Valid() && NamesAgree(t) && t.keys == []
    ensures forall tool :: Get(Registered(t), Name(tool)) == Some(SolidDefinition(tool))
    ensures Get(Registered(t), "ping") == Some(PingDefinition)
  {
    SolidToolsThenFound(t, PingDefinition);
  }

  /** A call to a name bound to `d` runs `d`'s handler. */
  lemma FoundCall(t: Table<ToolDefinition>, name: string, d: ToolDefinition, args: Option<Args>, key: DpopKey,
                  respond: Request -> Reply, pod: Pod)
    requires t.Valid() && Get(t, name) == Some(d)
    ensures ServerCall(t, name, args, key, respond, pod)
      == Rethrown(Rethrown(Wrapped(Outcome(d.handler, ArgsOrEmpty(args), key, respond, pod))))
  {
  }

  /** Once registered, a Solid tool never rejects: the call returns what
      its handler returns. */
  lemma {:induction false} SolidToolCall(t: Table<ToolDefinition>, tool: SolidTool, args: Option<Args>, key: DpopKey,
                                         respond: Request -> Reply, pod: Pod)
    requires t.Valid() && NamesAgree(t) && t.keys == []
    ensures var a := ArgsOrEmpty(args);
      ServerCall(Registered(t), Name(tool), args, key, respond, pod)
        == Success(ToolResult(tool, a, LoginRun(a, key, respond).outcome, pod))
  {
    ToolsRegistered(t);
    FoundCall(Registered(t), Name(tool), SolidDefinition(tool), args, key, respond, pod);
  }

  /** Once registered, `ping` answers "pong" whatever its arguments. */
  lemma {:induction false} PingCall(t: Table<ToolDefinition>, args: Option<Args>, key: DpopKey,
                                    respond: Request -> Reply, pod: Pod)
    requires t.Valid() && NamesAgree(t) && t.keys == []
    ensures ServerCall(Registered(t), "ping", args, key, respond, pod) == Success(PongResult)
  {
    ToolsRegistered(t);
    FoundCall(Registered(t), "ping", PingDefinition, args, key, respond, pod);
  }

  /** Any name but the six registered ones is unknown. */
  lemma {:induction false} UnregisteredCall(t: Table<ToolDefinition>, name: string, args: Option<Args>, key: DpopKey,
                                            respond: Request -> Reply, pod: Pod)
    requires t.Valid() && NamesAgree(t) && t.keys == []
    requires name !in SolidToolNames + ["ping"]
    ensures ServerCall(Registered(t), name, args, key, respond, pod) == Failure(PlainError(FailurePrefix + UnknownTool(name)))
  {
    RegisteredNames(t);
  }

  class McpServerAdapter {
    /** `tools: Map<string, ToolDefinition>` */
    var tools: Table<ToolDefinition>

    ghost predicate Valid()
      reads this
    {
      tools.Valid() && NamesAgree(tools)
    }

    constructor()
      ensures Valid() && tools.keys == []
    {
      tools := Empty();
    }

    /** `tool(name, description, inputSchema, handler)` */
    method Tool(name: string, description: string, inputSchema: Schema, handler: Handler)
      requires Valid()
      modifies this
      ensures Valid()
      ensures tools == Register(old(tools), name, description, inputSchema, handler)
    {
      tools := Register(tools, name, description, inputSchema, handler);
    }

    /** `getTools()`: one record per tool, in registration order. */
    function GetTools(): (infos: seq<ToolInfo>)
      reads this
      requires Valid()
      ensures |infos| == |tools.keys|
      ensures forall i :: 0 <= i < |infos| ==> infos[i].name == tools.keys[i] && infos[i] == Info(tools.values[i])
    {
      Listing(tools)
    }

    /** `callTool(name, args)` */
    method CallTool(name: string, args: Args, service: SolidCssMcpService, net: Network, key: DpopKey, pod: Pod)
      returns (r: Result<CallToolResult, JsError>)
      requires Valid()
      modifies service, net
      ensures r == AdapterCall(tools, name, args, key, net.respond, pod)
      ensures Performed(HandlerOf(Get(tools, name)), args, key, service, net)
    {
      var d := Get(tools, name);
      if d.None? {
        return Failure(PlainError(UnknownTool(name)));
      }
      var o := Invoke(d.value.handler, args, service, net, key, pod);
      r := Rethrown(Wrapped(o));
    }
  }

  class SolidMcpServer {
    const service: SolidCssMcpService
    const adapter: McpServerAdapter

    ghost predicate Valid()
      reads this, adapter
    {
      adapter.Valid()
    }

    /** A fresh service with an empty slot, and the six tools registered. */
    constructor()
      ensures Valid() && fresh(service) && fresh(adapter)
      ensures service.authFetch == None
      ensures adapter.tools.keys == SolidToolNames + ["ping"]
      ensures forall tool :: Get(adapter.tools, Name(tool)) == Some(SolidDefinition(tool))
      ensures Get(adapter.tools, "ping") == Some(PingDefinition)
    {
      service := new SolidCssMcpService();
      adapter := new McpServerAdapter();
      new;
      ghost var t0 := adapter.tools;
      RegisterTools();
      RegisteredNames(t0);
      ToolsRegistered(t0);
    }

    /** `registerTools()` */
    method RegisterTools()
      requires Valid()
      modifies adapter
      ensures Valid()
      ensures adapter.tools == Registered(old(adapter.tools))
    {
      ghost var t0 := adapter.tools;
      adapter.Tool(Name(SolidLogin), Description(SolidLogin), InputSchema(SolidLogin), SolidHandler(SolidLogin));
      adapter.Tool(Name(ReadResource), Description(ReadResource), InputSchema(ReadResource), SolidHandler(ReadResource));
      adapter.Tool(Name(WriteTextResource), Description(WriteTextResource), InputSchema(WriteTextResource),
                   SolidHandler(WriteTextResource));
      adapter.Tool(Name(ListContainer), Description(ListContainer), InputSchema(ListContainer),
                   SolidHandler(ListContainer));
      adapter.Tool(Name(DeleteResource), Description(DeleteResource), InputSchema(DeleteResource),
                   SolidHandler(DeleteResource));
      RegisterEachFive(t0, Definitions(SolidToolOrder));
      adapter.Tool("ping", "Test connectivity", ObjectSchema([], Some([])), Ping);
    }

    /** The `list_tools` request handler. */
    function ListTools(): (infos: seq<ToolInfo>)
      reads this, adapter
      requires Valid()
      ensures |infos| == |adapter.tools.keys|
      ensures forall i :: 0 <= i < |infos| ==> infos[i] == Info(adapter.tools.values[i])
    {
      adapter.GetTools()
    }

    /** The `call_tool` request handler. */
    method HandleCallTool(name: string, args: Option<Args>, net: Network, key: DpopKey, pod: Pod)
      returns (r: Result<CallToolResult, JsError>)
      requires Valid()
      modifies service, net
      ensures r == ServerCall(adapter.tools, name, args, key, net.respond, pod)
      ensures Performed(HandlerOf(Get(adapter.tools, name)), ArgsOrEmpty(args), key, service, net)
    {
      var result := adapter.CallTool(name, ArgsOrEmpty(args), service, net, key, pod);
      r := Rethrown(result);
    }
  }
}
