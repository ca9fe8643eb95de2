/** src/server.ts: a registry that stores each tool as it is declared, and
    a server that registers the five Solid tools (no `ping`), lists them and
    hands a call straight to the stored handler: its result is returned as
    the handler gives it and its error passes through unchanged. */
module RegistryServer {
  import opened Wrappers
  import opened JsMap
  import opened SolidService
  import opened SolidTools
  import opened McpTools

  /** The `call_tool` request handler: `getTool(name)`, then
      `tool.handler(args || {})`. */
  function ServerCall(t: Table<ToolDefinition>, name: string, args: Option<Args>, key: DpopKey,
                      respond: Request -> Reply, pod: Pod): Result<Returned, JsError>
    requires t.Valid()
  {
    match Get(t, name)
    case None => Failure(PlainError(UnknownTool(name)))
    case Some(d) => Outcome(d.handler, ArgsOrEmpty(args), key, respond, pod)
  }

  /** An unknown name is rejected without any prefix; otherwise the call is
      exactly the handler's own result or error. */
  lemma ServerCallCases(t: Table<ToolDefinition>, name: string, args: Option<Args>, key: DpopKey,
                        respond: Request -> Reply, pod: Pod)
    requires t.Valid()
    ensures Get(t, name).None? ==>
      ServerCall(t, name, args, key, respond, pod) == Failure(PlainError(UnknownTool(name)))
    ensures Get(t, name).Some? ==>
      ServerCall(t, name, args, key, respond, pod)
        == Outcome(Get(t, name).value.handler, ArgsOrEmpty(args), key, respond, pod)
  {
  }

  /** Once registered, a Solid tool never rejects: the call resolves to the
      content object its handler builds. */
  lemma {:induction false} SolidToolCall(t: Table<ToolDefinition>, tool: SolidTool, args: Option<Args>, key: DpopKey,
                                         respond: Request -> Reply, pod: Pod)
    requires t.Valid() && NamesAgree(t) && t.keys == []
    ensures var a := ArgsOrEmpty(args);
      ServerCall(WithSolidTools(t), Name(tool), args, key, respond, pod)
        == Success(Content(ToolResult(tool, a, LoginRun(a, key, respond).outcome, pod)))
  {
    SolidToolsRegistered(t);
    SolidToolFound(WithSolidTools(t), tool);
  }

  /** Any other name, `ping` among them, is unknown. */
  lemma {:induction false} UnregisteredCall(t: Table<ToolDefinition>, name: string, args: Option<Args>, key: DpopKey,
                                            respond: Request -> Reply, pod: Pod)
    requires t.Valid() && NamesAgree(t) && t.keys == []
    requires name !in SolidToolNames
    ensures ServerCall(WithSolidTools(t), name, args, key, respond, pod) == Failure(PlainError(UnknownTool(name)))
  {
    SolidToolsRegistered(t);
  }

  class McpToolRegistry {
    /** `tools: Map<string, any>` */
    var tools: Table<ToolDefinition>

    ghost predicate Valid()
      reads this
    {
      tools.Valid() && NamesAgree(tools)
    }

    constructor()
      ensures Valid() && tools.keys == []
    {
      tools := Empty();
    }

    /** `tool(name, description, inputSchema, handler)` */
    method Tool(name: string, description: string, inputSchema: Schema, handler: Handler)
      requires Valid()
      modifies this
      ensures Valid()
      ensures tools == Register(old(tools), name, description, inputSchema, handler)
    {
      tools := Register(tools, name, description, inputSchema, handler);
    }

    /** `getTool(name)`: the entry stored under `name`, `undefined` when
        there is none. */
    function GetTool(name: string): (d: Option<ToolDefinition>)
      reads this
      requires Valid()
      ensures d.Some? <==> name in tools.keys
      ensures d.Some? ==> d.value.name == name
    {
      Get(tools, name)
    }

    /** `listTools()`: one record per tool, in registration order. */
    function ListTools(): (infos: seq<ToolInfo>)
      reads this
      requires Valid()
      ensures |infos| == |tools.keys|
      ensures forall i :: 0 <= i < |infos| ==> infos[i].name == tools.keys[i] && infos[i] == Info(tools.values[i])
    {
      Listing(tools)
    }
  }

  class SolidPodMcpServer {
    const service: SolidCssMcpService
    const registry: McpToolRegistry

    ghost predicate Valid()
      reads this, registry
    {
      registry.Valid()
    }

    /** A fresh service with an empty slot, and the five tools registered. */
    constructor()
      ensures Valid() && fresh(service) && fresh(registry)
      ensures service.authFetch == None
      ensures registry.tools.keys == SolidToolNames
      ensures forall tool :: registry.GetTool(Name(tool)) == Some(SolidDefinition(tool))
    {
      service := new SolidCssMcpService();
      registry := new McpToolRegistry();
      new;
      ghost var t0 := registry.tools;
      RegisterAllTools();
      SolidToolsRegistered(t0);
      forall tool
        ensures registry.GetTool(Name(tool)) == Some(SolidDefinition(tool))
      {
        SolidToolFound(registry.tools, tool);
      }
    }

    /** `registerAllTools()` */
    method RegisterAllTools()
      requires Valid()
      modifies registry
      ensures Valid()
      ensures registry.tools == WithSolidTools(old(registry.tools))
    {
      ghost var t0 := registry.tools;
      registry.Tool(Name(SolidLogin), Description(SolidLogin), InputSchema(SolidLogin), SolidHandler(SolidLogin));
      registry.Tool(Name(ReadResource), Description(ReadResource), InputSchema(ReadResource), SolidHandler(ReadResource));
      registry.Tool(Name(WriteTextResource), Description(WriteTextResource), InputSchema(WriteTextResource),
                    SolidHandler(WriteTextResource));
      registry.Tool(Name(ListContainer), Description(ListContainer), InputSchema(ListContainer),
                    SolidHandler(ListContainer));
      registry.Tool(Name(DeleteResource), Description(DeleteResource), InputSchema(DeleteResource),
                    SolidHandler(DeleteResource));
      RegisterEachFive(t0, Definitions(SolidToolOrder));
    }

    /** The `list_tools` request handler. */
    function ListTools(): (infos: seq<ToolInfo>)
      reads this, registry
      requires Valid()
      ensures |infos| == |registry.tools.keys|
      ensures forall i :: 0 <= i < |infos| ==> infos[i] == Info(registry.tools.values[i])
    {
      registry.ListTools()
    }

    /** The `call_tool` request handler. */
    method HandleCallTool(name: string, args: Option<Args>, net: Network, key: DpopKey, pod: Pod)
      returns (r: Result<Returned, JsError>)
      requires Valid()
      modifies service, net
      ensures r == ServerCall(registry.tools, name, args, key, net.respond, pod)
      ensures Performed(HandlerOf(registry.GetTool(name)), ArgsOrEmpty(args), key, service, net)
    {
      var tool := registry.GetTool(name);
      if tool.None? {
        return Failure(PlainError(UnknownTool(name)));
      }
      r := Invoke(tool.value.handler, ArgsOrEmpty(args), service, net, key, pod);
    }
  }
}
