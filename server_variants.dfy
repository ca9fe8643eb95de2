/** How the three servers differ as seen by an MCP client: the Solid tools
    answer alike in all three, a handler's error reaches the client under
    three, one or no prefixes, and only the two adapters know `ping`. */
module ServerVariants {
  import opened Wrappers
  import opened JsMap
  import opened SolidService
  import opened SolidTools
  import opened McpTools
  import StdioServer
  import AdaptedServer
  import RegistryServer

  /** A Solid tool call gets the same content object from each server. */
  lemma {:induction false} SolidToolsAgree(t: Table<ToolDefinition>, tool: SolidTool, args: Option<Args>, key: DpopKey,
                                           respond: Request -> Reply, pod: Pod)
    requires t.Valid() && NamesAgree(t) && t.keys == []
    ensures var stdio := StdioServer.ServerCall(StdioServer.Registered(t), Name(tool), args, key, respond, pod);
      && stdio.Success?
      && AdaptedServer.ServerCall(AdaptedServer.Registered(t), Name(tool), args, key, respond, pod) == stdio
      && RegistryServer.ServerCall(WithSolidTools(t), Name(tool), args, key, respond, pod) == Success(Content(stdio.value))
  {
    StdioServer.SolidToolCall(t, tool, args, key, respond, pod);
    AdaptedServer.SolidToolCall(t, tool, args, key, respond, pod);
    RegistryServer.SolidToolCall(t, tool, args, key, respond, pod);
  }

  /** A handler that rejects with `e` is reported by the stdio server under
      three prefixes, by the adapted server under one, and by the registry
      server as `e` itself. */
  lemma {:induction false} ErrorPrefixes(t: Table<ToolDefinition>, name: string, args: Option<Args>, key: DpopKey,
                                         respond: Request -> Reply, pod: Pod, e: JsError)
    requires t.Valid() && name in t.keys
    requires Outcome(Get(t, name).value.handler, ArgsOrEmpty(args), key, respond, pod) == Failure(e)
    ensures StdioServer.ServerCall(t, name, args, key, respond, pod)
      == Failure(PlainError(FailurePrefix + (FailurePrefix + (FailurePrefix + e.message))))
    ensures AdaptedServer.ServerCall(t, name, args, key, respond, pod) == Failure(PlainError(FailurePrefix + e.message))
    ensures RegistryServer.ServerCall(t, name, args, key, respond, pod) == Failure(e)
  {
    StdioServer.ServerCallCases(t, name, args, key, respond, pod);
    AdaptedServer.ServerCallCases(t, name, args, key, respond, pod);
    RegistryServer.ServerCallCases(t, name, args, key, respond, pod);
  }

  /** An unknown name is reported under one prefix by both adapters and
      without one by the registry server. */
  lemma {:induction false} UnknownNamePrefixes(t: Table<ToolDefinition>, name: string, args: Option<Args>, key: DpopKey,
                                               respond: Request -> Reply, pod: Pod)
    requires t.Valid() && name !in t.keys
    ensures StdioServer.ServerCall(t, name, args, key, respond, pod) == Failure(PlainError(FailurePrefix + UnknownTool(name)))
    ensures AdaptedServer.ServerCall(t, name, args, key, respond, pod) == Failure(PlainError(FailurePrefix + UnknownTool(name)))
    ensures RegistryServer.ServerCall(t, name, args, key, respond, pod) == Failure(PlainError(UnknownTool(name)))
  {
    StdioServer.ServerCallCases(t, name, args, key, respond, pod);
    AdaptedServer.ServerCallCases(t, name, args, key, respond, pod);
    RegistryServer.ServerCallCases(t, name, args, key, respond, pod);
  }

  /** `ping` answers "pong" from both adapters. */
  lemma {:induction false} PingInAdapters(t: Table<ToolDefinition>, args: Option<Args>, key: DpopKey,
                                          respond: Request -> Reply, pod: Pod)
    requires t.Valid() && NamesAgree(t) && t.keys == []
    ensures StdioServer.ServerCall(StdioServer.Registered(t), "ping", args, key, respond, pod)
      == AdaptedServer.ServerCall(AdaptedServer.Registered(t), "ping", args, key, respond, pod)
      == Success(PongResult)
  {
    StdioServer.PingCall(t, args, key, respond, pod);
    AdaptedServer.PingCall(t, args, key, respond, pod);
  }

  /** `ping` is unknown to the registry server. */
  lemma {:induction false} PingNotInRegistry(t: Table<ToolDefinition>, args: Option<Args>, key: DpopKey,
                                             respond: Request -> Reply, pod: Pod)
    requires t.Valid() && NamesAgree(t) && t.keys == []
    ensures RegistryServer.ServerCall(WithSolidTools(t), "ping", args, key, respond, pod)
      == Failure(PlainError(UnknownTool("ping")))
  {
    RegistryServer.UnregisteredCall(t, "ping", args, key, respond, pod);
  }

  /** The adapters declare `ping` alike but for its schema: one with an
      empty `required` list, one without. */
  lemma PingSchemasDiffer()
    ensures StdioServer.PingDefinition.(inputSchema := AdaptedServer.PingDefinition.inputSchema)
      == AdaptedServer.PingDefinition
    ensures StdioServer.PingDefinition.inputSchema.required == Some([])
    ensures AdaptedServer.PingDefinition.inputSchema.required == None
  {
  }
}
