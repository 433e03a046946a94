/** Shapes of the data the conversation core passes around: chat messages,
    the content blocks of a model response, tool-use requests, the outcome of
    an MCP tool call, and the tool-name-to-client routing table. */
module Types {

  datatype Option<+T> = None | Some(value: T)

  datatype Role = User | Assistant

  /** One entry of the conversation history sent to the model. */
  datatype Message = Message(role: Role, content: string)

  /** A `tool_use` block: the model asks for tool `name` with the argument
      object `input` (kept as its JSON text; it is only passed through). */
  datatype ToolUseBlock = ToolUseBlock(id: string, name: string, input: string)

  /** A content block of a model response. */
  datatype ContentBlock = Text(text: string) | ToolUse(block: ToolUseBlock)

  /** One content item of a successful tool result. */
  datatype ResultItem = ResultItem(text: string)

  /** What `callTool` did: returned content items, or threw. For a throw,
      `message` stands for the `.message` of the `McpError` that `main`
      rebuilds from the caught value, not necessarily the caught value's own
      message; it is all the core uses of the error. */
  datatype ToolOutcome = Succeeded(content: seq<ResultItem>) | Failed(message: string)

  /** Identity of a connected MCP client. */
  type ClientId = nat

  /** One entry of `toolServerMap`, in the map's insertion order. A route is
      the map as already built, so its names are distinct (a `Map` holds each
      key once; a later `set` of a name replaces its client in place). */
  datatype RouteEntry = RouteEntry(name: string, client: ClientId)
}
