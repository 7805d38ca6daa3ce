/** The protocol's value types: connection state, wire messages, tool descriptors and the
    shape of a language-model reply. */
module CoreTypes {
  import opened Support

  datatype Status = Disconnected | Connecting | Connected | Error

  /** The engine's state: a status and an optional human-readable error. */
  datatype ServerState = ServerState(status: Status, error: Option<string>)

  /** A `Partial<ServerState>`: each field is either supplied or absent. Supplying
      `error: Some(None)` is the explicit `error: undefined` that clears it. */
  datatype StatePatch = StatePatch(status: Option<Status>, error: Option<Option<string>>)

  /** `{ ...s, ...p }`: supplied fields replace, absent fields are kept. */
  function Merge(s: ServerState, p: StatePatch): (r: ServerState)
    ensures p.status.Some? ==> r.status == p.status.value
    ensures p.status.None? ==> r.status == s.status
    ensures p.error.Some? ==> r.error == p.error.value
    ensures p.error.None? ==> r.error == s.error
  {
    ServerState(
      if p.status.Some? then p.status.value else s.status,
      if p.error.Some? then p.error.value else s.error)
  }

  /** A wire message; every kind carries the correlation id. */
  datatype Message =
    | Request(id: string, tool: string, args: map<string, Json>)
    | Response(id: string, payload: Json)
    | ErrorReply(id: string, code: string, message: string)
    | Notification(id: string, payload: Json)

  /** One entry of a tool's parameter list; an absent `required` is `false`. */
  datatype Param = Param(name: string, kind: string, description: string, required: bool)

  /** A tool descriptor; its `execute` is an oracle supplied where it is called. */
  datatype Tool = Tool(name: string, description: string, parameters: seq<Param>)

  /** One entry of a reply's `tool_calls`: the function name and its JSON-encoded arguments. */
  datatype ToolCallReq = ToolCallReq(name: string, arguments: string)

  /** A language-model reply: optional content and optional `tool_calls`. */
  datatype LlmReply = LlmReply(content: Option<string>, toolCalls: Option<seq<ToolCallReq>>)

  datatype Role = System | User | Assistant

  datatype ChatMessage = ChatMessage(role: Role, content: string)
}
