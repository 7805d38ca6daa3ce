/** The server framework's value types: tool and resource descriptors, the result of
    an execution, and the server's observable state. */
module ServerTypes {
  import opened Support

  /** A tool parameter; its zod schema is not modelled. */
  datatype ServerParam = ServerParam(name: string, description: string, required: bool, default: Option<Json>)

  /** A server-side tool; `validate`, `execute` and `cleanup` are oracles supplied where
      they are called, and `hasCleanup` says whether the optional `cleanup` exists. */
  datatype ServerTool = ServerTool(name: string, description: string, parameters: seq<ServerParam>, hasCleanup: bool)

  /** A resource, identified by its URI; `fetch` and `exists` are oracles. */
  datatype ServerResource = ServerResource(uri: string, contentType: string)

  /** `ExecutionResult`: the error is kept as its message. */
  datatype ExecutionResult = ExecutionResult(success: bool, data: Option<Json>, error: Option<string>, duration: int)

  /** `ServerState`; the start time is a clock reading and the errors their messages. */
  datatype ServerState = ServerState(isRunning: bool, connections: nat, startTime: nat, errors: seq<string>)
}
