/** The sequential-thinking server: a running flag over a registry that holds the
    file-system and process tools while the server runs, and the dispatch of tool and
    resource requests to the registry's entries. */
module ThinkingServer {
  import opened Support
  import opened ServerTypes
  import opened ServerRegistry

  const FileSystemTool := ServerTool("file-system", "File system operations like read, write, list files", [
    ServerParam("operation", "The operation to perform", true, None),
    ServerParam("path", "File or directory path", true, None),
    ServerParam("content", "Content to write (for write operation)", false, None)], false)

  const ProcessTool := ServerTool("process", "Execute shell commands and processes", [
    ServerParam("command", "The command to execute", true, None),
    ServerParam("cwd", "Working directory for the command", false, None),
    ServerParam("timeout", "Timeout in milliseconds", false, Some(JNum(30000)))], false)

  /** A tool's `validate` and `execute`, and a resource's `fetch`: what they return or throw. */
  type Validator = (ServerTool, Json) -> bool
  type Executor = (ServerTool, Json) -> Result<ExecutionResult, Thrown>
  type Fetcher = ServerResource -> Result<ExecutionResult, Thrown>
  /** A tool's `cleanup`: `None` when it resolves, or what it rejects with. */
  type Cleaner = ServerTool -> Option<Thrown>

  /** The short-circuit answer: no data, an error, and zero duration. */
  function Refusal(message: string): ExecutionResult {
    ExecutionResult(false, None, Some(message), 0)
  }

  /** The dispatch policy of `handleToolCall` on the looked-up tool. */
  function ToolCall(found: Option<ServerTool>, name: string, args: Json, validate: Validator, execute: Executor)
    : (r: Result<ExecutionResult, Thrown>)
    ensures found.None? ==> r == Ok(Refusal("Tool '" + name + "' not found"))
    ensures found.Some? && !validate(found.value, args) ==> r == Ok(Refusal("Invalid arguments for tool '" + name + "'"))
    ensures found.Some? && validate(found.value, args) ==> r == execute(found.value, args)
  {
    match found
    case None => Ok(Refusal("Tool '" + name + "' not found"))
    case Some(tool) =>
      if !validate(tool, args) then Ok(Refusal("Invalid arguments for tool '" + name + "'"))
      else execute(tool, args)
  }

  /** A refused call does not depend on `execute`: it is never called, and the answer
      is a failure of zero duration. */
  lemma RefusalIgnoresExecute(found: Option<ServerTool>, name: string, args: Json, validate: Validator,
                              e1: Executor, e2: Executor)
    requires found.None? || !validate(found.value, args)
    ensures ToolCall(found, name, args, validate, e1) == ToolCall(found, name, args, validate, e2)
    ensures var r := ToolCall(found, name, args, validate, e1);
      r.Ok? && !r.value.success && r.value.duration == 0 && r.value.data.None?
  {
  }

  /** The tools among `tools` that define `cleanup`, in order. */
  function WithCleanup(tools: seq<ServerTool>): (r: seq<ServerTool>)
    ensures forall t :: t in r <==> t in tools && t.hasCleanup
    ensures (forall i :: 0 <= i < |tools| ==> !tools[i].hasCleanup) ==> r == []
  {
    if tools == [] then []
    else (if tools[0].hasCleanup then [tools[0]] else []) + WithCleanup(tools[1..])
  }

  /** What `Promise.all` over the cleanups rejects with: the first rejection. */
  function FirstRejection(invoked: seq<ServerTool>, cleanup: Cleaner): (e: Option<Thrown>)
    ensures e.None? <==> forall i :: 0 <= i < |invoked| ==> cleanup(invoked[i]).None?
    ensures e.Some? ==> exists i :: 0 <= i < |invoked| && cleanup(invoked[i]) == e
  {
    if invoked == [] then None
    else if cleanup(invoked[0]).Some? then cleanup(invoked[0])
    else
      var e := FirstRejection(invoked[1..], cleanup);
      assert e.Some? ==> cleanup(invoked[1..][0]) == e || exists i :: 1 <= i < |invoked| && cleanup(invoked[i]) == e by {
        if e.Some? {
          var i :| 0 <= i < |invoked[1..]| && cleanup(invoked[1..][i]) == e;
          assert invoked[i + 1] == invoked[1..][i];
        }
      }
      assert forall i :: 1 <= i < |invoked| ==> invoked[i] == invoked[1..][i - 1];
      e
  }

  class SequentialThinkingServer {
    const registry: Registry
    var isRunning: bool
    var startTime: nat
    var connections: nat
    var errors: seq<string>

    /** The registry is valid, holds no resource, and holds either nothing or exactly
        the two tools `initialize` registers, which it holds whenever the server runs. */
    ghost predicate Valid()
      reads this, registry
    {
      && registry.Valid()
      && registry.resources == map[] && registry.resourceOrder == []
      && (|| (registry.tools == map[] && registry.toolOrder == [])
          || (&& registry.tools == map["file-system" := FileSystemTool, "process" := ProcessTool]
              && registry.toolOrder == ["file-system", "process"]))
      && (isRunning ==> registry.toolOrder != [])
    }

    constructor (now: nat)
      ensures Valid() && fresh(registry)
      ensures !isRunning && startTime == now && connections == 0 && errors == []
      ensures registry.toolOrder == []
    {
      registry := new Registry();
      isRunning, startTime, connections, errors := false, now, 0, [];
    }

    /** `getState`: a copy of the state. */
    function GetState(): (s: ServerState)
      reads this
      ensures s.isRunning == isRunning && s.connections == connections
      ensures s.startTime == startTime && s.errors == errors
    {
      ServerState(isRunning, connections, startTime, errors)
    }

    /** `initialize`: registers the file-system tool, then the process tool; a second
        call fails on the first of them and changes nothing. */
    method Initialize() returns (r: Result<(), string>)
      requires Valid()
      modifies registry
      ensures Valid()
      ensures old(registry.toolOrder) == [] ==> r.Ok? && registry.toolOrder == ["file-system", "process"]
      ensures old(registry.toolOrder) != [] ==> r == Err("Tool with name file-system already registered")
      ensures old(registry.toolOrder) != [] ==> registry.tools == old(registry.tools) && registry.toolOrder == old(registry.toolOrder)
      ensures registry.tools == map["file-system" := FileSystemTool, "process" := ProcessTool]
    {
      assert FileSystemTool.name == "file-system" && ProcessTool.name == "process";
      assert "Tool with name " + "file-system" + " already registered" == "Tool with name file-system already registered";
      r := registry.RegisterTool(FileSystemTool);
      if r.Err? {
        return;
      }
      r := registry.RegisterTool(ProcessTool);
    }

    /** `start`: refuses to start twice; otherwise registers the tools and runs. */
    method Start(now: nat) returns (r: Result<(), string>)
      requires Valid()
      modifies this, registry
      ensures Valid()
      ensures old(isRunning) ==> r == Err("Server is already running") && isRunning && startTime == old(startTime)
      ensures old(isRunning) ==> registry.tools == old(registry.tools) && registry.toolOrder == old(registry.toolOrder)
      ensures !old(isRunning) && old(registry.toolOrder) == [] ==> r.Ok? && isRunning && startTime == now
      ensures !old(isRunning) && old(registry.toolOrder) != [] ==>
        r == Err("Tool with name file-system already registered") && !isRunning && startTime == old(startTime)
      ensures !old(isRunning) && old(registry.toolOrder) != [] ==>
        registry.tools == old(registry.tools) && registry.toolOrder == old(registry.toolOrder)
      ensures connections == old(connections) && errors == old(errors)
    {
      if isRunning {
        return Err("Server is already running");
      }
      r := Initialize();
      if r.Err? {
        return;
      }
      isRunning := true;
      startTime := now;
    }

    /** `stop`: refuses when not running; otherwise calls each registered tool's
        `cleanup`, and stops and empties the registry even when a cleanup rejects. */
    method Stop(cleanup: Cleaner) returns (r: Result<(), Thrown>, invoked: seq<ServerTool>)
      requires Valid()
      modifies this, registry
      ensures Valid()
      ensures !old(isRunning) ==> r == Err(Fail("Server is not running")) && invoked == [] && !isRunning
      ensures !old(isRunning) ==> registry.tools == old(registry.tools) && registry.toolOrder == old(registry.toolOrder)
      ensures old(isRunning) ==> invoked == WithCleanup(old(registry.GetTools()))
      ensures old(isRunning) ==> (r.Err? <==> FirstRejection(invoked, cleanup).Some?)
      ensures old(isRunning) && FirstRejection(invoked, cleanup).Some? ==> r == Err(FirstRejection(invoked, cleanup).value)
      ensures old(isRunning) ==> !isRunning && registry.tools == map[] && registry.toolOrder == []
      ensures old(isRunning) ==> invoked == [] && r.Ok?
      ensures startTime == old(startTime) && connections == old(connections) && errors == old(errors)
    {
      if !isRunning {
        return Err(Fail("Server is not running")), [];
      }
      var tools := registry.GetTools();
      assert forall i :: 0 <= i < |tools| ==> !tools[i].hasCleanup;
      invoked := WithCleanup(tools);
      assert invoked == [];
      var rejection := FirstRejection(invoked, cleanup);
      r := match rejection
        case Some(e) => Err(e)
        case None => Ok(());
      isRunning := false;
      registry.Clear();
    }

    /** `handleToolCall`: refuses an unknown name or invalid arguments without running
        the tool; otherwise answers with what the tool's `execute` answers. */
    function HandleToolCall(name: string, args: Json, validate: Validator, execute: Executor)
      : (r: Result<ExecutionResult, Thrown>)
      reads this, registry
      ensures name !in registry.tools ==> r == Ok(Refusal("Tool '" + name + "' not found"))
      ensures name in registry.tools && !validate(registry.tools[name], args) ==>
        r == Ok(Refusal("Invalid arguments for tool '" + name + "'"))
      ensures name in registry.tools && validate(registry.tools[name], args) ==> r == execute(registry.tools[name], args)
    {
      ToolCall(registry.GetTool(name), name, args, validate, execute)
    }

    /** `handleResourceRequest`: an unknown URI is refused; since the server never
        registers a resource, every request is. */
    function HandleResourceRequest(uri: string, fetch: Fetcher): (r: Result<ExecutionResult, Thrown>)
      reads this, registry
      ensures uri !in registry.resources ==> r == Ok(Refusal("Resource '" + uri + "' not found"))
      ensures uri in registry.resources ==> r == fetch(registry.resources[uri])
      ensures Valid() ==> r == Ok(Refusal("Resource '" + uri + "' not found"))
    {
      match registry.GetResource(uri)
      case None => Ok(Refusal("Resource '" + uri + "' not found"))
      case Some(resource) => fetch(resource)
    }
  }

  /** A second `start` is refused while the server runs. */
  method StartTwice() returns (first: Result<(), string>, second: Result<(), string>)
    ensures first.Ok?
    ensures second == Err("Server is already running")
  {
    var server := new SequentialThinkingServer(0);
    first := server.Start(1);
    second := server.Start(2);
  }

  /** On a running server the tests' unknown tool name is refused without running a tool. */
  method UnknownTool(validate: Validator, execute: Executor) returns (tool: Result<ExecutionResult, Thrown>)
    ensures tool == Ok(ExecutionResult(false, None, Some("Tool 'fileSystem' not found"), 0))
  {
    var server := new SequentialThinkingServer(0);
    var started := server.Start(1);
    assert "fileSystem" != "file-system" && "fileSystem" != "process";
    assert "Tool '" + "fileSystem" + "' not found" == "Tool 'fileSystem' not found";
    tool := server.HandleToolCall("fileSystem", JObj(map[]), validate, execute);
  }

  /** On a running server the tests' resource URI is refused. */
  method UnknownResource(fetch: Fetcher) returns (resource: Result<ExecutionResult, Thrown>)
    ensures resource == Ok(ExecutionResult(false, None, Some("Resource 'test-resource' not found"), 0))
  {
    var server := new SequentialThinkingServer(0);
    var started := server.Start(1);
    assert "Resource '" + "test-resource" + "' not found" == "Resource 'test-resource' not found";
    resource := server.HandleResourceRequest("test-resource", fetch);
  }

  /** Start, stop, start and stop all succeed: `stop` empties the registry, so the
      second `start` registers the tools again without a clash. */
  method StopAndRestart(cleanup: Cleaner)
    returns (first: Result<(), string>, stopped: Result<(), Thrown>,
             restarted: Result<(), string>, stoppedAgain: Result<(), Thrown>)
    ensures first.Ok? && stopped.Ok? && restarted.Ok? && stoppedAgain.Ok?
  {
    var server := new SequentialThinkingServer(0);
    first := server.Start(1);
    var invoked;
    stopped, invoked := server.Stop(cleanup);
    restarted := server.Start(2);
    stoppedAgain, invoked := server.Stop(cleanup);
  }
}
