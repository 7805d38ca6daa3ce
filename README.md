# A verified model of the sandbox MCP toolkit

This project models the in-memory core of a small Model Context Protocol toolkit written in TypeScript. The core has six parts:

- **The protocol engine `MCP`** (`McpCore`). It has a tool map, a state machine over disconnected / connecting / connected / error with state-change observers, and a reconnect counter bounded by 3 with delays of 1000·n ms. It also decides when to send a heartbeat probe, dispatches inbound requests to tools, and has a reserved `health_check` path.
- **The client orchestrator `MCPClient`** (`McpClient`). It has a connect retry and a tool-call retry, each capped at 3 with linear back-off. It also keeps a five-minute cache of resources and prompts, and an append-only chat history.
- **The server framework's `Registry`** (`ServerRegistry`). Tools and resources are each registered in their own map, and a second registration under the same key is refused.
- **The `SequentialThinkingServer`** (`ThinkingServer`). It has a start/stop state machine over a registry, and a dispatch policy that refuses unknown tools and invalid arguments.
- **The `SequentialThinkingTool`** (`ThinkingTool`). It runs a bounded step loop driven by the language model, and builds the step prompt.
- **The OpenAI request shaping** (`OpenAI`). It covers the constructor's key check and defaults, the system/user message list, and the conversion of tool descriptors into function definitions.

Module `Support` holds the shared value types:

- optional values and results;
- what a `catch` receives (`Thrown`);
- JSON values;
- the decimal rendering of numbers in template literals.

Module `CoreTypes` holds the protocol's message and tool types. Module `ServerTypes` holds the server framework's types.

The transport, the language model, tool execution, `JSON.parse`/`JSON.stringify`, the clock and `process.uptime()` are outside the model. Each is a parameter:

- a send oracle that decides whether a message is accepted;
- a chat oracle indexed by call number;
- run, validate, fetch and cleanup oracles;
- parse and stringify functions;
- `now` and `uptime` as numbers.

Timers are not run. The engine records the delays it would schedule in `scheduled`, and the client records them in `waits`.

Code that mutates state is modelled as classes with `modifies` frames:

- the engine, the client, the registry and the server;
- the thinking tool's step loop;
- the prompt builder's `+=` accumulation.

Each such method is proved against a specification function (`Dispatch`, `Retrying`, `RunToolCalls`, `Stamped`, `Loop`, `PromptText`, `Messages`). Lemmas about those functions state what the source promises.

## Model

| member | source | states |
|---|---|---|
| McpCore.MCP.constructor | packages/mcp-core/src/index.ts:15-25 | a fresh engine has no tools, no transport, no heartbeat, zero reconnect attempts, `lastMessageTime = now` and status disconnected without error |
| McpCore.MCP.RegisterTool | packages/mcp-core/src/index.ts:27-29 | the map becomes `tools[t.name := t]`: a tool of the same name is replaced in place, with no duplicate check; a new name is appended to the insertion order; the tool is then listed |
| McpCore.MCP.ListTools | packages/mcp-core/src/index.ts:31-33 | each registered tool exactly once, in first-registration order, and nothing else |
| McpCore.MCP.OnStateChange | packages/mcp-core/src/index.ts:35-37 | the callback is appended to the observers |
| McpCore.MCP.UpdateState | packages/mcp-core/src/index.ts:39-42 | the new state is the old one with only the supplied fields replaced (`Merge`); every observer is invoked once, in registration order, with the new state |
| CoreTypes.Merge | packages/mcp-core/src/index.ts:40 | supplied fields replace, absent ones are kept; an explicit `error: undefined` clears the error |
| McpCore.MCP.WaitForConnection | packages/mcp-core/src/index.ts:72-90 | registers a waiter at the next position; whatever the current state, its promise is still pending (it reacts only to later changes) |
| McpCore.SettleSkip | packages/mcp-core/src/index.ts:78-86 | invocations that carry neither connected nor error, or go to other observers, do not affect a waiter's settlement |
| McpCore.SettleNeverInvoked | packages/mcp-core/src/index.ts:78-86 | a waiter never invoked with connected or error stays pending |
| McpCore.MCP.Start | packages/mcp-core/src/index.ts:184-190 | without a transport it throws "Transport not connected" and changes nothing; otherwise it marks the engine connected and notifies all observers |
| McpCore.MCP.Connect | packages/mcp-core/src/index.ts:48-61 | as written: ends attached, heartbeat on, status connected, with the deliveries connecting-then-connected to the earlier observers only, and the new waiter still pending; tools, counter and log untouched |
| McpCore.ConnectMissesItsOwnTransition | packages/mcp-core/src/index.ts:48-90 | a fresh engine that connects is connected yet its waiter is pending |
| McpCore.MCP.ConnectObserved | packages/mcp-core/src/index.ts:48-61 | corrected connect: the same end state, and the waiter registered first is resolved by the transition this call makes |
| McpCore.SettleAfterConnect | packages/mcp-core/src/index.ts:71-89 | a waiter registered after all earlier invocations, then broadcast connecting and then connected, is resolved: connecting leaves it pending and connected resolves it |
| McpCore.ConnectObservedResolves | packages/mcp-core/src/index.ts:48-90 | with the corrected connect a fresh engine's waiter resolves |
| McpCore.MCP.ConnectFailed | packages/mcp-core/src/index.ts:62-69 | a rejected wait: the call rejects with "Failed to connect to MCP server: " and the message; `handleConnectionError` then acts as `Recover` says (a retry counts the attempt, marks the engine connecting with "Reconnecting... Attempt n/3" and schedules the delay; giving up marks it errored with the reason and schedules nothing), and every observer sees the new state; transport, heartbeat, tools, observers and log are untouched |
| McpCore.Recover | packages/mcp-core/src/index.ts:92-121 | below 3 attempts: retry as attempt n+1 after 1000·(n+1) ms; at 3: give up with the error's message or "Connection failed after multiple attempts" |
| McpCore.MCP.HandleConnectionError | packages/mcp-core/src/index.ts:92-121 | below the bound: counter +1, status connecting with "Reconnecting... Attempt n/3", one delay 1000·n scheduled; at the bound: status error with the reason, nothing scheduled; the counter never decreases |
| McpCore.AttemptsAfterBounded | packages/mcp-core/src/index.ts:95-96 | after n errors from a the counter is min(a+n, 3): bounded, monotone, never reset |
| McpCore.ConsecutiveErrors | packages/mcp-core/src/index.ts:92-121 | from a fresh engine the first three errors schedule reconnects after 1000, 2000 and 3000 ms, every later one gives up |
| McpCore.MCP.FireReconnect | packages/mcp-core/src/index.ts:107-111 | with a transport still set, `connect` as written runs again with all of its effects: attached, heartbeat on, connecting-then-connected delivered to the earlier observers, the engine connected, the new waiter appended and still pending; tools, order, log, closes, last-message time, counter and scheduled delays unchanged; without a transport nothing changes at all |
| McpCore.ReconnectStaysPending | packages/mcp-core/src/index.ts:48-111 | as written, a fresh engine whose connect times out schedules one reconnect after 1000 ms, and when it fires the engine is connected but the new waiter is pending again |
| McpCore.MCP.StartHealthCheck | packages/mcp-core/src/index.ts:123-131 | the heartbeat timer is set |
| McpCore.MCP.CheckHealth | packages/mcp-core/src/index.ts:133-153 | a `health_check` request on id `health-check-<now>` is sent only with a transport and strictly more than 60000 ms of silence; if that send fails nothing is sent and the error goes through `Recover` (retry or give up) with every observer notified; otherwise nothing changes; the timer, transport, tools and last-message time are never touched |
| McpCore.MCP.Disconnect | packages/mcp-core/src/index.ts:155-182 | heartbeat and transport cleared, status disconnected with no error, every observer notified; a transport got one disconnect notification and was closed only if the notification was accepted; counter, scheduled delays, tools, observers and last-message time are untouched |
| McpCore.RouteOf | packages/mcp-core/src/index.ts:195-202 | a `health_check` request is answered, any other request forwarded, every other message skipped |
| McpCore.MCP.HandleHealthCheck | packages/mcp-core/src/index.ts:209-221 | with a transport, answers on the request's id with status healthy, uptime and timestamp, without consulting the tool map; without one, does nothing |
| McpCore.Dispatch | packages/mcp-core/src/index.ts:223-252 | without a transport: throws and sends nothing; otherwise at most one message, always on the request's id, exactly one when sends succeed; success iff the tool exists, runs and its response is accepted, and then the response carries the returned result; a missing tool ("Tool not found: <name>"), a failing tool and a refused response each send EXECUTION_ERROR with the error's message (or "Unknown error") and rethrow that error, and if that reply is refused too its own error escapes with nothing sent |
| McpCore.MCP.HandleRequest | packages/mcp-core/src/index.ts:223-252 | the log grows by exactly `Dispatch`'s messages and the outcome is `Dispatch`'s |
| McpCore.MCP.SendError | packages/mcp-core/src/index.ts:241-251 | the catch block: as described by `Fallback` |
| McpCore.DispatchScenario | packages/mcp-core/src/index.ts:223-252 | a registered tool's request is answered with its result; an unregistered one with EXECUTION_ERROR "Tool not found: ghost" |
| McpCore.MCP.Receive | packages/mcp-core/src/index.ts:192-205 | every message sets `lastMessageTime` (so no probe is due for 60000 ms); probes are answered, other requests dispatched with the log growing by exactly `Dispatch`'s messages, other messages ignored; while the loop goes on, state, counter, deliveries and delays are unchanged; a throw ends the loop and goes through `Recover` with that error, every observer notified |
| McpCore.MCP.StreamEnded | packages/mcp-core/src/index.ts:203-206 | a stream that ends normally changes nothing; one that throws goes through `Recover` with that error and every observer sees the new state |
| OpenAI.NewProvider | packages/mcp-core/src/providers/openai.ts:16-35 | throws the key message iff the given key (or, if absent, the environment's) is missing or empty; model defaults to gpt-3.5-turbo and max tokens to 1000 |
| OpenAI.Messages | packages/mcp-core/src/providers/openai.ts:42-54 | `[system, user]` when the system prompt is non-empty, otherwise `[user]`, the prompt as user content |
| OpenAI.BuildMessages | packages/mcp-core/src/providers/openai.ts:42-54 | the two pushes build exactly `Messages` |
| OpenAI.Definitions | packages/mcp-core/src/providers/openai.ts:56-78 | one definition per tool in the same order, type function, name and description copied, schema of type object with the properties map and the required list |
| OpenAI.PropertiesConcat | packages/mcp-core/src/providers/openai.ts:63-72 | the reduce over a concatenation is a map union in which the later part wins |
| OpenAI.PropertiesKeys | packages/mcp-core/src/providers/openai.ts:63-72 | one key per parameter name and no other |
| OpenAI.PropertiesLastWins | packages/mcp-core/src/providers/openai.ts:63-72 | each key holds the type and description of the last parameter with that name |
| OpenAI.RequiredConcat | packages/mcp-core/src/providers/openai.ts:73-75 | the required list keeps declaration order |
| OpenAI.RequiredMembers | packages/mcp-core/src/providers/openai.ts:73-75 | exactly the names of the parameters marked required are listed |
| OpenAI.RequestFor | packages/mcp-core/src/providers/openai.ts:80-87 | the request carries the configured model and token limit, `Messages`, one definition per tool and tool choice auto |
| OpenAI.GenerateToolCalls | packages/mcp-core/src/providers/openai.ts:37-89 | the reply is the endpoint's answer to exactly `RequestFor` |
| ThinkingTool.WithoutSelf | packages/mcp-core/src/tools/sequential-thinking.ts:38 | keeps exactly the tools not named sequential_thinking |
| ThinkingTool.WithoutSelfConcat | packages/mcp-core/src/tools/sequential-thinking.ts:38 | the filter distributes over concatenation, so it keeps the original order |
| ThinkingTool.SequentialThinkingTool.constructor | packages/mcp-core/src/tools/sequential-thinking.ts:32-43 | available tools are `WithoutSelf(tools)`; max steps default to 5 and the system prompt to the default text, `??` keeping supplied values |
| ThinkingTool.FindTool | packages/mcp-core/src/tools/sequential-thinking.ts:64-66 | none iff no tool has the name; otherwise the first tool with it |
| ThinkingTool.Decide | packages/mcp-core/src/tools/sequential-thinking.ts:52-88 | a provider failure is rethrown; no or empty tool calls stop with thought content or "Task completed."; the first call's unknown tool throws "Tool not found: <name>"; a parse or run failure stops with action "<name> failed: ..." and no result; otherwise the thought is content or "" |
| ThinkingTool.Failed | packages/mcp-core/src/tools/sequential-thinking.ts:83-85 | the action starts with "<name> failed: " |
| ThinkingTool.LoopBounded | packages/mcp-core/src/tools/sequential-thinking.ts:50-96 | at most `maxSteps` provider calls, one step per call, goal and context echoed, earlier steps kept |
| ThinkingTool.LoopTrace | packages/mcp-core/src/tools/sequential-thinking.ts:50-89 | every recorded step is what its iteration decided from the steps before it; all but the last continued the loop, and the last stopped it when fewer than `maxSteps` calls were made |
| ThinkingTool.SequentialThinkingTool.Execute | packages/mcp-core/src/tools/sequential-thinking.ts:45-96 | the loop computes `Loop` over the provider's replies; at most `maxSteps` calls, goal echoed, context echoed or "", one step per call, each accounted for by its iteration |
| ThinkingTool.BuildPrompt | packages/mcp-core/src/tools/sequential-thinking.ts:98-123 | the `+=` accumulation builds exactly `PromptText` |
| ThinkingTool.StepBlock | packages/mcp-core/src/tools/sequential-thinking.ts:110-118 | one step's numbered thought line, then its action line if any, then its result line if any |
| ThinkingTool.PromptOpensWithGoal | packages/mcp-core/src/tools/sequential-thinking.ts:103 | the prompt starts with "Goal: " + goal + "\n" |
| ThinkingTool.PromptContextLine | packages/mcp-core/src/tools/sequential-thinking.ts:104-106 | a "Context: " line follows the goal exactly when the context is non-empty |
| ThinkingTool.PromptStepsSection | packages/mcp-core/src/tools/sequential-thinking.ts:108-119 | "\nPrevious steps:\n" follows the header exactly when there are steps |
| ThinkingTool.StepsNumberedFromOne | packages/mcp-core/src/tools/sequential-thinking.ts:110-111 | the step list opens with "1. Thought: " and the first step's thought |
| ThinkingTool.StepsTextSnoc | packages/mcp-core/src/tools/sequential-thinking.ts:110-118 | the block of the step at position i, numbered i+1, comes right after the blocks of the steps before it |
| ThinkingTool.PromptClosesWithQuestion | packages/mcp-core/src/tools/sequential-thinking.ts:121 | the prompt always ends with "\nWhat should be the next step?" |
| ServerRegistry.Registry.constructor | packages/mcp-server/src/framework/registry.ts:8-11 | both maps start empty |
| ServerRegistry.Registry.RegisterTool | packages/mcp-server/src/framework/registry.ts:13-18 | refused with "Tool with name <n> already registered" iff the name is present, then both maps unchanged; otherwise exactly that entry is added and resources are untouched |
| ServerRegistry.Registry.RegisterResource | packages/mcp-server/src/framework/registry.ts:20-25 | refused with "Resource with URI <u> already registered" iff the uri is present; otherwise exactly that entry is added |
| ServerRegistry.Registry.GetTool | packages/mcp-server/src/framework/registry.ts:27-29 | the stored tool or none, never failing |
| ServerRegistry.Registry.GetResource | packages/mcp-server/src/framework/registry.ts:31-33 | the stored resource or none, never failing |
| ServerRegistry.Registry.GetTools | packages/mcp-server/src/framework/registry.ts:35-37 | exactly the stored tools, each once, in insertion order |
| ServerRegistry.Registry.ListResources | packages/mcp-server/src/framework/registry.ts:39-41 | exactly the stored resources, each once, in insertion order |
| ServerRegistry.Registry.Clear | packages/mcp-server/src/framework/registry.ts:43-46 | both maps empty |
| ServerRegistry.ClearAllowsReregistration | packages/mcp-server/src/framework/registry.ts:13-46 | a duplicate is refused, and after `clear` the same tool and resource register again |
| ThinkingServer.SequentialThinkingServer.constructor | examples/sequential-thinking/src/server.ts:18-27 | not running, start time now, no connections, no errors, empty registry |
| ThinkingServer.SequentialThinkingServer.GetState | examples/sequential-thinking/src/server.ts:29-31 | a copy of the four state fields |
| ThinkingServer.SequentialThinkingServer.Initialize | examples/sequential-thinking/src/server.ts:33-37 | on an empty registry registers file-system then process; a second call fails on file-system and changes nothing |
| ThinkingServer.SequentialThinkingServer.Start | examples/sequential-thinking/src/server.ts:39-47 | refused with "Server is already running" while running, registry unchanged; otherwise registers the tools, runs and records the start time; if the tools were already registered by a direct `initialize`, it fails with "Tool with name file-system already registered", stays stopped and leaves the registry unchanged |
| ThinkingServer.SequentialThinkingServer.Stop | examples/sequential-thinking/src/server.ts:49-68 | refused with "Server is not running" when stopped, staying stopped with the registry unchanged; otherwise calls cleanup on each tool that has one, fails with the first rejection iff one rejects, and stops and empties the registry either way |
| ThinkingServer.WithCleanup | examples/sequential-thinking/src/server.ts:58-62 | exactly the tools that define cleanup |
| ThinkingServer.FirstRejection | examples/sequential-thinking/src/server.ts:57-63 | none iff every cleanup resolves; otherwise one of the rejections |
| ThinkingServer.ToolCall | examples/sequential-thinking/src/server.ts:75-92 | unknown name: failure "Tool '<n>' not found" of duration 0; invalid arguments: failure "Invalid arguments for tool '<n>'" of duration 0; otherwise execute's answer unchanged |
| ThinkingServer.RefusalIgnoresExecute | examples/sequential-thinking/src/server.ts:75-90 | a refused call does not depend on execute and is a failure of duration 0 with no data |
| ThinkingServer.SequentialThinkingServer.HandleToolCall | examples/sequential-thinking/src/server.ts:70-93 | `ToolCall` on the registry's entry for the name |
| ThinkingServer.SequentialThinkingServer.HandleResourceRequest | examples/sequential-thinking/src/server.ts:95-109 | an unknown uri is refused with duration 0, a known one is fetched; since the server registers no resource, every request is refused |
| ThinkingServer.StartTwice | examples/sequential-thinking/src/server.test.ts:45-47 | a second start is refused with "Server is already running" |
| ThinkingServer.UnknownTool | examples/sequential-thinking/src/server.test.ts:31-36 | on a running server the tool name "fileSystem" is answered with a "not found" refusal |
| ThinkingServer.UnknownResource | examples/sequential-thinking/src/server.test.ts:38-43 | on a running server the URI "test-resource" is answered with a "not found" refusal |
| ThinkingServer.StopAndRestart | examples/sequential-thinking/src/server.test.ts:49-57 | start, stop, start, stop all succeed |
| McpClient.ProviderFor | packages/mcp-client/src/client.ts:32-35 | the provider takes the configured key (an empty one throws even when the environment has a key), the configured model or gpt-4, and 1000 tokens |
| McpClient.NewClient | packages/mcp-client/src/client.ts:24-36 | the constructor fails exactly when the provider does; a new client is disconnected with an empty history |
| McpClient.RetryingShape | packages/mcp-client/src/client.ts:227-265 | a retried run makes at most 4 − counter attempts; all but the last failed; success resets the counter; giving up leaves it at 3 with "prefix + message"; the i-th wait is 1000·(counter+i+1) |
| McpClient.RetryingGivesUpIffAllFail | packages/mcp-client/src/client.ts:248-263 | the run gives up exactly when every permitted attempt fails |
| McpClient.MCPClient.Connect | packages/mcp-client/src/client.ts:38-67 | as written: "Already connected" when attached; success resets the counter; a failure below 3 counts a retry, waits 1000·n and then the retry itself throws "Already connected"; at 3 "Failed to connect after 3 attempts: ..." |
| McpClient.RetryHitsGuard | packages/mcp-client/src/client.ts:43-59 | a fresh client whose first attempt fails ends with "Already connected", one retry counted and the transport still set |
| McpClient.MCPClient.ConnectWithRetry | packages/mcp-client/src/client.ts:38-67 | corrected: result, counter and waits are those of `Retrying` over the attempts; connected iff it succeeded |
| McpClient.RetryRecovers | packages/mcp-client/src/client.ts:38-67 | with the correction, failing once then succeeding connects after one 1000 ms wait |
| McpClient.MCPClient.Disconnect | packages/mcp-client/src/client.ts:69-79 | the transport is cleared |
| McpClient.MCPClient.ListTools | packages/mcp-client/src/client.ts:81-96 | "Client is not connected" without a transport, else the engine's tools |
| McpClient.MCPClient.ListResources | packages/mcp-client/src/client.ts:98-133 | refused without a transport; otherwise one list request; a failure is wrapped "Failed to list resources: " with the cache unchanged; success returns the list and stamps each item into the cache (`Stamped`) |
| McpClient.MCPClient.ListPrompts | packages/mcp-client/src/client.ts:135-170 | the same for prompts, keyed by name |
| McpClient.StampResource | packages/mcp-client/src/client.ts:118-121 | a stamped resource keeps its uri and data and gets `lastFetched = now` |
| McpClient.StampPrompt | packages/mcp-client/src/client.ts:155-158 | a stamped prompt keeps its name, template and arguments and gets `lastFetched = now` |
| McpClient.StampedKeys | packages/mcp-client/src/client.ts:117-122 | afterwards the cache holds the earlier keys and the listed ones, no others |
| McpClient.StampedUntouched | packages/mcp-client/src/client.ts:117-122 | entries not listed are untouched |
| McpClient.StampedLastWins | packages/mcp-client/src/client.ts:117-122 | a listed key holds its last listed item, stamped with the clock |
| McpClient.MCPClient.FetchResource | packages/mcp-client/src/client.ts:278-320 | a hit iff an entry exists and `now − (lastFetched ?? 0) < 300000`: then the cached data with no request; otherwise one request, success overwrites the entry with `{uri, data, now}`, failure is wrapped and leaves the cache |
| McpClient.StaleIsMiss | packages/mcp-client/src/client.ts:333 | the re-list test of executePrompt is the exact complement of the hit test of fetchResource |
| McpClient.MCPClient.RefreshPrompts | packages/mcp-client/src/client.ts:334-338 | re-lists the prompts, then throws "Prompt not found: <name>" iff the listing lacks the name |
| McpClient.PromptOutcome | packages/mcp-client/src/client.ts:353-362 | the engine's answer, or its failure wrapped "Failed to execute prompt: " |
| McpClient.MCPClient.ExecutePrompt | packages/mcp-client/src/client.ts:322-363 | refused without a transport; a missing or stale prompt is re-listed first; a listing failure or a still-unknown name is reported under "Failed to execute prompt: " with no run request; otherwise one run request with the name and the arguments or `{}` |
| McpClient.ToolRequests | packages/mcp-client/src/client.ts:236-243 | each attempt whose arguments parse issues the same tool request; none otherwise |
| McpClient.OnTrackStart | packages/mcp-client/src/client.ts:227-265 | before the first attempt the retry loop is on track with the whole run of `Retrying` ahead of it |
| McpClient.OnTrackSucceeds | packages/mcp-client/src/client.ts:244-246 | on track, a successful attempt k ends the run with that attempt's value, the counter reset, k + 1 attempts and every delay waited |
| McpClient.OnTrackRetries | packages/mcp-client/src/client.ts:248-256 | on track, a failed attempt below the cap followed by counting the retry and waiting 1000 ms times the new counter stays on track |
| McpClient.OnTrackGivesUp | packages/mcp-client/src/client.ts:258-263 | on track, a failed attempt at the cap ends the run with "prefix + message", the counter at 3, k + 1 attempts and every delay waited |
| McpClient.MCPClient.ToolRound | packages/mcp-client/src/client.ts:236-263 | one attempt of a tool call: it finishes as `Retrying` says on success or at the cap, or counts the retry, waits and stays on track, issuing a request when the arguments parse |
| McpClient.MCPClient.ExecuteToolCall | packages/mcp-client/src/client.ts:227-265 | "Not connected" without a transport; otherwise result, counter and waits are those of `Retrying` (reset on success, 3 and "Failed to execute tool <n> after 3 attempts: ..." on giving up), with one request per attempt whose arguments parse |
| McpClient.RetryingBounded | packages/mcp-client/src/client.ts:248-263 | the counter after a retried run is within 3 |
| McpClient.ExecuteCall | packages/mcp-client/src/client.ts:227-265 | one tool call as a value (`Retrying` over its attempts, with the requests of `ToolRequests`) never takes the counter over 3 |
| McpClient.RunToolCallsShape | packages/mcp-client/src/client.ts:195-223 | the loop adds at most one turn per call, exactly one per call when all succeed, all of them the assistant's, and a failure's last turn is the apology with its message |
| McpClient.RunToolCallsKeepsCap | packages/mcp-client/src/client.ts:195-207 | with every call keeping the counter within 3, so does the whole loop |
| McpClient.CallsAheadFails | packages/mcp-client/src/client.ts:197-223 | on track, a failing call with the apology turn appended completes the loop's run |
| McpClient.CallsAheadAdvances | packages/mcp-client/src/client.ts:197-206 | on track, a call that yields a result, with its JSON turn appended, stays on track for the remaining calls |
| McpClient.MCPClient.RecordToolCalls | packages/mcp-client/src/client.ts:195-207 | history, result, counter, delays and requests are exactly those of `RunToolCalls` over `Executor`: each call in order runs as `executeToolCall` does, a result appends its JSON text as an assistant turn and the loop goes on, a failure appends the apology turn and ends it |
| McpClient.MCPClient.RecordReply | packages/mcp-client/src/client.ts:195-223 | tool calls: exactly the turns, result, counter, delays and requests of `RunToolCalls`; no tool calls: exactly one turn with the content or ""; every added turn is the assistant's and a failure ends with the apology turn |
| McpClient.MCPClient.SendMessage | packages/mcp-client/src/client.ts:172-225 | "Not connected" leaves the history untouched; otherwise the user turn is recorded and then: a model failure adds exactly the apology turn and is rethrown; no tool calls add exactly one turn with the content or ""; tool calls add exactly the turns of `RunToolCalls`, with its result, counter, delays and requests; every later turn is the assistant's and any failure ends with the apology turn |
| McpClient.MCPClient.GetMessages | packages/mcp-client/src/client.ts:274-276 | the history as a value, so later changes to it are not seen by the caller |
| McpClient.CacheRoundTrip | packages/mcp-client/src/client.ts:284-311 | a fetched resource is served from the cache within five minutes without a request, and fetched again when stale |
| Support.DecimalRoundTrip | packages/mcp-core/src/index.ts:142 | the rendering of `${Date.now()}` in ids reads back as the number |
| Support.DecimalInjective | packages/mcp-core/src/index.ts:142 | ids built from distinct clock readings are distinct |

## Left out

- Timers: `setInterval`, `setTimeout`, the 5-second connect timeout and the order in which timers fire are not modelled. Delays that would be scheduled are recorded as values, and the firing of a scheduled reconnect is the separate method `FireReconnect`.
- The transport (`StdioTransport`, packages/mcp-core/src/transport/stdio.ts): Node stream I/O is not part of this model. It is the `attached` flag, the accepted-message log and a send-failure oracle. Inbound messages are handed to `Receive` one at a time.
- `JSON.parse` and `JSON.stringify` are foreign calls and are parameters. JSON numbers are integers. A `tool_calls` argument string that parses to a non-object is not distinguished, and neither is a list response that is not an array.
- The provider's `temperature` (0.7) is a float and is not modelled. The chat-completions call itself is network I/O and is an oracle.
- The environment configuration (packages/mcp-core/src/config/env.ts) is I/O. The environment's key is a parameter.
- The UI (React), the demo drivers, the tools' filesystem and process I/O, and their zod validators are not part of this model. Validation, execution, fetch and cleanup are oracles.
- The `auth` argument of the server's dispatch is passed through unread and is not modelled.
- `Date.now()` and `process.uptime()` are parameters. Each client and engine operation reads one clock value, so the clock does not advance within a call or across the retry waits.
- Asynchronous interleaving is not modelled. Each method runs to completion.
- McpCore.MCP.Connect: models only the synchronous part of `connect`; the later timeout rejection is `ConnectFailed`.
- McpClient.MCPClient.Connect: the "Failed to create transport" branch cannot be reached, because a constructor never yields `null`, and is not modelled.
- McpClient.MCPClient.Disconnect: the engine's own disconnect is not modelled here, because the client's engine is an oracle. Only the clearing of the transport is stated, which holds whatever that call does.
- McpClient.MCPClient.ListTools: `MCP.listTools` cannot throw, so the "Failed to list tools" wrapper is unreachable and not modelled. The client's engine never has tools registered, and the tools are a parameter.
- McpCore.MCP.UpdateState: an observer that throws aborts the `forEach` at packages/mcp-core/src/index.ts:41, so later observers are not called and the error escapes; observers here always return, so every observer is notified.
- ThinkingTool.SequentialThinkingTool.Execute: `maxSteps` is a natural number; a fractional value, for which the loop at packages/mcp-core/src/tools/sequential-thinking.ts:50 runs ⌈maxSteps⌉ times, is not modelled.
- ThinkingServer.SequentialThinkingServer.Stop: `Promise.all` rejects with whichever rejection settles first in time. The model takes the first in registry order, and every registered tool's cleanup is started.
- Where the code differs from its documentation, the model follows the code:
  - an inbound stream that ends normally does not trigger a reconnect;
  - `reconnectAttempts` is never reset after a successful connection, so once three errors have occurred over the engine's lifetime every later error gives up at once;
  - a failed disconnect notification skips `close()`;
  - the thinking server only ever holds the file-system and process tools, neither of which defines `cleanup`, and it never registers a resource.

## Findings

| source | as written | input that shows it | evidently intended | confidence | as-written member | corrected member |
|---|---|---|---|---|---|---|
| packages/mcp-core/src/index.ts:48-61 | `connect` starts `start()` before registering the wait; `start()` marks the engine connected before its first `await`, so the waiter misses that transition | a fresh engine connecting to a transport that sends nothing: the wait can only time out after 5 s | register the waiter before the state changes, so the connected transition resolves it | not executed | McpCore.MCP.Connect, McpCore.ConnectMissesItsOwnTransition | McpCore.MCP.ConnectObserved, McpCore.ConnectObservedResolves |
| packages/mcp-client/src/client.ts:43-59 | a failed attempt leaves `this.transport` set, so the retry `this.connect()` throws "Already connected" | a fresh client whose first `mcp.connect` rejects | clear the transport after a failed attempt so that the retry reconnects | not executed | McpClient.MCPClient.Connect, McpClient.RetryHitsGuard | McpClient.MCPClient.ConnectWithRetry, McpClient.RetryRecovers |
