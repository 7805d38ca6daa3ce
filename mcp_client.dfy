/** The client orchestrator: a connection with a bounded retry, a tool call with a
    bounded retry and linear back-off, a five-minute cache of resources and prompts,
    and the conversation history. The protocol engine's request handling and the
    language model are oracles. */
module McpClient {
  import opened Support
  import opened CoreTypes
  import OpenAI

  const MaxRetries: nat := 3
  const RetryDelay: nat := 1000
  const CacheTtl: nat := 300000
  const DefaultModel := "gpt-4"
  const SystemPrompt :=
    "You are a helpful assistant that can use tools to help users.\n"
    + "Your responses should be clear and concise.\n"
    + "When using tools, explain what you're doing and why.\n"
    + "If you encounter any errors, explain them clearly to the user."
  const Apology := "I apologize, but I encountered an error: "
  const ConnectFailure := "Failed to connect after 3 attempts: "
  const PromptFailure := "Failed to execute prompt: "
  const PromptListFailure := "Failed to list prompts: "
  const PromptMissing := "Prompt not found: "

  datatype ClientConfig = ClientConfig(
    name: string, version: string, serverScript: Option<string>, openaiApiKey: string, model: Option<string>)

  /** A cached resource; `lastFetched` is a clock reading in milliseconds. */
  datatype Resource = Resource(uri: string, data: Json, lastFetched: Option<nat>)

  datatype PromptArgument = PromptArgument(name: string, kind: string, description: string, required: bool)

  /** A cached prompt template. */
  datatype Prompt = Prompt(
    name: string, description: string, template: string, arguments: seq<PromptArgument>, lastFetched: Option<nat>)

  /** The provider the constructor builds. The configured key is always present, so the
      environment's key is never consulted, and an empty configured key throws. */
  function ProviderFor(config: ClientConfig, envKey: Option<string>): (r: Result<OpenAI.ProviderConfig, string>)
    ensures r.Err? <==> config.openaiApiKey == ""
    ensures r.Err? ==> r.error == OpenAI.MissingKey
    ensures r.Ok? ==> r.value.apiKey == config.openaiApiKey
    ensures r.Ok? ==> r.value.model == OrElse(config.model, DefaultModel) && r.value.maxTokens == OpenAI.DefaultMaxTokens
  {
    OpenAI.NewProvider(Some(config.openaiApiKey), envKey, Some(OrElse(config.model, DefaultModel)), None)
  }

  /** The outcome of a retried operation: its result, the retry counter afterwards, the
      number of attempts made in all, and the delays waited between them. */
  datatype Backoff<T> = Backoff(result: Result<T, Thrown>, retries: nat, attempts: nat, waits: seq<nat>)

  /** The retry discipline `connect` means to follow and `executeToolCall` follows:
      attempt k; on success reset the counter; on failure below the cap, count the
      retry, wait 1000 ms times the counter and try again; at the cap give up with the
      prefix and the last error's message. */
  function Retrying<T>(retries: nat, k: nat, attempt: nat -> Result<T, Thrown>, prefix: string): Backoff<T>
    decreases MaxRetries - retries
  {
    var outcome := attempt(k);
    if outcome.Ok? then Backoff(outcome, 0, k + 1, [])
    else if retries < MaxRetries then
      var rest := Retrying(retries + 1, k + 1, attempt, prefix);
      Backoff(rest.result, rest.retries, rest.attempts, [RetryDelay * (retries + 1)] + rest.waits)
    else Backoff(Err(Fail(prefix + MessageOr(outcome.error, "Unknown error"))), retries, k + 1, [])
  }

  /** The shape of a retried run that starts at attempt k with the counter at `retries`:
      it makes at most `MaxRetries - retries` further attempts after the first; every
      attempt but the last failed; success resets the counter and returns the last
      attempt's value; giving up leaves the counter at the cap after all permitted
      attempts failed; and the i-th wait is 1000 ms times the counter after i + 1 retries. */
  lemma {:induction false} RetryingShape<T>(retries: nat, k: nat, attempt: nat -> Result<T, Thrown>, prefix: string)
    requires retries <= MaxRetries
    ensures var b := Retrying(retries, k, attempt, prefix);
      && k < b.attempts <= k + 1 + (MaxRetries - retries)
      && (forall j :: k <= j < b.attempts - 1 ==> attempt(j).Err?)
      && (b.result.Ok? ==> b.retries == 0 && b.result == attempt(b.attempts - 1))
      && (b.result.Err? ==> (&& b.retries == MaxRetries
                             && b.attempts == k + 1 + (MaxRetries - retries)
                             && attempt(b.attempts - 1).Err?
                             && b.result.error == Fail(prefix + MessageOr(attempt(b.attempts - 1).error, "Unknown error"))))
      && |b.waits| == b.attempts - 1 - k
      && (forall i :: 0 <= i < |b.waits| ==> b.waits[i] == RetryDelay * (retries + i + 1))
    decreases MaxRetries - retries
  {
    var outcome := attempt(k);
    if outcome.Err? && retries < MaxRetries {
      RetryingShape(retries + 1, k + 1, attempt, prefix);
      var rest := Retrying(retries + 1, k + 1, attempt, prefix);
      var b := Retrying(retries, k, attempt, prefix);
      assert b.waits == [RetryDelay * (retries + 1)] + rest.waits;
      assert forall i :: 1 <= i < |b.waits| ==> b.waits[i] == rest.waits[i - 1];
    }
  }

  /** The counter after a retried run is within the cap. */
  lemma RetryingBounded<T>(retries: nat, k: nat, attempt: nat -> Result<T, Thrown>, prefix: string)
    requires retries <= MaxRetries
    ensures Retrying(retries, k, attempt, prefix).retries <= MaxRetries
  {
    RetryingShape(retries, k, attempt, prefix);
  }

  /** A retried run gives up exactly when every permitted attempt fails. */
  lemma RetryingGivesUpIffAllFail<T>(retries: nat, k: nat, attempt: nat -> Result<T, Thrown>, prefix: string)
    requires retries <= MaxRetries
    ensures Retrying(retries, k, attempt, prefix).result.Err? <==>
      forall j :: k <= j <= k + (MaxRetries - retries) ==> attempt(j).Err?
  {
    RetryingShape(retries, k, attempt, prefix);
  }

  /** One step of `Retrying`: a successful attempt ends the run. */
  lemma RetryingSucceeds<T>(retries: nat, k: nat, attempt: nat -> Result<T, Thrown>, prefix: string)
    requires retries <= MaxRetries && attempt(k).Ok?
    ensures Retrying(retries, k, attempt, prefix) == Backoff(attempt(k), 0, k + 1, [])
  {
  }

  /** One step of `Retrying`: a failed attempt below the cap waits and retries. */
  lemma RetryingRetries<T>(retries: nat, k: nat, attempt: nat -> Result<T, Thrown>, prefix: string)
    requires retries < MaxRetries && attempt(k).Err?
    ensures var b := Retrying(retries, k, attempt, prefix);
      var rest := Retrying(retries + 1, k + 1, attempt, prefix);
      b.result == rest.result && b.retries == rest.retries && b.attempts == rest.attempts
      && b.waits == [RetryDelay * (retries + 1)] + rest.waits
  {
  }

  /** One step of `Retrying`: a failed attempt at the cap gives up. */
  lemma RetryingGivesUp<T>(retries: nat, k: nat, attempt: nat -> Result<T, Thrown>, prefix: string)
    requires retries == MaxRetries && attempt(k).Err?
    ensures Retrying(retries, k, attempt, prefix)
      == Backoff(Err(Fail(prefix + MessageOr(attempt(k).error, "Unknown error"))), retries, k + 1, [])
  {
  }

  /** A loop that runs `Retrying` one attempt per iteration is on track when the run
      still ahead of it, from counter `retries` and attempt k, ends as `spec` does and
      the delays waited so far, `w`, followed by the rest, are those of `spec` after `w0`. */
  ghost predicate OnTrack<T>(spec: Backoff<T>, w0: seq<nat>, retries: nat, k: nat,
                             attempt: nat -> Result<T, Thrown>, prefix: string, w: seq<nat>)
    requires retries <= MaxRetries
  {
    var cur := Retrying(retries, k, attempt, prefix);
    && cur.result == spec.result && cur.retries == spec.retries && cur.attempts == spec.attempts
    && w0 + spec.waits == w + cur.waits
  }

  /** Before the first attempt the whole run is ahead. */
  lemma OnTrackStart<T>(retries: nat, attempt: nat -> Result<T, Thrown>, prefix: string, w0: seq<nat>)
    requires retries <= MaxRetries
    ensures OnTrack(Retrying(retries, 0, attempt, prefix), w0, retries, 0, attempt, prefix, w0)
  {
  }

  /** A successful attempt ends the run as `spec` says: the counter reset, k + 1 attempts
      made and every delay of `spec` waited. */
  lemma OnTrackSucceeds<T>(spec: Backoff<T>, w0: seq<nat>, retries: nat, k: nat,
                           attempt: nat -> Result<T, Thrown>, prefix: string, w: seq<nat>)
    requires retries <= MaxRetries && OnTrack(spec, w0, retries, k, attempt, prefix, w) && attempt(k).Ok?
    ensures spec.result == attempt(k) && spec.retries == 0 && spec.attempts == k + 1 && w == w0 + spec.waits
  {
    RetryingSucceeds(retries, k, attempt, prefix);
  }

  /** A failed attempt below the cap, followed by counting the retry and waiting, keeps
      the loop on track. */
  lemma OnTrackRetries<T>(spec: Backoff<T>, w0: seq<nat>, retries: nat, k: nat,
                          attempt: nat -> Result<T, Thrown>, prefix: string, w: seq<nat>)
    requires retries < MaxRetries && OnTrack(spec, w0, retries, k, attempt, prefix, w) && attempt(k).Err?
    ensures OnTrack(spec, w0, retries + 1, k + 1, attempt, prefix, w + [RetryDelay * (retries + 1)])
  {
    RetryingRetries(retries, k, attempt, prefix);
    AppendAssoc(w, [RetryDelay * (retries + 1)], Retrying(retries + 1, k + 1, attempt, prefix).waits);
  }

  /** A failed attempt at the cap ends the run as `spec` says: the prefixed error, the
      counter at the cap, k + 1 attempts made and every delay of `spec` waited. */
  lemma OnTrackGivesUp<T>(spec: Backoff<T>, w0: seq<nat>, retries: nat, k: nat,
                          attempt: nat -> Result<T, Thrown>, prefix: string, w: seq<nat>)
    requires retries == MaxRetries && OnTrack(spec, w0, retries, k, attempt, prefix, w) && attempt(k).Err?
    ensures spec.result == Err(Fail(prefix + MessageOr(attempt(k).error, "Unknown error")))
    ensures spec.retries == MaxRetries && spec.attempts == k + 1 && w == w0 + spec.waits
  {
    RetryingGivesUp(retries, k, attempt, prefix);
  }

  /** One more attempt issues one more request when the arguments parse. */
  lemma ToolRequestsSnoc(toolName: string, args: string, now: nat, parse: string -> Result<map<string, Json>, Thrown>, k: nat)
    ensures ToolRequests(toolName, args, now, parse, k + 1) ==
      ToolRequests(toolName, args, now, parse, k)
      + (if parse(args).Ok? then [ToolRequest(toolName, parse(args).value, now)] else [])
  {
    if parse(args).Ok? {
      assert ToolRequests(toolName, args, now, parse, k + 1) ==
        ToolRequests(toolName, args, now, parse, k) + [ToolRequest(toolName, parse(args).value, now)];
    }
  }

  /** Attempt k of `executeToolCall`: parse the arguments, then hand the request to the
      engine, whose answer to the request at position `base + k` of the log is `reply`. */
  function ToolAttempt(base: nat, args: string, parse: string -> Result<map<string, Json>, Thrown>,
                       reply: nat -> Result<Json, Thrown>): nat -> Result<Json, Thrown>
  {
    (k: nat) => match parse(args) case Err(e) => Err(e) case Ok(_) => reply(base + k)
  }

  function ToolRequest(toolName: string, args: map<string, Json>, now: nat): Message {
    Request("tool-call-" + DecimalString(now), toolName, args)
  }

  /** The requests `n` attempts issue: none when the arguments do not parse. */
  function ToolRequests(toolName: string, args: string, now: nat, parse: string -> Result<map<string, Json>, Thrown>, n: nat)
    : (rs: seq<Message>)
    ensures parse(args).Ok? ==> |rs| == n && forall i :: 0 <= i < n ==> rs[i] == ToolRequest(toolName, parse(args).value, now)
    ensures parse(args).Err? ==> rs == []
  {
    if parse(args).Err? then [] else seq(n, _ => ToolRequest(toolName, parse(args).value, now))
  }

  /** `prompts.find(p => p.name === name)` finds something. */
  predicate Listed(ps: seq<Prompt>, name: string) {
    exists i :: 0 <= i < |ps| && ps[i].name == name
  }

  /** The engine's answer to a run request, failures reported under the method's prefix. */
  function PromptOutcome(response: Result<Json, Thrown>): (r: Result<Json, Thrown>)
    ensures response.Ok? ==> r == response
    ensures response.Err? ==> r == Err(Fail(PromptFailure + MessageOr(response.error, "Unknown error")))
  {
    match response
    case Ok(v) => Ok(v)
    case Err(e) => Err(Fail(PromptFailure + MessageOr(e, "Unknown error")))
  }

  function ListResourcesRequest(now: nat): Message {
    Request("list-resources-" + DecimalString(now), "list_resources", map[])
  }

  function ListPromptsRequest(now: nat): Message {
    Request("list-prompts-" + DecimalString(now), "list_prompts", map[])
  }

  function FetchRequest(uri: string, now: nat): Message {
    Request("fetch-resource-" + DecimalString(now), "fetch_resource", map["uri" := JStr(uri)])
  }

  /** An absent argument map is sent as `{}`. */
  function RunPromptRequest(name: string, args: Option<map<string, Json>>, now: nat): Message {
    Request("execute-prompt-" + DecimalString(now), "execute_prompt", map["name" := JStr(name), "args" := JObj(args.GetOr(map[]))])
  }

  function ToolFailure(toolName: string): string {
    "Failed to execute tool " + toolName + " after 3 attempts: "
  }

  /** `lastFetched` of a cached entry, or `None` when the key is absent. */
  function EntryOf(present: bool, lastFetched: Option<nat>): Option<Option<nat>> {
    if present then Some(lastFetched) else None
  }

  /** The hit test of `fetchResource`, as written. */
  predicate HitTest(entry: Option<Option<nat>>, now: nat) {
    entry.Some? && now - entry.value.GetOr(0) < CacheTtl
  }

  /** The re-list test of `executePrompt`, as written. */
  predicate StaleTest(entry: Option<Option<nat>>, now: nat) {
    entry.None? || now - entry.value.GetOr(0) >= CacheTtl
  }

  predicate ResourceHit(cache: map<string, Resource>, uri: string, now: nat) {
    HitTest(EntryOf(uri in cache, if uri in cache then cache[uri].lastFetched else None), now)
  }

  predicate PromptStale(cache: map<string, Prompt>, name: string, now: nat) {
    StaleTest(EntryOf(name in cache, if name in cache then cache[name].lastFetched else None), now)
  }

  /** The two cache tests are exact complements. */
  lemma StaleIsMiss(entry: Option<Option<nat>>, now: nat)
    ensures StaleTest(entry, now) <==> !HitTest(entry, now)
  {
  }

  function ResourceUri(r: Resource): string {
    r.uri
  }

  function PromptName(p: Prompt): string {
    p.name
  }

  /** `{ ...resource, lastFetched: now }` */
  function StampResource(r: Resource, now: nat): (s: Resource)
    ensures s.uri == r.uri && s.data == r.data && s.lastFetched == Some(now)
  {
    r.(lastFetched := Some(now))
  }

  /** `{ ...prompt, lastFetched: now }` */
  function StampPrompt(p: Prompt, now: nat): (s: Prompt)
    ensures s.name == p.name && s.template == p.template && s.arguments == p.arguments && s.lastFetched == Some(now)
  {
    p.(lastFetched := Some(now))
  }

  /** The `forEach` that writes listed items into a cache: each item, left to right,
      is stored stamped under its key. */
  function Stamped<V>(cache: map<string, V>, items: seq<V>, key: V -> string, stamp: (V, nat) -> V, now: nat)
    : map<string, V>
  {
    if items == [] then cache
    else Stamped(cache, items[..|items| - 1], key, stamp, now)[key(items[|items| - 1]) := stamp(items[|items| - 1], now)]
  }

  /** The cache afterwards holds the earlier keys and the listed items' keys. */
  lemma {:induction false} StampedKeys<V>(cache: map<string, V>, items: seq<V>, key: V -> string,
                                          stamp: (V, nat) -> V, now: nat, k: string)
    ensures k in Stamped(cache, items, key, stamp, now) <==>
      k in cache || exists i :: 0 <= i < |items| && key(items[i]) == k
  {
    if items != [] {
      var init := items[..|items| - 1];
      StampedKeys(cache, init, key, stamp, now, k);
      if exists i :: 0 <= i < |init| && key(init[i]) == k {
        var i :| 0 <= i < |init| && key(init[i]) == k;
        assert items[i] == init[i];
      }
      if exists i :: 0 <= i < |items| && key(items[i]) == k {
        var i :| 0 <= i < |items| && key(items[i]) == k;
        if i < |items| - 1 {
          assert init[i] == items[i];
        }
      }
    }
  }

  /** Entries whose key was not listed are untouched. */
  lemma {:induction false} StampedUntouched<V>(cache: map<string, V>, items: seq<V>, key: V -> string,
                                               stamp: (V, nat) -> V, now: nat, k: string)
    requires forall i :: 0 <= i < |items| ==> key(items[i]) != k
    ensures k in Stamped(cache, items, key, stamp, now) <==> k in cache
    ensures k in cache ==> Stamped(cache, items, key, stamp, now)[k] == cache[k]
  {
    if items != [] {
      StampedUntouched(cache, items[..|items| - 1], key, stamp, now, k);
    }
  }

  /** A listed key holds the last item listed under it, stamped with the clock. */
  lemma {:induction false} StampedLastWins<V>(cache: map<string, V>, items: seq<V>, key: V -> string,
                                              stamp: (V, nat) -> V, now: nat, i: nat)
    requires i < |items|
    requires forall j :: i < j < |items| ==> key(items[j]) != key(items[i])
    ensures key(items[i]) in Stamped(cache, items, key, stamp, now)
    ensures Stamped(cache, items, key, stamp, now)[key(items[i])] == stamp(items[i], now)
  {
    if i < |items| - 1 {
      StampedLastWins(cache, items[..|items| - 1], key, stamp, now, i);
    }
  }

  /** The engine and the model as the client sees them: the chat endpoint,
      `JSON.parse` of tool arguments, the engine's answer to the n-th request handed
      to it, and `JSON.stringify`. */
  datatype Backends = Backends(
    chat: OpenAI.ChatOracle,
    parse: string -> Result<map<string, Json>, Thrown>,
    reply: nat -> Result<Json, Thrown>,
    stringify: Json -> string)

  /** What a run of tool calls adds: the assistant turns, how it ends, the retry
      counter afterwards, the delays waited and the requests handed to the engine. */
  datatype ToolTurns = ToolTurns(turns: seq<ChatMessage>, result: Result<(), Thrown>, retries: nat,
                                 waits: seq<nat>, requests: seq<Message>)

  /** What one `executeToolCall` leaves behind: its outcome, the counter after it,
      the delays it waited and the requests it issued. */
  datatype CallRun = CallRun(result: Result<Json, Thrown>, retries: nat, waits: seq<nat>, requests: seq<Message>)

  /** `executeToolCall` for call `c` with the counter at `retries` and `issuedLen`
      requests handed out so far: `Retrying` over its attempts. */
  function ExecuteCall(c: ToolCallReq, retries: nat, issuedLen: nat, now: nat, b: Backends): (x: CallRun)
    ensures retries <= MaxRetries ==> x.retries <= MaxRetries
  {
    var attempt := ToolAttempt(issuedLen, c.arguments, b.parse, b.reply);
    var run := Retrying(retries, 0, attempt, ToolFailure(c.name));
    var x := CallRun(run.result, run.retries, run.waits, ToolRequests(c.name, c.arguments, now, b.parse, run.attempts));
    if retries <= MaxRetries then RetryingBounded(retries, 0, attempt, ToolFailure(c.name)); x else x
  }

  /** The client's tool calls, as a function of the call, the counter and the request count. */
  function Executor(now: nat, b: Backends): (ToolCallReq, nat, nat) -> CallRun {
    (c: ToolCallReq, retries: nat, issuedLen: nat) => ExecuteCall(c, retries, issuedLen, now, b)
  }

  /** An executor keeps the counter within the cap. */
  ghost predicate KeepsCap(exec: (ToolCallReq, nat, nat) -> CallRun) {
    forall c: ToolCallReq, retries: nat, issuedLen: nat :: retries <= MaxRetries ==> exec(c, retries, issuedLen).retries <= MaxRetries
  }

  /** The tool-call loop of `sendMessage` over `calls`, in order, with the counter at
      `retries` and `issuedLen` requests handed out so far, each call run by `exec`
      (for the client, `Executor`): a result adds an assistant turn holding its JSON
      text and the loop goes on; a failure adds the apology turn of the `catch` and
      ends the run. */
  function RunToolCalls(calls: seq<ToolCallReq>, retries: nat, issuedLen: nat,
                        exec: (ToolCallReq, nat, nat) -> CallRun, stringify: Json -> string): ToolTurns
    decreases |calls|
  {
    if calls == [] then ToolTurns([], Ok(()), retries, [], [])
    else
      var run := exec(calls[0], retries, issuedLen);
      if run.result.Err? then
        ToolTurns([ChatMessage(Assistant, Apology + MessageOr(run.result.error, "Unknown error"))],
                  Err(run.result.error), run.retries, run.waits, run.requests)
      else
        var rest := RunToolCalls(calls[1..], run.retries, issuedLen + |run.requests|, exec, stringify);
        ToolTurns([ChatMessage(Assistant, stringify(run.result.value))] + rest.turns,
                  rest.result, rest.retries, run.waits + rest.waits, run.requests + rest.requests)
  }

  lemma ExecutorKeepsCap(now: nat, b: Backends)
    ensures KeepsCap(Executor(now, b))
  {
  }

  /** A run adds at most one turn per call, all of them the assistant's; a run that
      completes adds exactly one per call; a run that fails ends with the apology turn
      for its error. */
  lemma {:induction false} RunToolCallsShape(calls: seq<ToolCallReq>, retries: nat, issuedLen: nat,
                                             exec: (ToolCallReq, nat, nat) -> CallRun, stringify: Json -> string)
    ensures var t := RunToolCalls(calls, retries, issuedLen, exec, stringify);
      && |t.turns| <= |calls|
      && (t.result.Ok? ==> |t.turns| == |calls|)
      && (t.result.Err? ==>
            |t.turns| >= 1 && t.turns[|t.turns| - 1] == ChatMessage(Assistant, Apology + MessageOr(t.result.error, "Unknown error")))
      && (forall j :: 0 <= j < |t.turns| ==> t.turns[j].role == Assistant)
    decreases |calls|
  {
    if calls != [] {
      var run := exec(calls[0], retries, issuedLen);
      if run.result.Ok? {
        RunToolCallsShape(calls[1..], run.retries, issuedLen + |run.requests|, exec, stringify);
      }
    }
  }

  /** A run whose executor keeps the cap leaves the counter within it. */
  lemma {:induction false} RunToolCallsKeepsCap(calls: seq<ToolCallReq>, retries: nat, issuedLen: nat,
                                                exec: (ToolCallReq, nat, nat) -> CallRun, stringify: Json -> string)
    requires retries <= MaxRetries && KeepsCap(exec)
    ensures RunToolCalls(calls, retries, issuedLen, exec, stringify).retries <= MaxRetries
    decreases |calls|
  {
    if calls != [] {
      var run := exec(calls[0], retries, issuedLen);
      if run.result.Ok? {
        RunToolCallsKeepsCap(calls[1..], run.retries, issuedLen + |run.requests|, exec, stringify);
      }
    }
  }

  /** A loop over tool calls is on track when the run of the calls still ahead, from
      the current counter and request count, completes the whole run `all`: the
      history, delays and requests so far followed by the rest's are the whole run's
      after `m0`, `w0` and `i0`. */
  ghost predicate CallsAhead(all: ToolTurns, m0: seq<ChatMessage>, w0: seq<nat>, i0: seq<Message>,
                             rest: seq<ToolCallReq>, retries: nat, m: seq<ChatMessage>, w: seq<nat>,
                             issued: seq<Message>, exec: (ToolCallReq, nat, nat) -> CallRun, stringify: Json -> string)
  {
    var t := RunToolCalls(rest, retries, |issued|, exec, stringify);
    && m0 + all.turns == m + t.turns && all.result == t.result && all.retries == t.retries
    && w0 + all.waits == w + t.waits && i0 + all.requests == issued + t.requests
  }

  /** A failed call, with the apology turn added, completes the run the loop is on. */
  lemma CallsAheadFails(all: ToolTurns, m0: seq<ChatMessage>, w0: seq<nat>, i0: seq<Message>,
                        rest: seq<ToolCallReq>, retries: nat, m: seq<ChatMessage>, w: seq<nat>,
                        issued: seq<Message>, exec: (ToolCallReq, nat, nat) -> CallRun, stringify: Json -> string)
    requires rest != [] && exec(rest[0], retries, |issued|).result.Err?
    requires CallsAhead(all, m0, w0, i0, rest, retries, m, w, issued, exec, stringify)
    ensures var run := exec(rest[0], retries, |issued|);
      && m0 + all.turns == m + [ChatMessage(Assistant, Apology + MessageOr(run.result.error, "Unknown error"))]
      && all.result == Err(run.result.error) && all.retries == run.retries && w0 + all.waits == w + run.waits
      && i0 + all.requests == issued + run.requests
  {
  }

  /** A call that yields a result keeps the loop on track, with its turn added. */
  lemma CallsAheadAdvances(all: ToolTurns, m0: seq<ChatMessage>, w0: seq<nat>, i0: seq<Message>,
                           rest: seq<ToolCallReq>, retries: nat, m: seq<ChatMessage>, w: seq<nat>,
                           issued: seq<Message>, exec: (ToolCallReq, nat, nat) -> CallRun, stringify: Json -> string)
    requires rest != [] && exec(rest[0], retries, |issued|).result.Ok?
    requires CallsAhead(all, m0, w0, i0, rest, retries, m, w, issued, exec, stringify)
    ensures var run := exec(rest[0], retries, |issued|);
      CallsAhead(all, m0, w0, i0, rest[1..], run.retries, m + [ChatMessage(Assistant, stringify(run.result.value))],
                 w + run.waits, issued + run.requests, exec, stringify)
  {
    var run := exec(rest[0], retries, |issued|);
    var u := RunToolCalls(rest[1..], run.retries, |issued| + |run.requests|, exec, stringify);
    AppendAssoc(m, [ChatMessage(Assistant, stringify(run.result.value))], u.turns);
    AppendAssoc(w, run.waits, u.waits);
    AppendAssoc(issued, run.requests, u.requests);
  }


  class MCPClient {
    /** `transport !== null` */
    var attached: bool
    var messages: seq<ChatMessage>
    const provider: OpenAI.ProviderConfig
    var toolCallRetries: nat
    var connectionRetries: nat
    var resources: map<string, Resource>
    var prompts: map<string, Prompt>
    /** The requests handed to the engine's `handleRequest`, in order. */
    var issued: seq<Message>
    /** The back-off delays waited, in order. */
    var waits: seq<nat>
    /** The number of calls made to the language model. */
    var llmCalls: nat

    ghost predicate Valid()
      reads this
    {
      toolCallRetries <= MaxRetries && connectionRetries <= MaxRetries
    }

    /** The constructor, once the provider has been built. */
    constructor (provider: OpenAI.ProviderConfig)
      ensures Valid()
      ensures this.provider == provider && !attached && messages == []
      ensures toolCallRetries == 0 && connectionRetries == 0
      ensures resources == map[] && prompts == map[] && issued == [] && waits == [] && llmCalls == 0
    {
      this.provider := provider;
      attached, messages := false, [];
      toolCallRetries, connectionRetries := 0, 0;
      resources, prompts := map[], map[];
      issued, waits, llmCalls := [], [], 0;
    }

    /** `connect`, as written: a failed attempt leaves the transport set, so the retry it
        makes is refused as already connected. */
    method Connect(outcome: Result<(), Thrown>) returns (r: Result<(), Thrown>)
      requires Valid()
      modifies this`attached, this`connectionRetries, this`waits
      ensures Valid()
      ensures old(attached) ==> r == Err(Fail("Already connected")) && connectionRetries == old(connectionRetries)
      ensures old(attached) ==> waits == old(waits)
      ensures attached
      ensures !old(attached) && outcome.Ok? ==> r == Ok(()) && connectionRetries == 0 && waits == old(waits)
      ensures !old(attached) && outcome.Err? && old(connectionRetries) < MaxRetries ==>
        && r == Err(Fail("Already connected"))
        && connectionRetries == old(connectionRetries) + 1
        && waits == old(waits) + [RetryDelay * connectionRetries]
      ensures !old(attached) && outcome.Err? && old(connectionRetries) == MaxRetries ==>
        && r == Err(Fail(ConnectFailure + MessageOr(outcome.error, "Unknown error")))
        && connectionRetries == MaxRetries && waits == old(waits)
      decreases if attached then 0 else 1
    {
      if attached {
        return Err(Fail("Already connected"));
      }
      attached := true;
      if outcome.Ok? {
        connectionRetries := 0;
        return Ok(());
      }
      if connectionRetries < MaxRetries {
        connectionRetries := connectionRetries + 1;
        waits := waits + [RetryDelay * connectionRetries];
        r := Connect(outcome);
        return;
      }
      r := Err(Fail(ConnectFailure + MessageOr(outcome.error, "Unknown error")));
    }

    /** `connect` as intended: the transport is cleared after a failed attempt, so the
        retries really reconnect; attempt k's outcome is `connector(k)`. */
    method ConnectWithRetry(connector: nat -> Result<(), Thrown>) returns (r: Result<(), Thrown>)
      requires Valid()
      modifies this`attached, this`connectionRetries, this`waits
      ensures Valid()
      ensures old(attached) ==> r == Err(Fail("Already connected")) && attached
      ensures old(attached) ==> connectionRetries == old(connectionRetries) && waits == old(waits)
      ensures !old(attached) ==>
        var b := Retrying(old(connectionRetries), 0, connector, ConnectFailure);
        && r == b.result && connectionRetries == b.retries && waits == old(waits) + b.waits
        && (attached <==> r.Ok?)
    {
      if attached {
        return Err(Fail("Already connected"));
      }
      ghost var spec := Retrying(connectionRetries, 0, connector, ConnectFailure);
      OnTrackStart(connectionRetries, connector, ConnectFailure, waits);
      var k: nat := 0;
      while true
        invariant connectionRetries <= MaxRetries && !attached
        invariant OnTrack(spec, old(waits), connectionRetries, k, connector, ConnectFailure, waits)
        decreases MaxRetries - connectionRetries
      {
        attached := true;
        var outcome := connector(k);
        if outcome.Ok? {
          OnTrackSucceeds(spec, old(waits), connectionRetries, k, connector, ConnectFailure, waits);
          connectionRetries := 0;
          return outcome;
        }
        attached := false;
        if connectionRetries < MaxRetries {
          OnTrackRetries(spec, old(waits), connectionRetries, k, connector, ConnectFailure, waits);
          connectionRetries := connectionRetries + 1;
          waits := waits + [RetryDelay * connectionRetries];
          k := k + 1;
        } else {
          OnTrackGivesUp(spec, old(waits), connectionRetries, k, connector, ConnectFailure, waits);
          return Err(Fail(ConnectFailure + MessageOr(outcome.error, "Unknown error")));
        }
      }
    }

    /** `disconnect`: with a transport, tells the engine (whose failure is only logged)
        and clears the transport. */
    method Disconnect()
      modifies this`attached
      ensures !attached
    {
      if attached {
        attached := false;
      }
    }

    /** `listTools`: the engine's tools, or a refusal without a transport. */
    function ListTools(engineTools: seq<Tool>): (r: Result<seq<Tool>, Thrown>)
      reads this
      ensures !attached ==> r == Err(Fail("Client is not connected"))
      ensures attached ==> r == Ok(engineTools)
    {
      if !attached then Err(Fail("Client is not connected")) else Ok(engineTools)
    }

    /** `listResources`: asks the engine, then writes every listed resource into the
        cache stamped with the clock. */
    method ListResources(now: nat, response: Result<seq<Resource>, Thrown>) returns (r: Result<seq<Resource>, Thrown>)
      modifies this`resources, this`issued
      ensures !attached ==> r == Err(Fail("Client is not connected")) && issued == old(issued)
      ensures attached ==> issued == old(issued) + [ListResourcesRequest(now)]
      ensures attached && response.Err? ==>
        r == Err(Fail("Failed to list resources: " + MessageOr(response.error, "Unknown error")))
      ensures attached && response.Ok? ==>
        r == response && resources == Stamped(old(resources), response.value, ResourceUri, StampResource, now)
      ensures !(attached && response.Ok?) ==> resources == old(resources)
    {
      if !attached {
        return Err(Fail("Client is not connected"));
      }
      issued := issued + [ListResourcesRequest(now)];
      if response.Err? {
        return Err(Fail("Failed to list resources: " + MessageOr(response.error, "Unknown error")));
      }
      var items := response.value;
      for i := 0 to |items|
        invariant resources == Stamped(old(resources), items[..i], ResourceUri, StampResource, now)
        invariant issued == old(issued) + [ListResourcesRequest(now)]
      {
        assert items[..i + 1][..i] == items[..i];
        resources := resources[items[i].uri := items[i].(lastFetched := Some(now))];
      }
      assert items[..|items|] == items;
      r := Ok(items);
    }

    /** `listPrompts`: asks the engine, then writes every listed prompt into the cache
        stamped with the clock. */
    method ListPrompts(now: nat, response: Result<seq<Prompt>, Thrown>) returns (r: Result<seq<Prompt>, Thrown>)
      modifies this`prompts, this`issued
      ensures !attached ==> r == Err(Fail("Client is not connected")) && issued == old(issued)
      ensures attached ==> issued == old(issued) + [ListPromptsRequest(now)]
      ensures attached && response.Err? ==>
        r == Err(Fail(PromptListFailure + MessageOr(response.error, "Unknown error")))
      ensures attached && response.Ok? ==>
        r == response && prompts == Stamped(old(prompts), response.value, PromptName, StampPrompt, now)
      ensures !(attached && response.Ok?) ==> prompts == old(prompts)
    {
      if !attached {
        return Err(Fail("Client is not connected"));
      }
      issued := issued + [ListPromptsRequest(now)];
      if response.Err? {
        return Err(Fail(PromptListFailure + MessageOr(response.error, "Unknown error")));
      }
      var items := response.value;
      for i := 0 to |items|
        invariant prompts == Stamped(old(prompts), items[..i], PromptName, StampPrompt, now)
        invariant issued == old(issued) + [ListPromptsRequest(now)]
      {
        assert items[..i + 1][..i] == items[..i];
        prompts := prompts[items[i].name := items[i].(lastFetched := Some(now))];
      }
      assert items[..|items|] == items;
      r := Ok(items);
    }

    /** `fetchResource`: a fresh cached entry answers without a request; otherwise one
        request is made and a successful answer overwrites the entry. */
    method FetchResource(uri: string, now: nat, response: Result<Json, Thrown>) returns (r: Result<Json, Thrown>)
      modifies this`resources, this`issued
      ensures !attached ==> r == Err(Fail("Client is not connected")) && resources == old(resources) && issued == old(issued)
      ensures var hit := ResourceHit(old(resources), uri, now);
        && (attached && hit ==> r == Ok(old(resources)[uri].data) && resources == old(resources) && issued == old(issued))
        && (attached && !hit ==> issued == old(issued) + [FetchRequest(uri, now)])
        && (attached && !hit && response.Ok? ==> r == response && resources == old(resources)[uri := Resource(uri, response.value, Some(now))])
        && (attached && !hit && response.Err? ==>
              r == Err(Fail("Failed to fetch resource: " + MessageOr(response.error, "Unknown error"))) && resources == old(resources))
    {
      if !attached {
        return Err(Fail("Client is not connected"));
      }
      if uri in resources && now - resources[uri].lastFetched.GetOr(0) < CacheTtl {
        return Ok(resources[uri].data);
      }
      issued := issued + [FetchRequest(uri, now)];
      if response.Err? {
        return Err(Fail("Failed to fetch resource: " + MessageOr(response.error, "Unknown error")));
      }
      resources := resources[uri := Resource(uri, response.value, Some(now))];
      r := response;
    }

    /** The refresh step of `executePrompt`: re-list the prompts, then look the name up
        in the listing; the outcome is what the step throws, if anything. */
    method RefreshPrompts(name: string, now: nat, listResponse: Result<seq<Prompt>, Thrown>) returns (thrown: Option<Thrown>)
      requires attached
      modifies this`prompts, this`issued
      ensures issued == old(issued) + [ListPromptsRequest(now)]
      ensures listResponse.Err? ==>
        thrown == Some(Fail(PromptListFailure + MessageOr(listResponse.error, "Unknown error"))) && prompts == old(prompts)
      ensures listResponse.Ok? ==> prompts == Stamped(old(prompts), listResponse.value, PromptName, StampPrompt, now)
      ensures listResponse.Ok? ==> (thrown.None? <==> Listed(listResponse.value, name))
      ensures listResponse.Ok? && thrown.Some? ==> thrown.value == Fail(PromptMissing + name)
    {
      var listed := ListPrompts(now, listResponse);
      if listed.Err? {
        return Some(listed.error);
      }
      var found := false;
      for i := 0 to |listed.value|
        invariant found <==> exists j :: 0 <= j < i && listed.value[j].name == name
      {
        if listed.value[i].name == name {
          found := true;
        }
      }
      thrown := if found then None else Some(Fail(PromptMissing + name));
    }

    /** `executePrompt`: re-lists the prompts when the cached one is missing or stale,
        refuses a prompt that is still unknown, and otherwise asks the engine to run it;
        every failure is reported under one prefix. */
    method ExecutePrompt(name: string, args: Option<map<string, Json>>, now: nat,
                         listResponse: Result<seq<Prompt>, Thrown>, response: Result<Json, Thrown>)
      returns (r: Result<Json, Thrown>)
      modifies this`prompts, this`issued
      ensures !attached ==> r == Err(Fail("Client is not connected")) && prompts == old(prompts) && issued == old(issued)
      ensures var stale := PromptStale(old(prompts), name, now);
        var known := listResponse.Ok? && Listed(listResponse.value, name);
        && (attached && !stale ==> prompts == old(prompts) && issued == old(issued) + [RunPromptRequest(name, args, now)])
        && (attached && stale && listResponse.Err? ==>
              r == Err(Fail(PromptFailure + (PromptListFailure + MessageOr(listResponse.error, "Unknown error"))))
              && prompts == old(prompts) && issued == old(issued) + [ListPromptsRequest(now)])
        && (attached && stale && listResponse.Ok? ==>
              prompts == Stamped(old(prompts), listResponse.value, PromptName, StampPrompt, now))
        && (attached && stale && listResponse.Ok? && !known ==>
              r == Err(Fail(PromptFailure + (PromptMissing + name))) && issued == old(issued) + [ListPromptsRequest(now)])
        && (attached && stale && known ==> issued == old(issued) + [ListPromptsRequest(now), RunPromptRequest(name, args, now)])
        && (attached && (!stale || known) ==> r == PromptOutcome(response))
    {
      if !attached {
        return Err(Fail("Client is not connected"));
      }
      if name !in prompts || now - prompts[name].lastFetched.GetOr(0) >= CacheTtl {
        var thrown := RefreshPrompts(name, now, listResponse);
        if thrown.Some? {
          return Err(Fail(PromptFailure + MessageOr(thrown.value, "Unknown error")));
        }
      }
      issued := issued + [RunPromptRequest(name, args, now)];
      r := PromptOutcome(response);
    }

    /** One attempt of `executeToolCall`: parse the arguments and, if they parse, hand
        the request to the engine. */
    method AttemptToolCall(toolName: string, args: string, now: nat, parse: string -> Result<map<string, Json>, Thrown>,
                           reply: nat -> Result<Json, Thrown>, base: nat, k: nat)
      returns (outcome: Result<Json, Thrown>)
      requires parse(args).Ok? ==> |issued| == base + k
      modifies this`issued
      ensures outcome == ToolAttempt(base, args, parse, reply)(k)
      ensures issued == old(issued) + (if parse(args).Ok? then [ToolRequest(toolName, parse(args).value, now)] else [])
    {
      var parsed := parse(args);
      if parsed.Err? {
        outcome := Err(parsed.error);
      } else {
        issued := issued + [ToolRequest(toolName, parsed.value, now)];
        outcome := reply(|issued| - 1);
      }
    }

    /** One round of `executeToolCall`'s retries: attempt k, then finish with the
        attempt's value or the prefixed error at the cap, or count the retry and wait. */
    method ToolRound(toolName: string, args: string, now: nat, parse: string -> Result<map<string, Json>, Thrown>,
                     reply: nat -> Result<Json, Thrown>, base: nat, k: nat,
                     ghost spec: Backoff<Json>, ghost w0: seq<nat>, ghost i0: seq<Message>)
      returns (done: bool, outcome: Result<Json, Thrown>)
      requires toolCallRetries <= MaxRetries
      requires OnTrack(spec, w0, toolCallRetries, k, ToolAttempt(base, args, parse, reply), ToolFailure(toolName), waits)
      requires issued == i0 + ToolRequests(toolName, args, now, parse, k)
      requires parse(args).Ok? ==> |i0| == base
      modifies this`toolCallRetries, this`issued, this`waits
      ensures toolCallRetries <= MaxRetries
      ensures done ==> (&& outcome == spec.result && toolCallRetries == spec.retries && waits == w0 + spec.waits
                        && issued == i0 + ToolRequests(toolName, args, now, parse, spec.attempts))
      ensures !done ==> (&& toolCallRetries == old(toolCallRetries) + 1
                         && OnTrack(spec, w0, toolCallRetries, k + 1, ToolAttempt(base, args, parse, reply),
                                    ToolFailure(toolName), waits)
                         && issued == i0 + ToolRequests(toolName, args, now, parse, k + 1))
    {
      ghost var attempt := ToolAttempt(base, args, parse, reply);
      ToolRequestsSnoc(toolName, args, now, parse, k);
      outcome := AttemptToolCall(toolName, args, now, parse, reply, base, k);
      if outcome.Ok? {
        OnTrackSucceeds(spec, w0, toolCallRetries, k, attempt, ToolFailure(toolName), waits);
        toolCallRetries := 0;
        return true, outcome;
      }
      if toolCallRetries < MaxRetries {
        OnTrackRetries(spec, w0, toolCallRetries, k, attempt, ToolFailure(toolName), waits);
        toolCallRetries := toolCallRetries + 1;
        waits := waits + [RetryDelay * toolCallRetries];
        done := false;
      } else {
        OnTrackGivesUp(spec, w0, toolCallRetries, k, attempt, ToolFailure(toolName), waits);
        return true, Err(Fail(ToolFailure(toolName) + MessageOr(outcome.error, "Unknown error")));
      }
    }

    /** `executeToolCall`: the retried engine request for one tool call, following
        `Retrying`. */
    method ExecuteToolCall(toolName: string, args: string, now: nat,
                           parse: string -> Result<map<string, Json>, Thrown>, reply: nat -> Result<Json, Thrown>)
      returns (r: Result<Json, Thrown>)
      requires Valid()
      modifies this`toolCallRetries, this`issued, this`waits
      ensures Valid()
      ensures !attached ==> r == Err(Fail("Not connected"))
      ensures !attached ==> toolCallRetries == old(toolCallRetries) && issued == old(issued) && waits == old(waits)
      ensures attached ==>
        var b := Retrying(old(toolCallRetries), 0, ToolAttempt(|old(issued)|, args, parse, reply), ToolFailure(toolName));
        && r == b.result && toolCallRetries == b.retries && waits == old(waits) + b.waits
        && issued == old(issued) + ToolRequests(toolName, args, now, parse, b.attempts)
    {
      if !attached {
        return Err(Fail("Not connected"));
      }
      var base := |issued|;
      ghost var attempt := ToolAttempt(base, args, parse, reply);
      ghost var spec := Retrying(toolCallRetries, 0, attempt, ToolFailure(toolName));
      OnTrackStart(toolCallRetries, attempt, ToolFailure(toolName), waits);
      var k: nat := 0;
      while true
        invariant toolCallRetries <= MaxRetries
        invariant OnTrack(spec, old(waits), toolCallRetries, k, attempt, ToolFailure(toolName), waits)
        invariant issued == old(issued) + ToolRequests(toolName, args, now, parse, k)
        decreases MaxRetries - toolCallRetries
      {
        var done, outcome := ToolRound(toolName, args, now, parse, reply, base, k, spec, old(waits), old(issued));
        if done {
          return outcome;
        }
        k := k + 1;
      }
    }

    /** The tool-call loop of `sendMessage`, as specified by `RunToolCalls`. */
    method RecordToolCalls(calls: seq<ToolCallReq>, now: nat, b: Backends) returns (r: Result<(), Thrown>)
      requires Valid() && attached
      modifies this`messages, this`toolCallRetries, this`issued, this`waits
      ensures Valid()
      ensures var t := RunToolCalls(calls, old(toolCallRetries), |old(issued)|, Executor(now, b), b.stringify);
        && messages == old(messages) + t.turns && r == t.result && toolCallRetries == t.retries
        && waits == old(waits) + t.waits && issued == old(issued) + t.requests
    {
      ghost var exec := Executor(now, b);
      ghost var all := RunToolCalls(calls, toolCallRetries, |issued|, exec, b.stringify);
      assert calls[0..] == calls;
      var i := 0;
      while i < |calls|
        invariant 0 <= i <= |calls|
        invariant Valid()
        invariant CallsAhead(all, old(messages), old(waits), old(issued), calls[i..], toolCallRetries, messages, waits, issued, exec, b.stringify)
      {
        assert calls[i..][0] == calls[i] && calls[i..][1..] == calls[i + 1..];
        ghost var m, w, iss, n := messages, waits, issued, toolCallRetries;
        var result := ExecuteToolCall(calls[i].name, calls[i].arguments, now, b.parse, b.reply);
        assert exec(calls[i], n, |iss|) == ExecuteCall(calls[i], n, |iss|, now, b);
        if result.Err? {
          CallsAheadFails(all, old(messages), old(waits), old(issued), calls[i..], n, m, w, iss, exec, b.stringify);
          messages := messages + [ChatMessage(Assistant, Apology + MessageOr(result.error, "Unknown error"))];
          return Err(result.error);
        }
        CallsAheadAdvances(all, old(messages), old(waits), old(issued), calls[i..], n, m, w, iss, exec, b.stringify);
        messages := messages + [ChatMessage(Assistant, b.stringify(result.value))];
        i := i + 1;
      }
      r := Ok(());
    }

    /** The part of `sendMessage` after the model answered: the tool calls' turns, as
        `RunToolCalls` says, or one turn holding the reply's text. */
    method RecordReply(reply: LlmReply, now: nat, b: Backends) returns (r: Result<(), Thrown>)
      requires Valid() && attached
      modifies this`messages, this`toolCallRetries, this`issued, this`waits
      ensures Valid()
      ensures forall j :: |old(messages)| <= j < |messages| ==> messages[j].role == Assistant
      ensures r.Err? ==> |messages| > |old(messages)|
                         && messages[|messages| - 1] == ChatMessage(Assistant, Apology + MessageOr(r.error, "Unknown error"))
      ensures reply.toolCalls.None? ==> r == Ok(()) && messages == old(messages) + [ChatMessage(Assistant, OrElse(reply.content, ""))]
      ensures reply.toolCalls.Some? ==>
        var t := RunToolCalls(reply.toolCalls.value, old(toolCallRetries), |old(issued)|, Executor(now, b), b.stringify);
        && messages == old(messages) + t.turns && r == t.result
        && toolCallRetries == t.retries && waits == old(waits) + t.waits && issued == old(issued) + t.requests
    {
      if reply.toolCalls.Some? {
        RunToolCallsShape(reply.toolCalls.value, toolCallRetries, |issued|, Executor(now, b), b.stringify);
        r := RecordToolCalls(reply.toolCalls.value, now, b);
      } else {
        messages := messages + [ChatMessage(Assistant, OrElse(reply.content, ""))];
        r := Ok(());
      }
    }

    /** `sendMessage`: records the user's turn, asks the model, and records one
        assistant turn per tool call (its result as JSON) or the reply's text; on a
        failure it records an apology and rethrows. */
    method SendMessage(content: string, engineTools: seq<Tool>, now: nat, b: Backends) returns (r: Result<(), Thrown>)
      requires Valid()
      modifies this`messages, this`toolCallRetries, this`issued, this`waits, this`llmCalls
      ensures Valid()
      ensures !attached ==> r == Err(Fail("Not connected")) && messages == old(messages) && llmCalls == old(llmCalls)
      ensures attached ==> (&& |messages| > |old(messages)|
                            && messages[..|old(messages)| + 1] == old(messages) + [ChatMessage(User, content)]
                            && llmCalls == old(llmCalls) + 1)
      ensures attached ==> forall j :: |old(messages)| < j < |messages| ==> messages[j].role == Assistant
      ensures attached && r.Err? ==> messages[|messages| - 1] == ChatMessage(Assistant, Apology + MessageOr(r.error, "Unknown error"))
      ensures var reply := b.chat(old(llmCalls), OpenAI.RequestFor(provider, content, engineTools, Some(SystemPrompt)));
        && (attached && reply.Err? ==>
              r == Err(reply.error)
              && messages == old(messages) + [ChatMessage(User, content),
                                              ChatMessage(Assistant, Apology + MessageOr(reply.error, "Unknown error"))])
        && (attached && reply.Ok? && reply.value.toolCalls.None? ==>
              r == Ok(()) && messages == old(messages) + [ChatMessage(User, content), ChatMessage(Assistant, OrElse(reply.value.content, ""))])
        && (attached && reply.Ok? && reply.value.toolCalls.Some? ==>
              var t := RunToolCalls(reply.value.toolCalls.value, old(toolCallRetries), |old(issued)|, Executor(now, b), b.stringify);
              && messages == old(messages) + [ChatMessage(User, content)] + t.turns && r == t.result
              && toolCallRetries == t.retries && waits == old(waits) + t.waits && issued == old(issued) + t.requests)
    {
      if !attached {
        return Err(Fail("Not connected"));
      }
      messages := messages + [ChatMessage(User, content)];
      var tools := ListTools(engineTools);
      var response := OpenAI.GenerateToolCalls(provider, content, tools.value, Some(SystemPrompt), b.chat, llmCalls);
      llmCalls := llmCalls + 1;
      if response.Err? {
        messages := messages + [ChatMessage(Assistant, Apology + MessageOr(response.error, "Unknown error"))];
        return Err(response.error);
      }
      r := RecordReply(response.value, now, b);
    }

    /** `getMessages`: the history, as a value. */
    function GetMessages(): (h: seq<ChatMessage>)
      reads this
      ensures h == messages
    {
      messages
    }
  }

  /** The client's constructor: builds the provider, which may refuse the key. */
  method NewClient(config: ClientConfig, envKey: Option<string>) returns (r: Result<MCPClient, string>)
    ensures r.Err? <==> ProviderFor(config, envKey).Err?
    ensures r.Err? ==> r.error == OpenAI.MissingKey
    ensures r.Ok? ==> fresh(r.value) && r.value.Valid() && r.value.provider == ProviderFor(config, envKey).value
    ensures r.Ok? ==> !r.value.attached && r.value.messages == [] && r.value.issued == []
  {
    var provider := ProviderFor(config, envKey);
    if provider.Err? {
      return Err(provider.error);
    }
    var client := new MCPClient(provider.value);
    r := Ok(client);
  }

  /** `connect` as written, first attempt failing: the retry runs into the guard and
      reports "Already connected" with the transport still set, instead of reconnecting. */
  method RetryHitsGuard() returns (r: Result<(), Thrown>, retries: nat, stillAttached: bool, waited: seq<nat>)
    ensures r == Err(Fail("Already connected"))
    ensures retries == 1 && stillAttached && waited == [RetryDelay]
  {
    var client := new MCPClient(OpenAI.ProviderConfig("key", DefaultModel, OpenAI.DefaultMaxTokens));
    r := client.Connect(Err(Fail("Connection timeout")));
    retries, stillAttached, waited := client.connectionRetries, client.attached, client.waits;
  }

  /** The corrected `connect`, first attempt failing and the second succeeding: the
      client is connected, the counter reset, after one wait of 1000 ms. */
  method RetryRecovers() returns (r: Result<(), Thrown>, retries: nat, attached: bool, waited: seq<nat>)
    ensures r == Ok(()) && retries == 0 && attached && waited == [RetryDelay]
  {
    var client := new MCPClient(OpenAI.ProviderConfig("key", DefaultModel, OpenAI.DefaultMaxTokens));
    var connector := (k: nat) => if k == 0 then Err(Fail("Connection timeout")) else Ok(());
    RetryingRetries(0, 0, connector, ConnectFailure);
    RetryingSucceeds(1, 1, connector, ConnectFailure);
    r := client.ConnectWithRetry(connector);
    retries, attached, waited := client.connectionRetries, client.attached, client.waits;
  }

  /** A resource fetched from the engine is answered from the cache within five
      minutes, without a second request, and fetched again once it is stale. */
  method CacheRoundTrip(uri: string, data: Json, other: Json, now: nat)
    returns (first: Result<Json, Thrown>, cached: Result<Json, Thrown>, refetched: Result<Json, Thrown>, requests: nat)
    ensures first == Ok(data) && cached == Ok(data) && refetched == Ok(other)
    ensures requests == 2
  {
    var client := new MCPClient(OpenAI.ProviderConfig("key", DefaultModel, OpenAI.DefaultMaxTokens));
    var _ := client.ConnectWithRetry((k: nat) => Ok(()));
    first := client.FetchResource(uri, now, Ok(data));
    cached := client.FetchResource(uri, now + CacheTtl - 1, Ok(other));
    refetched := client.FetchResource(uri, now + CacheTtl, Ok(other));
    requests := |client.issued|;
  }
}
