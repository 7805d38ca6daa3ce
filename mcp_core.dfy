/** The protocol engine `MCP`: a tool map, the connection state machine with its
    observers, the bounded reconnect counter, the heartbeat decision, and request
    dispatch. The transport is modelled by `attached` (a transport is set) and by the
    log `sent` of messages it accepted; a send that fails is decided by an oracle
    `fault`, and tool execution by an oracle `run`. Timers are not modelled: the
    reconnect delays that would be scheduled are recorded in `scheduled`. */
module McpCore {
  import opened Support
  import opened CoreTypes

  const HealthCheckInterval: nat := 30000
  const MessageTimeout: nat := 60000
  const MaxReconnectAttempts: nat := 3
  const ReconnectBaseDelay: nat := 1000
  const HealthCheckTool := "health_check"
  const ExecutionError := "EXECUTION_ERROR"

  /** Decides whether handing a message to the transport fails, and with what. */
  type SendOracle = Message -> Option<Thrown>

  /** The outcome of a tool's `execute` on the given arguments. */
  type RunOracle = (Tool, map<string, Json>) -> Result<Json, Thrown>

  /** A registered state-change callback: the `checkConnection` closure of the
      `waitForConnection` call that registered it at position `slot`, or a caller's
      own callback passed to `onStateChange`. */
  datatype Observer = Waiter(slot: nat) | Listener(tag: nat)

  /** One invocation of a callback, with the state it was given. */
  datatype Delivery = Delivery(observer: Observer, state: ServerState)

  /** The invocations made by one `updateState`: every observer once, in order. */
  function Broadcast(observers: seq<Observer>, s: ServerState): seq<Delivery> {
    seq(|observers|, i requires 0 <= i < |observers| => Delivery(observers[i], s))
  }

  /** The state of the promise returned by `waitForConnection`. */
  datatype Settlement = Pending | Resolved | Rejected(reason: string)

  /** Whether handing `d` to the waiter `w` settles its promise. */
  predicate Settles(d: Delivery, w: Observer) {
    d.observer == w && (d.state.status == Connected || d.state.status == Error)
  }

  /** The waiter's promise after the invocations `ds`: the first invocation of `w`
      with status connected resolves it, one with status error rejects it with the
      state's error (or "Connection failed"); later invocations are ignored. The
      5-second timeout that also rejects it is a timer and is not modelled here. */
  function Settle(ds: seq<Delivery>, w: Observer): Settlement {
    if ds == [] then Pending
    else if Settles(ds[0], w) then
      (if ds[0].state.status == Connected then Resolved
       else Rejected(OrElse(ds[0].state.error, "Connection failed")))
    else Settle(ds[1..], w)
  }

  /** Invocations that do not settle `w` can be skipped. */
  lemma {:induction false} SettleSkip(ds: seq<Delivery>, rest: seq<Delivery>, w: Observer)
    requires forall i :: 0 <= i < |ds| ==> !Settles(ds[i], w)
    ensures Settle(ds + rest, w) == Settle(rest, w)
  {
    if ds != [] {
      assert (ds + rest)[0] == ds[0] && !Settles(ds[0], w);
      assert (ds + rest)[1..] == ds[1..] + rest;
      assert forall i :: 0 <= i < |ds[1..]| ==> ds[1..][i] == ds[i + 1];
      SettleSkip(ds[1..], rest, w);
    } else {
      assert ds + rest == rest;
    }
  }

  /** A waiter that was never invoked, or only with other statuses, is still pending. */
  lemma SettleNeverInvoked(ds: seq<Delivery>, w: Observer)
    requires forall i :: 0 <= i < |ds| ==> !Settles(ds[i], w)
    ensures Settle(ds, w) == Pending
  {
    SettleSkip(ds, [], w);
    assert ds + [] == ds;
  }

  /** A fresh waiter that is registered before a broadcast of connecting and then one
      of connected is resolved by the second: nothing earlier was addressed to it, and
      connecting does not settle it. */
  lemma {:induction false} SettleAfterConnect(d0: seq<Delivery>, prior: seq<Observer>, w: Observer, s1: ServerState, s2: ServerState)
    requires forall i :: 0 <= i < |d0| ==> d0[i].observer in prior
    requires w !in prior
    requires s1.status == Connecting && s2.status == Connected
    ensures Settle(d0 + Broadcast(prior + [w], s1) + Broadcast(prior + [w], s2), w) == Resolved
  {
    var obs := prior + [w];
    var b1 := Broadcast(obs, s1);
    var b2 := Broadcast(obs, s2);
    var before := Broadcast(prior, s2);
    assert b2 == before + [Delivery(w, s2)];
    SettleSkip(before, [Delivery(w, s2)], w);
    SettleSkip(b1, b2, w);
    SettleSkip(d0, b1 + b2, w);
    AppendAssoc(d0, b1, b2);
  }

  /** The decision `handleConnectionError` takes. */
  datatype Recovery = Retry(attempt: nat, delay: nat) | GiveUp(reason: string)

  /** Below the bound, the counter goes up by one and a reconnect is scheduled after
      `1000 * attempt` ms (linear backoff); at the bound the engine gives up with the
      error's message. */
  function Recover(attempts: nat, e: Thrown): (r: Recovery)
    ensures r.Retry? <==> attempts < MaxReconnectAttempts
    ensures r.Retry? ==> r.attempt == attempts + 1 <= MaxReconnectAttempts
    ensures r.Retry? ==> r.delay == ReconnectBaseDelay * r.attempt
    ensures r.GiveUp? ==> r.reason == MessageOr(e, "Connection failed after multiple attempts")
  {
    if attempts < MaxReconnectAttempts then
      Retry(attempts + 1, ReconnectBaseDelay * (attempts + 1))
    else
      GiveUp(MessageOr(e, "Connection failed after multiple attempts"))
  }

  /** The counter, state and scheduled delays after `handleConnectionError(e)` with
      the counter at `attempts0` and the delays `scheduled0`: a retry counts the attempt,
      marks the engine connecting with "Reconnecting... Attempt n/3" and schedules the
      reconnect; giving up marks it errored and schedules nothing. */
  predicate Recovered(attempts0: nat, scheduled0: seq<nat>, e: Thrown,
                      attempts: nat, state: ServerState, scheduled: seq<nat>)
  {
    match Recover(attempts0, e)
    case Retry(n, delay) =>
      && attempts == n
      && state == ServerState(Connecting, Some(ReconnectingText(n)))
      && scheduled == scheduled0 + [delay]
    case GiveUp(reason) =>
      && attempts == attempts0
      && state == ServerState(Error, Some(reason))
      && scheduled == scheduled0
  }

  /** The counter after `n` connection errors, starting from `a`. */
  function AttemptsAfter(a: nat, n: nat): nat
    decreases n
  {
    if n == 0 then a else AttemptsAfter(if a < MaxReconnectAttempts then a + 1 else a, n - 1)
  }

  /** The counter never exceeds the bound, never decreases and is never reset: after
      `n` errors from `a` it is `min(a + n, 3)`. */
  lemma {:induction false} AttemptsAfterBounded(a: nat, n: nat)
    requires a <= MaxReconnectAttempts
    decreases n
    ensures AttemptsAfter(a, n) == if a + n < MaxReconnectAttempts then a + n else MaxReconnectAttempts
  {
    if n > 0 {
      AttemptsAfterBounded(if a < MaxReconnectAttempts then a + 1 else a, n - 1);
    }
  }

  /** From a fresh engine, the first three errors each schedule a reconnect, after
      1000, 2000 and 3000 ms; the fourth and every later one gives up. */
  lemma ConsecutiveErrors(n: nat, e: Thrown)
    ensures Recover(AttemptsAfter(0, n), e).Retry? <==> n < MaxReconnectAttempts
    ensures n < MaxReconnectAttempts ==> Recover(AttemptsAfter(0, n), e).delay == ReconnectBaseDelay * (n + 1)
  {
    AttemptsAfterBounded(0, n);
  }

  /** `Reconnecting... Attempt n/3` */
  function ReconnectingText(n: nat): string {
    "Reconnecting... Attempt " + DecimalString(n) + "/" + DecimalString(MaxReconnectAttempts)
  }

  /** The payload of the answer to a health-check probe. */
  function HealthPayload(uptime: nat, now: nat): Json {
    JObj(map["status" := JStr("healthy"), "uptime" := JNum(uptime), "timestamp" := JNum(now)])
  }

  /** How the inbound loop routes a message. */
  datatype Route = Answer | Forward | Skip

  function RouteOf(m: Message): (r: Route)
    ensures r == Answer <==> m.Request? && m.tool == HealthCheckTool
    ensures r == Forward <==> m.Request? && m.tool != HealthCheckTool
    ensures r == Skip <==> !m.Request?
  {
    if !m.Request? then Skip else if m.tool == HealthCheckTool then Answer else Forward
  }

  /** `timeSinceLastMessage > MESSAGE_TIMEOUT`, strictly. */
  predicate NeedsProbe(now: nat, lastMessageTime: nat) {
    now - lastMessageTime > MessageTimeout
  }

  /** What `handleRequest` sends and how it settles. */
  datatype Dispatched = Dispatched(sends: seq<Message>, outcome: Result<Json, Thrown>)

  /** The `catch` block of `handleRequest`: report `e` on `id`, then rethrow `e` (or
      the failure of that send, which escapes instead). */
  function Fallback(id: string, e: Thrown, fault: SendOracle): Dispatched {
    var m := ErrorReply(id, ExecutionError, MessageOr(e, "Unknown error"));
    if fault(m).None? then Dispatched([m], Err(e)) else Dispatched([], Err(fault(m).value))
  }

  /** `handleRequest`: without a transport it throws and sends nothing; otherwise it
      sends at most one message, always on the request's id, and exactly one when the
      transport accepts what it is given. A found tool that succeeds yields a
      `response` carrying its result, which is also returned; a missing tool or a
      failure yields an `error` with code EXECUTION_ERROR and the error is rethrown. */
  function Dispatch(attached: bool, tools: map<string, Tool>, req: Message, run: RunOracle, fault: SendOracle): (d: Dispatched)
    requires req.Request?
    ensures !attached ==> d == Dispatched([], Err(Fail("Transport not connected")))
    ensures |d.sends| <= 1
    ensures forall i :: 0 <= i < |d.sends| ==> d.sends[i].id == req.id
    ensures attached && (forall m :: fault(m).None?) ==> |d.sends| == 1
    ensures d.outcome.Ok? <==>
      attached && req.tool in tools && run(tools[req.tool], req.args).Ok?
      && fault(Response(req.id, run(tools[req.tool], req.args).value)).None?
    ensures d.outcome.Ok? ==>
      d.sends == [Response(req.id, d.outcome.value)] && d.outcome.value == run(tools[req.tool], req.args).value
    ensures d.outcome.Err? ==> forall i :: 0 <= i < |d.sends| ==>
      d.sends[i].ErrorReply? && d.sends[i].code == ExecutionError
    ensures attached && req.tool !in tools ==>
      var m := ErrorReply(req.id, ExecutionError, "Tool not found: " + req.tool);
      && (fault(m).None? ==> d == Dispatched([m], Err(Fail("Tool not found: " + req.tool))))
      && (fault(m).Some? ==> d == Dispatched([], Err(fault(m).value)))
    ensures attached && req.tool in tools && run(tools[req.tool], req.args).Err? ==>
      var e := run(tools[req.tool], req.args).error;
      var m := ErrorReply(req.id, ExecutionError, MessageOr(e, "Unknown error"));
      && (fault(m).None? ==> d == Dispatched([m], Err(e)))
      && (fault(m).Some? ==> d == Dispatched([], Err(fault(m).value)))
    ensures attached && req.tool in tools && run(tools[req.tool], req.args).Ok?
            && fault(Response(req.id, run(tools[req.tool], req.args).value)).Some? ==>
      var e := fault(Response(req.id, run(tools[req.tool], req.args).value)).value;
      var m := ErrorReply(req.id, ExecutionError, MessageOr(e, "Unknown error"));
      && (fault(m).None? ==> d == Dispatched([m], Err(e)))
      && (fault(m).Some? ==> d == Dispatched([], Err(fault(m).value)))
  {
    if !attached then Dispatched([], Err(Fail("Transport not connected")))
    else if req.tool !in tools then Fallback(req.id, Fail("Tool not found: " + req.tool), fault)
    else
      match run(tools[req.tool], req.args)
      case Err(e) => Fallback(req.id, e, fault)
      case Ok(v) =>
        var m := Response(req.id, v);
        if fault(m).None? then Dispatched([m], Ok(v)) else Fallback(req.id, fault(m).value, fault)
  }

  class MCP {
    var tools: map<string, Tool>
    var order: seq<string>            // insertion order of the Map's keys
    var attached: bool                // a transport is set
    var heartbeat: bool               // the health-check interval timer is set
    var lastMessageTime: nat
    var reconnectAttempts: nat
    var state: ServerState
    var observers: seq<Observer>
    var deliveries: seq<Delivery>     // every callback invocation so far, in order
    var sent: seq<Message>            // every message the transport accepted, in order
    var closes: nat                   // calls of the transport's close()
    var scheduled: seq<nat>           // delays of the reconnects scheduled so far, in ms

    ghost predicate Valid()
      reads this
    {
      && reconnectAttempts <= MaxReconnectAttempts
      && Distinct(order)
      && (forall k :: k in tools <==> k in order)
      && (forall k :: k in tools ==> tools[k].name == k)
      && (forall i :: 0 <= i < |observers| && observers[i].Waiter? ==> observers[i].slot == i)
      && (forall i :: 0 <= i < |deliveries| ==> deliveries[i].observer in observers)
    }

    constructor (now: nat)
      ensures Valid()
      ensures tools == map[] && order == [] && !attached && !heartbeat
      ensures lastMessageTime == now && reconnectAttempts == 0
      ensures state == ServerState(Disconnected, None)
      ensures observers == [] && deliveries == [] && sent == [] && closes == 0 && scheduled == []
    {
      tools, order := map[], [];
      attached, heartbeat := false, false;
      lastMessageTime, reconnectAttempts := now, 0;
      state := ServerState(Disconnected, None);
      observers, deliveries, sent, closes, scheduled := [], [], [], 0, [];
    }

    /** `Array.from(this.tools.values())`: each registered tool once, in the order
        its name was first registered. */
    function ListTools(): (r: seq<Tool>)
      reads this
      requires Valid()
      ensures |r| == |order| == |tools|
      ensures forall i :: 0 <= i < |r| ==> r[i] == tools[order[i]]
      ensures forall t :: t in r <==> t.name in tools && tools[t.name] == t
    {
      DistinctCardinality(order);
      assert tools.Keys == set k | k in order;
      var names, table := order, tools;
      var r := seq(|names|, i requires 0 <= i < |names| => table[names[i]]);
      assert forall t: Tool :: t.name in tools && tools[t.name] == t ==> exists i :: 0 <= i < |order| && order[i] == t.name && r[i] == t;
      r
    }

    /** `tools.set(tool.name, tool)`: overwrites a tool of the same name in place
        (keeping its position), or appends a new one; no duplicate check. */
    method RegisterTool(t: Tool)
      requires Valid()
      modifies this`tools, this`order
      ensures Valid()
      ensures tools == old(tools)[t.name := t]
      ensures order == if t.name in old(tools) then old(order) else old(order) + [t.name]
      ensures t in ListTools()
    {
      if t.name !in tools {
        order := order + [t.name];
      }
      tools := tools[t.name := t];
    }

    /** `onStateChange`: appends a caller's callback. */
    method OnStateChange(tag: nat)
      requires Valid()
      modifies this`observers
      ensures Valid()
      ensures observers == old(observers) + [Listener(tag)]
    {
      observers := observers + [Listener(tag)];
    }

    /** `updateState`: merges the supplied fields, then invokes every callback once,
        in registration order, with the new state. */
    method UpdateState(p: StatePatch)
      requires Valid()
      modifies this`state, this`deliveries
      ensures Valid()
      ensures state == Merge(old(state), p)
      ensures deliveries == old(deliveries) + Broadcast(observers, state)
    {
      state := Merge(state, p);
      var i := 0;
      while i < |observers|
        invariant 0 <= i <= |observers|
        invariant state == Merge(old(state), p)
        invariant deliveries == old(deliveries) + Broadcast(observers[..i], state)
        invariant forall j :: 0 <= j < |deliveries| ==> deliveries[j].observer in observers
      {
        assert Broadcast(observers[..i + 1], state) == Broadcast(observers[..i], state) + [Delivery(observers[i], state)];
        deliveries := deliveries + [Delivery(observers[i], state)];
        i := i + 1;
      }
      assert observers[..i] == observers;
    }

    /** `waitForConnection`: registers a `checkConnection` callback. It reacts only
        to later state changes: whatever the state is now, its promise is pending. */
    method WaitForConnection() returns (w: Observer)
      requires Valid()
      modifies this`observers
      ensures Valid()
      ensures w == Waiter(|old(observers)|) && observers == old(observers) + [w]
      ensures Settle(deliveries, w) == Pending
    {
      w := Waiter(|observers|);
      assert w !in observers;
      SettleNeverInvoked(deliveries, w);
      observers := observers + [w];
    }

    /** `startHealthCheck`: (re)starts the heartbeat timer. */
    method StartHealthCheck()
      modifies this`heartbeat
      ensures heartbeat
    {
      heartbeat := true;
    }

    /** The synchronous part of `start()`: without a transport it throws; otherwise
        it marks the engine connected before it first waits for a message. */
    method Start() returns (r: Result<(), Thrown>)
      requires Valid()
      modifies this`state, this`deliveries
      ensures Valid()
      ensures !attached ==> r == Err(Fail("Transport not connected")) && state == old(state)
      ensures !attached ==> deliveries == old(deliveries)
      ensures attached ==> r == Ok(()) && state == Merge(old(state), StatePatch(Some(Connected), None))
      ensures attached ==> deliveries == old(deliveries) + Broadcast(observers, state)
    {
      if !attached {
        return Err(Fail("Transport not connected"));
      }
      UpdateState(StatePatch(Some(Connected), None));
      r := Ok(());
    }

    /** The synchronous part of `connect(transport)`, as written: it does not refuse
        a second transport; it marks the engine connecting, attaches the transport,
        restarts the heartbeat, runs `start()` up to its first wait (which marks the
        engine connected) and only then registers the waiter. So the waiter misses
        the transition to connected that this very call made, and stays pending. */
    method Connect() returns (w: Observer)
      requires Valid()
      modifies this
      ensures Valid()
      ensures attached && heartbeat
      ensures state == ServerState(Connected, old(state).error)
      ensures w == Waiter(|old(observers)|) && observers == old(observers) + [w]
      ensures deliveries == old(deliveries)
        + Broadcast(old(observers), ServerState(Connecting, old(state).error))
        + Broadcast(old(observers), state)
      ensures Settle(deliveries, w) == Pending
      ensures tools == old(tools) && order == old(order) && lastMessageTime == old(lastMessageTime)
      ensures reconnectAttempts == old(reconnectAttempts) && sent == old(sent)
      ensures closes == old(closes) && scheduled == old(scheduled)
    {
      UpdateState(StatePatch(Some(Connecting), None));
      attached := true;
      StartHealthCheck();
      var started := Start();
      w := WaitForConnection();
    }

    /** The corrected connect: the waiter is registered before the state changes, so
        the transition to connected that this call makes resolves it. */
    method ConnectObserved() returns (w: Observer)
      requires Valid()
      modifies this
      ensures Valid()
      ensures attached && heartbeat
      ensures state == ServerState(Connected, old(state).error)
      ensures w == Waiter(|old(observers)|) && observers == old(observers) + [w]
      ensures Settle(deliveries, w) == Resolved
      ensures tools == old(tools) && order == old(order) && lastMessageTime == old(lastMessageTime)
      ensures reconnectAttempts == old(reconnectAttempts) && sent == old(sent)
      ensures closes == old(closes) && scheduled == old(scheduled)
    {
      ghost var d0 := deliveries;
      w := WaitForConnection();
      var obs := observers;
      UpdateState(StatePatch(Some(Connecting), None));
      ghost var d1 := deliveries;
      attached := true;
      StartHealthCheck();
      var started := Start();
      assert w !in old(observers);
      SettleAfterConnect(d0, old(observers), w, ServerState(Connecting, old(state).error), state);
    }

    /** The `catch` block of `connect`, reached when the wait is rejected (by the
        5-second timeout, or by a transition to error): the error goes to
        `handleConnectionError` and the call rejects with a wrapped message. */
    method ConnectFailed(e: Thrown) returns (message: string)
      requires Valid()
      modifies this`reconnectAttempts, this`state, this`deliveries, this`scheduled
      ensures Valid()
      ensures message == "Failed to connect to MCP server: " + MessageOr(e, "Unknown error")
      ensures reconnectAttempts == AttemptsAfter(old(reconnectAttempts), 1)
      ensures Recovered(old(reconnectAttempts), old(scheduled), e, reconnectAttempts, state, scheduled)
      ensures deliveries == old(deliveries) + Broadcast(observers, state)
    {
      HandleConnectionError(e);
      message := "Failed to connect to MCP server: " + MessageOr(e, "Unknown error");
    }

    /** A scheduled reconnect firing: it calls `connect` as written again only if a
        transport is still set, and otherwise changes nothing. The engine ends
        connected, but the new waiter misses that transition and stays pending, so
        this connect too rejects on its timeout, which is `ConnectFailed`. */
    method FireReconnect() returns (w: Option<Observer>)
      requires Valid()
      modifies this
      ensures Valid()
      ensures w.Some? <==> old(attached)
      ensures !old(attached) ==> unchanged(this)
      ensures old(attached) ==> state == ServerState(Connected, old(state).error) && Settle(deliveries, w.value) == Pending
      ensures old(attached) ==> reconnectAttempts == old(reconnectAttempts) && scheduled == old(scheduled)
      ensures old(attached) ==>
        attached && heartbeat && w.value == Waiter(|old(observers)|) && observers == old(observers) + [w.value]
      ensures old(attached) ==>
        deliveries == old(deliveries) + Broadcast(old(observers), ServerState(Connecting, old(state).error))
                                      + Broadcast(old(observers), state)
      ensures old(attached) ==>
        tools == old(tools) && order == old(order) && lastMessageTime == old(lastMessageTime) && sent == old(sent) && closes == old(closes)
    {
      if attached {
        var o := Connect();
        w := Some(o);
      } else {
        w := None;
      }
    }

    /** `handleConnectionError`: below the bound, counts one more attempt, marks the
        engine connecting with "Reconnecting... Attempt n/3" and schedules a reconnect
        after 1000 * n ms; at the bound, marks it errored and schedules nothing. The
        counter never decreases and is never reset. */
    method HandleConnectionError(e: Thrown)
      requires Valid()
      modifies this`reconnectAttempts, this`state, this`deliveries, this`scheduled
      ensures Valid()
      ensures old(reconnectAttempts) <= reconnectAttempts
      ensures reconnectAttempts == AttemptsAfter(old(reconnectAttempts), 1)
      ensures Recovered(old(reconnectAttempts), old(scheduled), e, reconnectAttempts, state, scheduled)
      ensures deliveries == old(deliveries) + Broadcast(observers, state)
    {
      match Recover(reconnectAttempts, e)
      case Retry(n, delay) =>
        reconnectAttempts := n;
        UpdateState(StatePatch(Some(Connecting), Some(Some(ReconnectingText(n)))));
        scheduled := scheduled + [delay];
      case GiveUp(reason) =>
        UpdateState(StatePatch(Some(Error), Some(Some(reason))));
    }

    /** `checkHealth` at time `now`: with a transport and more than 60000 ms of inbound
        silence it sends one health-check request; a failed send goes to
        `handleConnectionError`. Otherwise nothing happens. */
    method CheckHealth(now: nat, fault: SendOracle)
      requires Valid()
      modifies this`sent, this`reconnectAttempts, this`state, this`deliveries, this`scheduled
      ensures Valid()
      ensures var probe := Request("health-check-" + DecimalString(now), HealthCheckTool, map[]);
        if old(attached) && NeedsProbe(now, old(lastMessageTime)) && fault(probe).None? then
          && sent == old(sent) + [probe]
          && state == old(state) && reconnectAttempts == old(reconnectAttempts)
          && deliveries == old(deliveries) && scheduled == old(scheduled)
        else if old(attached) && NeedsProbe(now, old(lastMessageTime)) then
          && sent == old(sent)
          && reconnectAttempts == AttemptsAfter(old(reconnectAttempts), 1)
          && Recovered(old(reconnectAttempts), old(scheduled), fault(probe).value, reconnectAttempts, state, scheduled)
          && deliveries == old(deliveries) + Broadcast(observers, state)
        else
          && sent == old(sent) && state == old(state) && reconnectAttempts == old(reconnectAttempts)
          && deliveries == old(deliveries) && scheduled == old(scheduled)
    {
      if !attached {
        return;
      }
      if now - lastMessageTime > MessageTimeout {
        var probe := Request("health-check-" + DecimalString(now), HealthCheckTool, map[]);
        match fault(probe)
        case None =>
          sent := sent + [probe];
        case Some(err) =>
          HandleConnectionError(err);
      }
    }

    /** `disconnect`: stops the heartbeat; with a transport, tries one disconnect
        notification and, if it was accepted, closes the transport; the transport is
        cleared whatever happened. The state always ends disconnected with no error. */
    method Disconnect(now: nat, fault: SendOracle)
      requires Valid()
      modifies this`heartbeat, this`attached, this`sent, this`closes, this`state, this`deliveries
      ensures Valid()
      ensures !heartbeat && !attached
      ensures state == ServerState(Disconnected, None)
      ensures var note := Notification("disconnect-" + DecimalString(now),
          JObj(map["type" := JStr("disconnect"), "message" := JStr("Client is disconnecting")]));
        if old(attached) && fault(note).None? then
          sent == old(sent) + [note] && closes == old(closes) + 1
        else
          sent == old(sent) && closes == old(closes)
      ensures deliveries == old(deliveries) + Broadcast(observers, state)
      ensures tools == old(tools) && order == old(order) && observers == old(observers)
      ensures reconnectAttempts == old(reconnectAttempts) && scheduled == old(scheduled)
    {
      heartbeat := false;
      if attached {
        var note := Notification("disconnect-" + DecimalString(now),
          JObj(map["type" := JStr("disconnect"), "message" := JStr("Client is disconnecting")]));
        if fault(note).None? {
          sent := sent + [note];
          closes := closes + 1;
        }
        attached := false;
      }
      UpdateState(StatePatch(Some(Disconnected), Some(None)));
    }

    /** `handleHealthCheck`: without a transport it does nothing; otherwise it answers
        the probe on its id. The tool map is not consulted. */
    method HandleHealthCheck(req: Message, uptime: nat, now: nat, fault: SendOracle) returns (r: Option<Thrown>)
      requires req.Request?
      modifies this`sent
      ensures var answer := Response(req.id, HealthPayload(uptime, now));
        if attached && fault(answer).None? then sent == old(sent) + [answer] && r.None?
        else sent == old(sent) && r == (if attached then fault(answer) else None)
    {
      if !attached {
        return None;
      }
      var answer := Response(req.id, HealthPayload(uptime, now));
      r := fault(answer);
      if r.None? {
        sent := sent + [answer];
      }
    }

    /** `handleRequest`, as specified by `Dispatch`. */
    method HandleRequest(req: Message, run: RunOracle, fault: SendOracle) returns (r: Result<Json, Thrown>)
      requires req.Request?
      modifies this`sent
      ensures var d := Dispatch(attached, tools, req, run, fault);
        sent == old(sent) + d.sends && r == d.outcome
    {
      if !attached {
        return Err(Fail("Transport not connected"));
      }
      if req.tool !in tools {
        r := SendError(req.id, Fail("Tool not found: " + req.tool), fault);
        return;
      }
      match run(tools[req.tool], req.args)
      case Err(e) =>
        r := SendError(req.id, e, fault);
      case Ok(v) =>
        var m := Response(req.id, v);
        if fault(m).None? {
          sent := sent + [m];
          r := Ok(v);
        } else {
          r := SendError(req.id, fault(m).value, fault);
        }
    }

    /** The `catch` block of `handleRequest`, as specified by `Fallback`. */
    method SendError(id: string, e: Thrown, fault: SendOracle) returns (r: Result<Json, Thrown>)
      modifies this`sent
      ensures var d := Fallback(id, e, fault); sent == old(sent) + d.sends && r == d.outcome
    {
      var m := ErrorReply(id, ExecutionError, MessageOr(e, "Unknown error"));
      if fault(m).None? {
        sent := sent + [m];
        r := Err(e);
      } else {
        r := Err(fault(m).value);
      }
    }

    /** One step of the inbound loop of `start()`, for message `m` received at `now`:
        it records the time, answers a health-check probe itself, hands any other
        request to `handleRequest`, and ignores other messages. A throw ends the loop
        (`continues` is false) and goes to `handleConnectionError`. */
    method Receive(m: Message, now: nat, uptime: nat, run: RunOracle, fault: SendOracle) returns (continues: bool)
      requires Valid()
      modifies this`lastMessageTime, this`sent, this`reconnectAttempts, this`state, this`deliveries, this`scheduled
      ensures Valid()
      ensures lastMessageTime == now
      ensures forall t :: 0 <= t <= now + MessageTimeout ==> !NeedsProbe(t, lastMessageTime)
      ensures continues ==>
        && state == old(state) && reconnectAttempts == old(reconnectAttempts)
        && deliveries == old(deliveries) && scheduled == old(scheduled)
      ensures RouteOf(m) == Skip ==> continues && sent == old(sent)
      ensures RouteOf(m) == Answer ==>
        var answer := Response(m.id, HealthPayload(uptime, now));
        if attached && fault(answer).None? then continues && sent == old(sent) + [answer]
        else if !attached then continues && sent == old(sent)
        else (&& !continues && sent == old(sent)
              && reconnectAttempts == AttemptsAfter(old(reconnectAttempts), 1)
              && Recovered(old(reconnectAttempts), old(scheduled), fault(answer).value, reconnectAttempts, state, scheduled)
              && deliveries == old(deliveries) + Broadcast(observers, state))
      ensures RouteOf(m) == Forward ==>
        var d := Dispatch(attached, tools, m, run, fault);
        && sent == old(sent) + d.sends
        && (continues <==> d.outcome.Ok?)
        && (d.outcome.Err? ==>
              && reconnectAttempts == AttemptsAfter(old(reconnectAttempts), 1)
              && Recovered(old(reconnectAttempts), old(scheduled), d.outcome.error, reconnectAttempts, state, scheduled)
              && deliveries == old(deliveries) + Broadcast(observers, state))
    {
      lastMessageTime := now;
      match RouteOf(m)
      case Skip =>
        continues := true;
      case Answer =>
        var failed := HandleHealthCheck(m, uptime, now, fault);
        continues := failed.None?;
        if failed.Some? {
          HandleConnectionError(failed.value);
        }
      case Forward =>
        var r := HandleRequest(m, run, fault);
        continues := r.Ok?;
        if r.Err? {
          HandleConnectionError(r.error);
        }
    }

    /** The end of the inbound loop: a stream that throws goes to
        `handleConnectionError`; a stream that simply ends changes nothing. */
    method StreamEnded(failure: Option<Thrown>)
      requires Valid()
      modifies this`reconnectAttempts, this`state, this`deliveries, this`scheduled
      ensures Valid()
      ensures failure.None? ==> state == old(state) && reconnectAttempts == old(reconnectAttempts)
      ensures failure.None? ==> scheduled == old(scheduled) && deliveries == old(deliveries)
      ensures failure.Some? ==> reconnectAttempts == AttemptsAfter(old(reconnectAttempts), 1)
      ensures failure.Some? ==> Recovered(old(reconnectAttempts), old(scheduled), failure.value, reconnectAttempts, state, scheduled)
      ensures failure.Some? ==> deliveries == old(deliveries) + Broadcast(observers, state)
    {
      if failure.Some? {
        HandleConnectionError(failure.value);
      }
    }
  }

  /** A fresh engine that connects ends connected, yet the waiter of that connect is
      still pending: nothing will resolve it but a later transition, so the call
      rejects when its 5-second timeout fires. */
  method ConnectMissesItsOwnTransition() returns (status: Status, outcome: Settlement)
    ensures status == Connected && outcome == Pending
  {
    var mcp := new MCP(0);
    var w := mcp.Connect();
    status := mcp.state.status;
    outcome := Settle(mcp.deliveries, w);
  }

  /** As written, the reconnect cycle does not recover: a fresh engine's connect times
      out, the error schedules a reconnect after 1000 ms, and when it fires the new
      connect's waiter is pending again, headed for the next timeout. */
  method ReconnectStaysPending() returns (status: Status, outcome: Settlement, attempts: nat, delays: seq<nat>)
    ensures status == Connected && outcome == Pending
    ensures attempts == 1 && delays == [1000]
  {
    var mcp := new MCP(0);
    var w := mcp.Connect();
    var message := mcp.ConnectFailed(Fail("Connection timeout"));
    var again := mcp.FireReconnect();
    status := mcp.state.status;
    outcome := Settle(mcp.deliveries, again.value);
    attempts := mcp.reconnectAttempts;
    delays := mcp.scheduled;
  }

  /** With the corrected connect, the same fresh engine resolves its waiter. */
  method ConnectObservedResolves() returns (status: Status, outcome: Settlement)
    ensures status == Connected && outcome == Resolved
  {
    var mcp := new MCP(0);
    var w := mcp.ConnectObserved();
    status := mcp.state.status;
    outcome := Settle(mcp.deliveries, w);
  }

  /** `echo` is registered: a request on id "t1" is answered with a response on "t1"
      carrying echo's result, and that result is returned. A request for the
      unregistered "ghost" is answered with an EXECUTION_ERROR on its id and rejected. */
  method DispatchScenario(echo: Json, fault: SendOracle) returns (first: Dispatched, second: Dispatched)
    requires forall m :: fault(m).None?
    ensures first == Dispatched([Response("t1", echo)], Ok(echo))
    ensures second == Dispatched([ErrorReply("t2", ExecutionError, "Tool not found: ghost")], Err(Fail("Tool not found: ghost")))
  {
    var t := Tool("echo", "echoes", []);
    var tools := map["echo" := t];
    var run := (tool: Tool, args: map<string, Json>) => if tool.name == "echo" then Ok(echo) else Err(NonError("?"));
    assert "ghost"[0] != "echo"[0];
    assert "Tool not found: " + "ghost" == "Tool not found: ghost";
    first := Dispatch(true, tools, Request("t1", "echo", map[]), run, fault);
    second := Dispatch(true, tools, Request("t2", "ghost", map[]), run, fault);
  }
}
