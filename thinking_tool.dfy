/** The sequential-thinking tool: a bounded loop that asks the language model for the
    next step, runs the first tool it names, and records each step; and the prompt it
    builds from the steps so far. */
module ThinkingTool {
  import opened Support
  import opened CoreTypes
  import OpenAI

  const Name := "sequential_thinking"
  const DefaultMaxSteps := 5
  const DefaultSystemPrompt :=
    "You are an AI assistant that helps solve problems by breaking them down into sequential steps.\n"
    + "For each step:\n"
    + "1. Think about what needs to be done\n"
    + "2. If needed, use an available tool to gather information or perform an action\n"
    + "3. Use the result to plan the next step\n"
    + "4. If the goal is achieved, respond without using any tools\n"
    + "\n"
    + "Always explain your thinking before taking any action."

  /** The tool's own descriptor. */
  const Descriptor := Tool(Name, "Breaks down complex problems into sequential steps and executes them", [
    Param("goal", "string", "The goal or problem to solve", true),
    Param("context", "string", "Additional context or constraints", false)])

  /** The constructor's optional settings. */
  datatype ThinkingConfig = ThinkingConfig(maxSteps: Option<int>, systemPrompt: Option<string>)

  /** `tools.filter(t => t.name !== this.name)` */
  function WithoutSelf(tools: seq<Tool>): (r: seq<Tool>)
    ensures forall t :: t in r <==> t in tools && t.name != Name
    ensures |r| <= |tools|
  {
    if tools == [] then []
    else (if tools[0].name == Name then [] else [tools[0]]) + WithoutSelf(tools[1..])
  }

  /** The filter keeps the original order: it distributes over concatenation. */
  lemma {:induction false} WithoutSelfConcat(a: seq<Tool>, b: seq<Tool>)
    ensures WithoutSelf(a + b) == WithoutSelf(a) + WithoutSelf(b)
  {
    if a == [] {
      assert a + b == b;
    } else {
      assert (a + b)[1..] == a[1..] + b;
      WithoutSelfConcat(a[1..], b);
    }
  }

  /** `tools.find(t => t.name === name)`: the first tool with that name. */
  function FindTool(tools: seq<Tool>, name: string): (r: Option<Tool>)
    ensures r.None? <==> forall i :: 0 <= i < |tools| ==> tools[i].name != name
    ensures r.Some? ==> exists i :: 0 <= i < |tools| && tools[i] == r.value && r.value.name == name &&
                                    (forall j :: 0 <= j < i ==> tools[j].name != name)
  {
    if tools == [] then None
    else if tools[0].name == name then Some(tools[0])
    else
      var r := FindTool(tools[1..], name);
      assert r.Some? ==> exists i :: 0 < i < |tools| && tools[i] == r.value && r.value.name == name &&
                                     (forall j :: 0 <= j < i ==> tools[j].name != name) by {
        if r.Some? {
          var i :| 0 <= i < |tools[1..]| && tools[1..][i] == r.value && r.value.name == name &&
            forall j :: 0 <= j < i ==> tools[1..][j].name != name;
          assert tools[i + 1] == r.value;
          assert forall j :: 1 <= j < i + 1 ==> tools[j] == tools[1..][j - 1];
        }
      }
      r
  }

  /** One recorded step; an absent `result` is `undefined`. */
  datatype Step = Step(thought: string, action: Option<string>, result: Option<Json>)

  /** What `execute` returns. */
  datatype Outcome = Outcome(goal: string, context: string, steps: seq<Step>)

  function ThoughtLine(i: nat, s: Step): string {
    DecimalString(i + 1) + ". Thought: " + s.thought + "\n"
  }

  /** A step's action line: only for a non-empty action. */
  function ActionLine(s: Step): string {
    if Truthy(s.action) then "   Action: " + s.action.value + "\n" else ""
  }

  /** A step's result line: only for a defined result. */
  function ResultLine(s: Step, stringify: Json -> string): string {
    if s.result.Some? then "   Result: " + stringify(s.result.value) + "\n" else ""
  }

  /** The block for step i, numbered i + 1. */
  function StepText(i: nat, s: Step, stringify: Json -> string): string {
    ThoughtLine(i, s) + ActionLine(s) + ResultLine(s, stringify)
  }

  /** The `forEach` over the steps: one numbered block per step. */
  function StepsText(steps: seq<Step>, stringify: Json -> string): string {
    if steps == [] then ""
    else StepsText(steps[..|steps| - 1], stringify) + StepText(|steps| - 1, steps[|steps| - 1], stringify)
  }

  /** The context line: only for a non-empty context. */
  function ContextLine(context: string): string {
    if context != "" then "Context: " + context + "\n" else ""
  }

  function Header(goal: string, context: string): string {
    "Goal: " + goal + "\n" + ContextLine(context)
  }

  const StepsHeading := "\nPrevious steps:\n"
  const Question := "\nWhat should be the next step?"

  /** The list of previous steps: only when there are any. */
  function StepsSection(steps: seq<Step>, stringify: Json -> string): string {
    if steps != [] then StepsHeading + StepsText(steps, stringify) else ""
  }

  /** The prompt `buildPrompt` returns. */
  function PromptText(goal: string, context: string, steps: seq<Step>, stringify: Json -> string): string {
    Header(goal, context) + StepsSection(steps, stringify) + Question
  }

  /** `buildPrompt`: the prompt is accumulated piece by piece. */
  method BuildPrompt(goal: string, context: string, steps: seq<Step>, stringify: Json -> string)
    returns (prompt: string)
    ensures prompt == PromptText(goal, context, steps, stringify)
  {
    prompt := "Goal: " + goal + "\n";
    if context != "" {
      prompt := prompt + ("Context: " + context + "\n");
    }
    assert prompt == Header(goal, context);
    if |steps| > 0 {
      prompt := prompt + StepsHeading;
      ghost var base := prompt;
      var i := 0;
      while i < |steps|
        invariant 0 <= i <= |steps|
        invariant prompt == base + StepsText(steps[..i], stringify)
      {
        var block := StepBlock(i, steps[i], stringify);
        assert steps[..i + 1] == steps[..i] + [steps[i]];
        StepsTextSnoc(steps[..i], steps[i], stringify);
        AppendAssoc(base, StepsText(steps[..i], stringify), block);
        prompt := prompt + block;
        i := i + 1;
      }
      assert steps[..|steps|] == steps;
      AppendAssoc(Header(goal, context), StepsHeading, StepsText(steps, stringify));
    } else {
      assert StepsSection(steps, stringify) == "";
    }
    prompt := prompt + Question;
  }

  /** The `forEach` callback: the lines for step i. */
  method StepBlock(i: nat, step: Step, stringify: Json -> string) returns (block: string)
    ensures block == StepText(i, step, stringify)
  {
    block := DecimalString(i + 1) + ". Thought: " + step.thought + "\n";
    if Truthy(step.action) {
      block := block + ("   Action: " + step.action.value + "\n");
    }
    if step.result.Some? {
      block := block + ("   Result: " + stringify(step.result.value) + "\n");
    }
  }

  /** The prompt opens with the goal line. */
  lemma PromptOpensWithGoal(goal: string, context: string, steps: seq<Step>, stringify: Json -> string)
    ensures StartsWith(PromptText(goal, context, steps, stringify), "Goal: " + goal + "\n")
  {
    var h := "Goal: " + goal + "\n";
    var p := PromptText(goal, context, steps, stringify);
    assert p == h + (p[|h|..]);
  }

  /** What follows the goal line. */
  lemma PromptAfterGoal(goal: string, context: string, steps: seq<Step>, stringify: Json -> string)
    ensures var g := "Goal: " + goal + "\n";
      var p := PromptText(goal, context, steps, stringify);
      |g| <= |p| && p[|g|..] == ContextLine(context) + (StepsSection(steps, stringify) + Question)
  {
    var g := "Goal: " + goal + "\n";
    var line := ContextLine(context);
    var mid := StepsSection(steps, stringify);
    AppendAssoc(g, line, mid);
    AppendAssoc(g, line + mid, Question);
    AppendAssoc(line, mid, Question);
    DropPrefix(g, line + (mid + Question));
  }

  /** Whatever follows the header opens with a line break. */
  lemma AfterHeaderOpensWithBreak(steps: seq<Step>, stringify: Json -> string)
    ensures var rest := StepsSection(steps, stringify) + Question; |rest| > 0 && rest[0] == '\n'
  {
    if steps != [] {
      AppendAssoc(StepsHeading, StepsText(steps, stringify), Question);
    }
  }

  /** After the goal line comes a `Context: ` line exactly when the context is non-empty. */
  lemma PromptContextLine(goal: string, context: string, steps: seq<Step>, stringify: Json -> string)
    ensures var h := "Goal: " + goal + "\n";
      var p := PromptText(goal, context, steps, stringify);
      |h| <= |p| && (StartsWith(p[|h|..], "Context: ") <==> context != "")
    ensures context != "" ==> StartsWith(PromptText(goal, context, steps, stringify)[|"Goal: " + goal + "\n"|..],
      "Context: " + context + "\n")
  {
    PromptAfterGoal(goal, context, steps, stringify);
    var rest := StepsSection(steps, stringify) + Question;
    if context == "" {
      AfterHeaderOpensWithBreak(steps, stringify);
      assert ContextLine(context) + rest == rest;
    } else {
      var line := ContextLine(context);
      StartsWithConcat(line, rest, line);
      AppendAssoc("Context: ", context, "\n");
      StartsWithConcat("Context: ", context + "\n", "Context: ");
      StartsWithConcat(line, rest, "Context: ");
    }
  }

  /** After the header comes the `Previous steps:` heading exactly when there are steps. */
  lemma PromptStepsSection(goal: string, context: string, steps: seq<Step>, stringify: Json -> string)
    ensures var h := Header(goal, context);
      var p := PromptText(goal, context, steps, stringify);
      |h| <= |p| && (StartsWith(p[|h|..], StepsHeading) <==> steps != [])
  {
    var h := Header(goal, context);
    var mid := StepsSection(steps, stringify);
    AppendAssoc(h, mid, Question);
    DropPrefix(h, mid + Question);
    if steps == [] {
      assert (mid + Question)[1] == 'W';
    } else {
      StartsWithConcat(StepsHeading, StepsText(steps, stringify), StepsHeading);
      StartsWithConcat(mid, Question, StepsHeading);
    }
  }

  /** The last block of the step list is the numbered block of the last step. */
  lemma StepsTextSnoc(steps: seq<Step>, s: Step, stringify: Json -> string)
    ensures StepsText(steps + [s], stringify) == StepsText(steps, stringify) + StepText(|steps|, s, stringify)
  {
    assert (steps + [s])[..|steps|] == steps;
  }

  /** The step list is numbered from 1: it opens with the first step's block. */
  lemma {:induction false} StepsNumberedFromOne(steps: seq<Step>, stringify: Json -> string)
    requires steps != []
    ensures StartsWith(StepsText(steps, stringify), "1. Thought: " + steps[0].thought + "\n")
  {
    var first := "1. Thought: " + steps[0].thought + "\n";
    var init := steps[..|steps| - 1];
    var last := StepText(|steps| - 1, steps[|steps| - 1], stringify);
    if |steps| == 1 {
      assert DecimalString(1) == "1";
      assert ThoughtLine(0, steps[0]) == first;
      StartsWithConcat(first, ActionLine(steps[0]) + ResultLine(steps[0], stringify), first);
      assert StepsText(steps, stringify) == StepsText(init, stringify) + last;
      assert StepsText(init, stringify) == "";
    } else {
      StepsNumberedFromOne(init, stringify);
      assert init[0] == steps[0];
      StartsWithConcat(StepsText(init, stringify), last, first);
    }
  }

  /** The prompt always closes with the question. */
  lemma PromptClosesWithQuestion(goal: string, context: string, steps: seq<Step>, stringify: Json -> string)
    ensures var p := PromptText(goal, context, steps, stringify);
      |Question| <= |p| && p[|p| - |Question|..] == Question
  {
  }

  /** The world outside the step loop: the chat endpoint, `JSON.parse` of the tool
      arguments, the tools' `execute`, and `JSON.stringify`. */
  datatype Oracles = Oracles(
    chat: OpenAI.ChatOracle,
    parse: string -> Result<Json, Thrown>,
    run: (Tool, Json) -> Result<Option<Json>, Thrown>,
    stringify: Json -> string)

  /** How one provider reply ends an iteration of the loop. */
  datatype Turn = Continue(step: Step) | Stop(step: Step) | Throw(error: Thrown)

  predicate HasToolCalls(reply: LlmReply) {
    reply.toolCalls.Some? && |reply.toolCalls.value| > 0
  }

  /** One iteration of `execute`, from the provider's reply to the step it records. */
  function Decide(reply: Result<LlmReply, Thrown>, tools: seq<Tool>, o: Oracles): (t: Turn)
    ensures t.Throw? <==> reply.Err? ||
                          (HasToolCalls(reply.value) && FindTool(tools, reply.value.toolCalls.value[0].name).None?)
    ensures reply.Err? ==> t == Throw(reply.error)
    ensures reply.Ok? && !HasToolCalls(reply.value) ==>
      t == Stop(Step(OrElse(reply.value.content, "Task completed."), None, None))
    ensures reply.Ok? && HasToolCalls(reply.value) ==>
      var name := reply.value.toolCalls.value[0].name;
      && (t.Throw? ==> t.error == Fail("Tool not found: " + name))
      && (t.Stop? ==> (t.step.result.None? && t.step.action.Some? &&
                       StartsWith(t.step.action.value, name + " failed: ")))
      && (!t.Throw? ==> t.step.thought == OrElse(reply.value.content, ""))
  {
    if reply.Err? then Throw(reply.error)
    else if !HasToolCalls(reply.value) then Stop(Step(OrElse(reply.value.content, "Task completed."), None, None))
    else
      var call := reply.value.toolCalls.value[0];
      var thought := OrElse(reply.value.content, "");
      match FindTool(tools, call.name)
      case None => Throw(Fail("Tool not found: " + call.name))
      case Some(tool) =>
        match o.parse(call.arguments)
        case Err(e) => Stop(Step(thought, Some(Failed(tool.name, e)), None))
        case Ok(args) =>
          match o.run(tool, args)
          case Err(e) => Stop(Step(thought, Some(Failed(tool.name, e)), None))
          case Ok(result) => Continue(Step(thought, Some(tool.name + "(" + o.stringify(args) + ")"), result))
  }

  function Failed(name: string, e: Thrown): (a: string)
    ensures StartsWith(a, name + " failed: ")
  {
    var a := name + " failed: " + ErrorText(e);
    assert a[..|name + " failed: "|] == name + " failed: ";
    a
  }

  /** How the loop's k-th iteration ends, given the steps recorded before it. */
  type Turns = (nat, seq<Step>) -> Turn

  /** The loop of `execute` from iteration k on, with `steps` recorded so far: the
      result and the number of provider calls made in all. */
  function Loop(turns: Turns, maxSteps: int, k: nat, goal: string, context: string, steps: seq<Step>)
    : (Result<Outcome, Thrown>, nat)
    decreases maxSteps - k
  {
    if k >= maxSteps then (Ok(Outcome(goal, context, steps)), k)
    else
      match turns(k, steps)
      case Throw(e) => (Err(e), k + 1)
      case Stop(s) => (Ok(Outcome(goal, context, steps + [s])), k + 1)
      case Continue(s) => Loop(turns, maxSteps, k + 1, goal, context, steps + [s])
  }

  /** The loop's bounds: at most `maxSteps` calls, one step per call, and the goal,
      the context and the earlier steps are kept. */
  lemma {:induction false} LoopBounded(turns: Turns, maxSteps: int, k: nat, goal: string, context: string, steps: seq<Step>)
    requires |steps| == k
    ensures var (r, calls) := Loop(turns, maxSteps, k, goal, context, steps);
      && k <= calls
      && (calls <= maxSteps || calls == k)
      && (k < maxSteps || r.Err? ==> k < calls)
      && (r.Ok? ==> (r.value.goal == goal && r.value.context == context &&
                     |r.value.steps| == calls && r.value.steps[..k] == steps))
    decreases maxSteps - k
  {
    if k < maxSteps {
      match turns(k, steps)
      case Throw(e) =>
      case Stop(s) =>
        assert (steps + [s])[..k] == steps;
      case Continue(s) =>
        LoopBounded(turns, maxSteps, k + 1, goal, context, steps + [s]);
        var (r, calls) := Loop(turns, maxSteps, k + 1, goal, context, steps + [s]);
        if r.Ok? {
          assert r.value.steps[..k] == r.value.steps[..k + 1][..k];
        }
    }
  }

  /** Step j of a run that recorded `fin` in `calls` calls is what iteration j decided
      from the steps before it: it continued the loop unless it was the last, and the
      last stopped the loop when fewer than `maxSteps` calls were made. */
  predicate StepDecided(turns: Turns, maxSteps: int, j: nat, fin: seq<Step>, calls: nat)
    requires j < |fin|
  {
    var t := turns(j, fin[..j]);
    && !t.Throw? && t.step == fin[j]
    && (j + 1 < calls ==> t.Continue?)
    && (j + 1 == calls && calls < maxSteps ==> t.Stop?)
  }

  /** Every recorded step is accounted for by the iteration that recorded it. */
  lemma {:induction false} LoopTrace(turns: Turns, maxSteps: int, k: nat, goal: string, context: string, steps: seq<Step>)
    requires |steps| == k
    ensures var (r, calls) := Loop(turns, maxSteps, k, goal, context, steps);
      r.Ok? ==> |r.value.steps| == calls &&
                forall j :: k <= j < calls ==> StepDecided(turns, maxSteps, j, r.value.steps, calls)
    decreases maxSteps - k
  {
    LoopBounded(turns, maxSteps, k, goal, context, steps);
    if k < maxSteps {
      match turns(k, steps)
      case Throw(e) =>
      case Stop(s) =>
        assert (steps + [s])[..k] == steps;
        assert StepDecided(turns, maxSteps, k, steps + [s], k + 1);
      case Continue(s) =>
        LoopBounded(turns, maxSteps, k + 1, goal, context, steps + [s]);
        LoopTrace(turns, maxSteps, k + 1, goal, context, steps + [s]);
        var (r, calls) := Loop(turns, maxSteps, k + 1, goal, context, steps + [s]);
        if r.Ok? {
          var fin := r.value.steps;
          assert fin[..k] == steps by {
            assert fin[..k] == fin[..k + 1][..k];
          }
          assert fin[k] == s by {
            assert fin[..k + 1][k] == fin[k];
          }
          assert StepDecided(turns, maxSteps, k, fin, calls);
        }
    }
  }

  class SequentialThinkingTool {
    const provider: OpenAI.ProviderConfig
    const availableTools: seq<Tool>
    const maxSteps: int
    const systemPrompt: string

    /** The constructor: drops itself from the tool list and fills in the defaults. */
    constructor (provider: OpenAI.ProviderConfig, tools: seq<Tool>, config: ThinkingConfig)
      ensures this.provider == provider
      ensures availableTools == WithoutSelf(tools)
      ensures maxSteps == (if config.maxSteps.Some? then config.maxSteps.value else DefaultMaxSteps)
      ensures systemPrompt == (if config.systemPrompt.Some? then config.systemPrompt.value else DefaultSystemPrompt)
    {
      this.provider := provider;
      availableTools := WithoutSelf(tools);
      maxSteps := config.maxSteps.GetOr(DefaultMaxSteps);
      systemPrompt := config.systemPrompt.GetOr(DefaultSystemPrompt);
    }

    /** Iteration k: ask the provider (as its k-th call) with the prompt built from the
        steps so far, and decide on its reply. */
    function TurnsOf(goal: string, context: string, o: Oracles): Turns {
      (k: nat, steps: seq<Step>) =>
        Decide(o.chat(k, OpenAI.RequestFor(provider, PromptText(goal, context, steps, o.stringify),
                                           availableTools, Some(systemPrompt))),
               availableTools, o)
    }

    /** `execute`: the bounded step loop. */
    method Execute(goal: string, context: Option<string>, o: Oracles) returns (r: Result<Outcome, Thrown>, calls: nat)
      ensures (r, calls) == Loop(TurnsOf(goal, context.GetOr(""), o), maxSteps, 0, goal, context.GetOr(""), [])
      ensures calls <= maxSteps || calls == 0
      ensures r.Ok? ==> r.value.goal == goal && r.value.context == context.GetOr("") && |r.value.steps| == calls
      ensures r.Ok? ==> forall j :: 0 <= j < calls ==>
                          StepDecided(TurnsOf(goal, context.GetOr(""), o), maxSteps, j, r.value.steps, calls)
    {
      var ctx := context.GetOr("");
      ghost var turns := TurnsOf(goal, ctx, o);
      var steps: seq<Step> := [];
      var step: nat := 0;
      calls := 0;
      while step < maxSteps
        invariant calls == step == |steps|
        invariant Loop(turns, maxSteps, step, goal, ctx, steps) == Loop(turns, maxSteps, 0, goal, ctx, [])
        decreases maxSteps - step
      {
        var prompt := BuildPrompt(goal, ctx, steps, o.stringify);
        var response := OpenAI.GenerateToolCalls(provider, prompt, availableTools, Some(systemPrompt), o.chat, step);
        assert turns(step, steps) == Decide(response, availableTools, o);
        calls := calls + 1;
        if response.Err? {
          r := Err(response.error);
          LoopBounded(turns, maxSteps, 0, goal, ctx, []);
          return;
        }
        var reply := response.value;
        if reply.toolCalls.None? || |reply.toolCalls.value| == 0 {
          steps := steps + [Step(OrElse(reply.content, "Task completed."), None, None)];
          break;
        }
        var call := reply.toolCalls.value[0];
        var found := FindTool(availableTools, call.name);
        if found.None? {
          r := Err(Fail("Tool not found: " + call.name));
          LoopBounded(turns, maxSteps, 0, goal, ctx, []);
          return;
        }
        var tool := found.value;
        var thought := OrElse(reply.content, "");
        var parsed := o.parse(call.arguments);
        if parsed.Err? {
          steps := steps + [Step(thought, Some(Failed(tool.name, parsed.error)), None)];
          break;
        }
        var result := o.run(tool, parsed.value);
        if result.Err? {
          steps := steps + [Step(thought, Some(Failed(tool.name, result.error)), None)];
          break;
        }
        steps := steps + [Step(thought, Some(tool.name + "(" + o.stringify(parsed.value) + ")"), result.value)];
        step := step + 1;
      }
      r := Ok(Outcome(goal, ctx, steps));
      LoopBounded(turns, maxSteps, 0, goal, ctx, []);
      LoopTrace(turns, maxSteps, 0, goal, ctx, []);
    }
  }
}
