/** Request shaping of the OpenAI provider: the constructor's defaults and key check,
    the system/user message list, and the conversion of tool descriptors into function
    definitions. The network call itself is not part of this model. */
module OpenAI {
  import opened Support
  import opened CoreTypes

  const DefaultModel := "gpt-3.5-turbo"
  const DefaultMaxTokens: nat := 1000
  const MissingKey := "OpenAI API key is required. Set it in .env.local or pass it in the constructor."

  /** The provider's settings; the temperature (a float, 0.7 by default) is not modelled. */
  datatype ProviderConfig = ProviderConfig(apiKey: string, model: string, maxTokens: nat)

  /** The constructor: the key is the given one, or else the environment's; a missing
      or empty key throws. The model defaults to gpt-3.5-turbo and the token limit to
      1000; `??` keeps an empty model name or a zero limit. */
  function NewProvider(apiKey: Option<string>, envKey: Option<string>, model: Option<string>, maxTokens: Option<nat>)
    : (r: Result<ProviderConfig, string>)
    ensures var key := if apiKey.Some? then apiKey else envKey;
      (r.Err? <==> !Truthy(key)) && (r.Ok? ==> r.value.apiKey == key.value)
    ensures r.Err? ==> r.error == MissingKey
    ensures r.Ok? ==> r.value.model == (if model.Some? then model.value else DefaultModel)
    ensures r.Ok? ==> r.value.maxTokens == (if maxTokens.Some? then maxTokens.value else DefaultMaxTokens)
  {
    var key := if apiKey.Some? then apiKey else envKey;
    if !Truthy(key) then Err(MissingKey)
    else Ok(ProviderConfig(key.value, model.GetOr(DefaultModel), maxTokens.GetOr(DefaultMaxTokens)))
  }

  /** The `messages` list of `generateToolCalls`: a system message when the system
      prompt is non-empty, then the user's prompt. */
  function Messages(prompt: string, systemPrompt: Option<string>): (m: seq<ChatMessage>)
    ensures |m| == if Truthy(systemPrompt) then 2 else 1
    ensures m[|m| - 1] == ChatMessage(User, prompt)
    ensures Truthy(systemPrompt) ==> m[0] == ChatMessage(System, systemPrompt.value)
  {
    (if Truthy(systemPrompt) then [ChatMessage(System, systemPrompt.value)] else []) + [ChatMessage(User, prompt)]
  }

  /** The two `push` calls of `generateToolCalls`. */
  method BuildMessages(prompt: string, systemPrompt: Option<string>) returns (messages: seq<ChatMessage>)
    ensures messages == Messages(prompt, systemPrompt)
  {
    messages := [];
    if Truthy(systemPrompt) {
      messages := messages + [ChatMessage(System, systemPrompt.value)];
    }
    messages := messages + [ChatMessage(User, prompt)];
  }

  datatype PropertySpec = PropertySpec(kind: string, description: string)

  datatype Schema = Schema(kind: string, properties: map<string, PropertySpec>, required: seq<string>)

  datatype FunctionSpec = FunctionSpec(name: string, description: string, parameters: Schema)

  datatype ToolDefinition = ToolDefinition(kind: string, fn: FunctionSpec)

  function PropertyOf(p: Param): PropertySpec {
    PropertySpec(p.kind, p.description)
  }

  /** The `reduce` over the parameter list: each parameter, left to right, sets its
      name's entry. */
  function Properties(ps: seq<Param>): map<string, PropertySpec> {
    if ps == [] then map[]
    else Properties(ps[..|ps| - 1])[ps[|ps| - 1].name := PropertyOf(ps[|ps| - 1])]
  }

  /** Building the properties of a concatenation is a map union in which the later
      part wins: a later parameter overwrites an earlier one of the same name. */
  lemma {:induction false} PropertiesConcat(a: seq<Param>, b: seq<Param>)
    ensures Properties(a + b) == Properties(a) + Properties(b)
  {
    if b == [] {
      assert a + b == a;
    } else {
      var x := b[|b| - 1];
      var b' := b[..|b| - 1];
      assert (a + b)[..|a + b| - 1] == a + b';
      PropertiesConcat(a, b');
    }
  }

  /** One key per parameter name. */
  lemma {:induction false} PropertiesKeys(ps: seq<Param>, n: string)
    ensures n in Properties(ps) <==> exists i :: 0 <= i < |ps| && ps[i].name == n
  {
    if ps != [] {
      var init := ps[..|ps| - 1];
      PropertiesKeys(init, n);
      if n in Properties(init) {
        var i :| 0 <= i < |init| && init[i].name == n;
        assert ps[i].name == n;
      }
      if exists i :: 0 <= i < |ps| && ps[i].name == n {
        var i :| 0 <= i < |ps| && ps[i].name == n;
        if i < |ps| - 1 {
          assert init[i].name == n;
        }
      }
    }
  }

  /** Each entry holds the type and description of the last parameter with that name. */
  lemma {:induction false} PropertiesLastWins(ps: seq<Param>, i: nat)
    requires i < |ps|
    requires forall j :: i < j < |ps| ==> ps[j].name != ps[i].name
    ensures ps[i].name in Properties(ps) && Properties(ps)[ps[i].name] == PropertyOf(ps[i])
  {
    if i < |ps| - 1 {
      PropertiesLastWins(ps[..|ps| - 1], i);
    }
  }

  /** `filter(p => p.required).map(p => p.name)` */
  function Required(ps: seq<Param>): seq<string> {
    if ps == [] then []
    else (if ps[0].required then [ps[0].name] else []) + Required(ps[1..])
  }

  /** The required list of a concatenation is the concatenation of the lists, so the
      names keep the declaration order. */
  lemma {:induction false} RequiredConcat(a: seq<Param>, b: seq<Param>)
    ensures Required(a + b) == Required(a) + Required(b)
  {
    if a == [] {
      assert a + b == b;
    } else {
      assert (a + b)[1..] == a[1..] + b;
      RequiredConcat(a[1..], b);
    }
  }

  /** Exactly the names of the parameters marked required are listed. */
  lemma {:induction false} RequiredMembers(ps: seq<Param>, n: string)
    ensures n in Required(ps) <==> exists i :: 0 <= i < |ps| && ps[i].required && ps[i].name == n
  {
    if ps != [] {
      RequiredMembers(ps[1..], n);
      if exists i :: 0 <= i < |ps| && ps[i].required && ps[i].name == n {
        var i :| 0 <= i < |ps| && ps[i].required && ps[i].name == n;
        if i > 0 {
          assert ps[1..][i - 1] == ps[i];
        }
      }
      if exists i :: 0 <= i < |ps[1..]| && ps[1..][i].required && ps[1..][i].name == n {
        var i :| 0 <= i < |ps[1..]| && ps[1..][i].required && ps[1..][i].name == n;
        assert ps[i + 1] == ps[1..][i];
      }
    }
  }

  function Definition(t: Tool): ToolDefinition {
    ToolDefinition("function",
      FunctionSpec(t.name, t.description, Schema("object", Properties(t.parameters), Required(t.parameters))))
  }

  /** `tools.map(...)`: one function definition per tool, in the same order. */
  function Definitions(tools: seq<Tool>): (r: seq<ToolDefinition>)
    ensures |r| == |tools|
    ensures forall i :: 0 <= i < |r| ==>
      && r[i].kind == "function"
      && r[i].fn.name == tools[i].name
      && r[i].fn.description == tools[i].description
      && r[i].fn.parameters.kind == "object"
      && r[i].fn.parameters.properties == Properties(tools[i].parameters)
      && r[i].fn.parameters.required == Required(tools[i].parameters)
  {
    if tools == [] then [] else [Definition(tools[0])] + Definitions(tools[1..])
  }

  /** What `generateToolCalls` hands to the chat-completions endpoint. */
  datatype ChatRequest = ChatRequest(
    model: string, messages: seq<ChatMessage>, maxTokens: nat,
    tools: seq<ToolDefinition>, toolChoice: string)

  /** The chat-completions endpoint: the n-th call's reply to a request, or what it throws. */
  type ChatOracle = (nat, ChatRequest) -> Result<LlmReply, Thrown>

  /** The request `generateToolCalls` sends. */
  function RequestFor(config: ProviderConfig, prompt: string, tools: seq<Tool>, systemPrompt: Option<string>)
    : (req: ChatRequest)
    ensures req.model == config.model && req.maxTokens == config.maxTokens && req.toolChoice == "auto"
    ensures req.messages == Messages(prompt, systemPrompt)
    ensures |req.tools| == |tools|
    ensures forall i :: 0 <= i < |tools| ==> req.tools[i] == Definition(tools[i])
  {
    ChatRequest(config.model, Messages(prompt, systemPrompt), config.maxTokens, Definitions(tools), "auto")
  }

  /** `generateToolCalls`: shape the request, then hand it to the endpoint as the
      n-th call. */
  method GenerateToolCalls(config: ProviderConfig, prompt: string, tools: seq<Tool>, systemPrompt: Option<string>,
                           chat: ChatOracle, n: nat)
    returns (reply: Result<LlmReply, Thrown>)
    ensures reply == chat(n, RequestFor(config, prompt, tools, systemPrompt))
  {
    var messages := BuildMessages(prompt, systemPrompt);
    var definitions := Definitions(tools);
    reply := chat(n, ChatRequest(config.model, messages, config.maxTokens, definitions, "auto"));
  }
}
