/** The model registry and the OpenRouter provider (model_factory.py, lines 15-165):
    a fixed table of model configurations, lookups that fail on unknown keys,
    and the assembly of the parameters of a chat-completion request. The
    network call itself is not part of the model. */
module ModelFactory {
  import opened Wrappers
  import Text

  // ---------------------------------------------------------------- chat messages

  /** The arguments of a tool call, as `json.loads` leaves them. */
  datatype Arguments = Decoded(args: map<string, string>) | Undecodable(error: string)

  datatype ToolCall = ToolCall(id: string, name: string, arguments: Arguments)

  /** The JSON content of a tool message: the tool's own result, or `{"error": message}`. */
  datatype ToolPayload = ToolValue(json: string) | ToolError(message: string)

  datatype Message =
    | SystemMessage(content: string)
    | UserMessage(content: string)
    | AssistantMessage(reply: Option<string>, toolCalls: seq<ToolCall>)
    | ToolMessage(toolCallId: string, name: string, payload: ToolPayload)

  /** A tool schema as offered to the model; only its function name matters here. */
  datatype ToolSchema = ToolSchema(name: Option<string>)

  // ---------------------------------------------------------------- registry

  datatype ModelConfig = ModelConfig(
    provider: string,
    modelName: string,
    displayName: string,
    contextWindow: nat,
    maxOutput: Option<nat>,
    supportsTools: bool,
    recommendedFor: seq<string>)

  /** The keys of `MODEL_CONFIGS`, in the order the table lists them. */
  const ModelKeys: seq<string> := ["kimi-k2", "grok-4", "o3", "claude-sonnet-4", "gemini-2.5-pro", "gpt-4.1"]

  const ModelConfigs: map<string, ModelConfig> := map[
    "kimi-k2" := ModelConfig("openrouter", "moonshotai/kimi-k2", "Kimi K2", 128000, None, true,
                             ["orchestration", "research", "analysis"]),
    "grok-4" := ModelConfig("openrouter", "x-ai/grok-4", "Grok 4", 256000, None, true,
                            ["reasoning", "coding", "analysis"]),
    "o3" := ModelConfig("openrouter", "openai/o3", "OpenAI o3", 200000, None, true,
                        ["reasoning", "math", "coding"]),
    "claude-sonnet-4" := ModelConfig("openrouter", "anthropic/claude-sonnet-4", "Claude Sonnet 4", 200000, None, true,
                                     ["coding", "reasoning", "analysis"]),
    "gemini-2.5-pro" := ModelConfig("openrouter", "google/gemini-2.5-pro", "Gemini 2.5 Pro", 1048576, Some(65536), false,
                                    ["synthesis", "large_context", "analysis"]),
    "gpt-4.1" := ModelConfig("openrouter", "openai/gpt-4.1", "GPT-4.1", 1047576, Some(32768), true,
                             ["orchestration", "reasoning", "instruction_following"])
  ]

  /** Python's `repr` of a list of strings without quotes or backslashes in them. */
  function ListRepr(items: seq<string>): string {
    "[" + Text.Join(seq(|items|, i requires 0 <= i < |items| => "'" + items[i] + "'"), ", ") + "]"
  }

  /** The provider object: it remembers the model name it sends with each request. */
  datatype Provider = OpenRouterProvider(modelName: string)

  /** `create_provider`: fails on a key outside the table, otherwise builds the provider
      of the entry's provider type with the entry's model name. */
  function CreateProvider(modelKey: string): (r: Result<Provider, string>)
    ensures r.Ok? <==> modelKey in ModelConfigs
    ensures r.Ok? ==> r.value.modelName == ModelConfigs[modelKey].modelName
    ensures modelKey !in ModelConfigs ==>
              r == Err("Unsupported model: " + modelKey + ". Available models: " + ListRepr(ModelKeys))
  {
    if modelKey !in ModelConfigs then
      Err("Unsupported model: " + modelKey + ". Available models: " + ListRepr(ModelKeys))
    else
      var config := ModelConfigs[modelKey];
      if config.provider == "openrouter" then Ok(OpenRouterProvider(config.modelName))
      else Err("Unsupported provider: " + config.provider)
  }

  /** `get_model_info`: the table entry unchanged, or an error for an unknown key. */
  function GetModelInfo(modelKey: string): (r: Result<ModelConfig, string>)
    ensures r.Ok? <==> modelKey in ModelConfigs
    ensures r.Ok? ==> r.value == ModelConfigs[modelKey]
    ensures r.Err? ==> r.error == "Unknown model: " + modelKey
  {
    if modelKey !in ModelConfigs then Err("Unknown model: " + modelKey) else Ok(ModelConfigs[modelKey])
  }

  /** `get_agent_models`: the models offered for the agents, all of them in the table. */
  function GetAgentModels(): (models: seq<string>)
    ensures forall i :: 0 <= i < |models| ==> models[i] in ModelConfigs
    ensures forall i :: 0 <= i < |models| ==> ModelConfigs[models[i]].supportsTools
  {
    ["grok-4", "kimi-k2", "o3", "claude-sonnet-4"]
  }

  /** `get_orchestrator_model`. */
  function GetOrchestratorModel(): (model: string)
    ensures model in ModelConfigs && CreateProvider(model).Ok?
  {
    "kimi-k2"
  }

  /** Every key the table lists has a provider, so `create_provider` fails only on unknown keys. */
  lemma KeysAreTheTable()
    ensures forall k :: k in ModelConfigs <==> k in ModelKeys
  {
  }

  // ---------------------------------------------------------------- request parameters

  /** A value of the request's `call_params` dictionary. */
  datatype Param =
    | ModelParam(name: string)
    | MessagesParam(messages: seq<Message>)
    | ToolsParam(tools: seq<ToolSchema>)
    | MaxTokensParam(limit: int)

  /** `OpenRouterProvider.call_llm` up to the network call: the keyword arguments it passes
      on. `tools` is `None` or a list and is passed only when it is a non-empty list;
      `max_tokens` is passed only when truthy, so `0` is omitted. */
  function CallParams(provider: Provider, messages: seq<Message>, tools: Option<seq<ToolSchema>>,
                      maxTokens: Option<int>): (params: map<string, Param>)
    ensures params.Keys <= {"model", "messages", "tools", "max_tokens"}
    ensures "model" in params && params["model"] == ModelParam(provider.modelName)
    ensures "messages" in params && params["messages"] == MessagesParam(messages)
    ensures "tools" in params <==> tools.Some? && tools.value != []
    ensures "tools" in params ==> params["tools"] == ToolsParam(tools.value)
    ensures "max_tokens" in params <==> maxTokens.Some? && maxTokens.value != 0
    ensures "max_tokens" in params ==> params["max_tokens"] == MaxTokensParam(maxTokens.value)
  {
    var base := map["model" := ModelParam(provider.modelName), "messages" := MessagesParam(messages)];
    var withTools := if tools.Some? && tools.value != [] then base["tools" := ToolsParam(tools.value)] else base;
    if maxTokens.Some? && maxTokens.value != 0 then withTools["max_tokens" := MaxTokensParam(maxTokens.value)]
    else withTools
  }

  /** The message of the exception `call_llm` raises when the request fails. */
  function ProviderError(provider: Provider, error: string): string {
    "OpenRouter API call failed for " + provider.modelName + ": " + error
  }
}
