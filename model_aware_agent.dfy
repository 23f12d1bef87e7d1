/** `ModelAwareAgent` (model_factory.py, lines 168-297): an agent bound to one model
    of the registry, with name-keyed tool dispatch and a bounded agentic loop.

    The chat-completion service is an oracle `Llm` from the parameters of a request
    (model, conversation, offered tools, token limit) to the model's reply or to the
    failure of the request, and the tools are an oracle `Invoke` from a tool's name
    and decoded arguments to what it returns or raises. */
module ModelAwareAgent {
  import opened Wrappers
  import Text
  import opened ModelFactory

  const CompletionTool := "mark_task_complete"
  const StuckMessage := "Maximum iterations reached. The agent may be stuck in a loop."
  const DefaultMaxIterations := 10

  /** What a tool does when called: returns a JSON-encodable result, or raises. */
  datatype Invocation = Returned(json: string) | Raised(message: string)

  type Invoke = (string, map<string, string>) -> Invocation

  /** The model's answer to one request, or the failure of the request. */
  datatype LlmReply = Reply(content: Option<string>, toolCalls: seq<ToolCall>) | CallFailed(error: string)

  type Llm = map<string, Param> -> LlmReply

  /** An agent: its model key, its provider, the tool schemas it offers the model and
      the names in its tool mapping. Tool discovery supplies the last two. */
  datatype Agent = Agent(modelKey: string, provider: Provider, tools: seq<ToolSchema>, mapping: set<string>)

  /** The constructor: fails exactly as `create_provider` does. */
  function NewAgent(modelKey: string, tools: seq<ToolSchema>, mapping: set<string>): (r: Result<Agent, string>)
    ensures r.Ok? <==> modelKey in ModelConfigs
    ensures r.Ok? ==> r.value.modelKey == modelKey && r.value.tools == tools && r.value.mapping == mapping
    ensures r.Ok? ==> r.value.provider.modelName == ModelConfigs[modelKey].modelName
  {
    match CreateProvider(modelKey)
    case Ok(provider) => Ok(Agent(modelKey, provider, tools, mapping))
    case Err(e) => Err(e)
  }

  /** `config.get('agent', {}).get('max_iterations', 10)`. */
  function MaxIterations(configured: Option<int>): int {
    match configured
    case Some(n) => n
    case None => DefaultMaxIterations
  }

  /** `ModelAwareAgent.call_llm`: the agent's provider, with the agent's tools. */
  function Request(agent: Agent, messages: seq<Message>): map<string, Param> {
    CallParams(agent.provider, messages, Some(agent.tools), None)
  }

  // ---------------------------------------------------------------- tool dispatch

  /** `handle_tool_call`: always a tool message for the call's id and name. Undecodable
      arguments and a raising tool give "Tool execution failed: ..."; a name outside
      the mapping gives "Unknown tool: ..." without calling anything. */
  function HandleToolCall(call: ToolCall, mapping: set<string>, invoke: Invoke): (m: Message)
    ensures m.ToolMessage? && m.toolCallId == call.id && m.name == call.name
    ensures call.arguments.Undecodable? ==> m.payload == ToolError("Tool execution failed: " + call.arguments.error)
    ensures call.arguments.Decoded? && call.name !in mapping ==> m.payload == ToolError("Unknown tool: " + call.name)
    ensures call.arguments.Decoded? && call.name in mapping ==>
              m.payload == match invoke(call.name, call.arguments.args)
                           case Returned(json) => ToolValue(json)
                           case Raised(message) => ToolError("Tool execution failed: " + message)
  {
    match call.arguments
    case Undecodable(error) => ToolMessage(call.id, call.name, ToolError("Tool execution failed: " + error))
    case Decoded(args) =>
      if call.name in mapping then
        match invoke(call.name, args)
        case Returned(json) => ToolMessage(call.id, call.name, ToolValue(json))
        case Raised(message) => ToolMessage(call.id, call.name, ToolError("Tool execution failed: " + message))
      else ToolMessage(call.id, call.name, ToolError("Unknown tool: " + call.name))
  }

  /** An unmapped tool is never invoked: the answer does not depend on the tools' behaviour. */
  lemma UnknownToolInvokesNothing(call: ToolCall, mapping: set<string>, invoke1: Invoke, invoke2: Invoke)
    requires call.name !in mapping
    ensures HandleToolCall(call, mapping, invoke1) == HandleToolCall(call, mapping, invoke2)
  {
  }

  // ---------------------------------------------------------------- the agentic loop

  function InitialMessages(systemPrompt: string, userInput: string): seq<Message> {
    [SystemMessage(systemPrompt), UserMessage(userInput)]
  }

  /** `full_response_content` after a reply: its content is kept when non-empty. */
  function Collect(collected: seq<string>, content: Option<string>): seq<string> {
    if content.Some? && content.value != "" then collected + [content.value] else collected
  }

  /** The answer when the iteration budget runs out. */
  function Exhausted(collected: seq<string>): string {
    if collected != [] then Text.Join(collected, "\n\n") else StuckMessage
  }

  /** The messages after handling a batch of tool calls, and whether the completion
      tool was among the calls handled. */
  datatype Batch = Batch(messages: seq<Message>, completed: bool)

  function HandleBatch(calls: seq<ToolCall>, mapping: set<string>, invoke: Invoke, messages: seq<Message>): Batch
    decreases |calls|
  {
    if calls == [] then Batch(messages, false)
    else
      var handled := messages + [HandleToolCall(calls[0], mapping, invoke)];
      if calls[0].name == CompletionTool then Batch(handled, true)
      else HandleBatch(calls[1..], mapping, invoke, handled)
  }

  /** The tool messages of a list of calls, in order. */
  function ToolMessages(calls: seq<ToolCall>, mapping: set<string>, invoke: Invoke): seq<Message> {
    seq(|calls|, i requires 0 <= i < |calls| => HandleToolCall(calls[i], mapping, invoke))
  }

  /** The state of a run when it ends: the answer or the propagated error, the
      conversation, and how many requests were made. */
  datatype RunState = RunState(result: Result<string, string>, messages: seq<Message>, calls: nat)

  /** The loop of `run`, from iteration `iteration` with the conversation and the
      collected contents so far. */
  function Loop(agent: Agent, llm: Llm, invoke: Invoke, maxIterations: int,
                iteration: nat, messages: seq<Message>, collected: seq<string>): RunState
    decreases if iteration < maxIterations then maxIterations - iteration else 0
  {
    if iteration >= maxIterations then RunState(Ok(Exhausted(collected)), messages, iteration)
    else
      match llm(Request(agent, messages))
      case CallFailed(error) => RunState(Err(ProviderError(agent.provider, error)), messages, iteration + 1)
      case Reply(content, toolCalls) =>
        var withReply := messages + [AssistantMessage(content, toolCalls)];
        var collected' := Collect(collected, content);
        if toolCalls != [] then
          var batch := HandleBatch(toolCalls, agent.mapping, invoke, withReply);
          if batch.completed then RunState(Ok(Text.Join(collected', "\n\n")), batch.messages, iteration + 1)
          else Loop(agent, llm, invoke, maxIterations, iteration + 1, batch.messages, collected')
        else Loop(agent, llm, invoke, maxIterations, iteration + 1, withReply, collected')
  }

  /** `ModelAwareAgent.run`: a while loop over at most `maxIterations` requests. */
  method Run(agent: Agent, systemPrompt: string, userInput: string, maxIterations: int, llm: Llm, invoke: Invoke)
    returns (result: Result<string, string>)
    ensures result == Loop(agent, llm, invoke, maxIterations, 0, InitialMessages(systemPrompt, userInput), []).result
  {
    var messages := InitialMessages(systemPrompt, userInput);
    var fullResponseContent: seq<string> := [];
    var iteration: nat := 0;
    ghost var final := Loop(agent, llm, invoke, maxIterations, 0, messages, []);
    while iteration < maxIterations
      invariant Loop(agent, llm, invoke, maxIterations, iteration, messages, fullResponseContent) == final
      decreases maxIterations - iteration
    {
      iteration := iteration + 1;
      var response := llm(Request(agent, messages));
      if response.CallFailed? {
        return Err(ProviderError(agent.provider, response.error));
      }
      messages := messages + [AssistantMessage(response.content, response.toolCalls)];
      if response.content.Some? && response.content.value != "" {
        fullResponseContent := fullResponseContent + [response.content.value];
      }
      if response.toolCalls != [] {
        ghost var batch := HandleBatch(response.toolCalls, agent.mapping, invoke, messages);
        var i := 0;
        while i < |response.toolCalls|
          invariant 0 <= i <= |response.toolCalls|
          invariant HandleBatch(response.toolCalls[i..], agent.mapping, invoke, messages) == batch
        {
          var toolCall := response.toolCalls[i];
          var toolResult := HandleToolCall(toolCall, agent.mapping, invoke);
          messages := messages + [toolResult];
          if toolCall.name == CompletionTool {
            return Ok(Text.Join(fullResponseContent, "\n\n"));
          }
          assert response.toolCalls[i..][1..] == response.toolCalls[i + 1..];
          i := i + 1;
        }
      }
    }
    if fullResponseContent != [] {
      result := Ok(Text.Join(fullResponseContent, "\n\n"));
    } else {
      result := Ok(StuckMessage);
    }
  }

  /** What every agent of a process shares: the configured system prompt and
      `agent.max_iterations` entry (if any), the discovered tools (schemas and mapping names), the chat-completion
      service and the tools' behaviour. */
  datatype Runtime = Runtime(systemPrompt: string, iterationsSetting: Option<int>, tools: seq<ToolSchema>,
                             mapping: set<string>, llm: Llm, invoke: Invoke)

  /** `ModelAwareAgent(model_key)` in a process: the agent gets the discovered tools. */
  function Spawn(rt: Runtime, modelKey: string): (r: Result<Agent, string>)
    ensures r.Ok? <==> modelKey in ModelConfigs
    ensures r.Ok? ==> r.value.modelKey == modelKey && r.value.provider.modelName == ModelConfigs[modelKey].modelName
    ensures r.Ok? ==> r.value.tools == rt.tools && r.value.mapping == rt.mapping
    ensures r.Err? ==> r.error == CreateProvider(modelKey).error
  {
    NewAgent(modelKey, rt.tools, rt.mapping)
  }

  /** `agent.run(user_input)` in a process: the answer, or the error it raises. */
  function RunAgent(rt: Runtime, agent: Agent, userInput: string): Result<string, string> {
    Loop(agent, rt.llm, rt.invoke, MaxIterations(rt.iterationsSetting), 0, InitialMessages(rt.systemPrompt, userInput),
         []).result
  }

  // ---------------------------------------------------------------- properties of the loop

  /** A batch is handled call by call up to and including the first completion call;
      the calls after it are not executed. */
  lemma {:induction false} BatchStopsAtCompletion(calls: seq<ToolCall>, mapping: set<string>, invoke: Invoke,
                                                  messages: seq<Message>, k: nat)
    requires k < |calls| && calls[k].name == CompletionTool
    requires forall j :: 0 <= j < k ==> calls[j].name != CompletionTool
    ensures HandleBatch(calls, mapping, invoke, messages) ==
            Batch(messages + ToolMessages(calls[..k + 1], mapping, invoke), true)
    decreases k
  {
    var handled := messages + [HandleToolCall(calls[0], mapping, invoke)];
    if k == 0 {
      assert ToolMessages(calls[..1], mapping, invoke) == [HandleToolCall(calls[0], mapping, invoke)];
    } else {
      BatchStopsAtCompletion(calls[1..], mapping, invoke, handled, k - 1);
      assert handled + ToolMessages(calls[1..][..k], mapping, invoke) ==
             messages + ToolMessages(calls[..k + 1], mapping, invoke);
    }
  }

  /** Without a completion call, every call of the batch is handled, in order. */
  lemma {:induction false} BatchWithoutCompletion(calls: seq<ToolCall>, mapping: set<string>, invoke: Invoke,
                                                  messages: seq<Message>)
    requires forall j :: 0 <= j < |calls| ==> calls[j].name != CompletionTool
    ensures HandleBatch(calls, mapping, invoke, messages) ==
            Batch(messages + ToolMessages(calls, mapping, invoke), false)
    decreases |calls|
  {
    if calls != [] {
      var handled := messages + [HandleToolCall(calls[0], mapping, invoke)];
      BatchWithoutCompletion(calls[1..], mapping, invoke, handled);
      assert handled + ToolMessages(calls[1..], mapping, invoke) == messages + ToolMessages(calls, mapping, invoke);
    }
  }

  /** The number of assistant messages in a conversation. */
  function AssistantCount(messages: seq<Message>): nat
    decreases |messages|
  {
    if messages == [] then 0
    else AssistantCount(messages[..|messages| - 1]) + (if messages[|messages| - 1].AssistantMessage? then 1 else 0)
  }

  lemma {:induction false} AssistantCountToolMessages(messages: seq<Message>, calls: seq<ToolCall>,
                                                      mapping: set<string>, invoke: Invoke)
    ensures AssistantCount(HandleBatch(calls, mapping, invoke, messages).messages) == AssistantCount(messages)
    decreases |calls|
  {
    if calls != [] {
      var handled := messages + [HandleToolCall(calls[0], mapping, invoke)];
      assert handled[..|handled| - 1] == messages;
      AssistantCountToolMessages(handled, calls[1..], mapping, invoke);
    }
  }

  /** A run makes at most `maxIterations` requests, and each request that is answered
      adds exactly one assistant message (tool calls add only tool messages). */
  lemma {:induction false} LoopBudget(agent: Agent, llm: Llm, invoke: Invoke, maxIterations: int,
                                      iteration: nat, messages: seq<Message>, collected: seq<string>)
    ensures var s := Loop(agent, llm, invoke, maxIterations, iteration, messages, collected);
            iteration <= s.calls <= (if iteration < maxIterations then maxIterations else iteration) &&
            (s.result.Ok? ==> AssistantCount(s.messages) == AssistantCount(messages) + (s.calls - iteration))
    decreases if iteration < maxIterations then maxIterations - iteration else 0
  {
    if iteration < maxIterations {
      match llm(Request(agent, messages))
      case CallFailed(error) =>
      case Reply(content, toolCalls) =>
        var withReply := messages + [AssistantMessage(content, toolCalls)];
        assert withReply[..|withReply| - 1] == messages;
        var collected' := Collect(collected, content);
        if toolCalls != [] {
          var batch := HandleBatch(toolCalls, agent.mapping, invoke, withReply);
          AssistantCountToolMessages(withReply, toolCalls, agent.mapping, invoke);
          if !batch.completed {
            LoopBudget(agent, llm, invoke, maxIterations, iteration + 1, batch.messages, collected');
          }
        } else {
          LoopBudget(agent, llm, invoke, maxIterations, iteration + 1, withReply, collected');
        }
    }
  }

  /** The non-empty contents of the assistant messages of a conversation, in order. */
  function Contents(messages: seq<Message>): seq<string>
    decreases |messages|
  {
    if messages == [] then []
    else
      var m := messages[0];
      (if m.AssistantMessage? && m.reply.Some? && m.reply.value != "" then [m.reply.value] else []) +
      Contents(messages[1..])
  }

  /** A reply without tool calls does not end the loop: a model that never calls a tool
      uses the whole budget, the conversation grows by one assistant message per request,
      and the answer is the exhaustion answer over the contents of those replies. */
  lemma {:induction false} LoopWithoutToolCalls(agent: Agent, llm: Llm, invoke: Invoke, maxIterations: int,
                                                iteration: nat, messages: seq<Message>, collected: seq<string>)
    requires forall p :: llm(p).Reply? && llm(p).toolCalls == []
    ensures var s := Loop(agent, llm, invoke, maxIterations, iteration, messages, collected);
            s.calls == (if iteration < maxIterations then maxIterations else iteration) &&
            |s.messages| == |messages| + (s.calls - iteration) && s.messages[..|messages|] == messages &&
            (forall k :: |messages| <= k < |s.messages| ==> s.messages[k].AssistantMessage?) &&
            s.result == Ok(Exhausted(collected + Contents(s.messages[|messages|..])))
    decreases if iteration < maxIterations then maxIterations - iteration else 0
  {
    var s := Loop(agent, llm, invoke, maxIterations, iteration, messages, collected);
    if iteration < maxIterations {
      var reply := llm(Request(agent, messages));
      var withReply := messages + [AssistantMessage(reply.content, [])];
      LoopWithoutToolCalls(agent, llm, invoke, maxIterations, iteration + 1, withReply, Collect(collected, reply.content));
      ReplyThenRest(messages, reply.content, collected, s.messages);
    } else {
      assert s.messages[|messages|..] == [];
      assert collected + [] == collected;
    }
  }

  /** A conversation that continues `messages` with one reply: the reply's content comes
      first among the contents after `messages`. */
  lemma ReplyThenRest(messages: seq<Message>, content: Option<string>, collected: seq<string>, whole: seq<Message>)
    requires |whole| >= |messages| + 1 && whole[..|messages| + 1] == messages + [AssistantMessage(content, [])]
    ensures whole[..|messages|] == messages && whole[|messages|].AssistantMessage?
    ensures Collect(collected, content) + Contents(whole[|messages| + 1..]) == collected + Contents(whole[|messages|..])
  {
    assert whole[..|messages|] == whole[..|messages| + 1][..|messages|];
    var rest := whole[|messages| + 1..];
    assert whole[|messages|..] == [AssistantMessage(content, [])] + rest;
    assert ([AssistantMessage(content, [])] + rest)[1..] == rest;
  }


  /** A reply that calls the completion tool ends the run at once with the contents
      collected so far, this reply's included, joined by blank lines. */
  lemma CompletionEndsRun(agent: Agent, llm: Llm, invoke: Invoke, maxIterations: int,
                          iteration: nat, messages: seq<Message>, collected: seq<string>, k: nat)
    requires iteration < maxIterations
    requires llm(Request(agent, messages)).Reply? && k < |llm(Request(agent, messages)).toolCalls|
    requires llm(Request(agent, messages)).toolCalls[k].name == CompletionTool
    ensures var s := Loop(agent, llm, invoke, maxIterations, iteration, messages, collected);
            s.calls == iteration + 1 &&
            s.result == Ok(Text.Join(Collect(collected, llm(Request(agent, messages)).content), "\n\n"))
  {
    var reply := llm(Request(agent, messages));
    var withReply := messages + [AssistantMessage(reply.content, reply.toolCalls)];
    var first := FirstCompletion(reply.toolCalls, k);
    BatchStopsAtCompletion(reply.toolCalls, agent.mapping, invoke, withReply, first);
  }

  /** The index of the first completion call, given that there is one at `k`. */
  function FirstCompletion(calls: seq<ToolCall>, k: nat): (first: nat)
    requires k < |calls| && calls[k].name == CompletionTool
    ensures first <= k && calls[first].name == CompletionTool
    ensures forall j :: 0 <= j < first ==> calls[j].name != CompletionTool
    decreases k
  {
    if exists j :: 0 <= j < k && calls[j].name == CompletionTool then
      var j :| 0 <= j < k && calls[j].name == CompletionTool;
      FirstCompletion(calls, j)
    else k
  }

  /** With no budget at all the run makes no request and answers with the fixed message. */
  lemma NoBudget(agent: Agent, llm: Llm, invoke: Invoke, maxIterations: int, systemPrompt: string, userInput: string)
    requires maxIterations <= 0
    ensures Loop(agent, llm, invoke, maxIterations, 0, InitialMessages(systemPrompt, userInput), []) ==
            RunState(Ok(StuckMessage), InitialMessages(systemPrompt, userInput), 0)
  {
  }
}
