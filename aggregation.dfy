/** Combining the agents' records into one answer (orchestrator.py, lines 116-191):
    `aggregate_results` keeps the successful responses and hands them to the
    consensus strategy, which returns a single response as it is, and otherwise
    asks a synthesis agent for one answer, falling back to the responses laid out
    one after the other when the synthesis fails. */
module Aggregation {
  import opened Wrappers
  import Text
  import opened ModelFactory
  import opened ModelAwareAgent

  // ---------------------------------------------------------------- agent records

  /** The `status` field of a record: "success", "error" or "timeout". */
  datatype Status = Success | Error | Timeout

  /** The `execution_time` field: measured on the clock, or a fixed number of seconds. */
  datatype ExecutionTime = Measured | Fixed(seconds: int)

  /** The dictionary one agent contributes to the orchestration. */
  datatype AgentRecord = AgentRecord(agentId: int, status: Status, response: string, executionTime: ExecutionTime)

  const AllFailedMessage := "All agents failed to provide results. Please try again."

  /** What aggregation hands back: a text, or `None` when the synthesis reply carries no
      content. */
  type Answer = Option<string>

  /** The responses of the successful records, in record order. */
  function SuccessfulResponses(records: seq<AgentRecord>): (responses: seq<string>)
    ensures |responses| <= |records|
    ensures responses == [] <==> forall i :: 0 <= i < |records| ==> records[i].status != Success
    ensures forall j :: 0 <= j < |responses| ==> exists i :: 0 <= i < |records| && records[i].status == Success &&
                                                             records[i].response == responses[j]
  {
    if records == [] then []
    else
      var rest := SuccessfulResponses(records[1..]);
      assert forall j :: 0 <= j < |rest| ==> exists i :: 0 <= i < |records| && records[i].status == Success &&
                                                       records[i].response == rest[j] by {
        forall j | 0 <= j < |rest|
          ensures exists i :: 0 <= i < |records| && records[i].status == Success && records[i].response == rest[j]
        {
          var i :| 0 <= i < |records[1..]| && records[1..][i].status == Success && records[1..][i].response == rest[j];
          assert records[i + 1] == records[1..][i];
        }
      }
      if records[0].status == Success then [records[0].response] + rest else rest
  }

  /** When every record succeeded, all the responses are aggregated, in order. */
  lemma {:induction false} SuccessfulResponsesAll(records: seq<AgentRecord>)
    requires forall i :: 0 <= i < |records| ==> records[i].status == Success
    ensures SuccessfulResponses(records) == seq(|records|, i requires 0 <= i < |records| => records[i].response)
  {
    if records != [] {
      SuccessfulResponsesAll(records[1..]);
    }
  }

  /** The filter keeps a record's response exactly when the record succeeded. */
  lemma SuccessfulResponsesOne(record: AgentRecord)
    ensures SuccessfulResponses([record]) == if record.status == Success then [record.response] else []
  {
    assert [record][1..] == [];
  }

  /** The filter works record by record: the successes of two lists are those of the
      first followed by those of the second, so every success is kept, once, in order. */
  lemma {:induction false} SuccessfulResponsesConcat(a: seq<AgentRecord>, b: seq<AgentRecord>)
    ensures SuccessfulResponses(a + b) == SuccessfulResponses(a) + SuccessfulResponses(b)
    decreases |a|
  {
    if a != [] {
      assert (a + b)[0] == a[0];
      assert (a + b)[1..] == a[1..] + b;
      SuccessfulResponsesConcat(a[1..], b);
    } else {
      assert a + b == b;
    }
  }

  // ---------------------------------------------------------------- the texts built from the responses

  /** One entry of the synthesis prompt's responses section, numbered from 1. */
  function Block(number: nat, response: string): string {
    "=== AGENT " + Text.NatToString(number) + " RESPONSE ===\n" + response + "\n\n"
  }

  /** `agent_responses_text`: the blocks of all responses, in order. */
  function ResponsesSection(responses: seq<string>): string
    decreases |responses|
  {
    if responses == [] then ""
    else ResponsesSection(responses[..|responses| - 1]) + Block(|responses|, responses[|responses| - 1])
  }

  /** The loop that builds `agent_responses_text`. */
  method BuildResponsesSection(responses: seq<string>) returns (text: string)
    ensures text == ResponsesSection(responses)
  {
    text := "";
    var i := 0;
    while i < |responses|
      invariant 0 <= i <= |responses|
      invariant text == ResponsesSection(responses[..i])
    {
      assert responses[..i + 1][..i] == responses[..i];
      text := text + Block(i + 1, responses[i]);
      i := i + 1;
    }
    assert responses[..i] == responses;
  }

  /** The section begins with the blocks of any prefix of the responses: response `i`
      appears, numbered `i + 1`, right after the blocks of the responses before it. */
  lemma {:induction false} SectionPrefix(responses: seq<string>, i: nat)
    requires i < |responses|
    ensures Text.StartsWith(ResponsesSection(responses), ResponsesSection(responses[..i]) + Block(i + 1, responses[i]))
    decreases |responses|
  {
    var n := |responses|;
    var init := responses[..n - 1];
    if i == n - 1 {
      assert init == responses[..i];
      Text.StartsWithSelf(ResponsesSection(responses));
    } else {
      SectionPrefix(init, i);
      assert init[..i] == responses[..i];
      Text.StartsWithExtend(ResponsesSection(init), ResponsesSection(responses[..i]) + Block(i + 1, responses[i]),
                            Block(n, responses[n - 1]));
    }
  }

  /** `combined`: a header, the response and an empty line for each response. */
  function FallbackLines(responses: seq<string>): seq<string>
    decreases |responses|
  {
    if responses == [] then []
    else
      var n := |responses|;
      FallbackLines(responses[..n - 1]) + ["=== Agent " + Text.NatToString(n) + " Response ===", responses[n - 1], ""]
  }

  /** The loop that builds `combined`. */
  method BuildFallbackLines(responses: seq<string>) returns (combined: seq<string>)
    ensures combined == FallbackLines(responses)
  {
    combined := [];
    var i := 0;
    while i < |responses|
      invariant 0 <= i <= |responses|
      invariant combined == FallbackLines(responses[..i])
    {
      assert responses[..i + 1][..i] == responses[..i];
      combined := combined + ["=== Agent " + Text.NatToString(i + 1) + " Response ==="];
      combined := combined + [responses[i]];
      combined := combined + [""];
      i := i + 1;
    }
    assert responses[..i] == responses;
  }

  /** The fallback keeps every response whole, in order, each under its own numbered header. */
  lemma {:induction false} FallbackLinesAt(responses: seq<string>, j: nat)
    requires j < |responses|
    ensures |FallbackLines(responses)| == 3 * |responses|
    ensures FallbackLines(responses)[3 * j] == "=== Agent " + Text.NatToString(j + 1) + " Response ==="
    ensures FallbackLines(responses)[3 * j + 1] == responses[j]
    ensures FallbackLines(responses)[3 * j + 2] == ""
    decreases |responses|
  {
    var n := |responses|;
    var init := responses[..n - 1];
    if j < n - 1 {
      FallbackLinesAt(init, j);
    } else if n > 1 {
      FallbackLinesAt(init, 0);
    }
  }

  // ---------------------------------------------------------------- consensus

  /** The `models.synthesis` settings, with the orchestrator's model key beside them. */
  datatype SynthesisSettings = SynthesisSettings(orchestratorModel: string, modelKey: Option<string>,
                                                 maxTokens: Option<int>)

  /** The synthesis model: the configured one, by default the orchestrator's. */
  function SynthesisModel(settings: SynthesisSettings): string {
    if settings.modelKey.Some? then settings.modelKey.value else settings.orchestratorModel
  }

  /** `synthesis_prompt_template.format(num_responses=..., agent_responses=...)`:
      the configured template is not part of this model, so its formatting is a parameter. */
  type PromptFormat = (nat, string) -> string

  /** The `try` block of `_aggregate_consensus`: the synthesis agent, stripped of all its
      tools, answers the prompt; with a truthy `max_tokens` it makes a single direct
      request, otherwise it runs its loop. An `Err` here is caught by the fallback. */
  function Synthesis(agent: Agent, prompt: string, settings: SynthesisSettings, rt: Runtime): Result<Answer, string> {
    if settings.maxTokens.Some? && settings.maxTokens.value != 0 then
      var request := CallParams(agent.provider, InitialMessages(rt.systemPrompt, prompt), Some(agent.tools),
                                settings.maxTokens);
      match rt.llm(request)
      case CallFailed(error) => Err(ProviderError(agent.provider, error))
      case Reply(content, _) => Ok(content)
    else
      match RunAgent(rt, agent, prompt)
      case Ok(answer) => Ok(Some(answer))
      case Err(e) => Err(e)
  }

  /** The synthesis agent: built for the synthesis model, then emptied of tools. */
  function SynthesisAgent(settings: SynthesisSettings, rt: Runtime): Result<Agent, string> {
    match Spawn(rt, SynthesisModel(settings))
    case Ok(agent) => Ok(agent.(tools := [], mapping := {}))
    case Err(e) => Err(e)
  }

  /** `_aggregate_consensus`: a single response is the answer as it is; otherwise the
      synthesis agent must be built (an unknown synthesis model raises), and its
      answer is taken, or the numbered concatenation of the responses when it fails. */
  function Consensus(responses: seq<string>, settings: SynthesisSettings, rt: Runtime, format: PromptFormat)
    : (r: Result<Answer, string>)
    ensures |responses| == 1 ==> r == Ok(Some(responses[0]))
    ensures |responses| != 1 ==> (r.Ok? <==> SynthesisModel(settings) in ModelConfigs)
    ensures |responses| != 1 && r.Err? ==> r == Err(CreateProvider(SynthesisModel(settings)).error)
    ensures |responses| != 1 && SynthesisModel(settings) in ModelConfigs ==>
              var synthesis := Synthesis(SynthesisAgent(settings, rt).value,
                                         format(|responses|, ResponsesSection(responses)), settings, rt);
              (synthesis.Ok? ==> r == Ok(synthesis.value)) &&
              (synthesis.Err? ==> r == Ok(Some(Text.Join(FallbackLines(responses), "\n"))))
  {
    if |responses| == 1 then Ok(Some(responses[0]))
    else
      match SynthesisAgent(settings, rt)
      case Err(e) => Err(e)
      case Ok(agent) =>
        match Synthesis(agent, format(|responses|, ResponsesSection(responses)), settings, rt)
        case Ok(answer) => Ok(answer)
        case Err(_) => Ok(Some(Text.Join(FallbackLines(responses), "\n")))
  }

  /** `_aggregate_consensus` as the source writes it, with its two loops. */
  method AggregateConsensus(responses: seq<string>, settings: SynthesisSettings, rt: Runtime, format: PromptFormat)
    returns (r: Result<Answer, string>)
    ensures r == Consensus(responses, settings, rt, format)
  {
    if |responses| == 1 {
      return Ok(Some(responses[0]));
    }
    var built := SynthesisAgent(settings, rt);
    if built.Err? {
      return Err(built.error);
    }
    var agentResponsesText := BuildResponsesSection(responses);
    var synthesis := Synthesis(built.value, format(|responses|, agentResponsesText), settings, rt);
    if synthesis.Ok? {
      return Ok(synthesis.value);
    }
    var combined := BuildFallbackLines(responses);
    r := Ok(Some(Text.Join(combined, "\n")));
  }

  /** `aggregate_results`: the strategy is read but every strategy is consensus. */
  function Aggregate(records: seq<AgentRecord>, strategy: string, settings: SynthesisSettings, rt: Runtime,
                     format: PromptFormat): (r: Result<Answer, string>)
    ensures SuccessfulResponses(records) == [] ==> r == Ok(Some(AllFailedMessage))
  {
    var responses := SuccessfulResponses(records);
    if responses == [] then Ok(Some(AllFailedMessage))
    else if strategy == "consensus" then Consensus(responses, settings, rt, format)
    else Consensus(responses, settings, rt, format)
  }

  method AggregateResults(records: seq<AgentRecord>, strategy: string, settings: SynthesisSettings, rt: Runtime,
                          format: PromptFormat) returns (r: Result<Answer, string>)
    ensures r == Aggregate(records, strategy, settings, rt, format)
  {
    var responses := SuccessfulResponses(records);
    if responses == [] {
      return Ok(Some(AllFailedMessage));
    }
    r := AggregateConsensus(responses, settings, rt, format);
  }

  // ---------------------------------------------------------------- properties of aggregation

  /** The aggregation strategy does not change the answer. */
  lemma AggregateStrategyIgnored(records: seq<AgentRecord>, s1: string, s2: string, settings: SynthesisSettings,
                                 rt: Runtime, format: PromptFormat)
    ensures Aggregate(records, s1, settings, rt, format) == Aggregate(records, s2, settings, rt, format)
  {
  }

  /** Exactly one successful record: its response is the answer, whatever the synthesis
      settings, the service or the other records' responses. */
  lemma AggregateSingleSuccess(records: seq<AgentRecord>, k: nat, strategy: string, settings: SynthesisSettings,
                               rt: Runtime, format: PromptFormat)
    requires k < |records| && records[k].status == Success
    requires forall i :: 0 <= i < |records| && i != k ==> records[i].status != Success
    ensures Aggregate(records, strategy, settings, rt, format) == Ok(Some(records[k].response))
  {
    SingleSuccess(records, k);
  }

  lemma {:induction false} SingleSuccess(records: seq<AgentRecord>, k: nat)
    requires k < |records| && records[k].status == Success
    requires forall i :: 0 <= i < |records| && i != k ==> records[i].status != Success
    ensures SuccessfulResponses(records) == [records[k].response]
  {
    if k == 0 {
      assert SuccessfulResponses(records[1..]) == [];
    } else {
      SingleSuccess(records[1..], k - 1);
    }
  }

  /** With two or more successful responses and a known synthesis model, aggregation
      never fails: a failed synthesis falls back to the concatenation. */
  lemma AggregateFallback(records: seq<AgentRecord>, strategy: string, settings: SynthesisSettings, rt: Runtime,
                          format: PromptFormat)
    requires |SuccessfulResponses(records)| >= 2 && SynthesisModel(settings) in ModelConfigs
    requires Synthesis(SynthesisAgent(settings, rt).value,
                       format(|SuccessfulResponses(records)|, ResponsesSection(SuccessfulResponses(records))),
                       settings, rt).Err?
    ensures Aggregate(records, strategy, settings, rt, format) ==
            Ok(Some(Text.Join(FallbackLines(SuccessfulResponses(records)), "\n")))
  {
  }

  /** With two or more successful responses and a known synthesis model, a synthesis that
      succeeds gives the answer, whatever the fallback would have been. */
  lemma AggregateSynthesised(records: seq<AgentRecord>, strategy: string, settings: SynthesisSettings, rt: Runtime,
                             format: PromptFormat)
    requires |SuccessfulResponses(records)| >= 2 && SynthesisModel(settings) in ModelConfigs
    requires Synthesis(SynthesisAgent(settings, rt).value,
                       format(|SuccessfulResponses(records)|, ResponsesSection(SuccessfulResponses(records))),
                       settings, rt).Ok?
    ensures Aggregate(records, strategy, settings, rt, format) ==
            Ok(Synthesis(SynthesisAgent(settings, rt).value,
                         format(|SuccessfulResponses(records)|, ResponsesSection(SuccessfulResponses(records))),
                         settings, rt).value)
  {
  }

  /** The synthesis agent has no tools: its requests offer none, and a tool call it makes
      is answered "Unknown tool" without running anything. */
  lemma SynthesisAgentHasNoTools(settings: SynthesisSettings, rt: Runtime, messages: seq<Message>)
    requires SynthesisModel(settings) in ModelConfigs
    ensures var agent := SynthesisAgent(settings, rt).value;
            agent.mapping == {} && "tools" !in Request(agent, messages)
  {
  }

  /** A synthesis request with a token limit whose reply has no content makes the answer
      `None`: the fallback is not taken, since nothing failed. */
  lemma ContentlessSynthesis(records: seq<AgentRecord>, strategy: string, settings: SynthesisSettings, rt: Runtime,
                             format: PromptFormat)
    requires |SuccessfulResponses(records)| >= 2 && SynthesisModel(settings) in ModelConfigs
    requires settings.maxTokens.Some? && settings.maxTokens.value != 0
    requires var agent := SynthesisAgent(settings, rt).value;
             var responses := SuccessfulResponses(records);
             var prompt := format(|responses|, ResponsesSection(responses));
             var reply := rt.llm(CallParams(agent.provider, InitialMessages(rt.systemPrompt, prompt), Some(agent.tools),
                                            settings.maxTokens));
             reply.Reply? && reply.content.None?
    ensures Aggregate(records, strategy, settings, rt, format) == Ok(None)
  {
  }
}
