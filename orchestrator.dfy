/** `TaskOrchestrator` (orchestrator.py): splits a request into one subtask per agent,
    runs the agents on a thread pool, collects their records as they complete,
    restores agent order and aggregates the answers.

    The pool is modelled by its observable outcome: the order in which the futures
    complete, and how many of them complete before the collection timeout. The
    agents touch disjoint entries of the progress maps, so running each one to
    completion in completion order gives the state every interleaving gives. */
module Orchestrator {
  import opened Wrappers
  import Text
  import opened ModelFactory
  import opened ModelAwareAgent
  import opened Aggregation

  /** The configuration entries the orchestrator reads. */
  datatype Config = Config(
    parallelAgents: int,
    taskTimeout: int,
    aggregationStrategy: string,
    orchestratorModel: string,
    defaultAgentModel: string,
    synthesisModel: Option<string>,
    synthesisMaxTokens: Option<int>)

  /** What `json.loads` makes of the question agent's answer: a list of questions, or a
      decoding error. */
  datatype Parsed = Questions(items: seq<string>) | NotJson(error: string)

  /** The parts of a process the orchestrator relies on: the agents' runtime, JSON
      decoding, and the formatting of the two configured prompt templates. */
  datatype Environment = Environment(
    rt: Runtime,
    parseJson: string -> Parsed,
    questionPrompt: (string, int) -> string,
    synthesisPrompt: PromptFormat)

  // ---------------------------------------------------------------- decomposition

  const FallbackTemplates: seq<string> := [
    "Research comprehensive information about: ",
    "Analyze and provide insights about: ",
    "Find alternative perspectives on: ",
    "Verify and cross-check facts about: "
  ]

  /** Where Python's slice `[:stop]` ends on a list of `length` items. */
  function SliceStop(length: nat, stop: int): (end: nat)
    ensures end <= length
    ensures 0 <= stop ==> end == (if stop < length then stop else length)
    ensures stop < 0 ==> end == (if length + stop > 0 then length + stop else 0)
  {
    if stop >= 0 then (if stop < length then stop else length)
    else if length + stop > 0 then length + stop else 0
  }

  /** The fallback subtasks: the four templates on the request, cut to `[:n]`. */
  function FallbackSubtasks(userInput: string, n: int): (subtasks: seq<string>)
    ensures |subtasks| == SliceStop(4, n)
    ensures forall i :: 0 <= i < |subtasks| ==> subtasks[i] == FallbackTemplates[i] + userInput
  {
    var all := seq(4, i requires 0 <= i < 4 => FallbackTemplates[i] + userInput);
    all[..SliceStop(4, n)]
  }

  /** The tool schemas without the one whose function is the completion tool. */
  function WithoutCompletionTool(tools: seq<ToolSchema>): (kept: seq<ToolSchema>)
    ensures |kept| <= |tools|
    ensures forall t :: t in kept <==> t in tools && t.name != Some(CompletionTool)
  {
    if tools == [] then []
    else
      var rest := WithoutCompletionTool(tools[1..]);
      assert tools == [tools[0]] + tools[1..];
      if tools[0].name != Some(CompletionTool) then [tools[0]] + rest else rest
  }

  /** A single schema is kept iff it is not the completion tool's. */
  lemma WithoutCompletionToolOne(t: ToolSchema)
    ensures WithoutCompletionTool([t]) == if t.name != Some(CompletionTool) then [t] else []
  {
    assert [t][1..] == [];
  }

  /** The filter distributes over concatenation: the kept schemas stay in their order,
      each once. */
  lemma {:induction false} WithoutCompletionToolConcat(a: seq<ToolSchema>, b: seq<ToolSchema>)
    ensures WithoutCompletionTool(a + b) == WithoutCompletionTool(a) + WithoutCompletionTool(b)
    decreases |a|
  {
    if a != [] {
      assert (a + b)[0] == a[0];
      assert (a + b)[1..] == a[1..] + b;
      WithoutCompletionToolConcat(a[1..], b);
    } else {
      assert a + b == b;
    }
  }

  /** The question agent: the orchestrator model's agent with the completion tool
      removed from its schemas and from its mapping. */
  function QuestionAgent(env: Environment, orchestratorModel: string): (r: Result<Agent, string>)
    ensures r.Ok? <==> orchestratorModel in ModelConfigs
    ensures r.Ok? ==> CompletionTool !in r.value.mapping &&
                      forall t :: t in r.value.tools ==> t.name != Some(CompletionTool)
    ensures r.Ok? ==> r.value.modelKey == orchestratorModel &&
                      r.value.provider.modelName == ModelConfigs[orchestratorModel].modelName
    ensures r.Ok? ==> r.value.tools == WithoutCompletionTool(env.rt.tools) &&
                      r.value.mapping == env.rt.mapping - {CompletionTool}
  {
    match Spawn(env.rt, orchestratorModel)
    case Err(e) => Err(e)
    case Ok(agent) =>
      Ok(agent.(tools := WithoutCompletionTool(agent.tools), mapping := agent.mapping - {CompletionTool}))
  }

  /** `decompose_task`: the agent's questions when it answers with a JSON list of exactly
      `n` of them, the fallback subtasks when its answer is not JSON or has another
      count; a failure to build or run the agent propagates. */
  function Decompose(env: Environment, orchestratorModel: string, userInput: string, n: int)
    : (r: Result<seq<string>, string>)
    ensures r.Err? <==> QuestionAgent(env, orchestratorModel).Err? ||
                        RunAgent(env.rt, QuestionAgent(env, orchestratorModel).value, env.questionPrompt(userInput, n)).Err?
    ensures r.Ok? ==> |r.value| == n || r.value == FallbackSubtasks(userInput, n)
    ensures r.Ok? ==>
              var answer := RunAgent(env.rt, QuestionAgent(env, orchestratorModel).value, env.questionPrompt(userInput, n));
              var parsed := env.parseJson(Text.Strip(answer.value));
              r.value == if parsed.Questions? && |parsed.items| == n then parsed.items else FallbackSubtasks(userInput, n)
  {
    var agent :- QuestionAgent(env, orchestratorModel);
    var response :- RunAgent(env.rt, agent, env.questionPrompt(userInput, n));
    match env.parseJson(Text.Strip(response))
    case NotJson(_) => Ok(FallbackSubtasks(userInput, n))
    case Questions(items) => if |items| == n then Ok(items) else Ok(FallbackSubtasks(userInput, n))
  }

  // ---------------------------------------------------------------- one agent

  /** The record `run_agent_parallel` returns for agent `agentId` on `subtask`: success with
      the answer, or the error of building or running the agent. */
  function WorkerRecord(env: Environment, agentModel: string, agentId: int, subtask: string): (record: AgentRecord)
    ensures record.agentId == agentId && record.status != Timeout
    ensures record.status == Success <==> Spawn(env.rt, agentModel).Ok? &&
                                          RunAgent(env.rt, Spawn(env.rt, agentModel).value, subtask).Ok?
    ensures record.status == Success ==>
              record.response == RunAgent(env.rt, Spawn(env.rt, agentModel).value, subtask).value &&
              record.executionTime == Measured
    ensures Spawn(env.rt, agentModel).Err? ==>
              record.response == "Error: " + Spawn(env.rt, agentModel).error && record.executionTime == Fixed(0)
    ensures Spawn(env.rt, agentModel).Ok? && RunAgent(env.rt, Spawn(env.rt, agentModel).value, subtask).Err? ==>
              record.response == "Error: " + RunAgent(env.rt, Spawn(env.rt, agentModel).value, subtask).error &&
              record.executionTime == Fixed(0)
  {
    match Spawn(env.rt, agentModel)
    case Err(e) => AgentRecord(agentId, Error, "Error: " + e, Fixed(0))
    case Ok(agent) =>
      match RunAgent(env.rt, agent, subtask)
      case Ok(response) => AgentRecord(agentId, Success, response, Measured)
      case Err(e) => AgentRecord(agentId, Error, "Error: " + e, Fixed(0))
  }

  /** The progress an agent leaves behind: an error leaves it at "PROCESSING...". */
  function StatusAfter(record: AgentRecord): string {
    if record.status == Success then "COMPLETED" else "PROCESSING..."
  }

  /** The records of agents `0 .. n-1`, in agent order. */
  function Records(env: Environment, agentModel: string, subtasks: seq<string>, n: nat): (records: seq<AgentRecord>)
    requires n <= |subtasks|
    ensures |records| == n && forall i :: 0 <= i < n ==> records[i].agentId == i
  {
    seq(n, i requires 0 <= i < n => WorkerRecord(env, agentModel, i, subtasks[i]))
  }

  /** The records in the order their agents complete. */
  function Collected(env: Environment, agentModel: string, subtasks: seq<string>, order: seq<int>)
    : (records: seq<AgentRecord>)
    requires forall k :: 0 <= k < |order| ==> 0 <= order[k] < |subtasks|
    ensures |records| == |order|
  {
    if order == [] then []
    else
      var last := order[|order| - 1];
      Collected(env, agentModel, subtasks, order[..|order| - 1]) + [WorkerRecord(env, agentModel, last, subtasks[last])]
  }

  lemma CollectedSnoc(env: Environment, agentModel: string, subtasks: seq<string>, order: seq<int>, k: nat)
    requires k < |order| && forall j :: 0 <= j < |order| ==> 0 <= order[j] < |subtasks|
    ensures Collected(env, agentModel, subtasks, order[..k + 1]) ==
            Collected(env, agentModel, subtasks, order[..k]) + [WorkerRecord(env, agentModel, order[k], subtasks[order[k]])]
  {
    assert order[..k + 1][..k] == order[..k];
  }

  /** Collected in a completion order, the records are those of all agents, each once. */
  lemma CollectedAreTheRecords(env: Environment, agentModel: string, subtasks: seq<string>, order: seq<int>, n: nat)
    requires IsCompletionOrder(order, n) && n <= |subtasks|
    ensures var records := Collected(env, agentModel, subtasks, order);
            (forall k :: 0 <= k < |records| ==> records[k] in Records(env, agentModel, subtasks, n)) &&
            (forall k, l :: 0 <= k < l < |records| ==> records[k] != records[l])
  {
    var records := Collected(env, agentModel, subtasks, order);
    var expected := Records(env, agentModel, subtasks, n);
    CollectedAt(env, agentModel, subtasks, order);
    forall k | 0 <= k < |records| ensures records[k] in expected {
      assert records[k] == expected[order[k]];
    }
  }

  lemma {:induction false} CollectedAt(env: Environment, agentModel: string, subtasks: seq<string>, order: seq<int>)
    requires forall k :: 0 <= k < |order| ==> 0 <= order[k] < |subtasks|
    ensures forall k :: 0 <= k < |order| ==>
              Collected(env, agentModel, subtasks, order)[k] == WorkerRecord(env, agentModel, order[k], subtasks[order[k]])
    decreases |order|
  {
    if order != [] {
      CollectedAt(env, agentModel, subtasks, order[..|order| - 1]);
    }
  }

  /** The progress map after a run: every agent seeded, and every submitted agent's
      own last update. */
  function FinalProgress(env: Environment, agentModel: string, subtasks: seq<string>, n: int): map<int, string> {
    map id | 0 <= id < n :: if id < |subtasks| then StatusAfter(WorkerRecord(env, agentModel, id, subtasks[id])) else "QUEUED"
  }

  /** The results map after a run: the answer of every submitted agent that succeeded. */
  function FinalResults(env: Environment, agentModel: string, subtasks: seq<string>, n: int): map<int, string> {
    map id | 0 <= id < n && id < |subtasks| && WorkerRecord(env, agentModel, id, subtasks[id]).status == Success ::
      WorkerRecord(env, agentModel, id, subtasks[id]).response
  }

  /** The progress map while the pool runs: "QUEUED" until an agent's future is done. */
  function ProgressOf(futures: map<int, AgentRecord>, n: int): map<int, string> {
    map id | 0 <= id < n :: if id in futures then StatusAfter(futures[id]) else "QUEUED"
  }

  /** The results map while the pool runs: the answers of the successful finished agents. */
  function ResultsOf(futures: map<int, AgentRecord>): map<int, string> {
    map id | id in futures && futures[id].status == Success :: futures[id].response
  }

  /** One more finished agent changes only its own entries. */
  lemma ProgressStep(futures: map<int, AgentRecord>, n: int, id: int, record: AgentRecord)
    requires 0 <= id < n && id !in futures
    ensures ProgressOf(futures[id := record], n) == ProgressOf(futures, n)[id := StatusAfter(record)]
    ensures ResultsOf(futures[id := record]) ==
            if record.status == Success then ResultsOf(futures)[id := record.response] else ResultsOf(futures)
  {
  }

  lemma SeedStep(i: nat)
    ensures ProgressOf(map[], i + 1) == ProgressOf(map[], i)[i := "QUEUED"]
  {
  }

  lemma SeedEnd(i: nat, n: int)
    requires i == n || (n <= 0 && i == 0)
    ensures ProgressOf(map[], i) == ProgressOf(map[], n)
  {
  }

  /** Once every submitted agent has finished, the maps are those of a completed run. */
  lemma FinalState(env: Environment, agentModel: string, subtasks: seq<string>, n: int, futures: map<int, AgentRecord>)
    requires forall id :: id in futures <==> 0 <= id < n && id < |subtasks|
    requires forall id :: id in futures ==> futures[id] == WorkerRecord(env, agentModel, id, subtasks[id])
    ensures ProgressOf(futures, n) == FinalProgress(env, agentModel, subtasks, n)
    ensures ResultsOf(futures) == FinalResults(env, agentModel, subtasks, n)
  {
  }

  // ---------------------------------------------------------------- restoring agent order

  predicate SortedById(records: seq<AgentRecord>) {
    forall i, j :: 0 <= i < j < |records| ==> records[i].agentId <= records[j].agentId
  }

  function InsertById(record: AgentRecord, sorted: seq<AgentRecord>): (out: seq<AgentRecord>)
    requires SortedById(sorted)
    ensures SortedById(out)
    ensures multiset(out) == multiset(sorted) + multiset{record}
    ensures out[0] == record || (sorted != [] && out[0] == sorted[0])
  {
    if sorted == [] then [record]
    else if record.agentId < sorted[0].agentId then [record] + sorted
    else
      var tail := sorted[1..];
      TailSorted(sorted);
      var rest := InsertById(record, tail);
      ConsSorted(sorted[0], rest);
      assert sorted == [sorted[0]] + tail;
      [sorted[0]] + rest
  }

  lemma TailSorted(sorted: seq<AgentRecord>)
    requires SortedById(sorted) && sorted != []
    ensures SortedById(sorted[1..])
    ensures forall j :: 0 <= j < |sorted| ==> sorted[0].agentId <= sorted[j].agentId
  {
  }

  lemma ConsSorted(first: AgentRecord, rest: seq<AgentRecord>)
    requires SortedById(rest) && rest != [] && first.agentId <= rest[0].agentId
    ensures SortedById([first] + rest)
  {
    TailSorted(rest);
  }

  /** `agent_results.sort(key=lambda x: x["agent_id"])`. */
  function SortByAgentId(records: seq<AgentRecord>): (sorted: seq<AgentRecord>)
    ensures SortedById(sorted)
    ensures multiset(sorted) == multiset(records)
  {
    if records == [] then []
    else
      assert records == [records[0]] + records[1..];
      InsertById(records[0], SortByAgentId(records[1..]))
  }

  lemma {:induction false} DistinctCount(s: seq<AgentRecord>, x: AgentRecord)
    requires forall k, l :: 0 <= k < l < |s| ==> s[k] != s[l]
    ensures multiset(s)[x] <= 1
    decreases |s|
  {
    if s != [] {
      var init := s[..|s| - 1];
      assert s == init + [s[|s| - 1]];
      DistinctCount(init, x);
      if x == s[|s| - 1] {
        assert x !in init;
      }
    }
  }

  lemma {:induction false} RepeatCount(s: seq<AgentRecord>, i: nat, j: nat)
    requires i < j < |s| && s[i] == s[j]
    ensures multiset(s)[s[i]] >= 2
  {
    assert s == s[..j] + [s[j]] + s[j + 1..];
    assert s[i] in s[..j];
  }

  lemma {:induction false} IdAtLeast(s: seq<AgentRecord>, i: nat)
    requires forall k, l :: 0 <= k < l < |s| ==> s[k].agentId < s[l].agentId
    requires forall k :: 0 <= k < |s| ==> s[k].agentId >= 0
    requires i < |s|
    ensures s[i].agentId >= i
  {
    if i > 0 {
      IdAtLeast(s, i - 1);
    }
  }

  lemma {:induction false} IdAtMost(s: seq<AgentRecord>, i: nat)
    requires forall k, l :: 0 <= k < l < |s| ==> s[k].agentId < s[l].agentId
    requires forall k :: 0 <= k < |s| ==> s[k].agentId < |s|
    requires i < |s|
    ensures s[i].agentId <= i
    decreases |s| - i
  {
    if i < |s| - 1 {
      IdAtMost(s, i + 1);
    }
  }

  /** A record of a list numbered by position sits at its own id. */
  lemma AtOwnId(expected: seq<AgentRecord>, x: AgentRecord)
    requires forall i :: 0 <= i < |expected| ==> expected[i].agentId == i
    requires x in expected
    ensures 0 <= x.agentId < |expected| && expected[x.agentId] == x
  {
  }

  /** Sorting keeps distinct records distinct. */
  lemma SortKeepsDistinct(records: seq<AgentRecord>)
    requires forall k, l :: 0 <= k < l < |records| ==> records[k] != records[l]
    ensures var out := SortByAgentId(records);
            forall k, l :: 0 <= k < l < |out| ==> out[k] != out[l]
  {
    var out := SortByAgentId(records);
    forall k, l | 0 <= k < l < |out| ensures out[k] != out[l] {
      if out[k] == out[l] {
        RepeatCount(out, k, l);
        DistinctCount(records, out[k]);
        assert false;
      }
    }
  }

  /** Sorting keeps the length and takes its records from the input. */
  lemma SortKeepsMembers(records: seq<AgentRecord>, expected: seq<AgentRecord>)
    requires forall k :: 0 <= k < |records| ==> records[k] in expected
    ensures |SortByAgentId(records)| == |records|
    ensures forall k :: 0 <= k < |records| ==> SortByAgentId(records)[k] in expected
  {
    var out := SortByAgentId(records);
    assert |out| == |records| by {
      assert |multiset(out)| == |multiset(records)|;
    }
    forall k | 0 <= k < |out| ensures out[k] in expected {
      assert out[k] in multiset(out);
      assert out[k] in records;
      var j :| 0 <= j < |records| && records[j] == out[k];
    }
  }

  /** A sorted list of distinct records, each taken from a list numbered by position and
      as long as it, is that list. */
  lemma {:induction false} SortedDistinctIsNumbered(out: seq<AgentRecord>, expected: seq<AgentRecord>)
    requires forall i :: 0 <= i < |expected| ==> expected[i].agentId == i
    requires |out| == |expected| && SortedById(out)
    requires forall k :: 0 <= k < |out| ==> out[k] in expected
    requires forall k, l :: 0 <= k < l < |out| ==> out[k] != out[l]
    ensures out == expected
  {
    var n := |expected|;
    forall k | 0 <= k < n
      ensures 0 <= out[k].agentId < n && expected[out[k].agentId] == out[k]
    {
      AtOwnId(expected, out[k]);
    }
    forall k, l | 0 <= k < l < n ensures out[k].agentId < out[l].agentId {
      assert out[k] != out[l];
    }
    forall i | 0 <= i < n ensures out[i] == expected[i] {
      IdAtLeast(out, i);
      IdAtMost(out, i);
    }
  }

  /** Sorting the records collected in any completion order gives them back in agent order:
      the aggregated answer does not depend on which agent finished first. */
  lemma SortRestoresAgentOrder(records: seq<AgentRecord>, expected: seq<AgentRecord>)
    requires forall i :: 0 <= i < |expected| ==> expected[i].agentId == i
    requires |records| == |expected|
    requires forall k :: 0 <= k < |records| ==> records[k] in expected
    requires forall k, l :: 0 <= k < l < |records| ==> records[k] != records[l]
    ensures SortByAgentId(records) == expected
  {
    var out := SortByAgentId(records);
    SortKeepsMembers(records, expected);
    SortKeepsDistinct(records);
    SortedDistinctIsNumbered(out, expected);
  }

  // ---------------------------------------------------------------- the outcome of a run

  const MaxWorkersMessage := "max_workers must be greater than 0"
  const IndexErrorMessage := "list index out of range"

  /** The `TimeoutError` of `as_completed` when futures are still pending at the deadline. */
  function TimeoutMessage(unfinished: nat, total: nat): string {
    Text.NatToString(unfinished) + " (of " + Text.NatToString(total) + ") futures unfinished"
  }

  function SynthesisOf(config: Config): SynthesisSettings {
    SynthesisSettings(config.orchestratorModel, config.synthesisModel, config.synthesisMaxTokens)
  }

  /** What `orchestrate` returns or raises: a failed decomposition propagates, and
      otherwise the run of its subtasks decides. */
  function Outcome(env: Environment, config: Config, agentModel: string, userInput: string, finishedInTime: nat)
    : Result<Answer, string>
  {
    var subtasks :- Decompose(env, config.orchestratorModel, userInput, config.parallelAgents);
    Settled(env, config, agentModel, subtasks, finishedInTime)
  }

  /** The run of decomposed subtasks: a pool of no workers is refused; a missing subtask
      fails the submission; a deadline that leaves futures pending fails the collection;
      otherwise the records of all agents, in agent order, are aggregated.
      `finishedInTime` is how many futures complete before the timeout. */
  function Settled(env: Environment, config: Config, agentModel: string, subtasks: seq<string>, finishedInTime: nat)
    : Result<Answer, string>
  {
    var n := config.parallelAgents;
    if n <= 0 then Err(MaxWorkersMessage)
    else if |subtasks| < n then Err(IndexErrorMessage)
    else if finishedInTime < n then Err(TimeoutMessage(n - finishedInTime, n))
    else Aggregate(Records(env, agentModel, subtasks, n), config.aggregationStrategy, SynthesisOf(config), env.rt,
                   env.synthesisPrompt)
  }

  lemma OutcomeDecompositionFails(env: Environment, config: Config, agentModel: string, userInput: string,
                                  finishedInTime: nat)
    requires Decompose(env, config.orchestratorModel, userInput, config.parallelAgents).Err?
    ensures Outcome(env, config, agentModel, userInput, finishedInTime) ==
            Err(Decompose(env, config.orchestratorModel, userInput, config.parallelAgents).error)
  {
  }

  lemma OutcomeOnceDecomposed(env: Environment, config: Config, agentModel: string, userInput: string,
                              finishedInTime: nat, subtasks: seq<string>)
    requires Decompose(env, config.orchestratorModel, userInput, config.parallelAgents) == Ok(subtasks)
    ensures Outcome(env, config, agentModel, userInput, finishedInTime) ==
            Settled(env, config, agentModel, subtasks, finishedInTime)
  {
  }

  /** The next agent to complete has not completed before. */
  lemma NextInOrder(order: seq<int>, n: int, k: nat)
    requires IsCompletionOrder(order, n) && k < |order|
    ensures order[k] !in order[..k] && 0 <= order[k] < n
    ensures forall id :: id in order[..k + 1] <==> id in order[..k] || id == order[k]
  {
    assert order[..k + 1] == order[..k] + [order[k]];
  }

  /** A submitted agent finishes with its own record. */
  lemma PoolStep(env: Environment, agentModel: string, subtasks: seq<string>, order: seq<int>, k: nat, submitted: int,
                 futures: map<int, AgentRecord>, next: map<int, AgentRecord>)
    requires k < |order| && 0 <= order[k] < submitted <= |subtasks| && order[k] !in order[..k]
    requires forall id :: id in futures <==> id in order[..k] && id < submitted
    requires forall id :: id in futures ==> 0 <= id < |subtasks| && futures[id] == WorkerRecord(env, agentModel, id, subtasks[id])
    requires next == futures[order[k] := WorkerRecord(env, agentModel, order[k], subtasks[order[k]])]
    ensures forall id :: id in next <==> id in order[..k + 1] && id < submitted
    ensures forall id :: id in next ==> 0 <= id < |subtasks| && next[id] == WorkerRecord(env, agentModel, id, subtasks[id])
  {
    assert order[..k + 1] == order[..k] + [order[k]];
  }

  /** An agent that was never submitted leaves the futures as they are. */
  lemma PoolSkip(env: Environment, agentModel: string, subtasks: seq<string>, order: seq<int>, k: nat, submitted: int,
                 futures: map<int, AgentRecord>)
    requires k < |order| && submitted <= order[k]
    requires forall id :: id in futures <==> id in order[..k] && id < submitted
    ensures forall id :: id in futures <==> id in order[..k + 1] && id < submitted
  {
    assert order[..k + 1] == order[..k] + [order[k]];
  }

  /** The error `set_agent_model` raises for a model not offered for agents. */
  function UnavailableMessage(modelKey: string): string {
    "Model " + modelKey + " not available. Available models: " + ListRepr(GetAgentModels())
  }

  /** An order in which the futures of `n` agents can complete. */
  predicate IsCompletionOrder(order: seq<int>, n: int) {
    |order| == (if n > 0 then n else 0) &&
    (forall k :: 0 <= k < |order| ==> 0 <= order[k] < n) &&
    (forall k, l :: 0 <= k < l < |order| ==> order[k] != order[l]) &&
    (forall id :: 0 <= id < n ==> id in order)
  }

  class TaskOrchestrator {
    const config: Config
    const numAgents: int
    const taskTimeout: int
    const aggregationStrategy: string
    const orchestratorModel: string
    var agentModel: string
    var agentProgress: map<int, string>
    var agentResults: map<int, string>

    /** The configuration's values fixed at construction. */
    ghost predicate Valid()
      reads this
    {
      numAgents == config.parallelAgents && taskTimeout == config.taskTimeout &&
      aggregationStrategy == config.aggregationStrategy && orchestratorModel == config.orchestratorModel
    }

    /** A truthy `agent_model` overrides the configured default agent model. */
    constructor(config: Config, agentModelOverride: Option<string>)
      ensures Valid() && this.config == config
      ensures agentModel == if agentModelOverride.Some? && agentModelOverride.value != "" then agentModelOverride.value
                            else config.defaultAgentModel
      ensures agentProgress == map[] && agentResults == map[]
    {
      this.config := config;
      numAgents := config.parallelAgents;
      taskTimeout := config.taskTimeout;
      aggregationStrategy := config.aggregationStrategy;
      orchestratorModel := config.orchestratorModel;
      if agentModelOverride.Some? && agentModelOverride.value != "" {
        agentModel := agentModelOverride.value;
      } else {
        agentModel := config.defaultAgentModel;
      }
      agentProgress := map[];
      agentResults := map[];
    }

    /** `update_agent_progress`: sets the agent's status, and its result when one is given. */
    method UpdateAgentProgress(agentId: int, status: string, result: Option<string>)
      modifies this
      ensures agentProgress == old(agentProgress)[agentId := status]
      ensures agentResults == if result.Some? then old(agentResults)[agentId := result.value] else old(agentResults)
      ensures agentModel == old(agentModel)
    {
      agentProgress := agentProgress[agentId := status];
      if result.Some? {
        agentResults := agentResults[agentId := result.value];
      }
    }

    /** `get_progress_status`: a snapshot of the progress map, which later updates leave as it is. */
    method GetProgressStatus() returns (snapshot: map<int, string>)
      ensures snapshot == agentProgress
    {
      snapshot := agentProgress;
    }

    /** `get_current_config`: the three model keys in use; the synthesis model defaults to
        the orchestrator's. */
    method GetCurrentConfig() returns (orchestrator: string, synthesis: string, agent: string)
      requires Valid()
      ensures orchestrator == config.orchestratorModel && agent == agentModel
      ensures config.synthesisModel.None? ==> synthesis == orchestrator
      ensures config.synthesisModel.Some? ==> synthesis == config.synthesisModel.value
    {
      orchestrator := orchestratorModel;
      synthesis := if config.synthesisModel.Some? then config.synthesisModel.value else orchestratorModel;
      agent := agentModel;
    }

    /** `set_agent_model`: only a model offered for agents is accepted; otherwise the
        state is left as it is and the error lists the offered models. */
    method SetAgentModel(modelKey: string) returns (r: Result<(), string>)
      modifies this
      ensures r.Ok? <==> modelKey in GetAgentModels()
      ensures r.Ok? ==> agentModel == modelKey && agentModel in ModelConfigs
      ensures r.Err? ==> agentModel == old(agentModel) &&
                         r.error == UnavailableMessage(modelKey)
      ensures agentProgress == old(agentProgress) && agentResults == old(agentResults)
    {
      var availableModels := GetAgentModels();
      if modelKey !in availableModels {
        return Err(UnavailableMessage(modelKey));
      }
      agentModel := modelKey;
      r := Ok(());
    }

    /** `run_agent_parallel`: marks the agent as processing, runs it, and on success marks
        it completed with its answer. */
    method RunAgentParallel(env: Environment, agentId: int, subtask: string) returns (record: AgentRecord)
      modifies this
      ensures record == WorkerRecord(env, agentModel, agentId, subtask)
      ensures agentProgress == old(agentProgress)[agentId := StatusAfter(record)]
      ensures agentResults == if record.status == Success then old(agentResults)[agentId := record.response]
                              else old(agentResults)
      ensures agentModel == old(agentModel)
    {
      UpdateAgentProgress(agentId, "PROCESSING...", None);
      var built := Spawn(env.rt, agentModel);
      if built.Err? {
        return AgentRecord(agentId, Error, "Error: " + built.error, Fixed(0));
      }
      var response := Run(built.value, env.rt.systemPrompt, subtask, MaxIterations(env.rt.iterationsSetting), env.rt.llm,
                          env.rt.invoke);
      if response.Err? {
        return AgentRecord(agentId, Error, "Error: " + response.error, Fixed(0));
      }
      UpdateAgentProgress(agentId, "COMPLETED", Some(response.value));
      record := AgentRecord(agentId, Success, response.value, Measured);
    }

    /** `orchestrate`: the answer is the same for every completion order of the futures,
        and the progress maps end with every submitted agent's last update. */
    method Orchestrate(env: Environment, userInput: string, order: seq<int>, finishedInTime: nat)
      returns (r: Result<Answer, string>)
      requires Valid()
      requires IsCompletionOrder(order, numAgents)
      modifies this
      ensures r == Outcome(env, config, agentModel, userInput, finishedInTime)
      ensures agentModel == old(agentModel)
      ensures Decompose(env, orchestratorModel, userInput, numAgents).Err? ==> agentProgress == map[] && agentResults == map[]
      ensures Decompose(env, orchestratorModel, userInput, numAgents).Ok? ==>
                var subtasks := Decompose(env, orchestratorModel, userInput, numAgents).value;
                agentProgress == FinalProgress(env, agentModel, subtasks, numAgents) &&
                agentResults == FinalResults(env, agentModel, subtasks, numAgents)
    {
      assert config.parallelAgents == numAgents && config.orchestratorModel == orchestratorModel;
      assert config.aggregationStrategy == aggregationStrategy;
      agentProgress := map[];
      agentResults := map[];
      var decomposed := Decompose(env, orchestratorModel, userInput, numAgents);
      if decomposed.Err? {
        OutcomeDecompositionFails(env, config, agentModel, userInput, finishedInTime);
        return Err(decomposed.error);
      }
      var subtasks := decomposed.value;
      OutcomeOnceDecomposed(env, config, agentModel, userInput, finishedInTime, subtasks);
      r := RunDecomposed(env, subtasks, order, finishedInTime);
    }

    /** `orchestrate` once the subtasks are known: seeds the progress map, runs the pool,
        and raises or aggregates. */
    method RunDecomposed(env: Environment, subtasks: seq<string>, order: seq<int>, finishedInTime: nat)
      returns (r: Result<Answer, string>)
      requires Valid() && IsCompletionOrder(order, numAgents)
      requires agentProgress == map[] && agentResults == map[]
      modifies this
      ensures r == Settled(env, config, agentModel, subtasks, finishedInTime)
      ensures agentModel == old(agentModel)
      ensures agentProgress == FinalProgress(env, agentModel, subtasks, numAgents)
      ensures agentResults == FinalResults(env, agentModel, subtasks, numAgents)
    {
      Seed();
      var futures := RunPool(env, subtasks, order);
      if numAgents <= 0 {
        return Err(MaxWorkersMessage);
      }
      if |subtasks| < numAgents {
        return Err(IndexErrorMessage);
      }
      if finishedInTime < numAgents {
        return Err(TimeoutMessage(numAgents - finishedInTime, numAgents));
      }
      r := Conclude(env, subtasks, order, futures);
    }

    /** Every agent starts out queued. */
    method Seed()
      requires agentProgress == map[]
      modifies this
      ensures agentProgress == ProgressOf(map[], numAgents)
      ensures agentResults == old(agentResults) && agentModel == old(agentModel)
    {
      var i := 0;
      while i < numAgents
        invariant 0 <= i && (i <= numAgents || i == 0)
        invariant agentResults == old(agentResults) && agentModel == old(agentModel)
        invariant agentProgress == ProgressOf(map[], i)
        decreases numAgents - i
      {
        SeedStep(i);
        agentProgress := agentProgress[i := "QUEUED"];
        i := i + 1;
      }
      SeedEnd(i, numAgents);
    }

    /** Once every future has finished: the records in completion order, sorted back into
        agent order and aggregated. */
    method Conclude(env: Environment, subtasks: seq<string>, order: seq<int>, futures: map<int, AgentRecord>)
      returns (r: Result<Answer, string>)
      requires Valid() && IsCompletionOrder(order, numAgents) && 0 < numAgents <= |subtasks|
      requires forall id :: 0 <= id < numAgents ==> id in futures && futures[id] == WorkerRecord(env, agentModel, id, subtasks[id])
      ensures r == Aggregate(Records(env, agentModel, subtasks, numAgents), config.aggregationStrategy,
                             SynthesisOf(config), env.rt, env.synthesisPrompt)
    {
      var records := CollectResults(env, subtasks, order, futures);
      CollectedAreTheRecords(env, agentModel, subtasks, order, numAgents);
      SortRestoresAgentOrder(records, Records(env, agentModel, subtasks, numAgents));
      var sorted := SortByAgentId(records);
      r := AggregateResults(sorted, aggregationStrategy, SynthesisOf(config), env.rt, env.synthesisPrompt);
    }


    /** The pool: agent `i` is submitted with `subtasks[i]` while there is one, and every
        submitted agent runs to completion, in completion order. The answer is the
        finished futures, by agent. */
    method RunPool(env: Environment, subtasks: seq<string>, order: seq<int>) returns (futures: map<int, AgentRecord>)
      requires IsCompletionOrder(order, numAgents)
      requires agentProgress == ProgressOf(map[], numAgents)
      requires agentResults == map[]
      modifies this
      ensures agentModel == old(agentModel)
      ensures forall id :: id in futures <==> 0 <= id < numAgents && id < |subtasks|
      ensures forall id :: id in futures ==> futures[id] == WorkerRecord(env, agentModel, id, subtasks[id])
      ensures agentProgress == FinalProgress(env, agentModel, subtasks, numAgents)
      ensures agentResults == FinalResults(env, agentModel, subtasks, numAgents)
    {
      var submitted := if |subtasks| < numAgents then |subtasks| else numAgents;
      futures := map[];
      var k := 0;
      while k < |order|
        invariant 0 <= k <= |order|
        invariant agentModel == old(agentModel)
        invariant forall id :: id in futures <==> id in order[..k] && id < submitted
        invariant forall id :: id in futures ==> 0 <= id < |subtasks| && futures[id] == WorkerRecord(env, agentModel, id, subtasks[id])
        invariant agentProgress == ProgressOf(futures, numAgents)
        invariant agentResults == ResultsOf(futures)
      {
        var id := order[k];
        NextInOrder(order, numAgents, k);
        if id < submitted {
          var record := RunAgentParallel(env, id, subtasks[id]);
          ProgressStep(futures, numAgents, id, record);
          PoolStep(env, agentModel, subtasks, order, k, submitted, futures, futures[id := record]);
          futures := futures[id := record];
        } else {
          PoolSkip(env, agentModel, subtasks, order, k, submitted, futures);
        }
        k := k + 1;
      }
      assert order[..k] == order;
      FinalState(env, agentModel, subtasks, numAgents, futures);
    }

    /** The `as_completed` loop: the finished futures' records, in completion order. */
    method CollectResults(env: Environment, subtasks: seq<string>, order: seq<int>, futures: map<int, AgentRecord>)
      returns (records: seq<AgentRecord>)
      requires IsCompletionOrder(order, numAgents) && numAgents <= |subtasks|
      requires forall id :: 0 <= id < numAgents ==> id in futures && futures[id] == WorkerRecord(env, agentModel, id, subtasks[id])
      ensures records == Collected(env, agentModel, subtasks, order)
    {
      records := [];
      var k := 0;
      while k < |order|
        invariant 0 <= k <= |order|
        invariant records == Collected(env, agentModel, subtasks, order[..k])
      {
        var id := order[k];
        CollectedSnoc(env, agentModel, subtasks, order, k);
        records := records + [futures[id]];
        k := k + 1;
      }
      assert order[..k] == order;
    }
  }

  // ---------------------------------------------------------------- properties of a run

  /** With more than four agents, an orchestrator that falls back to the four fixed
      subtasks cannot submit them all: the run fails with an index error. */
  lemma FallbackBeyondFourFails(env: Environment, config: Config, agentModel: string, userInput: string,
                                finishedInTime: nat)
    requires config.parallelAgents > 4
    requires Decompose(env, config.orchestratorModel, userInput, config.parallelAgents) ==
             Ok(FallbackSubtasks(userInput, config.parallelAgents))
    ensures Outcome(env, config, agentModel, userInput, finishedInTime) == Err(IndexErrorMessage)
  {
  }

  /** With one to four agents the decomposition always has a subtask for every agent. */
  lemma DecompositionCoversSmallPools(env: Environment, config: Config, userInput: string)
    requires 0 < config.parallelAgents <= 4
    requires Decompose(env, config.orchestratorModel, userInput, config.parallelAgents).Ok?
    ensures |Decompose(env, config.orchestratorModel, userInput, config.parallelAgents).value| == config.parallelAgents
  {
  }

  /** When every agent fails and all finish in time, the answer is the all-failed message. */
  lemma AllAgentsFail(env: Environment, config: Config, agentModel: string, userInput: string, finishedInTime: nat)
    requires config.parallelAgents > 0 && finishedInTime >= config.parallelAgents
    requires Decompose(env, config.orchestratorModel, userInput, config.parallelAgents).Ok?
    requires |Decompose(env, config.orchestratorModel, userInput, config.parallelAgents).value| == config.parallelAgents
    requires agentModel !in ModelConfigs
    ensures Outcome(env, config, agentModel, userInput, finishedInTime) == Ok(Some(AllFailedMessage))
  {
    var n := config.parallelAgents;
    var subtasks := Decompose(env, config.orchestratorModel, userInput, n).value;
    var records := Records(env, agentModel, subtasks, n);
    assert Spawn(env.rt, agentModel).Err?;
    forall i | 0 <= i < |records|
      ensures records[i].status != Success
    {
      assert records[i] == WorkerRecord(env, agentModel, i, subtasks[i]);
    }
    assert Outcome(env, config, agentModel, userInput, finishedInTime) ==
           Aggregate(records, config.aggregationStrategy, SynthesisOf(config), env.rt, env.synthesisPrompt);
  }
}
