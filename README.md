# make-it-superheavy, modelled in Dafny

make-it-superheavy answers one question with several AI agents at once. Its parts are:

- **The orchestrator.** It asks one agent to split the user's question into one subtask per agent. It runs the agents on a thread pool and records their progress in two maps. It collects their records as they complete, puts them back in agent order, and combines the successful answers.
- **The consensus step.** A single successful answer is returned as it is. Otherwise a synthesis agent with no tools is asked for one answer. If that fails, the answers are laid out one after another.
- **The model registry.** A fixed table of model configurations, and the OpenRouter provider that builds each chat-completion request.
- **The model-aware agent.** It dispatches tool calls by name and runs a bounded loop of requests. The loop ends early when the completion tool is called.
- **Environment substitution.** `${NAME}` references in configuration text are replaced by environment values.
- **The command-line front end.** It formats the elapsed time and draws a coloured progress bar per agent. It classifies each input line and handles `switch <model>`.

The model is split into these modules:

- `ConfigUtils` is pure.
- `ModelFactory`, `ModelAwareAgent` and `Aggregation` are pure, with methods where the source loops.
- `Orchestrator` and `Cli` hold classes whose fields change in place: `TaskOrchestrator` (its agent model and its progress and result maps) and `OrchestratorCli` (its header text).
- `Text` holds the few Python string operations the rest relies on.

What cannot be modelled directly becomes a parameter:

- **The chat-completion service** is a function from a request's parameters to a reply or a failure.
- **The tools** are a function from a tool name and its arguments to a result or an exception.
- **JSON decoding** and the two configured prompt templates are functions supplied by the caller.
- **The environment** is a map.
- **The thread pool** is described by what can be observed of it:
  - the order in which the agents' futures complete;
  - how many of them complete before the collection deadline.

  Each agent writes only its own entries of the progress maps. So running each agent to completion, in completion order, gives the state every interleaving of the threads gives.

The main results are these:

- **The orchestrator's answer** is a function of the request, the configuration and the oracles alone. It is the same for every completion order of the agents.
- **Sorting** the collected records by agent id restores exactly the agent-ordered list.
- **The progress maps** end with every submitted agent's last update.
- **The agent loop** makes at most its budget of requests. It stops at the first completion call, and the calls after that one are never executed.
- **Environment substitution** fails exactly when a referenced variable is unset. It names the first such variable and never rescans a substituted value.
- **Every progress bar** shows, with colours removed, a glyph, a space and 70 fill characters.
- **Elapsed-time texts** read back as the time they were made from. The seconds are dropped from one hour on.

The progress bar has a "FAILED" branch (make_it_heavy.py:64-65), but the orchestrator never reaches it. `run_agent_parallel` sets an agent to "PROCESSING..." and only ever overwrites that with "COMPLETED", and orchestrator.py sets no failed status anywhere. An agent that fails therefore stays "PROCESSING..." on the display (`Cli.FailedAgentShowsProcessing`).

`run_task` clears its `running` flag just before its final `update_display()` (make_it_heavy.py:121-124 and 138-139). `update_display` returns at once when that flag is clear (make_it_heavy.py:71-72), so the final update draws nothing and the "● COMPLETED" header (make_it_heavy.py:88-89) is never printed. The maps that hold every agent's last update are drawn only by the monitor thread's once-a-second updates (make_it_heavy.py:101-105), while aggregation is still running.

## Model

| member | source | states |
|---|---|---|
| Text.ParseNatToString | orchestrator.py:153 | the decimal text of an agent number reads back as that number |
| Text.Pad2 | make_it_heavy.py:96 | `{n:02d}` reads back as `n`: a single digit gets one leading `0`, and two or more digits are left as `str(n)` |
| Text.TrimStart | make_it_heavy.py:181 | the leading characters removed are exactly the leading whitespace |
| Text.TrimEnd | make_it_heavy.py:181 | the trailing characters removed are exactly the trailing whitespace |
| Text.Lower | make_it_heavy.py:183 | `lower()` maps every character and keeps the length |
| Text.Upper | make_it_heavy.py:200 | `upper()` maps every character and keeps the length |
| Text.ReplaceChar | make_it_heavy.py:27 | `replace('-', ' ')` changes exactly the hyphens |
| ConfigUtils.MatchAt | config_utils.py:57 | the pattern matches at a position only as `${`, a name of one or more non-`}` characters, and `}` |
| ConfigUtils.Scan | config_utils.py:57 | the left-to-right scan covers the text exactly, and every reference it finds has a valid name |
| ConfigUtils.Expand | config_utils.py:49-54 | the callback succeeds iff every referenced name is set; otherwise the error names the first unset one |
| ConfigUtils.SubstituteEnvVars | config_utils.py:49-57 | substitution fails iff a referenced variable is unset, and then names the first such variable |
| ConfigUtils.SubstituteWithoutClose | config_utils.py:57 | text without `}` (an unterminated `${` included) comes back unchanged |
| ConfigUtils.SubstituteNoMatch | config_utils.py:57 | where the pattern does not match, the first character is kept and substitution continues after it |
| ConfigUtils.SubstituteLiteralChar | config_utils.py:57 | a character other than `$` is copied to the output |
| ConfigUtils.SubstituteEmptyBraces | config_utils.py:57 | `${}` is not a reference and stays in the output as it is |
| ConfigUtils.SubstituteReference | config_utils.py:49-57 | a reference is replaced by the value, which is not scanned again (single pass) |
| ConfigUtils.SubstituteMissing | config_utils.py:52-53 | a reference to an unset variable fails the whole call with the message naming it |
| ConfigUtils.CheckRequiredEnvVars | config_utils.py:67-85 | the missing list is exactly the required variables that are unset or empty; the answer is true iff OPENROUTER_API_KEY is set and non-empty |
| ModelFactory.CreateProvider | model_factory.py:136-147 | succeeds iff the key is in the table, with that entry's model name; otherwise fails with the message listing the table's keys |
| ModelFactory.GetModelInfo | model_factory.py:153-157 | the table entry unchanged iff the key is known, otherwise "Unknown model" |
| ModelFactory.GetAgentModels | model_factory.py:163-165 | every agent model is in the table and supports tools |
| ModelFactory.GetOrchestratorModel | model_factory.py:159-161 | the orchestrator model is in the table and gets a provider |
| ModelFactory.KeysAreTheTable | model_factory.py:80-131 | the listed keys are exactly the table's keys |
| ModelFactory.CallParams | model_factory.py:53-65 | the request always holds the model and messages; tools only when a non-empty list; max_tokens only when non-zero |
| ModelAwareAgent.NewAgent | model_factory.py:171-186 | building an agent fails exactly as `create_provider` does; otherwise it keeps the key, tools and mapping |
| ModelAwareAgent.HandleToolCall | model_factory.py:192-219 | always a tool message for the call's id and name; a mapped tool's JSON result is the payload; a raising tool or undecodable arguments give "Tool execution failed: " and the message; an unmapped name gives "Unknown tool" |
| ModelAwareAgent.UnknownToolInvokesNothing | model_factory.py:200-203 | an unmapped tool is answered without invoking any tool |
| ModelAwareAgent.Run | model_factory.py:221-293 | the while loop returns what the recursive definition of the loop returns |
| ModelAwareAgent.Spawn | model_factory.py:180-186 | an agent of the process exists iff its key is known; it carries that key, the provider for that entry's model name and the discovered tools and mapping; otherwise the error is `create_provider`'s |
| ModelAwareAgent.BatchStopsAtCompletion | model_factory.py:269-281 | tool calls are handled in order up to and including the first completion call, and none after it |
| ModelAwareAgent.BatchWithoutCompletion | model_factory.py:269-277 | without a completion call, every call of the reply is handled, in order |
| ModelAwareAgent.LoopBudget | model_factory.py:242-257 | a run makes at most `max_iterations` requests, and adds one assistant message per answered request |
| ModelAwareAgent.LoopWithoutToolCalls | model_factory.py:286-293 | replies without tool calls do not end the loop: the whole budget is used, one assistant message per request, and the answer is the blank-line join of those replies' non-empty contents, or the fixed "Maximum iterations reached" text when there are none |
| ModelAwareAgent.CompletionEndsRun | model_factory.py:276-281 | a completion call ends the run at once with the collected contents, joined by blank lines |
| ModelAwareAgent.NoBudget | model_factory.py:292-293 | with no budget, no request is made and the answer is the fixed "Maximum iterations reached" text |
| Aggregation.SuccessfulResponses | orchestrator.py:121-127 | the kept responses are those of successful records; there are none iff no record succeeded |
| Aggregation.SuccessfulResponsesOne | orchestrator.py:121-127 | a single record contributes its response iff it succeeded |
| Aggregation.SuccessfulResponsesConcat | orchestrator.py:121-127 | the filter distributes over concatenation, so every success is kept, once, in record order |
| Aggregation.SuccessfulResponsesAll | orchestrator.py:121-127 | when all records succeed, all responses are kept, in record order |
| Aggregation.BuildResponsesSection | orchestrator.py:150-153 | the loop builds the numbered responses section |
| Aggregation.SectionPrefix | orchestrator.py:151-153 | response `i` appears in the section, numbered `i + 1`, right after the blocks of the responses before it |
| Aggregation.BuildFallbackLines | orchestrator.py:186-191 | the loop builds the fallback lines |
| Aggregation.FallbackLinesAt | orchestrator.py:186-191 | the fallback keeps every response whole and in order, under its numbered header and followed by an empty line |
| Aggregation.Consensus | orchestrator.py:135-191 | a single response is the answer as it is; otherwise it fails iff the synthesis model is unknown, with `create_provider`'s error; a successful synthesis's answer is the result, and a failed one gives the numbered concatenation |
| Aggregation.AggregateConsensus | orchestrator.py:135-191 | the method with its two loops computes the consensus |
| Aggregation.Aggregate | orchestrator.py:116-133 | with no successful record, the answer is the all-failed message |
| Aggregation.AggregateResults | orchestrator.py:116-133 | the method computes the aggregation |
| Aggregation.AggregateStrategyIgnored | orchestrator.py:129-133 | the aggregation strategy does not change the answer |
| Aggregation.AggregateSingleSuccess | orchestrator.py:139-140 | with exactly one successful record, its response is the answer, whatever the rest |
| Aggregation.AggregateFallback | orchestrator.py:181-191 | with two or more responses and a failed synthesis, the answer is the numbered concatenation |
| Aggregation.AggregateSynthesised | orchestrator.py:167-180 | with two or more responses and a successful synthesis, the synthesis answer is the result |
| Aggregation.SynthesisAgentHasNoTools | orchestrator.py:162-164 | the synthesis agent's requests offer no tools and it maps no tool |
| Aggregation.ContentlessSynthesis | orchestrator.py:176-180 | a token-limited synthesis reply without content makes the answer `None`, not the fallback |
| Orchestrator.SliceStop | orchestrator.py:74 | Python's `[:n]` on four items, negative `n` included |
| Orchestrator.FallbackSubtasks | orchestrator.py:69-74 | the fallback subtasks are the templates applied to the request, cut to `[:n]` |
| Orchestrator.WithoutCompletionTool | orchestrator.py:51 | exactly the schemas not named for the completion tool are kept |
| Orchestrator.WithoutCompletionToolOne | orchestrator.py:51 | a single schema is kept iff it is not the completion tool's |
| Orchestrator.WithoutCompletionToolConcat | orchestrator.py:51 | the filter distributes over concatenation, so the kept schemas stay in their order, each once |
| Orchestrator.QuestionAgent | orchestrator.py:40-52 | the question agent exists iff the orchestrator model is known; it is that model's agent, its schemas are the discovered ones without the completion tool's, in order, and its mapping is the discovered one without the completion tool |
| Orchestrator.Decompose | orchestrator.py:37-74 | fails iff building or running the question agent fails; otherwise the parsed list when it is a JSON list of exactly `n` questions, and the fallback subtasks when the stripped answer is not JSON or has another count |
| Orchestrator.WorkerRecord | orchestrator.py:83-114 | an agent's record has its id and is never a timeout; it is a success iff building and running the agent succeed, carrying the agent's answer and a measured time; otherwise it carries "Error: " and the error, with time 0 |
| Orchestrator.ProgressStep | orchestrator.py:76-81 | an agent that finishes changes only its own progress and result entries |
| Orchestrator.CollectedAreTheRecords | orchestrator.py:245-249 | the records collected in completion order are those of all agents, each once |
| Orchestrator.SortByAgentId | orchestrator.py:260 | the sort gives the same records, ordered by agent id |
| Orchestrator.SortRestoresAgentOrder | orchestrator.py:259-260 | sorting the records of any completion order gives the agent-ordered list |
| Orchestrator.OutcomeDecompositionFails | orchestrator.py:228-229 | a failed decomposition is the run's error |
| Orchestrator.TaskOrchestrator.constructor | orchestrator.py:11-35 | the configuration values are fixed; a truthy override replaces the default agent model; the maps start empty |
| Orchestrator.TaskOrchestrator.UpdateAgentProgress | orchestrator.py:76-81 | sets the agent's status, and its result only when one is given |
| Orchestrator.TaskOrchestrator.GetProgressStatus | orchestrator.py:193-196 | a copy of the progress map |
| Orchestrator.TaskOrchestrator.GetCurrentConfig | orchestrator.py:202-209 | the three model keys; synthesis defaults to the orchestrator model |
| Orchestrator.TaskOrchestrator.SetAgentModel | orchestrator.py:211-216 | accepts iff the model is offered for agents; otherwise nothing changes and the error lists the offered models |
| Orchestrator.TaskOrchestrator.RunAgentParallel | orchestrator.py:83-114 | the agent's record (its answer on success, "Error: " and the error otherwise); progress ends "COMPLETED" with the answer stored on success, "PROCESSING..." with no result otherwise |
| Orchestrator.TaskOrchestrator.Orchestrate | orchestrator.py:218-269 | the answer is the run's outcome for every completion order, and the maps end with every submitted agent's last update |
| Orchestrator.TaskOrchestrator.RunDecomposed | orchestrator.py:231-263 | no workers, a missing subtask or a deadline with pending futures each raise; otherwise the agent-ordered records are aggregated |
| Orchestrator.TaskOrchestrator.Seed | orchestrator.py:231-233 | every agent starts "QUEUED" |
| Orchestrator.TaskOrchestrator.RunPool | orchestrator.py:238-257 | every submitted agent finishes with its own record, and the maps end in the state of a completed run |
| Orchestrator.TaskOrchestrator.CollectResults | orchestrator.py:245-249 | the collected records, in completion order |
| Orchestrator.TaskOrchestrator.Conclude | orchestrator.py:259-263 | the collected records, sorted, aggregate as the agent-ordered records do |
| Orchestrator.FallbackBeyondFourFails | orchestrator.py:240-243 | with more than four agents, the four fallback subtasks leave one missing and the run fails with an index error |
| Orchestrator.DecompositionCoversSmallPools | orchestrator.py:61-74 | with one to four agents, every agent gets a subtask |
| Orchestrator.AllAgentsFail | orchestrator.py:121-124 | when no agent can be built, the answer is the all-failed message |
| Cli.Split | make_it_heavy.py:34-45 | seconds below a minute; minutes and seconds below an hour; hours and minutes otherwise, each part in range and adding up |
| Cli.ParseRender | make_it_heavy.py:34-45 | every elapsed-time text reads back as its split |
| Cli.FormatTimeReadsBack | make_it_heavy.py:34-45 | the text gives back the time exactly below an hour, and to the minute from an hour on |
| Cli.VisibleBar | make_it_heavy.py:47-67 | every bar shows 72 characters: a glyph, a space and the fill |
| Cli.ShowsQueued | make_it_heavy.py:54-55 | the queued bar shows the empty circle and 70 dots |
| Cli.ShowsProcessing | make_it_heavy.py:58-61 | the processing bar shows the full circle, 10 colons and 60 dots |
| Cli.ShowsCompleted | make_it_heavy.py:62-63 | the completed bar shows the full circle and 70 colons |
| Cli.ShowsFailed | make_it_heavy.py:64-65 | a failed bar shows the cross and 70 multiplication signs |
| Cli.BarShows | make_it_heavy.py:47-67 | with colours removed, every status's bar is a glyph, a space and 70 fill characters |
| Cli.UnknownStatusLooksInitializing | make_it_heavy.py:66-67 | a status the bar does not know is drawn like "INITIALIZING..." |
| Cli.FailedIsRed | make_it_heavy.py:64-65 | every status starting with "FAILED" gets the same red bar |
| Cli.DisplayedStatus | make_it_heavy.py:94 | an agent missing from the snapshot shows as "QUEUED" |
| Cli.AgentLineShows | make_it_heavy.py:93-96 | an agent's line shows its number from 1, two digits, and its bar; lines below agent 99 have one width |
| Cli.FailedAgentShowsProcessing | make_it_heavy.py:94-95 | once every agent has finished (the monitor's draws while aggregation runs), an agent whose record is an error is drawn as processing |
| Cli.Classify | make_it_heavy.py:181-207 | quit, models, `switch ` (any case), empty and task lines are told apart in the loop's order; the switch name is the stripped rest |
| Cli.BareSwitchIsQuery | make_it_heavy.py:194 | "switch" without a name, however padded, runs as a question |
| Cli.SwitchKeepsName | make_it_heavy.py:194-195 | the keyword in any case, then a name: the name keeps its case and loses only the surrounding whitespace |
| Cli.DisplaysDifferOnHyphen | make_it_heavy.py:200 | the header after switching to a hyphenated model differs from the one line 27 makes for it |
| Cli.ModelsListing | make_it_heavy.py:187-192 | one line per agent model, in the offered order, each beginning "  - " and the model |
| Cli.ListingMarksCurrent | make_it_heavy.py:189-191 | the agent model's line is its entry followed by " (current)", every other line is the bare entry, and the models are distinct so at most one line is marked |
| Cli.AsAnswer | make_it_heavy.py:137-141 | `run_task` returns a text iff orchestration returned one |
| Cli.OrchestratorCli.constructor | make_it_heavy.py:9-27 | the orchestrator starts with empty maps and takes a truthy `agent_model` as its agent model, the configured default otherwise; the header names that model in capitals with hyphens as spaces |
| Cli.OrchestratorCli.Switch | make_it_heavy.py:194-203 | an offered model changes both the agent model and the header; any other changes neither, and the error is printed |
| Cli.OrchestratorCli.Handle | make_it_heavy.py:179-216 | what each kind of line prints or returns; only a switch changes the agent model or header; after a task the progress and result maps are those `orchestrate` leaves, and every other line leaves them unchanged |
| Cli.OrchestratorCli.RunTask | make_it_heavy.py:107-141 | the orchestration's answer, or `None` when it raised or answered `None`; the orchestrator's progress and result maps afterwards are empty after a failed decomposition and otherwise every agent's last update |

## Left out

- Threads and the progress lock: the pool is modelled by a completion order, as described above.
- Cancellation and `KeyboardInterrupt` are not modelled.
- The wall clock is not modelled. Execution times are `Measured` rather than a float. The collection deadline is the number of futures that finish before it (`finishedInTime`), not `task_timeout` seconds.
- Cli.Split: works on whole seconds. `format_time` on a float truncates each part with `int()`. For non-negative input that gives the same text as its integer part.
- Orchestrator.TaskOrchestrator.RunPool: the per-future `except` at orchestrator.py:250-257 is not modelled. `run_agent_parallel` catches every `Exception`, so `future.result()` raises only for a `BaseException`.
- Orchestrator.Decompose: the JSON answer is either a list of strings or not JSON at all. Other JSON values are out of scope: a number raises `TypeError` in `len`, and a list of non-strings becomes subtasks that are not strings.
- ModelAwareAgent.Run: progress printing is left out. So is the `get_model_info` call inside the loop: it cannot fail, because the agent's key was already accepted by `create_provider`.
- Tool discovery, the tools themselves and their JSON encoding are parameters. The tools are `Invoke`, and the schemas and mapping names are part of `Runtime`.
- `load_config`, the YAML file and `KeyError`s from missing configuration entries are not modelled. The entries read are fields of `Config` and `Runtime`.
- The prompt templates are parameters, as are the system prompt and `str.format`.
- The OpenAI client and the network are the `Llm` oracle. A failed request is `CallFailed`, which carries the error text.
- `_save_output_to_file`, `WriteOutputTool` and the auto-save settings are left out: file output whose errors are caught and printed.
- Terminal output is not modelled: `clear_screen`, the header and timer lines of `update_display`, `progress_monitor`, the banner of `interactive_mode`, and the "Goodbye!" and "Task failed" texts. The model keeps the texts that depend on state: the agent lines, the model listing, the switch messages and the task's answer.
- The interactive `while True` loop and its generic `except` are modelled one pass at a time (`Cli.OrchestratorCli.Handle` on `Cli.Classify` of a line).
- `main`, its argument parsing and `--list-models` are not modelled. Nor are main.py, setup.py and example_output.py.
- `get_available_models` and `get_model_info` on the agent and the factory are the lookups `ModelFactory.GetAgentModels` and `ModelFactory.GetModelInfo`.
- Text.Lower: case mapping covers ASCII letters only, and `isspace` covers Latin-1 whitespace only. The texts the program compares (commands and model keys) are ASCII.
- Orchestrator.TaskOrchestrator.Orchestrate: the final `sort` is Python's stable sort. Agent ids are distinct, so stability is not modelled.
