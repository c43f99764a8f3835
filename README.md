# SDLC agents pipeline — a Dafny model

This project models the orchestration and usage-accounting core of a Python
SDLC agents pipeline. The pipeline turns a problem description into five
outputs:

- structured requirements;
- a Graphviz flow diagram;
- an SRS document;
- JIRA user stories;
- optionally, JIRA issues posted over REST.

Every language-model call reports its token counts and an estimated cost to
one process-wide tracker, and a UI observer is notified after each update.

The model covers the following parts of the source:

- **Usage accounting** (`core/llm.py`, `core/token_tracker.py`). Both trackers
  are classes whose methods update their fields in place.
  - The live tracker's invariant is that each running total equals the sum
    over the calls logged since the last reset.
  - The per-agent variant keeps a dict in insertion order plus a ghost history
    of records. Its table is the last record per name, and its totals count
    every record.
- **Pricing and configuration fallbacks** (`estimate_cost`, `get_llm`,
  `load_settings`, `get_agent_model`). These are pure functions.
- **Producers** (requirement, flow, mind-map and story agents). Their output
  normalisation and fallback rules are functions, or methods where the source
  loops or changes a dict in place.
- **Posting loop** (`post_stories_to_jira`). A method whose loop is proved
  against functions over the stories and the HTTP responses.
- **Sequential router** (`run_sequential_pipeline`). A method that builds the
  results dictionary key by key, proved equal to the value-level run
  `RouterAgent.SequentialRun`.
- **LangGraph variant** (`graphs/sdlc_graph.py`). A `SdlcState` class with
  one method per node, the built graph as a value, and an `Invoke` loop that
  follows edges until `END`. It is proved equal to the function
  `SdlcGraph.Steps` over the chain.

Every foreign call is an input to the model:

- The OpenAI client, `json.loads`, tiktoken, `requests.post`, the `dot`
  subprocess and LangGraph drawing are inputs.
- A Python call that returns or raises is an `Outcome` (`Ok(value)` or
  `Raise(msg)`), where `msg` is `str(e)`.
- The environment is a `map<string, string>`.
- File writes are booleans saying whether they succeeded.
- In the two orchestrators, each stage is a collaborator in `Stages.Agents`.
  It has an outcome per input and a list of usage entries that it logs on the
  tracker when called.

## Model

| member | source | states |
|---|---|---|
| Config.LoadSettings | core/config.py:17-46 | The result is empty exactly when reading or parsing failed or the document is not a mapping. Otherwise it holds every key of the file plus `env`, and any `env` from the file is replaced by the injected section. |
| Config.EnvSectionDefaults | core/config.py:34-39 | With none of the variables set, `env` is `OPENAI_API_KEY: None`, `OPENAI_MODEL: "gpt-4o"`, `OPENAI_VISION_MODEL: "gpt-4o-mini"`, `LOG_LEVEL: "INFO"`. |
| Config.GetAgentModel | core/config.py:52-64 | It returns the agent's own `model` when that entry exists and is truthy. Otherwise it returns `OPENAI_MODEL` or "gpt-4o", including when a lookup level is not a mapping and the lookup raises. |
| Config.AgentModelDefault | core/config.py:58-61 | With no configured model and no `OPENAI_MODEL`, the model is "gpt-4o". |
| Config.AgentModelTruthy | core/config.py:58-64 | The result is falsy if and only if nothing truthy is configured and `OPENAI_MODEL` is set to the empty string. The `os.getenv` default does not skip an empty variable. |
| Config.FeatureFlag | agents/router_agent.py:52 | `settings["features"].get(flag, default)` succeeds if and only if `features` exists and is a dict. It raises KeyError when `features` is absent. It yields the default when the flag is absent and the flag's truthiness otherwise. |
| Config.DiagramsDir | agents/flow_agent.py:71 | `settings["paths"]["diagrams_dir"]` succeeds if and only if both levels exist and the entry is a string, and it yields that string. |
| Llm.SumsAppend | core/llm.py:25-33 | Appending one call adds exactly its input tokens, output tokens and cost to the three sums. |
| Llm.NoticesCount | core/llm.py:34-35 | Logging entries notifies nobody without a callback. With one, it notifies once per entry. |
| Llm.NoticesAppend | core/llm.py:23-35 | Logging two batches one after the other notifies as the first batch does, then as the second does after the first. |
| Llm.TokenTracker.constructor | core/llm.py:13-21 | A new tracker has zero totals, an empty `agents` list and no callback. |
| Llm.TokenTracker.Reset | core/llm.py:17-21 | Reset zeroes the three totals and empties `agents`. The registered callback stays and is not called. |
| Llm.TokenTracker.LogAgent | core/llm.py:23-35 | The totals grow by exactly the call's figures. Exactly one entry is appended and earlier entries are unchanged. The callback, if any, is called exactly once with the new summary, and with none nothing is called. Totals equal the sums over `agents`. |
| Llm.TokenTracker.SetCallback | core/llm.py:37-38 | The new callback replaces the old one, and no total or entry changes. |
| Llm.TokenTracker.Summary | core/llm.py:40-46 | The summary carries the logged entries, and each reported total is the sum over them. |
| Llm.RatesFor | core/llm.py:66-72 | Rates are non-negative, and a model outside the table gets the gpt-4o rates. |
| Llm.EstimateCost | core/llm.py:64-73 | The cost is non-negative, and zero tokens cost 0. |
| Llm.UnknownModelCost | core/llm.py:72 | An unknown model costs the same as gpt-4o for every pair of counts. |
| Llm.EstimateCostMonotone | core/llm.py:73 | The cost never decreases when either count grows. |
| Llm.ResolveModel | core/llm.py:137-145 | A truthy agent model wins. When it is absent or falsy, a truthy `llm.model` wins. When both are absent or falsy, the result is `OPENAI_MODEL`, or "gpt-4o" when that is unset. An empty `OPENAI_MODEL` is the only way to get a falsy model. |
| Llm.ResolveTemperature | core/llm.py:147-150 | A truthy configured temperature wins. Otherwise the result is 0.3 when `OPENAI_TEMPERATURE` is unset. When it is set, the result is its parsed value, and the call raises if and only if it does not parse. It raises only for a non-dict `llm` section or a set variable. |
| Llm.ResolveMaxTokens | core/llm.py:152-155 | A truthy configured value wins. Otherwise the default is 6000 when `OPENAI_MAX_TOKENS` is unset. When the variable is set, the call succeeds exactly when it parses as an integer, and then returns that integer. It raises only for a non-dict `llm` section or a set variable. |
| Llm.ZeroTemperatureReplaced | core/llm.py:147-150 | A configured temperature of 0 is falsy, so it is replaced by 0.3. |
| Llm.GetLlm | core/llm.py:125-158 | A wrapper is built if and only if all three resolutions succeed and `OPENAI_API_KEY` is set and non-empty. It then carries exactly the three resolved values. |
| Llm.Invoke | core/llm.py:89-119 | After a successful completion the usage is logged exactly once, under `agent_name`, with counts from the prompt and the stripped reply and their estimated cost. The callback, if any, is notified once with the new summary. A failed completion re-raises and leaves the tracker untouched. |
| Stages.ReportUsage | core/llm.py:23-35 | A stage's calls land on the tracker in order, one entry each. The callback, if any, gets one notification per entry, each with the summary just after that entry. |
| Stages.LogStage | core/llm.py:23-35 | Calling a stage after earlier ones puts its usage, and its notifications, after theirs. |
| TokenTracking.FirstSeenListsKeys | core/token_tracker.py:40 | The dict's iteration order lists each recorded name exactly once. |
| TokenTracking.TotalsCoverTable | core/token_tracker.py:26-33 | The running totals never count less than the entries still in the table. |
| TokenTracking.RecordTwice | core/token_tracker.py:26-33 | After two records for one name, the table holds the second and the totals count both. |
| TokenTracking.PriceOf | core/token_tracker.py:42 | Prices are non-negative, and a model outside the table is priced as gpt-4o-mini. |
| TokenTracking.PriceTablesCompared | core/token_tracker.py:8-9 | The two price tables agree on gpt-4o for every pair of counts. On gpt-4o-mini input this table is a tenth of the other for every input count. |
| TokenTracking.TokenTracker.constructor | core/token_tracker.py:14-18 | A new tracker has an empty table, zero totals and no callback. |
| TokenTracking.TokenTracker.SetCallback | core/token_tracker.py:20-22 | The new callback replaces the old one, and nothing else changes. |
| TokenTracking.TokenTracker.Record | core/token_tracker.py:24-36 | The name's entry is replaced and other names are unchanged. A new name goes last in iteration order. Both totals always grow by the new counts. The callback, if set, is called exactly once with the summary. |
| TokenTracking.TokenTracker.CalcCost | core/token_tracker.py:38-46 | The loop returns the priced sum over the current table only, in dict order. The sum is non-negative, and 0 for an empty table. |
| TokenTracking.TokenTracker.Summary | core/token_tracker.py:48-54 | The summary reports the table itself. Its totals are the sums over every record since the last reset, so they cover every entry in the table. `approx_cost_usd` is the cost of the table in dict order, the value `calc_cost` computes, and is never negative. |
| TokenTracking.TokenTracker.Reset | core/token_tracker.py:56-59 | Reset empties the table and zeroes the totals. The callback stays. |
| RequirementAgent.ExtractJsonFromText | agents/requirement_agent.py:78-87 | The result is the stripped text between the first ```` ```json ```` and the next ```` ``` ````, or `"{}"` when there is no such block. |
| RequirementAgent.ExtractedBlockTrimmed | agents/requirement_agent.py:84 | An extracted block neither starts nor ends with whitespace. |
| RequirementAgent.SafeParseJson | agents/requirement_agent.py:90-98 | The result is the parsed value, or `{}` when decoding fails. It never propagates the error. |
| RequirementAgent.ToDict | agents/requirement_agent.py:54-57 | The returned dict has exactly the keys `readable_text` and `parsed_json`, so it has no `error` key. |
| RequirementAgent.SetDefault | agents/requirement_agent.py:47 | A present key keeps its value and an absent one gets the default. No other key changes. |
| RequirementAgent.FillDefaults | agents/requirement_agent.py:47-52 | Afterwards all six requirement keys are present. Existing values are kept, and missing ones become "Unknown Project" or `[]`. |
| RequirementAgent.Fallback | agents/requirement_agent.py:59-72 | The fallback has an empty `readable_text`, the six default keys and `raw_response = str(e)`, and nothing else. |
| RequirementAgent.RunRequirementAgent | agents/requirement_agent.py:12-72 | All six keys are always present. Blank input never calls the model. A raising model call, or JSON that is not an object, gives the fallback with the message. Otherwise the result is the stripped reply with the defaulted dict. |
| RequirementAgent.BlankInputFallback | agents/requirement_agent.py:18-19 | A description made only of whitespace strips to empty, which takes the fallback path. |
| RequirementAgent.NoFenceAllDefaults | agents/requirement_agent.py:43-52 | A reply without a fenced block gives exactly the six keys, all with their defaults. |
| FlowAgent.SourceOf | agents/flow_agent.py:29-36 | The prompt uses the dumped `parsed_json` when it is truthy. Otherwise it uses `readable_text`, or `""` when that is absent. A non-dict input uses its `str`. |
| FlowAgent.StripLeadingFence | agents/flow_agent.py:54 | Text without a leading ```` ``` ```` is unchanged. Otherwise only letters and whitespace after the fence are removed, and the rest does not start with whitespace. |
| FlowAgent.StripTrailingFence | agents/flow_agent.py:55 | A trailing ```` ``` ```` is removed. Before a final newline it is also removed and the newline is kept, as `$` matches there. Anything else is unchanged. |
| FlowAgent.CleanDot | agents/flow_agent.py:54-56 | The cleaned text neither starts nor ends with a backtick, space, `\n`, `\r` or `\t`. |
| FlowAgent.ValidDot | agents/flow_agent.py:59-67 | Valid DOT text is kept. Empty text, or text without `digraph`, becomes the fallback graph. Either way the result contains `digraph`. |
| FlowAgent.DotFor | agents/flow_agent.py:51-67 | The DOT saved for any reply contains `digraph`. |
| FlowAgent.RunFlowAgent | agents/flow_agent.py:15-99 | The path is non-empty if and only if the model call, `ensure_dirs`, the settings lookup and the save all succeed. It is then the `.png` path when rendering succeeds and the `.dot` path otherwise. DOT text is saved exactly then, and it contains `digraph`. |
| FlowAgent.PlainDotUnchanged | agents/flow_agent.py:51-67 | A reply that is already bare DOT is saved exactly as returned. |
| FlowAgent.LeadingFenceRemoved | agents/flow_agent.py:54 | An opening fence, its language tag and the whitespace after it are removed up to the text that follows. |
| FlowAgent.TrailingFenceRemoved | agents/flow_agent.py:55 | A closing fence at the very end is removed. |
| FlowAgent.FencedDotUnwrapped | agents/flow_agent.py:51-67 | For a reply of the form ```` ```tag ```` followed by a newline, the DOT, a newline and ```` ``` ````, exactly the DOT between the fences is saved. |
| FlowAgent.FencedDotCleaned | agents/flow_agent.py:54-56 | The three cleaning steps turn such a fenced reply into exactly the DOT between the fences. |
| FlowAgent.EdgeNewlineStripped | agents/flow_agent.py:56 | Edge stripping removes the newline left before a closing fence. |
| FlowAgent.LanguageTagSwallowsDigraph | agents/flow_agent.py:54-67 | In a reply that starts with ```` ```digraph ````, the tag pattern `[a-zA-Z]*` consumes the keyword itself. Unless `digraph` appears again, the fallback graph is saved. |
| FlowAgent.DigraphTagCleaned | agents/flow_agent.py:54-56 | Cleaning ```` ```digraph<ws><body>``` ```` leaves only the body. |
| MindmapAgent.WrapMindMap | agents/mindmap_agent.py:65-66 | Text containing `digraph` is kept exactly. Other text is wrapped in `digraph MindMap {\n` and `\n}`, with the original text as the exact infix. The result always contains `digraph`. |
| MindmapAgent.Setup | agents/mindmap_agent.py:17-26 | The unguarded set-up succeeds if and only if `env.OPENAI_API_KEY` exists, the client is built, the diagrams directory resolves and `mkdir` succeeds. A missing `env` raises KeyError. |
| MindmapAgent.RunMindmapAgent | agents/mindmap_agent.py:11-114 | Set-up failures escape and log nothing. A successful text call logs ("mindmap_text", 800, 500, 0.03), and only a written image logs ("mindmap_image", 0, 300, 0.02). The callback is notified once per logged entry. A text failure gives the error sentinel and an image failure gives `""`. `text_map` always contains `digraph` or is the sentinel. |
| MindmapAgent.LoadedSettingsHaveKey | agents/mindmap_agent.py:17-18 | Loaded settings always have `env`, so only the client, `paths` or `mkdir` can stop the set-up. |
| JiraStoryAgent.StoryJson | agents/jira_story_agent.py:71-76 | A normalised story has exactly the keys summary, description, bdd and labels. |
| JiraStoryAgent.NormalizeStory | agents/jira_story_agent.py:71-76 | Each field keeps the model's value when the key is present, even when empty. Defaults apply only to absent keys. A missing description falls back to `bdd`, then to "No description provided.". |
| JiraStoryAgent.NormalizeIdempotent | agents/jira_story_agent.py:71-76 | Normalising an already normalised story changes nothing. |
| JiraStoryAgent.ParseStories | agents/jira_story_agent.py:49-64 | A parsed list is used as is, and any other parsed value becomes a one-element list. Unparseable text becomes the single draft story. |
| JiraStoryAgent.DraftStoryNormalized | agents/jira_story_agent.py:55-77 | The draft normalises to summary "Draft SDLC Story", with the raw text as both description and bdd and labels `["auto","sdlc"]`. |
| JiraStoryAgent.NormalizedAll | agents/jira_story_agent.py:69-77 | Normalisation preserves the number and order of stories, and story `i` is the normalisation of input `i`. |
| JiraStoryAgent.NormalizeStories | agents/jira_story_agent.py:69-77 | The loop succeeds if and only if every element is a dict, and then returns every story normalised, in order. |
| JiraStoryAgent.RunJiraStoryAgent | agents/jira_story_agent.py:12-95 | Any failure returns `[]`: a raising model call, a non-dict element, a failing `features` lookup, or a failed save when saving is on. Otherwise the result is every parsed story normalised. |
| JiraPostAgent.PayloadOf | agents/jira_post_agent.py:45-55 | The summary defaults to "Auto-Generated Story idx" with a 1-based idx. The description is `bdd`, else `description`, else `""`. Labels default to `["auto","sdlc"]`, and the project is the resolved key. |
| JiraPostAgent.Classify | agents/jira_post_agent.py:60-85 | The issue is created if and only if the status is 200 or 201 and the body is a JSON object. Its key is the body's `key`, or "UNKNOWN_KEY". The story is skipped if and only if the status is 429. Any other status records the story's summary, the status code and exactly the first 300 characters of the text. A request exception, or a body that does not parse, records the summary and the message. |
| JiraPostAgent.StepsAccounted | agents/jira_post_agent.py:95-102 | Created plus failed plus rate-limited equals the number of stories, so `created_count + failed_count` falls short of `total_stories` by the 429s. |
| JiraPostAgent.PayloadsUpTo | agents/jira_post_agent.py:45-55 | The `i`-th request carries the payload of story `i` at position `i + 1`. |
| JiraPostAgent.PostStoriesToJira | agents/jira_post_agent.py:11-109 | Missing credentials or no stories return `[]` and send nothing. The project key defaults to "SDLC". Stories are posted in order, one request each. The created keys come back in story order, together with the summary counts. A story that is not a dict aborts with `[]` after the earlier stories were already posted. |
| JiraPostAgent.PostedDescriptionIsBdd | agents/jira_post_agent.py:51 | A story from the story agent is posted with its BDD text as the description, and its own summary and labels. |
| RouterAgent.SequentialRun | agents/router_agent.py:14-100 | Every run calls the requirements stage first and has no `token_summary` before the snapshot. |
| RouterAgent.FromFlow | agents/router_agent.py:42-58 | After requirements, `diagram_path` is the flow result or `""`. The stored requirements are kept, and only the five listed orders of stages can follow. |
| RouterAgent.FromStories | agents/router_agent.py:63-79 | The story stage always runs, and posting may follow. Every key written before is kept, except `jira_stories`, `jira_created` and `error`. |
| RouterAgent.RunOrder | agents/router_agent.py:33-79 | Stages run strictly in the order requirements, flow, SRS, stories, post. Only SRS and posting are skipped in the middle, and a run cut short stops after requirements or after flow. |
| RouterAgent.RunSequentialPipeline | agents/router_agent.py:14-100 | The dict filled in place is the value-level run plus `token_summary`, read from the tracker at the end. The stages' usage lands on the tracker in call order, with one callback notification per entry, and the function never raises. |
| RouterAgent.RunFromFlow | agents/router_agent.py:42-58 | The in-place flow, SRS-flag and SRS steps, then the rest, produce exactly `FromFlow`. The tracker holds the called stages' usage and notifications in order. |
| RouterAgent.RunFromStories | agents/router_agent.py:63-79 | The in-place story, posting-flag and posting steps produce exactly `FromStories`. The tracker holds the called stages' usage and notifications in order. |
| RouterAgent.RequirementRaiseAborts | agents/router_agent.py:96-100 | A raising requirements stage leaves only `error`, and no other stage runs. |
| RouterAgent.RequirementErrorKeyAborts | agents/router_agent.py:33-37 | Requirements with an `error` key leave exactly `requirements` and `error` = "Requirement extraction failed", and no other stage runs. |
| RouterAgent.FlowFallsBack | agents/router_agent.py:43-47 | A raising flow stage stores `""` in `diagram_path`, and flow always runs second. |
| RouterAgent.SrsGated | agents/router_agent.py:52-58 | SRS runs, and `srs_path` is written, if and only if `enable_pdf_gen` (default true) holds. A raise stores `""`. |
| RouterAgent.StoriesFallBack | agents/router_agent.py:64-68 | The story stage runs, and a raise stores `[]`. |
| RouterAgent.PostGated | agents/router_agent.py:73-79 | Posting runs, and `jira_created` is written, if and only if `enable_jira_post` (default false) holds. It gets the stored stories, and a raise stores `[]`. |
| RouterAgent.PostFlagNeverAborts | agents/router_agent.py:52-73 | An aborted run never reached the story stage. The error path at the posting flag is unreachable, because line 52 already read `features` as a dict. |
| RouterAgent.MissingFeaturesKeepsEarlierKeys | agents/router_agent.py:52 | Without `features`, the run keeps `requirements` and `diagram_path`, adds the KeyError message as `error`, and calls nothing after flow. |
| RouterAgent.SequentialResults | agents/router_agent.py:33-79 | With requirements accepted and `features` a dict, the run calls requirements, flow, SRS if `enable_pdf_gen`, stories, and post if `enable_jira_post`. It writes `requirements`, `diagram_path`, `srs_path` when gated on, `jira_stories` and `jira_created` when gated on, and no `error`. |
| RouterAgent.ErrorOnlyFromRaiseOrSettings | agents/router_agent.py:35-37 | Wired to the real requirement agent, whose dict never has `error`, the error-key abort cannot happen. With a dict `features`, the run has no `error` and reaches the story stage. |
| SdlcGraph.NodeFrame | graphs/sdlc_graph.py:28-77 | A node changes at most its own field and `error`. A failing node sets only `error`, to its message, and a succeeding node leaves `error` as it was. |
| SdlcGraph.GatedNodeSkipped | graphs/sdlc_graph.py:48-77 | With its flag off, the SRS or posting node leaves the state exactly as it found it and calls nothing. |
| SdlcGraph.NoFailureKeepsError | graphs/sdlc_graph.py:28-77 | A run of nodes with no failure leaves `error` unchanged, so a success never clears it. |
| SdlcGraph.LastFailureWins | graphs/sdlc_graph.py:28-77 | After a run, `error` holds the message of the last node that failed, whatever earlier nodes wrote. |
| SdlcGraph.SrsPathUntouched | graphs/sdlc_graph.py:51-52 | With `enable_pdf_gen` false, no run of nodes writes `srs_path`. |
| SdlcGraph.JiraCreatedUntouched | graphs/sdlc_graph.py:72-73 | With `enable_jira_post` false, no run of nodes writes `jira_created`. |
| SdlcGraph.DisabledOutputsStayInitial | graphs/sdlc_graph.py:16-77 | Over a whole run, disabled SRS leaves `srs_path` None and disabled posting leaves `jira_created` empty. |
| SdlcGraph.BuildSdlcGraph | graphs/sdlc_graph.py:81-97 | Every node has an edge, and every edge moves toward `END`, so a run always terminates. |
| SdlcGraph.BuiltGraphRunsChain | graphs/sdlc_graph.py:89-95 | From the entry point, the built graph visits RequirementAgent, FlowAgent, SRSAgent, JiraStoryAgent and JiraPostAgent, then `END`. |
| SdlcGraph.SdlcState.constructor | graphs/sdlc_graph.py:16-24 | A fresh state has the user input, `requirements {}`, `diagram_path`, `srs_path` and `error` None, and empty story lists. |
| SdlcGraph.SdlcState.RequirementNode | graphs/sdlc_graph.py:28-35 | The node stores the requirements, or records the raised message in `error`. Its stage's usage is logged, with one callback notification per entry. |
| SdlcGraph.SdlcState.FlowNode | graphs/sdlc_graph.py:38-45 | The node stores the diagram path, or records the raised message in `error`. Its stage's usage is logged, with one callback notification per entry. |
| SdlcGraph.SdlcState.SrsNode | graphs/sdlc_graph.py:48-56 | The node calls SRS only when the flag holds. A raise from the flag lookup or from SRS goes to `error`, and usage is logged, and the callback notified, only when SRS is called. |
| SdlcGraph.SdlcState.JiraStoryNode | graphs/sdlc_graph.py:59-66 | The node stores the stories, or records the raised message in `error`. Its stage's usage is logged, with one callback notification per entry. |
| SdlcGraph.SdlcState.JiraPostNode | graphs/sdlc_graph.py:69-77 | The node posts only when the flag holds. A raise from the flag lookup or from posting goes to `error`, and usage is logged, and the callback notified, only when posting is called. |
| SdlcGraph.SdlcState.Visit | graphs/sdlc_graph.py:83-87 | The named node's function runs on the shared state. |
| SdlcGraph.Invoke | graphs/sdlc_graph.py:119 | Following edges from the entry to `END` visits exactly the graph's route. The state is then that route's node steps applied in order. The usage of the called stages is logged in the same order, with one callback notification per entry. |
| SdlcGraph.GraphImage | graphs/sdlc_graph.py:108-116 | The image path is set if and only if the settings lookup, `mkdir` and drawing all succeed, and it is then `langgraph_pipeline.png` in the diagrams directory. |
| SdlcGraph.GraphResult | graphs/sdlc_graph.py:128-137 | The result has exactly the six state fields plus `token_summary` and `graph_image`. `graph_image` is None if and only if drawing failed, and `error` is None if and only if no node failed. |
| SdlcGraph.GraphRunUnrolled | graphs/sdlc_graph.py:89-95 | A run is the five node steps, one after the other. |
| SdlcGraph.GraphRunAllOk | graphs/sdlc_graph.py:28-95 | When every stage succeeds and `features` is a dict, the run ends with the stored requirements, the diagram path, the SRS path exactly when `enable_pdf_gen` holds, the stories, the created issues exactly when `enable_jira_post` holds, and no error. |
| SdlcGraph.RunSdlcGraph | graphs/sdlc_graph.py:101-137 | The result is the chain run from a fresh state, with the usage snapshot taken after the run and the drawing outcome. Usage is logged, and the callback notified, for exactly the stages the nodes called. |
| SdlcGraph.AgreesWithSequentialRun | graphs/sdlc_graph.py:101-137 | When no stage raises and `features` is a dict, both pipelines agree. The graph and the router produce the same requirements, diagram path, SRS path, stories and created keys, and neither records an error. |

## Quirks of the code

The model follows the code as written in each case below.

- agents/jira_post_agent.py:65-68: the 429 branch logs "retrying after
  delay", sleeps, and then `continue`s to the next story. No retry happens,
  and that story is counted neither as created nor as failed
  (`JiraPostAgent.StepsAccounted`).
- agents/router_agent.py:52: the SRS flag is read as `settings["features"]`.
  A missing or non-dict entry raises there. Stage failures at lines 43-47
  are caught locally, but this one reaches the handler at lines 96-100 and
  ends the whole run after the flow stage
  (`RouterAgent.MissingFeaturesKeepsEarlierKeys`).
- core/llm.py:141-145: the `or` chain skips falsy configured models. Its
  last operand, `os.getenv("OPENAI_MODEL", "gpt-4o")`, falls back to
  "gpt-4o" only when the variable is unset. It returns `""` when the
  variable is set but empty (`Config.AgentModelTruthy`, `Llm.ResolveModel`).
- core/token_tracker.py:16 reads `0s`, which does not parse. The model
  starts the total at 0.

## Left out

- Llm.TokenTracker.LogAgent: stores the cost without `round(cost, 6)`. Costs are exact reals, because floating-point rounding is not modelled.
- Llm.TokenTracker.Summary: reports `approx_cost_usd` without `round(..., 4)`, for the same reason.
- TokenTracking.TokenTracker.CalcCost: returns the sum without `round(total, 6)`. The per-1K division is exact.
- TokenTracking.TokenTracker.Record: the timestamp is a parameter, because `datetime.utcnow` is a clock.
- Llm.TokenTracker.Summary and TokenTracking.TokenTracker.Summary: return values. Python returns the live `agents` list or `data` dict, so a stored `token_summary` can change with later calls. That aliasing is not modelled.
- Callbacks are recorded in a ghost log of (observer, summary) pairs and not run. A callback that raises or calls back into the tracker is not modelled.
- Llm.Invoke: `num_tokens_from_string` (tiktoken) is a counting function passed in. The OpenAI request and its temperature and max-tokens arguments are not modelled.
- Llm.GetLlm: `float(...)` and `int(...)` on environment strings are parsing functions passed in.
- Stages.Agents: each collaborator is a function of its input, and the usage it logs depends only on the stage. A stage's logged usage is not tied to whether it returned or raised. Inside each producer the same accounting is modelled by `Llm.Invoke`.
- RequirementAgent.RunRequirementAgent: prompt loading, `.format_map`, `get_llm` and `invoke` are one `generate` outcome. The usage that call logs is not part of this member.
- FlowAgent.RunFlowAgent: `ensure_dirs`, `save_text` and the `dot` subprocess are booleans. `json.dumps` and the prompt text are represented by `PromptSource`, and `Path` joining ignores pathlib normalisation.
- JiraStoryAgent.RunJiraStoryAgent: the `run_with_usage` branch is not modelled, because `LLMWrapper` has no such method. The call goes through `invoke`, under the agent name "generic". Saving `jira_stories.json` is a boolean.
- MindmapAgent.RunMindmapAgent: the prompt text, the base64 decoding and the two model names are not modelled. The model-name lookups cannot raise once `env` is a dict. Writing `mindmap.dot` and the image are booleans.
- JiraPostAgent.PostStoriesToJira: `project_key=None` is the empty string, since both are falsy. `time.sleep(3)`, the URL, headers, authentication and logging are not modelled, and the HTTP response for each story is an input.
- SdlcGraph.Invoke: LangGraph's `compile`, `invoke` and `draw` are modelled as the graph value and the in-place run over one shared `SDLCState`. LangGraph's own handling of a plain state class is not modelled.
- Exception messages follow `str(e)` of the Python built-ins for KeyError and AttributeError. Messages of library exceptions are inputs.
- Each module's `settings = load_settings()` at import time is a parameter, and every module sees the same dict.
- agents/srs_agent.py is not part of this model (Markdown to PDF conversion), and neither is app/main.py (the Streamlit UI, OCR and PDF export).
- core/vision_ocr.py, core/storage.py, core/logger.py and core/prompts_loader.py are not part of this model (file-system, logging and client plumbing).
- Playwrite_Automation/ is not part of this model. It is a fixed browser script plus prompt templates.
