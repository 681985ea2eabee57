# LangGraph control logic as pure state machines

This project models the control logic of a small LangGraph repository in
Dafny. It covers three graphs, the configuration classes they read, and a
web-search tool:

- **Self-reflective retrieval graph** (`rag_state.dfy`, `rag_graph.dfy`).
  It retrieves documents for a question from a vector index, keeps the ones
  a language model grades relevant, and then does one of two things. If
  nothing survives, it rewrites the question and retrieves again. Otherwise
  it generates an answer and routes on a grounding grade.
- **Top-level router graph** (`agent_graph.dfy`). A language model
  classifies the conversation as "movie", "more-info" or "general". A router
  maps the label to one of three branch nodes, and every branch node ends the
  run.
- **Supervisor/worker graph** (`hierarchical.dfy`). A language model picks
  FINISH or one of the workers "search" and "web_scraper". Each mocked worker
  appends one message and reports back to the supervisor.
- **Configuration classes** (`configuration.dfy`). They cover the shared base
  class, the agent's class and the hierarchical graph's class, and how each
  is built from a run configuration.
- **Web-search tool** (`search_tools.dfy`). It extracts links from a search
  response and formats them, or the failure, as one string.

`common.dfy` holds shared types: `Option`, `Result`, chat `Message`s, and
`Value`, a Python runtime value as found in configuration dictionaries and
JSON responses.

Every language-model call, the embedding service, the vector index and the
search service are inputs, not code. Each graph step receives a `Reply`
holding what those services returned for that step. For the supervisor graph,
this is the chosen option. A run takes a sequence of replies, and its length
is the fuel. The retrieval loop has no bound of its own, so runs are modelled
with fuel and termination is not proved. `NoEndWithGradeRecords` shows why it
cannot be proved.

How the model reads some of the code:

- The grounding check compares the whole structured grade value with the
  string "yes" (`src/agent/rag_self_reflection/graph.py:237`). It does not
  compare the grade's `type` field. The model says so with
  `GradeValue = Structured(Grader) | Plain(string)`: only a bare `"yes"`
  passes. A well-formed grade record, even one whose kind is "yes", always
  gives "not supported". The usefulness grade is fixed at "yes" (:243), so
  "not useful" is never returned. `iteration_count` and `max_iterations` are
  never read or written. Together these mean that with well-typed grades the
  generate/grade cycle never reaches END (`NoEndWithGradeRecords`). Only the
  engine's recursion limit stops such a run, with an error.
- `generation` starts as a list of strings, and the generate node replaces it
  with the answer. It is modelled as `Log(entries) | Answer(text)`. The
  rewrite node appends a "Reasoning: ..." entry to its input state's list in
  place (`src/agent/rag_self_reflection/graph.py:187`). Its returned update
  holds only `documents` and `question` (:189). A rewrite never follows
  generate, so no node has yet written `generation` when the rewrite runs. The
  list appended to is therefore the field's fresh default, which the engine
  does not keep. The model follows the returned update: `generation` is left
  unchanged, and `ReasoningNeverPersists` shows the log stays empty. Appending
  to an answer would fail. `AppendNeverFails` proves that no run from the
  entry node reaches that case.
- `state["x"]` and `state.x` are both read as field access. So is
  `state.router["type"]` on the classification record.
- The rewrite node casts the reply of an un-structured model call to the
  rewrite record (`src/agent/rag_self_reflection/graph.py:178`). `cast` does
  nothing at run time. The reply is therefore modelled as
  `RewriteRecord(RewriterResponse) | Completion(text)`. A completion has no
  `rewritten_question`, so the node stops at :180 (`NoRewrittenQuestion`).
- The two grading calls (:80 and :232) ask for the same structured grade, and
  either reply may be a grade record or a bare string (`GradeValue`).
  Relevance grading reads `grade.type` (:83), so a bare string stops it
  (`GradeWithoutType`). The grounding check compares the whole reply with
  "yes" (:237), so only a bare string can pass it. A run therefore reaches
  END after grading a document only if the two identical calls return
  replies of different types, as `UsefulOnFirstPass` assumes: grade records
  for relevance and a bare "yes" for grounding.
- Each node builds its configuration from the run configuration. The graph
  functions receive that result (`AgentConfigResult`,
  `HierarchicalConfigResult`) and fail with `ConfigFailure` when it is an
  error.
- The workers write a plain dictionary `{"result", "status"}` into their
  response field. It is modelled as a `NodeResponse` with no metadata.
- The research-plan node runs the retrieval graph on the first message's
  content. The model runs `RagGraph.RunGraph` on it under the same
  configuration, because the engine hands a node's configuration to the graphs
  it invokes. The node returns normally only when that run reaches END. A run
  that is still going when its replies run out is reported as
  `SubgraphUnfinished`. `MovieNeedsBareGrade` combines this with
  `NoEndWithGradeRecords`: with well-typed grounding grades, a "movie" run
  never completes.
- The supervisor rewrites "FINISH" to END, whose name is `"__end__"`
  (`src/hierarchical_graph/graph.py:15`, :63), and uses any other choice
  verbatim as the target. So a literal `"__end__"` choice ends the run too.
- The research-plan node returns `{"steps": "result"}`, but the state
  declares no `steps` field. The model returns the value in `Plan` and does
  not apply it to the state.

## Model

| member | source | states |
|---|---|---|
| Configuration.Configurable | src/agent/configuration.py:63 | If there is no config, or its "configurable" entry is missing or falsy, there are no overrides. A dictionary gives its entries. A truthy non-dictionary is the only error. |
| Configuration.Construct | src/agent/configuration.py:64-65 | The instance has exactly the init fields. A recognised key's supplied value replaces the default verbatim. Every other field keeps its default. |
| Configuration.ConstructDropsUnknownKeys | src/agent/configuration.py:64-65 | Adding overrides whose keys are not init fields does not change the instance. |
| Configuration.ConstructWithoutOverrides | src/shared/configuration.py:44-48 | No overrides give exactly the defaults. |
| Configuration.ConstructRoundTrip | src/shared/configuration.py:45-48 | Feeding an instance back in as overrides reproduces it, whatever the defaults. |
| Configuration.BaseFromRunnableConfig | src/shared/configuration.py:40-48 | It fails only when "configurable" is a truthy non-dictionary. Otherwise each base field is the supplied value when the key is present, else the default. |
| Configuration.BaseUnconfiguredDefaults | src/shared/configuration.py:17-37 | With nothing configured: `vector_dim` is 1536, the embedding model is "openai/text-embedding-3-small", and `search_params` is {"metric_type": "L2", "nprobe": 10}. The provider is "mongodb", one of the four declared providers. The Milvus host comes from the environment, falling back to 127.0.0.1. |
| Configuration.AgentFromRunnableConfig | src/agent/configuration.py:58-65 | The instance has exactly the base fields plus the agent fields, so inherited keys are recognised too. Each field is the supplied value or its default. It fails only on a truthy non-dictionary "configurable". |
| Configuration.AgentUnconfiguredDefaults | src/agent/configuration.py:16-56 | With nothing configured: both models are "gpt-3.5-turbo-0125", `vector_output_fields` is "summary", the three prompts are the prompt constants, and the base defaults are inherited. |
| Configuration.AgentDropsForeignKey | src/agent/configuration.py:64-65 | A "configurable" key the agent class does not declare is silently dropped. |
| Configuration.HierarchicalFromRunnableConfig | src/hierarchical_graph/configuration.py:36-43 | The instance has exactly the base fields plus the hierarchical fields. Each field is the supplied value or its default. It fails only on a truthy non-dictionary "configurable". |
| Configuration.HierarchicalUnconfiguredDefaults | src/hierarchical_graph/configuration.py:16-34 | With nothing configured, `query_model` and `llm_router_model` are "gpt-4o-mini", and the router prompt is the router prompt constant. |
| RagState.NewGrader | src/agent/rag_self_reflection/state.py:12-15 | A grade built from its kind alone has empty `logic`. |
| RagState.NewRewriterResponse | src/agent/rag_self_reflection/state.py:17-20 | A rewrite built from its question alone has empty `reasoning`. |
| RagState.NewResearcherState | src/agent/rag_self_reflection/state.py:22-28 | `question` is the one required field. `generation` and `documents` start empty. The counters start at 0 and 5. |
| RagGraph.RetrieveDocuments | src/agent/rag_self_reflection/graph.py:28-60 | It fails on a configuration error or on any embedding model other than the supported one. Otherwise it asks for the top 3 hits projecting the configured output field, and only `documents` changes, to the hits' documents. |
| RagGraph.HitsDocumentsAt | src/agent/rag_self_reflection/graph.py:52-58 | Hit j of result group i is the document at position (hits in earlier groups) + j. So there is one document per hit, flattened group after group, in order. |
| RagGraph.HitDocumentShape | src/agent/rag_self_reflection/graph.py:55-57 | A document's metadata keys are exactly "id" and "distance", holding the hit's values. Its text is the entity's "summary" field, or "" when that field is absent. |
| RagGraph.KeptIndices | src/agent/rag_self_reflection/graph.py:68-88 | The kept positions are increasing. Each is graded "yes". Every position graded "yes" is kept. |
| RagGraph.RelevantIsSelection | src/agent/rag_self_reflection/graph.py:67-89 | The filtered documents are the input documents at exactly the positions graded "yes", in original order. |
| RagGraph.RelevantExtremes | src/agent/rag_self_reflection/graph.py:79-88 | If every grade is "yes", all documents are kept. If every grade is "no", none are kept. |
| RagGraph.FirstUntyped | src/agent/rag_self_reflection/graph.py:68-83 | It finds the first grading reply that is a bare string. That reply is a bare string, every earlier reply is a grade record, and there is none exactly when all replies are records. |
| RagGraph.GradeDocuments | src/agent/rag_self_reflection/graph.py:63-89 | It succeeds exactly when the configuration builds and every document's grade is a record. Otherwise it fails on the first bare string, which has no `type`. On success only `documents` changes, to the relevance-filtered list, and the question is returned unchanged. |
| RagGraph.DecideToGenerate | src/agent/rag_self_reflection/graph.py:91-115 | The decision is "transform_query" exactly when no document is left, and "generate" exactly when some are. |
| RagGraph.Generate | src/agent/rag_self_reflection/graph.py:117-140 | It succeeds exactly when the configuration builds and the configured response prompt is a string. Any other prompt value cannot be formatted, and the node fails with it. On success `generation` becomes the model's answer. Question, documents and counters are unchanged. |
| RagGraph.TransformQuery | src/agent/rag_self_reflection/graph.py:142-189 | The question becomes the rewritten question. `generation`, documents and counters are unchanged, because the returned update has no `generation` key. A free-text completion reply fails first, for lack of `rewritten_question`. With a rewrite record, it fails exactly when `generation` already holds an answer, on which the in-place append fails. |
| RagGraph.GradeGeneration | src/agent/rag_self_reflection/graph.py:191-252 | The result is "useful" exactly when the grade value is the bare string "yes". It is never "not useful". |
| RagGraph.GroundingIgnoresGradeRecords | src/agent/rag_self_reflection/graph.py:236-252 | Any structured grade record, whatever its kind, routes to "not supported". |
| RagGraph.OnlyUsefulEnds | src/agent/rag_self_reflection/graph.py:260-279 | There are no unconditional edges to the end. The decision gate never targets the end. Among the grounding edges, only "useful" does. |
| RagGraph.Step | src/agent/rag_self_reflection/graph.py:254-279 | A step never changes `iteration_count` or `max_iterations`. A step enters the end only from generate with a bare "yes" grade. The end is a fixed point. |
| RagGraph.RunGraph | src/agent/rag_self_reflection/graph.py:254-280 | A whole run of any length leaves `iteration_count` and `max_iterations` untouched. |
| RagGraph.Invoke | src/agent/rag_self_reflection/state.py:27-28 | Every run from a fresh state ends with `iteration_count` 0 and `max_iterations` 5. The counters are declared but never used. |
| RagGraph.NoEndWithGradeRecords | src/agent/rag_self_reflection/graph.py:237-252 | When every grounding grade is a grade record, no run reaches the end, however much fuel it is given. |
| RagGraph.AppendNeverFails | src/agent/rag_self_reflection/graph.py:184-187 | From any state where an answer occurs only at generate or the end, no run fails on the rewrite node's append. |
| RagGraph.InvokeNeverFailsToAppend | src/agent/rag_self_reflection/graph.py:260-279 | No run from the entry node fails on the rewrite node's append. |
| RagGraph.UsefulOnFirstPass | src/agent/rag_self_reflection/graph.py:260-279 | Suppose there are hits, all are graded relevant by grade records, the response prompt is a string, and the grounding reply is a bare "yes". Then retrieve, grade and generate reach the end. Only the documents and `generation` change, `generation` to the answer. |
| RagGraph.EmptyRetrievalRewrites | src/agent/rag_self_reflection/graph.py:260-270 | An empty first retrieval, followed by a rewrite record, leads through grading to one rewrite and back to retrieval. The state then holds the rewritten question and the still-empty generation log. |
| RagGraph.ReasoningNeverPersists | src/agent/rag_self_reflection/graph.py:184-189 | Along any run from a state whose log is empty or already an answer, the log never gains an entry. The rewrite node's reasoning entry never reaches the graph's state. |
| AgentGraph.NewRouter | src/agent/state.py:24-27 | A classification built from its kind alone has empty `logic`. |
| AgentGraph.NewAgentState | src/agent/state.py:29-40 | `messages` is the one required field. The router defaults to a well-typed "general" classification. |
| AgentGraph.AnalyzeAndRouteQuery | src/agent/graph.py:17-34 | The prompt is the configured router prompt followed by the conversation, in order. Only `router` changes, to the model's classification. |
| AgentGraph.RouteQuery | src/agent/graph.py:36-56 | "movie", "more-info" and "general" select create_research_plan, ask_for_more_info and respond_to_general_query, in both directions. Any other kind is an unknown-router-type error. |
| AgentGraph.WellTypedNeverRaises | src/agent/state.py:26 | A classification whose kind is one of the three declared literals never makes the router fail. |
| AgentGraph.CreateResearchPlanNode | src/agent/graph.py:59-65 | It succeeds exactly when there is a first message with text content and the retrieval graph run on that text reaches its end. The sub-graph input is that content as "question". The steps are always "result". An empty conversation is an error. |
| AgentGraph.LabelBranch | src/agent/graph.py:67-73 | ask_for_more_info sets `router` to "more-info" and respond_to_general_query sets it to "general". Messages are unchanged. |
| AgentGraph.BranchesEnd | src/agent/graph.py:83-87 | The entry goes to the classifier. A node's unconditional edge goes to the end exactly when it is a branch node. |
| AgentGraph.Invoke | src/agent/graph.py:75-89 | A successful run's path is entry, classifier, one branch, end. The branch is the one the classification's kind selects, in both directions. A "movie" run keeps the classification and returns the plan. The other two runs end with the bare label. The conversation is unchanged. The run succeeds exactly when the configuration builds, the kind is well-typed, and for "movie" the retrieval graph returns. |
| AgentGraph.MovieNeedsBareGrade | src/agent/graph.py:63 | If every grounding grade the retrieval graph receives is a grade record, a "movie" run never completes. |
| Hierarchical.PendingResponse | src/hierarchical_graph/state.py:16-20 | A fresh worker response has no result, status "pending" and no metadata. |
| Hierarchical.NewHierState | src/hierarchical_graph/state.py:22-26 | `messages` is required. Both worker responses are fresh pending responses. There is no supervisor response. |
| Hierarchical.Options | src/hierarchical_graph/graph.py:25-35 | The supervisor's options are "FINISH" followed by the members. |
| Hierarchical.SupervisorMessages | src/hierarchical_graph/graph.py:54-56 | The supervisor's prompt is its system instruction followed by the conversation, in order. |
| Hierarchical.SupervisorPromptNamesMembers | src/hierarchical_graph/graph.py:36-42 | The system instruction lists the workers as ['search', 'web_scraper']. |
| Hierarchical.SupervisorGoto | src/hierarchical_graph/graph.py:60-65 | The target is the end's name `"__end__"` exactly when the choice is "FINISH" or `"__end__"` itself. Any choice other than "FINISH" is used verbatim. |
| Hierarchical.SupervisorNode | src/hierarchical_graph/graph.py:49-65 | The model is prompted with the system instruction followed by the conversation. The command carries no state update. It targets the end exactly on "FINISH" or `"__end__"`. |
| Hierarchical.WorkerNode | src/hierarchical_graph/graph.py:69-118 | A worker sets its own response to its mock result with status "completed". It appends exactly one message after the existing ones and leaves the other worker's response alone. It always returns to "supervisor". |
| Hierarchical.Resolve | src/hierarchical_graph/graph.py:120-125 | `"__end__"` resolves to the end. Besides it, the supervisor and the two workers are the only valid targets. Any other name is an error. |
| Hierarchical.Step | src/hierarchical_graph/graph.py:12-65 | The supervisor issues no state update. A step ends the run exactly when the supervisor picks "FINISH" or `"__end__"`. A worker appends its one message and goes back to the supervisor. An offered option never fails. |
| Hierarchical.RunGraph | src/hierarchical_graph/graph.py:83-84 | Over a whole run, earlier messages are never changed, and every added message is one of the two worker messages. |
| Hierarchical.Invoke | src/hierarchical_graph/graph.py:120-126 | A run starts at the supervisor and keeps the input conversation as a prefix of the final one. |
| Hierarchical.EndOnlyByFinish | src/hierarchical_graph/graph.py:60-65 | Without a "FINISH" or `"__end__"` choice, no run reaches the end. |
| Hierarchical.OfferedChoicesNeverFail | src/hierarchical_graph/graph.py:44-47 | With a working configuration and every choice among the offered options, a run never fails. |
| SearchTools.ListRequest | src/tools/search_tools.py:9-12 | The request carries the query and the search engine id, with `max_results` forwarded as `num`. |
| SearchTools.ToolRequest | src/tools/search_tools.py:22-23 | The tool searches with the default of 5 results. |
| SearchTools.ItemLink | src/tools/search_tools.py:17 | An item gives its "link" exactly when it is a dictionary holding that key. A dictionary without one raises KeyError('link'). |
| SearchTools.Links | src/tools/search_tools.py:17 | It succeeds exactly when every item has a link. The result is each item's link, one per item, in response order. |
| SearchTools.GoogleSearch | src/tools/search_tools.py:14-17 | A response without "items" gives no links. A list of items gives their links. |
| SearchTools.LinkTexts | src/tools/search_tools.py:27 | The join succeeds exactly when every link is a string, and then keeps them in order. |
| SearchTools.SplitJoinRoundTrip | src/tools/search_tools.py:27 | Splitting the newline-joined links on newlines gives back the links, when none contains a newline. |
| SearchTools.GoogleSearchTool | src/tools/search_tools.py:19-29 | No links give exactly "No results found for the query.". A failure becomes "Error performing search: " followed by the error's text. This covers the service call, reading the items, and the join's TypeError on a non-string link. Otherwise the output is the links joined by newlines. The tool is total, so it never raises. |
| SearchTools.ToolListsLinks | src/tools/search_tools.py:17-27 | A response whose items all carry newline-free string links comes out as exactly those links, one per line, in order. |

## Left out

- RagGraph.Generate: a string response prompt is taken to format cleanly. `str.format` slot parsing is not modelled. A slot other than `{context}` (a KeyError) or a malformed brace is not reported as a failure.
- RagGraph.TransformQuery: the in-place append to the node's copy of `generation` is treated as lost, as for a state rebuilt from the stored fields. This holds because that copy is never a list another node wrote. An engine that handed the node the stored list object itself would keep the entry.

- Language-model, embedding, vector-index and search-service calls are inputs (`Reply`, grades, choices, responses), not modelled code. So is the prompt text built for each grading and grounding call, and the `format_docs` helper that renders documents into the generation prompt.
- The embedding service is modelled only by its model check. Any model other than "openai/text-embedding-3-small" raises ValueError. The vector returned, and the request's collection name looked up in the run configuration, are I/O wiring.
- `RagGraph.Invoke`, `RagGraph.RunGraph`, `Hierarchical.RunGraph`: runs are bounded by the number of replies supplied (fuel). The source has no bound, so termination of the retrieval loop is not claimed.
- The LangGraph engine is left out: `add_messages` reducers, `Command` handling, async scheduling and checkpointing. So is its recursion limit (25 super-steps by default), which stops a run that never reaches END with `GraphRecursionError`. Edges are a transition function stepped with fuel. The "steps" update of the research-plan node targets no declared state field, and what the engine does with it is not modelled.
- AgentGraph.CreateResearchPlanNode: the retrieval state declares `question` as text, so the model hands the sub-graph only text content. Non-text message content is reported as `QuestionNotText` rather than passed on. A sub-graph run still short of END when its replies run out is reported as `SubgraphUnfinished`, standing in for the engine's recursion-limit error.
- `Hierarchical.Resolve`: a command that targets an unknown node is modelled as an error. What the engine actually raises is not modelled.
- The iteration bound, cancellation, parallel relevance grading and a failure taxonomy are left out, because the code has none of them.
- Configuration: `ensure_config` in the base class is treated as passing "configurable" through unchanged. Environment defaults are read from a given map, because they are fixed once when the class is defined.
- `print` logging, the indexing graph, the Milvus scripts, the HTTP layer and the prompt constants are left out. The prompt constants are opaque strings in `Configuration.Prompts`.
- `src/shared/utils.py` and `src/shared/state.py` are not part of this model. This covers `load_chat_model`, `format_docs` and `reduce_docs`.
- SearchTools: Python's exact TypeError wording is modelled only for the cases written out. Those are a non-dictionary item, a non-iterable "items" value, and a non-string link in the join.
