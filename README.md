# Image-generation agent: workflow engine and task store

The backend takes a text prompt and runs an agent workflow over it. It answers the client at once with a task id and runs the workflow in the background. The client polls a task registry for the result.

The workflow is a small graph over one shared state record:
- a **planner** strengthens the prompt with quality and style phrases;
- an optional **human approval** step comes next;
- a **generator** filters the prompt and asks an image-synthesis service for an image;
- a **critic** scores the image with a fixed heuristic and decides whether to loop back to the generator;
- a regeneration bound (`max_iterations`) caps the loop.

This project models that core in Dafny and proves properties of it. Each module follows one source file.

- `State` (`state.py`) holds the status enum and the workflow state. It also holds the partial update a node returns and the runtime's merge of that update: every key present overwrites, every other key is kept. `Wrappers` and `Text` supply the `Option`/`Result` types and the Python string operations the code relies on: `strip`, `lower`, `split`, `in`, `join` and `str(int)`.
- `SiliconFlow` (`silicon_flow.py`) holds the content filter `validate_prompt`, a loop with early exit proved against a reference predicate. It also holds the request payload, the reading of the service's reply, and `generate_image` over an abstract transport.
- `Nodes` (`nodes.py`) holds the four nodes as functions from the state to their update, and the helpers `enhance_prompt`, `extract_keywords` and `analyze_image_quality`.
- `Graph` (`graph.py`) holds:
  - the two routing functions and the fixed edges;
  - the graph runtime, as a recursive reference function `Run` and the driver loop `Execute` proved equal to it;
  - the initial state and the error fallback of `run_agent`.

  Termination is proved with the measure `max_iterations - iteration_count` paired with the distance to the critic. The run lemmas are stated over any node table that keeps the node guarantees (`GraphLaws`). `GraphLawsHold` shows that the real nodes keep them, whatever the synthesis service answers.
- `Routes` (`v1_routes.py`) holds the module-level `tasks_store` as a class with a `map` field, the endpoints that read and change it, the request bounds, and the background `execute_agent_workflow`.

Scores and ratings are integer hundredths: 0.7 is 70. This preserves every comparison the code makes.
- The code's floats 0.8 − 0.1, 0.8 − 0.2 and 0.8 − 0.2 − 0.1 compare against 0.7 and 0.8 as 70, 60 and 50 do.
- The guidance scale 7.5 is carried as 75 tenths.

Three values are parameters:
- the task id, which the source draws from `uuid4`;
- the clock's timestamps;
- the synthesis service, as a function from the prompt and the index of the generator's call to an image or an error text.

An exception escaping graph execution is a `fault: Option<string>` parameter of `run_agent`.

**What the code does, which the model follows.**
- The generator → critic edge is unconditional, so a failed generation is still critiqued.
- The critic then overwrites the FAILED status with COMPLETED. Only a critic failure reaches the FAILED test of `should_continue_generation`.
- So a prompt that the filter blocks, or that the service never answers with image data, does not end the run early. The run goes round the loop until the bound, scoring 0 each time. It ends COMPLETED with no image, and the last generator error stays in the state (`Graph.RefusedRun`, `Graph.BlockedPromptRun`, `Graph.NoImageServiceRun`). The registry then reports the task as completed at 100% with no image and no error (`Routes.BlockedTaskCompletes`).
- `should_get_approval` never looks at the status.
- With an image present and no optimized prompt, `len(None)` raises inside the critic, and the critic reports FAILED.

## Model

| member | source | states |
|---|---|---|
| State.NodeStatusValues | backend/app/agent/state.py:9-14 | there are exactly four statuses; their string values are pending, running, completed and failed, and distinct statuses have distinct values |
| State.Merge | backend/app/agent/state.py:17-51 | every key the update carries takes the update's value; the inputs (original prompt, reference image, bound, task id, timestamp) never change |
| State.MergeFrame | backend/app/agent/state.py:17-51 | merging a node's update into the state changes exactly the keys the update carries; every other key keeps its value |
| SiliconFlow.HasAnyWord | backend/app/services/silicon_flow.py:131-136 | the early-exit scan over the blocked words finds a hit exactly when some word of the list occurs as a substring of the text |
| SiliconFlow.ValidatePrompt | backend/app/services/silicon_flow.py:125-138 | the filter's answer equals the reference predicate: non-empty, stripped length at least 3, and no blocked word in the lowercased prompt |
| SiliconFlow.RejectsShortPrompt | backend/app/services/silicon_flow.py:127-128 | a prompt whose stripped length is under 3 is refused, which includes the empty prompt |
| SiliconFlow.RejectsBlockedWord | backend/app/services/silicon_flow.py:131-136 | a prompt whose lowercase form contains "nsfw", "explicit" or "violent" is refused |
| SiliconFlow.AcceptsOtherwise | backend/app/services/silicon_flow.py:138 | every prompt with stripped length at least 3 and no blocked word in its lowercase form is accepted |
| SiliconFlow.ExtensionStaysBlocked | backend/app/services/silicon_flow.py:131-136 | text appended after a prompt that holds a blocked word never gets it past the filter |
| SiliconFlow.BuildPayload | backend/app/services/silicon_flow.py:57-68 | the payload names the FLUX model and echoes the prompt, size, steps and guidance; the negative prompt is the given one if it is non-empty, else "blurry, low quality, distorted"; `seed` is present exactly when given, with that value |
| SiliconFlow.ImageSourceOf | backend/app/services/silicon_flow.py:81-98 | the image is inline exactly when `data` is a non-empty list whose first element has `b64_json`, and it is then that string. It is at a URL exactly when that first element has no `b64_json` but has `url`, and the URL is that element's `url`; there is no image exactly when `data` is absent or empty, or its first element has neither key |
| SiliconFlow.GenerateImage | backend/app/services/silicon_flow.py:26-123 | a successful generation's metadata echoes the prompt, width, height, steps and guidance of the call |
| SiliconFlow.InlineImageReturned | backend/app/services/silicon_flow.py:81-95 | a reply whose first `data` element carries `b64_json` yields exactly that string as the image, with the call's parameters as metadata |
| SiliconFlow.MissingDataFails | backend/app/services/silicon_flow.py:118-123 | a reply without `data`, or with an empty list, fails with "Image generation failed: No image data in API response" |
| SiliconFlow.AsSynthesizer | backend/app/agent/nodes.py:83-94 | the generator's call posts the payload with its fixed parameters (1024×1024, 30 steps, guidance 7.5, default negative prompt, no seed). An HTTP error or other failure gives that exception's message. An inline image gives the `b64_json` string. A URL gives the image downloaded from the first entry's `url`, or the download's error. A reply without an image gives "Image generation failed: No image data in API response" |
| SiliconFlow.NoDataServiceAlwaysFails | backend/app/services/silicon_flow.py:81-118 | a service none of whose replies carries an image (no `data`, an empty list, or a first entry with neither `b64_json` nor `url`) makes every one of the generator's calls fail with that message |
| Nodes.WithQuality | backend/app/agent/nodes.py:202-209 | after the quality step the prompt is the stripped prompt, followed by the quality suffix exactly when the stripped prompt has no quality keyword in lowercase. It holds a quality keyword in lowercase, and has no whitespace at either end |
| Nodes.EnhancePrompt | backend/app/agent/nodes.py:199-215 | the enhanced prompt starts with the stripped prompt. It is the quality-step prompt, followed by the style suffix exactly when that prompt contains neither "photo" nor "realistic" in lowercase |
| Nodes.EnhancePromptForm | backend/app/agent/nodes.py:199-215 | the enhanced prompt is the stripped prompt followed by no suffix, the quality suffix, the style suffix, or both in that order |
| Nodes.EnhancePromptShape | backend/app/agent/nodes.py:205-213 | the enhanced prompt has no whitespace at either end and, in lowercase, contains a quality keyword and "photo" or "realistic" |
| Nodes.EnhancedFixpoint | backend/app/agent/nodes.py:199-215 | enhancement leaves a string unchanged exactly when it is stripped and, in lowercase, holds a quality keyword and "photo" or "realistic" |
| Nodes.EnhancePromptIdempotent | backend/app/agent/nodes.py:199-215 | enhancing an enhanced prompt returns it unchanged |
| Nodes.EnhanceKeepsBlockedWord | backend/app/agent/nodes.py:199-215 | enhancing a prompt that holds a blocked word yields a prompt the filter still refuses |
| Nodes.KeywordIsLongWord | backend/app/agent/nodes.py:224-225 | since every stop word has at most three characters, a word qualifies exactly when it is longer than 3 |
| Nodes.Keywords | backend/app/agent/nodes.py:221-225 | the filtered list holds only qualifying words, holds every qualifying word of the input, is an order-preserving subsequence of it, and is no longer than it |
| Nodes.KeywordsCounts | backend/app/agent/nodes.py:225 | each qualifying word is kept as many times as it occurs in the input, and no other word is kept |
| Nodes.FirstKeywords | backend/app/agent/nodes.py:225-227 | the result is the prefix of the qualifying words of length min(10, their number); it holds only qualifying words and preserves their order in the input |
| Nodes.ExtractKeywords | backend/app/agent/nodes.py:218-227 | the result has at most 10 words, each longer than 3 characters and not a stop word. It is the prefix of the qualifying words of length min(10, their number), so the first ten are kept, and an order-preserving subsequence of the lowercased, whitespace-split prompt |
| Nodes.ExtractKeywordsComplete | backend/app/agent/nodes.py:218-227 | when the lowercased split prompt has at most ten qualifying words, every one of them is extracted |
| Nodes.AnalyzeImageQuality | backend/app/agent/nodes.py:230-267 | with no image, the result is (0, "No image generated", ["missing_image"]) (lines 239-240). With an image and no optimized prompt, it raises the `len(None)` error. Otherwise the score, in {50, 60, 70, 80}, reaches the threshold iff the prompt has 10 characters or more. It is 80 iff also the count is at most 2, and 50 iff the prompt is short and the count is above 2, so each case has one score. The issues are ["prompt_too_short"] iff the prompt is short and empty otherwise. The feedback is "Excellent…", "Good…" or "Quality needs improvement. Issues: " plus the joined issues, by score |
| Nodes.PlannerNode | backend/app/agent/nodes.py:13-56 | the planner writes the enhanced prompt, status COMPLETED and an analysis: original and optimized lengths, the keywords extracted from the optimized prompt, and the fixed style hints "photorealistic, highly detailed, 4k" |
| Nodes.PlannerUpdate | backend/app/agent/nodes.py:51-56 | the planner's dict carries exactly the optimized prompt, the analysis, the node name and the status |
| Nodes.PlannerWrites | backend/app/agent/nodes.py:51-56 | the planner writes exactly those four keys and no others |
| Nodes.EffectivePrompt | backend/app/agent/nodes.py:76 | the generator's prompt is the optimized prompt when it is present and non-empty, otherwise the original prompt; so it is empty only when the original prompt is |
| Nodes.GeneratorFailure | backend/app/agent/nodes.py:124-128 | the failure dict carries exactly the node name, status FAILED, and "Generation failed: " followed by the cause |
| Nodes.GeneratorNode | backend/app/agent/nodes.py:67-128 | the generator fails exactly when its prompt, the optimized prompt or else the original, is refused by the filter or the service errs. A refused prompt gives "Generation failed: Invalid or inappropriate prompt". A service error gives "Generation failed: " followed by the service's error text. A failure writes no image key. A success writes the service's image, params 1024×1024, 30 steps, guidance 7.5, and COMPLETED |
| Nodes.GeneratorSuccess | backend/app/agent/nodes.py:108-113 | the success dict carries exactly the image, the fixed params, the node name and COMPLETED |
| Nodes.CriticNode | backend/app/agent/nodes.py:131-175 | the critic fails exactly when the analysis raises, and then writes only "Critic failed: " plus the error. Otherwise it writes the score, the feedback and the issues. It writes `should_regenerate` = score < 70 with the count as it was before the critic ran still below the bound, and writes back the count plus one |
| Nodes.CriticFailure | backend/app/agent/nodes.py:169-175 | the critic's failure dict carries exactly the node name, FAILED and the prefixed error |
| Nodes.CriticSuccess | backend/app/agent/nodes.py:159-167 | the critic's success dict carries exactly the seven critic keys with the given values and COMPLETED |
| Nodes.HumanApprovalNode | backend/app/agent/nodes.py:178-194 | approval is granted at once: the node writes exactly `user_approved` = true, `current_node` = "human_approval" and COMPLETED |
| Nodes.CriticLeavesOtherKeys | backend/app/agent/nodes.py:159-167 | a successful critique changes only the critic's keys; the image, the prompts and the inputs are untouched |
| Nodes.MissingImageCritique | backend/app/agent/nodes.py:142-167 | without an image the merged state scores 0 with "No image generated" and ["missing_image"], asks for regeneration exactly while the count from before the critic is below the bound, and counts one more |
| Nodes.CriticFailsWithoutOptimizedPrompt | backend/app/agent/nodes.py:243-250 | with an image but no optimized prompt the critic ends FAILED with the `len(None)` message and leaves the count unchanged (lines 169-175) |
| Nodes.AcceptableScoreStops | backend/app/agent/nodes.py:152 | a score at or above the threshold never asks for regeneration |
| Graph.ShouldContinueGeneration | backend/app/agent/graph.py:16-38 | a FAILED state always ends the run; otherwise the run loops back to the generator exactly when regeneration is asked for and the count is below the bound |
| Graph.RouteApproval | backend/app/agent/graph.py:41-56 | approval is asked for exactly when the switch is on and `user_approved` is not true; otherwise the route goes to the generator |
| Graph.ShouldGetApproval | backend/app/agent/graph.py:51-56 | with the switch fixed off, the planner always routes to the generator, whatever the status |
| Graph.Successor | backend/app/agent/graph.py:86-112 | the critic is reached exactly from the generator. The generator is reached from the planner, from the approval node, and from the critic exactly when the run has not failed, regeneration is asked for and the count is below the bound. END is reached exactly from the critic in the remaining cases. The planner and the approval node are never re-entered |
| Graph.PlannerStep | backend/app/agent/nodes.py:51-56 | after the planner the inputs, the count, the bound and the image are as before |
| Graph.PlannerSetsPrompt | backend/app/agent/nodes.py:22-56 | after the planner the optimized prompt is the enhanced original prompt |
| Graph.GeneratorStep | backend/app/agent/nodes.py:67-128 | after the generator the inputs, the count and the optimized prompt are as before; a failure keeps the old image and stores the failure message; a success stores the service's image |
| Graph.CriticStep | backend/app/agent/nodes.py:131-167 | with the optimized prompt set the analysis cannot raise. The critic then ends COMPLETED, counts one more, stores the score and feedback, and applies the regeneration rule. It keeps the prompt, the image and the error message |
| Graph.CriticCount | backend/app/agent/nodes.py:159-175 | a critic step that does not fail adds one to the count, one that fails leaves it, and the bound never changes |
| Graph.StepDecreases | backend/app/agent/graph.py:89-112 | every node's step either lowers the budget `max_iterations - iteration_count` or keeps it and moves closer to the critic along the edges |
| Graph.GraphProgresses | backend/app/agent/graph.py:78-112 | the registered nodes all make that progress, so the runtime reaches END from every state |
| Graph.Run | backend/app/agent/graph.py:86-112 | a run from END executes nothing. A run from a node executes that node first and the critic last, and it ends in a state the critic's routing sends to END |
| Graph.Execute | backend/app/agent/graph.py:86-112 | the runtime's driver loop, from the planner and a call count of 0, ends in the final state and the node trace that the reference run defines |
| Graph.InitialState | backend/app/agent/graph.py:154-173 | the initial state holds the inputs and the bound as passed, count 0, no regeneration, node "start", status PENDING and every output field absent |
| Graph.AgentResult | backend/app/agent/graph.py:187-195 | with a fault, the outcome is the initial state marked FAILED with the exception's text, every field given: inputs as passed, count 0, no regeneration, node "start", and no prompt, analysis, image, params, score, feedback, issues or approval. Without a fault, it is a final state the critic's routing ends on (the rest is stated by `Graph.AgentOutcome`) |
| Graph.RunAgent | backend/app/agent/graph.py:127-195 | `run_agent` returns the reference outcome: the final state of the graph run, or, when graph execution raises, the initial state marked FAILED with the exception's text (lines 193-194) |
| Graph.PlannerPlans | backend/app/agent/nodes.py:13-56 | the registered planner keeps the inputs, count and image, and sets the optimized prompt to the enhanced original |
| Graph.GeneratorGenerates | backend/app/agent/nodes.py:67-128 | the registered generator, whether it fails or not, keeps the inputs, count and optimized prompt |
| Graph.CriticScores | backend/app/agent/nodes.py:131-167 | the registered critic, on a state with an optimized prompt, keeps the inputs, prompt, image and error, counts one more and ends COMPLETED. It scores in {0, 50, 60, 70, 80}, scores 0 without an image, and applies the regeneration rule |
| Graph.GraphLawsHold | backend/app/agent/graph.py:78-81 | the nodes the graph registers keep all of the guarantees above, whatever the synthesis service answers |
| Graph.GeneratorRefuses | backend/app/agent/nodes.py:76-128 | when the optimized prompt is non-empty and is refused by the filter, or always fails at the service, every generator call fails, keeps the old image and stores a "Generation failed: " message; a filter refusal stores the invalid-prompt message |
| Graph.PassesShape | backend/app/agent/graph.py:99-112 | a trace of n generator-critic passes has 2n nodes: n generators, n critics, no planner and no approval; every generator is followed at once by a critic |
| Graph.PlannerThenPasses | backend/app/agent/graph.py:86-112 | the planner followed by n passes runs the planner once, the generator n times and the critic n times, never runs approval, and every generator is followed at once by a critic |
| Graph.GeneratorCriticPass | backend/app/agent/graph.py:102-112 | a run entered at the generator is one generator step and one critic step followed by the run the critic's routing chooses |
| Graph.LoopRun | backend/app/agent/graph.py:102-112 | the loop makes n ≥ 1 passes and its trace is exactly those passes. The count grows by n. The run ends COMPLETED with a score in {0, 50, 60, 70, 80}, inputs and prompt kept. It stops only with the count at the bound or a score at the threshold, and it passes the bound only on its first pass |
| Graph.LowScoreLoop | backend/app/agent/graph.py:33-38 | when every critique scores below the threshold the loop runs until the count reaches the bound, or for one pass if the count already started at or above it |
| Graph.RefusedLoop | backend/app/agent/graph.py:102-112 | when the generator refuses the prompt and there is no image to begin with, no image ever appears. Every score is 0, the count reaches the bound, and a "Generation failed: " message is left in the state |
| Graph.RunFromStart | backend/app/agent/graph.py:86-112 | a run with the count starting at 0 has trace planner then n passes. Its count is n, with 1 ≤ n ≤ bound for a bound of at least 1, and n = 1 for a bound of at most 1. It ends COMPLETED with the enhanced prompt, inputs kept and a score in 0..100. It stops with the bound reached or a score at the threshold |
| Graph.EnhancedNonEmpty | backend/app/agent/nodes.py:199-215 | the enhanced prompt is never empty |
| Graph.RefusedFromStart | backend/app/agent/graph.py:86-112 | a run that starts at count 0 with no image, on a prompt the generator refuses, ends COMPLETED. The image is still absent, the score is 0, the count is at the bound (1 for a bound below 1), and the failure message is stored |
| Graph.RefusedRun | backend/app/agent/graph.py:127-185 | `run_agent` on a prompt whose enhancement is refused by the filter, or always fails at the service, ends COMPLETED with no image, score 0 and the count at the bound, and stores a generation failure's message |
| Graph.BlockedPromptRun | backend/app/agent/nodes.py:79-80 | a prompt holding a blocked word makes `run_agent` end COMPLETED with no image, score 0, the count at the bound and "Generation failed: Invalid or inappropriate prompt" |
| Graph.NoImageServiceRun | backend/app/services/silicon_flow.py:81-123 | a service none of whose replies carries an image (no `data`, an empty list, or a first entry with neither key) makes `run_agent` end COMPLETED with no image, score 0, the count at the bound and a generation failure's message |
| Graph.WithinRecursionLimit | backend/app/agent/graph.py:175-185 | for a bound of at most 12, which includes the 1..5 the API accepts, a run executes at most 25 nodes, LangGraph's default limit |
| Graph.BlockedRunExceedsRecursionLimit | backend/app/agent/graph.py:175-195 | a blocked prompt with a bound above 12 makes the run execute 1 + 2 × bound nodes, more than that limit |
| Graph.AgentOutcome | backend/app/agent/graph.py:175-195 | `run_agent` ends FAILED exactly when graph execution raised. It then returns the exception's text, count 0 and no image. Otherwise the count is in 1..bound (1 for a bound below 1), the prompt is enhanced, and the bound and task id are as passed |
| Routes.CheckGenerate | backend/app/api/v1_routes.py:19-24 | a request passes exactly when the prompt has 3..1000 characters and any given `max_iterations` is in 1..5; the bound is then the given one or 3; a failure is a 422 |
| Routes.CheckFeedback | backend/app/api/v1_routes.py:46-50 | a rating passes exactly when it lies in 0.0..1.0, else 422 |
| Routes.Settled | backend/app/api/v1_routes.py:225-244 | a FAILED final state writes failed/0/error with the state's error message and keeps the result fields. Any other final state writes completed/100/done and copies the image, feedback, score and count. The id and creation time are kept |
| Routes.NewTask | backend/app/api/v1_routes.py:83-93 | a new entry is filed with its id and creation time, pending, at 0%, "initializing", with no image, feedback, error, score or count |
| Routes.Started | backend/app/api/v1_routes.py:211-215 | the running mark sets running/10/"planning" and keeps every other field |
| Routes.TaskStore.constructor | backend/app/api/v1_routes.py:54 | the store starts empty |
| Routes.TaskStore.Generate | backend/app/api/v1_routes.py:61-124 | out-of-bounds fields give the 422, and a stripped prompt under 3 characters gives the 400; neither touches the store. Otherwise exactly one entry is added at the fresh id: pending, 0%, "initializing", no results. The response is "accepted" and the queued job carries the prompt, reference and bound |
| Routes.TaskStore.GetStatus | backend/app/api/v1_routes.py:127-148 | an absent id gives the 404; otherwise the response carries the requested id and every response field equals the stored field, with the status as its string value |
| Routes.TaskStore.SubmitFeedback | backend/app/api/v1_routes.py:151-172 | an out-of-range rating gives the 422, and then an absent id gives the 404; otherwise the reply acknowledges the id; the store is never modified |
| Routes.TaskStore.DeleteTask | backend/app/api/v1_routes.py:175-183 | an absent id gives the 404 and leaves the store unchanged; otherwise exactly that key is removed and every other entry is kept |
| Routes.TaskStore.HealthCheck | backend/app/api/v1_routes.py:186-193 | the report is healthy, with the timestamp and the number of entries as the active tasks |
| Routes.TaskStore.BeginRun | backend/app/api/v1_routes.py:209-215 | the entry is marked running/10/"planning" with the rest kept; a deleted id raises and the store is unchanged (lines 250-257) |
| Routes.TaskStore.RecordOutcome | backend/app/api/v1_routes.py:225-244 | the entry becomes the settled record for the final state; a deleted id leaves the store unchanged |
| Routes.TaskStore.ExecuteWorkflow | backend/app/api/v1_routes.py:198-257 | a queued task's entry becomes the settled record of `run_agent`'s outcome, after the running mark; no other entry changes, and a deleted task changes nothing |
| Routes.TaskOutcome | backend/app/api/v1_routes.py:198-257 | an accepted task settles as failed exactly when graph execution raised, with the exception's text and progress 0. Otherwise it settles as completed at 100% with a count in 1..bound |
| Routes.BlockedTaskCompletes | backend/app/api/v1_routes.py:236-244 | a task whose prompt holds a blocked word is reported completed at 100%/"done" with no image, no error, a score of 0 and the bound's worth of iterations |

## Left out

- HTTP and network I/O of `silicon_flow.py` are not modelled: the POST, its timeout, the download of an image URL and the PIL re-encode to PNG base64. The transport is a function parameter returning an HTTP error, another failure, a decoded reply or downloaded base64 text.
- The API key and headers of `SiliconFlowService` are not modelled; they only reach the network.
- The monitoring wrapper (`monitor.py`) is treated as disabled, so every monitoring call is a no-op. `GenerateRequest.enable_monitoring` therefore has no effect and is not modelled.
- Concurrency is not modelled: `async`/`await`, FastAPI `BackgroundTasks`, and interleaving between a running workflow and the endpoints. Each endpoint and each workflow runs sequentially. A delete between the running mark and the final write is covered only as a task already gone when its job starts.
- The LangGraph library itself is not modelled. `StateGraph`, `compile` and `ainvoke` are replaced by their semantics: merge the node's update, then follow the edges.
- Graph.AgentResult: without a fault it gives the run's final state even when that run exceeds LangGraph's recursion limit (25 node executions by default). A run of n passes executes 1 + 2n nodes. That stays within the limit for a bound up to 12 (`Graph.WithinRecursionLimit`), which covers the 1..5 the API accepts. A larger bound passed straight to `run_agent` can exceed it (`Graph.BlockedRunExceedsRecursionLimit`). LangGraph then raises, and `run_agent` returns the FAILED initial state. The model reaches that outcome only through the `fault` parameter, so `Graph.RefusedRun`, `Graph.BlockedPromptRun`, `Graph.NoImageServiceRun` and `Graph.AgentOutcome` describe such a bound as if the limit did not exist.
- `uuid4` ids and `datetime.now()` timestamps are parameters. `Routes.TaskStore.Generate` files the entry under the id it is given, and overwrites nothing only when that id is fresh, as a `uuid4` is.
- Floating point is not modelled: scores and ratings are integer hundredths, and guidance is 75 tenths. A feedback rating finer than a hundredth is out of scope.
- Text.Lower: lowercases ASCII letters only, because Python's full Unicode case mapping is out of scope. The blocked and quality words are ASCII, but a non-ASCII letter can still lower into them or change a word's length. For example, U+212A KELVIN SIGN lowers to 'k', so Python finds "4k" in "4\u212a" where the model does not. U+0130 lowers to two characters, which can change the `len(word) > 3` test of `extract_keywords`. The model's keyword, blocked-word and quality tests treat such letters as themselves.
- The planner's `except` branch (nodes.py lines 58-64) is not modelled: `enhance_prompt` and `extract_keywords` cannot raise on a string.
- The `.get` defaults in `should_continue_generation` (False, 0, 3) and in `execute_agent_workflow` ("Unknown error", 0) are read as plain fields: the state `run_agent` builds always holds every key.
- The 500 path of `generate_image` (lines 123-124) is not modelled: no statement in its `try` can raise there in this model.
- Routes.CheckGenerate: a 422's detail is the name of the first failing field, not FastAPI's full validation body.
- Graph.RunFromStart: the number of planner, generator and critic executions in its trace is stated by Graph.PlannerThenPasses for the same trace, not repeated in its own contract.
- `backend/app/main.py` (app wiring, CORS, the global exception handler), the frontend, `test_api.py` and all `print` logging are not part of this model.
