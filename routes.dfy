/**
 * The REST layer's task registry (backend/app/api/v1_routes.py): the
 * request bounds the request models declare, the module-level
 * `tasks_store` dict and the endpoints that read and change it, and the
 * background workflow that runs the agent and records its outcome.
 *
 * Scores and ratings are integer hundredths, as in the rest of the model.
 */
module Routes {
  import opened Wrappers
  import opened Text
  import opened State
  import Nodes
  import SiliconFlow
  import Graph

  /** An `HTTPException`, or FastAPI's validation response: the status code and the detail. */
  datatype ApiError = ApiError(statusCode: nat, detail: string)

  /** The status FastAPI answers with when a request model's field bounds fail. */
  const Unprocessable := 422

  const NotFound := ApiError(404, "Task not found")
  const PromptTooShort := ApiError(400, "Prompt must be at least 3 characters long")

  // ---------------------------------------------------------------- request models

  /** `GenerateRequest`; an omitted `max_iterations` is `None`. */
  datatype GenerateRequest = GenerateRequest(prompt: string, referenceImage: Option<string>, maxIterations: Option<int>)

  /** `FeedbackRequest`; the rating is in hundredths. */
  datatype FeedbackRequest = FeedbackRequest(taskId: string, rating: int, comment: Option<string>)

  const PromptMinLength := 3
  const PromptMaxLength := 1000
  const IterationsLow := 1
  const IterationsHigh := 5
  const DefaultIterations := 3

  /** A work item for the background runner: what `execute_agent_workflow` is called with. */
  datatype Job = Job(taskId: string, prompt: string, referenceImage: Option<string>, maxIterations: int)

  /** `GenerateRequest`'s field bounds; the detail names the first field out of bounds. */
  function CheckGenerate(req: GenerateRequest): (r: Result<int, ApiError>)
    ensures r.Ok? <==> && PromptMinLength <= |req.prompt| <= PromptMaxLength
                       && (req.maxIterations.Some? ==> IterationsLow <= req.maxIterations.value <= IterationsHigh)
    ensures r.Ok? ==> r.value == req.maxIterations.GetOr(DefaultIterations) && IterationsLow <= r.value <= IterationsHigh
    ensures r.Err? ==> r.error.statusCode == Unprocessable
  {
    if !(PromptMinLength <= |req.prompt| <= PromptMaxLength) then Err(ApiError(Unprocessable, "prompt"))
    else
      var n := req.maxIterations.GetOr(DefaultIterations);
      if !(IterationsLow <= n <= IterationsHigh) then Err(ApiError(Unprocessable, "max_iterations"))
      else Ok(n)
  }

  /** `FeedbackRequest`'s field bounds: a rating in 0.0..1.0. */
  function CheckFeedback(req: FeedbackRequest): (r: Option<ApiError>)
    ensures r.None? <==> 0 <= req.rating <= 100
    ensures r.Some? ==> r.value.statusCode == Unprocessable
  {
    if 0 <= req.rating <= 100 then None else Some(ApiError(Unprocessable, "rating"))
  }

  // ---------------------------------------------------------------- the store

  /** A `tasks_store` entry; `iterationCount` is absent until a run completes. */
  datatype TaskRecord = TaskRecord(
    taskId: string,
    status: NodeStatus,
    progress: int,
    currentStep: string,
    generatedImage: Option<string>,
    feedback: Option<string>,
    error: Option<string>,
    qualityScore: Option<int>,
    createdAt: string,
    iterationCount: Option<int>)

  /** The entry `generate_image` creates. */
  function NewTask(taskId: string, createdAt: string): (t: TaskRecord)
    ensures t.taskId == taskId && t.createdAt == createdAt
    ensures t.status == Pending && t.progress == 0 && t.currentStep == "initializing"
    ensures t.generatedImage.None? && t.feedback.None? && t.error.None? && t.qualityScore.None?
    ensures t.iterationCount.None?
  {
    TaskRecord(taskId, Pending, 0, "initializing", None, None, None, None, createdAt, None)
  }

  /** The first write of `execute_agent_workflow`. */
  function Started(t: TaskRecord): (r: TaskRecord)
    ensures r.status == Running && r.progress == 10 && r.currentStep == "planning"
    ensures r.taskId == t.taskId && r.createdAt == t.createdAt
    ensures r.generatedImage == t.generatedImage && r.feedback == t.feedback && r.error == t.error
    ensures r.qualityScore == t.qualityScore && r.iterationCount == t.iterationCount
  {
    t.(status := Running, progress := 10, currentStep := "planning")
  }

  /**
   * The final write of `execute_agent_workflow` for the state `run_agent`
   * returned. The `"Unknown error"` and `0` defaults of its `.get` calls never
   * apply: the state always holds both keys.
   */
  function Settled(t: TaskRecord, final: AgentState): (r: TaskRecord)
    ensures r.taskId == t.taskId && r.createdAt == t.createdAt
    ensures r.status == Failed <==> final.nodeStatus == Failed
    ensures r.status == Failed || r.status == Completed
    ensures r.status == Failed ==>
              && r.progress == 0 && r.currentStep == "error" && r.error == final.errorMessage
              && r.generatedImage == t.generatedImage && r.qualityScore == t.qualityScore
              && r.feedback == t.feedback && r.iterationCount == t.iterationCount
    ensures r.status == Completed ==>
              && r.progress == 100 && r.currentStep == "done" && r.error == t.error
              && r.generatedImage == final.generatedImage && r.feedback == final.feedback
              && r.qualityScore == final.qualityScore && r.iterationCount == Some(final.iterationCount)
  {
    if final.nodeStatus == Failed then
      t.(status := Failed, progress := 0, currentStep := "error", error := final.errorMessage)
    else
      t.(status := Completed, progress := 100, currentStep := "done", generatedImage := final.generatedImage,
         feedback := final.feedback, qualityScore := final.qualityScore,
         iterationCount := Some(final.iterationCount))
  }

  /** `StatusResponse`. */
  datatype StatusResponse = StatusResponse(
    taskId: string,
    status: string,
    progress: int,
    currentStep: string,
    generatedImage: Option<string>,
    feedback: Option<string>,
    error: Option<string>,
    qualityScore: Option<int>)

  /** `GenerateResponse`. */
  datatype GenerateResponse = GenerateResponse(taskId: string, status: string, message: string)

  const StartedMessage := "Image generation started. Use /status endpoint to check progress."

  /** What `health_check` reports. */
  datatype Health = Health(status: string, timestamp: string, activeTasks: nat)

  /** The module-level `tasks_store` dict. */
  class TaskStore {
    var tasks: map<string, TaskRecord>

    /** Every entry is filed under its own id, with a progress in 0..100. */
    predicate Valid()
      reads this
    {
      forall id :: id in tasks ==> tasks[id].taskId == id && 0 <= tasks[id].progress <= 100
    }

    constructor ()
      ensures tasks == map[] && Valid()
    {
      tasks := map[];
    }

    /**
     * `POST /generate`: the request bounds (422), then the stripped-length
     * check (400); otherwise the entry is filed under `taskId`, a fresh
     * `uuid4` in the source, and the job is handed to the background runner.
     */
    method Generate(req: GenerateRequest, taskId: string, createdAt: string)
      returns (r: Result<(GenerateResponse, Job), ApiError>)
      requires Valid()
      modifies this
      ensures Valid()
      ensures CheckGenerate(req).Err? ==> r == Err(CheckGenerate(req).error)
      ensures CheckGenerate(req).Ok? && |Strip(req.prompt)| < PromptMinLength ==> r == Err(PromptTooShort)
      ensures r.Err? ==> tasks == old(tasks)
      ensures r.Ok? <==> CheckGenerate(req).Ok? && |Strip(req.prompt)| >= PromptMinLength
      ensures r.Ok? && taskId !in old(tasks) ==> |tasks| == |old(tasks)| + 1
      ensures r.Ok? ==>
                && tasks == old(tasks)[taskId := NewTask(taskId, createdAt)]
                && r.value.0 == GenerateResponse(taskId, "accepted", StartedMessage)
                && r.value.1 == Job(taskId, req.prompt, req.referenceImage, CheckGenerate(req).value)
    {
      var checked := CheckGenerate(req);
      if checked.Err? {
        return Err(checked.error);
      }
      if |Strip(req.prompt)| < PromptMinLength {
        return Err(PromptTooShort);
      }
      tasks := tasks[taskId := NewTask(taskId, createdAt)];
      r := Ok((GenerateResponse(taskId, "accepted", StartedMessage),
               Job(taskId, req.prompt, req.referenceImage, checked.value)));
    }

    /** `GET /status/{task_id}`: 404 for an unknown id, otherwise the stored fields. */
    method GetStatus(taskId: string) returns (r: Result<StatusResponse, ApiError>)
      requires Valid()
      ensures r.Err? <==> taskId !in tasks
      ensures r.Ok? ==> r.value.taskId == taskId
      ensures r.Err? ==> r.error == NotFound
      ensures r.Ok? ==>
                var t := tasks[taskId];
                && r.value.taskId == t.taskId && r.value.status == t.status.Value()
                && r.value.progress == t.progress && r.value.currentStep == t.currentStep
                && r.value.generatedImage == t.generatedImage && r.value.feedback == t.feedback
                && r.value.error == t.error && r.value.qualityScore == t.qualityScore
    {
      if taskId !in tasks {
        return Err(NotFound);
      }
      var t := tasks[taskId];
      r := Ok(StatusResponse(t.taskId, t.status.Value(), t.progress, t.currentStep,
                             t.generatedImage, t.feedback, t.error, t.qualityScore));
    }

    /** `POST /feedback`: the rating bounds (422), then 404 for an unknown id; the store is only read. */
    method SubmitFeedback(req: FeedbackRequest) returns (r: Result<(string, string), ApiError>)
      ensures CheckFeedback(req).Some? ==> r == Err(CheckFeedback(req).value)
      ensures CheckFeedback(req).None? && req.taskId !in tasks ==> r == Err(NotFound)
      ensures r.Ok? <==> CheckFeedback(req).None? && req.taskId in tasks
      ensures r.Ok? ==> r.value == ("Feedback received", req.taskId)
    {
      var bad := CheckFeedback(req);
      if bad.Some? {
        return Err(bad.value);
      }
      if req.taskId !in tasks {
        return Err(NotFound);
      }
      r := Ok(("Feedback received", req.taskId));
    }

    /** `DELETE /task/{task_id}`: 404 and no change for an unknown id, otherwise exactly that entry goes. */
    method DeleteTask(taskId: string) returns (r: Result<string, ApiError>)
      requires Valid()
      modifies this
      ensures Valid()
      ensures r.Err? <==> taskId !in old(tasks)
      ensures r.Err? ==> r.error == NotFound && tasks == old(tasks)
      ensures r.Ok? ==> r.value == "Task deleted successfully" && tasks == old(tasks) - {taskId}
    {
      if taskId !in tasks {
        return Err(NotFound);
      }
      tasks := tasks - {taskId};
      r := Ok("Task deleted successfully");
    }

    /** `GET /health`. */
    method HealthCheck(timestamp: string) returns (h: Health)
      ensures h == Health("healthy", timestamp, |tasks|)
    {
      h := Health("healthy", timestamp, |tasks|);
    }

    /**
     * `execute_agent_workflow`'s first write. For an id no longer in the
     * store (deleted while queued) the `update` raises `KeyError`, the
     * handler's own `update` raises again, and nothing is written.
     */
    method BeginRun(taskId: string)
      requires Valid()
      modifies this
      ensures Valid()
      ensures taskId in old(tasks) ==> tasks == old(tasks)[taskId := Started(old(tasks)[taskId])]
      ensures taskId !in old(tasks) ==> tasks == old(tasks)
    {
      if taskId in tasks {
        tasks := tasks[taskId := Started(tasks[taskId])];
      }
    }

    /** `execute_agent_workflow`'s final write, for the state `run_agent` returned. */
    method RecordOutcome(taskId: string, final: AgentState)
      requires Valid()
      modifies this
      ensures Valid()
      ensures taskId in old(tasks) ==> tasks == old(tasks)[taskId := Settled(old(tasks)[taskId], final)]
      ensures taskId !in old(tasks) ==> tasks == old(tasks)
    {
      if taskId in tasks {
        tasks := tasks[taskId := Settled(tasks[taskId], final)];
      }
    }

    /**
     * `execute_agent_workflow`: mark the entry running, run the agent, record
     * the outcome. `timestamp`, `synth` and `fault` stand for the clock, the
     * synthesis service and an exception out of graph execution, as in
     * `Graph.AgentResult`.
     */
    method ExecuteWorkflow(job: Job, timestamp: string, synth: Nodes.Synthesizer, fault: Option<string>)
      requires Valid()
      modifies this
      ensures Valid()
      ensures var final := Graph.AgentResult(job.prompt, job.taskId, job.referenceImage, job.maxIterations,
                                             timestamp, synth, fault);
              && (job.taskId in old(tasks) ==>
                    tasks == old(tasks)[job.taskId := Settled(Started(old(tasks)[job.taskId]), final)])
              && (job.taskId !in old(tasks) ==> tasks == old(tasks))
    {
      BeginRun(job.taskId);
      var final := Graph.RunAgent(job.prompt, job.taskId, job.referenceImage, job.maxIterations,
                                  timestamp, synth, fault);
      RecordOutcome(job.taskId, final);
    }
  }

  // ---------------------------------------------------------------- task lifecycle

  /** The entry of an accepted task after its run, as a function of the run's inputs. */
  function Lifecycle(job: Job, createdAt: string, timestamp: string, synth: Nodes.Synthesizer,
                     fault: Option<string>): TaskRecord
  {
    Settled(Started(NewTask(job.taskId, createdAt)),
            Graph.AgentResult(job.prompt, job.taskId, job.referenceImage, job.maxIterations, timestamp, synth, fault))
  }

  /**
   * A task settles as failed exactly when graph execution raised, and then
   * carries the exception's text; otherwise it settles as completed with the
   * iteration count in 1..max(1, bound).
   */
  lemma TaskOutcome(job: Job, createdAt: string, timestamp: string, synth: Nodes.Synthesizer, fault: Option<string>)
    ensures var t := Lifecycle(job, createdAt, timestamp, synth, fault);
            && t.taskId == job.taskId
            && (t.status == Failed <==> fault.Some?)
            && (fault.Some? ==> t.error == fault && t.progress == 0)
            && (fault.None? ==>
                  && t.status == Completed && t.progress == 100
                  && t.iterationCount.Some? && 1 <= t.iterationCount.value
                  && (job.maxIterations >= 1 ==> t.iterationCount.value <= job.maxIterations))
  {
    Graph.AgentOutcome(job.prompt, job.taskId, job.referenceImage, job.maxIterations, timestamp, synth, fault);
  }

  /**
   * A task whose prompt holds a blocked word is reported completed, at 100%,
   * with no image, a score of 0 and the bound's worth of iterations.
   */
  lemma BlockedTaskCompletes(job: Job, createdAt: string, timestamp: string, synth: Nodes.Synthesizer, k: nat)
    requires k < |SiliconFlow.BlockedWords| && Contains(Lower(job.prompt), SiliconFlow.BlockedWords[k])
    ensures var t := Lifecycle(job, createdAt, timestamp, synth, None);
            && t.status == Completed && t.progress == 100 && t.currentStep == "done"
            && t.generatedImage.None? && t.qualityScore == Some(0) && t.error.None?
            && t.iterationCount == Some(Graph.FullCount(0, job.maxIterations))
  {
    Graph.BlockedPromptRun(job.prompt, job.taskId, job.referenceImage, job.maxIterations, timestamp, synth, k);
  }
}
