/**
 * The workflow state threaded through the graph (the `AgentState` record of
 * backend/app/agent/state.py), the partial update a node returns, and the
 * merge the graph runtime performs: every key present in the update
 * overwrites the state's value, every other key keeps its value.
 *
 * Quality scores are integer hundredths: 0.7 is 70.
 */
module State {
  import opened Wrappers

  /** The `NodeStatus` string enum. */
  datatype NodeStatus = Pending | Running | Completed | Failed {
    /** The enum's string value. */
    function Value(): string {
      match this
      case Pending => "pending"
      case Running => "running"
      case Completed => "completed"
      case Failed => "failed"
    }
  }

  /** The four statuses have four distinct string values, and those are all the statuses. */
  lemma NodeStatusValues(n: NodeStatus, m: NodeStatus)
    ensures n in {Pending, Running, Completed, Failed}
    ensures n.Value() in {"pending", "running", "completed", "failed"}
    ensures n.Value() == m.Value() <==> n == m
  {
  }

  /** The planner's `analysis` dict. */
  datatype PromptAnalysis = PromptAnalysis(
    originalLength: nat,
    optimizedLength: nat,
    keywordsAdded: seq<string>,
    styleHints: string)

  /** The generator's `params` dict; guidance is in tenths (7.5 is 75). */
  datatype GenerationParams = GenerationParams(
    width: int,
    height: int,
    numInferenceSteps: int,
    guidanceTenths: int)

  /** `AgentState`: every key is always present; `Optional[...]` keys may hold `None`. */
  datatype AgentState = AgentState(
    originalPrompt: string,
    referenceImage: Option<string>,
    optimizedPrompt: Option<string>,
    promptAnalysis: Option<PromptAnalysis>,
    generatedImage: Option<string>,
    generationParams: Option<GenerationParams>,
    qualityScore: Option<int>,
    feedback: Option<string>,
    issuesFound: Option<seq<string>>,
    iterationCount: int,
    maxIterations: int,
    shouldRegenerate: bool,
    currentNode: string,
    nodeStatus: NodeStatus,
    errorMessage: Option<string>,
    taskId: string,
    timestamp: string,
    userApproved: Option<bool>)

  /** A quality score, when present, lies in 0.0..1.0. */
  predicate ScoreInRange(s: AgentState) {
    s.qualityScore.Some? ==> 0 <= s.qualityScore.value <= 100
  }

  /** The keys of `AgentState`. */
  datatype Key =
    | OriginalPromptKey | ReferenceImageKey | OptimizedPromptKey | PromptAnalysisKey
    | GeneratedImageKey | GenerationParamsKey | QualityScoreKey | FeedbackKey
    | IssuesFoundKey | IterationCountKey | MaxIterationsKey | ShouldRegenerateKey
    | CurrentNodeKey | NodeStatusKey | ErrorMessageKey | TaskIdKey | TimestampKey
    | UserApprovedKey

  /**
   * The dict a node returns: `Some(v)` is a key present with value `v`,
   * `None` a key absent from the dict. No node writes the input keys
   * (prompt, reference image, bound, id, timestamp), so they have no slot.
   */
  datatype Update = Update(
    optimizedPrompt: Option<string>,
    promptAnalysis: Option<PromptAnalysis>,
    generatedImage: Option<string>,
    generationParams: Option<GenerationParams>,
    qualityScore: Option<int>,
    feedback: Option<string>,
    issuesFound: Option<seq<string>>,
    iterationCount: Option<int>,
    shouldRegenerate: Option<bool>,
    currentNode: Option<string>,
    nodeStatus: Option<NodeStatus>,
    errorMessage: Option<string>,
    userApproved: Option<bool>)

  const EmptyUpdate := Update(None, None, None, None, None, None, None, None, None, None, None, None, None)

  /** The keys present in an update dict. */
  function Keys(u: Update): set<Key> {
    (if u.optimizedPrompt.Some? then {OptimizedPromptKey} else {})
    + (if u.promptAnalysis.Some? then {PromptAnalysisKey} else {})
    + (if u.generatedImage.Some? then {GeneratedImageKey} else {})
    + (if u.generationParams.Some? then {GenerationParamsKey} else {})
    + (if u.qualityScore.Some? then {QualityScoreKey} else {})
    + (if u.feedback.Some? then {FeedbackKey} else {})
    + (if u.issuesFound.Some? then {IssuesFoundKey} else {})
    + (if u.iterationCount.Some? then {IterationCountKey} else {})
    + (if u.shouldRegenerate.Some? then {ShouldRegenerateKey} else {})
    + (if u.currentNode.Some? then {CurrentNodeKey} else {})
    + (if u.nodeStatus.Some? then {NodeStatusKey} else {})
    + (if u.errorMessage.Some? then {ErrorMessageKey} else {})
    + (if u.userApproved.Some? then {UserApprovedKey} else {})
  }

  /** `s` and `t` hold the same value at key `k`. */
  predicate SameAt(s: AgentState, t: AgentState, k: Key) {
    match k
    case OriginalPromptKey => s.originalPrompt == t.originalPrompt
    case ReferenceImageKey => s.referenceImage == t.referenceImage
    case OptimizedPromptKey => s.optimizedPrompt == t.optimizedPrompt
    case PromptAnalysisKey => s.promptAnalysis == t.promptAnalysis
    case GeneratedImageKey => s.generatedImage == t.generatedImage
    case GenerationParamsKey => s.generationParams == t.generationParams
    case QualityScoreKey => s.qualityScore == t.qualityScore
    case FeedbackKey => s.feedback == t.feedback
    case IssuesFoundKey => s.issuesFound == t.issuesFound
    case IterationCountKey => s.iterationCount == t.iterationCount
    case MaxIterationsKey => s.maxIterations == t.maxIterations
    case ShouldRegenerateKey => s.shouldRegenerate == t.shouldRegenerate
    case CurrentNodeKey => s.currentNode == t.currentNode
    case NodeStatusKey => s.nodeStatus == t.nodeStatus
    case ErrorMessageKey => s.errorMessage == t.errorMessage
    case TaskIdKey => s.taskId == t.taskId
    case TimestampKey => s.timestamp == t.timestamp
    case UserApprovedKey => s.userApproved == t.userApproved
  }

  /** Every key outside `written` holds the same value in `s` and `t`. */
  predicate UnchangedExcept(s: AgentState, t: AgentState, written: set<Key>) {
    forall k: Key :: k !in written ==> SameAt(s, t, k)
  }

  /** The runtime's merge of a node's update dict over the state. */
  function Merge(s: AgentState, u: Update): (r: AgentState)
    ensures r.originalPrompt == s.originalPrompt && r.referenceImage == s.referenceImage
    ensures r.maxIterations == s.maxIterations && r.taskId == s.taskId && r.timestamp == s.timestamp
    ensures u.optimizedPrompt.Some? ==> r.optimizedPrompt == u.optimizedPrompt
    ensures u.promptAnalysis.Some? ==> r.promptAnalysis == u.promptAnalysis
    ensures u.generatedImage.Some? ==> r.generatedImage == u.generatedImage
    ensures u.generationParams.Some? ==> r.generationParams == u.generationParams
    ensures u.qualityScore.Some? ==> r.qualityScore == u.qualityScore
    ensures u.feedback.Some? ==> r.feedback == u.feedback
    ensures u.issuesFound.Some? ==> r.issuesFound == u.issuesFound
    ensures u.iterationCount.Some? ==> r.iterationCount == u.iterationCount.value
    ensures u.shouldRegenerate.Some? ==> r.shouldRegenerate == u.shouldRegenerate.value
    ensures u.currentNode.Some? ==> r.currentNode == u.currentNode.value
    ensures u.nodeStatus.Some? ==> r.nodeStatus == u.nodeStatus.value
    ensures u.errorMessage.Some? ==> r.errorMessage == u.errorMessage
    ensures u.userApproved.Some? ==> r.userApproved == u.userApproved
  {
    AgentState(
      s.originalPrompt,
      s.referenceImage,
      u.optimizedPrompt.Or(s.optimizedPrompt),
      u.promptAnalysis.Or(s.promptAnalysis),
      u.generatedImage.Or(s.generatedImage),
      u.generationParams.Or(s.generationParams),
      u.qualityScore.Or(s.qualityScore),
      u.feedback.Or(s.feedback),
      u.issuesFound.Or(s.issuesFound),
      u.iterationCount.GetOr(s.iterationCount),
      s.maxIterations,
      u.shouldRegenerate.GetOr(s.shouldRegenerate),
      u.currentNode.GetOr(s.currentNode),
      u.nodeStatus.GetOr(s.nodeStatus),
      u.errorMessage.Or(s.errorMessage),
      s.taskId,
      s.timestamp,
      u.userApproved.Or(s.userApproved))
  }

  /** Merging changes exactly the keys the update carries, no others. */
  lemma MergeFrame(s: AgentState, u: Update)
    ensures UnchangedExcept(s, Merge(s, u), Keys(u))
  {
    var t := Merge(s, u);
    forall k: Key | k !in Keys(u) ensures SameAt(s, t, k) {
    }
  }
}
