/**
 * The workflow graph (backend/app/agent/graph.py): the two routing
 * functions, the fixed edges, the runtime that executes the graph (a node's
 * update dict is merged over the state, then the edges pick the next node),
 * and `run_agent`, which builds the initial state and falls back to it when
 * graph execution raises.
 */
module Graph {
  import opened Wrappers
  import opened Text
  import opened State
  import opened Nodes
  import SiliconFlow

  datatype Step = Planner | HumanApproval | Generator | Critic

  /** Where control goes next: a node, or the graph's END. */
  datatype Target = Goto(step: Step) | End

  // ---------------------------------------------------------------- routing

  /** `should_continue_generation`: stop on a failure; loop back only while regeneration is asked for and the bound allows. */
  function ShouldContinueGeneration(s: AgentState): (t: Target)
    ensures s.nodeStatus == Failed ==> t == End
    ensures t == Goto(Generator) <==> s.nodeStatus != Failed && s.shouldRegenerate && s.iterationCount < s.maxIterations
    ensures t == Goto(Generator) || t == End
  {
    if s.nodeStatus == Failed then End
    else if s.shouldRegenerate && s.iterationCount < s.maxIterations then Goto(Generator)
    else End
  }

  /** The human-in-the-loop switch of `should_get_approval`, fixed off. */
  const HumanInLoopEnabled := false

  /** `should_get_approval` for either setting of the switch: approval is asked for unless `user_approved` is truthy. */
  function RouteApproval(enabled: bool, s: AgentState): (t: Target)
    ensures t == Goto(HumanApproval) <==> enabled && s.userApproved != Some(true)
    ensures t == Goto(HumanApproval) || t == Goto(Generator)
  {
    if enabled && s.userApproved != Some(true) then Goto(HumanApproval) else Goto(Generator)
  }

  /** `should_get_approval` as shipped: with the switch off it always goes to the generator, whatever the status. */
  function ShouldGetApproval(s: AgentState): (t: Target)
    ensures t == Goto(Generator)
  {
    RouteApproval(HumanInLoopEnabled, s)
  }

  /**
   * The edges of `create_agent_graph`, read after the node has run: the
   * critic is reached only from the generator, END only from the critic, and
   * neither the planner nor the approval node is ever re-entered.
   */
  function Successor(step: Step, s: AgentState): (t: Target)
    ensures t == Goto(Critic) <==> step == Generator
    ensures t == Goto(Generator) <==>
              || step == Planner || step == HumanApproval
              || (step == Critic && s.nodeStatus != Failed && s.shouldRegenerate && s.iterationCount < s.maxIterations)
    ensures t == End <==>
              step == Critic && (s.nodeStatus == Failed || !s.shouldRegenerate || s.iterationCount >= s.maxIterations)
    ensures t != Goto(Planner) && t != Goto(HumanApproval)
  {
    match step
    case Planner => ShouldGetApproval(s)
    case HumanApproval => Goto(Generator)
    case Generator => Goto(Critic)
    case Critic => ShouldContinueGeneration(s)
  }

  /** The node bound to each step; `calls` numbers the generator's calls to the synthesis collaborator. */
  function StepUpdate(step: Step, s: AgentState, synth: Synthesizer, calls: nat): Update {
    match step
    case Planner => PlannerNode(s)
    case HumanApproval => HumanApprovalNode(s)
    case Generator => GeneratorNode(s, synth, calls)
    case Critic => CriticNode(s)
  }

  // ---------------------------------------------------------------- termination

  /** The regeneration budget `max_iterations - iteration_count`, floored at 0. */
  function Budget(s: AgentState): nat {
    if s.iterationCount < s.maxIterations then s.maxIterations - s.iterationCount else 0
  }

  /** The distance to the critic along the fixed edges. */
  function Rank(at: Target): nat {
    match at
    case End => 0
    case Goto(Critic) => 1
    case Goto(Generator) => 2
    case Goto(HumanApproval) => 3
    case Goto(Planner) => 4
  }

  /** The inputs of a run, which no node writes. */
  predicate SameInputs(s: AgentState, t: AgentState) {
    && s.originalPrompt == t.originalPrompt
    && s.referenceImage == t.referenceImage
    && s.maxIterations == t.maxIterations
    && s.taskId == t.taskId
    && s.timestamp == t.timestamp
  }

  /** What one generator step does to the state. */
  lemma GeneratorStep(s: AgentState, synth: Synthesizer, calls: nat)
    ensures var u := GeneratorNode(s, synth, calls);
            var g := Merge(s, u);
            && SameInputs(s, g)
            && g.iterationCount == s.iterationCount
            && g.optimizedPrompt == s.optimizedPrompt
            && (u.nodeStatus == Some(Failed) ==> g.generatedImage == s.generatedImage && g.errorMessage == u.errorMessage)
            && (u.nodeStatus != Some(Failed) ==> g.generatedImage == Some(synth(EffectivePrompt(s), calls).value))
  {
    MergeFrame(s, GeneratorNode(s, synth, calls));
  }

  /** What one critic step does to a state whose optimized prompt is set: the analysis cannot raise. */
  lemma CriticStep(g: AgentState)
    requires g.optimizedPrompt.Some?
    ensures var a := AnalyzeImageQuality(g);
            var c := Merge(g, CriticNode(g));
            && a.Ok?
            && SameInputs(g, c)
            && c.nodeStatus == Completed
            && c.iterationCount == g.iterationCount + 1
            && c.shouldRegenerate == (a.value.score < Threshold && g.iterationCount < g.maxIterations)
            && c.qualityScore == Some(a.value.score)
            && c.feedback == Some(a.value.feedback)
            && c.optimizedPrompt == g.optimizedPrompt
            && c.generatedImage == g.generatedImage
            && c.errorMessage == g.errorMessage
  {
    MergeFrame(g, CriticNode(g));
  }

  /** The planner leaves the iteration count and the bound alone. */
  lemma PlannerStep(s: AgentState)
    ensures var p := Merge(s, PlannerNode(s));
            SameInputs(s, p) && p.iterationCount == s.iterationCount && p.generatedImage == s.generatedImage
  {
    PlannerWrites(s);
    MergeFrame(s, PlannerNode(s));
  }

  /** After the planner the optimized prompt is the enhanced original prompt. */
  lemma PlannerSetsPrompt(s: AgentState)
    ensures Merge(s, PlannerNode(s)).optimizedPrompt == Some(EnhancePrompt(s.originalPrompt))
  {
  }

  /** A critic step that does not fail adds one to the iteration count; one that fails leaves it. */
  lemma CriticCount(s: AgentState)
    ensures var c := Merge(s, CriticNode(s));
            && c.maxIterations == s.maxIterations
            && c.iterationCount == if c.nodeStatus == Failed then s.iterationCount else s.iterationCount + 1
  {
  }

  /** The state after one step: the node's update dict merged over the state. */
  function Apply(step: Step, s: AgentState, synth: Synthesizer, calls: nat): AgentState {
    Merge(s, StepUpdate(step, s, synth, calls))
  }

  /** The generator's call counter after one step. */
  function NextCalls(step: Step, calls: nat): nat {
    if step == Generator then calls + 1 else calls
  }

  /** A step from `s` to `t` lowers the budget, or keeps it and moves closer to the critic. */
  predicate Moves(step: Step, s: AgentState, t: AgentState) {
    || Budget(t) < Budget(s)
    || (Budget(t) == Budget(s) && Rank(Successor(step, t)) < Rank(Goto(step)))
  }

  /** A step that keeps the count and the bound moves when its edge leads closer to the critic. */
  lemma SameBudget(step: Step, s: AgentState, t: AgentState)
    requires t.iterationCount == s.iterationCount && t.maxIterations == s.maxIterations
    requires step == Planner || step == Generator
    ensures Moves(step, s, t)
  {
    assert Budget(t) == Budget(s);
  }

  lemma PlannerMoves(s: AgentState, synth: Synthesizer, calls: nat)
    ensures Moves(Planner, s, Apply(Planner, s, synth, calls))
  {
    var t := Merge(s, PlannerNode(s));
    assert Apply(Planner, s, synth, calls) == t;
    PlannerStep(s);
    SameBudget(Planner, s, t);
  }

  lemma GeneratorKeepsCount(s: AgentState, synth: Synthesizer, calls: nat)
    ensures var t := Apply(Generator, s, synth, calls);
            t.iterationCount == s.iterationCount && t.maxIterations == s.maxIterations
  {
    assert StepUpdate(Generator, s, synth, calls) == GeneratorNode(s, synth, calls);
    GeneratorStep(s, synth, calls);
  }

  lemma GeneratorMoves(s: AgentState, synth: Synthesizer, calls: nat)
    ensures Moves(Generator, s, Apply(Generator, s, synth, calls))
  {
    GeneratorKeepsCount(s, synth, calls);
    SameBudget(Generator, s, Apply(Generator, s, synth, calls));
  }

  lemma CriticMoves(s: AgentState, synth: Synthesizer, calls: nat)
    ensures Moves(Critic, s, Apply(Critic, s, synth, calls))
  {
    CriticCount(s);
  }

  /** Every node of this graph makes progress. */
  lemma StepDecreases(step: Step, s: AgentState, synth: Synthesizer, calls: nat)
    ensures Moves(step, s, Apply(step, s, synth, calls))
  {
    match step
    case Planner => PlannerMoves(s, synth, calls);
    case HumanApproval =>
    case Generator => GeneratorMoves(s, synth, calls);
    case Critic => CriticMoves(s, synth, calls);
  }

  // ---------------------------------------------------------------- the runtime

  /**
   * The nodes of a compiled graph as the runtime sees them: for each step,
   * the state after that node has run and its update dict has been merged.
   * `calls` numbers the generator's calls to the synthesis collaborator.
   */
  type NodeTable = (Step, AgentState, nat) -> AgentState

  /** The nodes `create_agent_graph` registers. */
  function GraphNodes(synth: Synthesizer): NodeTable {
    (step: Step, s: AgentState, calls: nat) => Apply(step, s, synth, calls)
  }

  /** Every node makes progress, so the runtime reaches END. */
  ghost predicate Progressing(nodes: NodeTable) {
    forall step: Step, s: AgentState, calls: nat :: Moves(step, s, nodes(step, s, calls))
  }

  lemma GraphProgresses(synth: Synthesizer)
    ensures Progressing(GraphNodes(synth))
  {
    forall step: Step, s: AgentState, calls: nat
      ensures Moves(step, s, GraphNodes(synth)(step, s, calls))
    {
      StepDecreases(step, s, synth, calls);
    }
  }

  /** The state at END and the nodes executed, in order. */
  datatype RunResult = RunResult(final: AgentState, trace: seq<Step>)

  /** The graph runtime: execute the node at `at`, follow the edges from the merged state, until END. */
  function Run(nodes: NodeTable, at: Target, s: AgentState, calls: nat): (r: RunResult)
    requires Progressing(nodes)
    ensures at == End ==> r == RunResult(s, [])
    ensures at.Goto? ==> r.trace != [] && r.trace[0] == at.step && r.trace[|r.trace| - 1] == Critic
    ensures at.Goto? ==> ShouldContinueGeneration(r.final) == End
    decreases Budget(s), Rank(at)
  {
    match at
    case End => RunResult(s, [])
    case Goto(step) =>
      var t := nodes(step, s, calls);
      var r := Run(nodes, Successor(step, t), t, NextCalls(step, calls));
      RunResult(r.final, [step] + r.trace)
  }

  /** The run `r` after the nodes `done`. */
  function After(done: seq<Step>, r: RunResult): RunResult {
    RunResult(r.final, done + r.trace)
  }

  lemma AfterAfter(a: seq<Step>, b: seq<Step>, r: RunResult)
    ensures After(a, After(b, r)) == After(a + b, r)
  {
    assert a + (b + r.trace) == (a + b) + r.trace;
  }

  /** One step of the run, unfolded. */
  lemma RunStep(nodes: NodeTable, step: Step, s: AgentState, calls: nat)
    requires Progressing(nodes)
    ensures var t := nodes(step, s, calls);
            Run(nodes, Goto(step), s, calls) == After([step], Run(nodes, Successor(step, t), t, NextCalls(step, calls)))
  {
  }

  /** A run from `init` at its entry point, seen after `done` nodes have executed. */
  ghost predicate RunSoFar(nodes: NodeTable, init: AgentState, done: seq<Step>, at: Target, s: AgentState, calls: nat) {
    Progressing(nodes) && Run(nodes, Goto(Planner), init, 0) == After(done, Run(nodes, at, s, calls))
  }

  /** Executing one more node keeps the run's prefix and its remainder together. */
  lemma RunSoFarStep(nodes: NodeTable, init: AgentState, done: seq<Step>, step: Step, s: AgentState, calls: nat)
    requires RunSoFar(nodes, init, done, Goto(step), s, calls)
    ensures var t := nodes(step, s, calls);
            RunSoFar(nodes, init, done + [step], Successor(step, t), t, NextCalls(step, calls))
  {
    var t := nodes(step, s, calls);
    RunStep(nodes, step, s, calls);
    AfterAfter(done, [step], Run(nodes, Successor(step, t), t, NextCalls(step, calls)));
  }

  /** `agent_graph.ainvoke(initial_state)`: the runtime's driver loop, one node per iteration. */
  method Execute(nodes: NodeTable, init: AgentState) returns (final: AgentState, trace: seq<Step>)
    requires Progressing(nodes)
    ensures Run(nodes, Goto(Planner), init, 0) == RunResult(final, trace)
  {
    var at := Goto(Planner);
    var s := init;
    var calls: nat := 0;
    trace := [];
    while at != End
      invariant RunSoFar(nodes, init, trace, at, s, calls)
      decreases Budget(s), Rank(at)
    {
      var step := at.step;
      var t := nodes(step, s, calls);
      RunSoFarStep(nodes, init, trace, step, s, calls);
      trace := trace + [step];
      at, s, calls := Successor(step, t), t, NextCalls(step, calls);
    }
    final := s;
  }

  /** The initial state `run_agent` builds. */
  function InitialState(prompt: string, taskId: string, referenceImage: Option<string>,
                        maxIterations: int, timestamp: string): (s: AgentState)
    ensures s.originalPrompt == prompt && s.referenceImage == referenceImage
    ensures s.maxIterations == maxIterations && s.taskId == taskId && s.timestamp == timestamp
    ensures s.iterationCount == 0 && !s.shouldRegenerate
    ensures s.currentNode == "start" && s.nodeStatus == Pending
    ensures s.optimizedPrompt.None? && s.promptAnalysis.None? && s.generatedImage.None?
    ensures s.generationParams.None? && s.qualityScore.None? && s.feedback.None?
    ensures s.issuesFound.None? && s.errorMessage.None? && s.userApproved.None?
  {
    AgentState(prompt, referenceImage, None, None, None, None, None, None, None,
               0, maxIterations, false, "start", Pending, None, taskId, timestamp, None)
  }

  /**
   * The state `run_agent` returns. `fault` is the text of an exception raised
   * out of graph execution, if one is: the initial state is then returned
   * marked FAILED with that text.
   */
  function AgentResult(prompt: string, taskId: string, referenceImage: Option<string>, maxIterations: int,
                       timestamp: string, synth: Synthesizer, fault: Option<string>): (r: AgentState)
    ensures fault.Some? ==>
              && r.nodeStatus == Failed && r.errorMessage == fault
              && r.originalPrompt == prompt && r.referenceImage == referenceImage
              && r.maxIterations == maxIterations && r.taskId == taskId && r.timestamp == timestamp
              && r.iterationCount == 0 && r.currentNode == "start"
              && r.optimizedPrompt.None? && r.generatedImage.None? && r.qualityScore.None?
              && r.promptAnalysis.None? && r.generationParams.None? && r.feedback.None?
              && r.issuesFound.None? && !r.shouldRegenerate && r.userApproved.None?
    ensures fault.None? ==> ShouldContinueGeneration(r) == End
  {
    var init := InitialState(prompt, taskId, referenceImage, maxIterations, timestamp);
    GraphProgresses(synth);
    if fault.Some? then init.(nodeStatus := Failed, errorMessage := Some(fault.value))
    else Run(GraphNodes(synth), Goto(Planner), init, 0).final
  }

  /** `run_agent`. */
  method RunAgent(prompt: string, taskId: string, referenceImage: Option<string>, maxIterations: int,
                  timestamp: string, synth: Synthesizer, fault: Option<string>) returns (final: AgentState)
    ensures final == AgentResult(prompt, taskId, referenceImage, maxIterations, timestamp, synth, fault)
  {
    var initial := InitialState(prompt, taskId, referenceImage, maxIterations, timestamp);
    if fault.Some? {
      initial := initial.(nodeStatus := Failed);
      initial := initial.(errorMessage := Some(fault.value));
      return initial;
    }
    GraphProgresses(synth);
    var trace;
    final, trace := Execute(GraphNodes(synth), initial);
  }

  // ---------------------------------------------------------------- what each node guarantees

  /** The planner keeps the inputs, the count and the image, and sets the optimized prompt. */
  predicate Plans(s: AgentState, p: AgentState) {
    && SameInputs(s, p)
    && p.iterationCount == s.iterationCount
    && p.generatedImage == s.generatedImage
    && p.optimizedPrompt == Some(EnhancePrompt(s.originalPrompt))
  }

  /** The generator, failed or not, keeps the inputs, the count and the optimized prompt. */
  predicate Generates(s: AgentState, g: AgentState) {
    && SameInputs(s, g)
    && g.iterationCount == s.iterationCount
    && g.optimizedPrompt == s.optimizedPrompt
  }

  /** The critic on a state whose optimized prompt is set: it scores, counts and never fails. */
  predicate Scores(g: AgentState, c: AgentState) {
    && SameInputs(g, c)
    && c.optimizedPrompt == g.optimizedPrompt
    && c.generatedImage == g.generatedImage
    && c.errorMessage == g.errorMessage
    && c.iterationCount == g.iterationCount + 1
    && c.nodeStatus == Completed
    && c.qualityScore.Some? && c.qualityScore.value in {0, 50, 60, 70, 80}
    && (!ImagePresent(g) ==> c.qualityScore == Some(0))
    && c.shouldRegenerate == (c.qualityScore.value < Threshold && g.iterationCount < g.maxIterations)
  }

  /** The guarantees of the nodes the runs below rely on. */
  ghost predicate GraphLaws(nodes: NodeTable) {
    && Progressing(nodes)
    && (forall s: AgentState, calls: nat :: Plans(s, nodes(Planner, s, calls)))
    && (forall s: AgentState, calls: nat :: Generates(s, nodes(Generator, s, calls)))
    && (forall g: AgentState, calls: nat :: g.optimizedPrompt.Some? ==> Scores(g, nodes(Critic, g, calls)))
  }

  lemma PlannerPlans(synth: Synthesizer)
    ensures forall s: AgentState, calls: nat :: Plans(s, GraphNodes(synth)(Planner, s, calls))
  {
    forall s: AgentState, calls: nat ensures Plans(s, GraphNodes(synth)(Planner, s, calls)) {
      PlannerStep(s);
      PlannerSetsPrompt(s);
    }
  }

  lemma GeneratorGenerates(synth: Synthesizer)
    ensures forall s: AgentState, calls: nat :: Generates(s, GraphNodes(synth)(Generator, s, calls))
  {
    forall s: AgentState, calls: nat ensures Generates(s, GraphNodes(synth)(Generator, s, calls)) {
      GeneratorStep(s, synth, calls);
    }
  }

  lemma CriticScores(synth: Synthesizer)
    ensures forall g: AgentState, calls: nat :: g.optimizedPrompt.Some? ==> Scores(g, GraphNodes(synth)(Critic, g, calls))
  {
    forall g: AgentState, calls: nat | g.optimizedPrompt.Some? ensures Scores(g, GraphNodes(synth)(Critic, g, calls)) {
      CriticStep(g);
    }
  }

  /** The nodes of this graph keep those guarantees, whatever the synthesis collaborator does. */
  lemma GraphLawsHold(synth: Synthesizer)
    ensures GraphLaws(GraphNodes(synth))
  {
    GraphProgresses(synth);
    PlannerPlans(synth);
    GeneratorGenerates(synth);
    CriticScores(synth);
  }

  /** A generator run that reports a failure keeps the image, and its message says why. */
  predicate Refusal(p: string, t: AgentState, g: AgentState) {
    && g.generatedImage == t.generatedImage
    && g.errorMessage.Some? && GenerationFailed <= g.errorMessage.value
    && (!SiliconFlow.PromptAccepted(p) ==> g.errorMessage == Some(GenerationFailed + InvalidPrompt))
  }

  /** The generator refuses the optimized prompt `p` on every call. */
  ghost predicate Refuses(nodes: NodeTable, p: string) {
    forall t: AgentState, calls: nat :: t.optimizedPrompt == Some(p) ==> Refusal(p, t, nodes(Generator, t, calls))
  }

  /** The collaborator fails on `p` on every call. */
  ghost predicate AlwaysFails(synth: Synthesizer, p: string) {
    forall calls: nat :: synth(p, calls).Err?
  }

  /** A non-empty prompt that the filter rejects, or that the collaborator always fails on, is refused. */
  lemma GeneratorRefuses(synth: Synthesizer, p: string)
    requires p != [] && (!SiliconFlow.PromptAccepted(p) || AlwaysFails(synth, p))
    ensures Refuses(GraphNodes(synth), p)
  {
    forall t: AgentState, calls: nat | t.optimizedPrompt == Some(p)
      ensures Refusal(p, t, GraphNodes(synth)(Generator, t, calls))
    {
      assert EffectivePrompt(t) == p;
      GeneratorStep(t, synth, calls);
    }
  }

  // ---------------------------------------------------------------- properties of runs

  /** `n` generator-critic passes. */
  function Passes(n: nat): seq<Step> {
    if n == 0 then [] else [Generator, Critic] + Passes(n - 1)
  }

  /** How many times `step` executes in `trace`. */
  function CountOf(trace: seq<Step>, step: Step): nat {
    if trace == [] then 0 else (if trace[0] == step then 1 else 0) + CountOf(trace[1..], step)
  }

  /** Every generator execution is followed at once by a critic execution. */
  predicate GeneratorThenCritic(trace: seq<Step>) {
    forall i :: 0 <= i < |trace| && trace[i] == Generator ==> i + 1 < |trace| && trace[i + 1] == Critic
  }

  lemma {:induction false} PassesShape(n: nat)
    ensures |Passes(n)| == 2 * n
    ensures CountOf(Passes(n), Generator) == n && CountOf(Passes(n), Critic) == n
    ensures CountOf(Passes(n), Planner) == 0 && CountOf(Passes(n), HumanApproval) == 0
    ensures GeneratorThenCritic(Passes(n))
  {
    if n > 0 {
      PassesShape(n - 1);
      var p := Passes(n);
      assert p[1..][1..] == Passes(n - 1);
      forall i | 0 <= i < |p| && p[i] == Generator ensures i + 1 < |p| && p[i + 1] == Critic {
        if i >= 2 {
          assert p[i] == Passes(n - 1)[i - 2];
        }
      }
    }
  }

  /** The planner runs once, then `n` passes. */
  lemma PlannerThenPasses(n: nat)
    ensures var t := [Planner] + Passes(n);
            && |t| == 1 + 2 * n
            && CountOf(t, Planner) == 1 && CountOf(t, HumanApproval) == 0
            && CountOf(t, Generator) == n && CountOf(t, Critic) == n
            && GeneratorThenCritic(t)
  {
    PassesShape(n);
    var t := [Planner] + Passes(n);
    assert t[1..] == Passes(n);
    forall i | 0 <= i < |t| && t[i] == Generator ensures i + 1 < |t| && t[i + 1] == Critic {
      assert t[i] == Passes(n)[i - 1];
    }
  }

  /** Two more nodes in front of a run of `m` passes make a run of `m + 1` passes. */
  lemma PassBefore(rest: RunResult, m: nat)
    requires rest.trace == Passes(m)
    ensures After([Generator, Critic], rest).trace == Passes(m + 1)
  {
  }

  /** A state entering the generator after the planner: the optimized prompt is set. */
  predicate InLoop(s: AgentState) {
    s.optimizedPrompt.Some? && s.iterationCount >= 0
  }

  /** One generator-critic pass from a state in the loop. */
  lemma GeneratorCriticPass(nodes: NodeTable, s: AgentState, calls: nat) returns (g: AgentState, c: AgentState)
    requires GraphLaws(nodes) && InLoop(s)
    ensures g == nodes(Generator, s, calls) && c == nodes(Critic, g, calls + 1)
    ensures Generates(s, g) && Scores(g, c)
    ensures Run(nodes, Goto(Generator), s, calls)
            == After([Generator, Critic], Run(nodes, ShouldContinueGeneration(c), c, calls + 1))
  {
    g := nodes(Generator, s, calls);
    c := nodes(Critic, g, calls + 1);
    RunStep(nodes, Generator, s, calls);
    RunStep(nodes, Critic, g, calls + 1);
    AfterAfter([Generator], [Critic], Run(nodes, ShouldContinueGeneration(c), c, calls + 1));
    assert [Generator] + [Critic] == [Generator, Critic];
  }

  /**
   * The generator-critic loop, entered at the generator. It makes `n >= 1`
   * passes, one critic run each, so the count grows by exactly `n`; it never
   * ends FAILED; it stops when the latest score reaches the threshold or the
   * count reaches the bound, but never before the first pass.
   */
  lemma {:induction false} LoopRun(nodes: NodeTable, s: AgentState, calls: nat) returns (n: nat)
    requires GraphLaws(nodes) && InLoop(s)
    ensures var r := Run(nodes, Goto(Generator), s, calls);
            && n >= 1
            && r.trace == Passes(n)
            && r.final.iterationCount == s.iterationCount + n
            && r.final.nodeStatus == Completed
            && SameInputs(s, r.final)
            && r.final.optimizedPrompt == s.optimizedPrompt
            && (n == 1 || r.final.iterationCount <= s.maxIterations)
            && r.final.qualityScore.Some?
            && (r.final.iterationCount >= s.maxIterations || r.final.qualityScore.value >= Threshold)
            && r.final.qualityScore.value in {0, 50, 60, 70, 80}
    decreases Budget(s)
  {
    var g, c := GeneratorCriticPass(nodes, s, calls);
    var rest := Run(nodes, ShouldContinueGeneration(c), c, calls + 1);
    if ShouldContinueGeneration(c) == End {
      n := 1;
      assert rest == RunResult(c, []);
      PassBefore(rest, 0);
    } else {
      var m := LoopRun(nodes, c, calls + 1);
      n := m + 1;
      PassBefore(rest, m);
    }
  }

  /** The bound a loop entered at count `k` ends at when every pass asks for regeneration. */
  function FullCount(k: int, max: int): int {
    if k < max then max else k + 1
  }

  /** A critique below the threshold. */
  predicate Low(c: AgentState) {
    c.qualityScore.Some? && c.qualityScore.value < Threshold
  }

  /** The critic scores every state with the optimized prompt `p` below the threshold. */
  ghost predicate ScoresLow(nodes: NodeTable, p: string) {
    forall g: AgentState, calls: nat :: g.optimizedPrompt == Some(p) ==> Low(nodes(Critic, g, calls))
  }

  /** Scores always below the threshold: the loop runs until the count reaches the bound. */
  lemma {:induction false} LowScoreLoop(nodes: NodeTable, p: string, s: AgentState, calls: nat)
    requires GraphLaws(nodes) && InLoop(s) && s.optimizedPrompt == Some(p) && ScoresLow(nodes, p)
    ensures var r := Run(nodes, Goto(Generator), s, calls);
            && r.final.iterationCount == FullCount(s.iterationCount, s.maxIterations)
            && Low(r.final)
    decreases Budget(s)
  {
    var g, c := GeneratorCriticPass(nodes, s, calls);
    assert Low(c);
    if ShouldContinueGeneration(c) == End {
      assert Run(nodes, End, c, calls + 1) == RunResult(c, []);
    } else {
      LowScoreLoop(nodes, p, c, calls + 1);
    }
  }

  /**
   * A refused prompt and no image to start from: no image ever appears, every
   * critique scores 0, the loop runs until the count reaches the bound, and
   * the last generator failure's message is left in the state.
   */
  lemma {:induction false} RefusedLoop(nodes: NodeTable, p: string, s: AgentState, calls: nat)
    requires GraphLaws(nodes) && InLoop(s) && s.optimizedPrompt == Some(p) && Refuses(nodes, p)
    requires !ImagePresent(s)
    ensures var r := Run(nodes, Goto(Generator), s, calls);
            && Refusal(p, s, r.final)
            && r.final.qualityScore == Some(0)
            && r.final.iterationCount == FullCount(s.iterationCount, s.maxIterations)
    decreases Budget(s)
  {
    var g, c := GeneratorCriticPass(nodes, s, calls);
    assert Refusal(p, s, g);
    if ShouldContinueGeneration(c) == End {
      assert Run(nodes, End, c, calls + 1) == RunResult(c, []);
    } else {
      RefusedLoop(nodes, p, c, calls + 1);
    }
  }

  /**
   * A run from a state with a count of 0, such as the one `run_agent`
   * builds: the planner, then `n` generator-critic passes (see
   * `PlannerThenPasses` for what that trace counts). It ends COMPLETED; the
   * iteration count is `n`, at least 1 and, for a bound of at least 1, at
   * most the bound; the run stops with the bound reached or a score at or
   * above the threshold.
   */
  lemma RunFromStart(nodes: NodeTable, init: AgentState) returns (n: nat)
    requires GraphLaws(nodes) && init.iterationCount == 0
    ensures var r := Run(nodes, Goto(Planner), init, 0);
            && r.final.iterationCount == n
            && 1 <= n
            && (init.maxIterations >= 1 ==> n <= init.maxIterations)
            && (init.maxIterations <= 1 ==> n == 1)
            && r.trace == [Planner] + Passes(n)
            && r.final.nodeStatus == Completed
            && SameInputs(init, r.final)
            && r.final.optimizedPrompt == Some(EnhancePrompt(init.originalPrompt))
            && r.final.qualityScore.Some?
            && (n >= init.maxIterations || r.final.qualityScore.value >= Threshold)
            && ScoreInRange(r.final)
  {
    var p := nodes(Planner, init, 0);
    RunStep(nodes, Planner, init, 0);
    n := LoopRun(nodes, p, 0);
  }

  /** The enhanced prompt is never empty. */
  lemma EnhancedNonEmpty(prompt: string)
    ensures EnhancePrompt(prompt) != []
  {
    EnhancePromptShape(prompt);
    var r := EnhancePrompt(prompt);
    if Contains(Lower(r), "photo") {
      var i: nat :| i <= |Lower(r)| && OccursAt(Lower(r), "photo", i);
    } else {
      var i: nat :| i <= |Lower(r)| && OccursAt(Lower(r), "realistic", i);
    }
  }

  /** A run from a count of 0 and no image whose enhanced prompt the generator refuses. */
  lemma RefusedFromStart(nodes: NodeTable, init: AgentState)
    requires GraphLaws(nodes) && init.iterationCount == 0 && !ImagePresent(init)
    requires Refuses(nodes, EnhancePrompt(init.originalPrompt))
    ensures var r := Run(nodes, Goto(Planner), init, 0);
            && r.final.nodeStatus == Completed
            && Refusal(EnhancePrompt(init.originalPrompt), init, r.final)
            && r.final.qualityScore == Some(0)
            && r.final.iterationCount == FullCount(0, init.maxIterations)
  {
    var q := nodes(Planner, init, 0);
    RunStep(nodes, Planner, init, 0);
    RefusedLoop(nodes, EnhancePrompt(init.originalPrompt), q, 0);
    var n := LoopRun(nodes, q, 0);
  }

  /**
   * `run_agent` when the enhanced prompt is refused, by the filter or by a
   * collaborator that always fails on it: the run still ends COMPLETED, with
   * no image, a score of 0 and the count at the bound (1 for a bound below
   * 1); the error message is a generation failure's.
   */
  lemma RefusedRun(prompt: string, taskId: string, referenceImage: Option<string>, maxIterations: int,
                   timestamp: string, synth: Synthesizer)
    requires !SiliconFlow.PromptAccepted(EnhancePrompt(prompt)) || AlwaysFails(synth, EnhancePrompt(prompt))
    ensures var r := AgentResult(prompt, taskId, referenceImage, maxIterations, timestamp, synth, None);
            && r.nodeStatus == Completed
            && r.generatedImage.None?
            && r.qualityScore == Some(0)
            && r.iterationCount == FullCount(0, maxIterations)
            && r.errorMessage.Some? && GenerationFailed <= r.errorMessage.value
            && (!SiliconFlow.PromptAccepted(EnhancePrompt(prompt)) ==>
                  r.errorMessage == Some(GenerationFailed + InvalidPrompt))
  {
    GraphLawsHold(synth);
    EnhancedNonEmpty(prompt);
    GeneratorRefuses(synth, EnhancePrompt(prompt));
    RefusedFromStart(GraphNodes(synth), InitialState(prompt, taskId, referenceImage, maxIterations, timestamp));
  }

  /** A prompt with a blocked word ends COMPLETED without an image, with the filter's message. */
  lemma BlockedPromptRun(prompt: string, taskId: string, referenceImage: Option<string>, maxIterations: int,
                         timestamp: string, synth: Synthesizer, k: nat)
    requires k < |SiliconFlow.BlockedWords| && Contains(Lower(prompt), SiliconFlow.BlockedWords[k])
    ensures var r := AgentResult(prompt, taskId, referenceImage, maxIterations, timestamp, synth, None);
            && r.nodeStatus == Completed
            && r.generatedImage.None?
            && r.qualityScore == Some(0)
            && r.iterationCount == FullCount(0, maxIterations)
            && r.errorMessage == Some(GenerationFailed + InvalidPrompt)
  {
    EnhanceKeepsBlockedWord(prompt, k);
    RefusedRun(prompt, taskId, referenceImage, maxIterations, timestamp, synth);
  }

  /**
   * A service none of whose replies carries an image (no `data`, an empty
   * list, or a first entry with neither `b64_json` nor `url`): the same
   * outcome, with a generation failure's message.
   */
  lemma NoImageServiceRun(prompt: string, taskId: string, referenceImage: Option<string>, maxIterations: int,
                          timestamp: string, post: (SiliconFlow.Payload, nat) -> SiliconFlow.Transport,
                          download: (string, nat) -> SiliconFlow.Download)
    requires forall p: SiliconFlow.Payload, k: nat ::
               post(p, k).Delivered? && SiliconFlow.ImageSourceOf(post(p, k).reply).NoImage?
    ensures var r := AgentResult(prompt, taskId, referenceImage, maxIterations, timestamp,
                                 SiliconFlow.AsSynthesizer(post, download), None);
            && r.nodeStatus == Completed
            && r.generatedImage.None?
            && r.qualityScore == Some(0)
            && r.iterationCount == FullCount(0, maxIterations)
            && r.errorMessage.Some? && GenerationFailed <= r.errorMessage.value
  {
    var synth := SiliconFlow.AsSynthesizer(post, download);
    var p := EnhancePrompt(prompt);
    forall calls: nat ensures synth(p, calls).Err? {
      SiliconFlow.NoDataServiceAlwaysFails(post, download, p, calls);
    }
    RefusedRun(prompt, taskId, referenceImage, maxIterations, timestamp, synth);
  }

  /**
   * `run_agent`'s outcome: FAILED exactly when graph execution raised, and
   * then with the exception's text and the initial count; otherwise the
   * count lies in 1..max(1, bound) and the optimized prompt is set.
   */
  lemma AgentOutcome(prompt: string, taskId: string, referenceImage: Option<string>, maxIterations: int,
                     timestamp: string, synth: Synthesizer, fault: Option<string>)
    ensures var r := AgentResult(prompt, taskId, referenceImage, maxIterations, timestamp, synth, fault);
            && (r.nodeStatus == Failed <==> fault.Some?)
            && (fault.Some? ==> r.errorMessage == fault && r.iterationCount == 0 && r.generatedImage.None?)
            && (fault.None? ==>
                  && 1 <= r.iterationCount
                  && (maxIterations >= 1 ==> r.iterationCount <= maxIterations)
                  && (maxIterations <= 1 ==> r.iterationCount == 1)
                  && r.optimizedPrompt == Some(EnhancePrompt(prompt))
                  && r.maxIterations == maxIterations && r.taskId == taskId)
  {
    if fault.None? {
      GraphLawsHold(synth);
      var init := InitialState(prompt, taskId, referenceImage, maxIterations, timestamp);
      var n := RunFromStart(GraphNodes(synth), init);
    }
  }

  // ---------------------------------------------------------------- the runtime's step limit

  /** The number of node executions LangGraph allows a run by default. */
  const RecursionLimit := 25

  /** For a bound of at most 12 a run executes at most 25 nodes, so it stays within the runtime's limit. */
  lemma WithinRecursionLimit(prompt: string, taskId: string, referenceImage: Option<string>, maxIterations: int,
                             timestamp: string, synth: Synthesizer)
    requires maxIterations <= 12
    ensures Progressing(GraphNodes(synth))
    ensures |Run(GraphNodes(synth), Goto(Planner), InitialState(prompt, taskId, referenceImage, maxIterations, timestamp), 0).trace|
            <= RecursionLimit
  {
    GraphLawsHold(synth);
    var n := RunFromStart(GraphNodes(synth), InitialState(prompt, taskId, referenceImage, maxIterations, timestamp));
    PlannerThenPasses(n);
  }

  /**
   * A blocked prompt with a bound above 12 makes the run execute
   * `1 + 2 * maxIterations` nodes, more than the runtime allows.
   */
  lemma BlockedRunExceedsRecursionLimit(prompt: string, taskId: string, referenceImage: Option<string>,
                                        maxIterations: int, timestamp: string, synth: Synthesizer, k: nat)
    requires k < |SiliconFlow.BlockedWords| && Contains(Lower(prompt), SiliconFlow.BlockedWords[k])
    requires maxIterations > 12
    ensures Progressing(GraphNodes(synth))
    ensures var r := Run(GraphNodes(synth), Goto(Planner),
                         InitialState(prompt, taskId, referenceImage, maxIterations, timestamp), 0);
            |r.trace| == 1 + 2 * maxIterations && |r.trace| > RecursionLimit
  {
    GraphLawsHold(synth);
    BlockedPromptRun(prompt, taskId, referenceImage, maxIterations, timestamp, synth, k);
    var n := RunFromStart(GraphNodes(synth), InitialState(prompt, taskId, referenceImage, maxIterations, timestamp));
    PlannerThenPasses(n);
  }
}
