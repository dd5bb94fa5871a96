/**
 * The step nodes of the workflow (backend/app/agent/nodes.py) and their
 * heuristics. A node reads the state and returns an update dict; it never
 * changes the state itself. Monitoring calls are no-ops here (monitoring is
 * disabled) and logging is omitted.
 */
module Nodes {
  import opened Wrappers
  import opened Text
  import opened State
  import SiliconFlow

  /** Quality scores are hundredths; a score below this asks for regeneration. */
  const Threshold := 70

  const QualityKeywords: seq<string> := ["detailed", "high quality", "4k", "professional"]
  const QualitySuffix := ", highly detailed, professional quality, 4k"
  const StyleSuffix := ", photorealistic"
  const StyleHints := "photorealistic, highly detailed, 4k"
  const StopWords: set<string> := {"a", "an", "the", "and", "or", "but", "in", "on", "at", "to", "for"}

  // ---------------------------------------------------------------- enhance_prompt

  /** The prompt after the quality step: the stripped prompt, with the quality suffix when it lacks a keyword. */
  function WithQuality(prompt: string): (r: string)
    ensures r == Strip(prompt) || r == Strip(prompt) + QualitySuffix
    ensures r == Strip(prompt) <==> ContainsAny(Lower(Strip(prompt)), QualityKeywords)
    ensures ContainsAny(Lower(r), QualityKeywords)
    ensures IsStripped(r)
  {
    var stripped := Strip(prompt);
    if ContainsAny(Lower(stripped), QualityKeywords) then stripped
    else
      QualitySuffixHasKeyword(stripped);
      StrippedAppend(stripped, QualitySuffix);
      stripped + QualitySuffix
  }

  /** The quality-step prompt, plus a style hint when it names neither "photo" nor "realistic". */
  function EnhancePrompt(prompt: string): (r: string)
    ensures Strip(prompt) <= r
    ensures r == WithQuality(prompt) || r == WithQuality(prompt) + StyleSuffix
    ensures r == WithQuality(prompt) <==>
              Contains(Lower(WithQuality(prompt)), "photo") || Contains(Lower(WithQuality(prompt)), "realistic")
  {
    var withQuality := WithQuality(prompt);
    if !Contains(Lower(withQuality), "photo") && !Contains(Lower(withQuality), "realistic") then
      withQuality + StyleSuffix
    else
      withQuality
  }

  /** Stripped, with a quality keyword and "photo" or "realistic" in lowercase: the strings `EnhancePrompt` leaves as they are (`EnhancedFixpoint`). */
  predicate Enhanced(s: string) {
    && IsStripped(s)
    && ContainsAny(Lower(s), QualityKeywords)
    && (Contains(Lower(s), "photo") || Contains(Lower(s), "realistic"))
  }

  lemma QualitySuffixHasKeyword(prefix: string)
    ensures ContainsAny(Lower(prefix + QualitySuffix), QualityKeywords)
  {
    var before, after := prefix + ", highly ", ", professional quality, 4k";
    assert prefix + QualitySuffix == before + "detailed" + after;
    LowerKeepsWord(before, "detailed", after);
    ContainsAnyMember(Lower(prefix + QualitySuffix), QualityKeywords, 0);
  }

  lemma StyleSuffixHasPhoto(prefix: string)
    ensures Contains(Lower(prefix + StyleSuffix), "photo")
  {
    var before := prefix + ", ";
    assert prefix + StyleSuffix == before + "photo" + "realistic";
    LowerKeepsWord(before, "photo", "realistic");
  }

  /** The enhanced prompt is the stripped prompt followed by nothing, one, or both of the fixed suffixes, in that order. */
  lemma EnhancePromptForm(prompt: string)
    ensures var stripped, r := Strip(prompt), EnhancePrompt(prompt);
            || r == stripped
            || r == stripped + QualitySuffix
            || r == stripped + StyleSuffix
            || r == stripped + QualitySuffix + StyleSuffix
  {
    var q := WithQuality(prompt);
    if !Contains(Lower(q), "photo") && !Contains(Lower(q), "realistic") {
      assert EnhancePrompt(prompt) == q + StyleSuffix;
    } else {
      assert EnhancePrompt(prompt) == q;
    }
  }

  /**
   * The enhanced prompt has no whitespace at either end and in lowercase
   * holds a quality keyword and "photo" or "realistic".
   */
  lemma EnhancePromptShape(prompt: string)
    ensures Enhanced(EnhancePrompt(prompt))
  {
    var q := WithQuality(prompt);
    if !Contains(Lower(q), "photo") && !Contains(Lower(q), "realistic") {
      assert EnhancePrompt(prompt) == q + StyleSuffix;
      StyledIsEnhanced(q);
    } else {
      assert EnhancePrompt(prompt) == q;
    }
  }

  /** Appending the style suffix to a stripped prompt with a quality keyword gives an enhanced prompt. */
  lemma StyledIsEnhanced(q: string)
    requires IsStripped(q) && ContainsAny(Lower(q), QualityKeywords)
    ensures Enhanced(q + StyleSuffix)
  {
    StyleSuffixHasPhoto(q);
    LowerConcat(q, StyleSuffix);
    ContainsAnyPrefix(Lower(q), Lower(StyleSuffix), QualityKeywords);
    StrippedAppend(q, StyleSuffix);
  }

  /** `EnhancePrompt` leaves exactly the strings of `Enhanced` as they are: it changes a string that lacks any of the three conditions. */
  lemma EnhancedFixpoint(s: string)
    ensures EnhancePrompt(s) == s <==> Enhanced(s)
  {
    if Enhanced(s) {
      StripOfStripped(s);
      assert WithQuality(s) == s;
    } else if EnhancePrompt(s) == s {
      EnhancePromptShape(s);
    }
  }

  /** Enhancing an enhanced prompt changes nothing. */
  lemma EnhancePromptIdempotent(prompt: string)
    ensures EnhancePrompt(EnhancePrompt(prompt)) == EnhancePrompt(prompt)
  {
    EnhancePromptShape(prompt);
    EnhancedFixpoint(EnhancePrompt(prompt));
  }

  /** Enhancing never removes a blocked word: an enhanced blocked prompt is still refused. */
  lemma EnhanceKeepsBlockedWord(prompt: string, k: nat)
    requires k < |SiliconFlow.BlockedWords| && Contains(Lower(prompt), SiliconFlow.BlockedWords[k])
    ensures !SiliconFlow.PromptAccepted(EnhancePrompt(prompt))
  {
    var w := SiliconFlow.BlockedWords[k];
    SiliconFlow.BlockedWordsHaveNoSpace(k);
    WordInStrip(prompt, w);
    SiliconFlow.ExtensionStaysBlocked(Strip(prompt), EnhancePrompt(prompt), k);
  }

  // ---------------------------------------------------------------- extract_keywords

  predicate IsKeyword(w: string) {
    w !in StopWords && |w| > 3
  }

  /** Every stop word has at most three characters, so the stop-word test never removes a word the length test keeps. */
  lemma KeywordIsLongWord(w: string)
    ensures IsKeyword(w) <==> |w| > 3
  {
  }

  /** `a` is an order-preserving subsequence of `b`. */
  predicate IsSubsequence<T(==)>(a: seq<T>, b: seq<T>)
    decreases |b|
  {
    if a == [] then true
    else if b == [] then false
    else if a[0] == b[0] then IsSubsequence(a[1..], b[1..])
    else IsSubsequence(a, b[1..])
  }

  lemma {:induction false} SubsequencePrefix<T>(a: seq<T>, b: seq<T>, n: nat)
    requires IsSubsequence(a, b) && n <= |a|
    ensures IsSubsequence(a[..n], b)
    decreases |b|
  {
    if n == 0 || a == [] {
      assert a[..n] == [];
    } else if a[0] == b[0] {
      SubsequencePrefix(a[1..], b[1..], n - 1);
      assert a[..n][1..] == a[1..][..n - 1];
    } else {
      SubsequencePrefix(a, b[1..], n);
    }
  }

  /** The comprehension `[w for w in words if w not in stop_words and len(w) > 3]`. */
  function Keywords(words: seq<string>): (r: seq<string>)
    ensures forall i :: 0 <= i < |r| ==> IsKeyword(r[i])
    ensures forall i :: 0 <= i < |words| && IsKeyword(words[i]) ==> words[i] in r
    ensures IsSubsequence(r, words)
    ensures |r| <= |words|
  {
    if words == [] then []
    else if IsKeyword(words[0]) then [words[0]] + Keywords(words[1..])
    else Keywords(words[1..])
  }

  /** Every qualifying word is kept as often as it occurs, and no other word is kept. */
  lemma {:induction false} KeywordsCounts(words: seq<string>)
    ensures forall w :: multiset(Keywords(words))[w] == if IsKeyword(w) then multiset(words)[w] else 0
  {
    if words != [] {
      KeywordsCounts(words[1..]);
      assert words == [words[0]] + words[1..];
      assert multiset(words) == multiset{words[0]} + multiset(words[1..]);
      if IsKeyword(words[0]) {
        assert Keywords(words) == [words[0]] + Keywords(words[1..]);
        assert multiset(Keywords(words)) == multiset{words[0]} + multiset(Keywords(words[1..]));
      }
    }
  }

  /** At most the first ten keywords of `words`, in order. */
  function FirstKeywords(words: seq<string>): (r: seq<string>)
    ensures var kws := Keywords(words);
            && r <= kws
            && |r| == if |kws| < 10 then |kws| else 10
    ensures forall i :: 0 <= i < |r| ==> IsKeyword(r[i])
    ensures IsSubsequence(r, words)
  {
    var kws := Keywords(words);
    var n := if |kws| < 10 then |kws| else 10;
    SubsequencePrefix(kws, words, n);
    kws[..n]
  }

  /** `extract_keywords`: the first ten qualifying words of the lowercased, whitespace-split prompt. */
  function ExtractKeywords(prompt: string): (r: seq<string>)
    ensures |r| <= 10
    ensures forall i :: 0 <= i < |r| ==> IsKeyword(r[i])
    ensures IsSubsequence(r, Split(Lower(prompt)))
    ensures var kws := Keywords(Split(Lower(prompt)));
            r <= kws && |r| == if |kws| < 10 then |kws| else 10
  {
    FirstKeywords(Split(Lower(prompt)))
  }

  /** With ten qualifying words or fewer, every one of them is kept. */
  lemma ExtractKeywordsComplete(prompt: string, i: nat)
    requires |Keywords(Split(Lower(prompt)))| <= 10
    requires i < |Split(Lower(prompt))| && IsKeyword(Split(Lower(prompt))[i])
    ensures Split(Lower(prompt))[i] in ExtractKeywords(prompt)
  {
    assert FirstKeywords(Split(Lower(prompt))) == Keywords(Split(Lower(prompt)));
  }

  // ---------------------------------------------------------------- analyze_image_quality

  /** `(score, feedback, issues)`. */
  datatype Critique = Critique(score: int, feedback: string, issues: seq<string>)

  const Excellent := "Excellent quality! Image meets all requirements."
  const Good := "Good quality with minor improvements possible."
  const NeedsWork := "Quality needs improvement. Issues: "
  const MissingImage := Critique(0, "No image generated", ["missing_image"])
  /** The text of the `TypeError` raised by `len(None)`. */
  const NoneLenError := "object of type 'NoneType' has no len()"

  /** Python truthiness of `state.get("generated_image")`: present and non-empty. */
  predicate ImagePresent(s: AgentState) {
    s.generatedImage.Some? && s.generatedImage.value != []
  }

  function Clamp(score: int): int {
    if score < 0 then 0 else if score > 100 then 100 else score
  }

  /**
   * The heuristic critique. With an image, it starts at 80, loses 20 for an
   * optimized prompt under 10 characters and 10 once more than two critiques
   * have run; an absent optimized prompt makes `len` raise.
   */
  function AnalyzeImageQuality(s: AgentState): (r: Result<Critique, string>)
    ensures !ImagePresent(s) ==> r == Ok(MissingImage)
    ensures ImagePresent(s) ==> (r.Err? <==> s.optimizedPrompt.None?)
    ensures r.Err? ==> r.error == NoneLenError
    ensures r.Ok? ==> 0 <= r.value.score <= 100
    ensures r.Ok? && ImagePresent(s) ==>
              var short := |s.optimizedPrompt.value| < 10;
              && r.value.score in {50, 60, 70, 80}
              && (r.value.score >= Threshold <==> !short)
              && (r.value.score == 80 <==> !short && s.iterationCount <= 2)
              && (r.value.score == 50 <==> short && s.iterationCount > 2)
              && (r.value.issues == ["prompt_too_short"] <==> short)
              && (r.value.issues == [] <==> !short)
    ensures r.Ok? && ImagePresent(s) ==>
              r.value.feedback == if r.value.score >= 80 then Excellent
                                  else if r.value.score >= Threshold then Good
                                  else NeedsWork + Join(r.value.issues, ", ")
  {
    if !ImagePresent(s) then Ok(MissingImage)
    else if s.optimizedPrompt.None? then Err(NoneLenError)
    else
      var short := |s.optimizedPrompt.value| < 10;
      var issues := if short then ["prompt_too_short"] else [];
      var score := 80 - (if short then 20 else 0) - (if s.iterationCount > 2 then 10 else 0);
      var feedback := if score >= 80 then Excellent
                      else if score >= Threshold then Good
                      else NeedsWork + Join(issues, ", ");
      Ok(Critique(Clamp(score), feedback, issues))
  }

  // ---------------------------------------------------------------- nodes

  /** `planner_node`. */
  function PlannerNode(s: AgentState): (u: Update)
    ensures u.optimizedPrompt == Some(EnhancePrompt(s.originalPrompt))
    ensures u.currentNode == Some("planner") && u.nodeStatus == Some(Completed)
    ensures u.promptAnalysis.Some?
    ensures u.promptAnalysis.value.originalLength == |s.originalPrompt|
    ensures u.promptAnalysis.value.optimizedLength == |EnhancePrompt(s.originalPrompt)|
    ensures u.promptAnalysis.value.keywordsAdded == ExtractKeywords(EnhancePrompt(s.originalPrompt))
    ensures u.promptAnalysis.value.styleHints == StyleHints
  {
    var optimized := EnhancePrompt(s.originalPrompt);
    PlannerUpdate(optimized, PromptAnalysis(|s.originalPrompt|, |optimized|, ExtractKeywords(optimized), StyleHints))
  }

  /** The planner's update dict. */
  function PlannerUpdate(optimized: string, analysis: PromptAnalysis): (u: Update)
    ensures Keys(u) == {OptimizedPromptKey, PromptAnalysisKey, CurrentNodeKey, NodeStatusKey}
    ensures u.optimizedPrompt == Some(optimized) && u.promptAnalysis == Some(analysis)
    ensures u.currentNode == Some("planner") && u.nodeStatus == Some(Completed)
  {
    EmptyUpdate.(optimizedPrompt := Some(optimized), promptAnalysis := Some(analysis),
                 currentNode := Some("planner"), nodeStatus := Some(Completed))
  }

  /** The planner writes exactly the prompt, the analysis, the node name and the status. */
  lemma PlannerWrites(s: AgentState)
    ensures Keys(PlannerNode(s)) == {OptimizedPromptKey, PromptAnalysisKey, CurrentNodeKey, NodeStatusKey}
  {
  }

  /** The prompt the generator uses: `state.get("optimized_prompt") or state["original_prompt"]`. */
  function EffectivePrompt(s: AgentState): (p: string)
    ensures s.optimizedPrompt.Some? && s.optimizedPrompt.value != [] ==> p == s.optimizedPrompt.value
    ensures s.optimizedPrompt.None? || s.optimizedPrompt.value == [] ==> p == s.originalPrompt
    ensures p == [] ==> s.originalPrompt == []
  {
    if s.optimizedPrompt.Some? && s.optimizedPrompt.value != [] then s.optimizedPrompt.value
    else s.originalPrompt
  }

  const GeneratorParams := GenerationParams(1024, 1024, 30, 75)
  const GenerationFailed := "Generation failed: "
  const InvalidPrompt := "Invalid or inappropriate prompt"

  /** The image synthesis collaborator: (prompt, index of the call) to the image or the error's text. */
  type Synthesizer = (string, nat) -> Result<string, string>

  /** The generator's update dict on failure. */
  function GeneratorFailure(detail: string): (u: Update)
    ensures Keys(u) == {CurrentNodeKey, NodeStatusKey, ErrorMessageKey}
    ensures u.currentNode == Some("generator") && u.nodeStatus == Some(Failed)
    ensures u.errorMessage == Some(GenerationFailed + detail)
  {
    EmptyUpdate.(currentNode := Some("generator"), nodeStatus := Some(Failed),
                 errorMessage := Some(GenerationFailed + detail))
  }

  /** `generator_node`: filter the prompt, call the synthesis collaborator once, and report. */
  function GeneratorNode(s: AgentState, synth: Synthesizer, attempt: nat): (u: Update)
    ensures u.currentNode == Some("generator")
    ensures var prompt := EffectivePrompt(s);
            u.nodeStatus == Some(Failed) <==> !SiliconFlow.PromptAccepted(prompt) || synth(prompt, attempt).Err?
    ensures !SiliconFlow.PromptAccepted(EffectivePrompt(s)) ==>
              u.errorMessage == Some(GenerationFailed + InvalidPrompt)
    ensures SiliconFlow.PromptAccepted(EffectivePrompt(s)) && synth(EffectivePrompt(s), attempt).Err? ==>
              u.errorMessage == Some(GenerationFailed + synth(EffectivePrompt(s), attempt).error)
    ensures u.nodeStatus == Some(Failed) ==>
              && Keys(u) == {CurrentNodeKey, NodeStatusKey, ErrorMessageKey}
              && u.errorMessage.Some? && GenerationFailed <= u.errorMessage.value
    ensures u.nodeStatus != Some(Failed) ==>
              && Keys(u) == {GeneratedImageKey, GenerationParamsKey, CurrentNodeKey, NodeStatusKey}
              && u.nodeStatus == Some(Completed)
              && synth(EffectivePrompt(s), attempt).Ok?
              && u.generatedImage == Some(synth(EffectivePrompt(s), attempt).value)
              && u.generationParams == Some(GenerationParams(1024, 1024, 30, 75))
  {
    var prompt := EffectivePrompt(s);
    if !SiliconFlow.PromptAccepted(prompt) then GeneratorFailure(InvalidPrompt)
    else
      match synth(prompt, attempt)
      case Err(e) => GeneratorFailure(e)
      case Ok(image) => GeneratorSuccess(image)
  }

  /** The generator's update dict on success. */
  function GeneratorSuccess(image: string): (u: Update)
    ensures Keys(u) == {GeneratedImageKey, GenerationParamsKey, CurrentNodeKey, NodeStatusKey}
    ensures u.generatedImage == Some(image) && u.generationParams == Some(GeneratorParams)
    ensures u.currentNode == Some("generator") && u.nodeStatus == Some(Completed)
  {
    EmptyUpdate.(generatedImage := Some(image), generationParams := Some(GeneratorParams),
                 currentNode := Some("generator"), nodeStatus := Some(Completed))
  }

  /** The keys the critic writes when the analysis succeeds. */
  const CriticKeys := {QualityScoreKey, FeedbackKey, IssuesFoundKey, ShouldRegenerateKey,
                       IterationCountKey, CurrentNodeKey, NodeStatusKey}

  /** `critic_node`. */
  function CriticNode(s: AgentState): (u: Update)
    ensures u.currentNode == Some("critic")
    ensures u.nodeStatus == Some(Failed) <==> AnalyzeImageQuality(s).Err?
    ensures AnalyzeImageQuality(s).Err? ==>
              && Keys(u) == {CurrentNodeKey, NodeStatusKey, ErrorMessageKey}
              && u.errorMessage == Some("Critic failed: " + AnalyzeImageQuality(s).error)
    ensures AnalyzeImageQuality(s).Ok? ==>
              var c := AnalyzeImageQuality(s).value;
              && Keys(u) == CriticKeys
              && u.nodeStatus == Some(Completed)
              && u.qualityScore == Some(c.score) && u.feedback == Some(c.feedback)
              && u.issuesFound == Some(c.issues)
              && u.shouldRegenerate == Some(c.score < Threshold && s.iterationCount < s.maxIterations)
              && u.iterationCount == Some(s.iterationCount + 1)
  {
    match AnalyzeImageQuality(s)
    case Err(e) => CriticFailure(e)
    case Ok(c) => CriticSuccess(c, c.score < Threshold && s.iterationCount < s.maxIterations, s.iterationCount + 1)
  }

  /** The critic's update dict when the analysis raised. */
  function CriticFailure(e: string): (u: Update)
    ensures Keys(u) == {CurrentNodeKey, NodeStatusKey, ErrorMessageKey}
    ensures u.currentNode == Some("critic") && u.nodeStatus == Some(Failed)
    ensures u.errorMessage == Some("Critic failed: " + e)
  {
    EmptyUpdate.(currentNode := Some("critic"), nodeStatus := Some(Failed),
                 errorMessage := Some("Critic failed: " + e))
  }

  /** The critic's update dict after an analysis. */
  function CriticSuccess(c: Critique, regenerate: bool, count: int): (u: Update)
    ensures Keys(u) == CriticKeys
    ensures u.qualityScore == Some(c.score) && u.feedback == Some(c.feedback) && u.issuesFound == Some(c.issues)
    ensures u.shouldRegenerate == Some(regenerate) && u.iterationCount == Some(count)
    ensures u.currentNode == Some("critic") && u.nodeStatus == Some(Completed)
  {
    EmptyUpdate.(qualityScore := Some(c.score), feedback := Some(c.feedback),
                 issuesFound := Some(c.issues), shouldRegenerate := Some(regenerate),
                 iterationCount := Some(count), currentNode := Some("critic"),
                 nodeStatus := Some(Completed))
  }

  /** `human_approval_node`: approval is granted at once. */
  function HumanApprovalNode(s: AgentState): (u: Update)
    ensures Keys(u) == {UserApprovedKey, CurrentNodeKey, NodeStatusKey}
    ensures u.userApproved == Some(true) && u.currentNode == Some("human_approval")
    ensures u.nodeStatus == Some(Completed)
  {
    EmptyUpdate.(userApproved := Some(true), currentNode := Some("human_approval"),
                 nodeStatus := Some(Completed))
  }

  // ---------------------------------------------------------------- node properties

  /** A successful critique changes only the critic's keys: image, prompts, params and inputs are untouched. */
  lemma CriticLeavesOtherKeys(s: AgentState)
    requires AnalyzeImageQuality(s).Ok?
    ensures UnchangedExcept(s, Merge(s, CriticNode(s)), CriticKeys)
    ensures Merge(s, CriticNode(s)).generatedImage == s.generatedImage
    ensures Merge(s, CriticNode(s)).optimizedPrompt == s.optimizedPrompt
  {
    MergeFrame(s, CriticNode(s));
  }

  /**
   * Without an image the critique scores 0 and reports "missing_image"; it
   * asks for regeneration exactly while the pre-increment count is below the bound.
   */
  lemma MissingImageCritique(s: AgentState)
    requires !ImagePresent(s)
    ensures var t := Merge(s, CriticNode(s));
            && t.nodeStatus == Completed
            && t.qualityScore == Some(0)
            && t.feedback == Some("No image generated")
            && t.issuesFound == Some(["missing_image"])
            && t.shouldRegenerate == (s.iterationCount < s.maxIterations)
            && t.iterationCount == s.iterationCount + 1
  {
  }

  /** With an image but no optimized prompt the critic fails with the `len(None)` message. */
  lemma CriticFailsWithoutOptimizedPrompt(s: AgentState)
    requires ImagePresent(s) && s.optimizedPrompt.None?
    ensures var t := Merge(s, CriticNode(s));
            && t.nodeStatus == Failed
            && t.currentNode == "critic"
            && t.errorMessage == Some("Critic failed: " + NoneLenError)
            && t.iterationCount == s.iterationCount
  {
  }

  /** A critique at or above the threshold never asks for regeneration. */
  lemma AcceptableScoreStops(s: AgentState)
    requires AnalyzeImageQuality(s).Ok? && AnalyzeImageQuality(s).value.score >= Threshold
    ensures !Merge(s, CriticNode(s)).shouldRegenerate
  {
  }
}
