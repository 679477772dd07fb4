/**
 * The four nodes of the attempt loop: set-up, one search attempt, the evaluation
 * decision and the final answer. Each returns the update it hands to the workflow.
 */
module WorkflowNodes {
  import opened Wrappers
  import opened Text
  import opened State
  import opened Oracles
  import opened Templates
  import opened Components

  /** `MAX_REASONING_ATTEMPTS` of config.py. */
  const MaxReasoningAttempts := 3

  const NothingFoundReply := "Nie znalazłem informacji na ten temat. Czy możesz sprecyzować pytanie?"
  const AnswerFailedReply := "Przepraszam, wystąpił błąd. Spróbuj ponownie."
  const ProductsHeader := "\n\n\U{1F6D2} **PRODUKTY AQUAFOREST:**\n"

  // ------------------------------------------------------------------ set-up

  /** `initialize_evaluation`. */
  function InitializeEvaluation(s: State): (u: Update)
    ensures var t := Merge(s, u);
            && t.currentQuery == s.originalQuery && t.attemptCount == 0
            && t.shouldContinue && !t.escalate
            && t.queryIntent == "general" && t.businessType == "none"
            && !t.requiresTradeSecretFilter && t.confidenceThresholdOverride == 7.0 && !t.companyContextAdded
            && t.evaluationLog == s.evaluationLog + [Started(s.originalQuery)]
            && t.attemptHistory == s.attemptHistory && t.allResults == s.allResults
            && t.originalQuery == s.originalQuery && t.searchResults == s.searchResults
            && t.modelConfidence == s.modelConfidence && t.finalAnswer == s.finalAnswer
  {
    NoChange.(currentQuery := Some(s.originalQuery), attemptCount := Some(0),
              evaluationLog := [Started(s.originalQuery)],
              shouldContinue := Some(true), escalate := Some(false),
              queryIntent := Some("general"), businessType := Some("none"),
              requiresTradeSecretFilter := Some(false), confidenceThresholdOverride := Some(7.0),
              companyContextAdded := Some(false))
  }

  // ------------------------------------------------------------------ search

  /** `execute_search_attempt`. */
  function ExecuteSearchAttempt(s: State, svc: Services): (u: Update)
    ensures var t := Merge(s, u);
            && t.attemptCount == s.attemptCount + 1
            && t.currentQuery == OptimizeQueryForAttempt(s.originalQuery, t.attemptCount, s.evaluationLog)
            && t.searchResults == SearchResults(t.currentQuery, DefaultTopK, svc)
            && t.attemptHistory == s.attemptHistory + [AttemptRecord(t.attemptCount, t.currentQuery, |t.searchResults|)]
            && t.allResults == s.allResults + [t.searchResults]
            && t.evaluationLog == s.evaluationLog + [Searched(t.attemptCount, t.currentQuery, |t.searchResults|)]
            && t.(currentQuery := s.currentQuery, attemptCount := s.attemptCount, searchResults := s.searchResults,
                  attemptHistory := s.attemptHistory, allResults := s.allResults, evaluationLog := s.evaluationLog) == s
  {
    var attempt := s.attemptCount + 1;
    var query := OptimizeQueryForAttempt(s.originalQuery, attempt, s.evaluationLog);
    var results := SearchResults(query, DefaultTopK, svc);
    NoChange.(currentQuery := Some(query), attemptCount := Some(attempt), searchResults := Some(results),
              attemptHistory := [AttemptRecord(attempt, query, |results|)], allResults := [results],
              evaluationLog := [Searched(attempt, query, |results|)])
  }

  // -------------------------------------------------------------- evaluation

  /** The four mutually exclusive outcomes of the evaluation node, in the order they are tested. */
  function Decide(intent: string, confidence: real, threshold: real, attempt: int): (v: Verdict)
    ensures v == DosageFallbackUsed <==> intent == "dosage" && confidence < threshold && attempt >= MaxReasoningAttempts
    ensures v == Accepted <==> confidence >= threshold
    ensures v == MaxAttemptsReached <==> intent != "dosage" && confidence < threshold && attempt >= MaxReasoningAttempts
    ensures v == Continuing <==> confidence < threshold && attempt < MaxReasoningAttempts
  {
    if intent == "dosage" && confidence < threshold && attempt >= MaxReasoningAttempts then DosageFallbackUsed
    else if confidence >= threshold then Accepted
    else if attempt >= MaxReasoningAttempts then MaxAttemptsReached
    else Continuing
  }

  /** The scorer's verdict on the current results, against the original question. */
  function Judge(s: State, svc: Services): (real, string) {
    EvaluateContentQuality(s.originalQuery, s.searchResults, svc)
  }

  /**
   * `enhanced_evaluate_content_quality`: continue exactly when the score is below the
   * threshold before the last attempt; escalate only when attempts are exhausted and the
   * intent is not dosage; the dosage fallback writes its reply and confidence 7.0. Every
   * branch spreads the state back, so the search history and results are handed back
   * whole (and so doubled) while the evaluation log receives only the new entry.
   */
  function EnhancedEvaluateContentQuality(s: State, svc: Services): (u: Update)
    ensures var (confidence, reasoning) := Judge(s, svc);
            var v := Decide(s.queryIntent, confidence, s.confidenceThresholdOverride, s.attemptCount);
            && u.shouldContinue == Some(v == Continuing)
            && u.escalate == (if v == MaxAttemptsReached then Some(true) else None)
            && u.modelConfidence == Some(if v == DosageFallbackUsed then 7.0 else confidence)
            && u.finalAnswer == (if v == DosageFallbackUsed then Some(Fixed(DosageFallback)) else None)
            && u.evaluationLog == [Evaluated(confidence, Take(reasoning, 50), v)]
    ensures u.(shouldContinue := None, escalate := None, modelConfidence := None, finalAnswer := None,
               evaluationLog := s.evaluationLog) == Spread(s)
    ensures var t := Merge(s, u);
            && t.attemptHistory == s.attemptHistory + s.attemptHistory && t.allResults == s.allResults + s.allResults
            && t.evaluationLog == s.evaluationLog + u.evaluationLog && |t.evaluationLog| == |s.evaluationLog| + 1
  {
    var (confidence, reasoning) := Judge(s, svc);
    var v := Decide(s.queryIntent, confidence, s.confidenceThresholdOverride, s.attemptCount);
    var entry := [Evaluated(confidence, Take(reasoning, 50), v)];
    match v
    case DosageFallbackUsed =>
      Spread(s).(finalAnswer := Some(Fixed(DosageFallback)), shouldContinue := Some(false),
                 modelConfidence := Some(7.0), evaluationLog := entry)
    case Accepted =>
      Spread(s).(modelConfidence := Some(confidence), shouldContinue := Some(false), evaluationLog := entry)
    case MaxAttemptsReached =>
      Spread(s).(modelConfidence := Some(confidence), shouldContinue := Some(false), escalate := Some(true),
                 evaluationLog := entry)
    case Continuing =>
      Spread(s).(modelConfidence := Some(confidence), shouldContinue := Some(true), evaluationLog := entry)
  }

  /** A dosage question is never escalated, and the loop continues only below the attempt bound. */
  lemma EvaluationNeverEscalatesDosage(s: State, svc: Services)
    ensures s.queryIntent == "dosage" ==> EnhancedEvaluateContentQuality(s, svc).escalate.None?
    ensures EnhancedEvaluateContentQuality(s, svc).shouldContinue == Some(true) ==> s.attemptCount < MaxReasoningAttempts
    ensures s.attemptCount >= MaxReasoningAttempts ==> EnhancedEvaluateContentQuality(s, svc).shouldContinue == Some(false)
  {
  }

  // ------------------------------------------------------------------ answer

  /** The source block of the `i`-th result (0-based) in the answer prompt; the whole body is given. */
  function SourceBlock(i: nat, d: Doc): string {
    "\n--- ŹRÓDŁO " + NatToString(i + 1) + " ---\n"
    + "Tytuł: " + d.title + "\n"
    + "Typ: " + d.contentType + "\n"
    + "Treść: " + d.fullContent + "\n"
  }

  function SourceBlocks(rs: seq<Doc>): string
    decreases |rs|
  {
    if rs == [] then "" else SourceBlocks(rs[..|rs| - 1]) + SourceBlock(|rs| - 1, rs[|rs| - 1])
  }

  /** A result whose link is offered: a product with a non-empty url. */
  predicate IsLinkedProduct(d: Doc) {
    d.contentType == "product" && d.url != ""
  }

  function ProductLink(d: Doc): string {
    "• " + d.title + ": " + d.url
  }

  /** The links of the linked products among `rs`, in order. */
  function ProductLinks(rs: seq<Doc>): (links: seq<string>)
    ensures |links| <= |rs|
    ensures (forall i :: 0 <= i < |rs| ==> !IsLinkedProduct(rs[i])) <==> links == []
    decreases |rs|
  {
    if rs == [] then []
    else
      var last := rs[|rs| - 1];
      var front := rs[..|rs| - 1];
      var links := ProductLinks(front) + (if IsLinkedProduct(last) then [ProductLink(last)] else []);
      assert forall i :: 0 <= i < |front| ==> front[i] == rs[i];
      links
  }

  /** The results the answer is built from: the first three. */
  function AnswerResults(results: seq<Doc>): (rs: seq<Doc>)
    ensures |rs| <= 3 && |rs| <= |results| && rs == results[..|rs|]
    ensures |results| >= 3 ==> |rs| == 3
  {
    results[..Min(3, |results|)]
  }

  /** The loop of `generate_evaluation_answer` over the first three results. */
  method CollectAnswerSources(results: seq<Doc>) returns (context: string, links: seq<string>)
    ensures context == SourceBlocks(AnswerResults(results))
    ensures links == ProductLinks(AnswerResults(results))
    ensures |links| <= 3
  {
    var rs := AnswerResults(results);
    context, links := "", [];
    for i := 0 to |rs|
      invariant context == SourceBlocks(rs[..i])
      invariant links == ProductLinks(rs[..i])
    {
      assert rs[..i + 1][..i] == rs[..i];
      context := context + SourceBlock(i, rs[i]);
      if IsLinkedProduct(rs[i]) {
        links := links + [ProductLink(rs[i])];
      }
    }
    assert rs[..|rs|] == rs;
  }

  /** The generated answer with the product links appended when there are any (never more than three). */
  function WithProductLinks(answer: string, links: seq<string>): string {
    if links != [] && |links| <= 3 then answer + ProductsHeader + Join(links, "\n") else answer
  }

  /**
   * `generate_evaluation_answer`: writes the final answer and spreads the state back, so
   * the merged state is the input with its logs doubled and the new answer.
   */
  function GenerateEvaluationAnswer(s: State, svc: Services): (u: Update)
    ensures u.finalAnswer.Some? && u.(finalAnswer := None) == Spread(s)
    ensures Merge(s, u) == Doubled(s).(finalAnswer := u.finalAnswer.value)
    ensures s.escalate ==> u.finalAnswer == Some(Fixed(Escalation))
    ensures !s.escalate && s.searchResults == [] ==> u.finalAnswer == Some(Plain(NothingFoundReply))
    ensures !s.escalate && s.searchResults != [] ==>
      var rs := AnswerResults(s.searchResults);
      match svc.llm(AnswerPrompt(s.attemptCount, s.modelConfidence, s.queryIntent, s.evaluationLog,
                                 SourceBlocks(rs), s.originalQuery))
      case Raised(_) => u.finalAnswer == Some(Plain(AnswerFailedReply))
      case Completed(text) =>
        && ((forall i :: 0 <= i < |rs| ==> !IsLinkedProduct(rs[i])) ==> u.finalAnswer == Some(Plain(text)))
        && ((exists i :: 0 <= i < |rs| && IsLinkedProduct(rs[i])) ==>
              u.finalAnswer == Some(Plain(text + ProductsHeader + Join(ProductLinks(rs), "\n"))))
  {
    if s.escalate then Spread(s).(finalAnswer := Some(Fixed(Escalation)))
    else if s.searchResults == [] then Spread(s).(finalAnswer := Some(Plain(NothingFoundReply)))
    else
      var rs := AnswerResults(s.searchResults);
      var prompt := AnswerPrompt(s.attemptCount, s.modelConfidence, s.queryIntent, s.evaluationLog,
                                 SourceBlocks(rs), s.originalQuery);
      match svc.llm(prompt)
      case Raised(_) => Spread(s).(finalAnswer := Some(Plain(AnswerFailedReply)))
      case Completed(text) => Spread(s).(finalAnswer := Some(Plain(WithProductLinks(text, ProductLinks(rs)))))
  }

  /** The answer node never reads the answer already in the state: a dosage fallback reply is overwritten. */
  lemma AnswerIgnoresEarlierAnswer(s: State, earlier: Answer, svc: Services)
    ensures GenerateEvaluationAnswer(s.(finalAnswer := earlier), svc) == GenerateEvaluationAnswer(s, svc)
  {
  }

  /** Only the first three results reach the answer: titles, types and bodies past them change nothing. */
  lemma AnswerReadsFirstThree(s: State, more: seq<Doc>, svc: Services)
    requires |s.searchResults| >= 3
    ensures GenerateEvaluationAnswer(s.(searchResults := s.searchResults + more), svc) == GenerateEvaluationAnswer(s, svc)
  {
    assert AnswerResults(s.searchResults + more) == AnswerResults(s.searchResults);
  }
}
