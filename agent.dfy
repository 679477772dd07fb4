/**
 * The entry point `EnhancedEvaluationRAGAgent.ask`: build the initial state, run the
 * compiled workflow from START, and project the final state into the result record;
 * an exception raised during the run is turned into a fixed error record.
 */
module Agent {
  import opened Wrappers
  import opened State
  import opened Oracles
  import opened Templates
  import Intent = IntentDetection
  import Handlers = BusinessHandlers
  import Nodes = WorkflowNodes
  import opened Workflow

  /** The state `ask` hands to the workflow: the question, empty logs and the default classification. */
  function InitialState(userQuery: string): State {
    State(
      originalQuery := userQuery,
      currentQuery := "",
      attemptCount := 0,
      attemptHistory := [],
      searchResults := [],
      modelConfidence := 0.0,
      allResults := [],
      evaluationLog := [],
      finalAnswer := Plain(""),
      shouldContinue := true,
      escalate := false,
      queryIntent := "general",
      businessType := "none",
      requiresTradeSecretFilter := false,
      confidenceThresholdOverride := 7.0,
      companyContextAdded := false)
  }

  /** The dictionary `ask` returns; the error record has no attempt history. */
  datatype AskResult = AskResult(
    query: string,
    answer: string,
    attempts: int,
    modelConfidence: real,
    evaluationLog: seq<LogEntry>,
    escalated: bool,
    attemptHistory: Option<seq<AttemptRecord>>,
    queryIntent: string,
    businessType: string,
    tradeSecretHandled: bool)

  const SystemErrorPrefix := "Błąd systemu Enhanced Evaluation RAG: "

  /** The record of a successful run. */
  function Project(userQuery: string, f: State): AskResult {
    AskResult(userQuery, AnswerText(f.finalAnswer), f.attemptCount, f.modelConfidence, f.evaluationLog, f.escalate,
              Some(f.attemptHistory), f.queryIntent, f.businessType, f.requiresTradeSecretFilter)
  }

  /** The run `ask` makes for a question. */
  function RunOf(userQuery: string, svc: Services): Run {
    Execute(Start, InitialState(userQuery), svc)
  }

  /**
   * `ask`. `failure` is the message of an exception raised while the workflow runs,
   * which the model takes as given rather than deriving.
   */
  function Ask(userQuery: string, svc: Services, failure: Option<string>): (r: AskResult)
    ensures r.query == userQuery
    ensures failure.Some? ==>
              && r.answer == SystemErrorPrefix + failure.value
              && r.escalated && r.attempts == 0 && r.modelConfidence == 0.0
              && r.evaluationLog == [SystemError(failure.value)]
              && r.queryIntent == "error" && r.businessType == "none" && !r.tradeSecretHandled
              && r.attemptHistory.None?
    ensures failure.None? ==> r.attemptHistory.Some?
  {
    match failure
    case Some(e) =>
      AskResult(userQuery, SystemErrorPrefix + e, 0, 0.0, [SystemError(e)], true, None, "error", "none", false)
    case None =>
      Project(userQuery, RunOf(userQuery, svc).final)
  }

  /** True when the classification sends the question to the business handler. */
  predicate IsBusiness(c: Intent.Classification) {
    c.businessType == "partnership" || c.businessType == "technical_support"
  }

  /** The state `ask`'s run reaches after set-up and intent analysis: the start line, doubled. */
  lemma IntakeOfQuestion(userQuery: string, svc: Services)
    ensures var a := Intake(InitialState(userQuery), svc);
            var c := Intent.Classify(userQuery, svc);
            && a.originalQuery == userQuery && a.attemptCount == 0 && !a.escalate
            && a.attemptHistory == [] && a.allResults == [] && a.evaluationLog == [Started(userQuery), Started(userQuery)]
            && a.queryIntent == c.intent && a.businessType == c.businessType
            && a.requiresTradeSecretFilter == c.tradeSecret && a.confidenceThresholdOverride == c.threshold
  {
    IntakeEffect(InitialState(userQuery), svc);
  }

  /**
   * The short circuits: a partnership or support question gets its fixed reply at
   * confidence 10.0 or 9.0, a production-secret question the refusal at 9.0; no search
   * runs, the attempt count stays 0, and the log holds the start line four times (intent
   * analysis and the handler each hand the log back whole).
   */
  lemma ShortCircuitAnswers(userQuery: string, svc: Services)
    ensures var c := Intent.Classify(userQuery, svc);
            var r := Ask(userQuery, svc, None);
            && (c.businessType == "partnership" ==>
                  r.answer == ReplyText(Partnership) && r.modelConfidence == 10.0)
            && (c.businessType == "technical_support" ==>
                  r.answer == ReplyText(Support) && r.modelConfidence == 9.0)
            && (!IsBusiness(c) && c.tradeSecret ==>
                  r.answer == ReplyText(TradeSecret) && r.modelConfidence == 9.0 && r.tradeSecretHandled)
            && (IsBusiness(c) || c.tradeSecret ==>
                  && r.attempts == 0 && r.attemptHistory == Some([]) && !r.escalated
                  && r.evaluationLog == [Started(userQuery), Started(userQuery), Started(userQuery), Started(userQuery)]
                  && r.queryIntent == c.intent && r.businessType == c.businessType
                  && ExecuteSearchAttempt !in RunOf(userQuery, svc).trace)
  {
    var s := InitialState(userQuery);
    IntakeOfQuestion(userQuery, svc);
    ShortCircuitOutcome(s, svc);
  }

  /** `n` rounds hold `n` searches and `n` evaluations. */
  lemma {:induction false} RoundsCount(n: nat)
    ensures multiset(Rounds(n))[ExecuteSearchAttempt] == n
    ensures multiset(Rounds(n))[EnhancedEvaluateContentQuality] == n
    ensures multiset(Rounds(n))[GenerateEvaluationAnswer] == 0
  {
    if n > 0 {
      RoundsCount(n - 1);
      assert Rounds(n) == [ExecuteSearchAttempt, EnhancedEvaluateContentQuality] + Rounds(n - 1);
    }
  }

  /**
   * A question that reaches the search loop: it stops at the first attempt whose score
   * reaches the threshold the intent set, else after the third; the answer node runs once
   * after the last evaluation; the run escalates exactly when the last score is under the
   * threshold and the intent is not dosage, and then answers with the escalation reply.
   * Because each evaluation and the answer node hand the lists back whole, `k` attempts
   * leave `4 * 2^k - 4` history records and `4 + 4k` log lines.
   */
  lemma SearchPathAnswers(userQuery: string, svc: Services)
    ensures var c := Intent.Classify(userQuery, svc);
            var r := Ask(userQuery, svc, None);
            var run := RunOf(userQuery, svc);
            var k := LastAttempt(userQuery, c.threshold, svc, 1);
            var score := AttemptScore(userQuery, k, svc);
            !IsBusiness(c) && !c.tradeSecret ==>
              && run.trace == [InitializeEvaluation, AnalyzeQueryIntent] + Rounds(k) + [GenerateEvaluationAnswer]
              && multiset(run.trace)[ExecuteSearchAttempt] == k
              && multiset(run.trace)[EnhancedEvaluateContentQuality] == k
              && multiset(run.trace)[GenerateEvaluationAnswer] == 1
              && r.attempts == k && 1 <= k <= Nodes.MaxReasoningAttempts
              && r.attemptHistory.Some? && |r.attemptHistory.value| == 4 * Pow2(k) - 4
              && |r.evaluationLog| == 4 + 4 * k
              && r.escalated == (score < c.threshold && c.intent != "dosage")
              && r.modelConfidence == (if score < c.threshold && c.intent == "dosage" then 7.0 else score)
              && (r.escalated ==> r.answer == ReplyText(Escalation))
              && !r.tradeSecretHandled
  {
    var c := Intent.Classify(userQuery, svc);
    if !IsBusiness(c) && !c.tradeSecret {
      var a := Intake(InitialState(userQuery), svc);
      var k := LastAttempt(userQuery, c.threshold, svc, 1);
      var run := RunOf(userQuery, svc);
      IntakeOfQuestion(userQuery, svc);
      SearchRun(userQuery, svc);
      LoopResult(userQuery, c, a, LoopEnd(a, svc), run.final, k, AttemptScore(userQuery, k, svc));
      assert Ask(userQuery, svc, None) == Project(userQuery, run.final);
      PathCounts(run.trace, k);
    }
  }

  /**
   * The run of a question that reaches the search loop, in terms of the state `p` the
   * loop leaves for the answer node.
   */
  lemma SearchRun(userQuery: string, svc: Services)
    ensures var c := Intent.Classify(userQuery, svc);
            var a := Intake(InitialState(userQuery), svc);
            var run := RunOf(userQuery, svc);
            var k := LastAttempt(userQuery, c.threshold, svc, 1);
            var p := LoopEnd(a, svc);
            !IsBusiness(c) && !c.tradeSecret ==>
              && PreShape(a, p, k, AttemptScore(userQuery, k, svc))
              && run.trace == [InitializeEvaluation, AnalyzeQueryIntent] + (Rounds(k) + [GenerateEvaluationAnswer])
              && run.final == Doubled(p).(finalAnswer := run.final.finalAnswer)
              && (run.final.escalate ==> run.final.finalAnswer == Fixed(Escalation))
  {
    var c := Intent.Classify(userQuery, svc);
    var s := InitialState(userQuery);
    IntakeOfQuestion(userQuery, svc);
    SearchPathOutcome(s, svc);
    if !IsBusiness(c) && !c.tradeSecret {
      EscalationGivesEscalationReply(Intake(s, svc), svc);
    }
  }

  /**
   * The search-path facts about the answered state `f`, from the shape of the loop
   * entered on the state intake left and stopping at attempt `k` in state `p`, whose
   * logs the answer node doubles.
   */
  lemma LoopResult(userQuery: string, c: Intent.Classification, a: State, p: State, f: State, k: int, score: real)
    requires a.originalQuery == userQuery && a.attemptCount == 0 && !a.escalate
    requires a.attemptHistory == [] && a.allResults == [] && |a.evaluationLog| == 2
    requires a.queryIntent == c.intent && a.confidenceThresholdOverride == c.threshold
    requires a.requiresTradeSecretFilter == c.tradeSecret && !c.tradeSecret
    requires PreShape(a, p, k, score) && k <= Nodes.MaxReasoningAttempts
    requires f == Doubled(p).(finalAnswer := f.finalAnswer)
    requires f.escalate ==> f.finalAnswer == Fixed(Escalation)
    ensures var r := Project(userQuery, f);
            && r.attempts == k && 1 <= k <= Nodes.MaxReasoningAttempts
            && r.attemptHistory.Some? && |r.attemptHistory.value| == 4 * Pow2(k) - 4
            && |r.evaluationLog| == 4 + 4 * k
            && r.escalated == (score < c.threshold && c.intent != "dosage")
            && r.modelConfidence == (if score < c.threshold && c.intent == "dosage" then 7.0 else score)
            && (r.escalated ==> r.answer == ReplyText(Escalation))
            && !r.tradeSecretHandled
  {
    assert |p.attemptHistory| == GrownLength(0, k);
    assert f.attemptHistory == p.attemptHistory + p.attemptHistory;
    assert f.evaluationLog == p.evaluationLog + p.evaluationLog;
    AnsweredLogLengths(p, f, k);
  }

  /** The logs of the answered state, from the loop's `k` rounds on intake's two start lines. */
  lemma AnsweredLogLengths(p: State, f: State, k: nat)
    requires |p.attemptHistory| == GrownLength(0, k) && |p.evaluationLog| == 2 + 2 * k
    requires f.attemptHistory == p.attemptHistory + p.attemptHistory
    requires f.evaluationLog == p.evaluationLog + p.evaluationLog
    ensures |f.attemptHistory| == 4 * Pow2(k) - 4 && |f.evaluationLog| == 4 + 4 * k
  {
    GrownLengthClosed(0, k);
  }

  /** A search-path trace holds `k` searches, `k` evaluations and one answer. */
  lemma PathCounts(trace: seq<Node>, k: nat)
    requires trace == [InitializeEvaluation, AnalyzeQueryIntent] + (Rounds(k) + [GenerateEvaluationAnswer])
    ensures trace == [InitializeEvaluation, AnalyzeQueryIntent] + Rounds(k) + [GenerateEvaluationAnswer]
    ensures multiset(trace)[ExecuteSearchAttempt] == k
    ensures multiset(trace)[EnhancedEvaluateContentQuality] == k
    ensures multiset(trace)[GenerateEvaluationAnswer] == 1
  {
    RoundsCount(k);
    assert multiset(trace) == multiset([InitializeEvaluation, AnalyzeQueryIntent]) + multiset(Rounds(k)) + multiset([GenerateEvaluationAnswer]);
  }

  /** No session runs the search more than three times, and no run takes more than nine steps. */
  lemma AtMostThreeSearches(userQuery: string, svc: Services)
    ensures multiset(RunOf(userQuery, svc).trace)[ExecuteSearchAttempt] <= Nodes.MaxReasoningAttempts
    ensures |RunOf(userQuery, svc).trace| <= 3 + 2 * Nodes.MaxReasoningAttempts
    ensures Ask(userQuery, svc, None).attempts <= Nodes.MaxReasoningAttempts
  {
    ShortCircuitAnswers(userQuery, svc);
    SearchPathAnswers(userQuery, svc);
    var c := Intent.Classify(userQuery, svc);
    if IsBusiness(c) || c.tradeSecret {
      var s := InitialState(userQuery);
      RunFromStart(s, svc);
      IntakeEffect(s, svc);
    }
  }
}
