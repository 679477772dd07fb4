/**
 * The session record `EnhancedEvaluationRAGState` threaded through the workflow,
 * and the rule by which the workflow runtime folds a node's returned values into it:
 * the three fields annotated with `operator.add` (attempt_history, all_results,
 * evaluation_log) are append-only logs that receive whatever list the node returns
 * for them (its whole current list, when the node returns the state spread back),
 * and every other field is replaced when the node writes it and kept otherwise.
 */
module State {
  import opened Wrappers
  import opened Templates

  /** One formatted search hit, as `search_knowledge` builds it. */
  datatype Doc = Doc(
    pineconeScore: real,
    title: string,
    fullContent: string,
    contentType: string,
    url: string,
    domain: string,
    category: string,
    tags: seq<string>)

  /** An `attempt_history` entry; its timestamp is not modelled. */
  datatype AttemptRecord = AttemptRecord(attempt: int, query: string, resultsCount: nat)

  /** Which of the evaluation node's four outcomes fired. */
  datatype Verdict = DosageFallbackUsed | Accepted | MaxAttemptsReached | Continuing

  /**
   * An `evaluation_log` line, kept as the values it is formatted from.
   * `SystemError` only appears in the entry point's error result.
   */
  datatype LogEntry =
    | Started(query: string)
    | Searched(attempt: int, query: string, resultsCount: nat)
    | Evaluated(confidence: real, reasoning: string, verdict: Verdict)
    | SystemError(message: string)

  /**
   * The `final_answer` text, kept as what produced it: free text, or one of the fixed
   * replies (its text is `AnswerText`).
   */
  datatype Answer = Plain(text: string) | Fixed(template: Template)

  function AnswerText(a: Answer): string {
    match a
    case Plain(t) => t
    case Fixed(t) => ReplyText(t)
  }

  datatype State = State(
    originalQuery: string,
    currentQuery: string,
    attemptCount: int,
    attemptHistory: seq<AttemptRecord>,
    searchResults: seq<Doc>,
    modelConfidence: real,
    allResults: seq<seq<Doc>>,
    evaluationLog: seq<LogEntry>,
    finalAnswer: Answer,
    shouldContinue: bool,
    escalate: bool,
    queryIntent: string,
    businessType: string,
    requiresTradeSecretFilter: bool,
    confidenceThresholdOverride: real,
    companyContextAdded: bool)

  /**
   * What a node returns: a value for each plain field it writes (None: not written)
   * and the list it hands to each append-only log.
   */
  datatype Update = Update(
    originalQuery: Option<string>,
    currentQuery: Option<string>,
    attemptCount: Option<int>,
    attemptHistory: seq<AttemptRecord>,
    searchResults: Option<seq<Doc>>,
    modelConfidence: Option<real>,
    allResults: seq<seq<Doc>>,
    evaluationLog: seq<LogEntry>,
    finalAnswer: Option<Answer>,
    shouldContinue: Option<bool>,
    escalate: Option<bool>,
    queryIntent: Option<string>,
    businessType: Option<string>,
    requiresTradeSecretFilter: Option<bool>,
    confidenceThresholdOverride: Option<real>,
    companyContextAdded: Option<bool>)

  /** A node that returns its input state unchanged writes nothing. */
  const NoChange: Update :=
    Update(None, None, None, [], None, None, [], [], None, None, None, None, None, None, None, None)

  /** The merge of `state.py`: `operator.add` on the three logs, replacement elsewhere. */
  function Merge(s: State, u: Update): (r: State)
    ensures s.attemptHistory <= r.attemptHistory && r.attemptHistory[|s.attemptHistory|..] == u.attemptHistory
    ensures s.allResults <= r.allResults && r.allResults[|s.allResults|..] == u.allResults
    ensures s.evaluationLog <= r.evaluationLog && r.evaluationLog[|s.evaluationLog|..] == u.evaluationLog
  {
    State(
      u.originalQuery.GetOr(s.originalQuery),
      u.currentQuery.GetOr(s.currentQuery),
      u.attemptCount.GetOr(s.attemptCount),
      s.attemptHistory + u.attemptHistory,
      u.searchResults.GetOr(s.searchResults),
      u.modelConfidence.GetOr(s.modelConfidence),
      s.allResults + u.allResults,
      s.evaluationLog + u.evaluationLog,
      u.finalAnswer.GetOr(s.finalAnswer),
      u.shouldContinue.GetOr(s.shouldContinue),
      u.escalate.GetOr(s.escalate),
      u.queryIntent.GetOr(s.queryIntent),
      u.businessType.GetOr(s.businessType),
      u.requiresTradeSecretFilter.GetOr(s.requiresTradeSecretFilter),
      u.confidenceThresholdOverride.GetOr(s.confidenceThresholdOverride),
      u.companyContextAdded.GetOr(s.companyContextAdded))
  }

  /** An update that writes nothing leaves every field, logs included, as it was. */
  lemma MergeNoChange(s: State)
    ensures Merge(s, NoChange) == s
  {
  }

  /**
   * What a node hands back when it returns `{**state, ...}` or `return state`: every
   * plain field with the value it already has, which changes nothing, and each log's
   * whole current list, which that log's `operator.add` reducer appends once more.
   */
  function Spread(s: State): Update {
    NoChange.(attemptHistory := s.attemptHistory, allResults := s.allResults, evaluationLog := s.evaluationLog)
  }

  /** `s` with each of the three logs followed by a second copy of itself. */
  function Doubled(s: State): State {
    s.(attemptHistory := s.attemptHistory + s.attemptHistory,
       allResults := s.allResults + s.allResults,
       evaluationLog := s.evaluationLog + s.evaluationLog)
  }

  /**
   * Handing the state back doubles each of the three logs, keeps every other field,
   * and so changes the state exactly when some log is not empty.
   */
  lemma MergeSpread(s: State)
    ensures Merge(s, Spread(s)) == Doubled(s)
    ensures |Merge(s, Spread(s)).evaluationLog| == 2 * |s.evaluationLog|
    ensures Merge(s, Spread(s)) == s <==> s.attemptHistory == [] && s.allResults == [] && s.evaluationLog == []
  {
    var d := Merge(s, Spread(s));
    if d == s {
      assert |d.attemptHistory| == |s.attemptHistory| + |s.attemptHistory|;
      assert |d.allResults| == |s.allResults| + |s.allResults|;
      assert |d.evaluationLog| == |s.evaluationLog| + |s.evaluationLog|;
    }
  }
}
