/**
 * The two short-circuit nodes: business enquiries and questions about production
 * secrets get a fixed reply and a fixed confidence, and the search loop never runs.
 */
module BusinessHandlers {
  import opened Wrappers
  import opened State
  import opened Text
  import opened Templates

  /**
   * The reply written by a short circuit, returned as `{**state, ...}`: the answer, no
   * continuation and the confidence, with each log handed back to its reducer.
   */
  function FixedReply(s: State, answer: Template, confidence: real): Update {
    Spread(s).(finalAnswer := Some(Fixed(answer)), shouldContinue := Some(false), modelConfidence := Some(confidence))
  }

  /** The state after a short circuit that replied with `answer` at `confidence`. */
  function Replied(s: State, answer: Template, confidence: real): State {
    Doubled(s).(finalAnswer := Fixed(answer), shouldContinue := false, modelConfidence := confidence)
  }

  /**
   * `handle_business_query`. Every branch returns the state spread back (`return state`
   * included), so the logs are doubled whatever the business type.
   */
  function HandleBusinessQuery(s: State): (u: Update)
    ensures s.businessType == "partnership" ==> Merge(s, u) == Replied(s, Partnership, 10.0)
    ensures s.businessType == "technical_support" ==> Merge(s, u) == Replied(s, Support, 9.0)
    ensures s.businessType != "partnership" && s.businessType != "technical_support" ==> Merge(s, u) == Doubled(s)
  {
    if s.businessType == "partnership" then FixedReply(s, Partnership, 10.0)
    else if s.businessType == "technical_support" then FixedReply(s, Support, 9.0)
    else Spread(s)
  }

  /** `check_trade_secrets`; as above, both branches hand the logs back. */
  function CheckTradeSecrets(s: State): (u: Update)
    ensures s.requiresTradeSecretFilter ==> Merge(s, u) == Replied(s, TradeSecret, 9.0)
    ensures !s.requiresTradeSecretFilter ==> Merge(s, u) == Doubled(s)
  {
    if s.requiresTradeSecretFilter then FixedReply(s, TradeSecret, 9.0) else Spread(s)
  }

  /**
   * After `handle_business_query` the state is the input with its logs doubled, apart
   * from the answer, the continuation flag and the confidence; the search counters and
   * the classification are untouched; and whenever a reply was written it gives the
   * contact number.
   */
  lemma BusinessReplyOnlyAnswers(s: State)
    ensures var t := Merge(s, HandleBusinessQuery(s));
            && t.(finalAnswer := s.finalAnswer, shouldContinue := s.shouldContinue, modelConfidence := s.modelConfidence) == Doubled(s)
            && |t.evaluationLog| == 2 * |s.evaluationLog| && t.attemptCount == s.attemptCount
            && t.queryIntent == s.queryIntent && t.businessType == s.businessType && t.escalate == s.escalate
            && (t.finalAnswer != s.finalAnswer ==> t.finalAnswer.Fixed? && Contains(AnswerText(t.finalAnswer), ContactPhone))
  {
    var t := Merge(s, HandleBusinessQuery(s));
    if t.finalAnswer.Fixed? {
      RepliesGiveContactPhone(t.finalAnswer.template);
    }
  }

  /** The same for `check_trade_secrets`. */
  lemma TradeSecretReplyOnlyAnswers(s: State)
    ensures var t := Merge(s, CheckTradeSecrets(s));
            && t.(finalAnswer := s.finalAnswer, shouldContinue := s.shouldContinue, modelConfidence := s.modelConfidence) == Doubled(s)
            && |t.evaluationLog| == 2 * |s.evaluationLog| && t.attemptCount == s.attemptCount
            && t.queryIntent == s.queryIntent && t.businessType == s.businessType && t.escalate == s.escalate
            && (t.finalAnswer != s.finalAnswer ==> t.finalAnswer.Fixed? && Contains(AnswerText(t.finalAnswer), ContactPhone))
  {
    var t := Merge(s, CheckTradeSecrets(s));
    if t.finalAnswer.Fixed? {
      RepliesGiveContactPhone(t.finalAnswer.template);
    }
  }
}
