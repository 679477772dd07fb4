/**
 * The remote services the agent calls, as values the model receives: the vector
 * index (embedding and nearest-neighbour query), the components' chat model and
 * the query optimizer's chat model. A call that raises is a `Raised` or
 * `SearchFailed` reply. Prompts are passed as the values they are built from; the
 * fixed prompt wording is not modelled.
 */
module Oracles {
  import opened Wrappers
  import opened State

  /** A match's metadata; a key the index did not send is None. */
  datatype MatchMeta = MatchMeta(
    title: Option<string>,
    fullContent: Option<string>,
    contentType: Option<string>,
    url: Option<string>,
    domain: Option<string>,
    category: Option<string>,
    tags: Option<seq<string>>)

  /** One raw index match; `metadata` is None when the match has no metadata key. */
  datatype Match = Match(score: Option<real>, metadata: Option<MatchMeta>)

  /** The index's reply to `query(vector, namespace='pl', top_k, include_metadata=True)`. */
  datatype SearchReply =
    | Matches(matches: Option<seq<Match>>)  // None: the reply has no 'matches' key
    | SearchFailed                          // the embedding or the query raised

  /** A chat model's reply: the message content, or the text of the exception raised. */
  datatype Reply = Completed(content: string) | Raised(error: string)

  /** The variable parts of every prompt sent to a chat model. */
  datatype Prompt =
    | EvaluationPrompt(question: string, results: string)
    | AnswerPrompt(attempts: int, confidence: real, intent: string, log: seq<LogEntry>, sources: string, question: string)
    | OptimizationPrompt(question: string, intent: string, attempt: int, strategy: string, attemptsContext: string)
    | VariantsPrompt(question: string, count: int)
    | IntentPrompt(question: string)

  datatype Services = Services(
    hasIndex: bool,                        // `components.index` is set
    search: (string, nat) -> SearchReply,  // embed the query text, then query the index with top_k
    llm: Prompt -> Reply,                  // the components' chat model
    optimizer: Option<Prompt -> Reply>)    // the dynamic optimizer's chat model; None when it could not be created
}
