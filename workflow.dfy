/**
 * The compiled workflow: the graph that `create_enhanced_evaluation_workflow` builds,
 * its two routers, and a run of the graph from a start state to END. A run applies a
 * node, folds its update into the state, and follows the first edge that leaves the node.
 */
module Workflow {
  import opened Wrappers
  import opened State
  import opened Oracles
  import opened Templates
  import Components
  import Intent = IntentDetection
  import Handlers = BusinessHandlers
  import Nodes = WorkflowNodes

  /** The graph's nodes under their registered names, plus the runtime's START and END. */
  datatype Node =
    | Start
    | InitializeEvaluation
    | AnalyzeQueryIntent
    | HandleBusinessQuery
    | CheckTradeSecrets
    | ExecuteSearchAttempt
    | EnhancedEvaluateContentQuality
    | GenerateEvaluationAnswer
    | End

  /** The two routing functions handed to `add_conditional_edges`. */
  datatype Router = RouteByBusiness | RouteByContinuation

  /** An edge: a fixed successor, or a router whose answer is looked up in a path map. */
  datatype Edge =
    | Direct(from: Node, to: Node)
    | Conditional(from: Node, router: Router, paths: map<Node, Node>)

  // ----------------------------------------------------------------- routers

  /** `business_or_trade_secrets`: a business type wins over the trade-secret flag. */
  function BusinessOrTradeSecrets(s: State): (n: Node)
    ensures n == HandleBusinessQuery <==> s.businessType == "partnership" || s.businessType == "technical_support"
    ensures n == CheckTradeSecrets <==>
              s.businessType != "partnership" && s.businessType != "technical_support" && s.requiresTradeSecretFilter
    ensures n == ExecuteSearchAttempt <==>
              s.businessType != "partnership" && s.businessType != "technical_support" && !s.requiresTradeSecretFilter
  {
    if s.businessType == "partnership" || s.businessType == "technical_support" then HandleBusinessQuery
    else if s.requiresTradeSecretFilter then CheckTradeSecrets
    else ExecuteSearchAttempt
  }

  /** `continue_or_finish`: loop back to search exactly when the evaluation asked to continue. */
  function ContinueOrFinish(s: State): (n: Node)
    ensures n == ExecuteSearchAttempt <==> s.shouldContinue
    ensures n == GenerateEvaluationAnswer <==> !s.shouldContinue
  {
    if s.shouldContinue then ExecuteSearchAttempt else GenerateEvaluationAnswer
  }

  function Route(r: Router, s: State): Node {
    match r
    case RouteByBusiness => BusinessOrTradeSecrets(s)
    case RouteByContinuation => ContinueOrFinish(s)
  }

  // ------------------------------------------------------------------- graph

  /** The graph under construction: the registered nodes and the edges, in the order added. */
  class StateGraph {
    var nodes: seq<Node>
    var edges: seq<Edge>

    constructor ()
      ensures nodes == [] && edges == []
    {
      nodes := [];
      edges := [];
    }

    method AddNode(n: Node)
      modifies this
      ensures nodes == old(nodes) + [n] && edges == old(edges)
    {
      nodes := nodes + [n];
    }

    method AddEdge(from: Node, to: Node)
      modifies this
      ensures edges == old(edges) + [Direct(from, to)] && nodes == old(nodes)
    {
      edges := edges + [Direct(from, to)];
    }

    method AddConditionalEdges(from: Node, router: Router, paths: map<Node, Node>)
      modifies this
      ensures edges == old(edges) + [Conditional(from, router, paths)] && nodes == old(nodes)
    {
      edges := edges + [Conditional(from, router, paths)];
    }
  }

  const WorkflowNodes: seq<Node> := [
    InitializeEvaluation, AnalyzeQueryIntent, HandleBusinessQuery, CheckTradeSecrets,
    ExecuteSearchAttempt, EnhancedEvaluateContentQuality, GenerateEvaluationAnswer]

  const BusinessPaths: map<Node, Node> := map[
    HandleBusinessQuery := HandleBusinessQuery,
    CheckTradeSecrets := CheckTradeSecrets,
    ExecuteSearchAttempt := ExecuteSearchAttempt]

  const ContinuationPaths: map<Node, Node> := map[
    ExecuteSearchAttempt := ExecuteSearchAttempt,
    GenerateEvaluationAnswer := GenerateEvaluationAnswer]

  const WorkflowEdges: seq<Edge> := [
    Direct(Start, InitializeEvaluation),
    Direct(InitializeEvaluation, AnalyzeQueryIntent),
    Conditional(AnalyzeQueryIntent, RouteByBusiness, BusinessPaths),
    Direct(HandleBusinessQuery, End),
    Direct(CheckTradeSecrets, End),
    Direct(ExecuteSearchAttempt, EnhancedEvaluateContentQuality),
    Conditional(EnhancedEvaluateContentQuality, RouteByContinuation, ContinuationPaths),
    Direct(GenerateEvaluationAnswer, End)]

  /** `create_enhanced_evaluation_workflow`: registers the seven nodes and wires the edges. */
  method CreateEnhancedEvaluationWorkflow() returns (g: StateGraph)
    ensures fresh(g)
    ensures g.nodes == WorkflowNodes && g.edges == WorkflowEdges
  {
    g := new StateGraph();
    g.AddNode(InitializeEvaluation);
    g.AddNode(AnalyzeQueryIntent);
    g.AddNode(HandleBusinessQuery);
    g.AddNode(CheckTradeSecrets);
    g.AddNode(ExecuteSearchAttempt);
    g.AddNode(EnhancedEvaluateContentQuality);
    g.AddNode(GenerateEvaluationAnswer);
    g.AddEdge(Start, InitializeEvaluation);
    g.AddEdge(InitializeEvaluation, AnalyzeQueryIntent);
    g.AddConditionalEdges(AnalyzeQueryIntent, RouteByBusiness, BusinessPaths);
    g.AddEdge(HandleBusinessQuery, End);
    g.AddEdge(CheckTradeSecrets, End);
    g.AddEdge(ExecuteSearchAttempt, EnhancedEvaluateContentQuality);
    g.AddConditionalEdges(EnhancedEvaluateContentQuality, RouteByContinuation, ContinuationPaths);
    g.AddEdge(GenerateEvaluationAnswer, End);
  }

  /** A node the graph can refer to: a registered node, or START and END. */
  predicate Known(nodes: seq<Node>, n: Node) {
    n == Start || n == End || n in nodes
  }

  /** Every edge leaves and reaches known nodes, and every router answer is a key of its path map. */
  predicate WellWired(nodes: seq<Node>, edges: seq<Edge>) {
    forall e :: e in edges ==>
      && Known(nodes, e.from)
      && (e.Direct? ==> Known(nodes, e.to))
      && (e.Conditional? ==> (forall k :: k in e.paths ==> Known(nodes, e.paths[k])))
  }

  /** Where one edge leads from the state `s`. */
  function Target(e: Edge, s: State): Option<Node> {
    match e
    case Direct(_, to) => Some(to)
    case Conditional(_, r, paths) =>
      var k := Route(r, s);
      if k in paths then Some(paths[k]) else None
  }

  /** The successor of `n`: the first edge leaving `n` decides, evaluated on the updated state. */
  function Successor(edges: seq<Edge>, n: Node, s: State): Option<Node> {
    if edges == [] then None
    else if edges[0].from == n then Target(edges[0], s)
    else Successor(edges[1..], n, s)
  }

  /** The successor is read off the first edge that leaves the node, at whatever position it sits. */
  lemma {:induction false} SuccessorAt(edges: seq<Edge>, n: Node, s: State, i: nat)
    requires i < |edges| && edges[i].from == n
    requires forall j :: 0 <= j < i ==> edges[j].from != n
    ensures Successor(edges, n, s) == Target(edges[i], s)
    decreases i
  {
    if i > 0 {
      assert edges[0].from != n;
      SuccessorAt(edges[1..], n, s, i - 1);
    }
  }

  function Next(n: Node, s: State): Node {
    Successor(WorkflowEdges, n, s).GetOr(End)
  }

  /** The builder's graph refers only to registered nodes, START and END. */
  lemma WorkflowWellWired()
    ensures WellWired(WorkflowNodes, WorkflowEdges)
  {
  }

  /** The wiring, read off the edge list: every node has exactly the successor the builder gave it. */
  lemma WorkflowRoutes(s: State)
    ensures Next(Start, s) == InitializeEvaluation
    ensures Next(InitializeEvaluation, s) == AnalyzeQueryIntent
    ensures Next(AnalyzeQueryIntent, s) == BusinessOrTradeSecrets(s)
    ensures Next(HandleBusinessQuery, s) == End
    ensures Next(CheckTradeSecrets, s) == End
    ensures Next(ExecuteSearchAttempt, s) == EnhancedEvaluateContentQuality
    ensures Next(EnhancedEvaluateContentQuality, s) == ContinueOrFinish(s)
    ensures Next(GenerateEvaluationAnswer, s) == End
  {
    var e := WorkflowEdges;
    SuccessorAt(e, Start, s, 0);
    SuccessorAt(e, InitializeEvaluation, s, 1);
    SuccessorAt(e, AnalyzeQueryIntent, s, 2);
    SuccessorAt(e, HandleBusinessQuery, s, 3);
    SuccessorAt(e, CheckTradeSecrets, s, 4);
    SuccessorAt(e, ExecuteSearchAttempt, s, 5);
    SuccessorAt(e, EnhancedEvaluateContentQuality, s, 6);
    SuccessorAt(e, GenerateEvaluationAnswer, s, 7);
  }

  // -------------------------------------------------------------------- runs

  /** The update the node registered under `n` returns; START and END write nothing. */
  function Step(n: Node, s: State, svc: Services): Update {
    match n
    case InitializeEvaluation => Nodes.InitializeEvaluation(s)
    case AnalyzeQueryIntent => Intent.AnalyzeQueryIntent(s, svc)
    case HandleBusinessQuery => Handlers.HandleBusinessQuery(s)
    case CheckTradeSecrets => Handlers.CheckTradeSecrets(s)
    case ExecuteSearchAttempt => Nodes.ExecuteSearchAttempt(s, svc)
    case EnhancedEvaluateContentQuality => Nodes.EnhancedEvaluateContentQuality(s, svc)
    case GenerateEvaluationAnswer => Nodes.GenerateEvaluationAnswer(s, svc)
    case _ => NoChange
  }

  /** What holds of the state on entry to each node of a run: the attempt counter's range. */
  predicate Inv(n: Node, s: State) {
    match n
    case AnalyzeQueryIntent => s.attemptCount == 0
    case ExecuteSearchAttempt => 0 <= s.attemptCount < Nodes.MaxReasoningAttempts
    case EnhancedEvaluateContentQuality => 1 <= s.attemptCount <= Nodes.MaxReasoningAttempts
    case _ => true
  }

  /** Steps left, at most: each search spends one of the three attempts. */
  function Rank(n: Node, s: State): nat
    requires Inv(n, s)
  {
    match n
    case Start => 40
    case InitializeEvaluation => 39
    case AnalyzeQueryIntent => 38
    case ExecuteSearchAttempt => 2 * (Nodes.MaxReasoningAttempts - s.attemptCount) + 3
    case EnhancedEvaluateContentQuality => 2 * (Nodes.MaxReasoningAttempts - s.attemptCount) + 4
    case End => 0
    case _ => 1
  }

  /** One step keeps the invariant and lowers the rank. */
  lemma StepAdvances(n: Node, s: State, svc: Services)
    requires Inv(n, s) && n != End
    ensures var t := Merge(s, Step(n, s, svc));
            Inv(Next(n, t), t) && Rank(Next(n, t), t) < Rank(n, s)
  {
    var t := Merge(s, Step(n, s, svc));
    WorkflowRoutes(t);
    if n == EnhancedEvaluateContentQuality {
      Nodes.EvaluationNeverEscalatesDosage(s, svc);
    }
  }

  /** A finished run: the state at END and the nodes visited, START and END not included. */
  datatype Run = Run(final: State, trace: seq<Node>)

  /**
   * `invoke` from node `n`. No node rewrites the question, and the three logs only grow.
   */
  function Execute(n: Node, s: State, svc: Services): (r: Run)
    requires Inv(n, s)
    ensures r.final.originalQuery == s.originalQuery
    ensures s.attemptHistory <= r.final.attemptHistory && s.evaluationLog <= r.final.evaluationLog
    ensures s.allResults <= r.final.allResults
    ensures |r.trace| <= Rank(n, s)
    decreases Rank(n, s)
  {
    if n == End then Run(s, [])
    else
      var t := Merge(s, Step(n, s, svc));
      StepAdvances(n, s, svc);
      Handlers.BusinessReplyOnlyAnswers(s);
      Handlers.TradeSecretReplyOnlyAnswers(s);
      var rest := Execute(Next(n, t), t, svc);
      Run(rest.final, (if n == Start then [] else [n]) + rest.trace)
  }

  // ------------------------------------------------------------- the loop

  /** The score attempt `a` of question `q` receives; it depends on nothing else. */
  function AttemptScore(q: string, a: int, svc: Services): real {
    var query := Components.OptimizeQueryForAttempt(q, a, []);
    Components.EvaluateContentQuality(q, Components.SearchResults(query, Components.DefaultTopK, svc), svc).0
  }

  /** The attempt the loop stops at: the first from `a` on whose score reaches the threshold, else the last. */
  function LastAttempt(q: string, threshold: real, svc: Services, a: int): (k: int)
    requires 1 <= a <= Nodes.MaxReasoningAttempts
    ensures a <= k <= Nodes.MaxReasoningAttempts
    ensures AttemptScore(q, k, svc) >= threshold || k == Nodes.MaxReasoningAttempts
    ensures forall j :: a <= j < k ==> AttemptScore(q, j, svc) < threshold
    decreases Nodes.MaxReasoningAttempts - a
  {
    if a == Nodes.MaxReasoningAttempts || AttemptScore(q, a, svc) >= threshold then a
    else LastAttempt(q, threshold, svc, a + 1)
  }

  /** `n` search attempts, each followed by its evaluation. */
  function Rounds(n: nat): (t: seq<Node>)
    ensures |t| == 2 * n
  {
    if n == 0 then [] else [ExecuteSearchAttempt, EnhancedEvaluateContentQuality] + Rounds(n - 1)
  }

  /** The state after one search and its evaluation. */
  function AfterRound(s: State, svc: Services): State {
    var t := Merge(s, Nodes.ExecuteSearchAttempt(s, svc));
    Merge(t, Nodes.EnhancedEvaluateContentQuality(t, svc))
  }

  /**
   * What one round does to the state: the attempt counter, the verdict on the new attempt,
   * and the logs. The search appends one record and one result; the evaluation then hands
   * both lists back whole, so they double, while the evaluation log gains one line per node.
   */
  lemma RoundEffect(s: State, svc: Services)
    requires 0 <= s.attemptCount < Nodes.MaxReasoningAttempts
    ensures var u := AfterRound(s, svc);
            var a := s.attemptCount + 1;
            var score := AttemptScore(s.originalQuery, a, svc);
            var v := Nodes.Decide(s.queryIntent, score, s.confidenceThresholdOverride, a);
            && u.attemptCount == a
            && u.originalQuery == s.originalQuery && u.queryIntent == s.queryIntent
            && u.confidenceThresholdOverride == s.confidenceThresholdOverride
            && u.businessType == s.businessType && u.requiresTradeSecretFilter == s.requiresTradeSecretFilter
            && |u.attemptHistory| == 2 * (|s.attemptHistory| + 1)
            && |u.allResults| == 2 * (|s.allResults| + 1)
            && |u.evaluationLog| == |s.evaluationLog| + 2
            && u.shouldContinue == (v == Continuing)
            && u.escalate == (s.escalate || v == MaxAttemptsReached)
            && u.modelConfidence == (if v == DosageFallbackUsed then 7.0 else score)
  {
    var t := Merge(s, Nodes.ExecuteSearchAttempt(s, svc));
    Components.PreviousEvaluationsUnused(s.originalQuery, s.attemptCount + 1, s.evaluationLog, []);
    assert Nodes.Judge(t, svc).0 == AttemptScore(s.originalQuery, s.attemptCount + 1, svc);
  }

  /** One step of a run from a node other than START and END. */
  lemma ExecuteStep(n: Node, s: State, svc: Services)
    requires Inv(n, s) && n != Start && n != End
    ensures var t := Merge(s, Step(n, s, svc));
            Inv(Next(n, t), t) &&
            Execute(n, s, svc) == Run(Execute(Next(n, t), t, svc).final, [n] + Execute(Next(n, t), t, svc).trace)
  {
    StepAdvances(n, s, svc);
  }

  /** A search step is followed by the evaluation. */
  lemma ExecuteSearch(s: State, svc: Services)
    requires 0 <= s.attemptCount < Nodes.MaxReasoningAttempts
    ensures var t := Merge(s, Nodes.ExecuteSearchAttempt(s, svc));
            Inv(EnhancedEvaluateContentQuality, t) &&
            var rest := Execute(EnhancedEvaluateContentQuality, t, svc);
            Execute(ExecuteSearchAttempt, s, svc) == Run(rest.final, [ExecuteSearchAttempt] + rest.trace)
  {
    var t := Merge(s, Step(ExecuteSearchAttempt, s, svc));
    WorkflowRoutes(t);
    ExecuteStep(ExecuteSearchAttempt, s, svc);
  }

  /** An evaluation step is followed by whatever `continue_or_finish` picks. */
  lemma ExecuteEvaluation(t: State, svc: Services)
    requires 1 <= t.attemptCount <= Nodes.MaxReasoningAttempts
    ensures var u := Merge(t, Nodes.EnhancedEvaluateContentQuality(t, svc));
            Inv(ContinueOrFinish(u), u) &&
            var rest := Execute(ContinueOrFinish(u), u, svc);
            Execute(EnhancedEvaluateContentQuality, t, svc) == Run(rest.final, [EnhancedEvaluateContentQuality] + rest.trace)
  {
    var u := Merge(t, Step(EnhancedEvaluateContentQuality, t, svc));
    WorkflowRoutes(u);
    ExecuteStep(EnhancedEvaluateContentQuality, t, svc);
  }

  /** From a search node, one round and then wherever the evaluation routes. */
  lemma ExecuteRound(s: State, svc: Services)
    requires 0 <= s.attemptCount < Nodes.MaxReasoningAttempts
    ensures var u := AfterRound(s, svc);
            Inv(ContinueOrFinish(u), u) &&
            var rest := Execute(ContinueOrFinish(u), u, svc);
            Execute(ExecuteSearchAttempt, s, svc) ==
            Run(rest.final, [ExecuteSearchAttempt, EnhancedEvaluateContentQuality] + rest.trace)
  {
    ExecuteSearch(s, svc);
    var t := Merge(s, Nodes.ExecuteSearchAttempt(s, svc));
    ExecuteEvaluation(t, svc);
    var u := AfterRound(s, svc);
    ChainRound(Execute(ExecuteSearchAttempt, s, svc), Execute(EnhancedEvaluateContentQuality, t, svc),
               Execute(ContinueOrFinish(u), u, svc));
  }

  /** A search step and an evaluation step, one after the other. */
  lemma ChainRound(r0: Run, r1: Run, r2: Run)
    requires r0 == Run(r1.final, [ExecuteSearchAttempt] + r1.trace)
    requires r1 == Run(r2.final, [EnhancedEvaluateContentQuality] + r2.trace)
    ensures r0 == Run(r2.final, [ExecuteSearchAttempt, EnhancedEvaluateContentQuality] + r2.trace)
  {
    assert [ExecuteSearchAttempt] + ([EnhancedEvaluateContentQuality] + r2.trace)
        == [ExecuteSearchAttempt, EnhancedEvaluateContentQuality] + r2.trace;
  }

  /** The answer node followed by END. */
  lemma ExecuteAnswer(s: State, svc: Services)
    ensures Execute(GenerateEvaluationAnswer, s, svc) ==
            Run(Merge(s, Nodes.GenerateEvaluationAnswer(s, svc)), [GenerateEvaluationAnswer])
  {
    WorkflowRoutes(Merge(s, Nodes.GenerateEvaluationAnswer(s, svc)));
  }

  /**
   * The state the loop leaves for the answer node: rounds run while the evaluation asks to
   * continue and attempts remain.
   */
  function LoopEnd(s: State, svc: Services): State
    requires 0 <= s.attemptCount < Nodes.MaxReasoningAttempts
    decreases Nodes.MaxReasoningAttempts - s.attemptCount
  {
    RoundEffect(s, svc);
    var u := AfterRound(s, svc);
    if u.shouldContinue && u.attemptCount < Nodes.MaxReasoningAttempts then LoopEnd(u, svc) else u
  }

  /** The length a log of length `h` reaches after `n` rounds that each append one entry and then double it. */
  function GrownLength(h: nat, n: nat): nat
    decreases n
  {
    if n == 0 then h else GrownLength(2 * (h + 1), n - 1)
  }

  function Pow2(n: nat): nat {
    if n == 0 then 1 else 2 * Pow2(n - 1)
  }

  /** After `n` rounds a log of length `h` has length `2^n * (h + 2) - 2`. */
  lemma {:induction false} GrownLengthClosed(h: nat, n: nat)
    ensures GrownLength(h, n) == Pow2(n) * (h + 2) - 2
    decreases n
  {
    if n > 0 {
      GrownLengthClosed(2 * (h + 1), n - 1);
      assert Pow2(n - 1) * (2 * (h + 1) + 2) == 2 * Pow2(n - 1) * (h + 2);
    }
  }

  /**
   * What the attempt loop entered at search from state `s` delivers as run `r`: it runs
   * rounds up to the attempt `LastAttempt` picks, then the answer node runs once on the
   * state the last evaluation left and ends the run.
   */
  predicate LoopOutcome(s: State, svc: Services, r: Run)
    requires 0 <= s.attemptCount < Nodes.MaxReasoningAttempts
  {
    var k := LastAttempt(s.originalQuery, s.confidenceThresholdOverride, svc, s.attemptCount + 1);
    var p := LoopEnd(s, svc);
    LoopRun(s, p, k, AttemptScore(s.originalQuery, k, svc), Merge(p, Nodes.GenerateEvaluationAnswer(p, svc)), r)
  }

  /** The run `r` from `s`: rounds up to attempt `k`, ending in `p`, then the answer node, ending in `f`. */
  predicate LoopRun(s: State, p: State, k: int, score: real, f: State, r: Run) {
    && PreShape(s, p, k, score)
    && r.trace == Rounds(k - s.attemptCount) + [GenerateEvaluationAnswer]
    && r.final == f
  }

  /**
   * The loop from `s` stops after attempt `k`, whose score is `score`, in state `p`: the
   * counter, the logs' growth, the escalation and confidence rules, and the classification
   * kept. It escalates exactly when that score is under the threshold and the intent is
   * not dosage; the dosage fallback leaves confidence 7.0.
   */
  predicate PreShape(s: State, p: State, k: int, score: real) {
    var threshold := s.confidenceThresholdOverride;
    && s.attemptCount < k
    && p.attemptCount == k
    && |p.attemptHistory| == GrownLength(|s.attemptHistory|, k - s.attemptCount)
    && |p.allResults| == GrownLength(|s.allResults|, k - s.attemptCount)
    && |p.evaluationLog| == |s.evaluationLog| + 2 * (k - s.attemptCount)
    && p.escalate == (s.escalate || (score < threshold && s.queryIntent != "dosage"))
    && p.modelConfidence == (if score < threshold && s.queryIntent == "dosage" then 7.0 else score)
    && p.originalQuery == s.originalQuery
    && p.queryIntent == s.queryIntent && p.businessType == s.businessType
    && p.requiresTradeSecretFilter == s.requiresTradeSecretFilter
  }

  /** The round that reaches the threshold, or the third one, is the last: the run answers next. */
  lemma LoopStops(s: State, svc: Services)
    requires 0 <= s.attemptCount < Nodes.MaxReasoningAttempts
    requires var a := s.attemptCount + 1;
             a == Nodes.MaxReasoningAttempts || AttemptScore(s.originalQuery, a, svc) >= s.confidenceThresholdOverride
    ensures LoopOutcome(s, svc, Execute(ExecuteSearchAttempt, s, svc))
  {
    var a := s.attemptCount + 1;
    var u := AfterRound(s, svc);
    StopFields(s, svc);
    StopRun(s, svc);
    StopShape(s, u, AttemptScore(s.originalQuery, a, svc));
    assert LoopEnd(s, svc) == u;
    assert LastAttempt(s.originalQuery, s.confidenceThresholdOverride, svc, a) == a;
    assert Rounds(1) == [ExecuteSearchAttempt, EnhancedEvaluateContentQuality];
  }

  /** What the last round leaves: the counters and logs one round on, and the verdict's escalation and confidence. */
  lemma StopFields(s: State, svc: Services)
    requires 0 <= s.attemptCount < Nodes.MaxReasoningAttempts
    requires var a := s.attemptCount + 1;
             a == Nodes.MaxReasoningAttempts || AttemptScore(s.originalQuery, a, svc) >= s.confidenceThresholdOverride
    ensures var u := AfterRound(s, svc);
            var score := AttemptScore(s.originalQuery, s.attemptCount + 1, svc);
            && !u.shouldContinue
            && u.attemptCount == s.attemptCount + 1
            && u.originalQuery == s.originalQuery
            && u.queryIntent == s.queryIntent && u.businessType == s.businessType
            && u.requiresTradeSecretFilter == s.requiresTradeSecretFilter
            && |u.attemptHistory| == 2 * (|s.attemptHistory| + 1) && |u.allResults| == 2 * (|s.allResults| + 1)
            && |u.evaluationLog| == |s.evaluationLog| + 2
            && u.escalate == (s.escalate || (score < s.confidenceThresholdOverride && s.queryIntent != "dosage"))
            && u.modelConfidence == (if score < s.confidenceThresholdOverride && s.queryIntent == "dosage" then 7.0 else score)
  {
    RoundEffect(s, svc);
  }

  /** A round the evaluation ends is followed by the answer node and END. */
  lemma StopRun(s: State, svc: Services)
    requires 0 <= s.attemptCount < Nodes.MaxReasoningAttempts
    requires !AfterRound(s, svc).shouldContinue
    ensures var u := AfterRound(s, svc);
            Execute(ExecuteSearchAttempt, s, svc) ==
            Run(Merge(u, Nodes.GenerateEvaluationAnswer(u, svc)),
                [ExecuteSearchAttempt, EnhancedEvaluateContentQuality, GenerateEvaluationAnswer])
  {
    ExecuteRound(s, svc);
    ExecuteAnswer(AfterRound(s, svc), svc);
  }

  /** The shape of a loop that stops in `u` after one round from `s`. */
  lemma StopShape(s: State, u: State, score: real)
    requires u.attemptCount == s.attemptCount + 1 && u.originalQuery == s.originalQuery
    requires u.queryIntent == s.queryIntent && u.businessType == s.businessType
    requires u.requiresTradeSecretFilter == s.requiresTradeSecretFilter
    requires |u.attemptHistory| == 2 * (|s.attemptHistory| + 1) && |u.allResults| == 2 * (|s.allResults| + 1)
    requires |u.evaluationLog| == |s.evaluationLog| + 2
    requires u.escalate == (s.escalate || (score < s.confidenceThresholdOverride && s.queryIntent != "dosage"))
    requires u.modelConfidence == (if score < s.confidenceThresholdOverride && s.queryIntent == "dosage" then 7.0 else score)
    ensures PreShape(s, u, s.attemptCount + 1, score)
  {
    assert GrownLength(2 * (|s.attemptHistory| + 1), 0) == |u.attemptHistory|;
    assert GrownLength(2 * (|s.allResults| + 1), 0) == |u.allResults|;
  }

  /** The outcome carries over a round that continues: one more round in front, the same end. */
  lemma OutcomeCarriesOver(s: State, u: State, svc: Services, ru: Run)
    requires 0 <= s.attemptCount < Nodes.MaxReasoningAttempts - 1
    requires AttemptScore(s.originalQuery, s.attemptCount + 1, svc) < s.confidenceThresholdOverride
    requires u.attemptCount == s.attemptCount + 1
    requires u.originalQuery == s.originalQuery && u.queryIntent == s.queryIntent
    requires u.confidenceThresholdOverride == s.confidenceThresholdOverride
    requires u.businessType == s.businessType && u.requiresTradeSecretFilter == s.requiresTradeSecretFilter
    requires |u.attemptHistory| == 2 * (|s.attemptHistory| + 1) && |u.allResults| == 2 * (|s.allResults| + 1)
    requires |u.evaluationLog| == |s.evaluationLog| + 2 && u.escalate == s.escalate
    requires LoopEnd(s, svc) == LoopEnd(u, svc)
    requires LoopOutcome(u, svc, ru)
    ensures LoopOutcome(s, svc, Run(ru.final, [ExecuteSearchAttempt, EnhancedEvaluateContentQuality] + ru.trace))
  {
    var q := s.originalQuery;
    var threshold := s.confidenceThresholdOverride;
    var a := s.attemptCount + 1;
    var k := LastAttempt(q, threshold, svc, a);
    assert k == LastAttempt(q, threshold, svc, a + 1);
    var p := LoopEnd(u, svc);
    RunCarriesOver(s, u, p, k, AttemptScore(q, k, svc), Merge(p, Nodes.GenerateEvaluationAnswer(p, svc)), ru);
  }

  /** One more round in front of a loop run keeps its shape, counted from the earlier state. */
  lemma RunCarriesOver(s: State, u: State, p: State, k: int, score: real, f: State, ru: Run)
    requires u.attemptCount == s.attemptCount + 1 && u.originalQuery == s.originalQuery
    requires u.confidenceThresholdOverride == s.confidenceThresholdOverride && u.queryIntent == s.queryIntent
    requires u.businessType == s.businessType && u.requiresTradeSecretFilter == s.requiresTradeSecretFilter
    requires |u.attemptHistory| == 2 * (|s.attemptHistory| + 1) && |u.allResults| == 2 * (|s.allResults| + 1)
    requires |u.evaluationLog| == |s.evaluationLog| + 2 && u.escalate == s.escalate
    requires LoopRun(u, p, k, score, f, ru)
    ensures LoopRun(s, p, k, score, f, Run(ru.final, [ExecuteSearchAttempt, EnhancedEvaluateContentQuality] + ru.trace))
  {
    ShapeCarriesOver(s, u, p, k, score);
    assert Rounds(k - s.attemptCount) == [ExecuteSearchAttempt, EnhancedEvaluateContentQuality] + Rounds(k - u.attemptCount);
  }

  /** One more round in front of a loop keeps its shape, counted from the earlier state. */
  lemma ShapeCarriesOver(s: State, u: State, p: State, k: int, score: real)
    requires u.attemptCount == s.attemptCount + 1 && u.originalQuery == s.originalQuery
    requires u.confidenceThresholdOverride == s.confidenceThresholdOverride && u.queryIntent == s.queryIntent
    requires u.businessType == s.businessType && u.requiresTradeSecretFilter == s.requiresTradeSecretFilter
    requires |u.attemptHistory| == 2 * (|s.attemptHistory| + 1) && |u.allResults| == 2 * (|s.allResults| + 1)
    requires |u.evaluationLog| == |s.evaluationLog| + 2 && u.escalate == s.escalate
    requires PreShape(u, p, k, score)
    ensures PreShape(s, p, k, score)
  {
    assert GrownLength(|s.attemptHistory|, k - s.attemptCount) == GrownLength(|u.attemptHistory|, k - u.attemptCount);
    assert GrownLength(|s.allResults|, k - s.attemptCount) == GrownLength(|u.allResults|, k - u.attemptCount);
  }

  /** A round under the threshold before the third continues the loop: the outcome is the next round's. */
  lemma LoopContinues(s: State, svc: Services)
    requires 0 <= s.attemptCount < Nodes.MaxReasoningAttempts - 1
    requires AttemptScore(s.originalQuery, s.attemptCount + 1, svc) < s.confidenceThresholdOverride
    requires var u := AfterRound(s, svc);
             0 <= u.attemptCount < Nodes.MaxReasoningAttempts &&
             LoopOutcome(u, svc, Execute(ExecuteSearchAttempt, u, svc))
    ensures LoopOutcome(s, svc, Execute(ExecuteSearchAttempt, s, svc))
  {
    var u := AfterRound(s, svc);
    ExecuteRound(s, svc);
    RoundEffect(s, svc);
    assert u.shouldContinue;
    assert LoopEnd(s, svc) == LoopEnd(u, svc);
    OutcomeCarriesOver(s, u, svc, Execute(ExecuteSearchAttempt, u, svc));
  }

  /** The attempt loop, by induction on the attempts left. */
  lemma {:induction false} AttemptLoop(s: State, svc: Services)
    requires 0 <= s.attemptCount < Nodes.MaxReasoningAttempts
    ensures LoopOutcome(s, svc, Execute(ExecuteSearchAttempt, s, svc))
    decreases Nodes.MaxReasoningAttempts - s.attemptCount
  {
    var a := s.attemptCount + 1;
    if a < Nodes.MaxReasoningAttempts && AttemptScore(s.originalQuery, a, svc) < s.confidenceThresholdOverride {
      RoundEffect(s, svc);
      AttemptLoop(AfterRound(s, svc), svc);
      LoopContinues(s, svc);
    } else {
      LoopStops(s, svc);
    }
  }

  /**
   * The run's final state is the loop's end state with its logs doubled by the answer
   * node; it escalates exactly as that state does, and then answers with the escalation reply.
   */
  lemma EscalationGivesEscalationReply(s: State, svc: Services)
    requires 0 <= s.attemptCount < Nodes.MaxReasoningAttempts
    ensures var r := Execute(ExecuteSearchAttempt, s, svc);
            var p := LoopEnd(s, svc);
            && r.final == Doubled(p).(finalAnswer := r.final.finalAnswer)
            && (r.final.escalate ==> r.final.finalAnswer == Fixed(Escalation))
  {
    AttemptLoop(s, svc);
  }

  /**
   * A dosage question is never escalated, and the fallback reply the evaluation writes
   * never survives: the answer node replaces it, with the nothing-found text when there
   * are no results.
   */
  lemma DosageFallbackReplaced(s: State, svc: Services)
    requires 0 <= s.attemptCount < Nodes.MaxReasoningAttempts
    requires s.queryIntent == "dosage" && !s.escalate
    ensures var r := Execute(ExecuteSearchAttempt, s, svc);
            && !r.final.escalate
            && r.final.finalAnswer != Fixed(DosageFallback)
            && (r.final.searchResults == [] ==> r.final.finalAnswer == Plain(Nodes.NothingFoundReply))
  {
    AttemptLoop(s, svc);
  }

  // ------------------------------------------------------------ whole run

  /** The state after set-up and intent analysis. */
  function Intake(s: State, svc: Services): State {
    var t := Merge(s, Nodes.InitializeEvaluation(s));
    Merge(t, Intent.AnalyzeQueryIntent(t, svc))
  }

  /**
   * After intake the attempt counter is 0, nothing is escalated, and the classification is
   * the question's; set-up appends the start line and intent analysis, handing the logs
   * back whole, doubles every log.
   */
  lemma IntakeEffect(s: State, svc: Services)
    ensures var a := Intake(s, svc);
            var c := Intent.Classify(s.originalQuery, svc);
            && a.originalQuery == s.originalQuery && a.currentQuery == s.originalQuery
            && a.attemptCount == 0 && a.shouldContinue && !a.escalate
            && a.queryIntent == c.intent && a.businessType == c.businessType
            && a.requiresTradeSecretFilter == c.tradeSecret && a.confidenceThresholdOverride == c.threshold
            && a.companyContextAdded
            && a.attemptHistory == s.attemptHistory + s.attemptHistory && a.allResults == s.allResults + s.allResults
            && a.evaluationLog == (s.evaluationLog + [Started(s.originalQuery)]) + (s.evaluationLog + [Started(s.originalQuery)])
            && a.finalAnswer == s.finalAnswer && a.modelConfidence == s.modelConfidence
  {
  }

  /** START writes nothing and leads to set-up. */
  lemma ExecuteStart(s: State, svc: Services)
    ensures Execute(Start, s, svc) == Execute(InitializeEvaluation, s, svc)
  {
    MergeNoChange(s);
    WorkflowRoutes(s);
  }

  /** Set-up is followed by intent analysis. */
  lemma ExecuteInitialize(s: State, svc: Services)
    ensures var t := Merge(s, Nodes.InitializeEvaluation(s));
            Inv(AnalyzeQueryIntent, t) &&
            var rest := Execute(AnalyzeQueryIntent, t, svc);
            Execute(InitializeEvaluation, s, svc) == Run(rest.final, [InitializeEvaluation] + rest.trace)
  {
    WorkflowRoutes(Merge(s, Step(InitializeEvaluation, s, svc)));
    ExecuteStep(InitializeEvaluation, s, svc);
  }

  /** Intent analysis is followed by whatever `business_or_trade_secrets` picks. */
  lemma ExecuteAnalysis(t: State, svc: Services)
    requires t.attemptCount == 0
    ensures var a := Merge(t, Intent.AnalyzeQueryIntent(t, svc));
            Inv(BusinessOrTradeSecrets(a), a) &&
            var rest := Execute(BusinessOrTradeSecrets(a), a, svc);
            Execute(AnalyzeQueryIntent, t, svc) == Run(rest.final, [AnalyzeQueryIntent] + rest.trace)
  {
    WorkflowRoutes(Merge(t, Step(AnalyzeQueryIntent, t, svc)));
    ExecuteStep(AnalyzeQueryIntent, t, svc);
  }

  /** A short-circuit handler goes straight to END. */
  lemma ExecuteHandler(n: Node, a: State, svc: Services)
    requires n == HandleBusinessQuery || n == CheckTradeSecrets
    ensures Execute(n, a, svc) == Run(Merge(a, Step(n, a, svc)), [n])
  {
    WorkflowRoutes(Merge(a, Step(n, a, svc)));
    ExecuteStep(n, a, svc);
  }

  /** A run from START is set-up and intent analysis, then the run from the routed node. */
  lemma ExecuteIntake(s: State, svc: Services)
    ensures var a := Intake(s, svc);
            Inv(BusinessOrTradeSecrets(a), a) &&
            var rest := Execute(BusinessOrTradeSecrets(a), a, svc);
            Execute(Start, s, svc) == Run(rest.final, [InitializeEvaluation, AnalyzeQueryIntent] + rest.trace)
  {
    var t := Merge(s, Nodes.InitializeEvaluation(s));
    var a := Intake(s, svc);
    assert a == Merge(t, Intent.AnalyzeQueryIntent(t, svc));
    ExecuteStart(s, svc);
    ExecuteInitialize(s, svc);
    ExecuteAnalysis(t, svc);
    ChainTwo(Execute(InitializeEvaluation, s, svc), Execute(AnalyzeQueryIntent, t, svc),
             Execute(BusinessOrTradeSecrets(a), a, svc));
  }

  /** Two steps of a run, one after the other. */
  lemma ChainTwo(r0: Run, r1: Run, r2: Run)
    requires r0 == Run(r1.final, [InitializeEvaluation] + r1.trace)
    requires r1 == Run(r2.final, [AnalyzeQueryIntent] + r2.trace)
    ensures r0 == Run(r2.final, [InitializeEvaluation, AnalyzeQueryIntent] + r2.trace)
  {
    assert [InitializeEvaluation] + ([AnalyzeQueryIntent] + r2.trace) == [InitializeEvaluation, AnalyzeQueryIntent] + r2.trace;
  }

  /**
   * A run from START: set-up, intent analysis, then either one short-circuit handler and
   * END with no search, or the attempt loop.
   */
  lemma RunFromStart(s: State, svc: Services)
    ensures var a := Intake(s, svc);
            var r := Execute(Start, s, svc);
            && (BusinessOrTradeSecrets(a) == HandleBusinessQuery ==>
                  r == Run(Merge(a, Handlers.HandleBusinessQuery(a)), [InitializeEvaluation, AnalyzeQueryIntent, HandleBusinessQuery]))
            && (BusinessOrTradeSecrets(a) == CheckTradeSecrets ==>
                  r == Run(Merge(a, Handlers.CheckTradeSecrets(a)), [InitializeEvaluation, AnalyzeQueryIntent, CheckTradeSecrets]))
            && (BusinessOrTradeSecrets(a) == ExecuteSearchAttempt ==>
                  Inv(ExecuteSearchAttempt, a) &&
                  var loop := Execute(ExecuteSearchAttempt, a, svc);
                  r == Run(loop.final, [InitializeEvaluation, AnalyzeQueryIntent] + loop.trace))
  {
    var a := Intake(s, svc);
    ExecuteIntake(s, svc);
    var next := BusinessOrTradeSecrets(a);
    if next == HandleBusinessQuery {
      ExecuteHandler(next, a, svc);
    } else if next == CheckTradeSecrets {
      ExecuteHandler(next, a, svc);
    }
  }

  /**
   * The short circuits, for any start state: the handler's reply and confidence end the
   * run, no search runs, the counters stay as intake left them, and the handler, handing
   * the logs back whole, doubles each of them.
   */
  lemma ShortCircuitOutcome(s: State, svc: Services)
    ensures var a := Intake(s, svc);
            var r := Execute(Start, s, svc);
            && (a.businessType == "partnership" ==>
                  r.final.finalAnswer == Fixed(Partnership) && r.final.modelConfidence == 10.0)
            && (a.businessType == "technical_support" ==>
                  r.final.finalAnswer == Fixed(Support) && r.final.modelConfidence == 9.0)
            && (BusinessOrTradeSecrets(a) == CheckTradeSecrets ==>
                  r.final.finalAnswer == Fixed(TradeSecret) && r.final.modelConfidence == 9.0)
            && (BusinessOrTradeSecrets(a) != ExecuteSearchAttempt ==>
                  && r.final.(finalAnswer := a.finalAnswer, modelConfidence := a.modelConfidence,
                              shouldContinue := a.shouldContinue) == Doubled(a)
                  && r.trace == [InitializeEvaluation, AnalyzeQueryIntent, BusinessOrTradeSecrets(a)]
                  && ExecuteSearchAttempt !in r.trace)
  {
    var a := Intake(s, svc);
    RunFromStart(s, svc);
    Handlers.BusinessReplyOnlyAnswers(a);
    Handlers.TradeSecretReplyOnlyAnswers(a);
  }

  /** A question routed to search runs the attempt loop on the state intake left. */
  lemma SearchPathOutcome(s: State, svc: Services)
    ensures var a := Intake(s, svc);
            BusinessOrTradeSecrets(a) == ExecuteSearchAttempt ==>
              && 0 <= a.attemptCount < Nodes.MaxReasoningAttempts
              && var loop := Execute(ExecuteSearchAttempt, a, svc);
              && LoopOutcome(a, svc, loop)
              && Execute(Start, s, svc) == Run(loop.final, [InitializeEvaluation, AnalyzeQueryIntent] + loop.trace)
  {
    var a := Intake(s, svc);
    RunFromStart(s, svc);
    if BusinessOrTradeSecrets(a) == ExecuteSearchAttempt {
      AttemptLoop(a, svc);
    }
  }
}
