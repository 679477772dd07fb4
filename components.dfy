/**
 * `EvaluationRAGComponents`: the retrieval gateway (`search_knowledge`), the
 * rule-based query reformulator (`optimize_query_for_attempt`) and the adequacy
 * scorer (`evaluate_content_quality`) around the chat model.
 */
module Components {
  import opened Wrappers
  import opened Text
  import opened State
  import opened Oracles

  /** `search_knowledge`'s default `top_k`; the workflow never passes another. */
  const DefaultTopK: nat := 8

  const NoMetadata := MatchMeta(None, None, None, None, None, None, None)
  const UntitledTitle := "Brak tytułu"

  // ---------------------------------------------------------------- retrieval

  /** The record made of one match: every metadata key read with its default. */
  function FormatMatch(m: Match): (d: Doc)
    ensures d.pineconeScore == m.score.GetOr(0.0)
    ensures m.metadata.None? ==> d == Doc(m.score.GetOr(0.0), UntitledTitle, "", "", "", "", "", [])
  {
    var meta := m.metadata.GetOr(NoMetadata);
    Doc(m.score.GetOr(0.0),
        meta.title.GetOr(UntitledTitle),
        meta.fullContent.GetOr(""),
        meta.contentType.GetOr(""),
        meta.url.GetOr(""),
        meta.domain.GetOr(""),
        meta.category.GetOr(""),
        meta.tags.GetOr([]))
  }

  /** The matches the index hands back; none without an index or when the call raised. */
  function Retrieved(query: string, topK: nat, svc: Services): seq<Match> {
    if !svc.hasIndex then []
    else match svc.search(query, topK)
      case SearchFailed => []
      case Matches(found) => found.GetOr([])
  }

  /** What `search_knowledge` returns: one record per match, in order, nothing filtered by score. */
  function SearchResults(query: string, topK: nat, svc: Services): (results: seq<Doc>)
    ensures |results| == |Retrieved(query, topK, svc)|
    ensures forall i :: 0 <= i < |results| ==> results[i] == FormatMatch(Retrieved(query, topK, svc)[i])
  {
    var ms := Retrieved(query, topK, svc);
    seq(|ms|, i requires 0 <= i < |ms| => FormatMatch(ms[i]))
  }

  /** `search_knowledge`: an empty list without an index or on any failure. */
  method SearchKnowledge(query: string, topK: nat, svc: Services) returns (results: seq<Doc>)
    ensures results == SearchResults(query, topK, svc)
    ensures !svc.hasIndex || svc.search(query, topK).SearchFailed? ==> results == []
  {
    if !svc.hasIndex {
      return [];
    }
    var reply := svc.search(query, topK);
    if reply.SearchFailed? {
      return [];
    }
    var matches := reply.matches.GetOr([]);
    var formatted: seq<Doc> := [];
    for i := 0 to |matches|
      invariant |formatted| == i
      invariant forall j :: 0 <= j < i ==> formatted[j] == FormatMatch(matches[j])
    {
      formatted := formatted + [FormatMatch(matches[i])];
    }
    results := formatted;
  }

  // ------------------------------------------------------------ reformulation

  /** The topic flags computed from the lower-cased query. */
  datatype Topics = Topics(
    salt: bool, dosage: bool, component: bool, coral: bool,
    problem: bool, fish: bool, water: bool, startup: bool)

  const SaltTerms := ["sól", "soli", "salt", "zasolenie", "hybrid", "reef salt"]
  const DosageTerms := ["dawkowanie", "dawka", "ile", "ml", "dozowanie", "stosowanie"]
  const ComponentTerms := ["component", "komponent", "a", "b", "c", "1", "2", "3"]
  const CoralTerms := ["koralowce", "sps", "lps", "coral", "polip"]
  const ProblemTerms := ["problem", "jak pozbyć", "cyjan", "glon", "wysokie", "niskie"]
  const FishTerms := ["rybka", "ryby", "fish", "anthias", "kwarantanna"]
  const WaterTerms := ["woda", "parametry", "ph", "alkalicz", "wapń", "magnez"]
  const StartupTerms := ["założyć", "start", "pierwsze", "nowe", "cykl"]

  function DetectTopics(query: string): Topics {
    var q := Lower(query);
    Topics(ContainsAny(q, SaltTerms), ContainsAny(q, DosageTerms), ContainsAny(q, ComponentTerms),
           ContainsAny(q, CoralTerms), ContainsAny(q, ProblemTerms), ContainsAny(q, FishTerms),
           ContainsAny(q, WaterTerms), ContainsAny(q, StartupTerms))
  }

  // attempt 1: focused
  const SaltFocused := "sól morska seawater Reef Salt Hybrid Pro Salt 33ppt"
  const ComponentDosageFocused := "Component dawkowanie ml stosowanie akwarium"
  const DosageFocused := "dawkowanie dawka ml aplikacja stosowanie"
  const CoralFocused := "koralowce SPS LPS miękkie twardy coral polyp"
  const ProblemFocused := "problem cyjanobakterie glony azotany fosforany"
  const FishFocused := "ryby fish aklimatyzacja kwarantanna choroba"
  const WaterFocused := "parametry wody pH alkaliczność wapń magnez"
  const StartupFocused := "start akwarium założyć cykl azotowy nowe"
  const QuerySuffix := "akwarium Aquaforest"
  // attempt 2: expanded
  const SaltExpanded := "sól morska salt seawater Hybrid Pro bakterie probiotyczne aminokwasy witamina"
  const DosageExpanded := "dawkowanie dawka stosowanie dozowanie aplikacja ml instrukcja"
  const CoralExpanded := "koralowce coral SPS LPS miękkie twardy wzrost polipowanie"
  const ProblemExpanded := "problem rozwiązanie cyjan glony azotany fosforany klarowanie"
  const FishExpanded := "ryby fish aklimatyzacja choroba kwarantanna leczenie"
  const WaterExpanded := "parametry woda chemia pH KH wapń magnez test"
  const StartupExpanded := "start założenie akwarium cykl bakterie dojrzewanie"
  const GenericExpanded := "akwarystyka morska słodkowodna Aquaforest AF hodowla"
  // any other attempt: widest
  const MarineBroad := "akwarystyka morska seawater coral reef marine"
  const StartupWaterBroad := "akwarium start parametry woda bakterie Aquaforest"
  const FishBroad := "ryby akwarium hodowla marine fish care"
  const GenericBroad := "akwarystyka Aquaforest AF produkty akwarium"

  const FocusedQueries :=
    [SaltFocused, ComponentDosageFocused, DosageFocused, CoralFocused,
     ProblemFocused, FishFocused, WaterFocused, StartupFocused]
  const ExpandedQueries :=
    [SaltExpanded, DosageExpanded, CoralExpanded, ProblemExpanded,
     FishExpanded, WaterExpanded, StartupExpanded, GenericExpanded]
  const BroadQueries := [MarineBroad, StartupWaterBroad, FishBroad, GenericBroad]

  /** No whitespace at either end, and something in between. */
  predicate Trimmed(s: string) {
    s != [] && !IsSpace(s[0]) && !IsSpace(s[|s| - 1])
  }

  /** The query's own words longer than three characters, then the domain suffix. */
  function QueryKeywords(query: string): string {
    JoinWords(LongerThan(Words(Lower(query)), 3)) + " " + QuerySuffix
  }

  predicate EndsWith(s: string, t: string) {
    |t| <= |s| && s[|s| - |t|..] == t
  }

  /**
   * `optimize_query_for_attempt`: a fixed priority over the topic flags per attempt;
   * `previousEvaluations` is accepted and not read. The fixed keyword strings have no
   * surrounding whitespace, so the final strip only acts on the query-built one.
   */
  function OptimizeQueryForAttempt(originalQuery: string, attempt: int, previousEvaluations: seq<LogEntry>): (r: string)
    ensures attempt == 1 ==> r in FocusedQueries || (Trimmed(r) && EndsWith(r, QuerySuffix))
    ensures attempt == 2 ==> r in ExpandedQueries
    ensures attempt != 1 && attempt != 2 ==> r in BroadQueries
  {
    var t := DetectTopics(originalQuery);
    if attempt == 1 then
      if t.salt then SaltFocused
      else if t.dosage && t.component then ComponentDosageFocused
      else if t.dosage then DosageFocused
      else if t.coral then CoralFocused
      else if t.problem then ProblemFocused
      else if t.fish then FishFocused
      else if t.water then WaterFocused
      else if t.startup then StartupFocused
      else
        var k := JoinWords(LongerThan(Words(Lower(originalQuery)), 3));
        assert QueryKeywords(originalQuery) == (k + " ") + QuerySuffix;
        StripKeepsSuffix(k + " ", QuerySuffix);
        Strip(QueryKeywords(originalQuery))
    else if attempt == 2 then
      if t.salt then SaltExpanded
      else if t.dosage then DosageExpanded
      else if t.coral then CoralExpanded
      else if t.problem then ProblemExpanded
      else if t.fish then FishExpanded
      else if t.water then WaterExpanded
      else if t.startup then StartupExpanded
      else GenericExpanded
    else if t.salt || t.coral || t.component then MarineBroad
    else if t.startup || t.water then StartupWaterBroad
    else if t.fish then FishBroad
    else GenericBroad
  }

  /** With no topic flag, attempt 1 searches for the query's long words followed by the domain suffix. */
  lemma FirstAttemptKeepsLongWords(query: string, previous: seq<LogEntry>)
    requires DetectTopics(query) == Topics(false, false, false, false, false, false, false, false)
    ensures Words(OptimizeQueryForAttempt(query, 1, previous))
            == LongerThan(Words(Lower(query)), 3) + ["akwarium", "Aquaforest"]
  {
    var all := Words(Lower(query));
    var ws := LongerThan(all, 3);
    assert OptimizeQueryForAttempt(query, 1, previous) == Strip(QueryKeywords(query));
    WordsOfStrip(QueryKeywords(query));
    WordsAroundSpace(JoinWords(ws), QuerySuffix);
    assert forall i :: 0 <= i < |ws| ==> IsWord(ws[i]) by {
      forall i | 0 <= i < |ws| ensures IsWord(ws[i]) {
        var j :| 0 <= j < |all| && all[j] == ws[i];
      }
    }
    WordsOfJoin(ws);
    WordsOfSuffix();
  }

  lemma WordsOfSuffix()
    ensures Words(QuerySuffix) == ["akwarium", "Aquaforest"]
  {
    assert QuerySuffix == "akwarium" + " " + "Aquaforest";
    WordsOfTwo("akwarium", "Aquaforest");
  }

  /**
   * The single-character component terms make almost every query a component query,
   * so the widest attempt then searches the marine keywords.
   */
  lemma ShortComponentTermsWidenToMarine(query: string, attempt: int, previous: seq<LogEntry>)
    requires attempt != 1 && attempt != 2
    requires exists c | c in "abc123" :: c in Lower(query)
    ensures OptimizeQueryForAttempt(query, attempt, previous) == MarineBroad
  {
    ShortComponentTermMatches(query);
  }

  lemma ShortComponentTermMatches(query: string)
    requires exists c | c in "abc123" :: c in Lower(query)
    ensures DetectTopics(query).component
  {
    var q := Lower(query);
    var c :| c in "abc123" && c in q;
    var k :| 0 <= k < |q| && q[k] == c;
    var i := if c == 'a' then 2 else if c == 'b' then 3 else if c == 'c' then 4
             else if c == '1' then 5 else if c == '2' then 6 else 7;
    assert q[k..k + |ComponentTerms[i]|] == ComponentTerms[i];
    ContainsAt(q, ComponentTerms[i], k);
  }

  /** The previous evaluations passed in never change the reformulated query. */
  lemma PreviousEvaluationsUnused(query: string, attempt: int, p1: seq<LogEntry>, p2: seq<LogEntry>)
    ensures OptimizeQueryForAttempt(query, attempt, p1) == OptimizeQueryForAttempt(query, attempt, p2)
  {
  }

  // ------------------------------------------------------------------ scoring

  /** One result as the scorer sees it: title, type and the first 400 characters of the body. */
  function EvaluationBlock(i: nat, d: Doc): string {
    "\n--- RESULT " + NatToString(i + 1) + " ---\n"
    + "Title: " + d.title + "\n"
    + "Type: " + d.contentType + "\n"
    + "Content: " + Take(d.fullContent, 400) + "...\n"
  }

  function EvaluationBlocks(rs: seq<Doc>): string
    decreases |rs|
  {
    if rs == [] then "" else EvaluationBlocks(rs[..|rs| - 1]) + EvaluationBlock(|rs| - 1, rs[|rs| - 1])
  }

  function Min(a: int, b: int): int {
    if a < b then a else b
  }

  /** The results text of the scoring prompt: the first four results only. */
  function EvaluationContext(results: seq<Doc>): string {
    EvaluationBlocks(results[..Min(4, |results|)])
  }

  /** The loop of `evaluate_content_quality` that accumulates the results text. */
  method BuildEvaluationContext(results: seq<Doc>) returns (context: string)
    ensures context == EvaluationContext(results)
  {
    context := "";
    var n := Min(4, |results|);
    for i := 0 to n
      invariant context == EvaluationBlocks(results[..i])
    {
      assert results[..i + 1][..i] == results[..i];
      context := context + EvaluationBlock(i, results[i]);
    }
    assert results[..n] == results[..Min(4, |results|)];
  }

  /** Two results the scorer cannot tell apart: same title, type and body. */
  predicate SameText(a: Doc, b: Doc) {
    a.title == b.title && a.contentType == b.contentType && a.fullContent == b.fullContent
  }

  lemma {:induction false} EvaluationBlocksReadText(a: seq<Doc>, b: seq<Doc>)
    requires |a| == |b| && forall i :: 0 <= i < |a| ==> SameText(a[i], b[i])
    ensures EvaluationBlocks(a) == EvaluationBlocks(b)
    decreases |a|
  {
    if a != [] {
      EvaluationBlocksReadText(a[..|a| - 1], b[..|b| - 1]);
    }
  }

  const ConfidenceLabel := "CONFIDENCE:"
  const ReasoningLabel := "REASONING:"
  const NoResultsReasoning := "No search results to evaluate"
  const NoReasoning := "No reasoning provided"

  /** The first index at or after `k` that is not whitespace (`\s*`). */
  function SkipSpaces(s: string, k: nat): (j: nat)
    requires k <= |s|
    ensures k <= j <= |s| && (j == |s| || !IsSpace(s[j]))
    ensures forall i :: k <= i < j ==> IsSpace(s[i])
    decreases |s| - k
  {
    if k < |s| && IsSpace(s[k]) then SkipSpaces(s, k + 1) else k
  }

  /** `CONFIDENCE:\s*([1-9]|10)` tried at index `p`: the single digit captured, if it matches there. */
  function ScoreDigitAt(s: string, p: int): (r: Option<nat>)
    ensures r.Some? ==> 1 <= r.value <= 9 && OccursAt(s, ConfidenceLabel, p)
  {
    if OccursAt(s, ConfidenceLabel, p) then
      var j := SkipSpaces(s, p + |ConfidenceLabel|);
      if j < |s| && '1' <= s[j] <= '9' then Some(s[j] as int - '0' as int) else None
    else None
  }

  /** `re.search` of the confidence pattern from index `from`: the leftmost match wins. */
  function FirstScoreDigit(s: string, from: nat): (r: Option<nat>)
    ensures r.Some? ==> 1 <= r.value <= 9
    ensures r.None? <==> forall p :: from <= p ==> ScoreDigitAt(s, p).None?
    ensures r.Some? ==> exists p :: from <= p && ScoreDigitAt(s, p) == r
                                    && forall k :: from <= k < p ==> ScoreDigitAt(s, k).None?
    decreases |s| - from
  {
    if from >= |s| then None
    else match ScoreDigitAt(s, from)
      case Some(d) => Some(d)
      case None => FirstScoreDigit(s, from + 1)
  }

  /** The alternative `10` is never reached: `[1-9]` already matches its `1`. */
  lemma TenReadsAsOne(s: string, p: nat)
    requires OccursAt(s, "CONFIDENCE: 10", p)
    ensures ScoreDigitAt(s, p) == Some(1)
  {
    var t := "CONFIDENCE: 10";
    assert s[p..p + |t|] == t;
    assert s[p..p + 11] == t[..11] == ConfidenceLabel;
    assert s[p + 11] == ' ' && s[p + 12] == '1';
    assert SkipSpaces(s, p + 12) == p + 12;
  }

  /**
   * `REASONING:\s*(.+)` with DOTALL, stripped: the text after the first label, when
   * anything follows it; None when there is no label or the first one ends the text.
   */
  function ParseReasoning(s: string): (r: Option<string>)
    ensures r.Some? ==>
      exists p :: && OccursAt(s, ReasoningLabel, p) && p + |ReasoningLabel| < |s|
                  && (forall k :: 0 <= k < p ==> !OccursAt(s, ReasoningLabel, k))
                  && r.value == Strip(s[p + |ReasoningLabel|..])
    ensures r.None? ==> forall p :: OccursAt(s, ReasoningLabel, p) ==> p + |ReasoningLabel| == |s|
  {
    match IndexOf(s, ReasoningLabel, 0)
    case None => None
    case Some(p) =>
      if p + |ReasoningLabel| < |s| then
        var rest := s[p + |ReasoningLabel|..];
        assert OccursAt(s, ReasoningLabel, p);
        Some(Strip(rest))
      else None
  }

  /**
   * `evaluate_content_quality`: (confidence, reasoning). No results: 0.0 with no model call.
   * A model failure: 3.0. Otherwise the leftmost parsed digit, 5.0 when there is none.
   */
  function EvaluateContentQuality(query: string, results: seq<Doc>, svc: Services): (e: (real, string))
    ensures results == [] ==> e == (0.0, NoResultsReasoning)
    ensures results != [] ==> 1.0 <= e.0 <= 9.0 && e.0 == e.0.Floor as real
    ensures results != [] ==>
      match svc.llm(EvaluationPrompt(query, EvaluationContext(results)))
      case Raised(err) => e == (3.0, "Evaluation failed: " + err)
      case Completed(text) =>
        && (FirstScoreDigit(text, 0).None? ==> e.0 == 5.0)
        && (FirstScoreDigit(text, 0).Some? ==> e.0 == FirstScoreDigit(text, 0).value as real)
        && (ParseReasoning(text).None? ==> e.1 == NoReasoning)
        && (ParseReasoning(text).Some? ==> e.1 == ParseReasoning(text).value)
  {
    if results == [] then (0.0, NoResultsReasoning)
    else match svc.llm(EvaluationPrompt(query, EvaluationContext(results)))
      case Raised(err) => (3.0, "Evaluation failed: " + err)
      case Completed(text) =>
        var confidence := match FirstScoreDigit(text, 0) case Some(d) => d as real case None => 5.0;
        (confidence, ParseReasoning(text).GetOr(NoReasoning))
  }

  /**
   * The score never depends on the index's similarity scores, nor on anything past
   * the first four results: only their title, type and body reach the model.
   */
  lemma ScoreReadsOnlyText(query: string, a: seq<Doc>, b: seq<Doc>, svc: Services)
    requires (a == []) == (b == [])
    requires Min(4, |a|) == Min(4, |b|)
    requires forall i :: 0 <= i < Min(4, |a|) ==> SameText(a[i], b[i])
    ensures EvaluateContentQuality(query, a, svc) == EvaluateContentQuality(query, b, svc)
  {
    var n := Min(4, |a|);
    EvaluationBlocksReadText(a[..n], b[..n]);
  }
}
