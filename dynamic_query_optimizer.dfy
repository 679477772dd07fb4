/**
 * `DynamicQueryOptimizer`: the deterministic parts around its chat model, which is
 * passed in as `llm`. The lazy creation of that model happens inside each method's
 * `try`, so a failure to create it is one more `Raised` reply.
 */
module DynamicQueryOptimizer {
  import opened Wrappers
  import opened Text
  import opened Oracles

  // ---------------------------------------------------------------- strategy

  datatype Strategy = Focused | Expanded | Broad

  /** The strategy description put in the optimization prompt. */
  function StrategyText(s: Strategy): string {
    match s
    case Focused => "FOCUSED SEARCH - Use specific keywords related to exact user question"
    case Expanded => "EXPANDED SEARCH - Add synonyms, related terms and broader domain concepts"
    case Broad => "BROAD SEARCH - Use high-level terms and general domain keywords"
  }

  /** `_get_attempt_strategy`: attempts 1 and 2 have their own entry, every other integer gets entry 3. */
  function AttemptStrategy(attempt: int): (s: Strategy)
    ensures s == Focused <==> attempt == 1
    ensures s == Expanded <==> attempt == 2
    ensures s == Broad <==> attempt != 1 && attempt != 2
  {
    if attempt == 1 then Focused else if attempt == 2 then Expanded else Broad
  }

  /**
   * Two attempts get the same strategy text in their prompt exactly when they are the
   * same attempt or both fall back to the third entry.
   */
  lemma StrategyTextSeparatesAttempts(a: int, b: int)
    ensures StrategyText(AttemptStrategy(a)) == StrategyText(AttemptStrategy(b)) <==>
              a == b || (a != 1 && a != 2 && b != 1 && b != 2)
  {
    assert |StrategyText(Focused)| == 69 && |StrategyText(Expanded)| == 73 && |StrategyText(Broad)| == 63;
  }

  // ---------------------------------------------------------- attempt history

  /**
   * One element of `previous_attempts`; each key may be absent. The confidence is
   * kept as the text it is formatted to.
   */
  datatype AttemptNote = AttemptNote(confidence: Option<string>, optimalQuery: Option<string>, reasoning: Option<string>)

  const FirstAttemptText := "**FIRST ATTEMPT**: No previous attempts to consider."
  const PreviousAttemptsHeader := "**PREVIOUS ATTEMPTS ANALYSIS:**\n"

  /** The entry for the `i`-th previous attempt (1-based), with the defaults for missing keys. */
  function AttemptLine(i: nat, note: AttemptNote): string {
    "- Attempt " + NatToString(i) + ": '" + note.optimalQuery.GetOr("unknown")
    + "' → Confidence: " + note.confidence.GetOr("0") + "/10\n"
    + "  Reasoning: " + Take(note.reasoning.GetOr("No reasoning"), 100) + "...\n"
  }

  /** The entries of the first `|notes|` previous attempts. */
  function AttemptLines(notes: seq<AttemptNote>): string
    decreases |notes|
  {
    if notes == [] then "" else AttemptLines(notes[..|notes| - 1]) + AttemptLine(|notes|, notes[|notes| - 1])
  }

  function ImprovementFooter(current: int): string {
    "\n**NEEDED IMPROVEMENT**: Previous attempts didn't find sufficient quality content. "
    + "Try different semantic approach for attempt " + IntToString(current) + "."
  }

  /** How many of `count` previous attempts come before `current`: the loop stops at the first index `>= current`. */
  function ShownAttempts(count: nat, current: int): (n: nat)
    ensures n <= count
    ensures n == 0 || n < current
    ensures n == count || current <= n + 1
  {
    if current - 1 <= 0 then 0 else if current - 1 < count then current - 1 else count
  }

  /** What `_build_attempts_context` returns. */
  function AttemptsContext(previous: seq<AttemptNote>, current: int): (c: string)
    ensures previous == [] || current == 1 ==> c == FirstAttemptText
  {
    if previous == [] || current == 1 then FirstAttemptText
    else PreviousAttemptsHeader + AttemptLines(previous[..ShownAttempts(|previous|, current)]) + ImprovementFooter(current)
  }

  lemma AttemptLinesSnoc(notes: seq<AttemptNote>, i: nat)
    requires i < |notes|
    ensures AttemptLines(notes[..i + 1]) == AttemptLines(notes[..i]) + AttemptLine(i + 1, notes[i])
  {
    assert notes[..i + 1][..i] == notes[..i];
  }

  /** `_build_attempts_context`: the loop over the numbered previous attempts, left at the first one not before `current`. */
  method BuildAttemptsContext(previous: seq<AttemptNote>, current: int) returns (context: string)
    ensures context == AttemptsContext(previous, current)
  {
    if previous == [] || current == 1 {
      return FirstAttemptText;
    }
    var lines := "";
    var i := 1;
    while i <= |previous|
      invariant 1 <= i <= |previous| + 1
      invariant i - 1 <= ShownAttempts(|previous|, current)
      invariant lines == AttemptLines(previous[..i - 1])
    {
      if i >= current {
        break;
      }
      AttemptLinesSnoc(previous, i - 1);
      lines := lines + AttemptLine(i, previous[i - 1]);
      i := i + 1;
    }
    assert i - 1 == ShownAttempts(|previous|, current);
    context := PreviousAttemptsHeader + lines + ImprovementFooter(current);
  }

  /** Emptiness aside, the context lists exactly the attempts numbered below `current`, whatever follows them. */
  lemma {:induction false} LaterAttemptsIgnored(previous: seq<AttemptNote>, more: seq<AttemptNote>, current: int)
    requires previous != [] && |previous| >= current - 1
    ensures AttemptsContext(previous + more, current) == AttemptsContext(previous, current)
  {
    if current != 1 {
      var n := ShownAttempts(|previous|, current);
      assert n == ShownAttempts(|previous + more|, current);
      assert (previous + more)[..n] == previous[..n];
    }
  }

  // ------------------------------------------------------------------ cleaner

  /** `s` starts with `w` when both are lower-cased. */
  predicate StartsWithIgnoringCase(s: string, w: string) {
    |w| <= |s| && Lower(s[..|w|]) == Lower(w)
  }

  /** The length of the leading `keywords:?`, `search:?` or `query:?` label, tried in that order. */
  function LabelLength(s: string): (n: nat)
    ensures n <= |s|
  {
    var w :=
      if StartsWithIgnoringCase(s, "keywords") then 8
      else if StartsWithIgnoringCase(s, "search") then 6
      else if StartsWithIgnoringCase(s, "query") then 5
      else 0;
    if 0 < w < |s| && s[w] == ':' then w + 1 else w
  }

  /** `re.sub(r'^(keywords:?|search:?|query:?)\s*', '', s, flags=re.IGNORECASE)`. */
  function DropLeadingLabel(s: string): (r: string)
    ensures |r| <= |s| && r == s[|s| - |r|..]
    ensures (!StartsWithIgnoringCase(s, "keywords") && !StartsWithIgnoringCase(s, "search")
             && !StartsWithIgnoringCase(s, "query")) ==> r == s
  {
    if LabelLength(s) == 0 then s else StripLeading(s[LabelLength(s)..])
  }

  /** The string without its double quotes. */
  function WithoutQuotes(s: string): string {
    if s == [] then [] else (if s[0] == '"' then [] else [s[0]]) + WithoutQuotes(s[1..])
  }

  function QuoteCount(s: string): nat {
    if s == [] then 0 else (if s[0] == '"' then 1 else 0) + QuoteCount(s[1..])
  }

  lemma {:induction false} WithoutQuotesAppend(a: string, b: string)
    ensures WithoutQuotes(a + b) == WithoutQuotes(a) + WithoutQuotes(b)
    ensures QuoteCount(a + b) == QuoteCount(a) + QuoteCount(b)
    decreases |a|
  {
    if a == [] {
      assert a + b == b;
    } else {
      assert (a + b)[1..] == a[1..] + b;
      WithoutQuotesAppend(a[1..], b);
    }
  }

  /** The first index at or after `from` holding a double quote. */
  function NextQuote(s: string, from: nat): (r: Option<nat>)
    requires from <= |s|
    ensures r.Some? ==> from <= r.value < |s| && s[r.value] == '"'
    ensures r.Some? ==> forall k :: from <= k < r.value ==> s[k] != '"'
    ensures r.None? ==> forall k :: from <= k < |s| ==> s[k] != '"'
    decreases |s| - from
  {
    if from == |s| then None else if s[from] == '"' then Some(from) else NextQuote(s, from + 1)
  }

  /**
   * `re.sub(r'"([^"]*)"', r'\1', s)`: quote pairs, matched left to right, lose their
   * quotes; an unpaired last quote and the text after it stay as they are.
   */
  function Unquote(s: string): string
    decreases |s|
  {
    if s == [] then []
    else if s[0] != '"' then [s[0]] + Unquote(s[1..])
    else match NextQuote(s, 1)
      case None => s
      case Some(j) => s[1..j] + Unquote(s[j + 1..])
  }

  /** Unquoting removes only quotes, and leaves at most one of them: one exactly when their number is odd. */
  lemma {:induction false} UnquoteRemovesPairs(s: string)
    ensures WithoutQuotes(Unquote(s)) == WithoutQuotes(s)
    ensures QuoteCount(Unquote(s)) == QuoteCount(s) % 2
    decreases |s|
  {
    if s == [] {
    } else if s[0] != '"' {
      UnquoteRemovesPairs(s[1..]);
      UnquotePlainStep(s);
    } else {
      match NextQuote(s, 1)
      case None =>
        NoQuotesKept(s[1..]);
        assert s == ['"'] + s[1..];
        WithoutQuotesAppend(['"'], s[1..]);
      case Some(j) =>
        UnquoteRemovesPairs(s[j + 1..]);
        PairSplit(s, j);
        UnquotePairKeeps(s, s[1..j], s[j + 1..], Unquote(s[j + 1..]));
        UnquotePairCount(s, s[1..j], s[j + 1..], Unquote(s[j + 1..]));
    }
  }

  /** The step of `UnquoteRemovesPairs` over a first character that is not a quote. */
  lemma UnquotePlainStep(s: string)
    requires s != [] && s[0] != '"'
    requires WithoutQuotes(Unquote(s[1..])) == WithoutQuotes(s[1..])
    requires QuoteCount(Unquote(s[1..])) == QuoteCount(s[1..]) % 2
    ensures WithoutQuotes(Unquote(s)) == WithoutQuotes(s)
    ensures QuoteCount(Unquote(s)) == QuoteCount(s) % 2
  {
    KeptCharacter(s[0], s[1..]);
    KeptCharacter(s[0], Unquote(s[1..]));
    assert s == [s[0]] + s[1..];
  }

  /** A quote pair closed at `j` splits `s` into the pair's quote-free inside and the rest. */
  lemma PairSplit(s: string, j: nat)
    requires s != [] && s[0] == '"' && NextQuote(s, 1) == Some(j)
    ensures s == ['"'] + s[1..j] + ['"'] + s[j + 1..]
    ensures Unquote(s) == s[1..j] + Unquote(s[j + 1..])
    ensures QuoteCount(s[1..j]) == 0 && WithoutQuotes(s[1..j]) == s[1..j]
  {
    var inner := s[1..j];
    assert forall k :: 0 <= k < |inner| ==> inner[k] == s[k + 1];
    NoQuotesKept(inner);
  }

  /** The step of `UnquoteRemovesPairs` over a quote pair with inside `inner`: the same characters but quotes. */
  lemma UnquotePairKeeps(s: string, inner: string, rest: string, restUnquoted: string)
    requires s == ['"'] + inner + ['"'] + rest
    requires WithoutQuotes(inner) == inner
    requires WithoutQuotes(restUnquoted) == WithoutQuotes(rest)
    ensures WithoutQuotes(inner + restUnquoted) == WithoutQuotes(s)
  {
    WithoutQuotesAppend(inner, restUnquoted);
    QuotedPairKeeps(inner, rest);
  }

  /** The step of `UnquoteRemovesPairs` over a quote pair with inside `inner`: the parity of the quotes. */
  lemma UnquotePairCount(s: string, inner: string, rest: string, restUnquoted: string)
    requires s == ['"'] + inner + ['"'] + rest
    requires QuoteCount(inner) == 0
    requires QuoteCount(restUnquoted) == QuoteCount(rest) % 2
    ensures QuoteCount(inner + restUnquoted) == QuoteCount(s) % 2
  {
    WithoutQuotesAppend(inner, restUnquoted);
    QuotedPairCount(inner, rest);
    ParityAfterPair(QuoteCount(inner + restUnquoted), QuoteCount(rest), QuoteCount(s));
  }

  lemma ParityAfterPair(cu: nat, cr: nat, cs: nat)
    requires cu == cr % 2 && cs == 2 + cr
    ensures cu == cs % 2
  {
  }

  lemma KeptCharacter(c: char, t: string)
    requires c != '"'
    ensures WithoutQuotes([c] + t) == [c] + WithoutQuotes(t)
    ensures QuoteCount([c] + t) == QuoteCount(t)
  {
    assert ([c] + t)[1..] == t;
  }

  /** The one-quote string. */
  lemma OneQuote()
    ensures WithoutQuotes(['"']) == [] && QuoteCount(['"']) == 1
  {
    var q: string := ['"'];
    assert q[1..] == [];
  }

  lemma QuotedPairKeeps(inner: string, rest: string)
    requires WithoutQuotes(inner) == inner
    ensures WithoutQuotes(['"'] + inner + ['"'] + rest) == inner + WithoutQuotes(rest)
  {
    var q: string := ['"'];
    var a := q + inner;
    var b := a + q;
    OneQuote();
    WithoutQuotesAppend(q, inner);
    assert WithoutQuotes(a) == [] + inner == inner;
    WithoutQuotesAppend(a, q);
    assert WithoutQuotes(b) == inner + [] == inner;
    WithoutQuotesAppend(b, rest);
  }

  lemma QuotedPairCount(inner: string, rest: string)
    requires QuoteCount(inner) == 0
    ensures QuoteCount(['"'] + inner + ['"'] + rest) == 2 + QuoteCount(rest)
  {
    var q: string := ['"'];
    var a := q + inner;
    var b := a + q;
    OneQuote();
    WithoutQuotesAppend(q, inner);
    assert QuoteCount(a) == 1;
    WithoutQuotesAppend(a, q);
    assert QuoteCount(b) == 2;
    WithoutQuotesAppend(b, rest);
  }

  lemma {:induction false} NoQuotesKept(s: string)
    requires forall k :: 0 <= k < |s| ==> s[k] != '"'
    ensures QuoteCount(s) == 0 && WithoutQuotes(s) == s
    decreases |s|
  {
    if s != [] {
      NoQuotesKept(s[1..]);
    }
  }

  const MinimalTerms := ["aquarium", "Aquaforest"]

  /** The text before the length check: label dropped, quotes removed, whitespace runs collapsed, stripped. */
  function Normalized(raw: string): string {
    JoinWords(Words(Unquote(DropLeadingLabel(raw))))
  }

  /**
   * `_clean_optimal_query`: between 2 and 10 words. More than ten are cut to the first
   * ten, fewer than two get the two minimal terms in front.
   */
  function CleanOptimalQuery(raw: string): (r: string)
    ensures 2 <= |Words(r)| <= 10
    ensures var ws := Words(Unquote(DropLeadingLabel(raw)));
            && (|ws| > 10 ==> Words(r) == ws[..10])
            && (2 <= |ws| <= 10 ==> r == JoinWords(ws) && Words(r) == ws)
            && (|ws| < 2 ==> Words(r) == MinimalTerms + ws)
  {
    var ws := Words(Unquote(DropLeadingLabel(raw)));
    var cleaned := JoinWords(ws);
    WordsOfJoin(ws);
    if |ws| > 10 then
      WordsOfJoin(ws[..10]);
      JoinWords(ws[..10])
    else if |ws| < 2 then
      MinimalTermsInFront(cleaned);
      "aquarium Aquaforest " + cleaned
    else cleaned
  }

  lemma MinimalTermsInFront(cleaned: string)
    ensures Words("aquarium Aquaforest " + cleaned) == MinimalTerms + Words(cleaned)
  {
    var front := "aquarium" + " " + "Aquaforest";
    assert "aquarium Aquaforest " + cleaned == front + " " + cleaned;
    WordsAroundSpace(front, cleaned);
    WordsOfTwo("aquarium", "Aquaforest");
  }

  /** Cleaning an already clean query of two to ten plain words changes nothing. */
  lemma CleanKeepsPlainQueries(ws: seq<string>)
    requires 2 <= |ws| <= 10
    requires forall i :: 0 <= i < |ws| ==> IsWord(ws[i]) && '"' !in ws[i]
    requires !StartsWithIgnoringCase(JoinWords(ws), "keywords") && !StartsWithIgnoringCase(JoinWords(ws), "search")
             && !StartsWithIgnoringCase(JoinWords(ws), "query")
    ensures CleanOptimalQuery(JoinWords(ws)) == JoinWords(ws)
  {
    var s := JoinWords(ws);
    JoinHasNoQuotes(ws);
    UnquoteWithoutQuotes(s);
    WordsOfJoin(ws);
  }

  lemma {:induction false} JoinHasNoQuotes(ws: seq<string>)
    requires forall i :: 0 <= i < |ws| ==> '"' !in ws[i]
    ensures '"' !in JoinWords(ws)
    decreases |ws|
  {
    if |ws| > 1 {
      JoinHasNoQuotes(ws[1..]);
    }
  }

  lemma {:induction false} UnquoteWithoutQuotes(s: string)
    requires '"' !in s
    ensures Unquote(s) == s
    decreases |s|
  {
    if s != [] {
      assert s[0] != '"';
      assert '"' !in s[1..];
      UnquoteWithoutQuotes(s[1..]);
    }
  }

  // ----------------------------------------------------------------- fallback

  const FallbackBroad := "aquaristics seawater freshwater Aquaforest"

  /** `re.findall(r'\b\w{3,}\b', ...)`: the maximal `\w` runs of three or more characters. */
  function KeyTerms(query: string): seq<string> {
    LongerThan(WordCharRuns(Lower(query)), 2)
  }

  /** `_fallback_optimization`. */
  function FallbackOptimization(originalQuery: string, attempt: int): (r: string)
    ensures attempt == 1 ==> Words(r) == KeyTerms(originalQuery) + ["aquarium"]
    ensures attempt == 2 ==> Words(r) == KeyTerms(originalQuery) + ["Aquaforest", "products"]
    ensures attempt != 1 && attempt != 2 ==> r == FallbackBroad
  {
    var ws := KeyTerms(originalQuery);
    KeyTermsAreWords(originalQuery);
    WordsOfJoin(ws);
    if attempt == 1 then
      WordsThenAquarium(JoinWords(ws));
      JoinWords(ws) + " aquarium"
    else if attempt == 2 then
      WordsThenProducts(JoinWords(ws));
      JoinWords(ws) + " Aquaforest products"
    else FallbackBroad
  }

  lemma WordsThenAquarium(x: string)
    ensures Words(x + " aquarium") == Words(x) + ["aquarium"]
  {
    assert x + " aquarium" == x + " " + "aquarium";
    WordsThenWord(x, "aquarium");
  }

  lemma WordsThenProducts(x: string)
    ensures Words(x + " Aquaforest products") == Words(x) + ["Aquaforest", "products"]
  {
    assert x + " Aquaforest products" == x + " " + "Aquaforest" + " " + "products";
    WordsThenTwo(x, "Aquaforest", "products");
  }

  lemma KeyTermsAreWords(query: string)
    ensures forall i :: 0 <= i < |KeyTerms(query)| ==> IsWord(KeyTerms(query)[i]) && |KeyTerms(query)[i]| >= 3
  {
    var runs := WordCharRuns(Lower(query));
    var ws := KeyTerms(query);
    forall i | 0 <= i < |ws|
      ensures IsWord(ws[i]) && |ws[i]| >= 3
    {
      var j :| 0 <= j < |runs| && runs[j] == ws[i];
      RunIsWord(runs[j]);
    }
  }

  lemma RunIsWord(w: string)
    requires w != [] && forall k :: 0 <= k < |w| ==> IsWordChar(w[k])
    ensures IsWord(w)
  {
    forall k | 0 <= k < |w|
      ensures !IsSpace(w[k])
    {
      WordCharIsNotSpace(w[k]);
    }
  }

  lemma WordCharIsNotSpace(c: char)
    requires IsWordChar(c)
    ensures !IsSpace(c)
  {
  }

  // --------------------------------------------------------------- LLM calls

  /** The optimization prompt for an attempt: the question, its intent, the attempt's strategy and the context. */
  function OptimizerPrompt(originalQuery: string, attempt: int, previous: seq<AttemptNote>, queryIntent: string): Prompt {
    OptimizationPrompt(originalQuery, queryIntent, attempt, StrategyText(AttemptStrategy(attempt)),
                       AttemptsContext(previous, attempt))
  }

  /** `optimize_query_dynamically`: never raises; a failed model call falls back to keyword extraction. */
  function OptimizeQueryDynamically(originalQuery: string, attempt: int, previous: seq<AttemptNote>,
                                    queryIntent: string, llm: Prompt -> Reply): (r: string)
    ensures var reply := llm(OptimizerPrompt(originalQuery, attempt, previous, queryIntent));
            && (reply.Raised? ==> r == FallbackOptimization(originalQuery, attempt))
            && (reply.Completed? ==> 2 <= |Words(r)| <= 10 && r == CleanOptimalQuery(Strip(reply.content)))
  {
    match llm(OptimizerPrompt(originalQuery, attempt, previous, queryIntent))
    case Raised(_) => FallbackOptimization(originalQuery, attempt)
    case Completed(content) => CleanOptimalQuery(Strip(content))
  }

  /** The stripped lines that are not blank, in order (see `NonBlankLinesKeeps` and `NonBlankLinesAppend`). */
  function NonBlankLines(lines: seq<string>): (r: seq<string>)
    ensures |r| <= |lines|
    ensures forall i :: 0 <= i < |r| ==> r[i] != [] && !IsSpace(r[i][0]) && !IsSpace(r[i][|r[i]| - 1])
  {
    if lines == [] then []
    else
      var rest := NonBlankLines(lines[1..]);
      var l := Strip(lines[0]);
      if l == [] then rest else [l] + rest
  }

  /** Every line that is not blank once stripped is kept, stripped. */
  lemma {:induction false} NonBlankLinesKeeps(lines: seq<string>)
    ensures forall i :: 0 <= i < |lines| && Strip(lines[i]) != [] ==> Strip(lines[i]) in NonBlankLines(lines)
  {
    if lines != [] {
      var tail := lines[1..];
      NonBlankLinesKeeps(tail);
      forall i | 1 <= i < |lines|
        ensures lines[i] == tail[i - 1]
      {
      }
    }
  }

  /** A line `x` that is `lines[i]` stripped, for some `i`. */
  predicate StrippedFrom(x: string, lines: seq<string>) {
    exists i :: 0 <= i < |lines| && x == Strip(lines[i])
  }

  /** Nothing but stripped lines is kept. */
  lemma {:induction false} NonBlankLinesOnly(lines: seq<string>)
    ensures forall x :: x in NonBlankLines(lines) ==> StrippedFrom(x, lines)
  {
    if lines != [] {
      var tail := lines[1..];
      NonBlankLinesOnly(tail);
      forall x | x in NonBlankLines(tail)
        ensures StrippedFrom(x, lines)
      {
        var i :| 0 <= i < |tail| && x == Strip(tail[i]);
        assert tail[i] == lines[i + 1];
      }
      assert StrippedFrom(Strip(lines[0]), lines);
    }
  }

  /** Filtering two runs of lines one after the other filters each in turn. */
  lemma {:induction false} NonBlankLinesAppend(a: seq<string>, b: seq<string>)
    ensures NonBlankLines(a + b) == NonBlankLines(a) + NonBlankLines(b)
  {
    if a != [] {
      assert (a + b)[1..] == a[1..] + b;
      NonBlankLinesAppend(a[1..], b);
    } else {
      assert a + b == b;
    }
  }

  /**
   * `generate_query_variants`: the first `numVariants` non-blank lines of the reply
   * (Python slicing, so a negative count drops lines from the end), each cleaned;
   * the original query alone when the call raises.
   */
  function GenerateQueryVariants(originalQuery: string, numVariants: int, llm: Prompt -> Reply): (r: seq<string>)
    ensures match llm(VariantsPrompt(originalQuery, numVariants))
            case Raised(_) => r == [originalQuery]
            case Completed(content) =>
              var lines := NonBlankLines(Lines(content));
              && |r| == (if numVariants >= 0 then (if numVariants < |lines| then numVariants else |lines|)
                         else if |lines| + numVariants > 0 then |lines| + numVariants else 0)
              && (forall i :: 0 <= i < |r| ==> r[i] == CleanOptimalQuery(lines[i]))
              && (forall i :: 0 <= i < |r| ==> 2 <= |Words(r[i])| <= 10)
  {
    match llm(VariantsPrompt(originalQuery, numVariants))
    case Raised(_) => [originalQuery]
    case Completed(content) => CleanedVariants(NonBlankLines(Lines(content)), numVariants)
  }

  /** `[clean(v) for v in lines[:n]]`, with Python's slice bound. */
  function CleanedVariants(lines: seq<string>, n: int): (r: seq<string>)
    ensures |r| == (if n >= 0 then (if n < |lines| then n else |lines|)
                    else if |lines| + n > 0 then |lines| + n else 0)
    ensures forall i :: 0 <= i < |r| ==> r[i] == CleanOptimalQuery(lines[i])
  {
    var vs := SliceTo(lines, n);
    seq(|vs|, i requires 0 <= i < |vs| => CleanOptimalQuery(vs[i]))
  }

  const ValidIntents := ["technical", "product", "troubleshooting", "setup", "maintenance", "general"]

  /** `detect_intent_with_llm`: one of the six names, "general" for any other reply or a failure. */
  function DetectIntentWithLlm(query: string, llm: Prompt -> Reply): (r: string)
    ensures r in ValidIntents
    ensures match llm(IntentPrompt(query))
            case Raised(_) => r == "general"
            case Completed(content) =>
              (Lower(Strip(content)) in ValidIntents ==> r == Lower(Strip(content)))
              && (Lower(Strip(content)) !in ValidIntents ==> r == "general")
  {
    match llm(IntentPrompt(query))
    case Raised(_) => "general"
    case Completed(content) =>
      var detected := Lower(Strip(content));
      if detected in ValidIntents then detected else "general"
  }
}
