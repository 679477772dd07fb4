/**
 * `analyze_query_intent`: five ordered phrase categories checked against the
 * lower-cased query, each match overwriting the intent and threshold, then an optional
 * chat-model label when no phrase matched.
 */
module IntentDetection {
  import opened Wrappers
  import opened Text
  import opened State
  import opened Oracles
  import opened DynamicQueryOptimizer

  /** One phrase category: what a match writes. `businessType` None: the business type is kept. */
  datatype Category = Category(
    patterns: seq<string>,
    intent: string,
    threshold: real,
    businessType: Option<string>,
    setsTradeSecret: bool)

  /** The four local variables the classification builds. */
  datatype Classification = Classification(intent: string, businessType: string, tradeSecret: bool, threshold: real)

  const BusinessPatterns := [
    "współpraca", "dystrybucja", "partnership", "zostać dystrybutorem",
    "nawiązać współpracę", "przedstawiciel", "dealer", "sprzedaż hurtowa",
    "wholesale", "biznes", "firma", "współpracować", "dołączyć",
    "reprezentować", "sprzedawać produkty"]
  const ProductionPatterns := [
    "jak powstaje", "jak jest produkowany", "sposób produkcji",
    "receptura", "skład szczegółowy", "jak wytwarzany", "proces produkcji",
    "jak robią", "jak się robi", "technologia", "metoda produkcji",
    "składniki dokładne", "jak tworzy", "jak wytwarza"]
  const DosagePatterns := [
    "dawkowanie", "dawka", "ile", "jak stosować", "dozowanie",
    "aplikacja", "ile ml", "proporcje", "stosunek", "jak używać",
    "częstotliwość", "jak często", "ilość", "miara", "porcja"]
  const ProblemPatterns := [
    "problem", "jak pozbyć", "jak usunąć", "jak obniżyć",
    "co robić", "porada", "rozwiązanie", "pomoc", "jak walczyć",
    "jak zlikwidować", "jak zapobiec", "jak leczyć", "ratunku"]
  const SupportPatterns := [
    "pomoc", "wsparcie", "nie działa", "błąd", "awaria",
    "nie wiem", "jak zacząć", "porady", "instrukcja"]

  const BusinessCategory := Category(BusinessPatterns, "business", 9.0, Some("partnership"), false)
  const ProductionCategory := Category(ProductionPatterns, "production", 5.0, None, true)
  const DosageCategory := Category(DosagePatterns, "dosage", 6.0, None, false)
  const ProblemCategory := Category(ProblemPatterns, "troubleshooting", 6.5, None, false)
  const SupportCategory := Category(SupportPatterns, "support", 6.5, Some("technical_support"), false)

  /** The categories in the order they are checked. */
  const Categories := [BusinessCategory, ProductionCategory, DosageCategory, ProblemCategory, SupportCategory]

  /** The values before any check: intent general, no business type, no trade secret, threshold 7.0. */
  const Unclassified := Classification("general", "none", false, 7.0)

  /** Some phrase of the category occurs in the (lower-cased) query. */
  predicate Matches(query: string, cat: Category) {
    ContainsAny(query, cat.patterns)
  }

  /** One `if any(phrase in query ...)` block. */
  function Apply(c: Classification, cat: Category, query: string): Classification {
    if Matches(query, cat) then
      Classification(cat.intent, cat.businessType.GetOr(c.businessType), c.tradeSecret || cat.setsTradeSecret, cat.threshold)
    else c
  }

  /** The blocks run in order, each on the values the previous one left. */
  function PatternPass(query: string, cats: seq<Category>, c: Classification): Classification
    decreases |cats|
  {
    if cats == [] then c else PatternPass(query, cats[1..], Apply(c, cats[0], query))
  }

  /** No category matches: the values are left as they were. */
  lemma {:induction false} NoMatchKeeps(query: string, cats: seq<Category>, c: Classification)
    requires forall k :: 0 <= k < |cats| ==> !Matches(query, cats[k])
    ensures PatternPass(query, cats, c) == c
    decreases |cats|
  {
    if cats != [] {
      assert !Matches(query, cats[0]);
      NoMatchKeeps(query, cats[1..], c);
    }
  }

  /** The last matching category decides the intent and the threshold. */
  lemma {:induction false} LastMatchWins(query: string, cats: seq<Category>, c: Classification, k: nat)
    requires k < |cats| && Matches(query, cats[k])
    requires forall j :: k < j < |cats| ==> !Matches(query, cats[j])
    ensures PatternPass(query, cats, c).intent == cats[k].intent
    ensures PatternPass(query, cats, c).threshold == cats[k].threshold
    decreases |cats|
  {
    var next := Apply(c, cats[0], query);
    if k == 0 {
      NoMatchKeeps(query, cats[1..], next);
    } else {
      LastMatchWins(query, cats[1..], next, k - 1);
    }
  }

  /** The trade-secret flag ends set exactly when it started set or some trade-secret category matched. */
  lemma {:induction false} TradeSecretSticky(query: string, cats: seq<Category>, c: Classification)
    ensures PatternPass(query, cats, c).tradeSecret
            <==> c.tradeSecret || exists k :: 0 <= k < |cats| && Matches(query, cats[k]) && cats[k].setsTradeSecret
    decreases |cats|
  {
    if cats != [] {
      var next := Apply(c, cats[0], query);
      TradeSecretSticky(query, cats[1..], next);
      if exists k :: 0 <= k < |cats| && Matches(query, cats[k]) && cats[k].setsTradeSecret {
        var k :| 0 <= k < |cats| && Matches(query, cats[k]) && cats[k].setsTradeSecret;
        if k > 0 {
          assert cats[1..][k - 1] == cats[k];
        }
      }
      if exists k :: 0 <= k < |cats[1..]| && Matches(query, cats[1..][k]) && cats[1..][k].setsTradeSecret {
        var k :| 0 <= k < |cats[1..]| && Matches(query, cats[1..][k]) && cats[1..][k].setsTradeSecret;
        assert cats[k + 1] == cats[1..][k];
      }
    }
  }

  /** The business type is the one of the last matching category that writes one, or the starting one. */
  lemma {:induction false} BusinessTypeOfLastWriter(query: string, cats: seq<Category>, c: Classification, k: nat)
    requires k < |cats| && Matches(query, cats[k]) && cats[k].businessType.Some?
    requires forall j :: k < j < |cats| ==> !(Matches(query, cats[j]) && cats[j].businessType.Some?)
    ensures PatternPass(query, cats, c).businessType == cats[k].businessType.value
    decreases |cats|
  {
    var next := Apply(c, cats[0], query);
    if k == 0 {
      KeepsBusinessType(query, cats[1..], next);
    } else {
      BusinessTypeOfLastWriter(query, cats[1..], next, k - 1);
    }
  }

  lemma {:induction false} KeepsBusinessType(query: string, cats: seq<Category>, c: Classification)
    requires forall j :: 0 <= j < |cats| ==> !(Matches(query, cats[j]) && cats[j].businessType.Some?)
    ensures PatternPass(query, cats, c).businessType == c.businessType
    decreases |cats|
  {
    if cats != [] {
      assert !(Matches(query, cats[0]) && cats[0].businessType.Some?);
      KeepsBusinessType(query, cats[1..], Apply(c, cats[0], query));
    }
  }

  /** The phrase-based classification of `analyze_query_intent`. */
  function ClassifyByPatterns(originalQuery: string): Classification {
    PatternPass(Lower(originalQuery), Categories, Unclassified)
  }

  /** "pomoc" is both a problem and a support phrase; support comes last, so it wins. */
  lemma PomocMeansSupport(originalQuery: string)
    requires Contains(Lower(originalQuery), "pomoc")
    ensures ClassifyByPatterns(originalQuery).intent == "support"
    ensures ClassifyByPatterns(originalQuery).businessType == "technical_support"
    ensures ClassifyByPatterns(originalQuery).threshold == 6.5
  {
    var q := Lower(originalQuery);
    assert SupportPatterns[0] == "pomoc";
    assert Matches(q, Categories[4]);
    LastMatchWins(q, Categories, Unclassified, 4);
    BusinessTypeOfLastWriter(q, Categories, Unclassified, 4);
  }

  /** A production phrase sets the trade-secret flag, whatever matches after it. */
  lemma ProductionSetsTradeSecret(originalQuery: string)
    requires Matches(Lower(originalQuery), ProductionCategory)
    ensures ClassifyByPatterns(originalQuery).tradeSecret
  {
    TradeSecretSticky(Lower(originalQuery), Categories, Unclassified);
    assert Categories[1] == ProductionCategory;
  }

  /** Only a production phrase can set the trade-secret flag. */
  lemma TradeSecretOnlyFromProduction(originalQuery: string)
    requires !Matches(Lower(originalQuery), ProductionCategory)
    ensures !ClassifyByPatterns(originalQuery).tradeSecret
  {
    TradeSecretSticky(Lower(originalQuery), Categories, Unclassified);
  }

  /** A business phrase with no support phrase leaves the business type "partnership". */
  lemma PartnershipSurvives(originalQuery: string)
    requires Matches(Lower(originalQuery), BusinessCategory)
    requires !Matches(Lower(originalQuery), SupportCategory)
    ensures ClassifyByPatterns(originalQuery).businessType == "partnership"
  {
    BusinessTypeOfLastWriter(Lower(originalQuery), Categories, Unclassified, 0);
  }

  /** The intent stays "general" exactly when no phrase of any category occurs. */
  lemma GeneralMeansNoMatch(originalQuery: string)
    ensures ClassifyByPatterns(originalQuery).intent == "general"
            <==> forall k :: 0 <= k < |Categories| ==> !Matches(Lower(originalQuery), Categories[k])
    ensures ClassifyByPatterns(originalQuery).intent == "general" ==> ClassifyByPatterns(originalQuery) == Unclassified
  {
    var q := Lower(originalQuery);
    if forall k :: 0 <= k < |Categories| ==> !Matches(q, Categories[k]) {
      NoMatchKeeps(q, Categories, Unclassified);
    } else {
      var k :| 0 <= k < |Categories| && Matches(q, Categories[k]);
      var last := LastMatching(q, Categories, k);
      LastMatchWins(q, Categories, Unclassified, last);
    }
  }

  /** The index of the last matching category, given that the one at `k` matches. */
  function LastMatching(query: string, cats: seq<Category>, k: nat): (last: nat)
    requires k < |cats| && Matches(query, cats[k])
    ensures k <= last < |cats| && Matches(query, cats[last])
    ensures forall j :: last < j < |cats| ==> !Matches(query, cats[j])
    decreases |cats| - k
  {
    if exists j :: k < j < |cats| && Matches(query, cats[j]) then
      var j :| k < j < |cats| && Matches(query, cats[j]);
      LastMatching(query, cats, j)
    else k
  }

  /** `intent_mapping`: a detected label to the system intent and its threshold; anything else is general. */
  function MapLabel(detected: string): (r: (string, real))
    ensures detected !in ["technical", "product", "troubleshooting", "setup", "maintenance"] ==> r == ("general", 7.0)
    ensures detected == "product" ==> r == ("product_info", 7.0)
    ensures detected in ["technical", "troubleshooting", "setup", "maintenance"] ==>
              r == (detected, if detected == "setup" then 6.0 else 6.5)
  {
    if detected == "technical" then ("technical", 6.5)
    else if detected == "product" then ("product_info", 7.0)
    else if detected == "troubleshooting" then ("troubleshooting", 6.5)
    else if detected == "setup" then ("setup", 6.0)
    else if detected == "maintenance" then ("maintenance", 6.5)
    else ("general", 7.0)
  }

  /** The chat-model step: general at 7.0 when the optimizer is missing. */
  function LlmClassification(originalQuery: string, svc: Services): (r: (string, real))
    ensures svc.optimizer.None? ==> r == ("general", 7.0)
    ensures r.1 in {6.0, 6.5, 7.0}
  {
    match svc.optimizer
    case None => ("general", 7.0)
    case Some(llm) => MapLabel(DetectIntentWithLlm(originalQuery, llm))
  }

  /** The classification `analyze_query_intent` writes. */
  function Classify(originalQuery: string, svc: Services): Classification {
    var p := ClassifyByPatterns(originalQuery);
    if p.intent == "general" then
      var (intent, threshold) := LlmClassification(originalQuery, svc);
      Classification(intent, p.businessType, p.tradeSecret, threshold)
    else p
  }

  /** The chat model only decides the intent and threshold, and only when no phrase matched. */
  lemma ClassifyUsesModelOnlyForGeneral(originalQuery: string, svc: Services)
    ensures var p := ClassifyByPatterns(originalQuery);
            p.intent != "general" ==> Classify(originalQuery, svc) == p
    ensures var p := ClassifyByPatterns(originalQuery);
            var m := LlmClassification(originalQuery, svc);
            p.intent == "general" ==> Classify(originalQuery, svc) == Classification(m.0, "none", false, m.1)
  {
    GeneralMeansNoMatch(originalQuery);
  }

  /**
   * `analyze_query_intent`: writes the four classification fields and sets
   * `company_context_added`. Its `{**state, ...}` return hands each log back to its
   * reducer, so the three logs come out doubled; nothing else changes.
   */
  function AnalyzeQueryIntent(s: State, svc: Services): (u: Update)
    ensures var c := Classify(s.originalQuery, svc);
            Merge(s, u) == Doubled(s).(queryIntent := c.intent, businessType := c.businessType,
                                       requiresTradeSecretFilter := c.tradeSecret,
                                       confidenceThresholdOverride := c.threshold, companyContextAdded := true)
    ensures |Merge(s, u).evaluationLog| == 2 * |s.evaluationLog|
  {
    var c := Classify(s.originalQuery, svc);
    Spread(s).(queryIntent := Some(c.intent), businessType := Some(c.businessType),
               requiresTradeSecretFilter := Some(c.tradeSecret), confidenceThresholdOverride := Some(c.threshold),
               companyContextAdded := Some(true))
  }
}
