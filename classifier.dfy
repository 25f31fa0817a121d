/**
 * The message classifiers of the learning system: intent, sentiment,
 * keywords and category, and the similarity score between two analyses.
 * Each `/…/i` regex over ASCII words is a prefix (`^(…)`) or substring test
 * on the ASCII-lowered message.
 */
module Classifier {
  import opened Common
  import opened Strings

  datatype Intent =
    Greeting | Question | Request | Confirmation | Farewell | Business | Urgent | Emotional | General

  datatype Sentiment = Positive | Negative | Neutral

  datatype Category = BusinessTalk | Social | Family | Other

  /** What `analyzeMessage` produces before and after the pattern lookup. */
  datatype Analysis = Analysis(
    intent: Intent,
    sentiment: Sentiment,
    keywords: seq<string>,
    category: Category,
    confidence: real,
    suggestedResponse: Option<string>)

  /** The sender context handed to `categorizeMessage`. */
  datatype Context = Context(relationship: Option<string>)

  const GreetingWords: seq<string> := ["hi", "hello", "hey", "sup", "yo", "good morning", "good evening"]
  const QuestionWords: seq<string> := ["what", "when", "where", "who", "why", "how", "can", "could", "would", "should"]
  const RequestWords: seq<string> := ["please", "could you", "can you", "would you", "need", "want", "help"]
  const ConfirmationWords: seq<string> := ["yes", "yeah", "yep", "sure", "ok", "okay", "alright", "no", "nope", "maybe"]
  const FarewellWords: seq<string> := ["bye", "goodbye", "see you", "talk later", "gtg", "cya"]
  const BusinessWords: seq<string> := ["meeting", "project", "deadline", "invoice", "payment", "contract", "proposal"]
  const UrgentWords: seq<string> := ["urgent", "asap", "emergency", "important", "immediately"]
  const EmotionalWords: seq<string> := ["feel", "sad", "happy", "excited", "worried", "stressed", "love", "hate"]

  /** The order in which `detectIntent` tries its patterns. */
  const IntentOrder: seq<Intent> :=
    [Greeting, Question, Request, Confirmation, Farewell, Business, Urgent, Emotional]

  /** Whether the regex of intent `i` matches message `m`. */
  predicate IntentMatches(i: Intent, m: string) {
    var low := Lower(m);
    match i
    case Greeting => StartsWithAny(low, GreetingWords)
    case Question => Contains(low, "?") || StartsWithAny(low, QuestionWords)
    case Request => ContainsAny(low, RequestWords)
    case Confirmation => StartsWithAny(low, ConfirmationWords)
    case Farewell => ContainsAny(low, FarewellWords)
    case Business => ContainsAny(low, BusinessWords)
    case Urgent => ContainsAny(low, UrgentWords)
    case Emotional => ContainsAny(low, EmotionalWords)
    case General => false
  }

  /** The first intent of `order` whose pattern matches, or `General`. */
  function FirstIntent(order: seq<Intent>, m: string): (r: Intent)
    ensures r == General <==> forall k :: 0 <= k < |order| ==> !IntentMatches(order[k], m)
    ensures r != General ==>
      exists k :: 0 <= k < |order| && order[k] == r && IntentMatches(r, m)
        && forall j :: 0 <= j < k ==> !IntentMatches(order[j], m)
  {
    if order == [] then General
    else if IntentMatches(order[0], m) then order[0]
    else
      var r := FirstIntent(order[1..], m);
      assert r != General ==>
        exists k :: 1 <= k < |order| && order[k] == r && IntentMatches(r, m) && forall j :: 1 <= j < k ==> !IntentMatches(order[j], m);
      r
  }

  /** `detectIntent`: the first matching intent in the fixed order, else `General`. */
  function DetectIntent(m: string): (r: Intent)
    ensures r == General <==> forall k :: 0 <= k < |IntentOrder| ==> !IntentMatches(IntentOrder[k], m)
    ensures r != General ==>
      exists k :: 0 <= k < |IntentOrder| && IntentOrder[k] == r && IntentMatches(r, m)
        && forall j :: 0 <= j < k ==> !IntentMatches(IntentOrder[j], m)
  {
    FirstIntent(IntentOrder, m)
  }

  const PositiveWords: seq<string> :=
    ["good", "great", "excellent", "amazing", "wonderful", "happy", "love", "thanks", "appreciate"]
  const NegativeWords: seq<string> :=
    ["bad", "terrible", "awful", "hate", "angry", "upset", "disappointed", "problem"]

  /** `analyzeSentiment`: positive wins over negative; everything else is neutral. */
  function AnalyzeSentiment(m: string): (r: Sentiment)
    ensures r == Positive <==> ContainsAny(Lower(m), PositiveWords)
    ensures r == Negative <==> !ContainsAny(Lower(m), PositiveWords) && ContainsAny(Lower(m), NegativeWords)
    ensures r == Neutral <==> !ContainsAny(Lower(m), PositiveWords) && !ContainsAny(Lower(m), NegativeWords)
  {
    var low := Lower(m);
    if ContainsAny(low, PositiveWords) then Positive
    else if ContainsAny(low, NegativeWords) then Negative
    else Neutral
  }

  const StopWords: set<string> := {"the", "a", "an", "and", "or", "but", "in", "on", "at", "to", "for"}

  /**
   * `w.length`: JavaScript counts UTF-16 code units, so a character beyond
   * U+FFFF (an emoji, say) counts twice.
   */
  function Utf16Length(w: string): (n: nat)
    ensures |w| <= n <= 2 * |w|
    ensures (forall k :: 0 <= k < |w| ==> w[k] < '\U{10000}') ==> n == |w|
  {
    if w == [] then 0
    else Utf16Length(w[..|w| - 1]) + (if w[|w| - 1] < '\U{10000}' then 1 else 2)
  }

  /** Whether `extractKeywords` keeps a word: not a stop word and longer than 2 code units. */
  predicate IsKeyword(w: string) {
    w !in StopWords && Utf16Length(w) > 2
  }

  /** Two emoji make a keyword: four code units, though only two characters. */
  lemma TwoEmojiAreAKeyword()
    ensures IsKeyword("\U{1F44D}\U{1F44D}")
  {
    var w := "\U{1F44D}\U{1F44D}";
    assert w[..1] == "\U{1F44D}" && w[..1][..0] == [];
    assert Utf16Length(w[..1]) == 2;
  }

  /** `s.split(/\s+/)` continued from a partly read field `cur`. */
  function SplitFrom(s: string, cur: string): (r: seq<string>)
    requires NoWs(cur)
    ensures |r| >= 1
    ensures forall k :: 0 <= k < |r| ==> NoWs(r[k])
    ensures IsLower(s) && IsLower(cur) ==> forall k :: 0 <= k < |r| ==> IsLower(r[k])
    decreases |s|
  {
    if s == [] then [cur]
    else if IsWs(s[0]) then [cur] + SplitFrom(TrimStart(s[1..]), [])
    else SplitFrom(s[1..], cur + [s[0]])
  }

  /** `s.split(/\s+/)`: the fields between runs of whitespace (empty at the ends). */
  function SplitWs(s: string): (r: seq<string>)
    ensures |r| >= 1
    ensures forall k :: 0 <= k < |r| ==> NoWs(r[k])
    ensures IsLower(s) ==> forall k :: 0 <= k < |r| ==> IsLower(r[k])
  {
    SplitFrom(s, [])
  }

  /** The `filter` of `extractKeywords`. */
  function FilterKeywords(words: seq<string>): (r: seq<string>)
    ensures forall k :: 0 <= k < |r| ==> IsKeyword(r[k])
    ensures forall w :: w in r <==> w in words && IsKeyword(w)
    ensures IsSubsequence(r, words)
    ensures forall w :: multiset(r)[w] == if IsKeyword(w) then multiset(words)[w] else 0
  {
    if words == [] then []
    else
      assert words == [words[0]] + words[1..];
      if IsKeyword(words[0]) then [words[0]] + FilterKeywords(words[1..])
      else FilterKeywords(words[1..])
  }

  /**
   * `extractKeywords`: the lowered whitespace-separated words, in order, that
   * are longer than two characters and not stop words.
   */
  function ExtractKeywords(m: string): (r: seq<string>)
    ensures forall k :: 0 <= k < |r| ==> IsKeyword(r[k]) && IsLower(r[k]) && NoWs(r[k])
    ensures IsSubsequence(r, SplitWs(Lower(m)))
    ensures forall w :: w in SplitWs(Lower(m)) && IsKeyword(w) ==> w in r
    ensures forall w :: multiset(r)[w] == if IsKeyword(w) then multiset(SplitWs(Lower(m)))[w] else 0
  {
    FilterKeywords(SplitWs(Lower(m)))
  }

  /**
   * `categorizeMessage`: the relationship or a case-sensitive word test, in
   * the order business, social, family.
   */
  function CategorizeMessage(m: string, ctx: Context): (r: Category)
    ensures r == BusinessTalk <==>
      ctx.relationship == Some("client") || ContainsAny(m, ["business", "project", "meeting"])
    ensures r == Social <==>
      (r != BusinessTalk && (ctx.relationship == Some("friend") || ContainsAny(m, ["hang out", "party", "fun"])))
    ensures r == Family <==> r != BusinessTalk && r != Social && ctx.relationship == Some("family")
  {
    if ctx.relationship == Some("client") || ContainsAny(m, ["business", "project", "meeting"]) then BusinessTalk
    else if ctx.relationship == Some("friend") || ContainsAny(m, ["hang out", "party", "fun"]) then Social
    else if ctx.relationship == Some("family") then Family
    else Other
  }

  /** The analysis `analyzeMessage` builds before it looks for a learned pattern. */
  function InitialAnalysis(m: string, ctx: Context): (a: Analysis)
    ensures a.confidence == 0.0 && a.suggestedResponse == None
  {
    Analysis(DetectIntent(m), AnalyzeSentiment(m), ExtractKeywords(m), CategorizeMessage(m, ctx), 0.0, None)
  }

  /**
   * What `calculateSimilarity` reads of its arguments: a field that the
   * argument does not have is `None` (JavaScript `undefined`, which equals
   * itself), and missing keywords give an empty set (`new Set(undefined)`).
   */
  datatype Probe = Probe(
    intent: Option<Intent>,
    sentiment: Option<Sentiment>,
    category: Option<Category>,
    keywords: set<string>)

  function ProbeOf(a: Analysis): Probe {
    Probe(Some(a.intent), Some(a.sentiment), Some(a.category), set k | k in a.keywords)
  }

  /** Jaccard overlap of two keyword sets, 0 when both are empty. */
  function Jaccard(k1: set<string>, k2: set<string>): (r: real)
    ensures 0.0 <= r <= 1.0
    ensures k1 == k2 && k1 != {} ==> r == 1.0
    ensures k1 * k2 == {} ==> r == 0.0
  {
    var union := k1 + k2;
    if |union| > 0 then
      SubsetSize(k1 * k2, union);
      var i, u := |k1 * k2| as real, |union| as real;
      RatioInUnit(i, u);
      assert k1 == k2 ==> k1 * k2 == union;
      i / u
    else 0.0
  }

  lemma RatioInUnit(i: real, u: real)
    requires 0.0 <= i <= u && u > 0.0
    ensures 0.0 <= i / u <= 1.0
    ensures i == u ==> i / u == 1.0
  {
    assert (i / u) * u == i;
  }

  lemma JaccardSymmetric(k1: set<string>, k2: set<string>)
    ensures Jaccard(k1, k2) == Jaccard(k2, k1)
  {
    assert k1 + k2 == k2 + k1 && k1 * k2 == k2 * k1;
  }

  lemma SubsetSize<T>(a: set<T>, b: set<T>)
    requires a <= b
    ensures |a| <= |b|
  {
    assert b == a + (b - a);
  }

  /** `calculateSimilarity`: 0.3 intent + 0.2 sentiment + 0.2 category + 0.3 Jaccard. */
  function Similarity(p: Probe, q: Probe): (r: real)
    ensures 0.0 <= r <= 1.0
  {
    (if p.intent == q.intent then 0.3 else 0.0)
    + (if p.sentiment == q.sentiment then 0.2 else 0.0)
    + (if p.category == q.category then 0.2 else 0.0)
    + 0.3 * Jaccard(p.keywords, q.keywords)
  }

  lemma SimilaritySymmetric(p: Probe, q: Probe)
    ensures Similarity(p, q) == Similarity(q, p)
  {
    JaccardSymmetric(p.keywords, q.keywords);
  }

  /** Same features and the same non-empty keyword set score exactly 1. */
  lemma SimilarityOfEqualIsOne(p: Probe, q: Probe)
    requires p.intent == q.intent && p.sentiment == q.sentiment && p.category == q.category
    requires p.keywords == q.keywords && p.keywords != {}
    ensures Similarity(p, q) == 1.0
  {
  }

  /** Without any keyword on either side the score never exceeds 0.7. */
  lemma SimilarityWithoutKeywordsAtMost(p: Probe, q: Probe)
    requires p.keywords == {} && q.keywords == {}
    ensures Similarity(p, q) <= 0.7
  {
  }
}
