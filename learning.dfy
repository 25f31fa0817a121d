/**
 * The learning store of the self-learning userbot: the pattern map keyed by
 * the JSON text of an analysis, the response history, the admin feedback
 * that rewrites patterns, stats counters and personality traits, the periodic
 * pruning pass, the best-match search and the reply choice of `getResponse`.
 */
module Learning {
  import opened Common
  import opened Strings
  import opened Classifier
  import opened OrderedMaps

  /** A `Date`, as milliseconds; every "now" is a parameter. */
  type Time = int

  /** `JSON.stringify(analysis)`: the map key, one text per analysis. */
  datatype PatternKey = JsonOf(analysis: Analysis)

  /** A learned pattern; fields a variant does not set are `None` / `false`. */
  datatype Pattern = Pattern(
    analysis: Analysis,
    response: string,
    confidence: real,
    usageCount: Option<nat>,
    lastUsed: Option<Time>,
    avoidance: bool,
    feedback: Option<string>,
    adminApproved: bool)

  datatype HistoryEntry = HistoryEntry(
    originalMessage: string, response: string, analysis: Analysis,
    context: Context, timestamp: Time, confidence: real)

  datatype PendingEntry = PendingEntry(message: string, response: string, analysis: Analysis)

  /** `config.stats`. */
  datatype Stats = Stats(
    messagesProcessed: nat, successfulResponses: nat, failedResponses: nat,
    learningEvents: nat, averageConfidence: real)

  datatype Snapshot = Snapshot(timestamp: Time, traits: map<string, real>)

  /** The admin's verdict on a response: `rating`, `betterResponse`, `suggestion`, `traits`. */
  datatype Feedback = Feedback(
    rating: string, betterResponse: Option<string>, suggestion: Option<string>,
    traits: Option<map<string, real>>)

  /** `{learned: true, improvement, newPattern}`. */
  datatype LearnOutcome = LearnOutcome(improvement: string, newPattern: string)

  /** `{...bestMatch, confidence: highestSimilarity}`. */
  datatype Match = Match(pattern: Pattern, confidence: real)

  datatype Source = Learned | Ai

  /** What `getResponse` returns; `messageId` only for an AI reply. */
  datatype Reply = Reply(response: string, confidence: real, source: Source, messageId: Option<string>)

  /** `config.learning` fields read by `getResponse`. */
  datatype LearningConfig = LearningConfig(requireApproval: bool, improvementThreshold: real)

  type Patterns = seq<Entry<PatternKey, Pattern>>

  /** `findSimilarPattern` needs a score strictly above this. */
  const MatchThreshold: real := 0.7

  // ---------------------------------------------------------------------
  // Best-match search

  /**
   * The state of the `findSimilarPattern` loop after the first `n` scores:
   * the index of the best score so far and that score, 0 while there is none.
   */
  function SearchUpTo(scores: seq<real>, n: nat): (r: (Option<nat>, real))
    requires n <= |scores|
    ensures r.0.None? ==> r.1 == 0.0 && forall j :: 0 <= j < n ==> scores[j] <= MatchThreshold
    ensures r.0.Some? ==>
      && r.0.value < n
      && r.1 == scores[r.0.value] > MatchThreshold
      && (forall j :: 0 <= j < n ==> scores[j] <= r.1)
      && (forall j :: 0 <= j < r.0.value ==> scores[j] < r.1)
  {
    if n == 0 then (None, 0.0)
    else
      var (best, highest) := SearchUpTo(scores, n - 1);
      if scores[n - 1] > highest && scores[n - 1] > MatchThreshold then (Some(n - 1), scores[n - 1])
      else (best, highest)
  }

  /**
   * The index `findSimilarPattern` picks: the first index holding the
   * maximum score, provided that maximum is above 0.7.
   */
  function FirstMaxAbove(scores: seq<real>): (r: Option<nat>)
    ensures r.None? <==> forall i :: 0 <= i < |scores| ==> scores[i] <= MatchThreshold
    ensures r.Some? ==>
      && r.value < |scores|
      && scores[r.value] > MatchThreshold
      && (forall i :: 0 <= i < |scores| ==> scores[i] <= scores[r.value])
      && (forall i :: 0 <= i < r.value ==> scores[i] < scores[r.value])
  {
    SearchUpTo(scores, |scores|).0
  }

  /** The loop of `findSimilarPattern` over given scores. */
  method ArgMaxAbove(scores: seq<real>) returns (r: Option<nat>)
    ensures r == FirstMaxAbove(scores)
  {
    var best: Option<nat> := None;
    var highest := 0.0;
    var i := 0;
    while i < |scores|
      invariant 0 <= i <= |scores|
      invariant (best, highest) == SearchUpTo(scores, i)
    {
      if scores[i] > highest && scores[i] > MatchThreshold {
        highest := scores[i];
        best := Some(i);
      }
      i := i + 1;
    }
    r := best;
  }

  /**
   * What `calculateSimilarity` sees when handed a map key: the key is a
   * string, and a string has no `intent`, `sentiment`, `category` or
   * `keywords` property.
   */
  function StringKeyProbe(k: PatternKey): Probe {
    Probe(None, None, None, {})
  }

  /** The similarity of an analysis to a stored pattern's own analysis. */
  function Score(a: Analysis, p: Pattern): real {
    Similarity(ProbeOf(a), ProbeOf(p.analysis))
  }

  /** The score of every stored pattern, in map order. */
  function Scores(ps: Patterns, a: Analysis): (r: seq<real>)
    ensures |r| == |ps| && forall i :: 0 <= i < |ps| ==> r[i] == Score(a, ps[i].value)
  {
    seq(|ps|, i requires 0 <= i < |ps| => Score(a, ps[i].value))
  }

  /**
   * The match of the search over stored analyses: nothing unless some
   * pattern scores above 0.7, else the first pattern with the highest score.
   */
  function BestMatch(ps: Patterns, a: Analysis): (r: Option<Match>)
    ensures r.None? <==> forall i :: 0 <= i < |ps| ==> Score(a, ps[i].value) <= MatchThreshold
    ensures r.Some? ==> exists k :: (0 <= k < |ps|
      && r.value == Match(ps[k].value, Score(a, ps[k].value))
      && r.value.confidence > MatchThreshold
      && (forall i :: 0 <= i < |ps| ==> Score(a, ps[i].value) <= r.value.confidence)
      && (forall i :: 0 <= i < k ==> Score(a, ps[i].value) < r.value.confidence))
  {
    var scores := Scores(ps, a);
    MatchOf(ps, scores, FirstMaxAbove(scores))
  }

  /** `analyzeMessage` over stored analyses: the features, then the best match's response and score. */
  function Analyze(m: string, ctx: Context, ps: Patterns): (a: Analysis)
    ensures a.intent == DetectIntent(m) && a.sentiment == AnalyzeSentiment(m)
    ensures a.keywords == ExtractKeywords(m) && a.category == CategorizeMessage(m, ctx)
    ensures a.suggestedResponse.None? <==> BestMatch(ps, InitialAnalysis(m, ctx)).None?
    ensures a.suggestedResponse.None? ==> a.confidence == 0.0
    ensures a.suggestedResponse.Some? ==>
      && a.suggestedResponse.value == BestMatch(ps, InitialAnalysis(m, ctx)).value.pattern.response
      && a.confidence == BestMatch(ps, InitialAnalysis(m, ctx)).value.confidence > MatchThreshold
  {
    var a := InitialAnalysis(m, ctx);
    WithMatch(a, BestMatch(ps, a))
  }

  /** The `if (similarPattern)` step: a match sets the confidence and the suggested response. */
  function WithMatch(a: Analysis, similar: Option<Match>): Analysis {
    match similar
    case None => a
    case Some(best) => a.(confidence := best.confidence, suggestedResponse := Some(best.pattern.response))
  }

  /**
   * When the reply is learned: exactly when some stored pattern scores above
   * 0.7, its score clears the threshold and its response is not empty.
   */
  lemma LearnedReplyIffMatch(m: string, ctx: Context, ps: Patterns, threshold: real, aiReply: string, messageId: string)
    ensures var best := BestMatch(ps, InitialAnalysis(m, ctx));
      ChooseReply(Analyze(m, ctx, ps), threshold, aiReply, messageId).source == Learned
      <==> best.Some? && best.value.confidence > threshold && best.value.pattern.response != []
  {
  }

  /**
   * `getResponse` over the search as written: the analysis never carries a
   * suggestion, so the reply always comes from the AI, with confidence 0.5.
   */
  lemma AsWrittenRepliesFromAi(m: string, ctx: Context, threshold: real, aiReply: string, messageId: string)
    ensures ChooseReply(InitialAnalysis(m, ctx), threshold, aiReply, messageId) == Reply(aiReply, 0.5, Ai, Some(messageId))
  {
  }

  /** An analysis always scores 0 against a string key. */
  lemma ScoreAgainstStringKeyIsZero(a: Analysis, k: PatternKey)
    ensures Similarity(ProbeOf(a), StringKeyProbe(k)) == 0.0
  {
    assert ProbeOf(a).keywords * {} == {};
  }

  /**
   * A pattern learned from an analysis with keywords scores 1.0 against that
   * same analysis, well above the 0.7 threshold: comparing against stored
   * analyses finds it, comparing against string keys never does.
   */
  lemma StoredAnalysisScoresOne(a: Analysis, p: Pattern)
    requires p.analysis == a && a.keywords != []
    ensures Score(a, p) == 1.0 > MatchThreshold
  {
    assert a.keywords[0] in ProbeOf(a).keywords;
    SimilarityOfEqualIsOne(ProbeOf(a), ProbeOf(p.analysis));
  }

  // ---------------------------------------------------------------------
  // Pattern records written by feedback

  function GoodPattern(a: Analysis, response: string, now: Time): (p: Pattern)
    ensures p.confidence == 0.9 && !p.adminApproved && !p.avoidance
  {
    Pattern(a, response, 0.9, Some(1), Some(now), false, None, false)
  }

  function BadPattern(a: Analysis, response: string, suggestion: Option<string>): (p: Pattern)
    ensures p.confidence == 0.1 && !p.adminApproved && p.avoidance
  {
    Pattern(a, response, 0.1, None, None, true, suggestion, false)
  }

  function ImprovedPattern(a: Analysis, better: string, now: Time): (p: Pattern)
    ensures p.confidence == 1.0 && p.adminApproved && p.response == better
  {
    Pattern(a, better, 1.0, Some(0), Some(now), false, None, true)
  }

  /** The pattern map after feedback on the response recorded as `h`. */
  function FeedbackPatterns(es: Patterns, h: HistoryEntry, fb: Feedback, now: Time): Patterns {
    var key := JsonOf(h.analysis);
    var rated :=
      if fb.rating == "good" then Put(es, key, GoodPattern(h.analysis, h.response, now))
      else if fb.rating == "bad" then Put(es, key, BadPattern(h.analysis, h.response, fb.suggestion))
      else es;
    if Truthy(fb.betterResponse) then Put(rated, key, ImprovedPattern(h.analysis, fb.betterResponse.value, now))
    else rated
  }

  /**
   * Feedback writes only the key of the rated analysis: a better response
   * wins with confidence 1.0 and admin approval, otherwise 'good' stores 0.9,
   * 'bad' stores 0.1 with avoidance, and any other rating leaves it alone.
   */
  lemma {:induction false} FeedbackTouchesOnlyItsKey(es: Patterns, h: HistoryEntry, fb: Feedback, now: Time, k: PatternKey)
    requires DistinctKeys(es)
    ensures DistinctKeys(FeedbackPatterns(es, h, fb, now))
    ensures KeySet(FeedbackPatterns(es, h, fb, now)) <= KeySet(es) + {JsonOf(h.analysis)}
    ensures k != JsonOf(h.analysis) ==> Get(FeedbackPatterns(es, h, fb, now), k) == Get(es, k)
    ensures k == JsonOf(h.analysis) ==>
      Get(FeedbackPatterns(es, h, fb, now), k) == (
        if Truthy(fb.betterResponse) then Some(ImprovedPattern(h.analysis, fb.betterResponse.value, now))
        else if fb.rating == "good" then Some(GoodPattern(h.analysis, h.response, now))
        else if fb.rating == "bad" then Some(BadPattern(h.analysis, h.response, fb.suggestion))
        else Get(es, k))
  {
    var key := JsonOf(h.analysis);
    var rated :=
      if fb.rating == "good" then Put(es, key, GoodPattern(h.analysis, h.response, now))
      else if fb.rating == "bad" then Put(es, key, BadPattern(h.analysis, h.response, fb.suggestion))
      else es;
    if fb.rating == "good" {
      PutGet(es, key, GoodPattern(h.analysis, h.response, now), k);
      PutKeys(es, key, GoodPattern(h.analysis, h.response, now));
    } else if fb.rating == "bad" {
      PutGet(es, key, BadPattern(h.analysis, h.response, fb.suggestion), k);
      PutKeys(es, key, BadPattern(h.analysis, h.response, fb.suggestion));
    }
    if Truthy(fb.betterResponse) {
      PutGet(rated, key, ImprovedPattern(h.analysis, fb.betterResponse.value, now), k);
      PutKeys(rated, key, ImprovedPattern(h.analysis, fb.betterResponse.value, now));
    }
  }

  /** The counters after feedback: one learning event, and one success or failure. */
  function FeedbackStats(s: Stats, fb: Feedback): (r: Stats)
    ensures r.learningEvents == s.learningEvents + 1
    ensures r.successfulResponses == s.successfulResponses + (if fb.rating == "good" then 1 else 0)
    ensures r.failedResponses == s.failedResponses + (if fb.rating == "bad" then 1 else 0)
    ensures r.messagesProcessed == s.messagesProcessed && r.averageConfidence == s.averageConfidence
  {
    var s1 :=
      if fb.rating == "good" then s.(successfulResponses := s.successfulResponses + 1)
      else if fb.rating == "bad" then s.(failedResponses := s.failedResponses + 1)
      else s;
    s1.(learningEvents := s1.learningEvents + 1)
  }

  // ---------------------------------------------------------------------
  // Personality traits

  /** Each trait already present moves a tenth of the way to the given value. */
  function Blend(traits: map<string, real>, given: map<string, real>): map<string, real> {
    map t | t in traits :: if t in given then traits[t] * 0.9 + given[t] * 0.1 else traits[t]
  }

  predicate InUnit(m: map<string, real>) {
    forall t :: t in m ==> 0.0 <= m[t] <= 1.0
  }

  /** Blending keeps the trait names and keeps traits in [0, 1]. */
  lemma BlendKeepsUnitRange(traits: map<string, real>, given: map<string, real>)
    requires InUnit(traits) && InUnit(given)
    ensures Blend(traits, given).Keys == traits.Keys
    ensures InUnit(Blend(traits, given))
  {
    forall t | t in traits && t in given
      ensures 0.0 <= traits[t] * 0.9 + given[t] * 0.1 <= 1.0
    {
      assert traits[t] * 0.9 <= 0.9 && given[t] * 0.1 <= 0.1;
    }
  }

  /** `describePersonality`: one phrase per trait above its bar, in a fixed order. */
  datatype TraitRule = TraitRule(name: string, bar: real, phrase: string)

  const TraitRules: seq<TraitRule> := [
    TraitRule("professional", 0.6, "professional and business-focused"),
    TraitRule("friendly", 0.6, "warm and friendly"),
    TraitRule("humorous", 0.5, "occasionally humorous"),
    TraitRule("formal", 0.6, "formal in communication"),
    TraitRule("empathetic", 0.6, "empathetic and understanding")
  ]

  const BalancedDescription: string := "balanced and adaptive"

  /** A missing trait is `undefined`, and `undefined > bar` is false. */
  predicate Above(traits: map<string, real>, rule: TraitRule) {
    rule.name in traits && traits[rule.name] > rule.bar
  }

  /** The positions of the rules whose trait is above its bar. */
  function AboveRules(traits: map<string, real>, rules: seq<TraitRule>): set<nat> {
    set i: nat | i < |rules| && Above(traits, rules[i])
  }

  /**
   * The phrases of the rules above their bars, in rule order: a phrase is
   * there exactly when some rule above its bar gives it, and there is one
   * phrase per such rule.
   */
  function Phrases(traits: map<string, real>, rules: seq<TraitRule>): (r: seq<string>)
    ensures IsSubsequence(r, seq(|rules|, i requires 0 <= i < |rules| => rules[i].phrase))
    ensures forall p :: p in r <==> exists i :: 0 <= i < |rules| && Above(traits, rules[i]) && rules[i].phrase == p
    ensures |r| == |AboveRules(traits, rules)|
    ensures r == [] <==> forall i :: 0 <= i < |rules| ==> !Above(traits, rules[i])
    ensures r != [] ==> exists i :: 0 <= i < |rules| && Above(traits, rules[i]) && r[0] == rules[i].phrase
  {
    if rules == [] then
      assert AboveRules(traits, rules) == {};
      []
    else
      var rest := Phrases(traits, rules[1..]);
      var all := seq(|rules|, i requires 0 <= i < |rules| => rules[i].phrase);
      assert all[1..] == seq(|rules| - 1, i requires 0 <= i < |rules| - 1 => rules[1..][i].phrase);
      AboveRulesShift(traits, rules);
      PhrasesShift(traits, rules, rest);
      if Above(traits, rules[0]) then [rules[0].phrase] + rest
      else rest
  }

  /** The phrases of the rules after the first, seen from the whole list. */
  lemma PhrasesShift(traits: map<string, real>, rules: seq<TraitRule>, rest: seq<string>)
    requires rules != []
    requires forall p :: p in rest <==>
      exists i :: 0 <= i < |rules| - 1 && Above(traits, rules[1..][i]) && rules[1..][i].phrase == p
    ensures forall p :: p in rest <==> exists i :: 1 <= i < |rules| && Above(traits, rules[i]) && rules[i].phrase == p
  {
    forall p | p in rest
      ensures exists i :: 1 <= i < |rules| && Above(traits, rules[i]) && rules[i].phrase == p
    {
      var j :| 0 <= j < |rules| - 1 && Above(traits, rules[1..][j]) && rules[1..][j].phrase == p;
      assert rules[j + 1] == rules[1..][j];
    }
    forall i | 1 <= i < |rules| && Above(traits, rules[i])
      ensures rules[i].phrase in rest
    {
      assert rules[1..][i - 1] == rules[i];
    }
  }

  /** Dropping the first rule shifts every other position down by one. */
  lemma AboveRulesShift(traits: map<string, real>, rules: seq<TraitRule>)
    requires rules != []
    ensures |AboveRules(traits, rules)|
      == |AboveRules(traits, rules[1..])| + (if Above(traits, rules[0]) then 1 else 0)
  {
    var s := AboveRules(traits, rules);
    var t := AboveRules(traits, rules[1..]);
    AboveRulesTail(traits, rules);
    ShiftedSize(t);
    if Above(traits, rules[0]) {
      assert 0 in s;
      assert s == (s - {0}) + {0};
    } else {
      assert 0 !in s;
      assert s - {0} == s;
    }
  }

  lemma AboveRulesTail(traits: map<string, real>, rules: seq<TraitRule>)
    requires rules != []
    ensures AboveRules(traits, rules) - {0} == Shifted(AboveRules(traits, rules[1..]))
    ensures 0 !in Shifted(AboveRules(traits, rules[1..]))
  {
    var s := AboveRules(traits, rules);
    var t := AboveRules(traits, rules[1..]);
    forall i | i in s - {0} ensures i in Shifted(t) {
      assert rules[1..][i - 1] == rules[i];
      assert i - 1 in t;
    }
    forall i | i in Shifted(t) ensures i in s - {0} {
      var j :| j in t && i == j + 1;
      assert rules[1..][j] == rules[i];
    }
  }

  /** Every position one higher. */
  function Shifted(t: set<nat>): set<nat> {
    set i | i in t :: i + 1
  }

  lemma {:induction false} ShiftedSize(t: set<nat>)
    ensures |Shifted(t)| == |t|
    decreases |t|
  {
    if t != {} {
      var x :| x in t;
      var rest := t - {x};
      ShiftedSize(rest);
      assert Shifted(t) == Shifted(rest) + {x + 1} by {
        forall y | y in Shifted(t) ensures y in Shifted(rest) + {x + 1} {
          var i :| i in t && y == i + 1;
          if i != x {
            assert i in rest;
          }
        }
      }
      assert x + 1 !in Shifted(rest);
      assert t == rest + {x};
    } else {
      assert Shifted(t) == {};
    }
  }

  /**
   * For the five rules of `describePersonality`, whose phrases differ: a
   * phrase is listed exactly when its own trait is above its bar.
   */
  lemma PhrasesOfTraitRules(traits: map<string, real>)
    ensures forall i :: 0 <= i < |TraitRules| ==>
      (TraitRules[i].phrase in Phrases(traits, TraitRules) <==> Above(traits, TraitRules[i]))
    ensures |Phrases(traits, TraitRules)| == |AboveRules(traits, TraitRules)|
  {
    TraitPhrasesDistinct();
    forall i | 0 <= i < |TraitRules|
      ensures TraitRules[i].phrase in Phrases(traits, TraitRules) <==> Above(traits, TraitRules[i])
    {
      PhraseListedIffAbove(traits, TraitRules, i);
    }
  }

  /** The five phrases differ, already in length. */
  lemma TraitPhrasesDistinct()
    ensures forall i, j :: 0 <= i < |TraitRules| && 0 <= j < |TraitRules| && TraitRules[i].phrase == TraitRules[j].phrase ==> i == j
  {
    assert |TraitRules[0].phrase| == 33 && |TraitRules[1].phrase| == 17 && |TraitRules[2].phrase| == 21;
    assert |TraitRules[3].phrase| == 23 && |TraitRules[4].phrase| == 28;
  }

  /** A phrase no other rule shares is listed exactly when its rule is above its bar. */
  lemma PhraseListedIffAbove(traits: map<string, real>, rules: seq<TraitRule>, i: int)
    requires 0 <= i < |rules|
    requires forall j :: 0 <= j < |rules| && rules[j].phrase == rules[i].phrase ==> j == i
    ensures rules[i].phrase in Phrases(traits, rules) <==> Above(traits, rules[i])
  {
    if rules[i].phrase in Phrases(traits, rules) {
      var j :| 0 <= j < |rules| && Above(traits, rules[j]) && rules[j].phrase == rules[i].phrase;
    }
  }

  lemma {:induction false} JoinStartsWithFirst(parts: seq<string>, sep: string)
    requires parts != [] && parts[0] != []
    ensures Join(parts, sep) != [] && Join(parts, sep)[0] == parts[0][0]
  {
  }

  /** `descriptions.join(', ') || 'balanced and adaptive'`. */
  function DescribePersonality(traits: map<string, real>): (r: string)
    ensures r == BalancedDescription <==> forall i :: 0 <= i < |TraitRules| ==> !Above(traits, TraitRules[i])
    ensures r != BalancedDescription ==> r == Join(Phrases(traits, TraitRules), ", ")
  {
    var ps := Phrases(traits, TraitRules);
    if ps == [] then BalancedDescription
    else
      JoinStartsWithFirst(ps, ", ");
      Join(ps, ", ")
  }

  // ---------------------------------------------------------------------
  // Pruning and the average confidence of the learning cycle

  /** Deleted by the learning cycle: low confidence and not approved by the admin. */
  predicate Removable(p: Pattern) {
    p.confidence < 0.3 && !p.adminApproved
  }

  function Pruned(es: Patterns): (r: Patterns) {
    if es == [] then []
    else if Removable(es[0].value) then Pruned(es[1..])
    else [es[0]] + Pruned(es[1..])
  }

  /**
   * Pruning deletes exactly the removable patterns and leaves every other
   * entry in its place, with its value, in its order.
   */
  lemma {:induction false} PrunedExactly(es: Patterns, k: PatternKey)
    requires DistinctKeys(es)
    ensures Get(Pruned(es), k) ==
      if Get(es, k).Some? && Removable(Get(es, k).value) then None else Get(es, k)
    ensures IsSubsequence(Pruned(es), es)
    ensures forall i :: 0 <= i < |Pruned(es)| ==> !Removable(Pruned(es)[i].value)
    ensures KeySet(Pruned(es)) <= KeySet(es)
  {
    if es != [] {
      PrunedExactly(es[1..], k);
      KeySetCons(es[0], es[1..]);
      assert [es[0]] + es[1..] == es;
      if !Removable(es[0].value) {
        var r := [es[0]] + Pruned(es[1..]);
        KeySetCons(es[0], Pruned(es[1..]));
        assert r[1..] == Pruned(es[1..]);
        if es[0].key != k {
          assert Get(r, k) == Get(Pruned(es[1..]), k);
        }
      } else if es[0].key == k {
        assert k !in KeySet(es[1..]);
      }
    }
  }

  lemma {:induction false} PrunedDistinct(es: Patterns)
    requires DistinctKeys(es)
    ensures DistinctKeys(Pruned(es)) && KeySet(Pruned(es)) <= KeySet(es)
  {
    if es != [] {
      PrunedDistinct(es[1..]);
      KeySetCons(es[0], es[1..]);
      assert [es[0]] + es[1..] == es;
      if !Removable(es[0].value) {
        KeySetCons(es[0], Pruned(es[1..]));
        assert es[0].key !in KeySet(es[1..]);
        DistinctCons(es[0], Pruned(es[1..]));
      }
    }
  }

  lemma {:induction false} PrunedSnoc(es: Patterns, e: Entry<PatternKey, Pattern>)
    ensures Pruned(es + [e]) == Pruned(es) + (if Removable(e.value) then [] else [e])
  {
    if es == [] {
      assert es + [e] == [e];
    } else {
      assert (es + [e])[1..] == es[1..] + [e];
      PrunedSnoc(es[1..], e);
    }
  }

  /** One step of the in-place deletion loop of the learning cycle. */
  lemma PruneStep(before: Patterns, j: nat, ps: Patterns, i: nat)
    requires j < |before| && i < |ps|
    requires ps == Pruned(before[..j]) + before[j..] && i == |Pruned(before[..j])|
    ensures ps[i] == before[j]
    ensures Removable(ps[i].value) ==>
      ps[..i] + ps[i + 1..] == Pruned(before[..j + 1]) + before[j + 1..] && i == |Pruned(before[..j + 1])|
    ensures !Removable(ps[i].value) ==>
      ps == Pruned(before[..j + 1]) + before[j + 1..] && i + 1 == |Pruned(before[..j + 1])|
  {
    assert before[..j + 1] == before[..j] + [before[j]];
    PrunedSnoc(before[..j], before[j]);
    assert ps[..i] == Pruned(before[..j]);
    assert ps[i..] == before[j..];
    assert ps[i + 1..] == before[j + 1..];
  }

  /** The match reported for the index the search picked, if any. */
  function MatchOf(ps: Patterns, scores: seq<real>, best: Option<nat>): (r: Option<Match>)
    requires |scores| == |ps| && (best.Some? ==> best.value < |ps|)
    ensures r.None? <==> best.None?
    ensures r.Some? ==> r.value == Match(ps[best.value].value, scores[best.value])
  {
    if best.Some? then Some(Match(ps[best.value].value, scores[best.value])) else None
  }

  function SumConfidence(hs: seq<HistoryEntry>): real {
    if hs == [] then 0.0 else SumConfidence(hs[..|hs| - 1]) + hs[|hs| - 1].confidence
  }

  predicate ConfidencesInUnit(hs: seq<HistoryEntry>) {
    forall i :: 0 <= i < |hs| ==> 0.0 <= hs[i].confidence <= 1.0
  }

  lemma {:induction false} SumConfidenceBounds(hs: seq<HistoryEntry>)
    requires ConfidencesInUnit(hs)
    ensures 0.0 <= SumConfidence(hs) <= |hs| as real
  {
    if hs != [] {
      SumConfidenceBounds(hs[..|hs| - 1]);
    }
  }

  /** The average the learning cycle stores stays in [0, 1] when every confidence does. */
  lemma AverageInUnit(hs: seq<HistoryEntry>)
    requires ConfidencesInUnit(hs) && hs != []
    ensures 0.0 <= SumConfidence(LastN(hs, 100)) / (|LastN(hs, 100)| as real) <= 1.0
  {
    var last := LastN(hs, 100);
    SumConfidenceBounds(last);
    RatioInUnit(SumConfidence(last), |last| as real);
  }

  // ---------------------------------------------------------------------
  // The reply decision of getResponse

  /**
   * `getResponse`: reuse the suggested response when the analysis is more
   * confident than the threshold, else the AI reply recorded under
   * `messageId`, reported with confidence 0.5 when the analysis had none.
   */
  function ChooseReply(a: Analysis, threshold: real, aiReply: string, messageId: string): (r: Reply)
    ensures r.source == Learned <==> a.confidence > threshold && Truthy(a.suggestedResponse)
    ensures r.source == Learned ==>
      r.response == a.suggestedResponse.value && r.confidence == a.confidence > threshold && r.messageId.None?
    ensures r.source == Ai ==>
      && r.response == aiReply && r.messageId == Some(messageId)
      && r.confidence == (if a.confidence == 0.0 then 0.5 else a.confidence)
  {
    if a.confidence > threshold && Truthy(a.suggestedResponse) then
      Reply(a.suggestedResponse.value, a.confidence, Learned, None)
    else
      Reply(aiReply, if a.confidence == 0.0 then 0.5 else a.confidence, Ai, Some(messageId))
  }

  // ---------------------------------------------------------------------
  // The store

  class LearningSystem {
    var patterns: Patterns
    var responseHistory: seq<Entry<string, HistoryEntry>>
    var pendingFeedback: seq<Entry<string, PendingEntry>>
    var personalityEvolution: seq<Snapshot>
    /** `config.personality.traits`. */
    var traits: map<string, real>
    /** `config.stats`. */
    var stats: Stats

    ghost predicate Valid()
      reads this
    {
      DistinctKeys(patterns) && DistinctKeys(responseHistory) && DistinctKeys(pendingFeedback)
    }

    constructor (traits0: map<string, real>, stats0: Stats)
      ensures Valid()
      ensures patterns == [] && responseHistory == [] && pendingFeedback == []
      ensures personalityEvolution == [] && traits == traits0 && stats == stats0
    {
      patterns, responseHistory, pendingFeedback := [], [], [];
      personalityEvolution := [];
      traits, stats := traits0, stats0;
    }

    /**
     * `findSimilarPattern` as written: it scores the analysis against the
     * map key, a JSON string, so every score is 0 and it never finds a match.
     */
    method FindSimilarPattern(a: Analysis) returns (r: Option<Match>)
      ensures r == None
    {
      var ps := patterns;
      var scores := seq(|ps|, i requires 0 <= i < |ps| => Similarity(ProbeOf(a), StringKeyProbe(ps[i].key)));
      forall i | 0 <= i < |ps| ensures scores[i] == 0.0 {
        ScoreAgainstStringKeyIsZero(a, ps[i].key);
      }
      var best := ArgMaxAbove(scores);
      r := MatchOf(ps, scores, best);
    }

    /**
     * `findSimilarPattern` comparing against each pattern's stored analysis:
     * nothing unless some pattern scores above 0.7, else the first pattern
     * with the highest score, reported with that score as its confidence.
     */
    method FindSimilarPatternByAnalysis(a: Analysis) returns (r: Option<Match>)
      ensures r == BestMatch(patterns, a)
    {
      var ps := patterns;
      var scores := seq(|ps|, i requires 0 <= i < |ps| => Score(a, ps[i].value));
      assert scores == Scores(ps, a);
      var best := ArgMaxAbove(scores);
      r := MatchOf(ps, scores, best);
    }

    /**
     * `analyzeMessage` as written: the search it calls never matches, so
     * the analysis keeps confidence 0 and has no suggested response.
     */
    method AnalyzeMessageAsWritten(m: string, ctx: Context) returns (a: Analysis)
      ensures a == InitialAnalysis(m, ctx)
      ensures a.confidence == 0.0 && a.suggestedResponse.None?
    {
      a := InitialAnalysis(m, ctx);
      var similar := FindSimilarPattern(a);
      a := WithMatch(a, similar);
    }

    /**
     * `analyzeMessage` with the corrected search: the four features, then
     * the confidence and suggested response of the best stored pattern, if
     * any scores above 0.7.
     */
    method AnalyzeMessage(m: string, ctx: Context) returns (a: Analysis)
      ensures a == Analyze(m, ctx, patterns)
    {
      a := InitialAnalysis(m, ctx);
      var similar := FindSimilarPatternByAnalysis(a);
      a := WithMatch(a, similar);
    }

    /**
     * `getResponse`: a learned reply when the analysis clears the threshold;
     * otherwise the AI reply, recorded in the history under `messageId` and,
     * when approval is required and the sender is the admin, queued for feedback.
     */
    method GetResponse(m: string, ctx: Context, senderIsAdmin: bool, cfg: LearningConfig,
                       aiReply: string, messageId: string, now: Time)
      returns (reply: Reply, a: Analysis)
      requires Valid()
      modifies this`responseHistory, this`pendingFeedback
      ensures Valid()
      ensures a == Analyze(m, ctx, patterns)
      ensures reply == ChooseReply(a, cfg.improvementThreshold, aiReply, messageId)
      ensures reply.source == Learned ==>
        responseHistory == old(responseHistory) && pendingFeedback == old(pendingFeedback)
      ensures reply.source == Ai ==>
        responseHistory == Put(old(responseHistory), messageId,
          HistoryEntry(m, aiReply, a, ctx, now, reply.confidence))
      ensures reply.source == Ai ==>
        pendingFeedback == (
          if cfg.requireApproval && senderIsAdmin
          then Put(old(pendingFeedback), messageId, PendingEntry(m, aiReply, a))
          else old(pendingFeedback))
    {
      a := AnalyzeMessage(m, ctx);
      reply := ChooseReply(a, cfg.improvementThreshold, aiReply, messageId);
      if reply.source == Ai {
        PutKeys(responseHistory, messageId, HistoryEntry(m, aiReply, a, ctx, now, reply.confidence));
        responseHistory := Put(responseHistory, messageId, HistoryEntry(m, aiReply, a, ctx, now, reply.confidence));
        if cfg.requireApproval && senderIsAdmin {
          PutKeys(pendingFeedback, messageId, PendingEntry(m, aiReply, a));
          pendingFeedback := Put(pendingFeedback, messageId, PendingEntry(m, aiReply, a));
        }
      }
    }

    /**
     * `updatePersonalityTraits`: nothing for a missing argument; otherwise
     * each known trait is blended with the given value, unknown names are
     * ignored, and one snapshot of the traits is recorded.
     */
    method UpdatePersonalityTraits(given: Option<map<string, real>>, now: Time)
      modifies this`traits, this`personalityEvolution
      ensures given.None? ==> traits == old(traits) && personalityEvolution == old(personalityEvolution)
      ensures given.Some? ==> traits == Blend(old(traits), given.value)
      ensures given.Some? ==> personalityEvolution == old(personalityEvolution) + [Snapshot(now, traits)]
    {
      if given.None? {
        return;
      }
      var g := given.value;
      var todo := g.Keys;
      while todo != {}
        invariant todo <= g.Keys
        invariant personalityEvolution == old(personalityEvolution)
        invariant traits == map t | t in old(traits) ::
          if t in g && t !in todo then old(traits)[t] * 0.9 + g[t] * 0.1 else old(traits)[t]
        decreases todo
      {
        var t :| t in todo;
        if t in traits {
          traits := traits[t := traits[t] * 0.9 + g[t] * 0.1];
        }
        todo := todo - {t};
      }
      personalityEvolution := personalityEvolution + [Snapshot(now, traits)];
    }

    /**
     * `learnFromFeedback`: an unknown message id changes nothing; otherwise
     * the rated analysis's pattern is rewritten, a 'good' rating blends the
     * traits, and the counters move.
     */
    method LearnFromFeedback(messageId: string, fb: Feedback, now: Time) returns (r: Option<LearnOutcome>)
      requires Valid()
      modifies this`patterns, this`traits, this`personalityEvolution, this`stats
      ensures Valid()
      ensures Get(responseHistory, messageId).None? ==>
        r.None? && patterns == old(patterns) && traits == old(traits)
        && personalityEvolution == old(personalityEvolution) && stats == old(stats)
      ensures Get(responseHistory, messageId).Some? ==>
        var h := Get(responseHistory, messageId).value;
        && patterns == FeedbackPatterns(old(patterns), h, fb, now)
        && stats == FeedbackStats(old(stats), fb)
        && (fb.rating == "good" ==> traits == (if fb.traits.Some? then Blend(old(traits), fb.traits.value) else old(traits)))
        && (fb.rating == "good" ==>
              personalityEvolution == old(personalityEvolution) + (if fb.traits.Some? then [Snapshot(now, traits)] else []))
        && (fb.rating != "good" ==> traits == old(traits) && personalityEvolution == old(personalityEvolution))
        && r == Some(LearnOutcome(
             if fb.rating == "good" then "positive" else "negative",
             if Truthy(fb.betterResponse) then "added" else "updated"))
    {
      var found := Get(responseHistory, messageId);
      if found.None? {
        return None;
      }
      var h := found.value;
      var key := JsonOf(h.analysis);
      if fb.rating == "good" {
        PutKeys(patterns, key, GoodPattern(h.analysis, h.response, now));
        patterns := Put(patterns, key, GoodPattern(h.analysis, h.response, now));
        UpdatePersonalityTraits(fb.traits, now);
        stats := stats.(successfulResponses := stats.successfulResponses + 1);
      } else if fb.rating == "bad" {
        PutKeys(patterns, key, BadPattern(h.analysis, h.response, fb.suggestion));
        patterns := Put(patterns, key, BadPattern(h.analysis, h.response, fb.suggestion));
        stats := stats.(failedResponses := stats.failedResponses + 1);
      }
      if Truthy(fb.betterResponse) {
        PutKeys(patterns, key, ImprovedPattern(h.analysis, fb.betterResponse.value, now));
        patterns := Put(patterns, key, ImprovedPattern(h.analysis, fb.betterResponse.value, now));
      }
      stats := stats.(learningEvents := stats.learningEvents + 1);
      r := Some(LearnOutcome(
        if fb.rating == "good" then "positive" else "negative",
        if Truthy(fb.betterResponse) then "added" else "updated"));
    }

    /**
     * One run of the learning cycle: delete the removable patterns while
     * iterating the map, then average the confidence of the last 100
     * recorded responses, if there are any.
     */
    method LearningCycle()
      requires Valid()
      modifies this`patterns, this`stats
      ensures Valid()
      ensures patterns == Pruned(old(patterns))
      ensures responseHistory == [] ==> stats == old(stats)
      ensures responseHistory != [] ==>
        var last := LastN(Values(responseHistory), 100);
        stats == old(stats).(averageConfidence := SumConfidence(last) / (|last| as real))
    {
      ghost var before := patterns;
      ghost var j := 0;
      var ps := patterns;
      var i := 0;
      while i < |ps|
        invariant 0 <= j <= |before|
        invariant 0 <= i <= |ps|
        invariant ps == Pruned(before[..j]) + before[j..]
        invariant i == |Pruned(before[..j])|
        invariant patterns == before && stats == old(stats)
        decreases |ps| - i
      {
        PruneStep(before, j, ps, i);
        if Removable(ps[i].value) {
          ps := ps[..i] + ps[i + 1..];
        } else {
          i := i + 1;
        }
        j := j + 1;
      }
      assert before[..j] == before;
      PrunedDistinct(before);
      patterns := ps;
      if responseHistory != [] {
        var last := LastN(Values(responseHistory), 100);
        stats := stats.(averageConfidence := SumConfidence(last) / (|last| as real));
      }
    }
  }
}
