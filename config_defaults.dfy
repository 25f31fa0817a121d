/**
 * The pieces both configuration normalisers share: the default automation
 * and stats sections, the percentage-to-fraction trait loop and the
 * `{name: 'You', style: 'adaptive', traits}` personality record.
 */
module ConfigDefaults {
  import opened JsValues

  const AutomationDefaults: JsValue := JObj(map[
    "enabled" := JBool(true),
    "responseMode" := JStr("adaptive"),
    "autoReply" := JBool(true),
    "typingDelay" := JBool(true),
    "readReceipts" := JBool(true),
    "activeHours" := JObj(map["start" := JNum(9.0), "end" := JNum(23.0)])
  ])

  const StatsCounters: set<string> :=
    {"messagesProcessed", "successfulResponses", "failedResponses", "learningEvents", "averageConfidence"}

  const StatsDefaults: JsValue := JObj(map[
    "messagesProcessed" := JNum(0.0),
    "successfulResponses" := JNum(0.0),
    "failedResponses" := JNum(0.0),
    "learningEvents" := JNum(0.0),
    "averageConfidence" := JNum(0.0)
  ])

  /** Every stats counter starts at zero, and there are no other fields. */
  lemma StatsDefaultsAreZero()
    ensures StatsDefaults.JObj? && StatsDefaults.fields.Keys == StatsCounters
    ensures forall k :: k in StatsDefaults.fields ==> StatsDefaults.fields[k] == JNum(0.0)
  {
  }

  /** `Object.entries(v)` as a key-to-value map, for a value that is not null or undefined. */
  function OwnEntries(v: JsValue): (r: map<string, JsValue>)
    requires !v.JNull?
    ensures v.JObj? ==> r == v.fields
    ensures !v.JObj? ==> r == map[]
  {
    if v.JObj? then v.fields else map[]
  }

  /** The traits the loop builds: every entry divided by 100, same keys. */
  function Rescaled(entries: map<string, JsValue>): (r: map<string, JsValue>)
    ensures r.Keys == entries.Keys
  {
    map k | k in entries :: Percent(entries[k])
  }

  /** Each trait is its entry divided by 100. */
  lemma RescaledValues(entries: map<string, JsValue>)
    ensures forall k :: k in Rescaled(entries) ==> Rescaled(entries)[k] == Percent(entries[k])
  {
  }

  /** Percentages between 0 and 100 (what the wizard's sliders give) become fractions between 0 and 1. */
  lemma RescaledPercentagesInUnit(entries: map<string, JsValue>)
    requires forall k :: k in entries ==> entries[k].JNum? && 0.0 <= entries[k].n <= 100.0
    ensures forall k :: k in Rescaled(entries) ==>
      Rescaled(entries)[k].JNum? && 0.0 <= Rescaled(entries)[k].n <= 1.0
  {
    forall k | k in Rescaled(entries)
      ensures Rescaled(entries)[k].JNum? && 0.0 <= Rescaled(entries)[k].n <= 1.0
    {
      PercentOfPercentageInUnit(entries[k]);
    }
  }

  /** `for (const [key, value] of Object.entries(p)) traits[key] = value / 100`. */
  method RescaleTraits(entries: map<string, JsValue>) returns (traits: map<string, JsValue>)
    ensures traits == Rescaled(entries)
  {
    traits := map[];
    var todo := entries.Keys;
    while todo != {}
      invariant todo <= entries.Keys
      invariant traits == map k | k in entries && k !in todo :: Percent(entries[k])
      decreases todo
    {
      var k :| k in todo;
      traits := traits[k := Percent(entries[k])];
      todo := todo - {k};
    }
  }

  /** The personality record both normalisers write. */
  function AdaptivePersonality(traits: map<string, JsValue>): JsValue {
    JObj(map["name" := JStr("You"), "style" := JStr("adaptive"), "traits" := JObj(traits)])
  }
}
