/**
 * `loadAndFixConfig` of the terminal launcher: the first candidate file
 * that reads and parses is the configuration; a configuration must have a
 * telegram section; missing defaults are filled in and a personality still
 * stored as percentages is turned into fractions.
 */
module AutoFix {
  import opened Common
  import opened JsValues
  import opened ConfigDefaults

  datatype LoadError =
    | PathArgumentUndefined  // `path.join` given `process.env.APPDATA` where it is not set
    | NoConfigFound
    | MissingTelegram

  function ErrorMessage(e: LoadError): string {
    match e
    case PathArgumentUndefined => "The \"path\" argument must be of type string. Received undefined"
    case NoConfigFound => "No configuration file found. Please run the GUI setup first."
    case MissingTelegram => "Invalid configuration: missing telegram section"
  }

  /** The configuration in use and the position of the candidate path it came from. */
  datatype Loaded = Loaded(config: JsValue, pathIndex: nat)

  /**
   * The first candidate whose file read and parsed. `parsed[i]` is the
   * parsed content of the i-th candidate path, `None` when reading or
   * parsing it failed.
   */
  function FirstParsed(parsed: seq<Option<JsValue>>): (r: Option<nat>)
    ensures r.None? <==> forall j :: 0 <= j < |parsed| ==> parsed[j].None?
    ensures r.Some? ==>
      r.value < |parsed| && parsed[r.value].Some? && forall j :: 0 <= j < r.value ==> parsed[j].None?
  {
    if parsed == [] then None
    else if parsed[0].Some? then Some(0)
    else
      match FirstParsed(parsed[1..])
      case None => None
      case Some(i) => Some(i + 1)
  }

  // ---------------------------------------------------------------------
  // Normalisation

  /** `telegram.sessionString = telegram.sessionString || ''`; assigning to a primitive does nothing. */
  function WithSession(telegram: JsValue): (r: JsValue)
    ensures IsTruthy(telegram) ==> IsTruthy(r)
    ensures !telegram.JObj? ==> r == telegram
    ensures telegram.JObj? ==> r.JObj? && r.fields.Keys == telegram.fields.Keys + {"sessionString"}
    ensures telegram.JObj? && Filled(telegram.fields, "sessionString") ==> r == telegram
    ensures telegram.JObj? && !Filled(telegram.fields, "sessionString") ==>
      r.fields["sessionString"] == JStr("")
    ensures telegram.JObj? ==> forall k :: k in telegram.fields && k != "sessionString" ==>
      r.fields[k] == telegram.fields[k]
  {
    if telegram.JObj? then
      var t := telegram.fields;
      var session := if Filled(t, "sessionString") then t["sessionString"] else JStr("");
      JObj(t["sessionString" := session])
    else telegram
  }

  /** `config.personality.professional` is a number greater than 1. */
  predicate StoredAsPercentages(fields: map<string, JsValue>) {
    Present(Lookup(fields, "personality"))
    && var p := Prop(fields["personality"], "professional");
    p.Some? && p.value.JNum? && p.value.n > 1.0
  }

  /** The configuration object after the normalisation block. */
  function Fixed(fields: map<string, JsValue>): (r: map<string, JsValue>)
    requires Present(Lookup(fields, "telegram"))
    ensures r.Keys == fields.Keys + {"automation", "stats"}
    ensures r["telegram"] == WithSession(fields["telegram"])
    ensures Present(Lookup(fields, "automation")) ==> r["automation"] == fields["automation"]
    ensures !Present(Lookup(fields, "automation")) ==> r["automation"] == AutomationDefaults
    ensures Present(Lookup(fields, "stats")) ==> r["stats"] == fields["stats"]
    ensures !Present(Lookup(fields, "stats")) ==> r["stats"] == StatsDefaults
    ensures StoredAsPercentages(fields) ==>
      r["personality"] == AdaptivePersonality(Rescaled(fields["personality"].fields))
    ensures !StoredAsPercentages(fields) && "personality" in fields ==> r["personality"] == fields["personality"]
    ensures forall k :: k in fields && k !in {"telegram", "automation", "stats", "personality"} ==> r[k] == fields[k]
  {
    SectionNamesDiffer();
    var f1 := fields["telegram" := WithSession(fields["telegram"])];
    var f2 := if Present(Lookup(f1, "automation")) then f1 else f1["automation" := AutomationDefaults];
    var f3 := if Present(Lookup(f2, "stats")) then f2 else f2["stats" := StatsDefaults];
    // The three writes above leave `personality` alone.
    if StoredAsPercentages(fields) then
      f3["personality" := AdaptivePersonality(Rescaled(fields["personality"].fields))]
    else f3
  }

  lemma SectionNamesDiffer()
    ensures "telegram" != "automation" && "telegram" != "stats" && "telegram" != "personality"
    ensures "automation" != "stats" && "automation" != "personality" && "stats" != "personality"
  {
    assert |"telegram"| == 8 && |"automation"| == 10 && |"stats"| == 5 && |"personality"| == 11;
  }

  /** The whole of `loadAndFixConfig`, as a result or the error it throws. */
  function Load(appData: Option<string>, parsed: seq<Option<JsValue>>): (r: Result<Loaded, LoadError>)
    ensures appData.None? ==> r == Err(PathArgumentUndefined)
    ensures appData.Some? && FirstParsed(parsed).None? ==> r == Err(NoConfigFound)
    ensures appData.Some? && FirstParsed(parsed).Some? ==>
      var c := parsed[FirstParsed(parsed).value].value;
      && (!IsTruthy(c) ==> r == Err(NoConfigFound))
      && (IsTruthy(c) && !Present(Prop(c, "telegram")) ==> r == Err(MissingTelegram))
      && (IsTruthy(c) && Present(Prop(c, "telegram")) ==> r.Ok?)
    ensures r.Ok? ==>
      && r.value.pathIndex == FirstParsed(parsed).value
      && var c := parsed[r.value.pathIndex].value;
      && c.JObj? && Present(Lookup(c.fields, "telegram"))
      && r.value.config == JObj(Fixed(c.fields))
  {
    if appData.None? then Err(PathArgumentUndefined)
    else match FirstParsed(parsed)
      case None => Err(NoConfigFound)
      case Some(i) =>
        var config := parsed[i].value;
        if !IsTruthy(config) then Err(NoConfigFound)
        else if !Present(Prop(config, "telegram")) then Err(MissingTelegram)
        else Ok(Loaded(JObj(Fixed(config.fields)), i))
  }

  /** A second pass over a normalised configuration changes nothing. */
  lemma FixedIsIdempotent(fields: map<string, JsValue>)
    requires Present(Lookup(fields, "telegram"))
    ensures Present(Lookup(Fixed(fields), "telegram"))
    ensures Fixed(Fixed(fields)) == Fixed(fields)
  {
    var once := Fixed(fields);
    var t := fields["telegram"];
    assert WithSession(WithSession(t)) == WithSession(t) by {
      if t.JObj? && !Filled(t.fields, "sessionString") {
        assert WithSession(t).fields["sessionString"] == JStr("");
        assert WithSession(t).fields["sessionString" := JStr("")] == WithSession(t).fields;
      }
    }
    assert !StoredAsPercentages(once) by {
      if StoredAsPercentages(fields) {
        assert "professional" !in once["personality"].fields;
      }
    }
    var twice := Fixed(once);
    assert twice.Keys == once.Keys;
    forall k | k in once
      ensures twice[k] == once[k]
    {
    }
  }

  // ---------------------------------------------------------------------
  // The function itself

  method LoadAndFixConfig(appData: Option<string>, parsed: seq<Option<JsValue>>)
    returns (r: Result<Loaded, LoadError>)
    ensures r == Load(appData, parsed)
  {
    if appData.None? {
      return Err(PathArgumentUndefined);
    }
    var config: JsValue := JNull;
    var configPath: Option<nat> := None;
    var i := 0;
    while i < |parsed|
      invariant 0 <= i <= |parsed|
      invariant forall j :: 0 <= j < i ==> parsed[j].None?
      invariant configPath.None?
      decreases |parsed| - i
    {
      if parsed[i].Some? {
        config := parsed[i].value;
        configPath := Some(i);
        break;
      }
      i := i + 1;
    }
    assert configPath == FirstParsed(parsed);
    if !IsTruthy(config) {
      return Err(NoConfigFound);
    }
    if !Present(Prop(config, "telegram")) {
      return Err(MissingTelegram);
    }
    var fields := config.fields;
    fields := fields["telegram" := WithSession(fields["telegram"])];
    if !Present(Lookup(fields, "automation")) {
      fields := fields["automation" := AutomationDefaults];
    }
    if !Present(Lookup(fields, "stats")) {
      fields := fields["stats" := StatsDefaults];
    }
    if StoredAsPercentages(fields) {
      var traits := RescaleTraits(fields["personality"].fields);
      fields := fields["personality" := AdaptivePersonality(traits)];
    }
    return Ok(Loaded(JObj(fields), configPath.value));
  }
}
