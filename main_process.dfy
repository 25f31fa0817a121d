/**
 * The desktop GUI's main-process handlers: `save-config` resets the session,
 * overwrites the automation and stats sections, always rescales the
 * personality percentages and writes the file; `start-bot` always declines
 * and sends the user to the terminal.
 */
module MainProcess {
  import opened Common
  import opened JsValues
  import opened ConfigDefaults
  import AutoFix

  const SavedMessage := "Configuration saved! Please run the bot from terminal to complete authentication."

  datatype SaveReply =
    | Saved(config: map<string, JsValue>, message: string, configPath: string)
    | SaveFailed(error: string)

  /** The `TypeError` message for a property assignment on `undefined` or `null`. */
  function SetOnMissing(v: Option<JsValue>, property: string): string {
    "Cannot set properties of " + (if v.None? then "undefined" else "null") + " (setting '" + property + "')"
  }

  const EntriesOfMissing := "Cannot convert undefined or null to object"

  predicate Missing(v: Option<JsValue>) {
    v.None? || v.value.JNull?
  }

  /**
   * The configuration `save-config` writes, or the message of the
   * `TypeError` it stops at: a missing telegram section fails the session
   * reset, a missing personality fails the trait loop.
   */
  function SavedConfig(config: map<string, JsValue>): (r: Result<map<string, JsValue>, string>)
    ensures Missing(Lookup(config, "telegram")) ==> r == Err(SetOnMissing(Lookup(config, "telegram"), "sessionString"))
    ensures !Missing(Lookup(config, "telegram")) && Missing(Lookup(config, "personality")) ==>
      r == Err(EntriesOfMissing)
    ensures !Missing(Lookup(config, "telegram")) && !Missing(Lookup(config, "personality")) ==> r.Ok?
    ensures r.Ok? ==>
      && r.value.Keys == config.Keys + {"automation", "stats"}
      && (config["telegram"].JObj? ==> r.value["telegram"] == JObj(config["telegram"].fields["sessionString" := JStr("")]))
      && (!config["telegram"].JObj? ==> r.value["telegram"] == config["telegram"])
      && r.value["automation"] == AutomationDefaults
      && r.value["stats"] == StatsDefaults
      && r.value["personality"] == AdaptivePersonality(Rescaled(OwnEntries(config["personality"])))
      && forall k :: k in config && k !in {"telegram", "automation", "stats", "personality"} ==> r.value[k] == config[k]
  {
    var telegram := Lookup(config, "telegram");
    if Missing(telegram) then Err(SetOnMissing(telegram, "sessionString"))
    else if Missing(Lookup(config, "personality")) then Err(EntriesOfMissing)
    else
      var t := config["telegram"];
      var t' := if t.JObj? then JObj(t.fields["sessionString" := JStr("")]) else t;
      Ok(config["telegram" := t']["automation" := AutomationDefaults]["stats" := StatsDefaults]
        ["personality" := AdaptivePersonality(Rescaled(OwnEntries(config["personality"])))])
  }

  /**
   * What the auto-fixer does to a configuration this handler saved with a
   * telegram object: nothing. The session is already empty, both sections
   * are there and the personality no longer has a `professional` entry.
   */
  lemma SavedConfigNeedsNoFix(config: map<string, JsValue>)
    requires "telegram" in config && config["telegram"].JObj?
    requires !Missing(Lookup(config, "personality"))
    ensures SavedConfig(config).Ok?
    ensures Present(Lookup(SavedConfig(config).value, "telegram"))
    ensures AutoFix.Fixed(SavedConfig(config).value) == SavedConfig(config).value
  {
    var saved := SavedConfig(config).value;
    var t := saved["telegram"];
    assert t.fields["sessionString"] == JStr("");
    assert AutoFix.WithSession(t) == t by {
      assert t.fields["sessionString" := JStr("")] == t.fields;
    }
    assert !AutoFix.StoredAsPercentages(saved) by {
      assert "professional" !in saved["personality"].fields;
    }
    var fixed := AutoFix.Fixed(saved);
    forall k | k in saved
      ensures fixed[k] == saved[k]
    {
    }
  }

  /**
   * The `save-config` handler: transforms the configuration in place, writes
   * it (`writeError` is the failure of that write, if any) and replies.
   */
  method SaveConfig(config: map<string, JsValue>, configPath: string, writeError: Option<string>)
    returns (reply: SaveReply)
    ensures SavedConfig(config).Err? ==> reply == SaveFailed(SavedConfig(config).error)
    ensures SavedConfig(config).Ok? && writeError.Some? ==> reply == SaveFailed(writeError.value)
    ensures SavedConfig(config).Ok? && writeError.None? ==>
      reply == Saved(SavedConfig(config).value, SavedMessage, configPath)
  {
    var c := config;
    var telegram := Lookup(c, "telegram");
    if Missing(telegram) {
      return SaveFailed(SetOnMissing(telegram, "sessionString"));
    }
    if c["telegram"].JObj? {
      c := c["telegram" := JObj(c["telegram"].fields["sessionString" := JStr("")])];
    }
    c := c["automation" := AutomationDefaults];
    c := c["stats" := StatsDefaults];
    if Missing(Lookup(c, "personality")) {
      return SaveFailed(EntriesOfMissing);
    }
    var personalityTraits := RescaleTraits(OwnEntries(c["personality"]));
    c := c["personality" := AdaptivePersonality(personalityTraits)];
    if writeError.Some? {
      return SaveFailed(writeError.value);
    }
    return Saved(c, SavedMessage, configPath);
  }

  datatype StartReply = StartReply(success: bool, message: string, needsTerminal: bool)

  /** The `start-bot` handler: never starts the bot, always points to the terminal. */
  function StartBot(): (r: StartReply)
    ensures !r.success && r.needsTerminal
    ensures r.message == "Please start the bot from your terminal using: npm run bot"
  {
    StartReply(false, "Please start the bot from your terminal using: npm run bot", true)
  }
}
