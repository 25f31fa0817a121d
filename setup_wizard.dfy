/**
 * The setup wizard of the desktop GUI: seven steps, a step index that only
 * moves forward past a step whose fields are valid, per-step validation
 * that replaces the error table, and single-field configuration edits that
 * clear that field's error.
 */
module SetupWizard {
  import opened Common
  import opened JsValues

  /** The wizard's configuration: section name to field name to value. */
  type Config = map<string, map<string, JsValue>>

  /** The error table: field name to message, `None` for a cleared entry (`null`). */
  type Errors = map<string, Option<string>>

  datatype Step = Step(id: string, title: string)

  const Steps: seq<Step> := [
    Step("welcome", "Welcome"),
    Step("telegram", "Telegram Setup"),
    Step("admin", "Admin Config"),
    Step("ai", "AI Provider"),
    Step("learning", "Learning Settings"),
    Step("personality", "Personality"),
    Step("review", "Review & Finish")
  ]

  const LastStep: nat := |Steps| - 1

  const InitialConfig: Config := map[
    "telegram" := map[
      "apiId" := JStr(""), "apiHash" := JStr(""), "phoneNumber" := JStr(""),
      "adminUsername" := JStr(""), "adminId" := JStr("")],
    "ai" := map["provider" := JStr("claude"), "claudeKey" := JStr(""), "geminiKey" := JStr("")],
    "learning" := map[
      "enabled" := JBool(true), "autoLearn" := JBool(true), "requireApproval" := JBool(true),
      "improvementThreshold" := JNum(0.7), "maxMemorySize" := JNum(1000.0)],
    "personality" := map[
      "professional" := JNum(50.0), "friendly" := JNum(70.0), "humorous" := JNum(30.0),
      "formal" := JNum(30.0), "empathetic" := JNum(60.0)]
  ]

  /** The sections every step's validation reads; no edit removes them. */
  predicate HasSections(config: Config) {
    "telegram" in config && "ai" in config
  }

  // ---------------------------------------------------------------------
  // Validation

  const TelegramFields: seq<string> := ["apiId", "apiHash", "phoneNumber"]

  /** The AI step's rule, stated provider by provider. */
  predicate AiReady(ai: map<string, JsValue>) {
    var provider := Lookup(ai, "provider");
    (provider == Some(JStr("claude")) ==> Filled(ai, "claudeKey"))
    && (provider == Some(JStr("gemini")) ==> Filled(ai, "geminiKey"))
    && (provider == Some(JStr("both")) ==> Filled(ai, "claudeKey") || Filled(ai, "geminiKey"))
  }

  /** `errors` with `field` set to `message` when `missing` holds. */
  function AddIf(errors: Errors, missing: bool, field: string, message: string): Errors {
    if missing then errors[field := Some(message)] else errors
  }

  function TelegramErrors(t: map<string, JsValue>): (r: Errors)
    ensures forall f :: f in r <==> f in TelegramFields && !Filled(t, f)
    ensures forall f :: f in r ==> r[f].Some?
  {
    var e1 := AddIf(map[], !Filled(t, "apiId"), "apiId", "API ID is required");
    var e2 := AddIf(e1, !Filled(t, "apiHash"), "apiHash", "API Hash is required");
    AddIf(e2, !Filled(t, "phoneNumber"), "phoneNumber", "Phone number is required")
  }

  function AiErrors(ai: map<string, JsValue>): (r: Errors)
    ensures r == map[] <==> AiReady(ai)
    ensures forall f :: f in r ==> f in {"claudeKey", "geminiKey", "provider"} && r[f].Some?
  {
    var provider := Lookup(ai, "provider");
    var c1 := provider == Some(JStr("claude")) && !Filled(ai, "claudeKey");
    var c2 := provider == Some(JStr("gemini")) && !Filled(ai, "geminiKey");
    var c3 := provider == Some(JStr("both")) && !Filled(ai, "claudeKey") && !Filled(ai, "geminiKey");
    var e1 := AddIf(map[], c1, "claudeKey", "Claude API key is required");
    var e2 := AddIf(e1, c2, "geminiKey", "Gemini API key is required");
    var e3 := AddIf(e2, c3, "provider", "At least one API key is required");
    assert e3 == map[] <==> !(c1 || c2 || c3) by {
      if c1 {
        assert "claudeKey" in e3;
      } else if c2 {
        assert "geminiKey" in e3;
      } else if c3 {
        assert "provider" in e3;
      }
    }
    e3
  }

  /**
   * `validateStep`'s `newErrors` for the step with id `id`: the telegram
   * step needs its three fields, the AI step needs the key its provider
   * uses, and every other step has nothing to check.
   */
  function StepErrors(id: string, config: Config): (r: Errors)
    requires HasSections(config)
    ensures id == "telegram" ==>
      (r == map[] <==> forall k :: 0 <= k < |TelegramFields| ==> Filled(config["telegram"], TelegramFields[k]))
    ensures id == "telegram" ==>
      forall f :: f in r <==> f in TelegramFields && !Filled(config["telegram"], f)
    ensures id == "ai" ==> (r == map[] <==> AiReady(config["ai"]))
    ensures id != "telegram" && id != "ai" ==> r == map[]
    ensures forall f :: f in r ==> r[f].Some?
  {
    if id == "telegram" then
      var r := TelegramErrors(config["telegram"]);
      assert r == map[] <==> forall k :: 0 <= k < |TelegramFields| ==> Filled(config["telegram"], TelegramFields[k]) by {
        if r != map[] {
          var f :| f in r;
          assert f == TelegramFields[0] || f == TelegramFields[1] || f == TelegramFields[2];
        }
      }
      r
    else if id == "ai" then AiErrors(config["ai"])
    else map[]
  }

  // ---------------------------------------------------------------------
  // Step navigation

  /** `handleNext`'s new step: one further, capped at the last, when the step is valid. */
  function NextStep(step: nat, valid: bool): (r: nat)
    requires step <= LastStep
    ensures r <= LastStep
    ensures !valid ==> r == step
    ensures valid && step < LastStep ==> r == step + 1
    ensures valid && step == LastStep ==> r == step
  {
    if valid then Min(step + 1, LastStep) else step
  }

  /** `handlePrevious`'s new step: one back, never below the first. */
  function PreviousStep(step: nat): (r: nat)
    requires step <= LastStep
    ensures r <= LastStep
    ensures step > 0 ==> r == step - 1
    ensures step == 0 ==> r == 0
  {
    Max(step - 1, 0)
  }

  /** Going back undoes a successful step forward everywhere but on the last step. */
  lemma PreviousUndoesNext(step: nat)
    requires step < LastStep
    ensures PreviousStep(NextStep(step, true)) == step
  {
  }

  // ---------------------------------------------------------------------
  // Configuration edits

  /** `updateConfig`'s new configuration: `config[section][field]` becomes `value`. */
  function Updated(config: Config, section: string, field: string, value: JsValue): (r: Config)
    ensures r.Keys == config.Keys + {section}
    ensures r[section].Keys == (if section in config then config[section].Keys else {}) + {field}
    ensures r[section][field] == value
    ensures forall f :: f in r[section] && f != field ==> r[section][f] == config[section][f]
    ensures forall s :: s in config && s != section ==> r[s] == config[s]
  {
    var old_section := if section in config then config[section] else map[];
    config[section := old_section[field := value]]
  }

  /** Filling every telegram field makes the telegram step valid, whatever came before. */
  lemma FilledTelegramValidates(config: Config, id: JsValue, hash: JsValue, phone: JsValue)
    requires HasSections(config)
    requires IsTruthy(id) && IsTruthy(hash) && IsTruthy(phone)
    ensures var c := Updated(Updated(Updated(config, "telegram", "apiId", id), "telegram", "apiHash", hash),
              "telegram", "phoneNumber", phone);
      HasSections(c) && StepErrors("telegram", c) == map[]
  {
    var c := Updated(Updated(Updated(config, "telegram", "apiId", id), "telegram", "apiHash", hash),
      "telegram", "phoneNumber", phone);
    assert Filled(c["telegram"], "apiId") && Filled(c["telegram"], "apiHash") && Filled(c["telegram"], "phoneNumber");
  }

  // ---------------------------------------------------------------------
  // The component's state

  class Wizard {
    var currentStep: nat
    var config: Config
    var errors: Errors

    predicate Valid()
      reads this
    {
      currentStep <= LastStep && HasSections(config)
    }

    constructor ()
      ensures Valid()
      ensures currentStep == 0 && config == InitialConfig && errors == map[]
    {
      currentStep := 0;
      config := InitialConfig;
      errors := map[];
    }

    /** `validateStep`: replaces the error table with the current step's errors; true when there are none. */
    method ValidateStep() returns (ok: bool)
      requires Valid()
      modifies this`errors
      ensures errors == StepErrors(Steps[currentStep].id, config)
      ensures ok <==> errors == map[]
    {
      var newErrors: Errors := map[];
      var id := Steps[currentStep].id;
      if id == "telegram" {
        var t := config["telegram"];
        if !Filled(t, "apiId") { newErrors := newErrors["apiId" := Some("API ID is required")]; }
        ghost var e1 := newErrors;
        assert e1 == AddIf(map[], !Filled(t, "apiId"), "apiId", "API ID is required");
        if !Filled(t, "apiHash") { newErrors := newErrors["apiHash" := Some("API Hash is required")]; }
        assert newErrors == AddIf(e1, !Filled(t, "apiHash"), "apiHash", "API Hash is required");
        ghost var e2 := newErrors;
        if !Filled(t, "phoneNumber") { newErrors := newErrors["phoneNumber" := Some("Phone number is required")]; }
        assert newErrors == AddIf(e2, !Filled(t, "phoneNumber"), "phoneNumber", "Phone number is required");
        assert newErrors == StepErrors(id, config);
      } else if id == "ai" {
        var ai := config["ai"];
        var provider := Lookup(ai, "provider");
        if provider == Some(JStr("claude")) && !Filled(ai, "claudeKey") {
          newErrors := newErrors["claudeKey" := Some("Claude API key is required")];
        }
        if provider == Some(JStr("gemini")) && !Filled(ai, "geminiKey") {
          newErrors := newErrors["geminiKey" := Some("Gemini API key is required")];
        }
        if provider == Some(JStr("both")) && !Filled(ai, "claudeKey") && !Filled(ai, "geminiKey") {
          newErrors := newErrors["provider" := Some("At least one API key is required")];
        }
        assert newErrors == AiErrors(ai);
        assert newErrors == StepErrors(id, config);
      } else {
        assert newErrors == StepErrors(id, config);
      }
      errors := newErrors;
      ok := |newErrors| == 0;
      assert ok <==> newErrors.Keys == {};
    }

    /** `handleNext`: validates, then moves one step forward only when valid. */
    method HandleNext()
      requires Valid()
      modifies this`errors, this`currentStep
      ensures Valid()
      ensures errors == StepErrors(Steps[old(currentStep)].id, config)
      ensures currentStep == NextStep(old(currentStep), errors == map[])
    {
      var ok := ValidateStep();
      if ok {
        currentStep := Min(currentStep + 1, LastStep);
      }
    }

    /** `handlePrevious`: one step back without validating. */
    method HandlePrevious()
      requires Valid()
      modifies this`currentStep
      ensures Valid()
      ensures currentStep == PreviousStep(old(currentStep))
    {
      currentStep := Max(currentStep - 1, 0);
    }

    /** `updateConfig`: sets one field and clears that field's error. */
    method UpdateConfig(section: string, field: string, value: JsValue)
      requires Valid()
      modifies this`config, this`errors
      ensures Valid()
      ensures config == Updated(old(config), section, field, value)
      ensures errors == old(errors)[field := None]
    {
      config := Updated(config, section, field, value);
      errors := errors[field := None];
    }
  }
}
