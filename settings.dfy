/** The settings state of the frontend (frontend/src/contexts/SettingsContext.jsx):
    the defaults, the validation schema, the reducer, the repair of stored
    settings and the effective theme. Settings are plain JavaScript objects
    with value semantics. */
module Settings {
  import opened Wrappers
  import Collections
  import opened Js
  import opened StorageUtils

  const Themes: seq<string> := ["light", "dark", "system"]
  const Languages: seq<string> := ["en", "es"]
  const MinRefreshInterval: int := 5000
  const MaxRefreshInterval: int := 300000

  /** The boolean preferences, in the order the repair visits them
      (`refreshInterval` sits between `autoRefresh` and `compactMode`). */
  const BooleanPrefs: seq<string> :=
    ["notifications", "autoRefresh", "compactMode", "fraudAlerts",
     "realTimeUpdates", "autoLogout", "enhancedEncryption"]

  const DefaultPreferences: map<string, JsValue> := map[
    "notifications" := Bool(true),
    "autoRefresh" := Bool(true),
    "refreshInterval" := Num(30000.0),
    "compactMode" := Bool(false),
    "fraudAlerts" := Bool(true),
    "realTimeUpdates" := Bool(true),
    "autoLogout" := Bool(false),
    "enhancedEncryption" := Bool(true)]

  const DefaultSettings: map<string, JsValue> := map[
    "theme" := Str("system"),
    "language" := Str("en"),
    "preferences" := Obj(DefaultPreferences)]

  function Required(ty: RuleType): Rule
  {
    Rule(true, Some(ty), None, None, None, [])
  }

  /** A required string restricted to a list of choices. */
  function Choice(names: seq<string>): Rule
  {
    Rule(true, Some(StringType), None, None, Some(names), [])
  }

  const PreferenceRules: seq<Prop> := [
    Prop("notifications", Required(BooleanType)),
    Prop("autoRefresh", Required(BooleanType)),
    Prop("refreshInterval", Rule(true, Some(NumberType), Some(MinRefreshInterval), Some(MaxRefreshInterval), None, [])),
    Prop("compactMode", Required(BooleanType)),
    Prop("fraudAlerts", Required(BooleanType)),
    Prop("realTimeUpdates", Required(BooleanType)),
    Prop("autoLogout", Required(BooleanType)),
    Prop("enhancedEncryption", Required(BooleanType))]

  const SettingsSchema: seq<Prop> := [
    Prop("theme", Choice(Themes)),
    Prop("language", Choice(Languages)),
    Prop("preferences", Rule(true, Some(ObjectType), None, None, None, PreferenceRules))]

  // ---------------------------------------------------------------------
  // Reducer
  // ---------------------------------------------------------------------

  datatype Action =
    | SetTheme(payload: JsValue)
    | SetLanguage(payload: JsValue)
    | UpdatePreferences(payload: JsValue)
    | ResetSettings
    | LoadSettings(payload: JsValue)
    | UnknownAction(name: string)

  /** The own properties `{...v}` copies: those of a plain object. Null,
      undefined, booleans and numbers contribute none; the index entries a
      string or an array would contribute are not modelled, so they too
      contribute none here. */
  function Spread(v: JsValue): map<string, JsValue>
  {
    if v.Obj? then v.props else map[]
  }

  function SettingsReducer(state: map<string, JsValue>, action: Action): (r: map<string, JsValue>)
    ensures action.ResetSettings? ==> r == DefaultSettings
    ensures action.UnknownAction? ==> r == state
  {
    match action
    case SetTheme(payload) => state["theme" := payload]
    case SetLanguage(payload) => state["language" := payload]
    case UpdatePreferences(payload) =>
      state["preferences" := Obj(Spread(Get(Obj(state), "preferences")) + Spread(payload))]
    case ResetSettings => DefaultSettings
    case LoadSettings(payload) => state + Spread(payload)
    case UnknownAction(_) => state
  }

  /** `theme` and `language` actions change only their own field. */
  lemma SetFieldChangesOnlyThatField(state: map<string, JsValue>, payload: JsValue, k: string)
    ensures var r := SettingsReducer(state, SetTheme(payload));
      r["theme"] == payload && (k != "theme" ==> (k in r <==> k in state) && (k in state ==> r[k] == state[k]))
    ensures var r := SettingsReducer(state, SetLanguage(payload));
      r["language"] == payload && (k != "language" ==> (k in r <==> k in state) && (k in state ==> r[k] == state[k]))
  {
  }

  /** `UPDATE_PREFERENCES` overlays the payload on the current preferences:
      a key of the payload takes its value, any other preference keeps its
      own, and the other settings fields are untouched. */
  lemma UpdatePreferencesOverlays(state: map<string, JsValue>, payload: JsValue, k: string, field: string)
    requires "preferences" in state && state["preferences"].Obj?
    ensures var r := SettingsReducer(state, UpdatePreferences(payload));
      var prefs := r["preferences"].props;
      (payload.Obj? && k in payload.props ==> k in prefs && prefs[k] == payload.props[k])
      && (k !in Spread(payload) && k in state["preferences"].props ==> k in prefs && prefs[k] == state["preferences"].props[k])
      && (field != "preferences" ==> (field in r <==> field in state) && (field in state ==> r[field] == state[field]))
  {
  }

  /** `LOAD_SETTINGS` overlays the payload on the whole state. */
  lemma LoadSettingsOverlays(state: map<string, JsValue>, payload: JsValue, k: string)
    ensures var r := SettingsReducer(state, LoadSettings(payload));
      (payload.Obj? && k in payload.props ==> k in r && r[k] == payload.props[k])
      && (k !in Spread(payload) ==> (k in r <==> k in state) && (k in state ==> r[k] == state[k]))
  {
  }

  // ---------------------------------------------------------------------
  // Repair of loaded settings (`validateSettings`)
  // ---------------------------------------------------------------------

  datatype Validation = Validation(settings: JsValue, errors: seq<string>, isValid: bool)

  /** The guard `!settings || typeof settings !== 'object'`. */
  predicate NoSettings(settings: JsValue)
  {
    !Truthy(settings) || TypeOf(settings) != "object"
  }

  /** `validator.isBoolean(prefs[k])`: the given flag, else the default. */
  function RepairFlag(prefs: JsValue, k: string): JsValue
    requires k in DefaultPreferences
  {
    if IsBoolean(Get(prefs, k)) then Get(prefs, k) else DefaultPreferences[k]
  }

  /** `validator.isPositiveNumber(prefs.refreshInterval, 5000, 300000)`. */
  function RepairInterval(prefs: JsValue): JsValue
  {
    var v := Get(prefs, "refreshInterval");
    if IsPositiveNumber(v, MinRefreshInterval as real, Some(MaxRefreshInterval as real)) then v
    else DefaultPreferences["refreshInterval"]
  }

  /** One preference after the repair. */
  function RepairPref(prefs: JsValue, k: string): JsValue
    requires k in DefaultPreferences
  {
    if k == "refreshInterval" then RepairInterval(prefs) else RepairFlag(prefs, k)
  }

  /** The repaired preferences of a plain object: every default key, each
      keeping the given value when that value is acceptable. */
  function RepairedPreferences(prefs: JsValue): (r: map<string, JsValue>)
    ensures r.Keys == DefaultPreferences.Keys
  {
    map k | k in DefaultPreferences :: RepairPref(prefs, k)
  }

  /** The corrected settings: the defaults, overridden field by field by
      each individually acceptable field of `settings`. */
  function Repaired(settings: JsValue): (r: map<string, JsValue>)
    ensures r.Keys == {"theme", "language", "preferences"}
    ensures r["preferences"].Obj?
  {
    var theme := Get(settings, "theme");
    var language := Get(settings, "language");
    var prefs := Get(settings, "preferences");
    map[
      "theme" := if IsOneOf(theme, StrArray(Themes)) then theme else DefaultSettings["theme"],
      "language" := if IsOneOf(language, StrArray(Languages)) then language else DefaultSettings["language"],
      "preferences" := Obj(if IsPlainObject(prefs) then RepairedPreferences(prefs) else DefaultPreferences)]
  }

  /** What the schema demands of the preferences, in plain terms. */
  predicate WellFormedPreferences(prefs: JsValue)
  {
    prefs.Obj?
    && (forall k :: k in BooleanPrefs ==> Get(prefs, k).Bool?)
    && Get(prefs, "refreshInterval").Num?
    && MinRefreshInterval as real <= Get(prefs, "refreshInterval").n <= MaxRefreshInterval as real
  }

  /** What the schema demands of a settings object, in plain terms. */
  predicate WellFormedSettings(v: JsValue)
  {
    v.Obj?
    && Get(v, "theme").Str? && Get(v, "theme").s in Themes
    && Get(v, "language").Str? && Get(v, "language").s in Languages
    && WellFormedPreferences(Get(v, "preferences"))
  }

  /** `validateSettings(settings)`. Missing or non-object data yields the
      defaults; data that passes the schema is returned as it is; anything
      else is repaired field by field and reported with the schema errors. */
  method ValidateSettings(settings: JsValue) returns (r: Validation)
    ensures NoSettings(settings) ==> r == Validation(Obj(DefaultSettings), [], false)
    ensures !NoSettings(settings) && WellFormedSettings(settings) ==> r == Validation(settings, [], true)
    ensures !NoSettings(settings) && !WellFormedSettings(settings) ==>
      r == Validation(Obj(Repaired(settings)), SchemaErrors(settings, SettingsSchema), false)
    ensures r.isValid <==> !NoSettings(settings) && SchemaErrors(settings, SettingsSchema) == []
    ensures !r.isValid && !NoSettings(settings) ==> r.errors != []
    ensures WellFormedSettings(r.settings)
  {
    DefaultsAreWellFormed();
    if !Truthy(settings) || TypeOf(settings) != "object" {
      return Validation(Obj(DefaultSettings), [], false);
    }
    var isValid, errors := ValidateSchema(settings, SettingsSchema);
    SchemaAcceptsExactlyWellFormed(settings);
    if isValid {
      return Validation(settings, [], true);
    }
    var theme := DefaultSettings["theme"];
    if IsOneOf(Get(settings, "theme"), StrArray(Themes)) {
      theme := Get(settings, "theme");
    }
    var language := DefaultSettings["language"];
    if IsOneOf(Get(settings, "language"), StrArray(Languages)) {
      language := Get(settings, "language");
    }
    var corrected := DefaultPreferences;
    var given := Get(settings, "preferences");
    if IsPlainObject(given) {
      corrected := RepairPreferences(given);
    }
    r := Validation(Obj(map["theme" := theme, "language" := language, "preferences" := Obj(corrected)]), errors, false);
    RepairedIsWellFormed(settings);
  }

  /** The eight guarded assignments to `correctedSettings.preferences`. */
  method RepairPreferences(prefs: JsValue) returns (corrected: map<string, JsValue>)
    requires IsPlainObject(prefs)
    ensures corrected == RepairedPreferences(prefs)
  {
    corrected := DefaultPreferences;
    assert PreferenceOrder[..0] == [];
    corrected := KeepAcceptable(corrected, prefs, 0);
    corrected := KeepAcceptable(corrected, prefs, 1);
    corrected := KeepAcceptable(corrected, prefs, 2);
    corrected := KeepAcceptable(corrected, prefs, 3);
    corrected := KeepAcceptable(corrected, prefs, 4);
    corrected := KeepAcceptable(corrected, prefs, 5);
    corrected := KeepAcceptable(corrected, prefs, 6);
    corrected := KeepAcceptable(corrected, prefs, 7);
    AllRepaired(corrected, prefs);
  }

  /** The preferences in the order the repair visits them. */
  const PreferenceOrder: seq<string> :=
    ["notifications", "autoRefresh", "refreshInterval", "compactMode",
     "fraudAlerts", "realTimeUpdates", "autoLogout", "enhancedEncryption"]

  /** `corrected` holds the repaired value of the first `n` preferences of
      `PreferenceOrder` and the default of every other one. */
  ghost predicate RepairedUpTo(corrected: map<string, JsValue>, prefs: JsValue, n: nat)
    requires n <= |PreferenceOrder|
  {
    corrected.Keys == DefaultPreferences.Keys
    && forall k :: k in DefaultPreferences ==>
         corrected[k] == if k in PreferenceOrder[..n] then RepairPref(prefs, k) else DefaultPreferences[k]
  }

  lemma AllRepaired(corrected: map<string, JsValue>, prefs: JsValue)
    requires RepairedUpTo(corrected, prefs, 8)
    ensures corrected == RepairedPreferences(prefs)
  {
    assert PreferenceOrder[..8] == PreferenceOrder;
  }

  /** Each preference is visited once, and only default keys are visited. */
  lemma PreferenceOrderVisitsOnce(n: nat)
    requires n < |PreferenceOrder|
    ensures PreferenceOrder[n] in DefaultPreferences
    ensures PreferenceOrder[n] !in PreferenceOrder[..n]
  {
    assert n == 0 || n == 1 || n == 2 || n == 3 || n == 4 || n == 5 || n == 6 || n == 7;
  }

  /** `if (<check>(prefs[k])) correctedSettings.preferences[k] = prefs[k]`,
      where the check is `isPositiveNumber(_, 5000, 300000)` for the
      refresh interval and `isBoolean` for every other preference. */
  method KeepAcceptable(corrected: map<string, JsValue>, prefs: JsValue, n: nat)
    returns (corrected': map<string, JsValue>)
    requires n < |PreferenceOrder|
    requires RepairedUpTo(corrected, prefs, n)
    ensures RepairedUpTo(corrected', prefs, n + 1)
  {
    var k := PreferenceOrder[n];
    RepairStep(corrected, prefs, n);
    corrected' := corrected;
    if k == "refreshInterval" {
      if IsPositiveNumber(Get(prefs, k), MinRefreshInterval as real, Some(MaxRefreshInterval as real)) {
        corrected' := corrected'[k := Get(prefs, k)];
      }
    } else if IsBoolean(Get(prefs, k)) {
      corrected' := corrected'[k := Get(prefs, k)];
    }
    if corrected' == corrected {
      assert corrected[k := RepairPref(prefs, k)] == corrected;
    }
  }

  /** Repairing the `n`-th preference of `PreferenceOrder` overwrites a
      default and extends the repaired prefix by one. */
  lemma RepairStep(corrected: map<string, JsValue>, prefs: JsValue, n: nat)
    requires n < |PreferenceOrder|
    requires RepairedUpTo(corrected, prefs, n)
    ensures PreferenceOrder[n] in corrected
    ensures corrected[PreferenceOrder[n]] == DefaultPreferences[PreferenceOrder[n]]
    ensures RepairedUpTo(corrected[PreferenceOrder[n] := RepairPref(prefs, PreferenceOrder[n])], prefs, n + 1)
  {
    var k := PreferenceOrder[n];
    PreferenceOrderVisitsOnce(n);
    var next := corrected[k := RepairPref(prefs, k)];
    assert PreferenceOrder[..n + 1] == PreferenceOrder[..n] + [k];
    forall key | key in DefaultPreferences
      ensures next[key] ==
        if key in PreferenceOrder[..n + 1] then RepairPref(prefs, key) else DefaultPreferences[key]
    {
      if key != k {
        assert key in PreferenceOrder[..n + 1] <==> key in PreferenceOrder[..n];
      }
    }
  }

  lemma DefaultsAreWellFormed()
    ensures WellFormedSettings(Obj(DefaultSettings))
  {
  }

  /** Repaired preferences are always well formed. */
  lemma RepairedPreferencesWellFormed(prefs: JsValue)
    ensures WellFormedPreferences(Obj(RepairedPreferences(prefs)))
  {
    var r := Obj(RepairedPreferences(prefs));
    BooleanDefaults();
    forall k | k in BooleanPrefs
      ensures Get(r, k).Bool?
    {
      assert Get(r, k) == RepairFlag(prefs, k);
    }
    assert Get(r, "refreshInterval") == RepairInterval(prefs);
  }

  /** Every flag preference has a boolean default. */
  lemma BooleanDefaults()
    ensures forall k :: k in BooleanPrefs ==>
      k in DefaultPreferences && DefaultPreferences[k].Bool? && k != "refreshInterval"
  {
  }

  /** Every repaired value satisfies the schema. */
  lemma RepairedIsWellFormed(settings: JsValue)
    ensures WellFormedSettings(Obj(Repaired(settings)))
  {
    var r := Obj(Repaired(settings));
    RepairedEntries(settings);
    var prefs := Get(settings, "preferences");
    if IsPlainObject(prefs) {
      RepairedPreferencesWellFormed(prefs);
    } else {
      DefaultPreferencesWellFormed();
    }
    OneOfStringArray(Get(settings, "theme"), Themes);
    OneOfStringArray(Get(settings, "language"), Languages);
  }

  /** The three entries of the repaired settings. */
  lemma RepairedEntries(settings: JsValue)
    ensures Get(Obj(Repaired(settings)), "theme") ==
      if IsOneOf(Get(settings, "theme"), StrArray(Themes)) then Get(settings, "theme") else Str("system")
    ensures Get(Obj(Repaired(settings)), "language") ==
      if IsOneOf(Get(settings, "language"), StrArray(Languages)) then Get(settings, "language") else Str("en")
    ensures Get(Obj(Repaired(settings)), "preferences") ==
      Obj(if IsPlainObject(Get(settings, "preferences")) then RepairedPreferences(Get(settings, "preferences"))
          else DefaultPreferences)
  {
  }

  lemma DefaultPreferencesWellFormed()
    ensures WellFormedPreferences(Obj(DefaultPreferences))
  {
  }

  /** Repairing keeps every acceptable field, so repairing twice changes
      nothing more than repairing once. */
  lemma RepairIdempotent(settings: JsValue)
    ensures Repaired(Obj(Repaired(settings))) == Repaired(settings)
  {
    var once := Obj(Repaired(settings));
    RepairedIsWellFormed(settings);
    OneOfStringArray(Get(once, "theme"), Themes);
    OneOfStringArray(Get(once, "language"), Languages);
    var prefs := Get(once, "preferences");
    assert prefs.props.Keys == DefaultPreferences.Keys;
    RepairKeepsWellFormedPreferences(prefs);
  }

  /** Well-formed preferences with the default keys come out of the repair
      unchanged. */
  lemma RepairKeepsWellFormedPreferences(prefs: JsValue)
    requires WellFormedPreferences(prefs) && prefs.props.Keys == DefaultPreferences.Keys
    ensures RepairedPreferences(prefs) == prefs.props
  {
    forall k | k in DefaultPreferences
      ensures RepairPref(prefs, k) == prefs.props[k]
    {
      if k != "refreshInterval" {
        assert k in BooleanPrefs;
      }
    }
  }

  /** Against an array of strings, `isOneOf` accepts exactly the listed
      strings. */
  lemma OneOfStringArray(v: JsValue, names: seq<string>)
    ensures IsOneOf(v, StrArray(names)) <==> v.Str? && v.s in names
  {
    if v.Str? {
      OneOfStrings(v, StrArray(names), v.s, names);
    }
  }

  /** A required boolean rule reports nothing exactly for a boolean. */
  lemma FlagRuleErrors(obj: JsValue, k: string, path: string)
    ensures PropErrors(obj, Prop(k, Required(BooleanType)), path) == [] <==> Get(obj, k).Bool?
  {
  }

  /** The `refreshInterval` rule reports nothing exactly for a number in
      [5000, 300000]. */
  lemma IntervalRuleErrors(obj: JsValue, path: string)
    ensures PropErrors(obj, PreferenceRules[2], path) == [] <==>
      Get(obj, "refreshInterval").Num?
      && MinRefreshInterval as real <= Get(obj, "refreshInterval").n <= MaxRefreshInterval as real
  {
  }

  /** A choice among names that do not start with whitespace reports
      nothing exactly for one of the names. */
  lemma ChoiceRuleErrors(obj: JsValue, k: string, names: seq<string>, path: string)
    requires forall n :: n in names ==> n != "" && !IsJsWhitespace(n[0])
    ensures PropErrors(obj, Prop(k, Choice(names)), path) == [] <==>
      Get(obj, k).Str? && Get(obj, k).s in names
  {
    var val := Get(obj, k);
    OneOfStringArray(val, names);
    if val.Str? && val.s in names {
      assert !AllWhitespace(val.s) by { assert !IsJsWhitespace(val.s[0]); }
    }
  }

  /** The seven boolean rules of the preferences report nothing exactly
      when the seven flags are booleans. */
  lemma FlagRulesIff(prefs: JsValue)
    ensures (PropErrors(prefs, PreferenceRules[0], "preferences") == []
             && PropErrors(prefs, PreferenceRules[1], "preferences") == []
             && PropErrors(prefs, PreferenceRules[3], "preferences") == []
             && PropErrors(prefs, PreferenceRules[4], "preferences") == []
             && PropErrors(prefs, PreferenceRules[5], "preferences") == []
             && PropErrors(prefs, PreferenceRules[6], "preferences") == []
             && PropErrors(prefs, PreferenceRules[7], "preferences") == [])
            <==> forall k :: k in BooleanPrefs ==> Get(prefs, k).Bool?
  {
    FlagRuleErrors(prefs, "notifications", "preferences");
    FlagRuleErrors(prefs, "autoRefresh", "preferences");
    FlagRuleErrors(prefs, "compactMode", "preferences");
    FlagRuleErrors(prefs, "fraudAlerts", "preferences");
    FlagRuleErrors(prefs, "realTimeUpdates", "preferences");
    FlagRuleErrors(prefs, "autoLogout", "preferences");
    FlagRuleErrors(prefs, "enhancedEncryption", "preferences");
  }

  /** The preferences rule reports nothing exactly for well-formed
      preferences. */
  lemma PreferencesRuleErrors(obj: JsValue)
    ensures PropErrors(obj, SettingsSchema[2], "") == [] <==> WellFormedPreferences(Get(obj, "preferences"))
  {
    var prefs := Get(obj, "preferences");
    if prefs.Obj? {
      assert PropErrors(obj, SettingsSchema[2], "") == PropsErrors(prefs, PreferenceRules, "preferences");
      IntervalRuleErrors(prefs, "preferences");
      FlagRulesIff(prefs);
      PreferenceRulesPassTogether(prefs, PreferenceRules, "preferences");
    }
  }

  /** The eight preference rules (notifications, autoRefresh,
      refreshInterval, compactMode, fraudAlerts, realTimeUpdates, autoLogout,
      enhancedEncryption) report nothing together exactly when each of them
      reports nothing. */
  lemma PreferenceRulesPassTogether(obj: JsValue, props: seq<Prop>, path: string)
    requires |props| == 8
    ensures (forall i :: 0 <= i < |props| ==> PropErrors(obj, props[i], path) == [])
      <==> PropErrors(obj, props[2], path) == []
           && PropErrors(obj, props[0], path) == []
           && PropErrors(obj, props[1], path) == []
           && PropErrors(obj, props[3], path) == []
           && PropErrors(obj, props[4], path) == []
           && PropErrors(obj, props[5], path) == []
           && PropErrors(obj, props[6], path) == []
           && PropErrors(obj, props[7], path) == []
  {
    var ok := p => PropErrors(obj, p, path) == [];
    if ok(props[2]) && ok(props[0]) && ok(props[1]) && ok(props[3])
       && ok(props[4]) && ok(props[5]) && ok(props[6]) && ok(props[7])
    {
      forall i | 0 <= i < |props|
        ensures ok(props[i])
      {
        assert i == 0 || i == 1 || i == 2 || i == 3 || i == 4 || i == 5 || i == 6 || i == 7;
      }
    }
  }


  /** The settings schema accepts a value exactly when it is well formed:
      a theme and a language among their choices and preferences with
      seven booleans and an in-range refresh interval. */
  lemma SchemaAcceptsExactlyWellFormed(v: JsValue)
    ensures SchemaErrors(v, SettingsSchema) == [] <==> WellFormedSettings(v)
  {
    if v.Obj? {
      ChoiceNamesStartVisibly();
      ChoiceRuleErrors(v, "theme", Themes, "");
      ChoiceRuleErrors(v, "language", Languages, "");
      PreferencesRuleErrors(v);
      SettingsRulesPassTogether(v, SettingsSchema, "");
    }
  }

  /** No theme or language name is empty or starts with white space. */
  lemma ChoiceNamesStartVisibly()
    ensures forall n :: n in Themes ==> n != "" && !IsJsWhitespace(n[0])
    ensures forall n :: n in Languages ==> n != "" && !IsJsWhitespace(n[0])
  {
  }

  /** The three top-level settings rules (theme, language, preferences)
      report nothing together exactly when each of them reports nothing. */
  lemma SettingsRulesPassTogether(obj: JsValue, props: seq<Prop>, path: string)
    requires |props| == 3
    ensures (forall i :: 0 <= i < |props| ==> PropErrors(obj, props[i], path) == [])
      <==> PropErrors(obj, props[0], path) == []
           && PropErrors(obj, props[1], path) == []
           && PropErrors(obj, props[2], path) == []
  {
    if PropErrors(obj, props[0], path) == []
       && PropErrors(obj, props[1], path) == []
       && PropErrors(obj, props[2], path) == []
    {
      forall i | 0 <= i < |props|
        ensures PropErrors(obj, props[i], path) == []
      {
        assert i == 0 || i == 1 || i == 2;
      }
    }
  }

  /** `getEffectiveTheme()`: 'system' follows the colour-scheme media query
      (a parameter here); any other theme is returned as it is. */
  function EffectiveTheme(theme: JsValue, prefersDark: bool): (r: JsValue)
    ensures theme != Str("system") ==> r == theme
    ensures theme.Str? && theme.s in Themes ==> r == Str("light") || r == Str("dark")
    ensures theme == Str("system") ==> (r == Str("dark") <==> prefersDark)
  {
    if theme == Str("system") then (if prefersDark then Str("dark") else Str("light"))
    else theme
  }
}
