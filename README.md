# Fraud dashboard core in Dafny

This project models the deterministic core of a fraud-detection dashboard.
The backend scores a card transaction from three parts:
- a machine-learning classifier, taken here as an input;
- a fixed set of "legacy" business rules;
- a separate rule engine.

It fuses the three scores into one verdict, assembles the human-readable
reasons, decides whether to raise an alert, stores a record and serves a
paged history. The frontend adds several small logic units:
- the settings store, with a schema validator and a repair step;
- a dotted-key translation lookup with an English fallback;
- the sign-up form checks;
- the page-window builder of the pagination bar;
- the breakpoint classifier;
- the normalisation, merge, filtering and paging of the transaction list;
- the dashboard filter pipeline.

Layout, one module per source unit:

| file | module | models |
|---|---|---|
| `wrappers.dfy` | `Wrappers` | `Option` |
| `text.dfy` | `Text` | ASCII lower-casing, substring search, splitting at a character |
| `collections.dfy` | `Collections` | order-preserving filter and subsequences |
| `js.dfy` | `Js` | JavaScript values, truthiness, `trim`, `Number()` |
| `object_id.dfy` | `ObjectIds` | `convert_objectid` over a Python value tree |
| `features.dfy` | `Features` | `transform_features` |
| `rule_engine.dfy` | `RuleEngine` | `evaluate_rules` |
| `prediction.dfy` | `Prediction` | legacy rules, engine score, fusion, reasons, alert, `predict_and_save`, `get_prediction_history` |
| `storage_utils.dfy` | `StorageUtils` | the `validator` object and the key guards of `storage` |
| `settings.dfy` | `Settings` | `settingsReducer`, `validateSettings`, `getEffectiveTheme` |
| `translation.dfy` | `Translation` | `t` and `hasTranslation` |
| `pagination.dfy` | `Pagination` | the page window and the previous/next rules |
| `responsive.dfy` | `Responsive` | `getViewportSize` and the three device flags |
| `signup.dfy` | `Signup` | `validatePassword`, `handleSubmit`, `handleChange` |
| `transaction_management.dfy` | `TransactionManagement` | normalisation, merge, filters, paging |
| `dashboard_layout.dfy` | `DashboardLayout` | `handleFilterChange` |

Imperative code is modelled by methods with loops or step-by-step updates:
- the rule evaluators, each appending one rule at a time;
- the severity loop;
- the history cursor loop;
- the recursive `validateProperty`;
- the preference repair;
- the translation key walk;
- the page-window pushes;
- the de-duplicating merge;
- the filter stages.

Each method is proved against a specification function. The properties the
code promises are then proved as lemmas about that function. The
`memoryStorage` map and the sign-up form's state are classes whose methods
update their fields.

Two decisions of the code shape the prediction service:
- When the classifier or the predictions collection is missing,
  `predict_and_save` answers HTTP 503 before any scoring. It does not fall back
  to a rules-only decision (`Prediction.PredictAndSave`).
- The legacy rules use the thresholds written in the code:
  - amount above `max(5 × 0.12, 1000)`, which is 1000;
  - KYC 0 on an `international` or `web` channel;
  - hour between 2 and 4;
  - account age below 5 with an amount above 10000.

Two behaviours of the code are shown as they are:
- On mobile, the window for page 2 of 4 is `1 … 2 … 4`. Its first ellipsis
  hides no page (`Pagination.MobileEllipsisCanHideNothing`).
- The first history page sets `totalFetched` to the raw batch length without
  the 200 cap (`TransactionManagement.FirstPageCountIsUncapped`).

## Model

| member | source | states |
|---|---|---|
| ObjectIds.ConvertObjectId | backend/src/utils/fraud_dashboard/utils.py:3-10 | no ObjectId remains; lists keep their length; dicts keep exactly their keys; an ObjectId becomes its hex string; every other value is returned unchanged |
| ObjectIds.ListsConvertElementwise | backend/src/utils/fraud_dashboard/utils.py:4-5 | element i of a converted list is the conversion of element i |
| ObjectIds.DictsConvertValues | backend/src/utils/fraud_dashboard/utils.py:6-7 | each key stays, and its value is the converted value |
| ObjectIds.ConvertFixesClean | backend/src/utils/fraud_dashboard/utils.py:3-10 | a tree with no ObjectId is a fixed point |
| ObjectIds.ConvertIdempotent | backend/src/utils/fraud_dashboard/utils.py:3-10 | converting twice equals converting once |
| Features.TransformFeatures | backend/src/utils/fraud_dashboard/routers/prediction.py:89-115 | at most one channel flag is set, and exactly one iff the lower-cased channel is atm/mobile/pos/web, each flag iff its own name; is_night iff hour in 0..6; is_weekend iff weekday in {5,6}; high_amount_flag iff amount > 10000; raw and calendar fields are passed through; the placeholder aggregates are 0.12, 5 and 0.03 |
| Features.FeatureRow | backend/src/utils/fraud_dashboard/routers/prediction.py:248-254 | the classifier row has one entry per name of the 16-name feature order, and its i-th entry is the engineered feature named by the i-th name |
| RuleEngine.EvaluateRules | backend/src/utils/fraud_dashboard/routers/rule_engine.py:12-79 | raises exactly when a needed amount comparison meets a missing amount; otherwise triggers and details are the names and records of the rules that fire, in table order |
| RuleEngine.AverageRule | backend/src/utils/fraud_dashboard/routers/rule_engine.py:27-40 | appends HIGH_AMOUNT_VS_AVG iff it fires, and raises iff an average is known and the amount is missing |
| RuleEngine.ChannelRule | backend/src/utils/fraud_dashboard/routers/rule_engine.py:23-49 | appends INTERNATIONAL_NO_KYC iff it fires, keeping triggers and details in step |
| RuleEngine.OddHourRule | backend/src/utils/fraud_dashboard/routers/rule_engine.py:51-58 | appends ODD_HOUR_TXN iff the hour is an int in 2..4 |
| RuleEngine.NewAccountRule | backend/src/utils/fraud_dashboard/routers/rule_engine.py:60-67 | appends NEW_ACCOUNT_HIGH_AMOUNT iff it fires, and raises iff the account is young and the amount is missing |
| RuleEngine.AbsoluteRule | backend/src/utils/fraud_dashboard/routers/rule_engine.py:69-76 | appends ABSOLUTE_HIGH_AMOUNT iff the amount exceeds 200000 |
| RuleEngine.Append | backend/src/utils/fraud_dashboard/routers/rule_engine.py:35-40 | one firing appends the key and its detail together, so the parallel lists stay aligned |
| RuleEngine.Reason | backend/src/utils/fraud_dashboard/routers/rule_engine.py:38-74 | every rule's reason is non-empty |
| RuleEngine.Names | backend/src/utils/fraud_dashboard/routers/rule_engine.py:35-71 | one trigger name per fired rule, in order |
| RuleEngine.Details | backend/src/utils/fraud_dashboard/routers/rule_engine.py:36-75 | one detail record per fired rule, in order |
| RuleEngine.Advance | backend/src/utils/fraud_dashboard/routers/rule_engine.py:32-76 | evaluating one more rule keeps "fired so far + still to fire = all fired" |
| RuleEngine.TriggersInRuleOrder | backend/src/utils/fraud_dashboard/routers/rule_engine.py:33-79 | fired rules are strictly increasing in table order, so each key occurs at most once, and details[i].rule is triggers[i] |
| RuleEngine.FiredMembership | backend/src/utils/fraud_dashboard/routers/rule_engine.py:33-76 | a rule is reported iff its condition holds |
| RuleEngine.FiredRules | backend/src/utils/fraud_dashboard/routers/rule_engine.py:33-76 | every listed rule fires, and no more rules than the table holds are listed |
| RuleEngine.NoProfileNoAverageRule | backend/src/utils/fraud_dashboard/routers/rule_engine.py:27-34 | without a customer profile HIGH_AMOUNT_VS_AVG never fires |
| RuleEngine.AbsoluteRuleMonotone | backend/src/utils/fraud_dashboard/routers/rule_engine.py:70 | once the amount exceeds 200000, ABSOLUTE_HIGH_AMOUNT fires for every larger amount, whatever the other inputs |
| RuleEngine.SeveritiesEmitted | backend/src/utils/fraud_dashboard/routers/rule_engine.py:38-74 | every emitted severity is high or medium, never low |
| Prediction.ApplyBusinessRules | backend/src/utils/fraud_dashboard/routers/prediction.py:188-230 | reasons are those of the fired legacy rules in rule order; the score is their weight sum capped at 1.0 and lies in [0,1]; triggered iff reasons is non-empty |
| Prediction.HighAmountRule | backend/src/utils/fraud_dashboard/routers/prediction.py:206-210 | adds 0.4 and its reason iff rule 1 fires, keeping the accumulator consistent |
| Prediction.RiskyChannelRule | backend/src/utils/fraud_dashboard/routers/prediction.py:212-216 | adds 0.3 iff KYC is 0 on an international or web channel |
| Prediction.OddHourLegacyRule | backend/src/utils/fraud_dashboard/routers/prediction.py:218-222 | adds 0.2 iff the hour is in 2..4 |
| Prediction.NewAccountLegacyRule | backend/src/utils/fraud_dashboard/routers/prediction.py:224-228 | adds 0.3 iff age < 5 and amount > 10000 |
| Prediction.Fire | backend/src/utils/fraud_dashboard/routers/prediction.py:208-210 | setting the flag, adding the weight and appending the reason keeps the accumulator equal to the fired rules |
| Prediction.LegacyReasons | backend/src/utils/fraud_dashboard/routers/prediction.py:196-228 | one reason per fired legacy rule: the i-th reason is the reason sentence of the i-th fired rule |
| Prediction.LegacyStepsAreFired | backend/src/utils/fraud_dashboard/routers/prediction.py:206-228 | the four steps in sequence fire exactly the legacy rules that hold |
| Prediction.LegacySumBounds | backend/src/utils/fraud_dashboard/routers/prediction.py:209-227 | n fired legacy rules weigh between 0.2n and 0.4n |
| Prediction.LegacyFiredMembership | backend/src/utils/fraud_dashboard/routers/prediction.py:206-228 | a legacy rule is reported iff its condition holds |
| Prediction.LegacyInRuleOrder | backend/src/utils/fraud_dashboard/routers/prediction.py:206-228 | legacy reasons appear in rule order, each at most once |
| Prediction.HighAmountRuleIsThreshold | backend/src/utils/fraud_dashboard/routers/prediction.py:207 | with the placeholder average 0.12, rule 1 fires iff the amount exceeds 1000 |
| Prediction.SeverityWeight | backend/src/utils/fraud_dashboard/routers/prediction.py:282-289 | high weighs 0.5, medium 0.3, and any other severity 0.1 |
| Prediction.SumSeveritiesBounds | backend/src/utils/fraud_dashboard/routers/prediction.py:287-289 | n details weigh between 0.1n and 0.5n |
| Prediction.EngineScore | backend/src/utils/fraud_dashboard/routers/prediction.py:281-292 | the loop computes the severity sum capped at 1.0, which lies in [0,1] and is at least 0.1 when a rule fired |
| Prediction.RunEngine | backend/src/utils/fraud_dashboard/routers/prediction.py:268-295 | nothing when the engine is absent or raised, else its lists and capped score; the score is in [0,1] and the lists have equal length |
| Prediction.EngineScoreBounded | backend/src/utils/fraud_dashboard/routers/prediction.py:291-295 | the engine stage score is in [0,1] |
| Prediction.PayloadNeverRaises | backend/src/utils/fraud_dashboard/routers/prediction.py:275-279 | with the request payload and no profile, the engine never raises and never fires the average rule |
| Prediction.EngineWeightsOfFired | backend/src/utils/fraud_dashboard/routers/prediction.py:281-289 | engine rules weigh 0.3 to 0.5 each, because their severities are high or medium |
| Prediction.Fuse | backend/src/utils/fraud_dashboard/routers/prediction.py:301-305 | rule_score is the larger of legacy and engine; final_score is at least each input and equal to one of them; is_fraud iff final_score >= 0.5 |
| Prediction.FraudIffAnyScore | backend/src/utils/fraud_dashboard/routers/prediction.py:301-305 | fraud iff any one of the three scores reaches 0.5 |
| Prediction.FusedScoreBounded | backend/src/utils/fraud_dashboard/routers/prediction.py:301-304 | scores in [0,1] fuse to a score in [0,1] |
| Prediction.MlReason | backend/src/utils/fraud_dashboard/routers/prediction.py:308-312 | the ML sentence is the fraud sentence iff the classifier's label is fraud, else the "no ML alerts" sentence |
| Prediction.EngineReasons | backend/src/utils/fraud_dashboard/routers/prediction.py:298 | the reasons of exactly those engine details whose reason is non-empty, in the details' order |
| Prediction.EngineReasonsKeepAll | backend/src/utils/fraud_dashboard/routers/prediction.py:298 | since every engine reason is non-empty, none is dropped |
| Prediction.RuleReasons | backend/src/utils/fraud_dashboard/routers/prediction.py:298-299 | the legacy reasons come first and the non-empty engine reasons follow them, at most one per engine detail |
| Prediction.CombineReasons | backend/src/utils/fraud_dashboard/routers/prediction.py:319-325 | the ML reason followed by the rule reasons, or by the "no rule-based alerts" sentence when there are none; always at least two entries, starting with the ML reason |
| Prediction.AlertFor | backend/src/utils/fraud_dashboard/routers/prediction.py:365-376 | an alert is made iff the service is loaded and (final > 0.75 or fraud); its id is customer_id + "_" + timestamp and it names the transaction's customer; its reasons are the triggers, or the rule reasons when there are no triggers; it carries the score and details |
| Prediction.AlertIffFraud | backend/src/utils/fraud_dashboard/routers/prediction.py:366 | the alert condition is equivalent to the fraud verdict |
| Prediction.PredictAndSave | backend/src/utils/fraud_dashboard/routers/prediction.py:237-380 | a 503 "Model is not loaded." or "Database is not available." refusal comes before any scoring; otherwise the result is the staged pipeline |
| Prediction.Predict | backend/src/utils/fraud_dashboard/routers/prediction.py:237-380 | refused with status 503 exactly when the classifier or the collection is missing; an unparsable timestamp exactly when both are present and the timestamp does not parse; a prediction stores the payload and the clock reading |
| Prediction.Score | backend/src/utils/fraud_dashboard/routers/prediction.py:262-380 | always a prediction; the record stores the payload, the returned result and the clock reading; the rule reasons start with the legacy reasons; the explanation is passed through |
| Prediction.ScoreAndSave | backend/src/utils/fraud_dashboard/routers/prediction.py:262-380 | scoring, the stored record (with the clock reading as `processed_at`) and the alert follow the staged pipeline step by step |
| Prediction.ScoreFacts | backend/src/utils/fraud_dashboard/routers/prediction.py:301-380 | every scored request is predicted with a risk score in [0,1]; the record stores the returned result; fraud iff score >= 0.5; an alert is made iff the service is loaded and the verdict is fraud |
| Prediction.PredictedFacts | backend/src/utils/fraud_dashboard/routers/prediction.py:237-380 | the same facts for every request that is not refused |
| Prediction.ResultIgnoresAlertService | backend/src/utils/fraud_dashboard/routers/prediction.py:364-380 | the alert service's presence changes neither the returned result nor the stored record |
| Prediction.CombinedStartsWithMl | backend/src/utils/fraud_dashboard/routers/prediction.py:319-325 | the combined reasons of every answered request have at least two entries and start with the ML reason |
| Prediction.LegacyRulesAloneMakeFraud | backend/src/utils/fraud_dashboard/routers/prediction.py:301-312 | legacy weights of 0.5 or more give a fraud verdict whatever the classifier says, with the classifier's own ML sentence |
| Prediction.FraudWithoutMlAlert | backend/src/utils/fraud_dashboard/routers/prediction.py:301-312 | a fraud verdict can come with the "No ML alerts were triggered." sentence |
| Prediction.NormalizeDocShape | backend/src/utils/fraud_dashboard/routers/prediction.py:401-415 | a history document loses `_id`, holds no ObjectId, gains `id` equal to the converted `_id` when that is truthy and it had none, and keeps every other key with its converted value |
| Prediction.ConvertedDocFacts | backend/src/utils/fraud_dashboard/routers/prediction.py:402 | a converted document holds no ObjectId, and its `_id` is the converted `_id` |
| Prediction.ClampPage | backend/src/utils/fraud_dashboard/routers/prediction.py:388 | the page is at least 1: a page of 1 or more is kept, anything below 1 becomes 1 |
| Prediction.ClampLimit | backend/src/utils/fraud_dashboard/routers/prediction.py:389 | the limit is in 1..200: a limit in range is kept, one above 200 becomes 200, one below 1 becomes 1 |
| Prediction.NormalizeDoc | backend/src/utils/fraud_dashboard/routers/prediction.py:401-415 | the document loses `_id`, keeps every other key holding its ObjectId-converted value, and gains `id` exactly when it had none and the converted `_id` is truthy, holding that converted `_id` |
| Prediction.GetPredictionHistory | backend/src/utils/fraud_dashboard/routers/prediction.py:384-423 | 503 iff the collection is missing; otherwise page and limit are clamped, total is the stored count, data is the converted window of the clamped size starting at (page-1)·limit, and has_next iff skip + returned < total |
| Prediction.NormalizedDocs | backend/src/utils/fraud_dashboard/routers/prediction.py:401-415 | each cursor document is normalised, in order |
| Prediction.NormalizeRange | backend/src/utils/fraud_dashboard/routers/prediction.py:393-415 | the cursor loop returns the normalised documents skip..stop |
| Prediction.CursorConverted | backend/src/utils/fraud_dashboard/routers/prediction.py:401-415 | the normalised slice is the converted window |
| StorageUtils.IsNonEmptyString | frontend/src/utils/storageUtils.js:274-276 | true iff the value is a string that is not all whitespace |
| StorageUtils.IsBoolean | frontend/src/utils/storageUtils.js:283-285 | true iff `typeof` the value is "boolean" |
| StorageUtils.IsPositiveNumber | frontend/src/utils/storageUtils.js:294-299 | true iff the value is a non-NaN number with min <= value, and value <= max when a max is given (no max means Infinity) |
| StorageUtils.IsOneOf | frontend/src/utils/storageUtils.js:307-309 | a non-array list accepts nothing; a primitive value is accepted iff the list is an array containing it |
| StorageUtils.IsPlainObject | frontend/src/utils/storageUtils.js:316-321 | true iff `typeof` is "object" and the value is not null, not an array and not an exotic object such as a Date |
| StorageUtils.DefaultBoundsAcceptNonNegatives | frontend/src/utils/storageUtils.js:294-299 | with the default bounds, exactly the non-NaN numbers >= 0 pass; 0 passes; -1 and NaN fail |
| StorageUtils.OneOfStrings | frontend/src/utils/storageUtils.js:307-309 | a non-array list accepts nothing; a string is in a string list iff it is one of its names |
| StorageUtils.StrArray | frontend/src/utils/storageUtils.js:307-309 | a list of names is an array whose i-th entry is the string of the i-th name |
| StorageUtils.FullPath | frontend/src/utils/storageUtils.js:337 | the path is `path.key`, or `key` at the top level |
| StorageUtils.ValidateSchema | frontend/src/utils/storageUtils.js:329-391 | errors are the schema errors in key order; isValid iff there are no errors; a non-plain-object gives exactly ["Value must be an object"] |
| StorageUtils.ValidateProperties | frontend/src/utils/storageUtils.js:370-372 | the forEach appends the errors of every listed key in order |
| StorageUtils.ValidateProperty | frontend/src/utils/storageUtils.js:336-381 | appends the required, type and oneOf errors of one property |
| StorageUtils.ValidateType | frontend/src/utils/storageUtils.js:349-376 | the type switch appends the type errors, recursing into nested objects |
| StorageUtils.SchemaErrors | frontend/src/utils/storageUtils.js:329-391 | a value that is not a plain object gives exactly ["Value must be an object"]; a plain object gives none iff no property rule reports one |
| StorageUtils.PropsErrors | frontend/src/utils/storageUtils.js:370-372 | a list of rules reports nothing iff every single rule reports nothing |
| StorageUtils.PropErrors | frontend/src/utils/storageUtils.js:336-381 | a missing value reports nothing iff it is optional; a present one reports nothing iff its type and oneOf checks report nothing |
| StorageUtils.TypeErrors | frontend/src/utils/storageUtils.js:349-376 | a non-object type reports at most one error; a string rule passes iff the value is a string that is not all whitespace, a boolean rule iff the value is a boolean; a non-plain value for an object type reports one error, and a plain one reports none iff its nested rules report none |
| StorageUtils.PropsErrorsStep | frontend/src/utils/storageUtils.js:370-372 | one forEach step appends the next rule's errors to the running list |
| StorageUtils.MissingValueErrors | frontend/src/utils/storageUtils.js:340-347 | a missing required value gives exactly "<path> is required" and is not checked further; a missing optional value gives nothing |
| StorageUtils.UnboundedNumberRejectsNegative | frontend/src/utils/storageUtils.js:294-364 | a number rule without bounds still rejects negatives |
| StorageUtils.PropErrorsCarryPath | frontend/src/utils/storageUtils.js:337-380 | every error of a property starts with its dotted path |
| StorageUtils.TypeErrorsCarryPath | frontend/src/utils/storageUtils.js:349-376 | every type error, nested ones included, starts with the property's path |
| StorageUtils.PropsErrorsCarryPath | frontend/src/utils/storageUtils.js:366-372 | nested errors start with the parent path |
| StorageUtils.UnlistedKeysIgnored | frontend/src/utils/storageUtils.js:370-385 | a key the schema does not name never changes the errors |
| StorageUtils.InvalidKeyIffEmptyOrNotString | frontend/src/utils/storageUtils.js:46-132 | a key is rejected iff it is not a string or is the empty string (a whitespace-only key is accepted) |
| StorageUtils.Storage.constructor | frontend/src/utils/storageUtils.js:22 | the memory fallback starts empty |
| StorageUtils.Storage.Get | frontend/src/utils/storageUtils.js:46-62 | an invalid key gives the default; otherwise the stored value, or the default when the key is absent |
| StorageUtils.Storage.Set | frontend/src/utils/storageUtils.js:84-99 | an invalid key returns false and changes nothing; otherwise the key maps to the value and the call returns true |
| StorageUtils.Storage.Remove | frontend/src/utils/storageUtils.js:128-140 | an invalid key returns false and changes nothing; otherwise the key is removed and the call returns true |
| StorageUtils.SetThenGet | frontend/src/utils/storageUtils.js:61-97 | reading after writing gives the written value, and other keys are untouched |
| Settings.SettingsReducer | frontend/src/contexts/SettingsContext.jsx:69-87 | RESET_SETTINGS gives the defaults from any state; an unknown action returns the state unchanged |
| Settings.SetFieldChangesOnlyThatField | frontend/src/contexts/SettingsContext.jsx:71-74 | SET_THEME and SET_LANGUAGE change only their own field |
| Settings.UpdatePreferencesOverlays | frontend/src/contexts/SettingsContext.jsx:75-79 | payload keys override, other preference keys are kept, and other fields are unchanged |
| Settings.LoadSettingsOverlays | frontend/src/contexts/SettingsContext.jsx:82-83 | payload fields override, and the others are kept |
| Settings.ValidateSettings | frontend/src/contexts/SettingsContext.jsx:90-153 | no object gives the defaults, no errors and isValid false; a passing schema returns the input with isValid true; otherwise the repaired record with the schema errors; the returned settings are always well formed |
| Settings.Repaired | frontend/src/contexts/SettingsContext.jsx:108-146 | the corrected record has exactly the fields theme, language and preferences, and its preferences are an object |
| Settings.RepairPreferences | frontend/src/contexts/SettingsContext.jsx:119-146 | the successive assignments compute the repaired preferences |
| Settings.RepairedPreferences | frontend/src/contexts/SettingsContext.jsx:119-146 | the repaired preferences have exactly the default keys |
| Settings.KeepAcceptable | frontend/src/contexts/SettingsContext.jsx:122-145 | one guarded assignment extends the repaired prefix by one preference |
| Settings.RepairStep | frontend/src/contexts/SettingsContext.jsx:122-145 | a key not yet visited still holds its default, and assigning it extends the repaired prefix |
| Settings.AllRepaired | frontend/src/contexts/SettingsContext.jsx:122-146 | after all eight keys the record is the repaired preferences |
| Settings.PreferenceOrderVisitsOnce | frontend/src/contexts/SettingsContext.jsx:122-145 | each preference key is a default key, visited once |
| Settings.DefaultsAreWellFormed | frontend/src/contexts/SettingsContext.jsx:5-18 | the defaults satisfy the settings schema's constraints |
| Settings.DefaultPreferencesWellFormed | frontend/src/contexts/SettingsContext.jsx:8-17 | the default preferences are well formed |
| Settings.BooleanDefaults | frontend/src/contexts/SettingsContext.jsx:8-17 | every boolean preference has a boolean default |
| Settings.RepairedPreferencesWellFormed | frontend/src/contexts/SettingsContext.jsx:119-146 | repaired preferences are always well formed |
| Settings.RepairedEntries | frontend/src/contexts/SettingsContext.jsx:108-146 | theme and language are kept iff in their lists, else "system" and "en"; preferences are repaired when they are an object, else defaulted |
| Settings.RepairedIsWellFormed | frontend/src/contexts/SettingsContext.jsx:108-146 | every repaired record is well formed |
| Settings.RepairIdempotent | frontend/src/contexts/SettingsContext.jsx:108-146 | repairing a repaired record changes nothing |
| Settings.RepairKeepsWellFormedPreferences | frontend/src/contexts/SettingsContext.jsx:119-146 | well-formed preferences with the default keys are kept as they are |
| Settings.OneOfStringArray | frontend/src/contexts/SettingsContext.jsx:111-117 | isOneOf over a string list means a string among the names |
| Settings.FlagRuleErrors | frontend/src/contexts/SettingsContext.jsx:56-63 | a required boolean rule passes iff the value is a boolean |
| Settings.IntervalRuleErrors | frontend/src/contexts/SettingsContext.jsx:58 | the refreshInterval rule passes iff it is a number in [5000, 300000] |
| Settings.ChoiceRuleErrors | frontend/src/contexts/SettingsContext.jsx:42-51 | a required string rule with a name list passes iff the value is one of the names |
| Settings.ChoiceNamesStartVisibly | frontend/src/contexts/SettingsContext.jsx:44-49 | the theme and language names are non-empty and do not start with whitespace |
| Settings.FlagRulesIff | frontend/src/contexts/SettingsContext.jsx:56-63 | the seven boolean rules pass iff every boolean preference is a boolean |
| Settings.PreferenceRulesPassTogether | frontend/src/contexts/SettingsContext.jsx:55-64 | all eight preference rules pass iff each one does |
| Settings.SettingsRulesPassTogether | frontend/src/contexts/SettingsContext.jsx:41-66 | all three top-level rules pass iff each one does |
| Settings.PreferencesRuleErrors | frontend/src/contexts/SettingsContext.jsx:52-65 | the preferences rule passes iff the preferences are well formed |
| Settings.SchemaAcceptsExactlyWellFormed | frontend/src/contexts/SettingsContext.jsx:41-66 | the schema reports no errors iff the settings are well formed, so a repaired record re-validates as valid |
| Settings.EffectiveTheme | frontend/src/contexts/SettingsContext.jsx:291-297 | light and dark are returned as they are; system resolves to dark iff the system prefers dark; a listed theme always gives light or dark |
| Translation.Walk | frontend/src/hooks/useTranslation.js:20-27 | an empty path yields the table; a segment that cannot be descended yields not found |
| Translation.WalkKeys | frontend/src/hooks/useTranslation.js:20-27 | the loop finds a value iff the walk does, and returns that value |
| Translation.Resolved | frontend/src/hooks/useTranslation.js:29-32 | a key resolves iff its dotted walk ends at a string |
| Translation.T | frontend/src/hooks/useTranslation.js:13-56 | the current language's string, else English's when the language is not en, else the fallback, which defaults to the key |
| Translation.HasTranslation | frontend/src/hooks/useTranslation.js:59-72 | true iff the key resolves in the current-language table, with no English retry |
| Translation.HasTranslationAgreesWithT | frontend/src/hooks/useTranslation.js:59-72 | when hasTranslation holds, t returns that string |
| Translation.UnknownLanguageIsEnglish | frontend/src/hooks/useTranslation.js:17-61 | an unknown language translates exactly as English |
| Translation.SingleSegmentKey | frontend/src/hooks/useTranslation.js:14-32 | a key without dots looks up one top-level string |
| Text.Lower | frontend/DashboardLayout.jsx:21 | lower-casing keeps the length and leaves no upper-case letter |
| Text.LowerIdempotent | frontend/DashboardLayout.jsx:21 | lower-casing twice equals lower-casing once |
| Text.Split | frontend/src/hooks/useTranslation.js:14 | the key splits into at least one segment, no segment holds '.', and a key without '.' is one segment |
| Text.JoinSplit | frontend/src/hooks/useTranslation.js:14 | joining the segments back with the separator gives the key |
| Translation.Translate | frontend/src/hooks/useTranslation.js:13-56 | the current language's string when it resolves; else English's when the language is not en; else the fallback, or the key when none is given |
| Pagination.Range | frontend/src/components/Pagination.tsx:18-21 | 1..n as a list |
| Pagination.PageWindow | frontend/src/components/Pagination.tsx:13-50 | the pushes build the window function |
| Pagination.Window | frontend/src/components/Pagination.tsx:13-50 | nothing iff totalPages <= 1; otherwise 2 to 7 entries, and at most 5 on mobile |
| Pagination.WindowShape | frontend/src/components/Pagination.tsx:13-50 | nothing iff totalPages <= 1; exactly [1..n] when n fits; otherwise it starts at 1, ends at n, never has two adjacent ellipses on desktop, and has at most 7 entries (5 on mobile) |
| Pagination.WindowOrdered | frontend/src/components/Pagination.tsx:24-48 | for a valid current page, the page numbers are strictly increasing within [1, n] and include the current page |
| Pagination.AllPagesOrdered | frontend/src/components/Pagination.tsx:18-21 | the full list is ordered |
| Pagination.SmallWindowOrdered | frontend/src/components/Pagination.tsx:18-21 | a short list is ordered and holds the current page |
| Pagination.DesktopWindowOrdered | frontend/src/components/Pagination.tsx:33-48 | the desktop window is ordered and each ellipsis hides at least one page |
| Pagination.DesktopWindowHasPage | frontend/src/components/Pagination.tsx:33-48 | the desktop window holds the current page |
| Pagination.MobileWindowOrdered | frontend/src/components/Pagination.tsx:23-31 | the mobile window is ordered and holds the current page |
| Pagination.LayoutOrdered | frontend/src/components/Pagination.tsx:34-48 | each of the three desktop layouts is ordered, with ellipses hiding pages |
| Pagination.OrderedByEntries | frontend/src/components/Pagination.tsx:24-48 | an entry-by-entry check implies the window is ordered |
| Pagination.DesktopEllipsesHidePages | frontend/src/components/Pagination.tsx:33-48 | every desktop ellipsis stands for at least one hidden page |
| Pagination.MobileEllipsisCanHideNothing | frontend/src/components/Pagination.tsx:30 | on mobile, page 2 of 4 gives 1 … 2 … 4, whose first ellipsis hides no page |
| Pagination.NavigationStaysInRange | frontend/src/components/Pagination.tsx:58-101 | an enabled Previous or Next requests a page within [1, n]; Previous is disabled iff on page 1 |
| Pagination.PreviousEnabled | frontend/src/components/Pagination.tsx:58-59 | an enabled Previous button on a valid page requests page 1 or later |
| Pagination.NextEnabled | frontend/src/components/Pagination.tsx:100-101 | an enabled Next button on a valid page requests a page no later than the last |
| Responsive.GetViewportSize | frontend/src/hooks/useResponsive.js:69-76 | each class holds exactly on its lower-inclusive width band: below 640, then 768, 1024, 1280 and 1536 |
| Responsive.InitialViewport | frontend/src/hooks/useResponsive.js:16-20 | mobile without a window, else the class of the inner width |
| Responsive.ViewportMonotone | frontend/src/hooks/useResponsive.js:69-76 | a wider width never yields a smaller class |
| Responsive.ExactlyOneFlag | frontend/src/hooks/useResponsive.js:56-59 | exactly one of isMobile, isTablet and isDesktop holds |
| Responsive.FlagsByWidth | frontend/src/hooks/useResponsive.js:57-75 | isMobile iff width < 768; isTablet iff width is in [768, 1024); isDesktop iff width >= 1024 |
| Signup.ValidatePassword | frontend/src/components/SignupPage.jsx:22-35 | each flag means what its name says; isValid is exactly their conjunction |
| Signup.HasCharInExtended | frontend/src/components/SignupPage.jsx:24-26 | a character class found in a string is still found after text is added around it |
| Signup.StrongPasswordExtends | frontend/src/components/SignupPage.jsx:22-35 | adding text around a strong password keeps it strong |
| Signup.StrongPasswordExample | frontend/src/components/SignupPage.jsx:22-35 | witness that the policy can be met: "Passw0rd" is strong |
| Signup.MissingUpperIsWeak | frontend/src/components/SignupPage.jsx:24 | a password without an upper-case letter is weak |
| Signup.MissingLowerIsWeak | frontend/src/components/SignupPage.jsx:25 | a password without a lower-case letter is weak |
| Signup.MissingDigitIsWeak | frontend/src/components/SignupPage.jsx:26 | a password without a digit is weak |
| Signup.ShortIsWeak | frontend/src/components/SignupPage.jsx:23 | a password shorter than eight characters is weak |
| Signup.SubmitAcceptsExactly | frontend/src/components/SignupPage.jsx:47-60 | submission proceeds iff name and email are non-empty, the passwords match and the password is strong |
| Signup.SubmitError | frontend/src/components/SignupPage.jsx:47-55 | the only messages are the three checks' messages; the mismatch message iff every field is filled and the passwords differ; the weak-password message iff every field is filled, they match and the password is weak |
| Signup.SubmitCheckOrder | frontend/src/components/SignupPage.jsx:47-55 | an empty field reports "Please fill in all fields" before a mismatch is reported |
| Signup.FailureMessage | frontend/src/components/SignupPage.jsx:89 | the error is the server message, or the fallback when that message is empty |
| Signup.Notification | frontend/src/components/SignupPage.jsx:76-81 | the parent gets the user's email, the full name or else the form name, and the role or else a non-empty default |
| Signup.SignupForm.constructor | frontend/src/components/SignupPage.jsx:8-17 | the form starts empty, with no error, not loading and nothing sent |
| Signup.SignupForm.Change | frontend/src/components/SignupPage.jsx:98-101 | sets one field and clears the error; everything else is unchanged |
| Signup.SignupForm.Submit | frontend/src/components/SignupPage.jsx:42-93 | the first failing check sets its message and sends nothing; otherwise exactly one request carries name, email and password, loading ends false, a failure sets the error, and success notifies the parent and navigates to /dashboard |
| TransactionManagement.NormalizeTransaction | frontend/TransactionManagement.jsx:151-202 | defined iff the record is not nullish and the channel lower-cases; id is the first truthy of id, transaction_id, _id, else 'UNKNOWN'; customerId the first truthy of customer_id, customerId, else 'N/A'; amount the first of amount, transaction_amount, txn_amount that is not null or undefined, else 0; timestamp and type follow their own chains; status is a truthy status, else 'fraud' or 'completed' by isFraud; riskScore is a numeric risk_score, else a numeric riskScore, else 0; the channel is lower-cased; isFraud follows is_fraud, then isFraud, then status; ruleReasons is the array or [] |
| TransactionManagement.NormalizedChannelIsLowerCase | frontend/TransactionManagement.jsx:156 | no normalised channel contains an upper-case letter |
| TransactionManagement.NormalizeAll | frontend/TransactionManagement.jsx:90-92 | the batch is normalised element-wise, and fails iff one record fails |
| TransactionManagement.BatchRecords | frontend/TransactionManagement.jsx:83-92 | the records are the first truthy of items, transactions, data, the answer itself and [], kept only when it is an array: an items array is taken, an array answer is itself, a missing answer gives none |
| TransactionManagement.Ids | frontend/TransactionManagement.jsx:108 | every item's id is in the id set |
| TransactionManagement.IdsMembership | frontend/TransactionManagement.jsx:108 | an id is in the set iff some item carries it |
| TransactionManagement.IdsAppend | frontend/TransactionManagement.jsx:112-113 | appending an item adds its id |
| TransactionManagement.IdsOfCons | frontend/TransactionManagement.jsx:108-115 | the id set of a list with a head item added in front is that item's id plus the rest's ids |
| TransactionManagement.Cap | frontend/TransactionManagement.jsx:105-116 | the slice is a prefix of the list: the whole list when it holds at most 200 items, exactly its first 200 otherwise |
| TransactionManagement.Merged | frontend/TransactionManagement.jsx:103-117 | the new list holds at most 200 items; page 1 is a prefix of the batch; a later page keeps a previous list of at most 200 as its prefix |
| TransactionManagement.NewItems | frontend/TransactionManagement.jsx:108-115 | only batch items whose id was not seen before, at most one per batch item |
| TransactionManagement.CountCoversList | frontend/TransactionManagement.jsx:103-122 | a count that covered the previous list covers the merged one |
| TransactionManagement.MergePage | frontend/TransactionManagement.jsx:103-117 | the forEach over the batch computes the merge |
| TransactionManagement.NewItemsAreNew | frontend/TransactionManagement.jsx:110-115 | appended items have unseen ids, are distinct from each other and come from the batch |
| TransactionManagement.NewItemsCoverBatch | frontend/TransactionManagement.jsx:110-115 | afterwards every batch id has been seen |
| TransactionManagement.LaterPageKeepsPrefix | frontend/TransactionManagement.jsx:108-116 | a later page keeps the previous list as a prefix, stays within 200, and keeps ids distinct |
| TransactionManagement.TotalFetched | frontend/TransactionManagement.jsx:119-122 | on page 1 the count is the batch size, uncapped; on a later page it is the smaller of 200 and previous + batch |
| TransactionManagement.FirstPageCountIsUncapped | frontend/TransactionManagement.jsx:104-121 | for every first batch of more than 200 records the list holds exactly 200 while the count is larger |
| TransactionManagement.SearchStage | frontend/TransactionManagement.jsx:208-215 | defined iff every item's id is a string and, for each item whose id does not contain the term, its customerId is a string too (the `||` short-circuits); then an order-preserving filter on a case-insensitive id or customerId match |
| TransactionManagement.ApplyFilters | frontend/TransactionManagement.jsx:205-232 | the stages compute the filtered view |
| TransactionManagement.ViewIsSubsequence | frontend/TransactionManagement.jsx:206-227 | the view is an order-preserving subsequence holding an item iff it is in the list and passes both the search and the status filter; no filters keeps everything; an unknown status keeps nothing |
| TransactionManagement.View | frontend/TransactionManagement.jsx:206-227 | throws iff a search is set and some item makes the search throw; otherwise no longer than the list |
| TransactionManagement.ViewIsFilter | frontend/TransactionManagement.jsx:206-227 | the two stages together are one filter, by search and then status, of the list |
| TransactionManagement.NothingPasses | frontend/TransactionManagement.jsx:225 | an unknown status value rejects every item |
| TransactionManagement.TotalPages | frontend/TransactionManagement.jsx:267 | ceil(n/15), and 1 for an empty list |
| TransactionManagement.SliceIndex | frontend/TransactionManagement.jsx:268-271 | a slice bound in [0, len] is kept, one above len becomes len, a negative one counts back from len and stops at 0 |
| TransactionManagement.PageSlice | frontend/TransactionManagement.jsx:268-271 | a page holds at most 15 items, and a full page is exactly items[(page-1)·15 .. page·15] |
| TransactionManagement.PageSliceBounded | frontend/TransactionManagement.jsx:268-271 | a page holds at most 15 items, and a valid page of a non-empty list starts at item (page-1)·15 |
| TransactionManagement.PrevPage | frontend/TransactionManagement.jsx:283-285 | from a page above 1 moves back one page; from page 1 or below stays put |
| DashboardLayout.SearchFromMeaning | frontend/DashboardLayout.jsx:22-28 | the `||` chain answers true iff some field is a string containing the term and every field before it is a string, null or undefined; fields that are all strings or nullish never throw |
| DashboardLayout.SearchStage | frontend/DashboardLayout.jsx:22-28 | defined iff the test throws on no item, and then an order-preserving filter keeping the items the search accepts |
| DashboardLayout.Narrowed | frontend/DashboardLayout.jsx:32-72 | an active guarded stage is exactly the filter of its test, an inactive one keeps the list unchanged |
| DashboardLayout.AfterSearchDefined | frontend/DashboardLayout.jsx:31-72 | on a list without null or undefined items the later stages never throw, and their result is exactly the filter of the items passing every active stage |
| DashboardLayout.AfterSearchIsFilter | frontend/DashboardLayout.jsx:31-72 | the status, channel, amount and KYC stages together are one filter by all active lists |
| DashboardLayout.NarrowedIsFilter | frontend/DashboardLayout.jsx:32-72 | a guarded stage is the filter by "inactive, or passes the test" |
| DashboardLayout.AfterSearchNullish | frontend/DashboardLayout.jsx:31-72 | with a null or undefined item the first active later stage throws, and with none active the list passes through |
| DashboardLayout.StagedKeepsDefined | frontend/DashboardLayout.jsx:32-72 | a stage over a list without null or undefined items does not throw and keeps that list free of them |
| DashboardLayout.SearchedDefined | frontend/DashboardLayout.jsx:22-28 | a search that does not throw leaves no null or undefined item |
| DashboardLayout.Pipeline | frontend/DashboardLayout.jsx:16-75 | with no active filter the input comes back; with some filter active, a null or undefined item makes it throw |
| DashboardLayout.PipelineMeaning | frontend/DashboardLayout.jsx:16-75 | throws iff an active search throws on some item or a later stage is active while some item is null or undefined; otherwise the result is exactly the filter of the items that pass every active filter, in list order |
| DashboardLayout.HandleFilterChange | frontend/DashboardLayout.jsx:16-75 | the stage-by-stage rebinding of `filtered`, with its throws, computes the pipeline, whose meaning PipelineMeaning states |
| DashboardLayout.SearchIgnoresCase | frontend/DashboardLayout.jsx:21 | the search term's case does not matter |
| DashboardLayout.SearchMatchMeaning | frontend/DashboardLayout.jsx:22-28 | an item is kept iff it is not null or undefined and id, customerId, customer_id, channel or status holds a string containing the term, ignoring case, with no throwing field before it; a null or undefined item always throws |
| DashboardLayout.AmountStageBounds | frontend/DashboardLayout.jsx:55-62 | with numeric bounds, kept iff min (0 by default) <= amount <= max (no limit by default) |
| DashboardLayout.NonNumericBoundKeepsNothing | frontend/DashboardLayout.jsx:58-60 | a set bound that `Number()` reads as NaN keeps nothing |
| Js.ToNumber | frontend/DashboardLayout.jsx:57-58 | every value becomes a number or NaN; a blank string is 0 |
| Js.ToNumberReadsInteger | frontend/DashboardLayout.jsx:57-58 | a string of decimal digits reads as its value |
| Js.ToNumberReadsFraction | frontend/DashboardLayout.jsx:57-58 | a string "digits.digits" reads as its decimal value |
| Js.ToNumberReadsNegative | frontend/DashboardLayout.jsx:57-58 | a string "-digits.digits" reads as minus its decimal value |
| Js.Trim | frontend/src/utils/storageUtils.js:275 | never longer than the input; empty iff the input is all whitespace; otherwise starts and ends with a character that is not whitespace |
| Js.TrimKeepsTight | frontend/src/utils/storageUtils.js:275 | a string with no whitespace at either end is unchanged |
| Js.FirstTruthyPicks | frontend/TransactionManagement.jsx:152-153 | an `a || b || … || fallback` chain gives the first truthy field, or the fallback when none is truthy |
| Js.FirstDefinedPicks | frontend/TransactionManagement.jsx:154-155 | an `a ?? b ?? … ?? fallback` chain gives the first field that is not null or undefined, or the fallback |
| Js.DecimalBoundIsRead | frontend/DashboardLayout.jsx:57-59 | witness that a decimal bound is read: "99.5" is the number 99.5 |
| DashboardLayout.BothKycStatesKeepAll | frontend/DashboardLayout.jsx:65-72 | selecting Verified and Pending keeps every item |

## Left out

- The classifier (joblib model loading, `predict`, `predict_proba`) is an opaque library call. Its label and probability are inputs (`Prediction.Classifier`).
- The Gemini explanation is an external model call. The explanation is an arbitrary input string.
- The clock reading `datetime.now()` stored as `processed_at` is the `now` input of `Prediction.Predict`.
- ISO 8601 parsing by `fromisoformat` is a library call. The parsed hour, day and weekday are an input. A failed parse is the `InvalidTimestamp` outcome, which stands for the uncaught error.
- MongoDB and Redis I/O: `insert_one` becomes the returned record value, and `save_alert` becomes the returned alert value. The alert's exception handler has nothing left to catch, so the result cannot change (`Prediction.ResultIgnoresAlertService`).
- Floating point: scores are exact reals, so rounding in the score sums and percent formatting are not modelled.
- RuleEngine.Reason: the float amount and the customer average appear as the placeholders `{amount}` and `{avg}`, because float formatting is not modelled; the integer hour and account age are rendered in decimal.
- `Text.Lower` lower-cases ASCII letters only. Unicode case mapping is not modelled.
- JavaScript infinities, `-0` and UTF-16 string lengths are not modelled. `Js.ToNumber` reads a trimmed string that is empty or a signed decimal literal: digits with at most one point and at least one digit, so ".5" and "5." are read. Exponents, hexadecimal, octal and binary literals and "Infinity" are NaN here.
- Js.ToNumber: every array is NaN here. JavaScript converts an array through its string form, so `Number([5])` is 5 and `Number([])` is 0.
- Js.ToNumber: every exotic object, a Date included, is NaN here. JavaScript reads a Date as its time value, so in the code an item whose amount is a Date passes or fails the DashboardLayout amount stage by that value (`DashboardLayout.AmountStageBounds`, `DashboardLayout.PipelineMeaning`).
- DashboardLayout.NonNumericBoundKeepsNothing: a bound such as "1e3" or "0x10", which JavaScript reads as a number, counts here as NaN, so the lemma covers those bounds too although in the code they filter normally.
- Browser storage: `localStorage`, JSON serialisation, quota handling and `clearOldEntries` are browser I/O. `StorageUtils.Storage` models only the key guards and the in-memory fallback map.
- The settings provider's load and save effects, and the DOM effect that applies the theme, are browser I/O. `matchMedia` is the `prefersDark` input of `Settings.EffectiveTheme`.
- Translation.Walk: only plain objects are descended. In the code `k in value` also holds for an array and an index key such as "0" (or "length"), so a table holding arrays could resolve keys the model reports as missing. The locale files `en.json` and `es.json` are not part of this model.
- Settings.SettingsReducer: spreading a string or array payload would add its index entries ("0", "1", …); the model spreads only plain objects, so such a payload adds nothing here.
- Settings.ValidateSettings: the repair is modelled with value semantics. In the code, `{ ...defaultSettings }` is a shallow copy, so the preference corrections also write into the shared default preferences object. That aliasing is not captured.
- The resize listener and its 150 ms debounce are timers. Only the initial classification and `getViewportSize` are modelled.
- The random mock data in the transaction screen is not modelled.
- TransactionManagement.MergePage: only the success branch of `fetchPage` is modelled. Its fallback branch, taken when the request fails, differs in two ways. On page 1 it replaces the list with all normalised mock items, without the 200 cap, and sets the count to their number. On later pages it appends the mock items without removing duplicate ids, then cuts the list to 200.
- The DashboardLayout date-range stage depends on JavaScript `Date` parsing and is not modelled.
- DashboardLayout.PipelineMeaning: an absent status, channel or KYC selection list is modelled as an empty list, and an absent amount range as two undefined bounds. A null or undefined item is modelled: it makes the search and every active later stage throw.
- TransactionManagement.ApplyFilters: the filter effect also resets the current page to 1 after every change of the search term, status or list. The model has no page state, so `TransactionManagement.View` and `TransactionManagement.PageSlice` take the page as a free input and this reset is not captured.
- TransactionManagement.NewItems: ids are compared by value. The code keeps ids in a JavaScript `Set`, which compares strings and numbers by value but object ids by reference, so two equal-looking object ids count as distinct there and as one here (`TransactionManagement.Ids`, `TransactionManagement.MergePage`).
- The statistics, charts and rendering of the transaction screen are display-only. `handleNext`'s follow-up fetch is I/O.
- Prediction.GetPredictionHistory: the stored documents are given already sorted by `processed_at`, because the sort happens in the database. The `isoformat` conversion of dates is not modelled.
