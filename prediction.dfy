/** The scoring half of `predict_and_save` and the paging of
    `get_prediction_history` (backend routers/prediction.py): the legacy
    business rules, the engine score, the fusion with the classifier, the
    reason lists, the alert decision and the history page. The classifier
    is an input (`mlFraud`, `mlScore`); so is the LLM explanation text. */
module Prediction {
  import opened Wrappers
  import opened Text
  import opened Collections
  import opened Features
  import opened RuleEngine
  import opened ObjectIds

  /** A classifier probability. */
  type Probability = r: real | 0.0 <= r <= 1.0

  function Max(a: real, b: real): real
  {
    if a >= b then a else b
  }

  function Min(a: real, b: real): real
  {
    if a <= b then a else b
  }

  // ---------------------------------------------------------------------
  // Legacy business rules (`apply_business_rules`)
  // ---------------------------------------------------------------------

  datatype LegacyRule = LegacyHighAmount | LegacyRiskyChannel | LegacyOddHour | LegacyNewAccount
  {
    function Weight(): real
    {
      match this
      case LegacyHighAmount => 0.4
      case LegacyRiskyChannel => 0.3
      case LegacyOddHour => 0.2
      case LegacyNewAccount => 0.3
    }

    function Reason(): string
    {
      match this
      case LegacyHighAmount => "Amount is more than 5× usual customer pattern."
      case LegacyRiskyChannel => "Unverified customer attempting risky channel transaction."
      case LegacyOddHour => "Transaction made at unusual time (2AM–4AM)."
      case LegacyNewAccount => "New account attempting high-value transaction."
    }

    function Rank(): int
    {
      match this
      case LegacyHighAmount => 0
      case LegacyRiskyChannel => 1
      case LegacyOddHour => 2
      case LegacyNewAccount => 3
    }
  }

  const LegacyOrder: seq<LegacyRule> :=
    [LegacyHighAmount, LegacyRiskyChannel, LegacyOddHour, LegacyNewAccount]

  const LegacyRiskyChannels: seq<string> := ["international", "web"]
  const LegacyAmountFloor: real := 1000.0
  const LegacyNewAccountAge: int := 5

  /** The condition of each legacy rule, read from the request and the
      engineered features. */
  predicate LegacyFires(r: LegacyRule, raw: RawTransaction, f: FeatureRecord)
  {
    match r
    case LegacyHighAmount =>
      raw.transactionAmount > Max(5.0 * f.avgTxnPerCustomer, LegacyAmountFloor)
    case LegacyRiskyChannel =>
      raw.kycVerified == 0 && Lower(raw.channel) in LegacyRiskyChannels
    case LegacyOddHour =>
      2 <= f.hour <= 4
    case LegacyNewAccount =>
      raw.accountAgeDays < LegacyNewAccountAge && raw.transactionAmount > HighAmountThreshold
  }

  /** The legacy rules that fire, in evaluation order. */
  function LegacyFired(raw: RawTransaction, f: FeatureRecord): seq<LegacyRule>
  {
    Filter(r => LegacyFires(r, raw, f), LegacyOrder)
  }

  /** Total weight of `rs`, summed left to right. */
  function SumWeights(rs: seq<LegacyRule>): real
  {
    if rs == [] then 0.0 else SumWeights(rs[..|rs| - 1]) + rs[|rs| - 1].Weight()
  }

  /** The reason sentences of `rs`, in order. */
  function LegacyReasons(rs: seq<LegacyRule>): (reasons: seq<string>)
    ensures |reasons| == |rs|
    ensures forall i :: 0 <= i < |rs| ==> reasons[i] == rs[i].Reason()
  {
    if rs == [] then []
    else
      var front := rs[..|rs| - 1];
      assert forall i :: 0 <= i < |front| ==> front[i] == rs[i];
      LegacyReasons(front) + [rs[|rs| - 1].Reason()]
  }

  /** `(rule_triggered, reasons, min(score, 1.0))` */
  datatype LegacyOutcome = LegacyOutcome(triggered: bool, reasons: seq<string>, score: real)

  method ApplyBusinessRules(raw: RawTransaction, f: FeatureRecord) returns (o: LegacyOutcome)
    ensures o.reasons == LegacyReasons(LegacyFired(raw, f))
    ensures o.score == Min(SumWeights(LegacyFired(raw, f)), 1.0)
    ensures o.triggered <==> o.reasons != []
    ensures 0.0 <= o.score <= 1.0
  {
    var reasons: seq<string> := [];
    var triggered := false;
    var score := 0.0;
    // the rules whose reason has been appended so far
    ghost var fired: seq<LegacyRule> := [];
    triggered, score, reasons, fired := HighAmountRule(raw, f, triggered, score, reasons, fired);
    triggered, score, reasons, fired := RiskyChannelRule(raw, f, triggered, score, reasons, fired);
    triggered, score, reasons, fired := OddHourLegacyRule(raw, f, triggered, score, reasons, fired);
    triggered, score, reasons, fired := NewAccountLegacyRule(raw, f, triggered, score, reasons, fired);
    LegacyStepsAreFired(raw, f);
    LegacySumBounds(fired);
    o := LegacyOutcome(triggered, reasons, Min(score, 1.0));
  }

  /** The running state of `apply_business_rules` after the rules `fired`. */
  ghost predicate Accumulated(triggered: bool, score: real, reasons: seq<string>, fired: seq<LegacyRule>)
  {
    reasons == LegacyReasons(fired) && score == SumWeights(fired) && (triggered <==> fired != [])
  }

  /** Rule 1: an amount above `max(5 * avg_txn_per_customer, 1000)`. */
  method HighAmountRule(raw: RawTransaction, f: FeatureRecord,
                        triggered: bool, score: real, reasons: seq<string>, ghost fired: seq<LegacyRule>)
    returns (triggered': bool, score': real, reasons': seq<string>, ghost fired': seq<LegacyRule>)
    requires Accumulated(triggered, score, reasons, fired)
    ensures Accumulated(triggered', score', reasons', fired')
    ensures fired' == LegacyStep(fired, LegacyHighAmount, raw, f)
  {
    triggered', score', reasons', fired' := triggered, score, reasons, fired;
    var amt := raw.transactionAmount;
    if amt > Max(5.0 * f.avgTxnPerCustomer, LegacyAmountFloor) {
      triggered', score', reasons', fired' := Fire(triggered, score, reasons, fired, LegacyHighAmount);
    }
  }

  /** Rule 2: no KYC on the international or web channel. */
  method RiskyChannelRule(raw: RawTransaction, f: FeatureRecord,
                          triggered: bool, score: real, reasons: seq<string>, ghost fired: seq<LegacyRule>)
    returns (triggered': bool, score': real, reasons': seq<string>, ghost fired': seq<LegacyRule>)
    requires Accumulated(triggered, score, reasons, fired)
    ensures Accumulated(triggered', score', reasons', fired')
    ensures fired' == LegacyStep(fired, LegacyRiskyChannel, raw, f)
  {
    triggered', score', reasons', fired' := triggered, score, reasons, fired;
    var kyc := raw.kycVerified;
    var channel := Lower(raw.channel);
    if kyc == 0 && channel in LegacyRiskyChannels {
      triggered', score', reasons', fired' := Fire(triggered, score, reasons, fired, LegacyRiskyChannel);
    }
  }

  /** Rule 3: an hour from 2 to 4. */
  method OddHourLegacyRule(raw: RawTransaction, f: FeatureRecord,
                           triggered: bool, score: real, reasons: seq<string>, ghost fired: seq<LegacyRule>)
    returns (triggered': bool, score': real, reasons': seq<string>, ghost fired': seq<LegacyRule>)
    requires Accumulated(triggered, score, reasons, fired)
    ensures Accumulated(triggered', score', reasons', fired')
    ensures fired' == LegacyStep(fired, LegacyOddHour, raw, f)
  {
    triggered', score', reasons', fired' := triggered, score, reasons, fired;
    var hour := f.hour;
    if 2 <= hour <= 4 {
      triggered', score', reasons', fired' := Fire(triggered, score, reasons, fired, LegacyOddHour);
    }
  }

  /** Rule 4: an account younger than 5 days moving more than 10000. */
  method NewAccountLegacyRule(raw: RawTransaction, f: FeatureRecord,
                              triggered: bool, score: real, reasons: seq<string>, ghost fired: seq<LegacyRule>)
    returns (triggered': bool, score': real, reasons': seq<string>, ghost fired': seq<LegacyRule>)
    requires Accumulated(triggered, score, reasons, fired)
    ensures Accumulated(triggered', score', reasons', fired')
    ensures fired' == LegacyStep(fired, LegacyNewAccount, raw, f)
  {
    triggered', score', reasons', fired' := triggered, score, reasons, fired;
    var amt := raw.transactionAmount;
    var age := raw.accountAgeDays;
    if age < LegacyNewAccountAge && amt > HighAmountThreshold {
      triggered', score', reasons', fired' := Fire(triggered, score, reasons, fired, LegacyNewAccount);
    }
  }

  /** One firing legacy rule: set the flag, add the weight, append the reason. */
  method Fire(triggered: bool, score: real, reasons: seq<string>, ghost fired: seq<LegacyRule>, r: LegacyRule)
    returns (triggered': bool, score': real, reasons': seq<string>, ghost fired': seq<LegacyRule>)
    requires Accumulated(triggered, score, reasons, fired)
    ensures fired' == fired + [r]
    ensures Accumulated(triggered', score', reasons', fired')
  {
    fired' := fired + [r];
    assert fired'[..|fired|] == fired;
    triggered' := true;
    score' := score + r.Weight();
    reasons' := reasons + [r.Reason()];
  }

  /** `fired` extended by `r` when `r` fires. */
  function LegacyStep(fired: seq<LegacyRule>, r: LegacyRule, raw: RawTransaction, f: FeatureRecord): seq<LegacyRule>
  {
    fired + (if LegacyFires(r, raw, f) then [r] else [])
  }

  /** Evaluating the four rules one after the other yields the filter of
      the rule table. */
  lemma LegacyStepsAreFired(raw: RawTransaction, f: FeatureRecord)
    ensures LegacyStep(LegacyStep(LegacyStep(LegacyStep([], LegacyHighAmount, raw, f),
              LegacyRiskyChannel, raw, f), LegacyOddHour, raw, f), LegacyNewAccount, raw, f)
            == LegacyFired(raw, f)
  {
    var p := r => LegacyFires(r, raw, f);
    var all := LegacyFired(raw, f);
    var s0 := LegacyStep([], LegacyHighAmount, raw, f);
    var s1 := LegacyStep(s0, LegacyRiskyChannel, raw, f);
    var s2 := LegacyStep(s1, LegacyOddHour, raw, f);
    var s3 := LegacyStep(s2, LegacyNewAccount, raw, f);
    assert [] + Filter(p, LegacyOrder) == all;
    FilterStep(p, [], s0, LegacyOrder, all);
    FilterStep(p, s0, s1, LegacyOrder[1..], all);
    FilterStep(p, s1, s2, LegacyOrder[2..], all);
    FilterStep(p, s2, s3, LegacyOrder[3..], all);
    assert s3 + [] == s3;
  }

  /** Every weight is positive, so the uncapped sum lies between 0.2 per
      rule and 0.4 per rule. */
  lemma {:induction false} LegacySumBounds(rs: seq<LegacyRule>)
    ensures 0.2 * |rs| as real <= SumWeights(rs) <= 0.4 * |rs| as real
  {
    if rs != [] {
      LegacySumBounds(rs[..|rs| - 1]);
    }
  }

  /** A legacy rule is reported exactly when its condition holds. */
  lemma LegacyFiredMembership(raw: RawTransaction, f: FeatureRecord, r: LegacyRule)
    ensures r in LegacyFired(raw, f) <==> LegacyFires(r, raw, f)
  {
    FilterMembership(r => LegacyFires(r, raw, f), LegacyOrder, r);
  }

  /** Reasons come out in rule order, each at most once. */
  lemma LegacyInRuleOrder(raw: RawTransaction, f: FeatureRecord)
    ensures StrictlyIncreasing(LegacyFired(raw, f), (r: LegacyRule) => r.Rank())
  {
    var rank := (r: LegacyRule) => r.Rank();
    assert StrictlyIncreasing(LegacyOrder, rank);
    FilterKeepsIncreasing(r => LegacyFires(r, raw, f), LegacyOrder, rank);
  }

  /** With the placeholder average 0.12 that `transform_features` writes,
      `max(5 * 0.12, 1000)` is 1000: the deviation rule is a plain
      amount threshold. */
  lemma HighAmountRuleIsThreshold(raw: RawTransaction, t: ParsedTime)
    ensures LegacyFires(LegacyHighAmount, raw, TransformFeatures(raw, t))
        <==> raw.transactionAmount > 1000.0
  {
  }

  // ---------------------------------------------------------------------
  // Engine score (`sev_map` and the loop over `rule_details`)
  // ---------------------------------------------------------------------

  /** `sev_map.get(sev, 0.1)` */
  function SeverityWeight(severity: string): (w: real)
    ensures w == 0.5 <==> severity == HighRiskRuleSeverity
    ensures w == 0.3 <==> severity == MediumRiskRuleSeverity
    ensures w == 0.1 <==> severity != HighRiskRuleSeverity && severity != MediumRiskRuleSeverity
  {
    if severity == HighRiskRuleSeverity then 0.5
    else if severity == MediumRiskRuleSeverity then 0.3
    else if severity == LowRiskRuleSeverity then 0.1
    else 0.1
  }

  /** Uncapped sum of the severity weights, left to right. */
  function SumSeverities(ds: seq<RuleDetail>): real
  {
    if ds == [] then 0.0 else SumSeverities(ds[..|ds| - 1]) + SeverityWeight(ds[|ds| - 1].severity)
  }

  /** Each record adds between 0.1 and 0.5. */
  lemma {:induction false} SumSeveritiesBounds(ds: seq<RuleDetail>)
    ensures 0.1 * |ds| as real <= SumSeverities(ds) <= 0.5 * |ds| as real
  {
    if ds != [] {
      SumSeveritiesBounds(ds[..|ds| - 1]);
    }
  }

  method EngineScore(details: seq<RuleDetail>) returns (score: real)
    ensures score == Min(SumSeverities(details), 1.0)
    ensures 0.0 <= score <= 1.0
    ensures details != [] ==> score >= 0.1
  {
    score := 0.0;
    for i := 0 to |details|
      invariant score == SumSeverities(details[..i])
    {
      assert details[..i + 1][..i] == details[..i];
      score := score + SeverityWeight(details[i].severity);
    }
    assert details[..|details|] == details;
    SumSeveritiesBounds(details);
    if score > 1.0 {
      score := 1.0;
    }
  }

  /** Triggers, details and score after step 4 of `predict_and_save`. */
  datatype EngineStage = EngineStage(triggers: seq<string>, details: seq<RuleDetail>, score: real)

  const NoEngine := EngineStage([], [], 0.0)

  /** The engine stage as a value: nothing when the engine module is not
      loaded or the evaluation raised, else its lists and capped score. */
  function EngineSpec(loaded: bool, e: EngineInput): EngineStage
  {
    if !loaded || Raises(e) then NoEngine
    else
      var ks := FiredRules(e);
      EngineStage(Names(ks), Details(ks, e), Min(SumSeverities(Details(ks, e)), 1.0))
  }

  method RunEngine(loaded: bool, e: EngineInput) returns (s: EngineStage)
    ensures s == EngineSpec(loaded, e)
    ensures 0.0 <= s.score <= 1.0
    ensures |s.triggers| == |s.details|
  {
    s := NoEngine;
    if loaded {
      var r := EvaluateRules(e);
      if r.Raised? {
        s := NoEngine;
      } else {
        var score := EngineScore(r.details);
        s := EngineStage(r.triggers, r.details, score);
      }
    }
  }

  /** What `predict_and_save` hands the engine: the request payload, the
      engineered features and no customer profile. */
  function PayloadInput(raw: RawTransaction, f: FeatureRecord): EngineInput
  {
    EngineInput(
      Present(raw.transactionAmount),
      Some(f.transactionAmount),
      Some(f.hour as int),
      Some(raw.channel),
      KycInt(raw.kycVerified),
      Present(raw.accountAgeDays),
      None)
  }

  /** From the prediction endpoint the engine never raises (the payload
      always carries an amount) and its average rule never fires (no
      profile is passed). */
  lemma PayloadNeverRaises(raw: RawTransaction, f: FeatureRecord)
    ensures !Raises(PayloadInput(raw, f))
    ensures HighAmountVsAvg !in FiredRules(PayloadInput(raw, f))
  {
    FiredMembership(PayloadInput(raw, f), HighAmountVsAvg);
  }

  /** Only "high" and "medium" severities reach the score, so each fired
      rule adds 0.3 or 0.5. */
  lemma {:induction false} EngineWeightsOfFired(ks: seq<RuleKey>, e: EngineInput)
    ensures 0.3 * |ks| as real <= SumSeverities(Details(ks, e)) <= 0.5 * |ks| as real
  {
    if ks != [] {
      var init := ks[..|ks| - 1];
      EngineWeightsOfFired(init, e);
      assert Details(ks, e)[..|ks| - 1] == Details(init, e);
    }
  }

  // ---------------------------------------------------------------------
  // Fusion and verdict
  // ---------------------------------------------------------------------

  const FraudThreshold: real := 0.5
  const AlertThreshold: real := 0.75

  datatype Decision = Decision(ruleScore: real, finalScore: real, isFraud: bool)

  /** `rule_score = max(legacy, engine)`, `final_score = max(ml, rule_score)`,
      `is_fraud = final_score >= 0.50`. */
  function Fuse(mlScore: real, legacyScore: real, engineScore: real): (d: Decision)
    ensures d.ruleScore >= legacyScore && d.ruleScore >= engineScore
    ensures d.ruleScore == legacyScore || d.ruleScore == engineScore
    ensures d.finalScore >= mlScore && d.finalScore >= legacyScore && d.finalScore >= engineScore
    ensures d.finalScore == mlScore || d.finalScore == legacyScore || d.finalScore == engineScore
    ensures d.isFraud <==> d.finalScore >= FraudThreshold
  {
    var rule := Max(legacyScore, engineScore);
    var final := Max(mlScore, rule);
    Decision(rule, final, final >= FraudThreshold)
  }

  /** The verdict is fraud exactly when one of the three scores reaches 0.5. */
  lemma FraudIffAnyScore(mlScore: real, legacyScore: real, engineScore: real)
    ensures Fuse(mlScore, legacyScore, engineScore).isFraud
        <==> mlScore >= 0.5 || legacyScore >= 0.5 || engineScore >= 0.5
  {
  }

  /** Scores in [0, 1] fuse to a score in [0, 1]. */
  lemma FusedScoreBounded(mlScore: Probability, legacyScore: real, engineScore: real)
    requires 0.0 <= legacyScore <= 1.0 && 0.0 <= engineScore <= 1.0
    ensures 0.0 <= Fuse(mlScore, legacyScore, engineScore).finalScore <= 1.0
  {
  }

  // ---------------------------------------------------------------------
  // Reasons
  // ---------------------------------------------------------------------

  const MlFraudReason: string := "ML model predicted high fraud probability."
  const MlClearReason: string := "No ML alerts were triggered."
  const NoRuleReason: string := "No rule-based alerts were triggered."

  /** The ML sentence follows the classifier's label, not the fused score. */
  function MlReason(mlFraud: bool): (r: string)
    ensures r == MlFraudReason <==> mlFraud
    ensures r == MlClearReason <==> !mlFraud
  {
    if mlFraud then MlFraudReason else MlClearReason
  }

  /** A detail whose reason is a non-empty string. */
  predicate HasReason(d: RuleDetail)
  {
    d.reason != ""
  }

  /** The reason of each detail, in order. */
  function ReasonsOf(ds: seq<RuleDetail>): seq<string>
  {
    seq(|ds|, i requires 0 <= i < |ds| => ds[i].reason)
  }

  lemma ReasonsOfConcat(a: seq<RuleDetail>, b: seq<RuleDetail>)
    ensures ReasonsOf(a + b) == ReasonsOf(a) + ReasonsOf(b)
  {
  }

  /** `[d.get("reason", "") for d in rule_details if d.get("reason")]`:
      exactly the reasons of the details that have one, in their order. */
  function EngineReasons(ds: seq<RuleDetail>): (reasons: seq<string>)
    ensures reasons == ReasonsOf(Filter(HasReason, ds))
    ensures |reasons| <= |ds|
    ensures forall i :: 0 <= i < |reasons| ==> reasons[i] != ""
  {
    if ds == [] then []
    else
      ReasonsOfConcat(if HasReason(ds[0]) then [ds[0]] else [], Filter(HasReason, ds[1..]));
      (if ds[0].reason != "" then [ds[0].reason] else []) + EngineReasons(ds[1..])
  }

  /** The engine's own records always carry a reason, so none is dropped. */
  lemma {:induction false} EngineReasonsKeepAll(ks: seq<RuleKey>, e: EngineInput)
    ensures |EngineReasons(Details(ks, e))| == |ks|
  {
    if ks != [] {
      EngineReasonsKeepAll(ks[1..], e);
      assert Details(ks, e)[1..] == Details(ks[1..], e);
    }
  }

  /** `legacy_rule_reasons + engine_rule_reasons` */
  function RuleReasons(legacyReasons: seq<string>, details: seq<RuleDetail>): (r: seq<string>)
    ensures |legacyReasons| <= |r| <= |legacyReasons| + |details|
    ensures r[..|legacyReasons|] == legacyReasons
    ensures r[|legacyReasons|..] == EngineReasons(details)
  {
    legacyReasons + EngineReasons(details)
  }

  /** `combined_reasons`: the ML sentence, then the rule reasons, or the
      "no rules" sentence when there are none. */
  method CombineReasons(mlReason: string, ruleReasons: seq<string>) returns (combined: seq<string>)
    ensures |combined| >= 2 && combined[0] == mlReason
    ensures ruleReasons != [] ==> combined == [mlReason] + ruleReasons
    ensures ruleReasons == [] ==> combined == [mlReason, NoRuleReason]
  {
    combined := [];
    combined := combined + [mlReason];
    if ruleReasons != [] {
      combined := combined + ruleReasons;
    } else {
      combined := combined + [NoRuleReason];
    }
  }

  /** `combined_reasons` as a value. */
  function Combined(mlReason: string, ruleReasons: seq<string>): seq<string>
  {
    [mlReason] + (if ruleReasons != [] then ruleReasons else [NoRuleReason])
  }

  // ---------------------------------------------------------------------
  // Alert
  // ---------------------------------------------------------------------

  datatype Alert = Alert(
    transactionId: string,
    customerId: string,
    riskScore: real,
    reasons: seq<string>,
    details: seq<RuleDetail>)

  /** The `alert_service.save_alert` call, if one is made. */
  function AlertFor(serviceLoaded: bool, raw: RawTransaction, d: Decision,
                    triggers: seq<string>, ruleReasons: seq<string>, details: seq<RuleDetail>): (a: Option<Alert>)
    ensures a.Some? <==> serviceLoaded && (d.finalScore > AlertThreshold || d.isFraud)
    ensures a.Some? ==> a.value.transactionId == raw.customerId + "_" + raw.timestamp && a.value.customerId == raw.customerId
    ensures a.Some? ==> a.value.reasons == (if triggers != [] then triggers else ruleReasons)
    ensures a.Some? ==> a.value.riskScore == d.finalScore && a.value.details == details
  {
    if serviceLoaded && (d.finalScore > AlertThreshold || d.isFraud) then
      Some(Alert(raw.customerId + "_" + raw.timestamp, raw.customerId, d.finalScore,
                 if triggers != [] then triggers else ruleReasons, details))
    else None
  }

  /** The 0.75 arm adds nothing: a fused decision raises an alert exactly
      when the service is loaded and the verdict is fraud. */
  lemma AlertIffFraud(serviceLoaded: bool, raw: RawTransaction, mlScore: real, legacyScore: real, engineScore: real,
                      triggers: seq<string>, ruleReasons: seq<string>, details: seq<RuleDetail>)
    ensures var d := Fuse(mlScore, legacyScore, engineScore);
      AlertFor(serviceLoaded, raw, d, triggers, ruleReasons, details).Some? <==> serviceLoaded && d.isFraud
  {
  }

  // ---------------------------------------------------------------------
  // The endpoint
  // ---------------------------------------------------------------------

  /** Which optional collaborators loaded at import time. */
  datatype Environment = Environment(
    modelLoaded: bool,
    collectionAvailable: bool,
    ruleEngineLoaded: bool,
    alertServiceLoaded: bool)

  /** The classifier's answer for the feature row. */
  datatype Classifier = Classifier(mlFraud: bool, mlScore: Probability)

  datatype PredictionResult = PredictionResult(
    isFraud: bool,
    riskScore: real,
    mlReason: string,
    ruleReasons: seq<string>,
    combinedReasons: seq<string>,
    explanation: string)

  /** The stored document: the payload plus the decision fields. */
  datatype PredictionRecord = PredictionRecord(
    payload: RawTransaction,
    result: PredictionResult,
    ruleTriggers: seq<string>,
    ruleDetails: seq<RuleDetail>,
    processedAt: string)

  datatype PredictOutcome =
    | Refused(status: int, detail: string)   // HTTPException
    | InvalidTimestamp                        // `fromisoformat` raised
    | Predicted(result: PredictionResult, record: PredictionRecord, alert: Option<Alert>)

  /** `predict_and_save` as a value; `now` is the clock reading stored as
      `processed_at`. The service refuses before any scoring when the
      classifier or the collection is missing. */
  function Predict(env: Environment, raw: RawTransaction, time: Option<ParsedTime>,
                   ml: Classifier, explanation: string, now: string): (o: PredictOutcome)
    ensures o.Refused? <==> !env.modelLoaded || !env.collectionAvailable
    ensures o.Refused? ==> o.status == 503
    ensures o.InvalidTimestamp? <==> env.modelLoaded && env.collectionAvailable && time.None?
    ensures o.Predicted? ==> o.record.payload == raw && o.record.processedAt == now
  {
    if !env.modelLoaded then Refused(503, "Model is not loaded.")
    else if !env.collectionAvailable then Refused(503, "Database is not available.")
    else if time.None? then InvalidTimestamp
    else Score(env, raw, TransformFeatures(raw, time.value), ml, explanation, now)
  }

  /** Steps 3 to 11 of `predict_and_save` on the engineered features. */
  function Score(env: Environment, raw: RawTransaction, f: FeatureRecord,
                 ml: Classifier, explanation: string, now: string): (o: PredictOutcome)
    ensures o.Predicted?
    ensures o.record.payload == raw && o.record.result == o.result && o.record.processedAt == now
    ensures LegacyReasons(LegacyFired(raw, f)) <= o.result.ruleReasons
    ensures o.result.explanation == explanation
  {
      var legacyFired := LegacyFired(raw, f);
      var legacyReasons := LegacyReasons(legacyFired);
      var legacyScore := Min(SumWeights(legacyFired), 1.0);
      var engine := EngineSpec(env.ruleEngineLoaded, PayloadInput(raw, f));
      var ruleReasons := RuleReasons(legacyReasons, engine.details);
      var d := Fuse(ml.mlScore, legacyScore, engine.score);
      var mlReason := MlReason(ml.mlFraud);
      var result := PredictionResult(d.isFraud, d.finalScore, mlReason, ruleReasons,
                                     Combined(mlReason, ruleReasons), explanation);
      Predicted(result, PredictionRecord(raw, result, engine.triggers, engine.details, now),
                AlertFor(env.alertServiceLoaded, raw, d, engine.triggers, ruleReasons, engine.details))
  }

  method PredictAndSave(env: Environment, raw: RawTransaction, time: Option<ParsedTime>,
                        ml: Classifier, explanation: string, now: string) returns (o: PredictOutcome)
    ensures o == Predict(env, raw, time, ml, explanation, now)
    ensures !env.modelLoaded ==> o == Refused(503, "Model is not loaded.")
    ensures env.modelLoaded && !env.collectionAvailable ==> o == Refused(503, "Database is not available.")
  {
    if !env.modelLoaded {
      return Refused(503, "Model is not loaded.");
    }
    if !env.collectionAvailable {
      return Refused(503, "Database is not available.");
    }
    if time.None? {
      return InvalidTimestamp;
    }
    var f := TransformFeatures(raw, time.value);
    o := ScoreAndSave(env, raw, f, ml, explanation, now);
  }

  method ScoreAndSave(env: Environment, raw: RawTransaction, f: FeatureRecord,
                      ml: Classifier, explanation: string, now: string) returns (o: PredictOutcome)
    ensures o == Score(env, raw, f, ml, explanation, now)
  {
    var legacy := ApplyBusinessRules(raw, f);
    var engine := RunEngine(env.ruleEngineLoaded, PayloadInput(raw, f));
    var ruleReasons := legacy.reasons + EngineReasons(engine.details);
    var d := Fuse(ml.mlScore, legacy.score, engine.score);
    var mlReason := MlReason(ml.mlFraud);
    var combined := CombineReasons(mlReason, ruleReasons);
    assert ruleReasons == RuleReasons(legacy.reasons, engine.details);
    assert combined == Combined(mlReason, ruleReasons);
    var result := PredictionResult(d.isFraud, d.finalScore, mlReason, ruleReasons, combined, explanation);
    var record := PredictionRecord(raw, result, engine.triggers, engine.details, now);
    var alert := AlertFor(env.alertServiceLoaded, raw, d, engine.triggers, ruleReasons, engine.details);
    o := Predicted(result, record, alert);
  }

  /** The engine's score is a probability. */
  lemma EngineScoreBounded(loaded: bool, e: EngineInput)
    ensures 0.0 <= EngineSpec(loaded, e).score <= 1.0
  {
    if loaded && !Raises(e) {
      SumSeveritiesBounds(Details(FiredRules(e), e));
    }
  }

  /** Steps 3 to 11 yield a probability as the risk score, store the result
      they return, and alert exactly on a fraud verdict when the service is
      loaded. */
  lemma ScoreFacts(env: Environment, raw: RawTransaction, f: FeatureRecord,
                   ml: Classifier, explanation: string, now: string)
    ensures var o := Score(env, raw, f, ml, explanation, now);
            o.Predicted? && 0.0 <= o.result.riskScore <= 1.0 && o.record.result == o.result
            && (o.result.isFraud <==> o.result.riskScore >= FraudThreshold)
            && (o.alert.Some? <==> env.alertServiceLoaded && o.result.isFraud)
  {
    var fired := LegacyFired(raw, f);
    LegacySumBounds(fired);
    var legacyScore := Min(SumWeights(fired), 1.0);
    var engine := EngineSpec(env.ruleEngineLoaded, PayloadInput(raw, f));
    EngineScoreBounded(env.ruleEngineLoaded, PayloadInput(raw, f));
    FusedScoreBounded(ml.mlScore, legacyScore, engine.score);
    AlertIffFraud(env.alertServiceLoaded, raw, ml.mlScore, legacyScore, engine.score, engine.triggers,
                  RuleReasons(LegacyReasons(fired), engine.details), engine.details);
  }

  /** A prediction's risk score is a probability, the stored record carries
      the returned result, and the alert is sent exactly when the service
      is loaded and the verdict is fraud. */
  lemma PredictedFacts(env: Environment, raw: RawTransaction, time: Option<ParsedTime>,
                       ml: Classifier, explanation: string, now: string)
    requires Predict(env, raw, time, ml, explanation, now).Predicted?
    ensures var o := Predict(env, raw, time, ml, explanation, now);
            0.0 <= o.result.riskScore <= 1.0 && o.record.result == o.result
            && (o.result.isFraud <==> o.result.riskScore >= FraudThreshold)
            && (o.alert.Some? <==> env.alertServiceLoaded && o.result.isFraud)
  {
    var f := TransformFeatures(raw, time.value);
    assert Predict(env, raw, time, ml, explanation, now) == Score(env, raw, f, ml, explanation, now);
    ScoreFacts(env, raw, f, ml, explanation, now);
  }

  /** The response does not depend on whether an alert is sent: the alert
      service only adds a side effect. */
  lemma ResultIgnoresAlertService(env: Environment, raw: RawTransaction, time: Option<ParsedTime>,
                                  ml: Classifier, explanation: string, now: string)
    ensures var o1 := Predict(env.(alertServiceLoaded := true), raw, time, ml, explanation, now);
            var o2 := Predict(env.(alertServiceLoaded := false), raw, time, ml, explanation, now);
            o1.Predicted? <==> o2.Predicted?
    ensures var o1 := Predict(env.(alertServiceLoaded := true), raw, time, ml, explanation, now);
            var o2 := Predict(env.(alertServiceLoaded := false), raw, time, ml, explanation, now);
            o1.Predicted? ==> o1.result == o2.result && o1.record == o2.record && o2.alert.None?
  {
  }

  /** Every response carries at least two combined reasons, the ML sentence
      first. */
  lemma CombinedStartsWithMl(env: Environment, raw: RawTransaction, time: Option<ParsedTime>,
                             ml: Classifier, explanation: string, now: string)
    requires Predict(env, raw, time, ml, explanation, now).Predicted?
    ensures var r := Predict(env, raw, time, ml, explanation, now).result;
            |r.combinedReasons| >= 2 && r.combinedReasons[0] == r.mlReason
  {
  }

  /** Legacy rules weighing 0.5 or more make the verdict fraud on their
      own, whatever the classifier says, and then an alert goes out exactly
      when the alert service is loaded. */
  lemma LegacyRulesAloneMakeFraud(env: Environment, raw: RawTransaction, f: FeatureRecord,
                                  ml: Classifier, explanation: string, now: string)
    requires SumWeights(LegacyFired(raw, f)) >= FraudThreshold
    ensures var o := Score(env, raw, f, ml, explanation, now);
            o.Predicted? && o.result.isFraud && o.result.mlReason == MlReason(ml.mlFraud)
            && (o.alert.Some? <==> env.alertServiceLoaded)
  {
    var legacyScore := Min(SumWeights(LegacyFired(raw, f)), 1.0);
    var engine := EngineSpec(env.ruleEngineLoaded, PayloadInput(raw, f));
    var d := Fuse(ml.mlScore, legacyScore, engine.score);
    assert d.finalScore >= legacyScore >= FraudThreshold;
  }

  /** The rules alone can make the verdict fraud while the ML sentence says
      no ML alert was triggered: a large amount from an account younger than
      five days between 02:00 and 04:59 is fraud whatever the classifier's
      score, even with the classifier's label clear. */
  lemma FraudWithoutMlAlert(env: Environment, raw: RawTransaction, t: ParsedTime,
                            ml: Classifier, explanation: string, now: string)
    requires env.modelLoaded && env.collectionAvailable
    requires raw.transactionAmount > LegacyAmountFloor && raw.transactionAmount > HighAmountThreshold
    requires raw.accountAgeDays < LegacyNewAccountAge && 2 <= t.hour <= 4
    requires !ml.mlFraud
    ensures var o := Predict(env, raw, Some(t), ml, explanation, now);
            o.Predicted? && o.result.isFraud && o.result.mlReason == MlClearReason
            && (o.alert.Some? <==> env.alertServiceLoaded)
  {
    var f := TransformFeatures(raw, t);
    assert Predict(env, raw, Some(t), ml, explanation, now) == Score(env, raw, f, ml, explanation, now);
    var p := r => LegacyFires(r, raw, f);
    assert p(LegacyHighAmount) && p(LegacyOddHour) && p(LegacyNewAccount);
    assert LegacyOrder == [LegacyHighAmount] + ([LegacyRiskyChannel] + ([LegacyOddHour] + ([LegacyNewAccount] + [])));
    FilterCons(p, LegacyNewAccount, []);
    FilterCons(p, LegacyOddHour, [LegacyNewAccount] + []);
    FilterCons(p, LegacyRiskyChannel, [LegacyOddHour] + ([LegacyNewAccount] + []));
    FilterCons(p, LegacyHighAmount, [LegacyRiskyChannel] + ([LegacyOddHour] + ([LegacyNewAccount] + [])));
    assert |LegacyFired(raw, f)| >= 3;
    LegacySumBounds(LegacyFired(raw, f));
    LegacyRulesAloneMakeFraud(env, raw, f, ml, explanation, now);
  }

  // ---------------------------------------------------------------------
  // History (`get_prediction_history`)
  // ---------------------------------------------------------------------

  const MaxHistoryLimit: int := 200

  /** Python truthiness of a document value. */
  predicate PyTruthy(v: PyValue)
  {
    match v
    case ObjectId(_) => true
    case PyStr(s) => s != ""
    case PyInt(i) => i != 0
    case PyFloat(x) => x != 0.0
    case PyBool(b) => b
    case PyNone => false
    case PyList(items) => items != []
    case PyDict(entries) => entries != map[]
    case Other(_) => true
  }

  /** One stored document as returned: ObjectIds converted, `_id` popped
      and copied to `id` when truthy and `id` is absent. */
  function NormalizeDoc(doc: map<string, PyValue>): (r: map<string, PyValue>)
    ensures "_id" !in r
    ensures forall k :: k in doc && k != "_id" ==> k in r
    ensures forall k :: k in r ==> k in doc || k == "id"
    // every kept field holds its converted value
    ensures forall k :: k in doc && k != "_id" ==> r[k] == ConvertObjectId(doc[k])
    // `id` is copied from a truthy converted `_id` only when the document has no `id`
    ensures ("id" !in doc && "_id" in doc && PyTruthy(ConvertObjectId(doc["_id"])))
      ==> "id" in r && r["id"] == ConvertObjectId(doc["_id"])
    ensures "id" !in doc && !("_id" in doc && PyTruthy(ConvertObjectId(doc["_id"]))) ==> "id" !in r
  {
    var converted := ConvertObjectId(PyDict(doc)).entries;
    var rawId := if "_id" in converted then converted["_id"] else PyNone;
    var popped := map k | k in converted && k != "_id" :: converted[k];
    if PyTruthy(rawId) && "id" !in popped then popped["id" := rawId] else popped
  }

  /** A returned document has no `_id` and no ObjectId anywhere, keeps
      every other field, and gains an `id` from a truthy `_id` when it had
      none. */
  lemma NormalizeDocShape(doc: map<string, PyValue>)
    ensures var r := NormalizeDoc(doc);
      "_id" !in r
      && (forall k :: k in r ==> NoObjectId(r[k]))
      && ("_id" in doc && PyTruthy(ConvertObjectId(doc["_id"])) && "id" !in doc ==> "id" in r)
      && (forall k :: k in doc && k != "_id" ==> k in r && r[k] == ConvertObjectId(doc[k]))
      && ("_id" in doc && PyTruthy(ConvertObjectId(doc["_id"])) && "id" !in doc ==> r["id"] == ConvertObjectId(doc["_id"]))
  {
    ConvertedDocFacts(doc);
  }

  lemma ConvertedDocFacts(doc: map<string, PyValue>)
    ensures forall k :: k in ConvertObjectId(PyDict(doc)).entries ==> NoObjectId(ConvertObjectId(PyDict(doc)).entries[k])
    ensures "_id" in doc ==> ConvertObjectId(PyDict(doc)).entries["_id"] == ConvertObjectId(doc["_id"])
  {
    var r := ConvertObjectId(PyDict(doc));
    assert NoObjectId(r);
    if "_id" in doc {
      DictsConvertValues(doc, "_id");
    }
  }

  datatype HistoryPage = HistoryPage(data: seq<map<string, PyValue>>, page: int, limit: int, total: int, hasNext: bool)

  datatype HistoryOutcome =
    | HistoryRefused(status: int, detail: string)
    | History(body: HistoryPage)

  /** `max(page, 1)` */
  function ClampPage(page: int): (p: int)
    ensures p >= 1 && (page >= 1 ==> p == page)
    ensures page < 1 ==> p == 1
  {
    if page >= 1 then page else 1
  }

  /** `max(1, min(limit, 200))` */
  function ClampLimit(limit: int): (l: int)
    ensures 1 <= l <= MaxHistoryLimit
    ensures 1 <= limit <= MaxHistoryLimit ==> l == limit
    ensures limit > MaxHistoryLimit ==> l == MaxHistoryLimit
    ensures limit < 1 ==> l == 1
  {
    if limit > MaxHistoryLimit then MaxHistoryLimit else if limit < 1 then 1 else limit
  }

  /** `stored` is the collection already in `processed_at` descending order. */
  method GetPredictionHistory(collectionAvailable: bool, stored: seq<map<string, PyValue>>, page: int, limit: int)
    returns (o: HistoryOutcome)
    ensures !collectionAvailable <==> o == HistoryRefused(503, "Database is not available.")
    ensures o.History? ==> o.body.page == ClampPage(page) && o.body.limit == ClampLimit(limit)
    ensures o.History? ==> o.body.total == |stored|
    ensures o.History? ==>
      var skip := (o.body.page - 1) * o.body.limit;
      |o.body.data| == (if skip >= |stored| then 0
                        else if |stored| - skip < o.body.limit then |stored| - skip
                        else o.body.limit)
      && ConvertedFrom(o.body.data, stored, skip)
      && (o.body.hasNext <==> skip + |o.body.data| < |stored|)
      && (o.body.hasNext <==> skip + o.body.limit < |stored|)
  {
    if !collectionAvailable {
      return HistoryRefused(503, "Database is not available.");
    }
    var p := ClampPage(page);
    var l := ClampLimit(limit);
    var skip := (p - 1) * l;
    var total := |stored|;
    var stop := if skip + l < total then skip + l else total;
    var records := NormalizeRange(stored, skip, stop);
    o := History(HistoryPage(records, p, l, total, skip + |records| < total));
    assert (o.body.page - 1) * o.body.limit == skip;
  }

  /** `data` holds the documents of `stored` from `skip` on, each converted
      by `NormalizeDoc`. */
  ghost predicate ConvertedFrom(data: seq<map<string, PyValue>>, stored: seq<map<string, PyValue>>, skip: int)
  {
    forall i :: 0 <= i < |data| ==> 0 <= skip + i < |stored| && data[i] == NormalizeDoc(stored[skip + i])
  }

  /** The documents of a page, each converted by `NormalizeDoc`. */
  function NormalizedDocs(docs: seq<map<string, PyValue>>): (r: seq<map<string, PyValue>>)
    ensures |r| == |docs|
    ensures forall j :: 0 <= j < |docs| ==> r[j] == NormalizeDoc(docs[j])
  {
    seq(|docs|, j requires 0 <= j < |docs| => NormalizeDoc(docs[j]))
  }

  /** `.skip(skip).limit(...)` followed by the per-document conversion: the
      documents from `skip` up to `stop`, none when `skip` is past the end. */
  method NormalizeRange(stored: seq<map<string, PyValue>>, skip: nat, stop: int)
    returns (records: seq<map<string, PyValue>>)
    requires 0 <= stop <= |stored|
    ensures |records| == (if skip < stop then stop - skip else 0)
    ensures ConvertedFrom(records, stored, skip)
  {
    records := [];
    if stop <= skip {
      return;
    }
    var cursor := stored[skip..stop];
    for i := 0 to |cursor|
      invariant records == NormalizedDocs(cursor[..i])
    {
      assert cursor[..i + 1][..i] == cursor[..i];
      records := records + [NormalizeDoc(cursor[i])];
    }
    assert cursor[..|cursor|] == cursor;
    CursorConverted(stored, skip, stop, records);
  }

  lemma CursorConverted(stored: seq<map<string, PyValue>>, skip: nat, stop: int, records: seq<map<string, PyValue>>)
    requires skip < stop <= |stored|
    requires records == NormalizedDocs(stored[skip..stop])
    ensures |records| == stop - skip
    ensures ConvertedFrom(records, stored, skip)
  {
    forall j | 0 <= j < |records|
      ensures records[j] == NormalizeDoc(stored[skip + j])
    {
      assert stored[skip..stop][j] == stored[skip + j];
    }
  }
}
