/** `evaluate_rules` (backend routers/rule_engine.py): the five engine rules,
    each appending its key and a `{rule, reason, severity}` record when it
    fires. */
module RuleEngine {
  import opened Wrappers
  import opened Text
  import opened Collections

  const AvgTxnMultiplierThreshold: real := 5.0
  const OddHourStart: int := 2
  const OddHourEnd: int := 4
  const HighRiskRuleSeverity: string := "high"
  const MediumRiskRuleSeverity: string := "medium"
  const LowRiskRuleSeverity: string := "low"
  const NewAccountAgeLimit: int := 7
  const NewAccountAmountThreshold: real := 1000.0
  const AbsoluteAmountThreshold: real := 200000.0

  /** A dictionary entry read with `.get`: missing, present with value
      `None`, or present with a value. */
  datatype Field<T> = Missing | PresentNone | Present(value: T)

  /** The `kyc_verified` value as Python compares it with `0`, `"No"` and
      `False`. */
  datatype Kyc = KycInt(i: int) | KycStr(s: string) | KycBool(b: bool) | KycNone

  /** What `evaluate_rules` reads from `raw_input`, `engineered_features`
      and `customer_profile`. */
  datatype EngineInput = EngineInput(
    rawAmount: Field<real>,        // raw_input["transaction_amount"]
    featureAmount: Option<real>,   // engineered_features["transaction_amount"]
    hour: Option<int>,             // engineered_features["hour"] when it is an int
    channel: Option<string>,       // raw_input["channel"]; None when missing or None
    kyc: Kyc,                      // raw_input["kyc_verified"]
    accountAge: Field<int>,        // raw_input["account_age_days"]
    profileAvg: Option<real>)      // customer_profile["avg_txn_amount"] when given

  datatype RuleKey =
    | HighAmountVsAvg
    | InternationalNoKyc
    | OddHourTxn
    | NewAccountHighAmount
    | AbsoluteHighAmount
  {
    function Name(): string
    {
      match this
      case HighAmountVsAvg => "HIGH_AMOUNT_VS_AVG"
      case InternationalNoKyc => "INTERNATIONAL_NO_KYC"
      case OddHourTxn => "ODD_HOUR_TXN"
      case NewAccountHighAmount => "NEW_ACCOUNT_HIGH_AMOUNT"
      case AbsoluteHighAmount => "ABSOLUTE_HIGH_AMOUNT"
    }

    /** Position of the rule in evaluation order. */
    function Rank(): int
    {
      match this
      case HighAmountVsAvg => 0
      case InternationalNoKyc => 1
      case OddHourTxn => 2
      case NewAccountHighAmount => 3
      case AbsoluteHighAmount => 4
    }
  }

  datatype RuleDetail = RuleDetail(rule: string, reason: string, severity: string)

  datatype EngineResult =
    | Raised    // a comparison with a missing amount raised TypeError
    | Evaluated(triggers: seq<string>, details: seq<RuleDetail>)

  /** The rules in the order the engine evaluates them. */
  const RuleOrder: seq<RuleKey> :=
    [HighAmountVsAvg, InternationalNoKyc, OddHourTxn, NewAccountHighAmount, AbsoluteHighAmount]

  const RiskyChannels: seq<string> := ["international", "intl", "wire"]

  /** `raw_input.get("transaction_amount", engineered_features.get(...))` */
  function Amount(e: EngineInput): Option<real>
  {
    match e.rawAmount
    case Missing => e.featureAmount
    case PresentNone => None
    case Present(a) => Some(a)
  }

  /** `raw_input.get("account_age_days", 0)` */
  function AccountAge(e: EngineInput): Option<int>
  {
    match e.accountAge
    case Missing => Some(0)
    case PresentNone => None
    case Present(a) => Some(a)
  }

  /** `(raw_input.get("channel") or "").lower()` */
  function Channel(e: EngineInput): string
  {
    Lower(if e.channel.Some? then e.channel.value else "")
  }

  /** `kyc == 0 or kyc == "No" or kyc is False` (in Python `False == 0`). */
  predicate KycUnverified(k: Kyc)
  {
    k == KycInt(0) || k == KycStr("No") || k == KycBool(false)
  }

  /** The average rule is armed: a profile average that is truthy and > 0. */
  predicate AvgKnown(e: EngineInput)
  {
    e.profileAvg.Some? && e.profileAvg.value > 0.0
  }

  /** The new-account rule reaches its amount comparison. */
  predicate YoungAccount(e: EngineInput)
  {
    AccountAge(e).Some? && AccountAge(e).value < NewAccountAgeLimit
  }

  /** The evaluation raises: a rule compares a missing amount with a number. */
  predicate Raises(e: EngineInput)
  {
    Amount(e).None? && (AvgKnown(e) || YoungAccount(e))
  }

  predicate Fires(k: RuleKey, e: EngineInput)
  {
    match k
    case HighAmountVsAvg =>
      AvgKnown(e) && Amount(e).Some? && Amount(e).value > e.profileAvg.value * AvgTxnMultiplierThreshold
    case InternationalNoKyc =>
      Channel(e) in RiskyChannels && KycUnverified(e.kyc)
    case OddHourTxn =>
      e.hour.Some? && OddHourStart <= e.hour.value <= OddHourEnd
    case NewAccountHighAmount =>
      YoungAccount(e) && Amount(e).Some? && Amount(e).value > NewAccountAmountThreshold
    case AbsoluteHighAmount =>
      Amount(e).Some? && Amount(e).value > AbsoluteAmountThreshold
  }

  function Severity(k: RuleKey): string
  {
    match k
    case HighAmountVsAvg => HighRiskRuleSeverity
    case InternationalNoKyc => HighRiskRuleSeverity
    case OddHourTxn => MediumRiskRuleSeverity
    case NewAccountHighAmount => MediumRiskRuleSeverity
    case AbsoluteHighAmount => HighRiskRuleSeverity
  }

  /** The reason text of a fired rule. Integers are rendered in decimal; the
      float amount and average appear as the placeholders `{amount}` and
      `{avg}`. */
  function Reason(k: RuleKey, e: EngineInput): (r: string)
    ensures r != ""
  {
    match k
    case HighAmountVsAvg =>
      "Transaction amount {amount} is > 5.0x customer's avg {avg}"
    case InternationalNoKyc =>
      "International channel with KYC not verified"
    case OddHourTxn =>
      "Transaction at odd hour: " + (if e.hour.Some? then IntToString(e.hour.value) else "None") + ":00"
    case NewAccountHighAmount =>
      "Account age " + (if AccountAge(e).Some? then IntToString(AccountAge(e).value) else "None")
      + " days and amount {amount} is high for new account"
    case AbsoluteHighAmount =>
      "Transaction amount {amount} exceeds absolute threshold"
  }

  function Detail(k: RuleKey, e: EngineInput): RuleDetail
  {
    RuleDetail(k.Name(), Reason(k, e), Severity(k))
  }

  /** The rules that fire, in evaluation order. */
  function FiredRules(e: EngineInput): (r: seq<RuleKey>)
    ensures |r| <= |RuleOrder|
    ensures forall i :: 0 <= i < |r| ==> Fires(r[i], e)
  {
    FilterPasses(k => Fires(k, e), RuleOrder);
    Filter(k => Fires(k, e), RuleOrder)
  }

  /** The `triggers` list for the rules `ks`. */
  function Names(ks: seq<RuleKey>): (names: seq<string>)
    ensures |names| == |ks|
    ensures forall i :: 0 <= i < |ks| ==> names[i] == ks[i].Name()
  {
    if ks == [] then [] else Names(ks[..|ks| - 1]) + [ks[|ks| - 1].Name()]
  }

  /** The `triggered_details` list for the rules `ks`. */
  function Details(ks: seq<RuleKey>, e: EngineInput): (ds: seq<RuleDetail>)
    ensures |ds| == |ks|
    ensures forall i :: 0 <= i < |ks| ==> ds[i] == Detail(ks[i], e)
  {
    if ks == [] then [] else Details(ks[..|ks| - 1], e) + [Detail(ks[|ks| - 1], e)]
  }

  method EvaluateRules(e: EngineInput) returns (r: EngineResult)
    ensures r.Raised? <==> Raises(e)
    ensures r.Evaluated? ==> r.triggers == Names(FiredRules(e))
    ensures r.Evaluated? ==> r.details == Details(FiredRules(e), e)
  {
    var triggers: seq<string> := [];
    var details: seq<RuleDetail> := [];
    // `fired` are the rules appended so far, `rest` those still to evaluate
    ghost var fired: seq<RuleKey> := [];
    ghost var rest := RuleOrder;
    ghost var before := fired;
    var raised: bool;

    raised, triggers, details, fired := AverageRule(e, triggers, details, fired);
    if raised {
      return Raised;
    }
    Advance(e, before, fired, rest);
    rest, before := rest[1..], fired;
    triggers, details, fired := ChannelRule(e, triggers, details, fired);
    Advance(e, before, fired, rest);
    rest, before := rest[1..], fired;
    triggers, details, fired := OddHourRule(e, triggers, details, fired);
    Advance(e, before, fired, rest);
    rest, before := rest[1..], fired;
    raised, triggers, details, fired := NewAccountRule(e, triggers, details, fired);
    if raised {
      return Raised;
    }
    Advance(e, before, fired, rest);
    rest, before := rest[1..], fired;
    triggers, details, fired := AbsoluteRule(e, triggers, details, fired);
    Advance(e, before, fired, rest);
    assert rest[1..] == [];
    assert fired + [] == fired;
    assert fired == FiredRules(e);
    r := Evaluated(triggers, details);
  }

  /** `fired` extended by `k` when `k` fires. */
  function Step(fired: seq<RuleKey>, k: RuleKey, e: EngineInput): seq<RuleKey>
  {
    fired + (if Fires(k, e) then [k] else [])
  }

  /** Rule 1: a transaction far above the customer's average amount. */
  method AverageRule(e: EngineInput, triggers: seq<string>, details: seq<RuleDetail>, ghost fired: seq<RuleKey>)
    returns (raised: bool, triggers': seq<string>, details': seq<RuleDetail>, ghost fired': seq<RuleKey>)
    requires triggers == Names(fired) && details == Details(fired, e)
    ensures raised <==> AvgKnown(e) && Amount(e).None?
    ensures fired' == Step(fired, HighAmountVsAvg, e)
    ensures triggers' == Names(fired') && details' == Details(fired', e)
  {
    raised, triggers', details', fired' := false, triggers, details, fired;
    var amount := Amount(e);
    if e.profileAvg.Some? && e.profileAvg.value > 0.0 {
      if amount.None? {
        raised := true;
        return;
      }
      if amount.value > e.profileAvg.value * AvgTxnMultiplierThreshold {
        triggers', details', fired' := Append(triggers, details, fired, HighAmountVsAvg, e);
      }
    }
  }

  /** Rule 2: a risky channel without KYC verification. */
  method ChannelRule(e: EngineInput, triggers: seq<string>, details: seq<RuleDetail>, ghost fired: seq<RuleKey>)
    returns (triggers': seq<string>, details': seq<RuleDetail>, ghost fired': seq<RuleKey>)
    requires triggers == Names(fired) && details == Details(fired, e)
    ensures fired' == Step(fired, InternationalNoKyc, e)
    ensures triggers' == Names(fired') && details' == Details(fired', e)
  {
    triggers', details', fired' := triggers, details, fired;
    var channel := Channel(e);
    if channel in RiskyChannels && KycUnverified(e.kyc) {
      triggers', details', fired' := Append(triggers, details, fired, InternationalNoKyc, e);
    }
  }

  /** Rule 3: a transaction between 02:00 and 04:59. */
  method OddHourRule(e: EngineInput, triggers: seq<string>, details: seq<RuleDetail>, ghost fired: seq<RuleKey>)
    returns (triggers': seq<string>, details': seq<RuleDetail>, ghost fired': seq<RuleKey>)
    requires triggers == Names(fired) && details == Details(fired, e)
    ensures fired' == Step(fired, OddHourTxn, e)
    ensures triggers' == Names(fired') && details' == Details(fired', e)
  {
    triggers', details', fired' := triggers, details, fired;
    if e.hour.Some? && OddHourStart <= e.hour.value <= OddHourEnd {
      triggers', details', fired' := Append(triggers, details, fired, OddHourTxn, e);
    }
  }

  /** Rule 4: a young account moving a high amount. */
  method NewAccountRule(e: EngineInput, triggers: seq<string>, details: seq<RuleDetail>, ghost fired: seq<RuleKey>)
    returns (raised: bool, triggers': seq<string>, details': seq<RuleDetail>, ghost fired': seq<RuleKey>)
    requires triggers == Names(fired) && details == Details(fired, e)
    ensures raised <==> YoungAccount(e) && Amount(e).None?
    ensures fired' == Step(fired, NewAccountHighAmount, e)
    ensures triggers' == Names(fired') && details' == Details(fired', e)
  {
    raised, triggers', details', fired' := false, triggers, details, fired;
    var amount := Amount(e);
    var accountAge := AccountAge(e);
    if accountAge.Some? && accountAge.value < NewAccountAgeLimit {
      if amount.None? {
        raised := true;
        return;
      }
      if amount.value > NewAccountAmountThreshold {
        triggers', details', fired' := Append(triggers, details, fired, NewAccountHighAmount, e);
      }
    }
  }

  /** Rule 5: an amount above the absolute ceiling. */
  method AbsoluteRule(e: EngineInput, triggers: seq<string>, details: seq<RuleDetail>, ghost fired: seq<RuleKey>)
    returns (triggers': seq<string>, details': seq<RuleDetail>, ghost fired': seq<RuleKey>)
    requires triggers == Names(fired) && details == Details(fired, e)
    ensures fired' == Step(fired, AbsoluteHighAmount, e)
    ensures triggers' == Names(fired') && details' == Details(fired', e)
  {
    triggers', details', fired' := triggers, details, fired;
    var amount := Amount(e);
    if amount.Some? && amount.value > AbsoluteAmountThreshold {
      triggers', details', fired' := Append(triggers, details, fired, AbsoluteHighAmount, e);
    }
  }

  /** One `triggers.append(...)` / `triggered_details.append(...)` pair. */
  method Append(triggers: seq<string>, details: seq<RuleDetail>, ghost fired: seq<RuleKey>, k: RuleKey, e: EngineInput)
    returns (triggers': seq<string>, details': seq<RuleDetail>, ghost fired': seq<RuleKey>)
    requires triggers == Names(fired) && details == Details(fired, e)
    ensures fired' == fired + [k]
    ensures triggers' == Names(fired') && details' == Details(fired', e)
  {
    assert (fired + [k])[..|fired|] == fired;
    triggers' := triggers + [k.Name()];
    details' := details + [Detail(k, e)];
    fired' := fired + [k];
  }

  /** Evaluating the next rule of the table moves it from `rest` to the
      fired prefix when it fires. */
  lemma Advance(e: EngineInput, before: seq<RuleKey>, after: seq<RuleKey>, rest: seq<RuleKey>)
    requires rest != []
    requires before + Filter(k => Fires(k, e), rest) == FiredRules(e)
    requires after == Step(before, rest[0], e)
    ensures after + Filter(k => Fires(k, e), rest[1..]) == FiredRules(e)
  {
    FilterStep(k => Fires(k, e), before, after, rest, FiredRules(e));
  }

  /** Keys and records line up: `details[i]["rule"] == triggers[i]`, each key
      at most once, in the fixed rule order. */
  lemma TriggersInRuleOrder(e: EngineInput)
    ensures StrictlyIncreasing(FiredRules(e), (k: RuleKey) => k.Rank())
    ensures forall i :: 0 <= i < |FiredRules(e)| ==> Detail(FiredRules(e)[i], e).rule == FiredRules(e)[i].Name()
  {
    var rank := (k: RuleKey) => k.Rank();
    assert StrictlyIncreasing(RuleOrder, rank);
    FilterKeepsIncreasing(k => Fires(k, e), RuleOrder, rank);
  }

  /** A rule is reported exactly when its condition holds. */
  lemma FiredMembership(e: EngineInput, k: RuleKey)
    ensures k in FiredRules(e) <==> Fires(k, e)
  {
    FilterMembership(k => Fires(k, e), RuleOrder, k);
  }

  /** Without a customer profile, the average rule never fires. */
  lemma NoProfileNoAverageRule(e: EngineInput)
    requires e.profileAvg.None?
    ensures HighAmountVsAvg !in FiredRules(e)
  {
  }

  /** The absolute-amount rule depends on the amount alone and is monotone
      in it: raising the amount of a firing input keeps it firing. */
  lemma AbsoluteRuleMonotone(e: EngineInput, bigger: real)
    requires Amount(e).Some? && Amount(e).value > AbsoluteAmountThreshold
    requires bigger >= Amount(e).value
    ensures AbsoluteHighAmount in FiredRules(e)
    ensures AbsoluteHighAmount in FiredRules(e.(rawAmount := Present(bigger)))
  {
    var e' := e.(rawAmount := Present(bigger));
    assert Amount(e') == Some(bigger);
    FiredMembership(e, AbsoluteHighAmount);
    FiredMembership(e', AbsoluteHighAmount);
  }

  /** Only "high" and "medium" are ever emitted; "low" is not. */
  lemma SeveritiesEmitted(e: EngineInput)
    ensures forall k :: k in FiredRules(e) ==>
      Detail(k, e).severity in {HighRiskRuleSeverity, MediumRiskRuleSeverity}
    ensures forall k :: k in FiredRules(e) ==> Detail(k, e).severity != LowRiskRuleSeverity
  {
  }
}
