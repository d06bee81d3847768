/** `transform_features` (backend routers/prediction.py): the 16-field
    feature record the classifier and the rules read. */
module Features {
  import opened Text

  /** The request body `RawTransactionInput`. */
  datatype RawTransaction = RawTransaction(
    customerId: string,
    kycVerified: int,
    accountAgeDays: int,
    transactionAmount: real,
    channel: string,
    timestamp: string)

  type Hour = h: int | 0 <= h <= 23
  type Day = d: int | 1 <= d <= 31 witness 1
  type Weekday = w: int | 0 <= w <= 6

  /** The calendar fields of `datetime.fromisoformat(timestamp)`:
      hour, day of month and weekday with Monday = 0. */
  datatype ParsedTime = ParsedTime(hour: Hour, day: Day, weekday: Weekday)

  datatype FeatureRecord = FeatureRecord(
    kycVerified: int,
    accountAgeDays: int,
    transactionAmount: real,
    hour: Hour,
    day: Day,
    weekday: Weekday,
    channelAtm: int,
    channelMobile: int,
    channelPos: int,
    channelWeb: int,
    avgTxnPerCustomer: real,
    txnsCountPerCustomer: int,
    amtDeviation: real,
    highAmountFlag: int,
    isNight: int,
    isWeekend: int)

  /** Placeholder customer aggregates: no profile store is consulted. */
  const AvgTxnPerCustomer: real := 0.12
  const TxnsCountPerCustomer: int := 5
  const AmtDeviation: real := 0.03
  const HighAmountThreshold: real := 10000.0

  const KnownChannels: seq<string> := ["atm", "mobile", "pos", "web"]

  function Flag(b: bool): int
  {
    if b then 1 else 0
  }

  function TransformFeatures(raw: RawTransaction, t: ParsedTime): (f: FeatureRecord)
    // the one-hot channel encoding: at most one flag, and one exactly for a known channel
    ensures f.channelAtm + f.channelMobile + f.channelPos + f.channelWeb
              == (if Lower(raw.channel) in KnownChannels then 1 else 0)
    ensures f.channelAtm == 1 <==> Lower(raw.channel) == "atm"
    ensures f.channelMobile == 1 <==> Lower(raw.channel) == "mobile"
    ensures f.channelPos == 1 <==> Lower(raw.channel) == "pos"
    ensures f.channelWeb == 1 <==> Lower(raw.channel) == "web"
    // derived flags are 0/1 and mean what their names say
    ensures f.isNight == 1 <==> 0 <= t.hour <= 6
    ensures f.isWeekend == 1 <==> t.weekday in {5, 6}
    ensures f.highAmountFlag == 1 <==> raw.transactionAmount > 10000.0
    ensures f.isNight in {0, 1} && f.isWeekend in {0, 1} && f.highAmountFlag in {0, 1}
    // the raw fields and calendar fields are passed through
    ensures f.kycVerified == raw.kycVerified && f.accountAgeDays == raw.accountAgeDays
    ensures f.transactionAmount == raw.transactionAmount
    ensures f.hour == t.hour && f.day == t.day && f.weekday == t.weekday
    ensures f.avgTxnPerCustomer == AvgTxnPerCustomer
    ensures f.txnsCountPerCustomer == TxnsCountPerCustomer && f.amtDeviation == AmtDeviation
  {
    var channel := Lower(raw.channel);
    FeatureRecord(
      raw.kycVerified,
      raw.accountAgeDays,
      raw.transactionAmount,
      t.hour,
      t.day,
      t.weekday,
      Flag(channel == "atm"),
      Flag(channel == "mobile"),
      Flag(channel == "pos"),
      Flag(channel == "web"),
      AvgTxnPerCustomer,
      TxnsCountPerCustomer,
      AmtDeviation,
      Flag(raw.transactionAmount > HighAmountThreshold),
      Flag(0 <= t.hour <= 6),
      Flag(t.weekday >= 5))
  }

  /** The column order the classifier was trained on. */
  const FeatureOrder: seq<string> := [
    "kyc_verified", "account_age_days", "transaction_amount", "hour", "day",
    "weekday", "channel_atm", "channel_mobile", "channel_pos",
    "channel_web", "avg_txn_per_customer", "txns_count_per_customer",
    "amt_deviation", "high_amount_flag", "is_night", "is_weekend"]

  /** The record as the dictionary `transform_features` returns, keyed by
      feature name (integers widened to numbers). */
  function FeatureDict(f: FeatureRecord): map<string, real>
  {
    map[
      "kyc_verified" := f.kycVerified as real,
      "account_age_days" := f.accountAgeDays as real,
      "transaction_amount" := f.transactionAmount,
      "hour" := f.hour as real,
      "day" := f.day as real,
      "weekday" := f.weekday as real,
      "channel_atm" := f.channelAtm as real,
      "channel_mobile" := f.channelMobile as real,
      "channel_pos" := f.channelPos as real,
      "channel_web" := f.channelWeb as real,
      "avg_txn_per_customer" := f.avgTxnPerCustomer,
      "txns_count_per_customer" := f.txnsCountPerCustomer as real,
      "amt_deviation" := f.amtDeviation,
      "high_amount_flag" := f.highAmountFlag as real,
      "is_night" := f.isNight as real,
      "is_weekend" := f.isWeekend as real]
  }

  /** `pd.DataFrame([features])[feature_order]`: the model input row, whose
      i-th value is the feature named by the i-th entry of `FeatureOrder`. */
  function FeatureRow(f: FeatureRecord): (row: seq<real>)
    ensures |row| == |FeatureOrder|
    ensures forall i :: 0 <= i < |FeatureOrder| ==>
              FeatureOrder[i] in FeatureDict(f) && row[i] == FeatureDict(f)[FeatureOrder[i]]
  {
    [f.kycVerified as real, f.accountAgeDays as real, f.transactionAmount,
     f.hour as real, f.day as real, f.weekday as real,
     f.channelAtm as real, f.channelMobile as real, f.channelPos as real,
     f.channelWeb as real, f.avgTxnPerCustomer, f.txnsCountPerCustomer as real,
     f.amtDeviation, f.highAmountFlag as real, f.isNight as real, f.isWeekend as real]
  }
}
