/**
 * The JSON exchanged between the fraud-detection page and `POST /api/predict`:
 * the flat scoring request, its encoding as a JSON object, and the response body.
 */
module Wire {
  import opened Wrappers

  /** The JSON values the two sides exchange (arrays appear only in the response record). */
  datatype Json = JNum(n: real) | JStr(s: string) | JBool(b: bool) | JNull

  /** The `apiData` object the page builds (snake_case wire names). */
  datatype ScoringRequest = ScoringRequest(
    amount: real,
    payment_method: string,
    category: string,
    gender: string,
    city: string,
    device: string,
    shipping_address: string,
    browser_info: string,
    age: int,
    hour: int,
    day_of_week: int,
    is_weekend: bool,
    is_new_device: bool,
    is_different_city: bool,
    failed_attempts: int,
    shipping_billing_match: bool,
    account_age: int,
    transaction_frequency: int)

  /** The success body of `POST /api/predict` (`PredictionResult` on the page). */
  datatype Prediction = Prediction(
    is_fraud: bool,
    fraud_probability: real,
    xgb_probability: real,
    risk_level: string,
    risk_factors: seq<string>,
    transaction_id: string,
    timestamp: string)

  const WireNames: set<string> := {
    "amount", "payment_method", "category", "gender", "city", "device", "shipping_address",
    "browser_info", "age", "hour", "day_of_week", "is_weekend", "is_new_device",
    "is_different_city", "failed_attempts", "shipping_billing_match", "account_age",
    "transaction_frequency"
  }

  function Int(i: int): Json { JNum(i as real) }

  /** `JSON.stringify(apiData)` as the object the server reads back. */
  function ToWire(r: ScoringRequest): (m: map<string, Json>)
    ensures m.Keys == WireNames
  {
    map[
      "amount" := JNum(r.amount),
      "payment_method" := JStr(r.payment_method),
      "category" := JStr(r.category),
      "gender" := JStr(r.gender),
      "city" := JStr(r.city),
      "device" := JStr(r.device),
      "shipping_address" := JStr(r.shipping_address),
      "browser_info" := JStr(r.browser_info),
      "age" := Int(r.age),
      "hour" := Int(r.hour),
      "day_of_week" := Int(r.day_of_week),
      "is_weekend" := JBool(r.is_weekend),
      "is_new_device" := JBool(r.is_new_device),
      "is_different_city" := JBool(r.is_different_city),
      "failed_attempts" := Int(r.failed_attempts),
      "shipping_billing_match" := JBool(r.shipping_billing_match),
      "account_age" := Int(r.account_age),
      "transaction_frequency" := Int(r.transaction_frequency)
    ]
  }

  function NumAt(m: map<string, Json>, k: string): Option<real>
  {
    if k in m && m[k].JNum? then Some(m[k].n) else None
  }

  function IntAt(m: map<string, Json>, k: string): Option<int>
  {
    if k in m && m[k].JNum? && m[k].n == m[k].n.Floor as real then Some(m[k].n.Floor) else None
  }

  function StrAt(m: map<string, Json>, k: string): Option<string>
  {
    if k in m && m[k].JStr? then Some(m[k].s) else None
  }

  function BoolAt(m: map<string, Json>, k: string): Option<bool>
  {
    if k in m && m[k].JBool? then Some(m[k].b) else None
  }

  /** Reads a scoring request back from a JSON object; `None` when a field is absent or mistyped. */
  function FromWire(m: map<string, Json>): Option<ScoringRequest>
  {
    var amount, pm, cat, gender := NumAt(m, "amount"), StrAt(m, "payment_method"), StrAt(m, "category"), StrAt(m, "gender");
    var city, device, ship, browser := StrAt(m, "city"), StrAt(m, "device"), StrAt(m, "shipping_address"), StrAt(m, "browser_info");
    var age, hour, day := IntAt(m, "age"), IntAt(m, "hour"), IntAt(m, "day_of_week");
    var weekend, newDevice, diffCity := BoolAt(m, "is_weekend"), BoolAt(m, "is_new_device"), BoolAt(m, "is_different_city");
    var failed, billingMatch, accountAge, freq := IntAt(m, "failed_attempts"), BoolAt(m, "shipping_billing_match"), IntAt(m, "account_age"), IntAt(m, "transaction_frequency");
    if amount.None? || pm.None? || cat.None? || gender.None? || city.None? || device.None? || ship.None?
      || browser.None? || age.None? || hour.None? || day.None? || weekend.None? || newDevice.None?
      || diffCity.None? || failed.None? || billingMatch.None? || accountAge.None? || freq.None?
    then None
    else Some(ScoringRequest(amount.value, pm.value, cat.value, gender.value, city.value, device.value,
      ship.value, browser.value, age.value, hour.value, day.value, weekend.value, newDevice.value,
      diffCity.value, failed.value, billingMatch.value, accountAge.value, freq.value))
  }

  /** Every field of the request travels under its own wire name and is read back unchanged. */
  lemma WireRoundTrip(r: ScoringRequest)
    ensures FromWire(ToWire(r)) == Some(r)
  {
    var m := ToWire(r);
    assert NumAt(m, "amount") == Some(r.amount);
    assert StrAt(m, "payment_method") == Some(r.payment_method);
    assert StrAt(m, "category") == Some(r.category);
    assert StrAt(m, "gender") == Some(r.gender);
    assert StrAt(m, "city") == Some(r.city);
    assert StrAt(m, "device") == Some(r.device);
    assert StrAt(m, "shipping_address") == Some(r.shipping_address);
    assert StrAt(m, "browser_info") == Some(r.browser_info);
    IntReadsBack(m, "age", r.age);
    IntReadsBack(m, "hour", r.hour);
    IntReadsBack(m, "day_of_week", r.day_of_week);
    assert BoolAt(m, "is_weekend") == Some(r.is_weekend);
    assert BoolAt(m, "is_new_device") == Some(r.is_new_device);
    assert BoolAt(m, "is_different_city") == Some(r.is_different_city);
    IntReadsBack(m, "failed_attempts", r.failed_attempts);
    assert BoolAt(m, "shipping_billing_match") == Some(r.shipping_billing_match);
    IntReadsBack(m, "account_age", r.account_age);
    IntReadsBack(m, "transaction_frequency", r.transaction_frequency);
  }

  lemma IntReadsBack(m: map<string, Json>, k: string, i: int)
    requires k in m && m[k] == Int(i)
    ensures IntAt(m, k) == Some(i)
  {
    assert (i as real).Floor == i;
  }
}
