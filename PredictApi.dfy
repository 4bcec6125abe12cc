/**
 * `POST /api/predict` of the Flask backend: the model guard, the ordered
 * required-field check, the risk band of the probability, the eight risk-factor
 * rules and the response record. The classifier is a black box whose outcome
 * is a parameter.
 */
module PredictApi {
  import opened Wrappers
  import opened TextUtil
  import opened JsNumbers
  import opened Wire

  /** An HTTP status with its JSON body. */
  datatype Reply = Reply(status: nat, body: Body)
  datatype Body = Failure(error: string) | Scored(prediction: Prediction)

  /**
   * What preprocessing and the two classifiers produce for a request: the fraud
   * probability, the predicted label and the XGBoost probability (None when the
   * XGBoost model is absent).
   */
  datatype Scores = Scores(fraudProbability: real, isFraud: bool, xgbProbability: Option<real>)

  const RequiredFields: seq<string> := [
    "amount", "payment_method", "category", "city", "age", "device_type",
    "hour", "day_of_week", "is_weekend", "is_new_device", "is_different_city",
    "failed_attempts", "shipping_billing_match", "account_age", "transaction_frequency"
  ]

  /** The first of `fields`, in order, that is not among the keys present. */
  function FirstMissing(fields: seq<string>, present: set<string>): (r: Option<string>)
    ensures r.None? <==> forall i :: 0 <= i < |fields| ==> fields[i] in present
    ensures r.Some? ==> r.value in fields && r.value !in present
  {
    if fields == [] then None
    else if fields[0] !in present then Some(fields[0])
    else FirstMissing(fields[1..], present)
  }

  /** A field absent after only present fields is the one reported. */
  lemma {:induction false} FirstMissingAt(fields: seq<string>, present: set<string>, k: nat)
    requires k < |fields| && fields[k] !in present
    requires forall j :: 0 <= j < k ==> fields[j] in present
    ensures FirstMissing(fields, present) == Some(fields[k])
  {
    if k > 0 {
      FirstMissingAt(fields[1..], present, k - 1);
    }
  }

  /** The band of a fraud probability: above 0.7 High, above 0.3 Medium, else Low. */
  function RiskLevel(p: real): (r: string)
    ensures r == "High" <==> p > 0.7
    ensures r == "Medium" <==> 0.3 < p <= 0.7
    ensures r == "Low" <==> p <= 0.3
  {
    if p > 0.7 then "High" else if p > 0.3 then "Medium" else "Low"
  }

  /** The numeric view Python's `<` and `>` take of a JSON value (a bool is 0 or 1). */
  function Num(j: Json): Option<real>
  {
    match j
    case JNum(n) => Some(n)
    case JBool(b) => Some(if b then 1.0 else 0.0)
    case JStr(_) => None
    case JNull => None
  }

  /** Python's truth value of a JSON value. */
  predicate Truthy(j: Json)
  {
    match j
    case JNum(n) => n != 0.0
    case JStr(s) => s != ""
    case JBool(b) => b
    case JNull => false
  }

  function PyTypeName(j: Json): string
  {
    match j
    case JNum(_) => "float"
    case JStr(_) => "str"
    case JBool(_) => "bool"
    case JNull => "NoneType"
  }

  /** The message of the TypeError Python raises comparing `j` with an int. */
  function Unsupported(op: string, j: Json): string
  {
    "'" + op + "' not supported between instances of '" + PyTypeName(j) + "' and 'int'"
  }

  /** `j > bound`, or the TypeError it raises. */
  function Greater(j: Json, bound: int): (r: Result<bool>)
    ensures r.Ok? <==> Num(j).Some?
    ensures r.Ok? ==> (r.value <==> Num(j).value > bound as real)
  {
    match Num(j)
    case Some(x) => Ok(x > bound as real)
    case None => Err(Unsupported(">", j))
  }

  /** `j < bound`, or the TypeError it raises. */
  function Less(j: Json, bound: int): (r: Result<bool>)
    ensures r.Ok? <==> Num(j).Some?
    ensures r.Ok? ==> (r.value <==> Num(j).value < bound as real)
  {
    match Num(j)
    case Some(x) => Ok(x < bound as real)
    case None => Err(Unsupported("<", j))
  }

  /** The eight risk-factor rules, in the order they are tried. */
  datatype Rule =
    | HighAmount | RiskyPayment | OddHour | NewDevice
    | OtherCity | ManyFailures | AddressMismatch | NewAccount

  const Rules: seq<Rule> := [HighAmount, RiskyPayment, OddHour, NewDevice, OtherCity, ManyFailures, AddressMismatch, NewAccount]

  function Message(r: Rule): string
  {
    match r
    case HighAmount => "High transaction amount"
    case RiskyPayment => "High-risk payment method"
    case OddHour => "Unusual transaction time"
    case NewDevice => "New device used"
    case OtherCity => "Different city transaction"
    case ManyFailures => "Multiple failed attempts"
    case AddressMismatch => "Address mismatch"
    case NewAccount => "New account"
  }

  /** The request fields the rules read; all of them are required fields. */
  predicate HasRuleFields(data: map<string, Json>)
  {
    && "amount" in data && "payment_method" in data && "hour" in data
    && "is_new_device" in data && "is_different_city" in data && "failed_attempts" in data
    && "shipping_billing_match" in data && "account_age" in data
  }

  /** Whether a rule fires for a request, or the TypeError evaluating it raises. */
  function Fires(r: Rule, data: map<string, Json>): (res: Result<bool>)
    requires HasRuleFields(data)
    ensures r in {RiskyPayment, NewDevice, OtherCity, AddressMismatch} ==> res.Ok?
  {
    match r
    case HighAmount => Greater(data["amount"], 50000)
    case RiskyPayment => Ok(data["payment_method"] == JStr("Cash") || data["payment_method"] == JStr("Wallet"))
    case OddHour =>
      (match Less(data["hour"], 6)
       case Err(e) => Err(e)
       case Ok(early) => if early then Ok(true) else Greater(data["hour"], 22))
    case NewDevice => Ok(Truthy(data["is_new_device"]))
    case OtherCity => Ok(Truthy(data["is_different_city"]))
    case ManyFailures => Greater(data["failed_attempts"], 2)
    case AddressMismatch => Ok(!Truthy(data["shipping_billing_match"]))
    case NewAccount => Less(data["account_age"], 30)
  }

  /**
   * The messages of the rules that fire, tried in order; the first rule whose
   * comparison raises ends the evaluation with its error.
   */
  function FactorsFrom(rules: seq<Rule>, data: map<string, Json>): Result<seq<string>>
    requires HasRuleFields(data)
    decreases |rules|
  {
    if rules == [] then Ok([])
    else
      var n := |rules| - 1;
      match FactorsFrom(rules[..n], data)
      case Err(e) => Err(e)
      case Ok(prev) =>
        match Fires(rules[n], data)
        case Err(e) => Err(e)
        case Ok(fires) => Ok(prev + if fires then [Message(rules[n])] else [])
  }

  /** The factor list of a request: an error iff some rule raises, else at most one message per rule. */
  function RiskFactors(data: map<string, Json>): (r: Result<seq<string>>)
    requires HasRuleFields(data)
    ensures r.Err? <==> exists i :: 0 <= i < |Rules| && Fires(Rules[i], data).Err?
    ensures r.Ok? ==> |r.value| <= |Rules|
  {
    FactorsErrIff(Rules, data);
    assert FactorsFrom(Rules, data).Ok? ==> |FactorsFrom(Rules, data).value| <= |Rules| by {
      if FactorsFrom(Rules, data).Ok? {
        FactorsDistinct(Rules, data);
      }
    }
    FactorsFrom(Rules, data)
  }

  /** Distinct rules have distinct messages. */
  lemma MessagesDistinct(r1: Rule, r2: Rule)
    ensures Message(r1) == Message(r2) <==> r1 == r2
  {
  }

  /** The factor list is an error exactly when some rule raises. */
  lemma {:induction false} FactorsErrIff(rules: seq<Rule>, data: map<string, Json>)
    requires HasRuleFields(data)
    ensures FactorsFrom(rules, data).Err? <==> exists i :: 0 <= i < |rules| && Fires(rules[i], data).Err?
    decreases |rules|
  {
    if rules != [] {
      var n := |rules| - 1;
      FactorsErrIff(rules[..n], data);
      assert forall i :: 0 <= i < n ==> rules[..n][i] == rules[i];
    }
  }

  /** The factor list holds exactly the messages of the rules that fire. */
  lemma {:induction false} FactorsAreFiredMessages(rules: seq<Rule>, data: map<string, Json>)
    requires HasRuleFields(data)
    requires FactorsFrom(rules, data).Ok?
    ensures forall x :: x in FactorsFrom(rules, data).value <==>
      exists i :: 0 <= i < |rules| && Fires(rules[i], data) == Ok(true) && x == Message(rules[i])
    decreases |rules|
  {
    if rules != [] {
      var n := |rules| - 1;
      var init := rules[..n];
      FactorsAreFiredMessages(init, data);
      assert forall i :: 0 <= i < n ==> init[i] == rules[i];
      var fs := FactorsFrom(rules, data).value;
      forall x | x in fs
        ensures exists i :: 0 <= i < |rules| && Fires(rules[i], data) == Ok(true) && x == Message(rules[i])
      {
        if x !in FactorsFrom(init, data).value {
          assert Fires(rules[n], data) == Ok(true) && x == Message(rules[n]);
        }
      }
    }
  }

  /** For distinct rules the list has no repetition and at most one entry per rule. */
  lemma {:induction false} FactorsDistinct(rules: seq<Rule>, data: map<string, Json>)
    requires HasRuleFields(data)
    requires forall i, j :: 0 <= i < j < |rules| ==> rules[i] != rules[j]
    requires FactorsFrom(rules, data).Ok?
    ensures var fs := FactorsFrom(rules, data).value;
      |fs| <= |rules| && forall i, j :: 0 <= i < j < |fs| ==> fs[i] != fs[j]
    decreases |rules|
  {
    if rules != [] {
      var n := |rules| - 1;
      var init := rules[..n];
      FactorsDistinct(init, data);
      FactorsAreFiredMessages(init, data);
      var prev := FactorsFrom(init, data).value;
      forall x | x in prev
        ensures x != Message(rules[n])
      {
        var i :| 0 <= i < n && Fires(init[i], data) == Ok(true) && x == Message(init[i]);
        MessagesDistinct(init[i], rules[n]);
      }
      var fs := FactorsFrom(rules, data).value;
      forall i, j | 0 <= i < j < |fs|
        ensures fs[i] != fs[j]
      {
        assert fs[i] == prev[i] && prev[i] in prev;
        if j < |prev| {
          assert fs[j] == prev[j];
        }
      }
    }
  }

  /** A rule of the table fires exactly when its message is listed. */
  lemma ListedIffFires(data: map<string, Json>, r: Rule)
    requires HasRuleFields(data)
    requires RiskFactors(data).Ok? && r in Rules
    ensures Fires(r, data).Ok?
    ensures Message(r) in RiskFactors(data).value <==> Fires(r, data) == Ok(true)
  {
    FactorsErrIff(Rules, data);
    FactorsAreFiredMessages(Rules, data);
    forall i | 0 <= i < |Rules| && Message(r) == Message(Rules[i])
      ensures r == Rules[i]
    {
      MessagesDistinct(r, Rules[i]);
    }
  }

  /**
   * The eight rules as conditions on the request: each message appears exactly
   * when its condition holds, at most once, so there are at most eight.
   */
  lemma RiskFactorConditions(data: map<string, Json>)
    requires HasRuleFields(data)
    requires RiskFactors(data).Ok?
    ensures var fs := RiskFactors(data).value;
      && |fs| <= 8
      && (forall i, j :: 0 <= i < j < |fs| ==> fs[i] != fs[j])
      && ("High transaction amount" in fs <==> Num(data["amount"]).Some? && Num(data["amount"]).value > 50000.0)
      && ("High-risk payment method" in fs <==> data["payment_method"] in {JStr("Cash"), JStr("Wallet")})
      && ("Unusual transaction time" in fs <==>
            Num(data["hour"]).Some? && (Num(data["hour"]).value < 6.0 || Num(data["hour"]).value > 22.0))
      && ("New device used" in fs <==> Truthy(data["is_new_device"]))
      && ("Different city transaction" in fs <==> Truthy(data["is_different_city"]))
      && ("Multiple failed attempts" in fs <==>
            Num(data["failed_attempts"]).Some? && Num(data["failed_attempts"]).value > 2.0)
      && ("Address mismatch" in fs <==> !Truthy(data["shipping_billing_match"]))
      && ("New account" in fs <==> Num(data["account_age"]).Some? && Num(data["account_age"]).value < 30.0)
  {
    FactorsDistinct(Rules, data);
    ListedIffFires(data, HighAmount);
    ListedIffFires(data, RiskyPayment);
    ListedIffFires(data, OddHour);
    ListedIffFires(data, NewDevice);
    ListedIffFires(data, OtherCity);
    ListedIffFires(data, ManyFailures);
    ListedIffFires(data, AddressMismatch);
    ListedIffFires(data, NewAccount);
  }

  /** The factors are computed only after the rule fields were found present. */
  lemma RequiredCoverRuleFields(data: map<string, Json>)
    requires FirstMissing(RequiredFields, data.Keys).None?
    ensures HasRuleFields(data)
  {
    assert RequiredFields[0] == "amount" && RequiredFields[1] == "payment_method";
    assert RequiredFields[6] == "hour" && RequiredFields[9] == "is_new_device";
    assert RequiredFields[10] == "is_different_city" && RequiredFields[11] == "failed_attempts";
    assert RequiredFields[12] == "shipping_billing_match" && RequiredFields[13] == "account_age";
  }

  /** `f"TXN{n}"` for the drawn number. */
  function TransactionId(draw: nat): string
  {
    "TXN" + DecimalText(draw)
  }

  /** A drawn id is "TXN" and four digits that read back as the draw. */
  lemma TransactionIdShape(draw: nat)
    requires 1000 <= draw <= 9999
    ensures var id := TransactionId(draw);
      && |id| == 7 && id[..3] == "TXN"
      && (forall i :: 3 <= i < 7 ==> '0' <= id[i] <= '9')
      && ParseInt(id[3..]) == Some(draw)
  {
    var id := TransactionId(draw);
    assert |DecimalText(draw / 1000)| == 1;
    assert |DecimalText(draw / 100)| == 2;
    assert |DecimalText(draw / 10)| == 3;
    assert id[3..] == DecimalText(draw);
    ParseIntOfDecimal(draw);
  }

  /** Once a prefix of the rules raises, the whole evaluation raises the same error. */
  lemma {:induction false} ErrorSticks(rules: seq<Rule>, data: map<string, Json>, k: nat)
    requires HasRuleFields(data)
    requires k <= |rules| && FactorsFrom(rules[..k], data).Err?
    ensures FactorsFrom(rules, data) == FactorsFrom(rules[..k], data)
    decreases |rules|
  {
    if k < |rules| {
      var n := |rules| - 1;
      assert rules[..n][..k] == rules[..k];
      ErrorSticks(rules[..n], data, k);
    } else {
      assert rules[..k] == rules;
    }
  }

  /** One more rule evaluated after an error-free prefix that did not raise. */
  lemma Appended(data: map<string, Json>, k: nat, r: Rule, prev: seq<string>, fires: bool)
    requires HasRuleFields(data)
    requires k < |Rules| && Rules[k] == r && FactorsFrom(Rules[..k], data) == Ok(prev)
    requires Fires(r, data) == Ok(fires)
    ensures fires ==> FactorsFrom(Rules[..k + 1], data) == Ok(prev + [Message(r)])
    ensures !fires ==> FactorsFrom(Rules[..k + 1], data) == Ok(prev)
  {
    assert Rules[..k + 1][..k] == Rules[..k];
    assert prev + [] == prev;
  }

  /** One more rule evaluated after an error-free prefix that raised. */
  lemma Raised(data: map<string, Json>, k: nat, prev: seq<string>, e: string)
    requires HasRuleFields(data)
    requires k < |Rules| && FactorsFrom(Rules[..k], data) == Ok(prev)
    requires Fires(Rules[k], data) == Err(e)
    ensures RiskFactors(data) == Err(e)
  {
    assert Rules[..k + 1][..k] == Rules[..k];
    ErrorSticks(Rules, data, k + 1);
  }

  /**
   * The eight `if` statements, each appending its message when the rule fires;
   * the first four look at the transaction, the last four at the account history.
   */
  method CollectRiskFactors(data: map<string, Json>) returns (r: Result<seq<string>>)
    requires HasRuleFields(data)
    ensures r == RiskFactors(data)
  {
    var factors: seq<string> := [];
    ghost var k: nat := 0;
    assert Rules[..k] == [];
    ghost var prev := factors;

    var amountHigh := Greater(data["amount"], 50000);
    if amountHigh.Err? {
      Raised(data, k, prev, amountHigh.error);
      return Err(amountHigh.error);
    }
    if amountHigh.value {
      factors := factors + ["High transaction amount"];
    }
    Appended(data, k, HighAmount, prev, amountHigh.value);
    prev, k := factors, k + 1;

    var riskyPayment := data["payment_method"] == JStr("Cash") || data["payment_method"] == JStr("Wallet");
    if riskyPayment {
      factors := factors + ["High-risk payment method"];
    }
    Appended(data, k, RiskyPayment, prev, riskyPayment);
    prev, k := factors, k + 1;

    var early := Less(data["hour"], 6);
    if early.Err? {
      Raised(data, k, prev, early.error);
      return Err(early.error);
    }
    var oddHour := true;
    if !early.value {
      // `hour` compared once already, so the second comparison cannot raise.
      var late := Greater(data["hour"], 22);
      oddHour := late.value;
    }
    if oddHour {
      factors := factors + ["Unusual transaction time"];
    }
    Appended(data, k, OddHour, prev, oddHour);
    prev, k := factors, k + 1;

    if Truthy(data["is_new_device"]) {
      factors := factors + ["New device used"];
    }
    Appended(data, k, NewDevice, prev, Truthy(data["is_new_device"]));
    prev, k := factors, k + 1;

    r := CollectHistoryFactors(data, factors);
  }

  /** Rules five to eight, continuing the list of the first four. */
  method CollectHistoryFactors(data: map<string, Json>, factors0: seq<string>) returns (r: Result<seq<string>>)
    requires HasRuleFields(data)
    requires FactorsFrom(Rules[..4], data) == Ok(factors0)
    ensures r == RiskFactors(data)
  {
    var factors := factors0;
    ghost var k: nat := 4;
    ghost var prev := factors;

    if Truthy(data["is_different_city"]) {
      factors := factors + ["Different city transaction"];
    }
    Appended(data, k, OtherCity, prev, Truthy(data["is_different_city"]));
    prev, k := factors, k + 1;

    var manyFailures := Greater(data["failed_attempts"], 2);
    if manyFailures.Err? {
      Raised(data, k, prev, manyFailures.error);
      return Err(manyFailures.error);
    }
    if manyFailures.value {
      factors := factors + ["Multiple failed attempts"];
    }
    Appended(data, k, ManyFailures, prev, manyFailures.value);
    prev, k := factors, k + 1;

    if !Truthy(data["shipping_billing_match"]) {
      factors := factors + ["Address mismatch"];
    }
    Appended(data, k, AddressMismatch, prev, !Truthy(data["shipping_billing_match"]));
    prev, k := factors, k + 1;

    var young := Less(data["account_age"], 30);
    if young.Err? {
      Raised(data, k, prev, young.error);
      return Err(young.error);
    }
    if young.value {
      factors := factors + ["New account"];
    }
    Appended(data, k, NewAccount, prev, young.value);
    assert Rules[..k + 1] == Rules;
    return Ok(factors);
  }

  /** `x * 100` as sent in the response; the rounding to two decimals is not modelled. */
  function Percent(x: real): real
  {
    x * 100.0
  }

  /** The success record for the given scores, factors, draw and clock reading. */
  function Success(scores: Scores, factors: seq<string>, draw: nat, now: string): Prediction
  {
    var p := scores.fraudProbability;
    var xgb := match scores.xgbProbability case Some(x) => x case None => p;
    Prediction(scores.isFraud, Percent(p), Percent(xgb), RiskLevel(p), factors, TransactionId(draw), now)
  }

  /**
   * `predict_fraud`: the model guard, then the required fields in order, then
   * the scoring, then the risk factors; the first failure decides the reply.
   * `draw` is the value of `random.randint(1000, 9999)`, `now` the clock.
   */
  method PredictFraud(modelLoaded: bool, data: map<string, Json>, scoring: Result<Scores>, draw: nat, now: string)
    returns (reply: Reply)
    requires 1000 <= draw <= 9999
    ensures !modelLoaded ==> reply == Reply(500, Failure("Model not loaded"))
    ensures modelLoaded && FirstMissing(RequiredFields, data.Keys).Some? ==>
      reply == Reply(400, Failure("Missing field: " + FirstMissing(RequiredFields, data.Keys).value))
    ensures modelLoaded && FirstMissing(RequiredFields, data.Keys).None? ==>
      && HasRuleFields(data)
      && (scoring.Err? ==> reply == Reply(500, Failure(scoring.error)))
      && (scoring.Ok? && RiskFactors(data).Err? ==> reply == Reply(500, Failure(RiskFactors(data).error)))
      && (scoring.Ok? && RiskFactors(data).Ok? ==>
            reply == Reply(200, Scored(Success(scoring.value, RiskFactors(data).value, draw, now))))
  {
    if !modelLoaded {
      return Reply(500, Failure("Model not loaded"));
    }
    for i := 0 to |RequiredFields|
      invariant forall j :: 0 <= j < i ==> RequiredFields[j] in data
    {
      if RequiredFields[i] !in data {
        FirstMissingAt(RequiredFields, data.Keys, i);
        return Reply(400, Failure("Missing field: " + RequiredFields[i]));
      }
    }
    RequiredCoverRuleFields(data);
    if scoring.Err? {
      return Reply(500, Failure(scoring.error));
    }
    var p := scoring.value.fraudProbability;
    var riskLevel := "Low";
    if p > 0.7 {
      riskLevel := "High";
    } else if p > 0.3 {
      riskLevel := "Medium";
    }
    var factors := CollectRiskFactors(data);
    if factors.Err? {
      return Reply(500, Failure(factors.error));
    }
    var xgb := if scoring.value.xgbProbability.Some? then scoring.value.xgbProbability.value else p;
    var prediction := Prediction(scoring.value.isFraud, Percent(p), Percent(xgb), riskLevel, factors.value, "TXN" + DecimalText(draw), now);
    return Reply(200, Scored(prediction));
  }

  /** A successful reply is the only one with status 200; its id and band are well formed. */
  lemma SuccessShape(scores: Scores, factors: seq<string>, draw: nat, now: string)
    requires 1000 <= draw <= 9999
    ensures var s := Success(scores, factors, draw, now);
      && s.risk_level in {"High", "Medium", "Low"}
      && |s.transaction_id| == 7 && s.transaction_id[..3] == "TXN"
      && ParseInt(s.transaction_id[3..]) == Some(draw)
  {
    TransactionIdShape(draw);
  }
}
