/**
 * The sophisticated synthetic dataset: the additive fraud-probability rule,
 * the per-row label, amount and hour draws, and the final shuffle that
 * renumbers the rows. Probabilities are integer hundredths; each random draw is
 * a nondeterministic choice within the range the generator draws from.
 */
module SyntheticData {

  /** The attributes of a row the fraud rule reads. */
  datatype Profile = Profile(
    category: string,
    paymentMethod: string,
    device: string,
    shippingAddress: string,
    dayOfWeek: int,
    age: int)

  // The contribution of each attribute to the risk score, in hundredths.

  function DeviceRisk(device: string): int
  {
    if device == "desktop" then 10 else if device == "tablet" then 5 else 0
  }

  function PaymentRisk(paymentMethod: string): int
  {
    if paymentMethod == "wallet" then 15
    else if paymentMethod == "net_banking" then 5
    else if paymentMethod == "upi" then -10
    else 0
  }

  function ShippingRisk(shippingAddress: string): int
  {
    if shippingAddress == "Different" then 20 else 0
  }

  function AgeRisk(age: int): int
  {
    if age < 25 || age > 65 then 10 else 0
  }

  function WeekendRisk(day: int): int
  {
    if day == 0 || day == 6 then 5 else 0
  }

  function CategoryRisk(category: string): int
  {
    if category == "electronics" then 10
    else if category == "mobile_recharge" then 5
    else if category == "groceries" then -5
    else 0
  }

  /** Each attribute's branches are exclusive: no attribute adds two terms. */
  lemma OneTermPerAttribute(p: Profile)
    ensures DeviceRisk(p.device) in {0, 5, 10}
    ensures PaymentRisk(p.paymentMethod) in {-10, 0, 5, 15}
    ensures ShippingRisk(p.shippingAddress) in {0, 20}
    ensures AgeRisk(p.age) in {0, 10}
    ensures WeekendRisk(p.dayOfWeek) in {0, 5}
    ensures CategoryRisk(p.category) in {-5, 0, 5, 10}
  {
  }

  /** The risk score as the sum of one term per attribute. */
  function TermSum(p: Profile): int
  {
    DeviceRisk(p.device) + PaymentRisk(p.paymentMethod) + ShippingRisk(p.shippingAddress)
      + AgeRisk(p.age) + WeekendRisk(p.dayOfWeek) + CategoryRisk(p.category)
  }

  const BaseProbability := 20
  const MinProbability := 5
  const MaxProbability := 80

  /** The `risk_score +=` statements of one row. */
  method RiskScore(p: Profile) returns (score: int)
    ensures score == TermSum(p)
    ensures -15 <= score <= 70
  {
    score := 0;
    if p.device == "desktop" {
      score := score + 10;
    } else if p.device == "tablet" {
      score := score + 5;
    }
    if p.paymentMethod == "wallet" {
      score := score + 15;
    } else if p.paymentMethod == "net_banking" {
      score := score + 5;
    } else if p.paymentMethod == "upi" {
      score := score - 10;
    }
    if p.shippingAddress == "Different" {
      score := score + 20;
    }
    if p.age < 25 || p.age > 65 {
      score := score + 10;
    }
    if p.dayOfWeek == 0 || p.dayOfWeek == 6 {
      score := score + 5;
    }
    if p.category == "electronics" {
      score := score + 10;
    } else if p.category == "mobile_recharge" {
      score := score + 5;
    } else if p.category == "groceries" {
      score := score - 5;
    }
  }

  /** `min(0.8, max(0.05, 0.20 + risk_score))` in hundredths. */
  function FraudProbability(score: int): (prob: int)
    ensures MinProbability <= prob <= MaxProbability
    ensures prob == MaxProbability <==> BaseProbability + score >= MaxProbability
    ensures prob == MinProbability <==> BaseProbability + score <= MinProbability
  {
    var raised := if BaseProbability + score > MinProbability then BaseProbability + score else MinProbability;
    if raised < MaxProbability then raised else MaxProbability
  }

  /** The unclamped probability lies in [5, 90]: only the upper clamp can apply. */
  lemma LowerClampInactive(p: Profile)
    ensures MinProbability <= BaseProbability + TermSum(p) <= 90
    ensures FraudProbability(TermSum(p)) ==
      if BaseProbability + TermSum(p) < MaxProbability then BaseProbability + TermSum(p) else MaxProbability
  {
  }

  /** The riskiest profile reaches 90 before clamping, the safest exactly 5. */
  lemma ExtremeProfiles()
    ensures TermSum(Profile("electronics", "wallet", "desktop", "Different", 0, 20)) == 70
    ensures FraudProbability(70) == MaxProbability
    ensures TermSum(Profile("groceries", "upi", "mobile", "Same as billing", 3, 30)) == -15
    ensures FraudProbability(-15) == MinProbability
  {
  }

  /**
   * The amount band `np.random.uniform(lo, hi)` draws from, chosen by the label,
   * the category and the `random.random()` values `r1` and `r2` (the second
   * one is drawn only where the generator draws it).
   */
  function AmountBand(isFraud: bool, category: string, r1: real, r2: real): (band: (int, int))
    ensures 50 <= band.0 < band.1 <= 300000
  {
    if isFraud then
      if category == "mobile_recharge" then (500, 10000)
      else if category == "food_delivery" then (2000, 15000)
      else if category == "electronics" then (10000, 200000)
      else if r1 < 0.3 then (50000, 300000)
      else if r2 < 0.5 then (10000, 50000)
      else (2000, 20000)
    else
      if category == "electronics" then (if r1 < 0.2 then (30000, 150000) else (5000, 30000))
      else if category == "clothing" then (if r1 < 0.1 then (15000, 50000) else (500, 15000))
      else if category == "mobile_recharge" then (50, 1000)
      else if category == "food_delivery" then (200, 3000)
      else if r1 < 0.15 then (25000, 100000)
      else if r2 < 0.35 then (5000, 25000)
      else (100, 5000)
  }

  /** The smallest range covering every band a (label, category) pair can draw from. */
  function AmountRange(isFraud: bool, category: string): (int, int)
  {
    if isFraud then
      if category == "mobile_recharge" then (500, 10000)
      else if category == "food_delivery" then (2000, 15000)
      else if category == "electronics" then (10000, 200000)
      else (2000, 300000)
    else
      if category == "electronics" then (5000, 150000)
      else if category == "clothing" then (500, 50000)
      else if category == "mobile_recharge" then (50, 1000)
      else if category == "food_delivery" then (200, 3000)
      else (100, 100000)
  }

  /** Whatever the draws, the band lies inside the range of its label and category. */
  lemma BandWithinRange(isFraud: bool, category: string, r1: real, r2: real)
    ensures var band := AmountBand(isFraud, category, r1, r2);
      var range := AmountRange(isFraud, category);
      range.0 <= band.0 && band.1 <= range.1
  {
  }

  /** `x` lies in the half-open interval `[band.0, band.1)`, as `np.random.uniform` draws. */
  predicate Within(x: real, band: (int, int))
  {
    band.0 as real <= x < band.1 as real
  }

  /** Two of the bands: legitimate mobile recharges and fraudulent electronics purchases. */
  lemma BandExamples(r1: real, r2: real)
    ensures AmountBand(false, "mobile_recharge", r1, r2) == (50, 1000)
    ensures AmountBand(true, "electronics", r1, r2) == (10000, 200000)
    ensures AmountBand(true, "travel", r1, r2) == (50000, 300000) <==> r1 < 0.3
  {
  }

  /** The hours outside 6..22 a row can be given as unusual. */
  const UnusualHours: seq<int> := [0, 1, 2, 3, 4, 5, 23]

  /** The chance, in hundredths, of drawing an unusual hour. */
  function UnusualHourChance(isFraud: bool): int
  {
    if isFraud then 60 else 15
  }

  /**
   * The loop over the rows: for each profile, draw the label with its fraud
   * probability, then an amount from its band, then an hour.
   */
  method GenerateRows(profiles: seq<Profile>) returns (amounts: seq<real>, hours: seq<int>, isFraud: seq<bool>)
    ensures |amounts| == |profiles| && |hours| == |profiles| && |isFraud| == |profiles|
    ensures forall j :: 0 <= j < |profiles| ==>
      Within(amounts[j], AmountRange(isFraud[j], profiles[j].category))
    ensures forall j :: 0 <= j < |profiles| ==> 50.0 <= amounts[j] < 300000.0
    ensures forall j :: 0 <= j < |profiles| ==> hours[j] in UnusualHours || 6 <= hours[j] <= 22
    ensures forall j :: 0 <= j < |profiles| ==> 0 <= hours[j] <= 23
  {
    amounts, hours, isFraud := [], [], [];
    for i := 0 to |profiles|
      invariant |amounts| == i && |hours| == i && |isFraud| == i
      invariant forall j :: 0 <= j < i ==>
        Within(amounts[j], AmountRange(isFraud[j], profiles[j].category))
      invariant forall j :: 0 <= j < i ==> 50.0 <= amounts[j] < 300000.0
      invariant forall j :: 0 <= j < i ==> hours[j] in UnusualHours || 6 <= hours[j] <= 22
      invariant forall j :: 0 <= j < i ==> 0 <= hours[j] <= 23
    {
      var score := RiskScore(profiles[i]);
      var prob := FraudProbability(score);
      var u: real :| 0.0 <= u < 1.0;
      var fraud := u < prob as real / 100.0;

      var r1: real :| 0.0 <= r1 < 1.0;
      var r2: real :| 0.0 <= r2 < 1.0;
      var band := AmountBand(fraud, profiles[i].category, r1, r2);
      BandWithinRange(fraud, profiles[i].category, r1, r2);
      assert Within(band.0 as real, band);
      var amount: real :| Within(amount, band);
      var range := AmountRange(fraud, profiles[i].category);
      assert Within(amount, band);
      assert range.0 as real <= band.0 as real && band.1 as real <= range.1 as real;

      var h: real :| 0.0 <= h < 1.0;
      var hour: int;
      if h < UnusualHourChance(fraud) as real / 100.0 {
        var k: nat :| k < |UnusualHours|;
        hour := UnusualHours[k];
      } else {
        hour :| 6 <= hour < 23;
      }

      amounts, hours, isFraud := amounts + [amount], hours + [hour], isFraud + [fraud];
    }
  }

  /** A generated row; the other columns are carried unchanged and not modelled. */
  datatype GeneratedRow = GeneratedRow(transactionId: nat, profile: Profile, amount: real, hour: int, isFraud: bool)

  /** `perm` lists each of the indices 0..n-1 exactly once. */
  predicate IsPermutation(perm: seq<nat>, n: nat)
  {
    && |perm| == n
    && (forall i :: 0 <= i < n ==> perm[i] < n)
    && (forall i, j :: 0 <= i < j < n ==> perm[i] != perm[j])
  }

  /**
   * `df.sample(frac=1)` followed by `df['transaction_id'] = range(1, n + 1)`:
   * the rows in some order, each once, numbered 1..n in their new order.
   */
  method ShuffleAndRenumber(rows: seq<GeneratedRow>) returns (out: seq<GeneratedRow>)
    ensures |out| == |rows|
    ensures forall i :: 0 <= i < |out| ==> out[i].transactionId == i + 1
    ensures exists perm ::
      && IsPermutation(perm, |rows|)
      && (forall i :: 0 <= i < |rows| ==> out[i] == rows[perm[i]].(transactionId := i + 1))
  {
    var identity := seq(|rows|, i => i);
    assert IsPermutation(identity, |rows|);
    var perm: seq<nat> :| IsPermutation(perm, |rows|);
    out := [];
    for i := 0 to |rows|
      invariant IsPermutation(perm, |rows|) && |out| == i
      invariant forall j :: 0 <= j < i ==> out[j] == rows[perm[j]].(transactionId := j + 1)
    {
      out := out + [rows[perm[i]].(transactionId := i + 1)];
    }
  }
}
