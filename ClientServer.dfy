/**
 * What the fraud-detection page sends meets what `POST /api/predict` expects.
 */
module ClientServer {
  import opened Wrappers
  import opened Wire
  import opened FraudForm
  import opened PredictApi

  /**
   * The page names the device field `device`, the server requires `device_type`:
   * the first five required fields are sent, the sixth never is, so every
   * request body the page can send is rejected as missing `device_type`.
   */
  lemma RequestLacksDeviceType(r: ScoringRequest)
    ensures FirstMissing(RequiredFields, ToWire(r).Keys) == Some("device_type")
  {
    assert RequiredFields[5] == "device_type" && "device_type" !in WireNames;
    assert forall j :: 0 <= j < 5 ==> RequiredFields[j] in WireNames;
    FirstMissingAt(RequiredFields, WireNames, 5);
  }

  /** The request built from any form in particular. */
  lemma PageRequestLacksDeviceType(form: TransactionForm)
    ensures FirstMissing(RequiredFields, ToWire(BuildRequest(form)).Keys) == Some("device_type")
  {
    RequestLacksDeviceType(BuildRequest(form));
  }

  /** The payment method travels as the string the page holds. */
  lemma PaymentTravelsAsText(r: ScoringRequest)
    ensures "payment_method" in ToWire(r) && ToWire(r)["payment_method"] == JStr(r.payment_method)
  {
  }

  /**
   * The page offers payment methods in lower case while the server's rule
   * looks for "Cash" or "Wallet": no payment method the page offers is risky.
   */
  lemma PagePaymentNeverRisky(form: TransactionForm)
    requires form.paymentMethod in PaymentMethods
    ensures ToWire(BuildRequest(form))["payment_method"] !in {JStr("Cash"), JStr("Wallet")}
  {
    var r := BuildRequest(form);
    PaymentTravelsAsText(r);
    assert r.payment_method == form.paymentMethod;
    OfferedMethodsAreLowerCase(form.paymentMethod);
  }

  /** None of the offered payment methods is spelled "Cash" or "Wallet". */
  lemma OfferedMethodsAreLowerCase(pm: string)
    requires pm in PaymentMethods
    ensures pm != "Cash" && pm != "Wallet"
  {
  }
}
