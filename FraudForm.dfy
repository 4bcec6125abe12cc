/**
 * The transaction form of the fraud-detection page: the field coercion done on
 * every edit (`handleInputChange`) and the request built on submit (`apiData`).
 */
module FraudForm {
  import opened Wrappers
  import opened TextUtil
  import opened JsNumbers
  import opened Wire

  /** A numeric form field holds either a number or the empty text. */
  datatype FormValue = Text(s: string) | Number(x: real)

  datatype Field =
    | Amount | Hour | DayOfWeek | Category | Age | Gender | Country | Device
    | PaymentMethod | ItemQuantity | ShippingAddress | BrowserInfo

  /** The five inputs whose edits go through `parseFloat`. */
  predicate IsNumeric(f: Field)
  {
    f == Amount || f == Hour || f == DayOfWeek || f == Age || f == ItemQuantity
  }

  /** `TransactionData`: the numeric fields are `number | string`, the others `string`. */
  datatype TransactionForm = TransactionForm(
    amount: FormValue,
    hour: FormValue,
    dayOfWeek: FormValue,
    category: string,
    age: FormValue,
    gender: string,
    country: string,
    device: string,
    paymentMethod: string,
    itemQuantity: FormValue,
    shippingAddress: string,
    browserInfo: string)
  {
    /** The value of one field, strings seen as text. */
    function Get(f: Field): FormValue
    {
      match f
      case Amount => amount
      case Hour => hour
      case DayOfWeek => dayOfWeek
      case Category => Text(category)
      case Age => age
      case Gender => Text(gender)
      case Country => Text(country)
      case Device => Text(device)
      case PaymentMethod => Text(paymentMethod)
      case ItemQuantity => itemQuantity
      case ShippingAddress => Text(shippingAddress)
      case BrowserInfo => Text(browserInfo)
    }
  }

  /** The options of the payment-method select. */
  const PaymentMethods: seq<string> := ["upi", "credit_card", "debit_card", "net_banking", "wallet"]

  const EmptyForm := TransactionForm(Text(""), Text(""), Text(""), "", Text(""), "", "", "", "", Text(""), "", "")

  /** `value === "" ? "" : (parseFloat(value) || "")`: NaN and 0 are both falsy. */
  function CoerceNumber(value: string): (r: FormValue)
    ensures r == Text("") || (r.Number? && r.x != 0.0)
  {
    if value == "" then Text("")
    else match ParseFloat(value)
      case None => Text("")
      case Some(x) => if x == 0.0 then Text("") else Number(x)
  }

  /** The coerced value is blank exactly when `parseFloat` gives NaN or 0, and otherwise that number. */
  lemma CoerceNumberMeaning(value: string)
    ensures CoerceNumber(value) == Text("") <==> ParseFloat(value).None? || ParseFloat(value) == Some(0.0)
    ensures CoerceNumber(value) != Text("") ==> CoerceNumber(value) == Number(ParseFloat(value).value)
  {
    if value == "" {
      EmptyIsNaN();
    }
  }

  /** `{...prev, [name]: v}`: one field replaced, every other field kept. */
  function WithValue(prev: TransactionForm, f: Field, v: FormValue): (r: TransactionForm)
    requires !IsNumeric(f) ==> v.Text?
    ensures r.Get(f) == v
    ensures forall g :: g != f ==> r.Get(g) == prev.Get(g)
  {
    match f
    case Amount => prev.(amount := v)
    case Hour => prev.(hour := v)
    case DayOfWeek => prev.(dayOfWeek := v)
    case Category => prev.(category := v.s)
    case Age => prev.(age := v)
    case Gender => prev.(gender := v.s)
    case Country => prev.(country := v.s)
    case Device => prev.(device := v.s)
    case PaymentMethod => prev.(paymentMethod := v.s)
    case ItemQuantity => prev.(itemQuantity := v)
    case ShippingAddress => prev.(shippingAddress := v.s)
    case BrowserInfo => prev.(browserInfo := v.s)
  }

  /** The state updater of `handleInputChange`: numeric inputs are coerced, the others kept as typed. */
  function EditedForm(prev: TransactionForm, f: Field, value: string): (r: TransactionForm)
    ensures forall g :: g != f ==> r.Get(g) == prev.Get(g)
    ensures IsNumeric(f) ==> r.Get(f) == CoerceNumber(value)
    ensures !IsNumeric(f) ==> r.Get(f) == Text(value)
  {
    WithValue(prev, f, if IsNumeric(f) then CoerceNumber(value) else Text(value))
  }

  /** Every numeric field is blank or a non-zero number: what edits can leave behind. */
  predicate WellFormed(form: TransactionForm)
  {
    forall f :: IsNumeric(f) ==> form.Get(f) == Text("") || (form.Get(f).Number? && form.Get(f).x != 0.0)
  }

  /** The blank form is well formed, and every edit keeps the form well formed. */
  lemma EditKeepsWellFormed(prev: TransactionForm, f: Field, value: string)
    ensures WellFormed(EmptyForm)
    ensures WellFormed(prev) ==> WellFormed(EditedForm(prev, f, value))
  {
  }

  /** Typing 0 into a numeric field stores the empty text, as if nothing had been typed. */
  lemma TypedZeroIsErased(prev: TransactionForm, f: Field)
    requires IsNumeric(f)
    ensures EditedForm(prev, f, "0").Get(f) == Text("")
  {
    ParseFloatOfDecimal(0);
    assert DecimalText(0) == "0";
    CoerceNumberMeaning("0");
  }

  /** `parseFloat(v as string)`: a stored number converts to text and back to itself. */
  function FloatOf(v: FormValue): Option<real>
  {
    match v
    case Text(s) => ParseFloat(s)
    case Number(x) => Some(x)
  }

  /** `parseInt(v as string)`: a stored number is truncated toward zero. */
  function IntOf(v: FormValue): Option<int>
  {
    match v
    case Text(s) => ParseInt(s)
    case Number(x) => Some(Trunc(x))
  }

  /** `parseFloat(...) || 0`. */
  function FloatOrZero(v: FormValue): real
  {
    match FloatOf(v)
    case None => 0.0
    case Some(x) => x
  }

  /** `parseInt(...) || 0`. */
  function IntOrZero(v: FormValue): int
  {
    match IntOf(v)
    case None => 0
    case Some(i) => i
  }

  const IsNewDeviceDefault := false
  const IsDifferentCityDefault := false
  const FailedAttemptsDefault := 0
  const AccountAgeDefault := 365
  const TransactionFrequencyDefault := 5

  /** The `apiData` object built by `handleSubmit`. */
  function BuildRequest(form: TransactionForm): (r: ScoringRequest)
    ensures r.is_weekend <==> r.day_of_week == 0 || r.day_of_week == 6
    ensures r.shipping_billing_match <==> form.shippingAddress == "Same as billing"
    ensures r.city == form.country && r.device == form.device && r.payment_method == form.paymentMethod
    ensures r.category == form.category && r.gender == form.gender
    ensures r.shipping_address == form.shippingAddress && r.browser_info == form.browserInfo
    ensures !r.is_new_device && !r.is_different_city && r.failed_attempts == 0
    ensures r.account_age == 365 && r.transaction_frequency == 5
  {
    var day := IntOrZero(form.dayOfWeek);
    ScoringRequest(
      FloatOrZero(form.amount),
      form.paymentMethod,
      form.category,
      form.gender,
      form.country,
      form.device,
      form.shippingAddress,
      form.browserInfo,
      IntOrZero(form.age),
      IntOrZero(form.hour),
      day,
      day == 0 || day == 6,
      IsNewDeviceDefault,
      IsDifferentCityDefault,
      FailedAttemptsDefault,
      form.shippingAddress == "Same as billing",
      AccountAgeDefault,
      TransactionFrequencyDefault)
  }

  /**
   * On a well-formed form the numeric request fields are 0 for a blank field and
   * otherwise the stored number (truncated toward zero for the integer fields).
   */
  lemma NumericFieldsOfRequest(form: TransactionForm)
    requires WellFormed(form)
    ensures var r := BuildRequest(form);
      && (form.amount == Text("") ==> r.amount == 0.0)
      && (form.amount.Number? ==> r.amount == form.amount.x && r.amount != 0.0)
      && (form.age == Text("") ==> r.age == 0)
      && (form.age.Number? ==> r.age == Trunc(form.age.x))
      && (form.hour == Text("") ==> r.hour == 0)
      && (form.hour.Number? ==> r.hour == Trunc(form.hour.x))
      && (form.dayOfWeek == Text("") ==> r.day_of_week == 0)
      && (form.dayOfWeek.Number? ==> r.day_of_week == Trunc(form.dayOfWeek.x))
  {
    assert IsNumeric(Amount) && IsNumeric(Age) && IsNumeric(Hour) && IsNumeric(DayOfWeek);
  }

  predicate IsWhole(x: real) { x.Floor as real == x }

  /**
   * The constraint check of a `required` number input with `min`, an optional
   * `max` and `step`: it must show a number, within the bounds, a whole
   * number of steps above the minimum. A blank input fails `required`.
   */
  predicate InputValid(v: FormValue, lo: real, hi: Option<real>, step: real)
    requires step > 0.0
  {
    && v.Number?
    && lo <= v.x
    && (hi.Some? ==> v.x <= hi.value)
    && IsWhole((v.x - lo) / step)
  }

  /**
   * The browser fires `onSubmit` only when every number input passes its
   * check: amount from 0 in steps of 0.01, hour 0..23, day 0..6, age 18..100
   * and quantity from 1, the last four in whole steps.
   */
  predicate Submittable(form: TransactionForm)
  {
    && InputValid(form.amount, 0.0, None, 0.01)
    && InputValid(form.hour, 0.0, Some(23.0), 1.0)
    && InputValid(form.dayOfWeek, 0.0, Some(6.0), 1.0)
    && InputValid(form.age, 18.0, Some(100.0), 1.0)
    && InputValid(form.itemQuantity, 1.0, None, 1.0)
  }

  /** The blank form cannot be sent, and typing 0 into any number input blanks it, so that form cannot be sent either. */
  lemma TypedZeroBlocksSubmit(prev: TransactionForm, f: Field)
    requires IsNumeric(f)
    ensures !Submittable(EmptyForm)
    ensures !Submittable(EditedForm(prev, f, "0"))
  {
    TypedZeroIsErased(prev, f);
  }

  /** A whole number at least 1 is its own truncation. */
  lemma TruncOfWhole(x: real)
    requires IsWhole(x) && x >= 1.0
    ensures Trunc(x) == x.Floor && Trunc(x) as real == x
  {
  }

  /**
   * What a form the browser lets through sends: a positive amount, an hour in
   * 1..23 and a day in 1..6 (0 cannot survive the edit handler), so the weekend
   * flag is set exactly for day 6; and an age in 18..100.
   */
  lemma SubmittedRequestRanges(form: TransactionForm)
    requires WellFormed(form) && Submittable(form)
    ensures var r := BuildRequest(form);
      && r.amount > 0.0
      && 1 <= r.hour <= 23
      && 1 <= r.day_of_week <= 6 && (r.is_weekend <==> r.day_of_week == 6)
      && 18 <= r.age <= 100
  {
    assert IsNumeric(Amount) && IsNumeric(Age) && IsNumeric(Hour) && IsNumeric(DayOfWeek);
    assert form.hour.x / 1.0 == form.hour.x && form.dayOfWeek.x / 1.0 == form.dayOfWeek.x;
    assert (form.age.x - 18.0) / 1.0 == form.age.x - 18.0;
    TruncOfWhole(form.hour.x);
    TruncOfWhole(form.dayOfWeek.x);
    assert IsWhole(form.age.x) by {
      assert (form.age.x - 18.0).Floor + 18 == form.age.x.Floor;
    }
    TruncOfWhole(form.age.x);
    NumericFieldsOfRequest(form);
  }

  /** A blank day of week is sent as day 0 and therefore flagged as a weekend. */
  lemma BlankDayIsWeekend(form: TransactionForm)
    requires form.dayOfWeek == Text("")
    ensures BuildRequest(form).day_of_week == 0 && BuildRequest(form).is_weekend
  {
  }

  /**
   * Entering Sunday as 0 leaves the day field blank; the request still says day 0
   * and weekend, but only because a blank day defaults to 0.
   */
  lemma SundayTypedAsZero(prev: TransactionForm)
    ensures EditedForm(prev, DayOfWeek, "0").dayOfWeek == Text("")
    ensures BuildRequest(EditedForm(prev, DayOfWeek, "0")).is_weekend
  {
    TypedZeroIsErased(prev, DayOfWeek);
  }

  /** Entering 1..5 as the day gives a week day, 6 a weekend. */
  lemma TypedDayDecidesWeekend(prev: TransactionForm, d: nat)
    requires 1 <= d <= 6
    ensures var r := BuildRequest(EditedForm(prev, DayOfWeek, DecimalText(d)));
      r.day_of_week == d && (r.is_weekend <==> d == 6)
  {
    ParseFloatOfDecimal(d);
    CoerceNumberMeaning(DecimalText(d));
    var form := EditedForm(prev, DayOfWeek, DecimalText(d));
    assert form.dayOfWeek == Number(d as real);
    assert (d as real).Floor == d;
  }
}
