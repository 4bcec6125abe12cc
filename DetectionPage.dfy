/**
 * The state of the fraud-detection page (`FraudDetectionPage`): the form, the
 * last prediction, the loading flag and the error banner.
 */
module DetectionPage {
  import opened Wrappers
  import opened Wire
  import opened FraudForm
  import opened PdfReport

  const ConnectionError := "Failed to connect to the fraud detection service. Please check if the backend is running."

  /**
   * What `fetch("/api/predict")` came back with: no response at all, or a status
   * and the parsed body (None when `response.json()` fails).
   */
  datatype FetchOutcome = NetworkFailure | Response(ok: bool, body: Option<Prediction>)

  /** Whether `handleSubmit` reaches `setPrediction`. */
  predicate Succeeded(outcome: FetchOutcome)
  {
    outcome.Response? && outcome.ok && outcome.body.Some?
  }

  class FraudDetectionPage {
    var form: TransactionForm
    var prediction: Option<Prediction>
    var loading: bool
    var error: Option<string>

    /** The form only ever holds what the edit handler can store. */
    ghost predicate Valid()
      reads this
    {
      WellFormed(form)
    }

    constructor()
      ensures Valid()
      ensures form == EmptyForm && prediction == None && !loading && error == None
    {
      form := EmptyForm;
      prediction := None;
      loading := false;
      error := None;
      EditKeepsWellFormed(EmptyForm, Amount, "");
    }

    /** `handleInputChange`: one field changes, coerced; nothing else on the page does. */
    method HandleInputChange(f: Field, value: string)
      requires Valid()
      modifies this
      ensures Valid()
      ensures form == EditedForm(old(form), f, value)
      ensures prediction == old(prediction) && loading == old(loading) && error == old(error)
    {
      EditKeepsWellFormed(form, f, value);
      form := EditedForm(form, f, value);
    }

    /** The synchronous start of `handleSubmit`: clear the outcome, show loading, build the body. */
    method BeginSubmit() returns (body: map<string, Json>)
      modifies this
      ensures loading && error == None && prediction == None && form == old(form)
      ensures body == ToWire(BuildRequest(form))
    {
      loading := true;
      error := None;
      prediction := None;
      body := ToWire(BuildRequest(form));
    }

    /** The end of `handleSubmit` once the fetch settles: show the prediction or the error. */
    method FinishSubmit(outcome: FetchOutcome)
      modifies this
      ensures !loading && form == old(form)
      ensures Succeeded(outcome) ==> prediction == outcome.body && error == old(error)
      ensures !Succeeded(outcome) ==> prediction == old(prediction) && error == Some(ConnectionError)
    {
      if outcome.NetworkFailure? || !outcome.ok || outcome.body.None? {
        error := Some(ConnectionError);
      } else {
        prediction := outcome.body;
      }
      loading := false;
    }

    /**
     * A whole submission: afterwards the page is idle and shows exactly one of a
     * prediction and the connection error.
     */
    method Submit(outcome: FetchOutcome) returns (body: map<string, Json>)
      requires Valid()
      modifies this
      ensures Valid() && form == old(form) && !loading
      ensures body == ToWire(BuildRequest(form))
      ensures prediction.Some? <==> error.None?
      ensures Succeeded(outcome) <==> prediction.Some?
      ensures Succeeded(outcome) ==> prediction == outcome.body
      ensures !Succeeded(outcome) ==> error == Some(ConnectionError)
    {
      body := BeginSubmit();
      FinishSubmit(outcome);
    }

    /**
     * Pressing "Analyze Transaction" (or Enter in the form): while loading the
     * button is disabled, and a form failing its input checks is stopped by
     * the browser; either way nothing happens. Otherwise `handleSubmit` runs,
     * and the body it sends has an hour in 1..23 and a day in 1..6.
     */
    method PressAnalyze(outcome: FetchOutcome) returns (sent: Option<map<string, Json>>)
      requires Valid()
      modifies this
      ensures Valid() && form == old(form)
      ensures old(loading) || !Submittable(form) ==>
        sent == None && prediction == old(prediction) && error == old(error) && loading == old(loading)
      ensures !old(loading) && Submittable(form) ==>
        && sent == Some(ToWire(BuildRequest(form)))
        && !loading
        && (Succeeded(outcome) <==> prediction.Some?)
        && (prediction.Some? <==> error.None?)
      ensures sent.Some? ==>
        && 1 <= BuildRequest(form).hour <= 23
        && 1 <= BuildRequest(form).day_of_week <= 6
    {
      if loading || !Submittable(form) {
        return None;
      }
      SubmittedRequestRanges(form);
      var body := Submit(outcome);
      sent := Some(body);
    }

    /** The download button: the report of the current prediction, if any. */
    method DownloadReport(rowsOf: string -> RowCount) returns (doc: PdfDocument?)
      ensures doc == null <==> prediction.None?
      ensures prediction.Some? ==>
        (doc != null && fresh(doc)
         && doc.lines == ReportLines(prediction.value, form, rowsOf)
         && doc.savedAs == Some(FileName(prediction.value)))
    {
      doc := GeneratePdfReport(prediction, form, rowsOf);
    }
  }
}
