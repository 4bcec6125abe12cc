/**
 * The analysis report of the fraud-detection page (`generatePDFReport`): which
 * text goes on which page at which height, with jsPDF reduced to a page counter
 * and a log of the text it was asked to draw.
 */
module PdfReport {
  import opened Wrappers
  import opened TextUtil
  import opened Wire
  import opened JsNumbers
  import opened FraudForm

  /**
   * A piece of drawn text. Literal text is kept as is; values formatted by the
   * browser (number to text, Indian digit grouping, two decimals, local time)
   * are kept as the value and the formatting asked for.
   */
  datatype Piece =
    | Lit(s: string)
    | Shown(v: FormValue)        // `${value}`
    | Grouped(v: FormValue)      // `value.toLocaleString("en-IN")`
    | Fixed2(x: real)            // `x.toFixed(2)`
    | LocalTime(stamp: string)   // `new Date(stamp).toLocaleString()`
    | Now                        // `new Date().toLocaleString()`

  /** The number of rows `splitTextToSize` wraps a text into: at least one. */
  type RowCount = n: nat | 1 <= n witness 1

  /** One `pdf.text` call: page, x, y (millimetres), the text and its number of rows. */
  datatype Line = Line(page: nat, x: int, y: int, text: seq<Piece>, rows: nat)

  /** An A4 portrait jsPDF document. The current page is always the last one. */
  class PdfDocument {
    var pages: nat
    var lines: seq<Line>
    var savedAs: Option<string>

    constructor()
      ensures pages == 1 && lines == [] && savedAs == None
    {
      pages := 1;
      lines := [];
      savedAs := None;
    }

    method Text(text: seq<Piece>, x: int, y: int, rows: nat)
      modifies this
      ensures lines == old(lines) + [Line(pages, x, y, text, rows)]
      ensures pages == old(pages) && savedAs == old(savedAs)
    {
      lines := lines + [Line(pages, x, y, text, rows)];
    }

    method AddPage()
      modifies this
      ensures pages == old(pages) + 1
      ensures lines == old(lines) && savedAs == old(savedAs)
    {
      pages := pages + 1;
    }

    method Save(name: string)
      modifies this
      ensures savedAs == Some(name)
      ensures pages == old(pages) && lines == old(lines)
    {
      savedAs := Some(name);
    }
  }

  const PageWidth := 210
  const PageHeight := 297
  const Centre := PageWidth / 2
  const TopMargin := 20
  /** Below this height the risk-factor list moves on to a new page. */
  const FactorLimit := 270
  /** Below this height the recommendations start on a new page. */
  const RecommendationLimit := 250
  const RowHeight := 6
  const FooterY := PageHeight - 10

  /** The weekday table indexed by the raw `dayOfWeek` field; a miss shows as "undefined". */
  function DayName(v: FormValue): (r: string)
    ensures r != "undefined" <==>
      (v.Number? && v.x == v.x.Floor as real && 0 <= v.x.Floor <= 6) ||
      (v.Text? && |v.s| == 1 && '0' <= v.s[0] <= '6')
  {
    var days := ["Sunday", "Monday", "Tuesday", "Wednesday", "Thursday", "Friday", "Saturday"];
    match v
    case Number(x) =>
      if x == x.Floor as real && 0 <= x.Floor <= 6 then days[x.Floor] else "undefined"
    case Text(s) =>
      if |s| == 1 && '0' <= s[0] <= '6' then days[s[0] as int - '0' as int] else "undefined"
  }

  /** The thirteen "Transaction Details" lines. */
  function DetailTexts(p: Prediction, form: TransactionForm): seq<seq<Piece>>
  {
    [ [Lit("Transaction ID: " + p.transaction_id)],
      [Lit("Date & Time: "), LocalTime(p.timestamp)],
      [Lit("Amount: ₹"), Grouped(form.amount)],
      [Lit("Payment Method: " + form.paymentMethod)],
      [Lit("Category: " + form.category)],
      [Lit("City: " + form.country)],
      [Lit("Device: " + form.device)],
      [Lit("Age: "), Shown(form.age)],
      [Lit("Hour: "), Shown(form.hour), Lit(":00")],
      [Lit("Day of Week: " + DayName(form.dayOfWeek))],
      [Lit("Item Quantity: "), Shown(form.itemQuantity)],
      [Lit("Shipping Address: " + form.shippingAddress)],
      [Lit("Browser: " + form.browserInfo)] ]
  }

  /** The bullet list chosen by the verdict. */
  function Recommendations(isFraud: bool): seq<seq<Piece>>
  {
    if isFraud then
      [ [Lit("• Flag transaction for manual review")],
        [Lit("• Contact customer for verification")],
        [Lit("• Monitor account for suspicious activity")],
        [Lit("• Consider temporary account restrictions")] ]
    else
      [ [Lit("• Transaction appears legitimate")],
        [Lit("• Continue normal processing")],
        [Lit("• Maintain regular monitoring")] ]
  }

  /** Single-row lines drawn at `x`, `step` apart from `y0`, on one page. */
  function RunLines(page: nat, x: int, y0: int, step: int, texts: seq<seq<Piece>>): (r: seq<Line>)
    ensures |r| == |texts|
    ensures forall i :: 0 <= i < |r| ==> r[i] == Line(page, x, y0 + step * i, texts[i], 1)
    decreases |texts|
  {
    if texts == [] then []
    else
      var n := |texts| - 1;
      RunLines(page, x, y0, step, texts[..n]) + [Line(page, x, y0 + step * n, texts[n], 1)]
  }

  /** The text of the risk factor at position `index`: `${index + 1}. ${factor}`. */
  function Numbered(index: nat, factor: string): string
  {
    DecimalText(index + 1) + ". " + factor
  }

  /** Moving the cursor past `rows` rows, breaking the page when it passes the limit. */
  function Advance(y: int, rows: nat): int
  {
    if y + RowHeight * rows > FactorLimit then TopMargin else y + RowHeight * rows
  }

  /**
   * The height after drawing `factors` from `y0`; `rowsOf` is the wrapping of
   * jsPDF. Once a factor is drawn the cursor is never below the limit, since
   * a factor that would pass it starts a new page.
   */
  function Cursor(y0: int, factors: seq<string>, rowsOf: string -> RowCount): (y: int)
    ensures factors == [] ==> y == y0
    ensures factors != [] ==> y <= FactorLimit
    decreases |factors|
  {
    if factors == [] then y0
    else
      var n := |factors| - 1;
      Advance(Cursor(y0, factors[..n], rowsOf), rowsOf(Numbered(n, factors[n])))
  }

  /** The number of pages added while drawing `factors` from `y0`. */
  function Breaks(y0: int, factors: seq<string>, rowsOf: string -> RowCount): nat
    decreases |factors|
  {
    if factors == [] then 0
    else
      var n := |factors| - 1;
      var y := Cursor(y0, factors[..n], rowsOf);
      Breaks(y0, factors[..n], rowsOf) + if y + RowHeight * rowsOf(Numbered(n, factors[n])) > FactorLimit then 1 else 0
  }

  /** The lines of the risk-factor list, each on the page and at the height reached before it. */
  function FactorLines(page0: nat, y0: int, factors: seq<string>, rowsOf: string -> RowCount): (r: seq<Line>)
    ensures |r| == |factors|
    decreases |factors|
  {
    if factors == [] then []
    else
      var n := |factors| - 1;
      var text := Numbered(n, factors[n]);
      FactorLines(page0, y0, factors[..n], rowsOf)
        + [Line(page0 + Breaks(y0, factors[..n], rowsOf), 25, Cursor(y0, factors[..n], rowsOf), [Lit(text)], rowsOf(text))]
  }

  /** The rows all factors take when no page is broken. */
  function TotalRows(factors: seq<string>, rowsOf: string -> RowCount): nat
    decreases |factors|
  {
    if factors == [] then 0
    else
      var n := |factors| - 1;
      TotalRows(factors[..n], rowsOf) + rowsOf(Numbered(n, factors[n]))
  }

  // Fixed heights of the first page, as the cursor reaches them.
  const DetailsY := 50
  const AnalysisY := DetailsY + 8 * 13 + 10
  const ResultY := AnalysisY + 15
  const ProbabilityY := ResultY + 10
  const RiskLevelY := ProbabilityY + 8
  const FactorsHeadingY := RiskLevelY + 15
  const FactorsY := FactorsHeadingY + 10

  function Verdict(isFraud: bool): string
  {
    if isFraud then "FRAUD DETECTED" else "LEGITIMATE TRANSACTION"
  }

  /** Title, details and analysis results: all on the first page. */
  function HeaderLines(p: Prediction, form: TransactionForm): seq<Line>
  {
    [ Line(1, Centre, 20, [Lit("Fraud Detection Analysis Report")], 1),
      Line(1, 20, 40, [Lit("Transaction Details")], 1) ]
    + RunLines(1, 20, DetailsY, 8, DetailTexts(p, form))
    + [ Line(1, 20, AnalysisY, [Lit("Analysis Results")], 1),
        Line(1, 20, ResultY, [Lit("Result: " + Verdict(p.is_fraud))], 1),
        Line(1, 20, ProbabilityY, [Lit("Fraud Probability: "), Fixed2(p.fraud_probability), Lit("%")], 1),
        Line(1, 20, RiskLevelY, [Lit("Risk Level: " + p.risk_level)], 1) ]
  }

  function FactorSection(p: Prediction, rowsOf: string -> RowCount): seq<Line>
  {
    if |p.risk_factors| > 0 then
      [Line(1, 20, FactorsHeadingY, [Lit("Risk Factors Identified:")], 1)]
      + FactorLines(1, FactorsY, p.risk_factors, rowsOf)
    else
      [Line(1, 20, FactorsHeadingY, [Lit("No specific risk factors identified.")], 1)]
  }

  /** The height reached after the risk-factor section. */
  function AfterFactors(p: Prediction, rowsOf: string -> RowCount): int
  {
    if |p.risk_factors| > 0 then Cursor(FactorsY, p.risk_factors, rowsOf) else FactorsY
  }

  /** Whether the recommendations start a new page. */
  predicate RecommendationBreak(p: Prediction, rowsOf: string -> RowCount)
  {
    AfterFactors(p, rowsOf) + 10 > RecommendationLimit
  }

  /** The number of pages of the finished report. */
  function ReportPages(p: Prediction, rowsOf: string -> RowCount): nat
  {
    1 + (if |p.risk_factors| > 0 then Breaks(FactorsY, p.risk_factors, rowsOf) else 0)
      + (if RecommendationBreak(p, rowsOf) then 1 else 0)
  }

  function RecommendationsY(p: Prediction, rowsOf: string -> RowCount): int
  {
    if RecommendationBreak(p, rowsOf) then TopMargin else AfterFactors(p, rowsOf) + 10
  }

  /** Recommendations from height `y` and the footer, all on page `page`. */
  function ClosingLines(page: nat, y: int, isFraud: bool): seq<Line>
  {
    [Line(page, 20, y, [Lit("Recommendations:")], 1)]
    + RunLines(page, 20, y + 10, 8, Recommendations(isFraud))
    + [ Line(page, 20, FooterY, [Lit("Generated on: "), Now], 1),
        Line(page, Centre, FooterY, [Lit("AI Fraud Detection System - Confidential Report")], 1) ]
  }

  /**
   * Everything drawn, in drawing order: it opens with the title on the first
   * page and closes with the two footer lines on the last page.
   */
  function ReportLines(p: Prediction, form: TransactionForm, rowsOf: string -> RowCount): (r: seq<Line>)
    ensures |r| >= 4
    ensures r[0] == Line(1, Centre, 20, [Lit("Fraud Detection Analysis Report")], 1)
    ensures r[|r| - 2].page == r[|r| - 1].page == ReportPages(p, rowsOf)
    ensures r[|r| - 2].y == r[|r| - 1].y == FooterY
  {
    HeaderLines(p, form) + FactorSection(p, rowsOf)
      + ClosingLines(ReportPages(p, rowsOf), RecommendationsY(p, rowsOf), p.is_fraud)
  }

  function FileName(p: Prediction): string
  {
    "fraud-analysis-" + p.transaction_id + ".pdf"
  }

  /** From a height on the page, the factor cursor never leaves the printable band. */
  lemma {:induction false} CursorStaysOnPage(y0: int, factors: seq<string>, rowsOf: string -> RowCount)
    requires TopMargin <= y0 <= FactorLimit
    ensures TopMargin <= Cursor(y0, factors, rowsOf) <= FactorLimit
    decreases |factors|
  {
    if factors != [] {
      CursorStaysOnPage(y0, factors[..|factors| - 1], rowsOf);
    }
  }

  /**
   * The factor list stays on one page exactly when all its rows fit above the
   * limit, and then the cursor ends just below the last row.
   */
  lemma {:induction false} NoBreakIffRowsFit(y0: int, factors: seq<string>, rowsOf: string -> RowCount)
    requires y0 <= FactorLimit
    ensures Breaks(y0, factors, rowsOf) == 0 <==> y0 + RowHeight * TotalRows(factors, rowsOf) <= FactorLimit
    ensures Breaks(y0, factors, rowsOf) == 0 ==> Cursor(y0, factors, rowsOf) == y0 + RowHeight * TotalRows(factors, rowsOf)
    decreases |factors|
  {
    if factors != [] {
      NoBreakIffRowsFit(y0, factors[..|factors| - 1], rowsOf);
    }
  }

  /**
   * The factor at position `i` is drawn as "i+1. factor", on the page and at the
   * height that the factors before it leave.
   */
  lemma {:induction false} FactorLinePlacement(page0: nat, y0: int, factors: seq<string>, rowsOf: string -> RowCount, i: nat)
    requires i < |factors|
    ensures var line := FactorLines(page0, y0, factors, rowsOf)[i];
      && line.text == [Lit(Numbered(i, factors[i]))]
      && line.x == 25
      && line.y == Cursor(y0, factors[..i], rowsOf)
      && line.page == page0 + Breaks(y0, factors[..i], rowsOf)
      && line.rows == rowsOf(Numbered(i, factors[i]))
    decreases |factors|
  {
    var n := |factors| - 1;
    if i < n {
      FactorLinePlacement(page0, y0, factors[..n], rowsOf, i);
      assert factors[..n][..i] == factors[..i];
    } else {
      assert factors[..i] == factors[..n];
    }
  }

  /** With one row per factor, the rows add up to the number of factors. */
  lemma {:induction false} SingleRowTotal(factors: seq<string>, rowsOf: string -> RowCount)
    requires forall s :: rowsOf(s) == 1
    ensures TotalRows(factors, rowsOf) == |factors|
    decreases |factors|
  {
    if factors != [] {
      SingleRowTotal(factors[..|factors| - 1], rowsOf);
    }
  }

  /**
   * With up to eight one-row factors the list never breaks, but from four
   * factors on the recommendations are pushed to a second page.
   */
  lemma PagesForSingleRowFactors(p: Prediction, rowsOf: string -> RowCount)
    requires forall s :: rowsOf(s) == 1
    requires |p.risk_factors| <= 8
    ensures ReportPages(p, rowsOf) == if |p.risk_factors| >= 4 then 2 else 1
  {
    SingleRowTotal(p.risk_factors, rowsOf);
    NoBreakIffRowsFit(FactorsY, p.risk_factors, rowsOf);
  }

  /**
   * The recommendations heading starts inside the band the page-break test
   * allows, and the last bullet stays above the footer line.
   */
  lemma RecommendationsAboveFooter(p: Prediction, rowsOf: string -> RowCount)
    ensures TopMargin <= RecommendationsY(p, rowsOf) <= RecommendationLimit
    ensures RecommendationsY(p, rowsOf) + 10 + 8 * (|Recommendations(p.is_fraud)| - 1) < FooterY
  {
    if |p.risk_factors| > 0 {
      CursorStaysOnPage(FactorsY, p.risk_factors, rowsOf);
    }
  }

  /** A Sunday typed as 0 is erased by the form and reported as "undefined". */
  lemma SundayReportedUndefined(prev: TransactionForm)
    ensures DayName(EditedForm(prev, DayOfWeek, "0").dayOfWeek) == "undefined"
  {
    TypedZeroIsErased(prev, DayOfWeek);
  }

  /** Monday to Saturday typed as 1..6 are reported by name. */
  lemma TypedWeekdayReportedByName(prev: TransactionForm, d: nat)
    requires 1 <= d <= 6
    ensures DayName(EditedForm(prev, DayOfWeek, DecimalText(d)).dayOfWeek) != "undefined"
  {
    ParseFloatOfDecimal(d);
    CoerceNumberMeaning(DecimalText(d));
    assert EditedForm(prev, DayOfWeek, DecimalText(d)).dayOfWeek == Number(d as real);
    assert (d as real).Floor == d;
  }

  /** The `forEach` drawing one single-row line per text, `step` apart. */
  method DrawRun(doc: PdfDocument, x: int, y0: int, step: int, texts: seq<seq<Piece>>) returns (y: int)
    modifies doc
    ensures doc.lines == old(doc.lines) + RunLines(old(doc.pages), x, y0, step, texts)
    ensures doc.pages == old(doc.pages) && doc.savedAs == old(doc.savedAs)
    ensures y == y0 + step * |texts|
  {
    y := y0;
    var i := 0;
    while i < |texts|
      invariant 0 <= i <= |texts|
      invariant doc.lines == old(doc.lines) + RunLines(old(doc.pages), x, y0, step, texts[..i])
      invariant doc.pages == old(doc.pages) && doc.savedAs == old(doc.savedAs)
      invariant y == y0 + step * i
    {
      doc.Text(texts[i], x, y, 1);
      y := y + step;
      assert texts[..i + 1][..i] == texts[..i];
      i := i + 1;
    }
    assert texts[..|texts|] == texts;
  }

  /** One more factor adds its line at the current cursor and page, then advances the cursor. */
  lemma FactorStep(page0: nat, y0: int, factors: seq<string>, i: nat, rowsOf: string -> RowCount)
    requires i < |factors|
    ensures var pre, text := factors[..i], Numbered(i, factors[i]);
      var y := Cursor(y0, pre, rowsOf);
      && FactorLines(page0, y0, factors[..i + 1], rowsOf)
         == FactorLines(page0, y0, pre, rowsOf) + [Line(page0 + Breaks(y0, pre, rowsOf), 25, y, [Lit(text)], rowsOf(text))]
      && Cursor(y0, factors[..i + 1], rowsOf) == Advance(y, rowsOf(text))
      && Breaks(y0, factors[..i + 1], rowsOf)
         == Breaks(y0, pre, rowsOf) + if y + RowHeight * rowsOf(text) > FactorLimit then 1 else 0
  {
    assert factors[..i + 1][..i] == factors[..i];
    assert factors[..i + 1][i] == factors[i];
  }

  /** One pass of the risk-factor loop: draw the text, move down its rows, and break the page past the limit. */
  method DrawFactor(doc: PdfDocument, text: string, y: int, rows: RowCount) returns (next: int)
    modifies doc
    ensures doc.lines == old(doc.lines) + [Line(old(doc.pages), 25, y, [Lit(text)], rows)]
    ensures doc.pages == old(doc.pages) + if y + RowHeight * rows > FactorLimit then 1 else 0
    ensures doc.savedAs == old(doc.savedAs)
    ensures next == Advance(y, rows)
  {
    doc.Text([Lit(text)], 25, y, rows);
    next := y + RowHeight * rows;
    if next > FactorLimit {
      doc.AddPage();
      next := TopMargin;
    }
  }

  /** The risk-factor loop: draw each numbered factor, then break the page past the limit. */
  method DrawFactors(doc: PdfDocument, y0: int, factors: seq<string>, rowsOf: string -> RowCount) returns (y: int)
    modifies doc
    ensures doc.lines == old(doc.lines) + FactorLines(old(doc.pages), y0, factors, rowsOf)
    ensures doc.pages == old(doc.pages) + Breaks(y0, factors, rowsOf)
    ensures doc.savedAs == old(doc.savedAs)
    ensures y == Cursor(y0, factors, rowsOf)
  {
    y := y0;
    var i := 0;
    while i < |factors|
      invariant 0 <= i <= |factors|
      invariant doc.lines == old(doc.lines) + FactorLines(old(doc.pages), y0, factors[..i], rowsOf)
      invariant doc.pages == old(doc.pages) + Breaks(y0, factors[..i], rowsOf)
      invariant doc.savedAs == old(doc.savedAs)
      invariant y == Cursor(y0, factors[..i], rowsOf)
    {
      FactorStep(old(doc.pages), y0, factors, i, rowsOf);
      var text := Numbered(i, factors[i]);
      y := DrawFactor(doc, text, y, rowsOf(text));
      assert doc.lines == old(doc.lines) + FactorLines(old(doc.pages), y0, factors[..i + 1], rowsOf);
      i := i + 1;
    }
    assert factors[..|factors|] == factors;
  }

  /** Title, details and analysis results, from a fresh first page. */
  method DrawHeader(doc: PdfDocument, p: Prediction, form: TransactionForm) returns (yPos: int)
    requires doc.pages == 1 && doc.lines == []
    modifies doc
    ensures doc.lines == HeaderLines(p, form)
    ensures doc.pages == 1 && doc.savedAs == old(doc.savedAs)
    ensures yPos == FactorsHeadingY
  {
    doc.Text([Lit("Fraud Detection Analysis Report")], Centre, 20, 1);
    doc.Text([Lit("Transaction Details")], 20, 40, 1);
    ghost var top := doc.lines;
    yPos := DrawRun(doc, 20, 50, 8, DetailTexts(p, form));
    ghost var details := doc.lines;
    yPos := yPos + 10;
    doc.Text([Lit("Analysis Results")], 20, yPos, 1);
    yPos := yPos + 15;
    doc.Text([Lit("Result: " + Verdict(p.is_fraud))], 20, yPos, 1);
    yPos := yPos + 10;
    doc.Text([Lit("Fraud Probability: "), Fixed2(p.fraud_probability), Lit("%")], 20, yPos, 1);
    yPos := yPos + 8;
    doc.Text([Lit("Risk Level: " + p.risk_level)], 20, yPos, 1);
    yPos := yPos + 15;
    assert doc.lines == details + HeaderLines(p, form)[|details|..];
  }

  /** The risk-factor list, or the line saying there is none. */
  method DrawFactorSection(doc: PdfDocument, p: Prediction, rowsOf: string -> RowCount) returns (yPos: int)
    requires doc.pages == 1
    modifies doc
    ensures doc.lines == old(doc.lines) + FactorSection(p, rowsOf)
    ensures doc.pages == 1 + (if |p.risk_factors| > 0 then Breaks(FactorsY, p.risk_factors, rowsOf) else 0)
    ensures doc.savedAs == old(doc.savedAs)
    ensures yPos == AfterFactors(p, rowsOf)
  {
    yPos := FactorsHeadingY;
    if |p.risk_factors| > 0 {
      doc.Text([Lit("Risk Factors Identified:")], 20, yPos, 1);
      yPos := yPos + 10;
      yPos := DrawFactors(doc, yPos, p.risk_factors, rowsOf);
    } else {
      doc.Text([Lit("No specific risk factors identified.")], 20, yPos, 1);
      yPos := yPos + 10;
    }
  }

  /** Recommendations and footer on the current page, from height `y`. */
  method DrawRecommendations(doc: PdfDocument, y: int, isFraud: bool)
    modifies doc
    ensures doc.lines == old(doc.lines) + ClosingLines(old(doc.pages), y, isFraud)
    ensures doc.pages == old(doc.pages) && doc.savedAs == old(doc.savedAs)
  {
    doc.Text([Lit("Recommendations:")], 20, y, 1);
    var _ := DrawRun(doc, 20, y + 10, 8, Recommendations(isFraud));
    doc.Text([Lit("Generated on: "), Now], 20, PageHeight - 10, 1);
    doc.Text([Lit("AI Fraud Detection System - Confidential Report")], Centre, PageHeight - 10, 1);
  }

  /** The page break before the recommendations, then recommendations and footer. */
  method DrawClosing(doc: PdfDocument, p: Prediction, rowsOf: string -> RowCount, yPos: int)
    requires yPos == AfterFactors(p, rowsOf)
    requires doc.pages == 1 + (if |p.risk_factors| > 0 then Breaks(FactorsY, p.risk_factors, rowsOf) else 0)
    modifies doc
    ensures doc.lines == old(doc.lines) + ClosingLines(ReportPages(p, rowsOf), RecommendationsY(p, rowsOf), p.is_fraud)
    ensures doc.pages == ReportPages(p, rowsOf) && doc.savedAs == old(doc.savedAs)
  {
    var y := yPos + 10;
    assert RecommendationBreak(p, rowsOf) <==> y > RecommendationLimit;
    if y > RecommendationLimit {
      doc.AddPage();
      y := TopMargin;
    }
    assert y == RecommendationsY(p, rowsOf);
    assert doc.pages == ReportPages(p, rowsOf);
    DrawRecommendations(doc, y, p.is_fraud);
  }

  /**
   * `generatePDFReport`: nothing without a prediction; otherwise a saved document
   * holding exactly the report lines on the report's pages.
   */
  method GeneratePdfReport(prediction: Option<Prediction>, form: TransactionForm, rowsOf: string -> RowCount)
    returns (doc: PdfDocument?)
    ensures prediction.None? ==> doc == null
    ensures prediction.Some? ==>
      (doc != null && fresh(doc)
       && doc.lines == ReportLines(prediction.value, form, rowsOf)
       && doc.pages == ReportPages(prediction.value, rowsOf)
       && doc.savedAs == Some(FileName(prediction.value)))
  {
    if prediction.None? {
      return null;
    }
    var p := prediction.value;
    doc := new PdfDocument();
    var yPos := DrawHeader(doc, p, form);
    yPos := DrawFactorSection(doc, p, rowsOf);
    DrawClosing(doc, p, rowsOf, yPos);
    doc.Save(FileName(p));
  }
}
