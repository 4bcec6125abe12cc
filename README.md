# Fraud detection: a verified model of the decision logic

The system is an Indian e-commerce fraud-detection demo. A React frontend
collects a transaction, sends it to a Flask backend that scores it and explains
the score, and renders the verdict as a PDF report. Two list pages filter mock
flagged transactions and users, and a demo session store keeps the signed-in
user in local storage. A statistics endpoint summarises the synthetic dataset,
and a generator produces that dataset by a multi-factor fraud rule.

This project models that logic in Dafny and proves properties about it:

- **FraudForm**, **DetectionPage**, **PdfReport**: the detection page. This
  covers input coercion (`handleInputChange`), the request body built on
  submit, the page's state sequence around the request, and the layout of the
  PDF report (cursor, page breaks, every text line in order).
- **PredictApi**: `/api/predict`. This covers the model guard, the
  required-field check, the risk level, the eight risk-factor rules with
  Python's comparison errors, the transaction id and the reply for every path.
- **StatsApi**: `/api/stats`. This covers the counts, the rates, the sampled
  recent transactions and the per-payment-method breakdown.
- **SyntheticData**: the sophisticated generator. This covers the additive
  risk score, the clamped fraud probability, the amount and hour draws, and
  the shuffle that renumbers the rows.
- **FlaggedTransactions**, **UserManagement**: the list pages' filters and
  summary counts.
- **DemoAuth**: the demo session store (`useAuth`, restore at start-up,
  sign-up, sign-in, logout).
- **ClientServer**: what the request the page sends meets at the backend.
- Helpers:
  - **Wrappers** (Option/Result);
  - **TextUtil** (lower-casing, substring search, decimal text);
  - **JsNumbers** (`parseInt`/`parseFloat`);
  - **FilterEngine** (`Array.prototype.filter` and search);
  - **Wire** (the JSON request and response).

Some modelling choices hold throughout:

- JavaScript numbers and Python floats are Dafny `real`s.
- The generator's probabilities are integer hundredths.
- Random draws are nondeterministic choices within the range the code draws
  from, or parameters.
- The network, the clock, the ML model and text measurement are parameters.

The model follows the code, not its comments or documentation, wherever the
two differ. Four consequences of the code as written are stated as lemmas:

- The page sends `device`, but the backend requires `device_type`. So every
  request the page builds is rejected with "Missing field: device_type"
  (`ClientServer.PageRequestLacksDeviceType`).
- Typing `0` into a numeric field stores `""`, and a blank number input
  fails the browser's `required` check. So the page can never send Sunday
  (day 0) or hour 0: every request it sends has a day in 1..6 and an hour
  in 1..23 (`FraudForm.TypedZeroBlocksSubmit`,
  `FraudForm.SubmittedRequestRanges`,
  `DetectionPage.FraudDetectionPage.PressAnalyze`). Typing 0 into the day
  after a prediction still changes the report, which then names the day
  "undefined" (`PdfReport.SundayReportedUndefined`).
- The page offers only lower-case payment methods. The backend's payment rule
  tests for "Cash" and "Wallet", so it never fires for them
  (`ClientServer.PagePaymentNeverRisky`).
- The flagged-transaction search does not look at the payment method
  (`FlaggedTransactions.PaymentMethodNotSearched`).

## Model

| member | source | states |
|---|---|---|
| FraudForm.EditedForm | frontend/src/pages/FraudDetectionPage.tsx:99-114 | Editing a field changes only that field. Amount, hour, dayOfWeek, age and itemQuantity store the coerced number, and every other field stores the text verbatim. |
| FraudForm.CoerceNumber | frontend/src/pages/FraudDetectionPage.tsx:111 | A coerced numeric input is blank or a non-zero number. |
| FraudForm.WithValue | frontend/src/pages/FraudDetectionPage.tsx:103-105 | The spread update replaces exactly the named field and keeps all the others. |
| FraudForm.CoerceNumberMeaning | frontend/src/pages/FraudDetectionPage.tsx:111 | The coerced value is `""` exactly when the text does not parse or parses to 0 (both falsy), and otherwise it is the parsed number. |
| FraudForm.EditKeepsWellFormed | frontend/src/pages/FraudDetectionPage.tsx:52-65 | The initial form is well formed (numeric fields hold `""` or a non-zero number), and every edit keeps it so. |
| FraudForm.TypedZeroIsErased | frontend/src/pages/FraudDetectionPage.tsx:111 | Typing "0" into a numeric field stores `""`. |
| FraudForm.BuildRequest | frontend/src/pages/FraudDetectionPage.tsx:124-143 | The request body: is_weekend iff the day is 0 or 6; shipping_billing_match iff the address is exactly "Same as billing"; city carries the country field; device, payment method, category, gender, address and browser are copied; the five history fields take their fixed defaults. |
| FraudForm.NumericFieldsOfRequest | frontend/src/pages/FraudDetectionPage.tsx:125-135 | A blank amount, age, hour or day becomes 0. A number becomes itself for amount and its truncation for age, hour and day. |
| FraudForm.BlankDayIsWeekend | frontend/src/pages/FraudDetectionPage.tsx:135-136 | The request built from a blank day of week would say day 0 and weekend; the browser never sends such a form. |
| FraudForm.SundayTypedAsZero | frontend/src/pages/FraudDetectionPage.tsx:111-136 | Typing Sunday (0) stores `""`; the request built from that form would still say weekend, but the page never sends it. |
| FraudForm.TypedZeroBlocksSubmit | frontend/src/pages/FraudDetectionPage.tsx:363-435 | Neither the blank form nor a form with 0 typed into a number input passes the browser's input checks. |
| FraudForm.SubmittedRequestRanges | frontend/src/pages/FraudDetectionPage.tsx:363-435 | A form that passes the checks sends a positive amount, an hour in 1..23, a day in 1..6 (weekend iff 6) and an age in 18..100. |
| FraudForm.TypedDayDecidesWeekend | frontend/src/pages/FraudDetectionPage.tsx:111-136 | Typing a day 1..6 sends that day, and it is a weekend iff it is 6. |
| DetectionPage.FraudDetectionPage.constructor | frontend/src/pages/FraudDetectionPage.tsx:52-70 | The page starts with the empty form, no prediction, no error and not loading. |
| DetectionPage.FraudDetectionPage.HandleInputChange | frontend/src/pages/FraudDetectionPage.tsx:99-114 | An edit replaces the form by its edited version and leaves prediction, loading and error alone. |
| DetectionPage.FraudDetectionPage.BeginSubmit | frontend/src/pages/FraudDetectionPage.tsx:116-151 | Submitting sets loading, clears error and prediction, and sends the wire form of the built request. |
| DetectionPage.FraudDetectionPage.FinishSubmit | frontend/src/pages/FraudDetectionPage.tsx:153-166 | An ok response stores its body as the prediction. A network failure or non-ok status sets the connection error. Loading always ends. |
| DetectionPage.FraudDetectionPage.Submit | frontend/src/pages/FraudDetectionPage.tsx:116-167 | After a submit, exactly one of prediction and error is set; the prediction is set iff the request succeeded; loading is off and the form unchanged. |
| DetectionPage.FraudDetectionPage.PressAnalyze | frontend/src/pages/FraudDetectionPage.tsx:363-555 | While loading, or when an input check fails, nothing happens. Otherwise the submission runs, and its body has an hour in 1..23 and a day in 1..6. |
| DetectionPage.FraudDetectionPage.DownloadReport | frontend/src/pages/FraudDetectionPage.tsx:169-170 | Without a prediction no report is made. Otherwise a fresh document holds exactly the report's lines and is saved under the report's file name. |
| PdfReport.PdfDocument.constructor | frontend/src/pages/FraudDetectionPage.tsx:172 | A new document has one page and no text. |
| PdfReport.PdfDocument.Text | frontend/src/pages/FraudDetectionPage.tsx:217 | Writing text appends one line on the current page and changes nothing else. |
| PdfReport.PdfDocument.AddPage | frontend/src/pages/FraudDetectionPage.tsx:267 | Adding a page increments the page count only. |
| PdfReport.PdfDocument.Save | frontend/src/pages/FraudDetectionPage.tsx:322 | Saving records the file name only. |
| PdfReport.DayName | frontend/src/pages/FraudDetectionPage.tsx:200-210 | Indexing the day names by the stored day gives a name iff the value is an integer 0..6 (or such a digit as text); otherwise "undefined". |
| PdfReport.RunLines | frontend/src/pages/FraudDetectionPage.tsx:216-219 | A run of texts is placed one per line, each `step` below the previous one, on the same page. |
| PdfReport.Cursor | frontend/src/pages/FraudDetectionPage.tsx:259-270 | Once a factor is drawn, the cursor is never below the page-break limit. |
| PdfReport.ReportLines | frontend/src/pages/FraudDetectionPage.tsx:172-319 | The report opens with the title on page 1 and closes with the two footer lines on its last page. |
| PdfReport.FactorStep | frontend/src/pages/FraudDetectionPage.tsx:261-269 | One more factor adds its line at the cursor on the current page, then advances the cursor, starting a new page past the limit. |
| PdfReport.FactorLines | frontend/src/pages/FraudDetectionPage.tsx:259-270 | One numbered line per risk factor. |
| PdfReport.FactorLinePlacement | frontend/src/pages/FraudDetectionPage.tsx:259-270 | Factor i is written at x = 25 as "i+1. factor", at the cursor and on the page reached after the factors before it, taking as many rows as its wrapped text. |
| PdfReport.CursorStaysOnPage | frontend/src/pages/FraudDetectionPage.tsx:263-269 | Starting within the margins, the cursor after each factor stays between 20 and 270. |
| PdfReport.NoBreakIffRowsFit | frontend/src/pages/FraudDetectionPage.tsx:263-269 | No page is added iff all factor rows fit above 270, and then the cursor has moved by 6 per row. |
| PdfReport.SingleRowTotal | frontend/src/pages/FraudDetectionPage.tsx:261-263 | When every factor fits on one row, the factors take as many rows as there are factors. |
| PdfReport.PagesForSingleRowFactors | frontend/src/pages/FraudDetectionPage.tsx:222-281 | With up to eight one-row factors, the report has two pages iff there are four or more factors. |
| PdfReport.RecommendationsAboveFooter | frontend/src/pages/FraudDetectionPage.tsx:277-313 | The recommendations start between 20 and 250, and their last bullet ends above the footer line. |
| PdfReport.SundayReportedUndefined | frontend/src/pages/FraudDetectionPage.tsx:200-210 | After typing Sunday (0), the report names the day "undefined". |
| PdfReport.TypedWeekdayReportedByName | frontend/src/pages/FraudDetectionPage.tsx:200-210 | After typing a day 1..6, the report names it. |
| PdfReport.DrawRun | frontend/src/pages/FraudDetectionPage.tsx:216-219 | The loop writes exactly the run's lines and returns the cursor advanced by one step per text. |
| PdfReport.DrawFactor | frontend/src/pages/FraudDetectionPage.tsx:261-269 | One pass writes the factor's line at the cursor on the current page, adds a page iff its rows pass the limit, and returns the advanced cursor. |
| PdfReport.DrawFactors | frontend/src/pages/FraudDetectionPage.tsx:259-270 | The loop writes exactly the factor lines, adds one page per break, and returns the final cursor. |
| PdfReport.DrawHeader | frontend/src/pages/FraudDetectionPage.tsx:176-250 | Title, details, result, probability and risk level are written in order; the cursor ends at 212. |
| PdfReport.DrawFactorSection | frontend/src/pages/FraudDetectionPage.tsx:252-274 | The heading and factors, or the no-factors line, are written, with the page breaks the factors cause. |
| PdfReport.DrawRecommendations | frontend/src/pages/FraudDetectionPage.tsx:283-319 | The recommendations heading, bullets and both footer lines are written on the current page. |
| PdfReport.DrawClosing | frontend/src/pages/FraudDetectionPage.tsx:276-319 | A page is added before the recommendations iff the cursor passed 250; then the closing lines follow. |
| PdfReport.GeneratePdfReport | frontend/src/pages/FraudDetectionPage.tsx:169-323 | No prediction: nothing. Otherwise a fresh document with exactly the report's lines and pages, saved as "fraud-analysis-<id>.pdf". |
| PredictApi.FirstMissing | src/app.py:62-70 | No field is reported iff every required field is present. A reported field is required and absent. |
| PredictApi.FirstMissingAt | src/app.py:68-70 | The reported field is the first absent one in list order. |
| PredictApi.RiskLevel | src/app.py:83-87 | "High" iff p > 0.7, "Medium" iff 0.3 < p <= 0.7, "Low" iff p <= 0.3. |
| PredictApi.Greater | src/app.py:91-101 | `>` against an int succeeds iff the value is a number or boolean, and then it is the numeric comparison. |
| PredictApi.Less | src/app.py:95-105 | `<` against an int succeeds iff the value is a number or boolean, and then it is the numeric comparison. |
| PredictApi.Fires | src/app.py:91-106 | The payment, device, city and address rules never raise; only the comparisons can. |
| PredictApi.RiskFactors | src/app.py:90-106 | The factor list is an error iff some rule raises, and otherwise holds at most one message per rule. |
| PredictApi.MessagesDistinct | src/app.py:91-106 | The eight factor messages are pairwise different. |
| PredictApi.FactorsErrIff | src/app.py:90-121 | Building the factors fails iff some rule's comparison raises. |
| PredictApi.FactorsAreFiredMessages | src/app.py:90-106 | A message is listed iff its rule fired. |
| PredictApi.FactorsDistinct | src/app.py:90-106 | No message is listed twice, and there are at most as many as rules. |
| PredictApi.ListedIffFires | src/app.py:90-106 | When the factors build, each rule evaluates, and its message is listed iff it fired. |
| PredictApi.RiskFactorConditions | src/app.py:90-106 | At most eight distinct factors, each listed iff its own condition holds on the request (amount > 50000, "Cash"/"Wallet", hour < 6 or > 22, new device, different city, failed attempts > 2, address mismatch, account age < 30). |
| PredictApi.RequiredCoverRuleFields | src/app.py:62-105 | Once the required-field check passes, every field the eight rules read is present. |
| PredictApi.TransactionIdShape | src/app.py:114 | The id is "TXN" and four digits that read back as the draw. |
| PredictApi.ErrorSticks | src/app.py:90-121 | Once a rule raises, the later rules do not change the outcome. |
| PredictApi.Appended | src/app.py:90-106 | One rule step appends its message iff the rule fires. |
| PredictApi.Raised | src/app.py:90-121 | A rule that raises makes the whole factor list that error. |
| PredictApi.CollectRiskFactors | src/app.py:90-106 | The sequence of `append`s computes the rule-table factor list, or the error of the first rule that raises. |
| PredictApi.CollectHistoryFactors | src/app.py:97-106 | Rules 5-8, continuing from the first four, finish the same factor list. |
| PredictApi.PredictFraud | src/app.py:53-121 | The reply on every path: 500 "Model not loaded"; 400 "Missing field: f" for the first missing field; 500 with the error of a failed scoring or comparison; otherwise 200 with the probabilities scaled by 100 (not rounded), risk level, factors, id and timestamp. |
| PredictApi.SuccessShape | src/app.py:108-116 | A success reply has a risk level of High, Medium or Low, and a "TXN" id of four digits. |
| ClientServer.RequestLacksDeviceType | src/app.py:62-70 | Any request in the page's wire format is rejected for "device_type". |
| ClientServer.PageRequestLacksDeviceType | frontend/src/pages/FraudDetectionPage.tsx:124-143 | Every request the page builds is rejected with "Missing field: device_type". |
| ClientServer.PagePaymentNeverRisky | src/app.py:93-94 | A payment method from the page's list never triggers the high-risk payment rule. |
| ClientServer.OfferedMethodsAreLowerCase | frontend/src/pages/FraudDetectionPage.tsx:90-96 | None of the offered payment methods is "Cash" or "Wallet". |
| StatsApi.RateBounds | src/app.py:191 | A rate of `fraud` out of `total` lies in 0..100. It is 100 iff all rows are fraud, and 0 iff none are. |
| StatsApi.Entries | src/app.py:149-172 | One recent entry per sampled row, with "TXN" and the zero-padded id, and "user_<id>@email.com". |
| StatsApi.UniqueMethods | src/app.py:183 | The payment methods, each once, exactly those occurring in the rows. |
| StatsApi.BuildEntries | src/app.py:149-172 | The loop builds exactly the entries of the sample. |
| StatsApi.Sample | src/app.py:143-144 | A sample of n rows drawn from the rows without replacement. |
| StatsApi.Shuffle | src/app.py:175 | A shuffle is a permutation. |
| StatsApi.EntriesFromSample | src/app.py:143-172 | Every entry comes from a row of the sampled frame. |
| StatsApi.SampleRecent | src/app.py:143-176 | The records of min(3, #fraud) distinct fraud rows marked "fraud" and min(3, #legitimate) distinct legitimate rows marked "legitimate", in some order; so exactly that many of each status. |
| StatsApi.PaymentBreakdown | src/app.py:182-192 | One statistic per distinct payment method, holding its total, fraud count and rate. |
| StatsApi.GetStats | src/app.py:124-209 | An unreadable dataset gives 500. An empty one gives 500 "division by zero". Otherwise: the total, fraud and legitimate counts, fraud amount, rate, mean amount, recent sample (min(3, #fraud) distinct fraud rows and min(3, #legitimate) distinct legitimate rows, each with its status, in some order) and per-method statistics. |
| StatsApi.LegitimateIsComplement | src/app.py:131-133 | total − fraud equals the number of legitimate rows. |
| StatsApi.FraudRateBounds | src/app.py:140 | The overall fraud rate lies in 0..100. |
| StatsApi.Rate | src/app.py:140 | The rate of a part of a group lies in 0..100. |
| StatsApi.StatOf | src/app.py:184-191 | A method's entry has fraud ≤ total, a rate in 0..100, and a positive total iff some row uses the method. |
| StatsApi.EntriesStatus | src/app.py:148-172 | The records built from a sample all carry that sample's status. |
| StatsApi.WithStatusPermuted | src/app.py:175 | Shuffling keeps the number of records of each status. |
| StatsApi.WithStatusAppend | src/app.py:146-172 | The records of a status in two lists are those of each list. |
| StatsApi.MixedSampleCounts | src/app.py:142-176 | The recent list has min(3, #fraud) "fraud" records and min(3, #legitimate) "legitimate" ones, and nothing else. |
| StatsApi.MixedSampleOrigins | src/app.py:143-172 | Each recent record comes from a row of its own kind. |
| StatsApi.PaymentStatBounds | src/app.py:184-191 | A listed method has a positive total, fraud ≤ total and a rate in 0..100. |
| StatsApi.RecentNeverTruncated | src/app.py:143-176 | At most six entries are sampled, so the cut to six never drops one. |
| SyntheticData.RiskScore | src/generate_sophisticated_data.py:51-85 | The `+=` sequence computes the sum of one term per attribute, and the score lies in −0.15..0.70. |
| SyntheticData.OneTermPerAttribute | src/generate_sophisticated_data.py:54-85 | Each attribute contributes exactly one of its listed values (the branches are exclusive). |
| SyntheticData.FraudProbability | src/generate_sophisticated_data.py:48-88 | The probability lies in 0.05..0.80, and is 0.80 (or 0.05) iff the unclamped value reaches that bound. |
| SyntheticData.LowerClampInactive | src/generate_sophisticated_data.py:48-88 | 0.20 + score lies in 0.05..0.90, so only the upper clamp can change it. |
| SyntheticData.ExtremeProfiles | src/generate_sophisticated_data.py:48-88 | The riskiest profile reaches 0.90 and is clamped to 0.80; the safest gives exactly 0.05. |
| SyntheticData.AmountBand | src/generate_sophisticated_data.py:94-135 | Every band lies within 50..300000. |
| SyntheticData.BandWithinRange | src/generate_sophisticated_data.py:94-135 | Whatever the draws, the band lies within the range of its label and category. |
| SyntheticData.BandExamples | src/generate_sophisticated_data.py:96-124 | Legitimate mobile recharge draws from [50, 1000), fraud electronics from [10000, 200000), and fraud in another category from [50000, 300000) iff the first draw is below 0.3. |
| SyntheticData.GenerateRows | src/generate_sophisticated_data.py:39-153 | One label, amount and hour per row; each amount lies in its label and category's range and in [50, 300000); each hour is unusual (0..5, 23) or 6..22, so it lies in 0..23. |
| SyntheticData.ShuffleAndRenumber | src/generate_sophisticated_data.py:169-170 | The rows come out in some permuted order, each once, numbered 1..n in the new order. |
| FlaggedTransactions.Matches | frontend/src/pages/FlaggedTransactionsPage.tsx:145-160 | The initial controls pass every row; a status or risk choice other than "all" passes only rows with that status name or lower-cased risk level. |
| FlaggedTransactions.FilteredTransactions | frontend/src/pages/FlaggedTransactionsPage.tsx:145-160 | The visible rows all match the filter, and there are no more of them than rows. |
| FlaggedTransactions.PendingCount | frontend/src/pages/FlaggedTransactionsPage.tsx:301-302 | The pending card is at most the total, 0 iff no row is pending, the total iff every row is. |
| FlaggedTransactions.HighRiskCount | frontend/src/pages/FlaggedTransactionsPage.tsx:326-327 | The High card is at most the total, 0 iff no row is "High", the total iff every row is. |
| FlaggedTransactions.TotalAmount | frontend/src/pages/FlaggedTransactionsPage.tsx:351-352 | Non-negative amounts sum to a non-negative total. |
| FlaggedTransactions.FilteredTransactionsContract | frontend/src/pages/FlaggedTransactionsPage.tsx:145-160 | A transaction is shown iff it is in the list and matches search, status and risk. Shown rows keep their order. |
| FlaggedTransactions.SearchClause | frontend/src/pages/FlaggedTransactionsPage.tsx:146-151 | The search matches iff the lower-cased id, email or category contains the lower-cased term. |
| FlaggedTransactions.NoFilterShowsAll | frontend/src/pages/FlaggedTransactionsPage.tsx:145-160 | With the initial filters every transaction is shown. |
| FlaggedTransactions.FilterIdempotent | frontend/src/pages/FlaggedTransactionsPage.tsx:145-160 | Filtering twice shows what filtering once shows. |
| FlaggedTransactions.UpperCaseRiskFilterShowsNothing | frontend/src/pages/FlaggedTransactionsPage.tsx:155-157 | A risk filter containing an upper-case letter (other than "all") hides every row, since the level is lower-cased first. |
| FlaggedTransactions.TotalAmountAppend | frontend/src/pages/FlaggedTransactionsPage.tsx:351-352 | The total of two lists is the sum of their totals. |
| FlaggedTransactions.TotalAmountSplits | frontend/src/pages/FlaggedTransactionsPage.tsx:351-352 | The total splits between the rows a predicate keeps and those it drops. |
| FlaggedTransactions.MockSummary | frontend/src/pages/FlaggedTransactionsPage.tsx:48-143 | The mock list has 5 transactions, 3 pending, 3 High, total ₹449,000. |
| FlaggedTransactions.PaymentMethodNotSearched | frontend/src/pages/FlaggedTransactionsPage.tsx:145-160 | Changing a transaction's payment method never changes whether it is shown. |
| FlaggedTransactions.UnsearchedTermHidesRow | frontend/src/pages/FlaggedTransactionsPage.tsx:146-151 | A term found in none of id, email or category hides the row. |
| UserManagement.Matches | frontend/src/pages/UserManagementPage.tsx:97-106 | The initial controls pass every user; a role or status choice other than "all" passes only users with exactly that role or status name. |
| UserManagement.FilteredUsers | frontend/src/pages/UserManagementPage.tsx:97-106 | The visible users all match the filter, and there are no more of them than users. |
| UserManagement.ActiveCount | frontend/src/pages/UserManagementPage.tsx:239 | The active card is at most the total, 0 iff no user is active, the total iff every user is. |
| UserManagement.SuspendedCount | frontend/src/pages/UserManagementPage.tsx:261 | The suspended card is at most the total, 0 iff no user is suspended, the total iff every user is. |
| UserManagement.HighRiskCount | frontend/src/pages/UserManagementPage.tsx:283 | The high-risk card is at most the total, 0 iff no user is high-risk, the total iff every user is. |
| UserManagement.FilteredUsersContract | frontend/src/pages/UserManagementPage.tsx:97-106 | A user is shown iff listed and matching search, role and status; shown users keep their order. |
| UserManagement.SearchClause | frontend/src/pages/UserManagementPage.tsx:98-100 | The search matches iff the lower-cased name or email contains the lower-cased term. |
| UserManagement.FacetsAreExact | frontend/src/pages/UserManagementPage.tsx:101-103 | A role or status filter other than "all" shows only users with exactly that role or status. |
| UserManagement.NoFilterShowsAll | frontend/src/pages/UserManagementPage.tsx:97-106 | With the initial filters every user is shown. |
| UserManagement.FilterIdempotent | frontend/src/pages/UserManagementPage.tsx:97-106 | Filtering twice shows what filtering once shows. |
| UserManagement.ActiveAndSuspendedWithinTotal | frontend/src/pages/UserManagementPage.tsx:239-283 | Active plus suspended users are at most all users; high-risk users are at most all users. |
| DemoAuth.Uid | frontend/src/contexts/DemoAuthContext.tsx:67 | The uid is "demo-user-" followed by the clock reading. |
| DemoAuth.UidReadsBack | frontend/src/contexts/DemoAuthContext.tsx:67 | The text after "demo-user-" reads back as the clock reading. |
| DemoAuth.UidInjective | frontend/src/contexts/DemoAuthContext.tsx:67 | Different clock readings give different uids. |
| DemoAuth.EmailPrefix | frontend/src/contexts/DemoAuthContext.tsx:104-110 | The display name is the longest '@'-free prefix of the email: the text before the first '@', or all of it. |
| DemoAuth.PrefixOfPlainEmail | frontend/src/contexts/DemoAuthContext.tsx:104 | An email without '@' is its own display name. |
| DemoAuth.Restored | frontend/src/contexts/DemoAuthContext.tsx:49-54 | User and profile are restored iff a session is stored, and then they are the stored ones. |
| DemoAuth.LocalStorage.constructor | frontend/src/contexts/DemoAuthContext.tsx:49 | Storage starts with the given items. |
| DemoAuth.LocalStorage.SetItem | frontend/src/contexts/DemoAuthContext.tsx:80-86 | Setting a key stores the value under it and leaves the other keys alone. |
| DemoAuth.LocalStorage.RemoveItem | frontend/src/contexts/DemoAuthContext.tsx:134 | Removing a key removes only it. |
| DemoAuth.AuthProvider.constructor | frontend/src/contexts/DemoAuthContext.tsx:43-56 | Mounting restores the stored session, if any, and ends not loading. |
| DemoAuth.AuthProvider.SignUp | frontend/src/contexts/DemoAuthContext.tsx:58-95 | Sign-up keeps the given email and display name verbatim, gives user and profile the same uid, stores exactly that pair under "demoUser" and ends not loading. |
| DemoAuth.AuthProvider.SignIn | frontend/src/contexts/DemoAuthContext.tsx:97-130 | Any credentials are accepted. The display name is the email prefix; user and profile share the uid; exactly that pair is stored; loading ends. |
| DemoAuth.AuthProvider.Logout | frontend/src/contexts/DemoAuthContext.tsx:132-140 | Logout removes "demoUser" and clears user and profile. |
| DemoAuth.UseAuth | frontend/src/contexts/DemoAuthContext.tsx:31-37 | Inside a provider the hook returns it; outside, it fails with "useAuth must be used within an AuthProvider". |
| DemoAuth.SignInThenRestart | frontend/src/contexts/DemoAuthContext.tsx:49-124 | Signing in and then mounting a new provider restores the same user and profile. |
| DemoAuth.LogoutThenRestart | frontend/src/contexts/DemoAuthContext.tsx:49-136 | Logging out and then remounting restores nobody. |
| Wire.ToWire | frontend/src/pages/FraudDetectionPage.tsx:124-150 | The body has exactly the eighteen keys of the request. |
| Wire.WireRoundTrip | frontend/src/pages/FraudDetectionPage.tsx:124-150 | Reading the body back gives the same request. |
| Wire.IntReadsBack | frontend/src/pages/FraudDetectionPage.tsx:133-142 | An integer field reads back as the same integer. |
| TextUtil.Lower | frontend/src/pages/FlaggedTransactionsPage.tsx:148 | Lower-casing keeps the length and maps each character. |
| TextUtil.LowerIdempotent | frontend/src/pages/FlaggedTransactionsPage.tsx:148-151 | Lower-casing twice is lower-casing once. |
| TextUtil.Contains | frontend/src/pages/FlaggedTransactionsPage.tsx:149 | A text includes only needles no longer than itself. |
| TextUtil.ContainsIffOccurs | frontend/src/pages/FlaggedTransactionsPage.tsx:149 | `includes` holds iff the needle occurs at some position. |
| TextUtil.ContainsEmpty | frontend/src/pages/FlaggedTransactionsPage.tsx:149 | Every text includes the empty text. |
| TextUtil.MissingCharNotContained | frontend/src/pages/FlaggedTransactionsPage.tsx:149 | A needle with a character the text lacks is not included. |
| TextUtil.DecimalText | src/app.py:114 | Decimal text is non-empty, all digits, with no leading zero. |
| TextUtil.ZeroPad | src/app.py:151 | `:04d` text has width max(4, digits), all digits. |
| JsNumbers.TrimStart | frontend/src/pages/FraudDetectionPage.tsx:111 | The result is a suffix; every dropped character is white space, and the result does not start with white space. |
| JsNumbers.DigitRun | frontend/src/pages/FraudDetectionPage.tsx:111-133 | The digit run is the longest all-digit prefix. |
| JsNumbers.FractionValue | frontend/src/pages/FraudDetectionPage.tsx:111-125 | The fraction digits have a value in [0, 1). |
| JsNumbers.DigitsValueOfDecimal | src/app.py:114 | Decimal text reads back as its number. |
| JsNumbers.ParseInt | frontend/src/pages/FraudDetectionPage.tsx:133-136 | `parseInt` gives a number only for a text holding a digit. |
| JsNumbers.ParseFloat | frontend/src/pages/FraudDetectionPage.tsx:111 | `parseFloat` gives a number only for a text holding a digit. |
| JsNumbers.UnsignedInt | frontend/src/pages/FraudDetectionPage.tsx:133-136 | The digits after the sign read as a whole number only when there is a digit. |
| JsNumbers.ParseIntOfDecimal | frontend/src/pages/FraudDetectionPage.tsx:133-136 | `parseInt` of decimal text is that number. |
| JsNumbers.ParseFloatOfDecimal | frontend/src/pages/FraudDetectionPage.tsx:111 | `parseFloat` of decimal text is that number. |
| JsNumbers.ParseFloatOfDigits | frontend/src/pages/FraudDetectionPage.tsx:111 | `parseFloat` of a digit string is its value. |
| JsNumbers.UnsignedFloat | frontend/src/pages/FraudDetectionPage.tsx:111-135 | Whenever the digits read as a whole number, the float reading exists and lies within one above it. |
| JsNumbers.TruncDropsFraction | frontend/src/pages/FraudDetectionPage.tsx:133-135 | Truncation drops the fraction of a number of either sign. |
| JsNumbers.ParseIntOfDigits | frontend/src/pages/FraudDetectionPage.tsx:133-136 | `parseInt` of a digit string is its value. |
| JsNumbers.ParseIntOfZeroPad | src/app.py:151 | A zero-padded id reads back as the id. |
| JsNumbers.ParseIntTruncatesParseFloat | frontend/src/pages/FraudDetectionPage.tsx:111-135 | Where `parseInt` succeeds, `parseFloat` does too, and `parseInt` is its truncation. |
| JsNumbers.EmptyIsNaN | frontend/src/pages/FraudDetectionPage.tsx:125-133 | Both parsers give NaN on empty text. |
| FilterEngine.Keep | frontend/src/pages/FlaggedTransactionsPage.tsx:145 | A filter never lengthens the list. |
| FilterEngine.KeepAppend | frontend/src/pages/FlaggedTransactionsPage.tsx:145 | Filtering distributes over concatenation. |
| FilterEngine.KeepComplement | frontend/src/pages/FlaggedTransactionsPage.tsx:301-302 | A predicate and its negation split the list's length. |
| FilterEngine.KeepMultiplicity | frontend/src/pages/FlaggedTransactionsPage.tsx:145 | A passing element is kept as often as it occurs; a failing one never. |
| FilterEngine.KeepPermuted | src/app.py:175 | Reordering a list does not change how many elements a filter keeps. |
| FilterEngine.KeepEmptyIff | frontend/src/pages/FlaggedTransactionsPage.tsx:301-302 | A filter keeps nothing iff no element passes. |
| FilterEngine.KeepMembership | frontend/src/pages/FlaggedTransactionsPage.tsx:145 | An element is kept iff it is in the list and passes. |
| FilterEngine.KeepIsSubsequence | frontend/src/pages/FlaggedTransactionsPage.tsx:145 | The kept elements are a subsequence, all passing. |
| FilterEngine.KeepAll | frontend/src/pages/FlaggedTransactionsPage.tsx:145 | If everything passes, everything is kept. |
| FilterEngine.KeepNone | frontend/src/pages/FlaggedTransactionsPage.tsx:145 | If nothing passes, nothing is kept. |
| FilterEngine.KeepIdempotent | frontend/src/pages/FlaggedTransactionsPage.tsx:145 | Filtering twice is filtering once. |
| FilterEngine.KeepShrinks | frontend/src/pages/FlaggedTransactionsPage.tsx:145 | The filtered list is as long as the list iff every element passes. |
| FilterEngine.EmptySearchHits | frontend/src/pages/UserManagementPage.tsx:98-100 | An empty search term matches every row. |
| FilterEngine.SearchMiss | frontend/src/pages/UserManagementPage.tsx:98-100 | A term found in none of the fields does not match. |

## Left out

- Rendering: JSX, animation, icons, colours and fonts are not modelled. The
  report's text lines, positions and pages are.
- Navigation and static content: the landing, about, dashboard and navbar
  components and the route wiring of App.tsx are not modelled.
- The analytics page: it fetches statistics and colours a percentage, and is
  not modelled.
- Text formatting: `toLocaleString`, `toFixed(2)`, `Date` parsing and
  formatting, and Python's `:,.2f` are kept symbolic. Report lines carry
  `Piece`s naming the value and its format, and statistics carry numbers.
- Rounding:
  - `round(x * 100, 2)` is modelled as `x * 100`, without rounding to two
    places.
  - `PredictApi.PredictFraud`: the probabilities are not rounded, for the
    same reason (decimal float rounding).
  - `StatsApi.GetStats`: `fraudRate` is the exact rate;
    `round(fraud_rate, 2)` is not modelled, for the same reason.
- `FraudForm.Submittable`: checks only the five number inputs. The
  `required` select boxes start with an empty state that matches none of
  their options. What the browser then shows and validates depends on how
  React renders such a select, which is outside the model.
- Text measurement: `splitTextToSize` is a parameter giving each text's row
  count (at least one).
- Case mapping:
  - Lower-casing maps ASCII letters only. Unicode case mapping is outside
    the model.
  - `TextUtil.Lower`: does not lower-case non-ASCII letters.
- JavaScript number parsing: exponents, "Infinity" and hexadecimal are not
  modelled. Signed decimal forms are.
- `JsNumbers.TrimStart`: skips only ASCII white space (space, tab, line
  feed, carriage return, vertical tab, form feed). JavaScript's parsers also
  skip the other Unicode white space and line terminators.
- Network and I/O: `fetch` is an outcome (network failure, or a response
  with its status and parsed body).
- The backend's JSON body: a body that is not a JSON object is not
  modelled.
- `Wire.Json`: holds numbers, strings, booleans and null only. A field whose
  value is a JSON array or object is not modelled. So the `TypeError` that a
  list or dict raises in a rule's comparison, and the truthiness of an empty
  list or dict, are outside the model. The CSV read is a `Result` holding the rows or the error text.
- The model: preprocessing and the ML model are not modelled. Their
  probabilities or error reach `PredictApi.PredictFraud` as a parameter.
- Randomness, clocks and ids:
  - `random.randint(1000, 9999)` is a parameter.
  - `datetime.now()` and `Date.now()` are parameters.
  - `new Date()` for `createdAt` is a separate parameter.
- Recent transactions: the `confidence` and `time` fields are random
  decorations and are not modelled.
- `StatsApi.Sample`: states only that the sample is drawn without
  replacement. Pandas' seeded choice of which rows is not modelled.
- `StatsApi.Shuffle`: states only that the result is a permutation.
  NumPy's particular order is not modelled.
- `SyntheticData.GenerateRows`:
  - the draws are nondeterministic within their ranges, so it states ranges
    and not the probabilities with which labels, bands and hours occur;
  - the other generated columns (random choices with fixed weights) are not
    modelled.
- `SyntheticData.ShuffleAndRenumber`: states some permutation, not the one
  the fixed seed gives.
- Session store:
  - JSON serialisation in local storage is identity. After a reload, the
    real `createdAt` comes back as a string, not a `Date`.
  - The `catch` branches of sign-up, sign-in and logout are not modelled.
    They handle storage exceptions, which the model's storage never raises.
- The other data generators and the training and analysis scripts are not
  part of this model: they are library calls and constant-probability
  sampling.
