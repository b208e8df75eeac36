# AWS health check: report pipeline and questionnaire logic

This project models, in Dafny, the sequential logic of an AWS account health check:

- the signal collector and rule evaluator (`analyzeAWS`). It turns the answers of four account queries into an analysis object. That object holds findings and recommendations, pushed in pairs by three threshold rules and a fallback.
- the report renderer (`generatePDF`). It writes the analysis as an ordered list of text lines.
- the request handler (`handler`). It parses the request and requires a `contactId`. It then analyses the account, fills in defaults, renders, uploads, notifies the CRM contact and answers with an HTTP status.
- the state logic of the questionnaire page (`Questions.js`). This covers answer updates, submission, the contact id derived from the email, per-pillar tallies, reset, grouping questions by pillar and the layout of the summary PDF.

Every external effect is an input describing its outcome. This covers the AWS queries, the PDF output stream, the S3 upload, the CRM update, the POST of the answers and the load of questions.json. What the model proves is how the code reacts to each outcome.

Modules, one per source file, plus `Values` for the JavaScript value semantics they share:

- `Values` (values.dfy): optional properties, JavaScript falsiness of strings (`x || default`) and the decimal text of a non-negative integer.
- `AnalyzeAws` (analyze_aws.dfy): the methods `AnalyzeAWS` and `EvaluateRules` (its rule block), proved against a table-driven definition of the rules (`Triggered`: the rules that fire, filtered from the table in order, or the fallback alone).
- `GenerateReport` (generate_report.dfy): the method `GeneratePdf`, which appends lines in loops. It is proved against `ReportLines`, whose layout the lemmas spell out line by line.
- `Handler` (handler.dfy): `Handle` validates the request, and `RunStages` is the try block. Both return the response and the trace of external calls with their arguments.
- `Questions` (questions.dfy): the class `Page` holds the component state. Pure parts are functions. The `generateSummary` loop is `TallyAnswers` and the `downloadPDF` loop is `SummaryLayout`.

Behaviours of the code that the model keeps:

- `analyzeAWS` never throws. A failed query yields `{ error }`, and the handler then gives it empty findings, empty recommendations and cost 0. It renders, uploads and notifies as usual.
- A string body that parses to `null` makes the destructuring at backend/index.js:27-33 throw outside the try block. The handler's promise then rejects (`Unhandled`) rather than answering 400.
- An answer other than Yes, No or Partially creates its own counter, which `undefined++` turns into NaN. `Tally.unknown` records these keys.
- The contact id is the stripped email followed directly by the timestamp, so different submissions can produce the same id (`ContactIdCollides`). Key and path are injective in the contact id, not in the submission.
- A stage failure after the upload leaves the upload in place. The handler answers 500 and undoes nothing.
- The rule texts are the code's literals. They end in full stops and name EC2, S3 and IAM ("High monthly AWS spend detected.", "Maintain monthly monitoring to prevent drift.").


## Model

| member | source | states |
|---|---|---|
| `AnalyzeAws.AnalyzeAWS` | backend/analyzeAWS.js:44-77 | A failed query yields an object holding only `error`. Otherwise the object holds the cost text, the IAM risk text, the reservation count, the bucket count, and findings and recommendations equal to the texts of the triggered rules. |
| `AnalyzeAws.EvaluateRules` | backend/analyzeAWS.js:54-70 | The rule block pushes exactly the finding and recommendation texts of the triggered rules, in table order: the fired threshold rules, or the fallback pair alone. |
| `AnalyzeAws.FiredAmongChecked` | backend/analyzeAWS.js:54-65 | The three rules are evaluated independently, in the order spend, root key, instance count, and each contributes only when its condition holds. |
| `AnalyzeAws.RuleFiresIff` | backend/analyzeAWS.js:54-65 | A threshold rule's finding is present if and only if its condition holds (cost > 500, root keys > 0, reservations > 10). |
| `AnalyzeAws.FallbackIffNothingFired` | backend/analyzeAWS.js:67-70 | The fallback pair is present if and only if none of the three rules fired, and then it is the only pair. |
| `AnalyzeAws.TriggeredInTableOrder` | backend/analyzeAWS.js:54-70 | There are between one and three findings, in strictly increasing table order, so no rule appears twice. |
| `AnalyzeAws.FindingsPairedWithRecommendations` | backend/analyzeAWS.js:54-70 | Findings and recommendations are non-empty and of equal length. Since each rule pushes one pair, neither list repeats a text. |
| `AnalyzeAws.SpendThresholdIsStrict` | backend/analyzeAWS.js:54-57 | A cost of exactly 500 does not fire the spend rule; any cost above 500 does. |
| `AnalyzeAws.InstanceThresholdIsStrict` | backend/analyzeAWS.js:62-65 | 10 reservations do not fire the instance rule; 11 do. |
| `AnalyzeAws.RootKeyFindingMatchesIamRisk` | backend/analyzeAWS.js:46-61 | The root-key finding is present exactly when the `iamRisk` text is the high-risk one. |
| `AnalyzeAws.QuietAccount` | backend/analyzeAWS.js:67-70 | With no rule firing, findings are exactly ["No major risks detected."] and recommendations exactly ["Maintain monthly monitoring to prevent drift."]. |
| `AnalyzeAws.EveryRuleFires` | backend/analyzeAWS.js:54-65 | With every condition true, the three findings appear in table order and there is no fallback. |
| `GenerateReport.GeneratePdf` | backend/generateReport.js:4-47 | A synchronous exception rejects with its error before any line is written. Otherwise the document is `ReportLines`. The promise resolves with the output path on "finish" and rejects with the stream's error on "error". |
| `GenerateReport.BulletsAt` | backend/generateReport.js:27-36 | Each item yields exactly one line, the bullet followed by the item, at the item's position. |
| `GenerateReport.ReportLayout` | backend/generateReport.js:12-36 | The report has 8 + findings + recommendations lines, in this order: title, client (default "Client"), account id (default "Unknown"), timestamp, cost heading, cost (default 0), "Key Findings", finding bullets, "Recommendations", recommendation bullets. |
| `Handler.Handle` | backend/index.js:7-82 | A non-empty string body that fails to parse answers 400 "Invalid JSON body", and a body of `null` rejects. A falsy `contactId`, an absent body included, answers 400 "Missing contactId". All three happen before any external call. A body that parses, is not `null` and carries a truthy `contactId` always runs the stages as `StagesRan` states. The answer is 200 exactly when render, upload and notify all succeed. |
| `Handler.RunStages` | backend/index.js:42-81 | Analysis never aborts. Render receives the whole analysis object, defaulted, at "/tmp/report-" + id + ".pdf", and upload receives that path and the key "reports/" + id + ".pdf". Notify receives the URL that upload returned. Stages run in order, and the first failure answers 500 with its error text, after which no later stage runs. Success answers 200 with status "success" and that same URL. |
| `Handler.AnalysisRendered` | backend/index.js:44-52 | For any query outcome, the object given to the renderer keeps the analysis's error, IAM risk and counts. Its findings and recommendations are those of the triggered rules, or empty after a failure. Its cost is the cost text, or 0 when that is empty or the analysis failed. Client name and account id come from the request, defaulting to "Client" and "Unknown". |
| `Handler.RendererDefaultsAreRedundant` | backend/index.js:47-52 | The renderer's own `\|\| "Client"`, `\|\| "Unknown"` and `\|\| 0` change nothing on the object the handler passes. The report shows the request's client and account, or the handler's defaults, and the analysed cost, or 0. |
| `Handler.ReportKeyRoundTrip` | backend/index.js:59 | The contact id can be read back from the upload key. |
| `Handler.ReportKeyInjective` | backend/index.js:59 | Two reports share a key exactly when they are for the same contact, so a rerun overwrites and two different contact ids never collide. |
| `Handler.ReportPathInjective` | backend/index.js:55 | Two runs share a temp path exactly when they are for the same contact. |
| `Handler.FailedAnalysisRendersEmptyReport` | backend/index.js:44-56 | After a failed analysis the rendered report still has its 8 fixed lines, with cost "$0" and no bullets. |
| `Handler.AnsweredAnalysisRendersEveryFinding` | backend/index.js:44-56 | After a successful analysis the report has one bullet per finding and per recommendation, in order, for 10 to 14 lines. |
| `Values.Decimal` | frontend/src/pages/Questions.js:33 | The text of `Date.now()` is a non-empty string of digits without a leading zero. |
| `Values.DecimalRoundTrip` | frontend/src/pages/Questions.js:33 | Reading the decimal text back gives the number again, so distinct timestamps give distinct suffixes. The whole id need not be distinct (see `ContactIdCollides`). |
| `Questions.AnswerChange` | frontend/src/pages/Questions.js:20-25 | The question maps to the new value and every other answer is unchanged. The pillar argument plays no part. |
| `Questions.StripNonAlphanumeric` | frontend/src/pages/Questions.js:33 | The result is no longer than the email and holds only ASCII letters and digits. |
| `Questions.ContactIdCollides` | frontend/src/pages/Questions.js:33 | The contact id is not injective. The email "a1" at time 23 and the email "a" at time 123 both give "a123", so their reports share one key. |
| `Questions.StripDistributes` | frontend/src/pages/Questions.js:33 | Stripping works character by character and keeps the original order. |
| `Questions.StripKeepsAlphanumeric` | frontend/src/pages/Questions.js:33 | Stripping leaves every ASCII letter and digit in place. |
| `Questions.StripDropsOthers` | frontend/src/pages/Questions.js:33 | Every character that is not an ASCII letter or digit is removed. With `StripDistributes` and `StripKeepsAlphanumeric`, a character is kept if and only if it is alphanumeric. |
| `Questions.StripIdempotent` | frontend/src/pages/Questions.js:33 | Stripping twice is the same as stripping once. |
| `Questions.ContactIdShape` | frontend/src/pages/Questions.js:33 | The contact id is non-empty and consists only of ASCII letters and digits. |
| `Questions.TallyAnswers` | frontend/src/pages/Questions.js:68-79 | Unanswered questions are skipped. A pillar gets an entry only if one of its questions is answered, in order of first appearance. Each entry holds that pillar's Yes, No and Partially counts and its other answers. |
| `Questions.UnlistedPillarIsEmpty` | frontend/src/pages/Questions.js:74-76 | A pillar without an answered question has nothing counted, so a new entry rightly starts at zero. |
| `Questions.AnsweredPillarsMembers` | frontend/src/pages/Questions.js:70-76 | A pillar is in the summary if and only if one of its questions has a truthy answer. |
| `Questions.AnsweredPillarsDistinct` | frontend/src/pages/Questions.js:74-76 | No pillar is listed twice in the summary. |
| `Questions.TalliesAddUp` | frontend/src/pages/Questions.js:70-79 | When every answer is Yes, No or Partially, a pillar's three counts sum to its number of answered questions, and no NaN counter appears. |
| `Questions.Grouped` | frontend/src/pages/Questions.js:121-125 | A pillar has a list exactly when it is among the listed pillars. |
| `Questions.InPillarAppend` | frontend/src/pages/Questions.js:121-125 | Appending a question extends only its own pillar's list. |
| `Questions.GroupedAt` | frontend/src/pages/Questions.js:121-125 | A pillar's list is exactly its questions in their original order and is never empty. A pillar with no questions has no list. |
| `Questions.GroupedPillarsDistinct` | frontend/src/pages/Questions.js:121-125 | No pillar is listed twice in `grouped`. |
| `Questions.GroupedIsPartition` | frontend/src/pages/Questions.js:121-125 | Each question is in its pillar's list exactly once, in original relative order. The pillars are listed once each. |
| `Questions.SummaryLayout` | frontend/src/pages/Questions.js:91-118 | Three header texts sit at fixed positions. The i-th pillar heading is at y = 50 + 30i, and its Yes, Partially and No lines are at 58, 64 and 70 + 30i. The file is named "AWS-Assessment-" + email + ".pdf". |
| `Questions.Page.constructor` | frontend/src/pages/Questions.js:5-10 | The state starts with no questions, no answers, no flags, no error and no summary. |
| `Questions.Page.LoadQuestions` | frontend/src/pages/Questions.js:13-18 | Loaded questions replace the list; a failed load sets "Failed to load questions". Nothing else changes. |
| `Questions.Page.HandleAnswerChange` | frontend/src/pages/Questions.js:20-25 | Only `answers` changes, by `AnswerChange`. |
| `Questions.Page.GenerateSummary` | frontend/src/pages/Questions.js:68-82 | The summary becomes the tally of the current questions and answers. Nothing else changes. |
| `Questions.Page.HandleSubmit` | frontend/src/pages/Questions.js:27-66 | An empty email sets the missing-email error and sends nothing. Otherwise the request carries the stripped email plus timestamp, empty credentials and the answers. Afterwards `loading` is false. `success` holds exactly for an ok response, which also builds the summary, and any other outcome sets the network error. |
| `Questions.Page.ResetAssessment` | frontend/src/pages/Questions.js:84-89 | Answers, success, error and summary are cleared. The questions and `loading` stay. |

## Left out

- AWS SDK calls, the process-wide `AWS.config.update`, the region default and the month-start date (backend/analyzeAWS.js:5-41). They are I/O and clock-dependent, so they are abstracted to `QueryOutcome`: either every query's answer, or the error text of the one that failed.
- `parseFloat` and `toFixed(2)`. Floating point is out of scope. The cost is a `real` for the rule, and its two-decimal text is an opaque input; a NaN cost is not modelled.
- backend/uploadToS3.js and backend/notifyGHL.js. They are network calls (S3 put and signed URL; HTTP PUT and the token check), and appear only as the `upload` and `notify` outcomes of `World`.
- backend/ghlAuth.js, backend/lambda/submitAnswers.js, frontend/src/pages/EmailCapture.js and frontend/src/components/QuestionCard.js are not part of this model. They are I/O plumbing and UI.
- The JSX, the styles, and the font sizes, underlining and `moveDown` spacing of pdfkit and jsPDF. Text lines and placed texts carry the content.
- Timestamps (`toLocaleString()`, `Date.now()`) are parameters, and console logging is dropped.
- The JSON encoding of responses and requests. Response and request bodies are structured values.
- `Questions.Page.HandleSubmit`: models the handler from start to `finally` in one step. The intermediate state while the POST is awaited (`loading` true, error cleared, success false) is set, but no postcondition exposes it.
- React batches state updates. The model writes each setter at once; `generateSummary` reads the answers of the same render either way.
- JavaScript objects keyed by pillar are assumed to keep insertion order. That fails for integer-like pillar names. Pillar names and question texts that are `Object.prototype` members are not modelled either. For example, an unanswered question titled "constructor" reads a truthy `answers[q.question]` in the code, which counts it under a NaN key, but the model treats it as unanswered.
- `contactId` is modelled as a string. A number would be interpolated into the key in the same way.
- Concurrent invocations for the same contact ("last write wins") are not modelled.
