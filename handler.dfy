/** The request handler of backend/index.js: parse the body, require a
    `contactId`, analyse the account, fill in defaults, render the PDF,
    upload it, write its link to the CRM contact, respond.

    The external stages are abstracted to their outcomes, gathered in a
    `World`: what the account queries answer, how the PDF stream ends, what
    the upload returns (the signed URL, or the text of its error) and
    whether the CRM update succeeds. The handler's observable behaviour is
    its response and the sequence of external calls it makes, with their
    arguments. */
module Handler {
  import opened Values
  import opened AnalyzeAws
  import opened GenerateReport

  /** The properties the handler destructures from the body. */
  datatype Fields = Fields(
    contactId: Option<string>,
    accessKeyId: Option<string>,
    secretAccessKey: Option<string>,
    accountId: Option<string>,
    clientName: Option<string>)

  const NoFields: Fields := Fields(None, None, None, None, None)

  /** A value `JSON.parse` can produce: `null`, an object, or anything else
      (a number, boolean, string or array, none of which has the fields). */
  datatype Json = JNull | JObject(fields: Fields) | JOther

  /** `event.body`: absent, a string (with what `JSON.parse` makes of it, or
      None when it throws), or an already decoded object. */
  datatype EventBody = NoBody | Raw(text: string, parsed: Option<Json>) | Decoded(fields: Fields)

  datatype ResponseBody = ErrorBody(error: string) | SuccessBody(status: string, reportUrl: string)

  /** A response, or the promise rejecting because something threw outside
      the handler's try block. */
  datatype Outcome = Respond(statusCode: int, body: ResponseBody) | Unhandled

  /** An external call the handler makes, with the arguments it passes. */
  datatype Call =
    | AnalyzeCall(accessKeyId: Option<string>, secretAccessKey: Option<string>)
    | RenderCall(data: Record, path: string)
    | UploadCall(path: string, key: string)
    | NotifyCall(contactId: string, reportUrl: string)

  /** The outcomes the external stages would produce. */
  datatype World = World(
    queries: QueryOutcome,
    timestamp: string,
    sink: Sink,
    upload: Result<string, string>,
    notify: Result<(), string>)

  /** Position of each kind of call in the pipeline. */
  function StageIndex(c: Call): nat {
    match c
    case AnalyzeCall(_, _) => 0
    case RenderCall(_, _) => 1
    case UploadCall(_, _) => 2
    case NotifyCall(_, _) => 3
  }

  function BadRequest(message: string): Outcome {
    Respond(400, ErrorBody(message))
  }

  function ServerError(message: string): Outcome {
    Respond(500, ErrorBody(message))
  }

  /** The value `body` holds once the body is parsed, or None when
      `JSON.parse` throws. A missing or empty body leaves `{}`. */
  function ParsedBody(event: EventBody): Option<Json> {
    match event
    case NoBody => Some(JObject(NoFields))
    case Raw(text, parsed) => if text == "" then Some(JObject(NoFields)) else parsed
    case Decoded(fields) => Some(JObject(fields))
  }

  /** The destructured properties; all undefined unless the body is an object. */
  function RequestFields(event: EventBody): Fields {
    match ParsedBody(event)
    case Some(JObject(fields)) => fields
    case _ => NoFields
  }

  const KeyPrefix: string := "reports/"
  const PathPrefix: string := "/tmp/report-"
  const PdfSuffix: string := ".pdf"

  /** The local file the PDF is written to. */
  function ReportPath(contactId: string): (path: string)
    ensures |path| == |PathPrefix| + |contactId| + |PdfSuffix|
  {
    PathPrefix + contactId + PdfSuffix
  }

  /** The S3 object key the PDF is uploaded under. */
  function ReportKey(contactId: string): (key: string)
    ensures |key| == |KeyPrefix| + |contactId| + |PdfSuffix|
  {
    KeyPrefix + contactId + PdfSuffix
  }

  /** The contact a report key belongs to. */
  function ContactOfKey(key: string): string
    requires |key| >= |KeyPrefix| + |PdfSuffix|
  {
    key[|KeyPrefix|..|key| - |PdfSuffix|]
  }

  /** What the handler passes to the renderer: the analysis object (or the
      error object) with `findings` and `recommendations` defaulted to empty
      lists, a falsy `cost` to 0, and the client name and account id taken
      from the request with their defaults. */
  predicate RenderedRecord(data: Record, queries: QueryOutcome, request: Fields) {
    && data.error == (if queries.QueryFailed? then Some(queries.message) else None)
    && data.findings == Some(if queries.Answered? then FindingsOf(Triggered(queries.signals)) else [])
    && data.recommendations == Some(if queries.Answered? then RecommendationsOf(Triggered(queries.signals)) else [])
    && data.cost == (if queries.Answered? && queries.signals.costText != "" then CostText(queries.signals.costText) else CostZero)
    && data.iamRisk == (if queries.Answered? then Some(IamRisk(queries.signals.rootAccessKeys)) else None)
    && data.ec2Count == (if queries.Answered? then Some(|queries.signals.reservations|) else None)
    && data.bucketCount == (if queries.Answered? then Some(|queries.signals.buckets|) else None)
    && data.clientName == Some(OrDefault(request.clientName, "Client"))
    && data.accountId == Some(OrDefault(request.accountId, "Unknown"))
  }

  /** The object passed to the renderer: the analysis object with `findings`
      and `recommendations` defaulted to empty lists, a falsy `cost` to 0,
      and the client name and account id taken from the request with their
      defaults. */
  function ReportData(analysis: Record, request: Fields): Record {
    analysis.(
      findings := Some(ListOrEmpty(analysis.findings)),
      recommendations := Some(ListOrEmpty(analysis.recommendations)),
      cost := if CostTruthy(analysis.cost) then analysis.cost else CostZero,
      clientName := Some(OrDefault(request.clientName, "Client")),
      accountId := Some(OrDefault(request.accountId, "Unknown")))
  }

  /** Whatever the queries return, the defaulted analysis object is the
      record `RenderedRecord` describes. */
  lemma AnalysisRendered(q: QueryOutcome, analysis: Record, request: Fields)
    requires Analysed(q, analysis)
    ensures RenderedRecord(ReportData(analysis, request), q, request)
  {
  }

  /** What the try block of the handler does for a request with a truthy
      `contactId`: analyse (which never aborts), render the defaulted
      record to the contact's temp path, upload it under the contact's key,
      pass the returned URL to the CRM update, and answer 200 with that URL;
      the first stage that fails ends the run with 500 and its error text,
      and nothing already done is undone. */
  predicate StagesRan(request: Fields, w: World, outcome: Outcome, calls: seq<Call>)
    requires Truthy(request.contactId)
  {
    var id := request.contactId.value;
    && 2 <= |calls| <= 4
    && (forall i :: 0 <= i < |calls| ==> StageIndex(calls[i]) == i)
    && calls[0] == AnalyzeCall(request.accessKeyId, request.secretAccessKey)
    && calls[1].RenderCall?
    && calls[1].path == ReportPath(id)
    && RenderedRecord(calls[1].data, w.queries, request)
    && (|calls| == 2 <==> !w.sink.StreamFinishes?)
    && (|calls| == 2 ==> outcome == ServerError(w.sink.error))
    && (|calls| >= 3 ==> calls[2] == UploadCall(ReportPath(id), ReportKey(id)))
    && (|calls| == 3 <==> w.sink.StreamFinishes? && w.upload.Err?)
    && (|calls| == 3 ==> outcome == ServerError(w.upload.error))
    && (|calls| == 4 ==> w.upload.Ok? && calls[3] == NotifyCall(id, w.upload.value))
    && (|calls| == 4 ==> outcome == if w.notify.Ok? then Respond(200, SuccessBody("success", w.upload.value))
                                    else ServerError(w.notify.error))
  }

  /** Lines 42-81 of the handler: the stages, in order, inside the try block. */
  method RunStages(request: Fields, w: World) returns (outcome: Outcome, calls: seq<Call>)
    requires Truthy(request.contactId)
    ensures StagesRan(request, w, outcome, calls)
  {
    var contactId := request.contactId.value;
    calls := [AnalyzeCall(request.accessKeyId, request.secretAccessKey)];
    var analysis := AnalyzeAWS(w.queries);
    var reportData := ReportData(analysis, request);
    AnalysisRendered(w.queries, analysis, request);

    var pdfPath := ReportPath(contactId);
    calls := calls + [RenderCall(reportData, pdfPath)];
    var document, settled := GeneratePdf(reportData, pdfPath, w.timestamp, w.sink);
    if settled.Rejected? {
      return ServerError(settled.reason), calls;
    }

    var key := ReportKey(contactId);
    calls := calls + [UploadCall(pdfPath, key)];
    if w.upload.Err? {
      return ServerError(w.upload.error), calls;
    }
    var reportUrl := w.upload.value;

    calls := calls + [NotifyCall(contactId, reportUrl)];
    if w.notify.Err? {
      return ServerError(w.notify.error), calls;
    }
    return Respond(200, SuccessBody("success", reportUrl)), calls;
  }

  /** `handler`: validation answers 400 (or, for a body of `null`, throws)
      before any external call; otherwise the stages run as `StagesRan`
      describes. */
  method Handle(event: EventBody, w: World) returns (outcome: Outcome, calls: seq<Call>)
    ensures outcome == BadRequest("Invalid JSON body") <==> ParsedBody(event) == None
    ensures outcome.Unhandled? <==> ParsedBody(event) == Some(JNull)
    ensures outcome == BadRequest("Missing contactId") <==>
      ParsedBody(event).Some? && ParsedBody(event) != Some(JNull) && !Truthy(RequestFields(event).contactId)
    ensures calls == [] <==> outcome.Unhandled? || outcome.statusCode == 400
    ensures calls != [] ==> Truthy(RequestFields(event).contactId) && StagesRan(RequestFields(event), w, outcome, calls)
    ensures ParsedBody(event).Some? && ParsedBody(event) != Some(JNull) && Truthy(RequestFields(event).contactId) ==>
      calls != []
    ensures outcome.Respond? ==> outcome.statusCode in {200, 400, 500}
    ensures outcome.Respond? && outcome.statusCode == 200 <==>
      calls != [] && w.sink.StreamFinishes? && w.upload.Ok? && w.notify.Ok?
  {
    var body: Json := JObject(NoFields);
    match event {
      case NoBody =>
      case Raw(text, parsed) =>
        if text != "" {
          if parsed.None? {
            return BadRequest("Invalid JSON body"), [];
          }
          body := parsed.value;
        }
      case Decoded(fields) =>
        body := JObject(fields);
    }
    assert ParsedBody(event) == Some(body);
    // destructuring `null` throws before the try block
    if body.JNull? {
      return Unhandled, [];
    }
    var request := if body.JObject? then body.fields else NoFields;
    assert request == RequestFields(event);
    if !Truthy(request.contactId) {
      return BadRequest("Missing contactId"), [];
    }
    outcome, calls := RunStages(request, w);
  }

  /** The key is a function of the contact and gives it back: reports for one
      contact overwrite each other, reports for two contacts never do. */
  lemma ReportKeyRoundTrip(contactId: string)
    ensures ContactOfKey(ReportKey(contactId)) == contactId
  {
  }

  lemma ReportKeyInjective(a: string, b: string)
    ensures ReportKey(a) == ReportKey(b) <==> a == b
  {
    if ReportKey(a) == ReportKey(b) {
      ReportKeyRoundTrip(a);
      ReportKeyRoundTrip(b);
    }
  }

  /** The local path is as distinct per contact as the key. */
  lemma ReportPathInjective(a: string, b: string)
    ensures ReportPath(a) == ReportPath(b) <==> a == b
  {
    if ReportPath(a) == ReportPath(b) {
      var p := ReportPath(a);
      assert p[|PathPrefix|..|p| - |PdfSuffix|] == a;
      assert ReportPath(b)[|PathPrefix|..|p| - |PdfSuffix|] == b;
    }
  }

  /** The renderer defaults client, account and cost a second time; on the
      record the handler passes it, that second default changes nothing: the
      report shows the request's values or the handler's defaults. */
  lemma RendererDefaultsAreRedundant(data: Record, queries: QueryOutcome, request: Fields, timestamp: string)
    requires RenderedRecord(data, queries, request)
    ensures ReportLines(data, timestamp)[1] ==
      "Client: " + (if Truthy(request.clientName) then request.clientName.value else "Client")
    ensures ReportLines(data, timestamp)[2] ==
      "AWS Account ID: " + (if Truthy(request.accountId) then request.accountId.value else "Unknown")
    ensures ReportLines(data, timestamp)[5] ==
      "$" + (if queries.Answered? && queries.signals.costText != "" then queries.signals.costText else "0")
  {
    ReportLayout(data, timestamp);
  }

  /** A failed analysis still yields a report: every heading, cost "$0" and
      no bullets at all. */
  lemma FailedAnalysisRendersEmptyReport(data: Record, message: string, request: Fields, timestamp: string)
    requires RenderedRecord(data, QueryFailed(message), request)
    ensures |ReportLines(data, timestamp)| == 8
    ensures ReportLines(data, timestamp)[5] == "$0"
    ensures ReportLines(data, timestamp)[7] == RecommendationsHeading
  {
    ReportLayout(data, timestamp);
  }

  /** A successful analysis yields one finding bullet and one recommendation
      bullet per triggered rule: between 10 and 14 lines. */
  lemma AnsweredAnalysisRendersEveryFinding(data: Record, s: Signals, request: Fields, timestamp: string)
    requires RenderedRecord(data, Answered(s), request)
    ensures |ReportLines(data, timestamp)| == 8 + 2 * |Triggered(s)|
    ensures 10 <= |ReportLines(data, timestamp)| <= 14
    ensures forall k :: 0 <= k < |Triggered(s)| ==>
      && ReportLines(data, timestamp)[7 + k] == Bullet + Finding(Triggered(s)[k])
      && ReportLines(data, timestamp)[8 + |Triggered(s)| + k] == Bullet + Recommendation(Triggered(s)[k])
  {
    ReportLayout(data, timestamp);
    TriggeredInTableOrder(s);
  }
}
