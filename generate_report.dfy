/** The report renderer of backend/generateReport.js.

    pdfkit is abstracted to a document that receives one text line per
    `doc.text` call; font sizes, underlining and `moveDown` spacing carry no
    content and are not modelled. The output stream is abstracted to how it
    ends (`Sink`), and the `toLocaleString()` timestamp is a parameter. */
module GenerateReport {
  import opened Values
  import opened AnalyzeAws

  const Title: string := "AWS Health Check Report"
  const CostHeading: string := "Monthly AWS Cost"
  const FindingsHeading: string := "Key Findings"
  const RecommendationsHeading: string := "Recommendations"
  /** The bullet character U+2022 followed by a space. */
  const Bullet: string := "\U{2022} "

  /** How writing the document ends: the PDF document or the file stream
      cannot be created (a synchronous exception), the stream emits
      "error", or the stream emits "finish". */
  datatype Sink = SetupThrows(error: string) | StreamErrors(error: string) | StreamFinishes

  /** How the promise returned by `generatePDF` settles. */
  datatype Settlement = Resolved(value: string) | Rejected(reason: string)

  /** `${reportData.cost || 0}` */
  function CostDisplay(c: CostField): string
  {
    if CostTruthy(c) then c.text else "0"
  }

  /** `reportData.findings || []`: an array, even an empty one, is truthy. */
  function ListOrEmpty(items: Option<seq<string>>): seq<string> {
    if items.Some? then items.value else []
  }

  /** One bullet line per item, in the order of the items. */
  function Bullets(items: seq<string>): seq<string> {
    if items == [] then [] else Bullets(items[..|items| - 1]) + [Bullet + items[|items| - 1]]
  }

  /** The lines written before the first finding bullet. */
  function Header(data: Record, timestamp: string): seq<string> {
    [ Title,
      "Client: " + OrDefault(data.clientName, "Client"),
      "AWS Account ID: " + OrDefault(data.accountId, "Unknown"),
      "Generated: " + timestamp,
      CostHeading,
      "$" + CostDisplay(data.cost),
      FindingsHeading ]
  }

  /** The text of the report, line by line. */
  function ReportLines(data: Record, timestamp: string): seq<string> {
    Header(data, timestamp)
    + Bullets(ListOrEmpty(data.findings))
    + [RecommendationsHeading]
    + Bullets(ListOrEmpty(data.recommendations))
  }

  /** `generatePDF`: writes the header block, the cost section, one bullet per
      finding and one per recommendation, then settles with `outputPath`
      when the stream finishes and with the error otherwise. */
  method GeneratePdf(data: Record, outputPath: string, timestamp: string, sink: Sink)
    returns (doc: seq<string>, settled: Settlement)
    ensures sink.SetupThrows? ==> doc == [] && settled == Rejected(sink.error)
    ensures !sink.SetupThrows? ==> doc == ReportLines(data, timestamp)
    ensures sink.StreamErrors? ==> settled == Rejected(sink.error)
    ensures sink.StreamFinishes? ==> settled == Resolved(outputPath)
  {
    doc := [];
    if sink.SetupThrows? {
      return doc, Rejected(sink.error);
    }
    doc := doc + [Title];
    doc := doc + ["Client: " + OrDefault(data.clientName, "Client")];
    doc := doc + ["AWS Account ID: " + OrDefault(data.accountId, "Unknown")];
    doc := doc + ["Generated: " + timestamp];
    doc := doc + [CostHeading];
    doc := doc + ["$" + CostDisplay(data.cost)];
    doc := doc + [FindingsHeading];
    var findings := ListOrEmpty(data.findings);
    for i := 0 to |findings|
      invariant doc == Header(data, timestamp) + Bullets(findings[..i])
    {
      assert findings[..i + 1][..i] == findings[..i];
      doc := doc + [Bullet + findings[i]];
    }
    assert findings[..|findings|] == findings;
    doc := doc + [RecommendationsHeading];
    ghost var beforeRecommendations := doc;
    var recommendations := ListOrEmpty(data.recommendations);
    for i := 0 to |recommendations|
      invariant doc == beforeRecommendations + Bullets(recommendations[..i])
    {
      assert recommendations[..i + 1][..i] == recommendations[..i];
      doc := doc + [Bullet + recommendations[i]];
    }
    assert recommendations[..|recommendations|] == recommendations;
    if sink.StreamErrors? {
      settled := Rejected(sink.error);
    } else {
      settled := Resolved(outputPath);
    }
  }

  // ---------------------------------------------------------------------
  // Properties of the report text

  /** Each item yields exactly one bullet line, in input order. */
  lemma {:induction false} BulletsAt(items: seq<string>)
    ensures |Bullets(items)| == |items|
    ensures forall k :: 0 <= k < |items| ==> Bullets(items)[k] == Bullet + items[k]
    decreases |items|
  {
    if items != [] {
      BulletsAt(items[..|items| - 1]);
    }
  }

  /** The full layout of the report: eight fixed lines, the finding bullets
      after "Key Findings" and the recommendation bullets after
      "Recommendations", with the defaults for client, account and cost. */
  lemma ReportLayout(data: Record, timestamp: string)
    ensures var lines := ReportLines(data, timestamp);
      var f := ListOrEmpty(data.findings);
      var r := ListOrEmpty(data.recommendations);
      && |lines| == 8 + |f| + |r|
      && lines[0] == Title
      && lines[1] == "Client: " + (if Truthy(data.clientName) then data.clientName.value else "Client")
      && lines[2] == "AWS Account ID: " + (if Truthy(data.accountId) then data.accountId.value else "Unknown")
      && lines[3] == "Generated: " + timestamp
      && lines[4] == CostHeading
      && lines[5] == "$" + (if CostTruthy(data.cost) then data.cost.text else "0")
      && lines[6] == FindingsHeading
      && (forall k :: 0 <= k < |f| ==> lines[7 + k] == Bullet + f[k])
      && lines[7 + |f|] == RecommendationsHeading
      && (forall k :: 0 <= k < |r| ==> lines[8 + |f| + k] == Bullet + r[k])
  {
    BulletsAt(ListOrEmpty(data.findings));
    BulletsAt(ListOrEmpty(data.recommendations));
  }
}
