/** The scanning centre's status monitor (`StatusDashboard`): the colour of each status
    badge, the action cell of each report row, the placeholder row of an empty list, and
    the share action that hands a report's id to the page's callback.

    A report is a JavaScript object; it is modelled as its string-valued fields, so a
    field that is absent reads as `undefined` (None). */
module StatusMonitor {
  import opened Options

  type Report = map<string, string>

  function Field(r: Report, key: string): Option<string> {
    if key in r then Some(r[key]) else None
  }

  const ReadyToShare := "Ready to Share"
  const AiProcessing := "AI Processing"
  const Uploaded := "Uploaded"
  const Shared := "Shared"

  /** `getStatusColor`: four fixed colours for the four known statuses, `#333` for
      anything else, `undefined` included. */
  function StatusColor(status: Option<string>): (color: string)
    ensures status == Some(ReadyToShare) ==> color == "#28a745"
    ensures status == Some(AiProcessing) ==> color == "#fd7e14"
    ensures status == Some(Uploaded) ==> color == "#6c757d"
    ensures status == Some(Shared) ==> color == "#007bff"
    ensures status !in {Some(ReadyToShare), Some(AiProcessing), Some(Uploaded), Some(Shared)} ==> color == "#333"
  {
    match status
    case Some(s) =>
      if s == ReadyToShare then "#28a745"
      else if s == AiProcessing then "#fd7e14"
      else if s == Uploaded then "#6c757d"
      else if s == Shared then "#007bff"
      else "#333"
    case None => "#333"
  }

  /** The badge colour tells a known status apart from every other status. */
  lemma ColorIdentifiesStatus(a: Option<string>, b: Option<string>)
    requires a in {Some(ReadyToShare), Some(AiProcessing), Some(Uploaded), Some(Shared)}
    requires StatusColor(a) == StatusColor(b)
    ensures a == b
  {
  }

  datatype Action = ShareButton | Note(text: string)

  /** The action cell: a Share button exactly for `Ready to Share`; otherwise the note
      `Completed` exactly for `Shared` and `Processing...` for everything else. */
  function ActionFor(status: Option<string>): (a: Action)
    ensures a == ShareButton <==> status == Some(ReadyToShare)
    ensures a.Note? ==> (a.text == "Completed" <==> status == Some(Shared))
    ensures a.Note? ==> a.text == "Completed" || a.text == "Processing..."
  {
    if status == Some(ReadyToShare) then ShareButton
    else if status == Some(Shared) then Note("Completed")
    else Note("Processing...")
  }

  datatype Row =
    | Placeholder(text: string)
    | ReportRow(id: Option<string>, status: Option<string>, color: string, action: Action)

  const EmptyListText := "No reports found. Upload one above to begin."

  /** The table body: a single placeholder row for an empty list, otherwise one row per
      report, in list order. */
  function Rows(reports: seq<Report>): (rows: seq<Row>)
    ensures reports == [] ==> rows == [Placeholder(EmptyListText)]
    ensures reports != [] ==> |rows| == |reports| && forall i :: 0 <= i < |rows| ==> rows[i].ReportRow?
    ensures reports != [] ==> forall i :: 0 <= i < |rows| ==>
      rows[i].id == Field(reports[i], "id") && rows[i].status == Field(reports[i], "status")
      && rows[i].color == StatusColor(rows[i].status) && rows[i].action == ActionFor(rows[i].status)
  {
    if reports == [] then [Placeholder(EmptyListText)]
    else
      seq(|reports|, i requires 0 <= i < |reports| =>
        var status := Field(reports[i], "status");
        ReportRow(Field(reports[i], "id"), status, StatusColor(status), ActionFor(status)))
  }

  /** `handleShare(reportId)`: the callbacks made, in order. */
  function HandleShare(reportId: Option<string>): (calls: seq<Option<string>>)
    ensures |calls| == 1 && calls[0] == reportId
  {
    [reportId]
  }

  /** Clicking the Share button of a row calls `onShareReport` once, with the id of that
      row's report, and only a report ready to share has the button. */
  lemma ShareClickSharesItsReport(reports: seq<Report>, k: nat)
    requires k < |Rows(reports)| && Rows(reports)[k].ReportRow? && Rows(reports)[k].action == ShareButton
    ensures k < |reports| && Field(reports[k], "status") == Some(ReadyToShare)
    ensures HandleShare(Rows(reports)[k].id) == [Field(reports[k], "id")]
  {
  }
}
