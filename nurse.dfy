/** The nurse portal (nurse_portal.py): its location table, the patients page,
    the live cards and lab list, and the lab-report submission. */
module NursePortal {
  import opened Wrappers
  import opened Render
  import opened Poll

  /** What the patients page shows. A table cell is None where a record lacks
      that column but some other record has it (the data frame fills NaN). */
  datatype PatientsContent =
    | NoActivePatients
    | PatientTable(rows: seq<seq<Option<string>>>)
    | PatientsLoadError

  /** The columns of the patients table, in display order. */
  const PatientColumns: seq<string> := ["first_name", "last_name", "gender", "date_of_birth"]

  /** Does some record carry this key? The data frame's columns are the union of the keys. */
  predicate ColumnPresent(rs: seq<Record>, column: string) {
    exists i :: 0 <= i < |rs| && column in rs[i]
  }

  function Cell(r: Record, column: string): Option<string> {
    if column in r then Some(r[column]) else None
  }

  function Row(r: Record): seq<Option<string>> {
    [Cell(r, "first_name"), Cell(r, "last_name"), Cell(r, "gender"), Cell(r, "date_of_birth")]
  }

  /** The patients page: an empty list has its own message; otherwise a table
      of exactly the four columns, one row per record in order; selecting a
      column no record has raises, and any failure shows the error message. */
  function PatientsPage(f: Fetch): (p: PatientsContent)
    ensures f.Err? ==> p == PatientsLoadError
    ensures p == NoActivePatients <==> f == Ok([])
    ensures p == PatientsLoadError <==>
      f.Err? || (f.records != [] && exists j :: 0 <= j < |PatientColumns| && !ColumnPresent(f.records, PatientColumns[j]))
    ensures f.Ok? && f.records != [] ==>
      (p.PatientTable? <==> forall j :: 0 <= j < |PatientColumns| ==> ColumnPresent(f.records, PatientColumns[j]))
    ensures p.PatientTable? ==> f.Ok? && |p.rows| == |f.records|
    ensures p.PatientTable? ==> forall i, j :: 0 <= i < |p.rows| && 0 <= j < |PatientColumns| ==>
      |p.rows[i]| == |PatientColumns| && p.rows[i][j] == Cell(f.records[i], PatientColumns[j])
  {
    match f
    case Err => PatientsLoadError
    case Ok(rs) =>
      assert PatientColumns[0] == "first_name" && PatientColumns[1] == "last_name";
      assert PatientColumns[2] == "gender" && PatientColumns[3] == "date_of_birth";
      if rs == [] then NoActivePatients
      else if ColumnPresent(rs, "first_name") && ColumnPresent(rs, "last_name")
              && ColumnPresent(rs, "gender") && ColumnPresent(rs, "date_of_birth") then
        PatientTable(seq(|rs|, i requires 0 <= i < |rs| => Row(rs[i])))
      else PatientsLoadError
  }

  /** The pages of the portal. The vitals page draws a chart and is opaque here. */
  datatype View =
    | Overview
    | Patients(content: PatientsContent)
    | Labs
    | Vitals
    | Settings
    | NotFound(message: string)

  /** The location each page is served at (inverse of routing). */
  function PathOf(v: View): string
    requires !v.NotFound?
  {
    match v
    case Overview => "/"
    case Patients(_) => "/patients"
    case Labs => "/labs"
    case Vitals => "/vitals"
    case Settings => "/settings"
  }

  const Paths: set<string> := {"/", "/patients", "/labs", "/vitals", "/settings"}

  const NotFoundText: string := "404 - Page not found"

  /** The routing callback. The patients page fetches when it is routed to. */
  function DisplayPage(path: string, activePatients: Fetch): (v: View)
    ensures v.NotFound? <==> path !in Paths
    ensures !v.NotFound? ==> PathOf(v) == path
    ensures v.Patients? ==> v.content == PatientsPage(activePatients)
    ensures v.NotFound? ==> v.message == NotFoundText
  {
    if path == "/" then Overview
    else if path == "/patients" then Patients(PatientsPage(activePatients))
    else if path == "/labs" then Labs
    else if path == "/vitals" then Vitals
    else if path == "/settings" then Settings
    else NotFound("404 - Page not found")
  }

  /** The active-patient and lab-report cards: the plain number of records,
      "0" on any failure. */
  function CountCard(f: Fetch): (s: string)
    ensures f.Ok? ==> s == Decimal(|f.records|)
    ensures f.Ok? ==> AllDigits(s) && ParseDecimal(s) == |f.records|
    ensures ',' !in s
    ensures f.Err? ==> s == "0"
  {
    match f
    case Ok(rs) => ParseDecimalOfDecimal(|rs|); Decimal(|rs|)
    case Err => "0"
  }

  datatype LabList = LabItems(items: seq<string>) | NoLabReports

  const LabFields: set<string> := {"report_type", "result", "report_date"}

  const LabListLimit: nat := 10

  function LabLine(r: Record): Option<string> {
    if HasFields(r, LabFields) then Some(r["report_type"] + " - " + r["result"] + " (" + r["report_date"] + ")")
    else None
  }

  /** The lab list: the first ten reports in order, "type - result (date)"; a
      failed poll or a missing field among those ten gives the fallback. */
  function RefreshLabList(f: Fetch): (l: LabList)
    ensures l.LabItems? <==>
      f.Ok? && forall i :: 0 <= i < Min(LabListLimit, |f.records|) ==> HasFields(f.records[i], LabFields)
    ensures l.LabItems? ==> |l.items| == Min(LabListLimit, |f.records|) <= LabListLimit
    ensures l.LabItems? ==> forall i :: 0 <= i < |l.items| ==>
      l.items[i] == f.records[i]["report_type"] + " - " + f.records[i]["result"] + " (" + f.records[i]["report_date"] + ")"
  {
    match f
    case Ok(rs) =>
      (match Collect(Take(rs, LabListLimit), LabLine)
       case Some(items) => LabItems(items)
       case None => NoLabReports)
    case Err => NoLabReports
  }

  const PayloadKeys: set<string> := {"patient_id", "report_type", "report_date", "result"}

  /** The body posted for a new lab report: the three form fields as entered
      (None for an empty field) and the submission time. */
  function LabReportPayload(patientId: Option<string>, reportType: Option<string>, result: Option<string>, now: string): (p: map<string, Option<string>>)
    ensures p.Keys == PayloadKeys
    ensures p["patient_id"] == patientId && p["report_type"] == reportType && p["result"] == result
    ensures p["report_date"] == Some(now)
  {
    map["patient_id" := patientId, "report_type" := reportType, "report_date" := Some(now), "result" := result]
  }

  /** How the post ended: a response with its status, or an exception's text. */
  datatype PostOutcome = Response(status: int) | Raised(message: string)

  datatype Alert = Alert(text: string, color: string)

  const SavedAlert: Alert := Alert("\U{2705} Lab Report Saved Successfully!", "success")
  const FailedAlert: Alert := Alert("\U{274C} Failed to save Lab Report.", "danger")
  const ErrorPrefix: string := "\U{274C} Error: "

  /** The submission's alert: success exactly on status 200. */
  function SubmitAlert(outcome: PostOutcome): (a: Alert)
    ensures a == SavedAlert <==> outcome == Response(200)
    ensures a.color == "success" <==> outcome == Response(200)
    ensures outcome.Response? && outcome.status != 200 ==> a == FailedAlert
    ensures outcome.Raised? ==> a == Alert(ErrorPrefix + outcome.message, "danger")
  {
    match outcome
    case Response(status) => if status == 200 then SavedAlert else FailedAlert
    case Raised(message) => Alert(ErrorPrefix + message, "danger")
  }
}
