/** The patient portal (patient_portal.py): the tab dispatch and the sections
    that read the backend. Static sections are opaque views. */
module PatientPortal {
  import opened Wrappers
  import opened Poll

  /** The first patient record, as the health-records card shows it. */
  datatype PatientCard = PatientCard(heading: string, gender: string, dateOfBirth: string, checkIn: string)

  datatype RecordsSection = NoRecords | RecordCard(card: PatientCard) | RecordsError

  datatype AppointmentsSection = NoAppointments | AppointmentList(items: seq<string>) | AppointmentsError

  /** The lab and risk tabs draw a chart of the records when there are any;
      the chart itself is opaque, so the section carries the records it plots. */
  datatype ChartSection = NoData | Chart(data: seq<Record>) | ChartError

  datatype TabView =
    | Records(records: RecordsSection)
    | Medications
    | Labs(labs: ChartSection)
    | Risks(risks: ChartSection)
    | Vaccines
    | Education
    | Messages
    | Appointments(appointments: AppointmentsSection)
    | Journal
    | Goals
    | TabNotFound(message: string)

  const TabNotFoundText: string := "Tab content not found."

  /** The ten tab ids, in the order the tab bar lists them. */
  const TabIds: seq<string> := ["records", "meds", "labs", "risks", "vaccines", "education", "messages", "appointments", "journal", "goals"]

  /** The tab selected when the page first loads. */
  const InitialTab: string := "records"

  /** The tab a section belongs to (inverse of the dispatch). */
  function TabIdOf(v: TabView): string
    requires !v.TabNotFound?
  {
    match v
    case Records(_) => "records"
    case Medications => "meds"
    case Labs(_) => "labs"
    case Risks(_) => "risks"
    case Vaccines => "vaccines"
    case Education => "education"
    case Messages => "messages"
    case Appointments(_) => "appointments"
    case Journal => "journal"
    case Goals => "goals"
  }

  const RecordFields: set<string> := {"first_name", "last_name", "gender", "date_of_birth", "check_in_status"}

  /** Health records: only the first patient is shown; an empty list and a
      failure (including a missing field of that first record) have their own messages. */
  function HealthRecords(f: Fetch): (s: RecordsSection)
    ensures f.Err? ==> s == RecordsError
    ensures s == NoRecords <==> f == Ok([])
    ensures s == RecordsError <==> f.Err? || (f.records != [] && !HasFields(f.records[0], RecordFields))
    ensures s.RecordCard? <==> f.Ok? && f.records != [] && HasFields(f.records[0], RecordFields)
    ensures s.RecordCard? ==>
      var p := f.records[0];
      s.card == PatientCard(p["first_name"] + " " + p["last_name"], "Gender: " + p["gender"],
                            "Date of Birth: " + p["date_of_birth"], "Check-in Status: " + p["check_in_status"])
  {
    match f
    case Err => RecordsError
    case Ok(patients) =>
      if patients == [] then NoRecords
      else
        var p := patients[0];
        if HasFields(p, RecordFields) then
          RecordCard(PatientCard(p["first_name"] + " " + p["last_name"], "Gender: " + p["gender"],
                                 "Date of Birth: " + p["date_of_birth"], "Check-in Status: " + p["check_in_status"]))
        else RecordsError
  }

  const AppointmentFields: set<string> := {"appointment_date", "doctor_name"}

  function AppointmentLine(r: Record): Option<string> {
    if HasFields(r, AppointmentFields) then Some(r["appointment_date"] + " - " + r["doctor_name"]) else None
  }

  /** Appointments: one "date - doctor" line per appointment, all of them, in
      backend order; an empty list and a failure have their own messages. */
  function AppointmentsToday(f: Fetch): (s: AppointmentsSection)
    ensures f.Err? ==> s == AppointmentsError
    ensures s == NoAppointments <==> f == Ok([])
    ensures s == AppointmentsError <==>
      f.Err? || exists i :: 0 <= i < |f.records| && !HasFields(f.records[i], AppointmentFields)
    ensures s.AppointmentList? <==>
      f.Ok? && f.records != [] && forall i :: 0 <= i < |f.records| ==> HasFields(f.records[i], AppointmentFields)
    ensures s.AppointmentList? ==> |s.items| == |f.records| && forall i :: 0 <= i < |s.items| ==>
      s.items[i] == f.records[i]["appointment_date"] + " - " + f.records[i]["doctor_name"]
  {
    match f
    case Err => AppointmentsError
    case Ok(appointments) =>
      if appointments == [] then NoAppointments
      else
        match Collect(appointments, AppointmentLine)
        case Some(items) => AppointmentList(items)
        case None => AppointmentsError
  }

  /** The lab-results and risk-score sections: an empty list gives NoData, a
      failure ChartError, otherwise the chart of all records. */
  function ChartOf(f: Fetch): (s: ChartSection)
    ensures s == NoData <==> f == Ok([])
    ensures s == ChartError <==> f.Err?
    ensures s.Chart? ==> f.Ok? && s.data == f.records && s.data != []
  {
    match f
    case Err => ChartError
    case Ok(rs) => if rs == [] then NoData else Chart(rs)
  }

  const NoLabReportsText: string := "No lab reports available."
  const LabReportsErrorText: string := "Error loading lab reports."
  const NoRiskScoresText: string := "No risk scores available."
  const RiskScoresErrorText: string := "Error loading risk scores."

  /** The two chart tabs. */
  datatype ChartTab = LabResults | RiskScores

  /** The message a chart section shows when it has no chart. */
  function ChartMessage(tab: ChartTab, s: ChartSection): (m: Option<string>)
    ensures m.None? <==> s.Chart?
    ensures s == NoData ==> m == Some(if tab == LabResults then NoLabReportsText else NoRiskScoresText)
    ensures s == ChartError ==> m == Some(if tab == LabResults then LabReportsErrorText else RiskScoresErrorText)
  {
    match s
    case Chart(_) => None
    case NoData =>
      (match tab
       case LabResults => Some("No lab reports available.")
       case RiskScores => Some("No risk scores available."))
    case ChartError =>
      (match tab
       case LabResults => Some("Error loading lab reports.")
       case RiskScores => Some("Error loading risk scores."))
  }

  /** Each chart tab has its own empty and error messages, and no message is
      used for both an empty list and a failure. */
  lemma ChartMessagesDistinct(s: ChartSection, t: ChartSection)
    requires !s.Chart? && !t.Chart?
    ensures ChartMessage(LabResults, s) != ChartMessage(RiskScores, t)
    ensures s != t ==> ChartMessage(LabResults, s) != ChartMessage(LabResults, t)
    ensures s != t ==> ChartMessage(RiskScores, s) != ChartMessage(RiskScores, t)
  {
  }

  /** The tab callback: each of the ten ids renders its own section, anything
      else the not-found text. */
  function RenderTab(tab: string, backend: Backend): (v: TabView)
    ensures v.TabNotFound? <==> tab !in TabIds
    ensures !v.TabNotFound? ==> TabIdOf(v) == tab
    ensures v.Records? ==> v.records == HealthRecords(backend.activePatients)
    ensures v.Labs? ==> v.labs == ChartOf(backend.recentLabReports)
    ensures v.Risks? ==> v.risks == ChartOf(backend.riskScores)
    ensures v.Appointments? ==> v.appointments == AppointmentsToday(backend.appointmentsToday)
    ensures v.TabNotFound? ==> v.message == TabNotFoundText
  {
    if tab == "records" then Records(HealthRecords(backend.activePatients))
    else if tab == "meds" then Medications
    else if tab == "labs" then Labs(ChartOf(backend.recentLabReports))
    else if tab == "risks" then Risks(ChartOf(backend.riskScores))
    else if tab == "vaccines" then Vaccines
    else if tab == "education" then Education
    else if tab == "messages" then Messages
    else if tab == "appointments" then Appointments(AppointmentsToday(backend.appointmentsToday))
    else if tab == "journal" then Journal
    else if tab == "goals" then Goals
    else TabNotFound("Tab content not found.")
  }

  /** The page opens on the health-records tab, which is a routed tab. */
  lemma InitialTabRenders(backend: Backend)
    ensures RenderTab(InitialTab, backend) == Records(HealthRecords(backend.activePatients))
  {
  }

  /** Different tab ids never render the same section. */
  lemma TabsDistinct(t1: string, t2: string, backend: Backend)
    requires t1 in TabIds && t2 in TabIds && t1 != t2
    ensures RenderTab(t1, backend) != RenderTab(t2, backend)
  {
  }
}
