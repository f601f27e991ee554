/** The front-desk dashboard (dashboard_frontdesk.py): its location table and
    the three polling callbacks whose output is text. */
module FrontDesk {
  import opened Wrappers
  import opened Render
  import opened Poll

  /** The dashboard overview, or an "under development" page with a title. */
  datatype View = Overview | Placeholder(title: string)

  const NotFoundTitle: string := "Page Not Found"

  /** Every routed location other than "/" and the title of its placeholder page. */
  const PlaceholderTitles: map<string, string> := map[
    "/patients" := "Patient Profiles",
    "/visits" := "Visit Records",
    "/medications" := "Medications",
    "/risk" := "Risk Assessment",
    "/resources" := "Resources",
    "/reports" := "Reports",
    "/settings" := "Settings"
  ]

  /** The routing callback: "/" is the overview, each routed location its own
      placeholder, everything else the not-found placeholder. */
  function DisplayPage(path: string): (v: View)
    ensures v == Overview <==> path == "/"
    ensures path in PlaceholderTitles ==> v == Placeholder(PlaceholderTitles[path])
    ensures path != "/" && path !in PlaceholderTitles ==> v == Placeholder(NotFoundTitle)
  {
    if path == "/" then Overview
    else if path == "/patients" then Placeholder("Patient Profiles")
    else if path == "/visits" then Placeholder("Visit Records")
    else if path == "/medications" then Placeholder("Medications")
    else if path == "/risk" then Placeholder("Risk Assessment")
    else if path == "/resources" then Placeholder("Resources")
    else if path == "/reports" then Placeholder("Reports")
    else if path == "/settings" then Placeholder("Settings")
    else Placeholder("Page Not Found")
  }

  /** The sidebar's links as the source writes them. */
  const SidebarLinks: seq<string> := ["/", "/patient_record", "/visits", "/medications", "/reports", "/settings"]

  /** The "Patient Profiles" sidebar link points at a location the router does
      not know, so following it shows the not-found page. */
  lemma PatientRecordLinkNotRouted()
    ensures "/patient_record" in SidebarLinks
    ensures DisplayPage("/patient_record") == Placeholder(NotFoundTitle)
  {
  }

  /** The sidebar with the "Patient Profiles" link aimed at the routed "/patients". */
  const CorrectedSidebarLinks: seq<string> := ["/", "/patients", "/visits", "/medications", "/reports", "/settings"]

  /** With the corrected link every sidebar entry reaches a real page. */
  lemma CorrectedSidebarLinksRouted()
    ensures forall l :: l in CorrectedSidebarLinks ==> DisplayPage(l) != Placeholder(NotFoundTitle)
    ensures DisplayPage(CorrectedSidebarLinks[1]) == Placeholder("Patient Profiles")
  {
  }

  /** Active-patient card: the number of records, comma grouped; any failure shows "0". */
  function PatientCount(f: Fetch): (s: string)
    ensures f.Ok? ==> s == Grouped(|f.records|)
    ensures f.Ok? ==> AllDigits(Ungroup(s)) && ParseDecimal(Ungroup(s)) == |f.records|
    ensures f.Err? ==> s == "0"
  {
    match f
    case Ok(rs) => ParseDecimalOfDecimal(|rs|); Grouped(|rs|)
    case Err => "0"
  }

  /** A failed poll is shown exactly like an empty patient list. */
  lemma PatientCountFailureLooksEmpty()
    ensures PatientCount(Err) == PatientCount(Ok([]))
  {
  }

  /** The spots available today. */
  const Capacity: nat := 30

  /** Remaining capacity, `max(0, 30 - n)`. */
  function Remaining(n: nat): (r: nat)
    ensures n <= Capacity ==> n + r == Capacity
    ensures n >= Capacity ==> r == 0
    ensures r <= Capacity
  {
    if Capacity - n > 0 then Capacity - n else 0
  }

  /** The appointments card: the count and a "<r> remaining" line. */
  datatype AppointmentCard = AppointmentCard(count: string, remaining: string)

  const RemainingSuffix: string := " remaining"

  function Appointments(f: Fetch): (c: AppointmentCard)
    ensures f.Ok? ==> c.count == Decimal(|f.records|)
    ensures f.Ok? ==> AllDigits(c.count) && ParseDecimal(c.count) == |f.records|
    ensures f.Ok? ==> c.remaining == Decimal(Remaining(|f.records|)) + RemainingSuffix
    ensures f.Err? ==> c == AppointmentCard("0", "--")
  {
    match f
    case Ok(rs) =>
      ParseDecimalOfDecimal(|rs|);
      AppointmentCard(Decimal(|rs|), Decimal(Remaining(|rs|)) + " remaining")
    case Err => AppointmentCard("0", "--")
  }

  /** Five appointments leave "25 remaining". */
  lemma AppointmentsExample(rs: seq<Record>)
    requires |rs| == 5
    ensures Appointments(Ok(rs)) == AppointmentCard("5", "25 remaining")
  {
    assert Decimal(2) == "2";
    assert Decimal(25) == "25";
  }

  /** One line of recent activity: the bold name, then " - type on date". */
  datatype ActivityItem = ActivityItem(name: string, detail: string)

  datatype Activity = ActivityList(items: seq<ActivityItem>) | NoActivity

  const ActivityFields: set<string> := {"first_name", "last_name", "report_type", "report_date"}

  const ActivityLimit: nat := 5

  function ActivityLine(r: Record): Option<ActivityItem> {
    if HasFields(r, ActivityFields) then
      Some(ActivityItem(r["first_name"] + " " + r["last_name"], " - " + r["report_type"] + " on " + r["report_date"]))
    else None
  }

  /** Recent activity: the first five reports in backend order, each formatted;
      a failed poll or a missing field in any of those five replaces the whole
      list with the fallback. */
  function RecentActivity(f: Fetch): (a: Activity)
    ensures a.ActivityList? <==>
      f.Ok? && forall i :: 0 <= i < Min(ActivityLimit, |f.records|) ==> HasFields(f.records[i], ActivityFields)
    ensures a.ActivityList? ==> |a.items| == Min(ActivityLimit, |f.records|) <= ActivityLimit
    ensures a.ActivityList? ==> forall i :: 0 <= i < |a.items| ==>
      && a.items[i].name == f.records[i]["first_name"] + " " + f.records[i]["last_name"]
      && a.items[i].detail == " - " + f.records[i]["report_type"] + " on " + f.records[i]["report_date"]
  {
    match f
    case Ok(rs) =>
      var recent := Take(rs, ActivityLimit);
      (match Collect(recent, ActivityLine)
       case Some(items) => ActivityList(items)
       case None => NoActivity)
    case Err => NoActivity
  }
}
