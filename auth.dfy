/** The main application's login and role-gated routing (app.py): a fixed
    account table, the login callback that returns the new session value, the
    new location and an alert, and the page callback that maps a location and
    the stored session to the login page, a role dashboard or Access Denied. */
module Auth {
  import opened Wrappers

  datatype Role = Doctor | Patient | Nurse | Admin | Frontdesk

  /** One entry of the account table; the session store holds the whole entry. */
  datatype User = User(password: string, role: Role, name: string)

  /** The `current_user` session store: empty until a login succeeds. */
  type Session = Option<User>

  const Users: map<string, User> := map[
    "doctor1@example.com" := User("doctorpass", Doctor, "Dr. John Doe"),
    "patient1@example.com" := User("patientpass", Patient, "Alice Smith"),
    "nurse1@example.com" := User("nursepass", Nurse, "Nurse Nancy"),
    "admin1@example.com" := User("adminpass", Admin, "Admin Bob"),
    "frontdesk1@example.com" := User("frontdeskpass", Frontdesk, "Frontdesk Charlie")
  ]

  /** The role as the account table spells it. */
  function RoleName(r: Role): string {
    match r
    case Doctor => "doctor"
    case Patient => "patient"
    case Nurse => "nurse"
    case Admin => "admin"
    case Frontdesk => "frontdesk"
  }

  /** Each role's home location, `/<role>_dashboard`. */
  function DashboardPath(r: Role): string {
    "/" + RoleName(r) + "_dashboard"
  }

  /** The five home locations written out. */
  lemma DashboardPaths()
    ensures DashboardPath(Doctor) == "/doctor_dashboard"
    ensures DashboardPath(Patient) == "/patient_dashboard"
    ensures DashboardPath(Nurse) == "/nurse_dashboard"
    ensures DashboardPath(Admin) == "/admin_dashboard"
    ensures DashboardPath(Frontdesk) == "/frontdesk_dashboard"
  {
  }

  /** What the page area shows; the doctor dashboard layout is an opaque
      constant imported from another file, so each dashboard is just its role. */
  datatype Page = LoginPage | Dashboard(role: Role) | AccessDenied

  predicate HasRole(session: Session, r: Role) {
    session.Some? && session.value.role == r
  }

  /** May this session see this location? Only its own role's dashboard and the login page. */
  predicate Authorized(path: string, session: Session) {
    path == "/" || (session.Some? && path == DashboardPath(session.value.role))
  }

  /** The routing callback: exact role match, no hierarchy, every unlisted or
      forbidden location is Access Denied. */
  function DisplayPage(path: string, session: Session): (p: Page)
    ensures p == LoginPage <==> path == "/"
    ensures p.Dashboard? <==> path != "/" && session.Some? && path == DashboardPath(session.value.role)
    ensures p.Dashboard? ==> p.role == session.value.role
    ensures p == AccessDenied <==> !Authorized(path, session)
  {
    DashboardPaths();
    if path == "/" then LoginPage
    else if path == "/doctor_dashboard" && HasRole(session, Doctor) then Dashboard(Doctor)
    else if path == "/patient_dashboard" && HasRole(session, Patient) then Dashboard(Patient)
    else if path == "/nurse_dashboard" && HasRole(session, Nurse) then Dashboard(Nurse)
    else if path == "/admin_dashboard" && HasRole(session, Admin) then Dashboard(Admin)
    else if path == "/frontdesk_dashboard" && HasRole(session, Frontdesk) then Dashboard(Frontdesk)
    else AccessDenied
  }

  /** Dash's `no_update`: an output the callback leaves as it was. */
  datatype Update<T> = NoUpdate | Set(value: T)

  function Apply<T>(u: Update<T>, current: T): T {
    match u
    case NoUpdate => current
    case Set(v) => v
  }

  /** The three outputs of the login callback: session store, location, alert text. */
  datatype LoginResult = LoginResult(session: Update<User>, path: Update<string>, alert: string)

  const InvalidCredentials: string := "Invalid email or password."

  /** The credentials name an account and repeat its password exactly; an empty
      (None) field never matches. */
  predicate Authenticates(email: Option<string>, password: Option<string>) {
    email.Some? && email.value in Users && password == Some(Users[email.value].password)
  }

  /** The login callback. */
  function LoginUser(email: Option<string>, password: Option<string>): (out: LoginResult)
    ensures out.alert == "" <==> Authenticates(email, password)
    ensures Authenticates(email, password) ==>
      out.session == Set(Users[email.value]) && out.path == Set(DashboardPath(Users[email.value].role))
    ensures !Authenticates(email, password) ==>
      out == LoginResult(NoUpdate, NoUpdate, InvalidCredentials)
  {
    DashboardPaths();
    var user := if email.Some? && email.value in Users then Some(Users[email.value]) else None;
    if user.Some? && password == Some(user.value.password) then
      match user.value.role
      case Doctor => LoginResult(Set(user.value), Set("/doctor_dashboard"), "")
      case Patient => LoginResult(Set(user.value), Set("/patient_dashboard"), "")
      case Nurse => LoginResult(Set(user.value), Set("/nurse_dashboard"), "")
      case Admin => LoginResult(Set(user.value), Set("/admin_dashboard"), "")
      case Frontdesk => LoginResult(Set(user.value), Set("/frontdesk_dashboard"), "")
    else
      LoginResult(NoUpdate, NoUpdate, InvalidCredentials)
  }

  /** The client-side state the framework keeps between callbacks: the session
      store and the current location. */
  datatype Client = Client(session: Session, path: string)

  /** Pressing the login button: the framework writes the callback's outputs
      back into the session store and the location, and shows the alert. */
  function SubmitLogin(c: Client, email: Option<string>, password: Option<string>): (r: (Client, string))
    ensures r.1 == "" <==> Authenticates(email, password)
    ensures Authenticates(email, password) ==>
      r.0 == Client(Some(Users[email.value]), DashboardPath(Users[email.value].role))
    ensures !Authenticates(email, password) ==> r == (c, InvalidCredentials)
  {
    var out := LoginUser(email, password);
    var session := match out.session
      case NoUpdate => c.session
      case Set(u) => Some(u);
    (Client(session, Apply(out.path, c.path)), out.alert)
  }

  /** Following a link: only the location changes, so the page shown next is
      decided by the unchanged session and a denied page does not log out. */
  function Navigate(c: Client, path: string): (r: Client)
    ensures r.session == c.session
    ensures CurrentPage(r) == DisplayPage(path, c.session)
  {
    Client(c.session, path)
  }

  function CurrentPage(c: Client): Page {
    DisplayPage(c.path, c.session)
  }

  /** A successful login always lands on the dashboard of the role it logged in
      with, which the new session is allowed to see. */
  lemma LoginLandsOnOwnDashboard(c: Client, email: Option<string>, password: Option<string>)
    requires Authenticates(email, password)
    ensures var (c', alert) := SubmitLogin(c, email, password);
      && alert == ""
      && c'.session == Some(Users[email.value])
      && c'.path == DashboardPath(Users[email.value].role)
      && CurrentPage(c') == Dashboard(Users[email.value].role)
      && Authorized(c'.path, c'.session)
  {
  }

  /** Round trip for the whole account table: every account's own password
      opens that account's dashboard, never Access Denied. */
  lemma EveryAccountReachesItsDashboard(c: Client, email: string)
    requires email in Users
    ensures CurrentPage(SubmitLogin(c, Some(email), Some(Users[email].password)).0) == Dashboard(Users[email].role)
  {
  }

  /** A failed login leaves session and location untouched and shows one
      message, whatever was wrong with the credentials. */
  lemma FailedLoginChangesNothing(c: Client, email: Option<string>, password: Option<string>)
    requires !Authenticates(email, password)
    ensures SubmitLogin(c, email, password) == (c, InvalidCredentials)
  {
  }

  /** An unknown email and a wrong password are indistinguishable to the caller. */
  lemma FailuresIndistinguishable(e1: Option<string>, p1: Option<string>, e2: Option<string>, p2: Option<string>)
    requires !Authenticates(e1, p1) && !Authenticates(e2, p2)
    ensures LoginUser(e1, p1) == LoginUser(e2, p2)
  {
  }

  /** The worked example: the doctor's credentials give the doctor entry and its dashboard. */
  lemma DoctorLoginExample(c: Client)
    ensures var (c', alert) := SubmitLogin(c, Some("doctor1@example.com"), Some("doctorpass"));
      && c'.session == Some(User("doctorpass", Doctor, "Dr. John Doe"))
      && c'.path == "/doctor_dashboard"
      && alert == ""
      && CurrentPage(c') == Dashboard(Doctor)
  {
  }

  /** The doctor's email with a wrong password is rejected and leaves the session empty. */
  lemma WrongPasswordExample(password: string)
    requires password != "doctorpass"
    ensures SubmitLogin(Client(None, "/"), Some("doctor1@example.com"), Some(password)) == (Client(None, "/"), "Invalid email or password.")
  {
  }

  /** No hierarchy: an admin or patient session is denied the doctor dashboard. */
  lemma NoRoleHierarchyExample()
    ensures DisplayPage("/doctor_dashboard", Some(Users["admin1@example.com"])) == AccessDenied
    ensures DisplayPage("/doctor_dashboard", Some(Users["patient1@example.com"])) == AccessDenied
  {
  }
}
