# Healthcare dashboards: role-gated routing and poll-result transforms

This project models the decision logic of a set of Dash dashboards for a clinic:

- The main application (`app.py`) has a fixed table of five accounts and a login callback. On a match, the callback returns the account entry as the new session value, the role's home location and an empty alert. Otherwise it leaves both outputs unchanged and shows one generic message. A routing callback maps a location and the stored session to the login page, the session's own dashboard or Access Denied.
- Each of the three standalone portals has a closed location or tab table with a fallback:
  - the front-desk dashboard (`dashboard_frontdesk.py`);
  - the nurse portal (`nurse_portal.py`);
  - the patient portal (`patient_portal.py`).
- The polling callbacks each do one thing with a backend payload:
  - count it;
  - subtract the count from a capacity of 30, with a floor of 0;
  - format its first N records;
  - show its first record.

  Every failure falls back to a fixed placeholder.

Everything is pure. The framework-held session store (`dcc.Store`) is a value that is threaded through steps. An HTTP request and its JSON decoding together become a `Fetch` input: `Ok(records)` or `Err`. A record is a map from field name to the text that Python's `str` gives the value. A missing key inside a list comprehension therefore turns into the same fallback as a failed request.

Modules:

- `Wrappers`: the `Option` type.
- `Render`: `str(n)` and the comma-grouped `f"{n:,}"`. Each has an inverse (`ParseDecimal`, `Ungroup`), so contracts can say which number is displayed.
- `Poll`: `Record`, `Fetch`, slicing (`Take`) and a comprehension that can raise (`Collect`).
- `Auth`: `app.py`.
- `FrontDesk`, `NursePortal`, `PatientPortal`: one module per portal file.

Where the written specification of the system and the code differ, the model follows the code:

- The code keeps no last good value and no Stale or Unavailable status. Each tick replaces the output with either the transform of a fresh payload or the fixed placeholder.
- In the main application, an unknown location resolves to Access Denied. There is no separate not-found view.
- Recent activity takes the first five records in the order the backend returns them. The code does not sort them.
- The front-desk card shows a plain count and a "remaining" line. There is no per-source freshness tag.

## Model

| member | source | states |
|---|---|---|
| Render.Decimal | nurse_portal.py:155 | `str(n)` is a non-empty string of digits. It is a single digit exactly when n < 10, and it starts with '0' only for n = 0 (no leading zeros). |
| Render.ParseDecimalOfDecimal | dashboard_frontdesk.py:167 | Reading the rendered count back gives the count. The text shown is the number. |
| Render.DecimalInjective | nurse_portal.py:163 | Two different counts never render as the same text. |
| Render.GroupUngroup | dashboard_frontdesk.py:154 | Grouping only inserts commas. Removing them gives the digits back. |
| Render.GroupLength | dashboard_frontdesk.py:154 | A run of k digits gains (k - 1) / 3 commas. |
| Render.GroupCommas | dashboard_frontdesk.py:154 | In the grouped text, a character is a comma exactly when its distance from the right end is a multiple of four. So the groups have three digits, counted from the right. |
| Render.Grouped | dashboard_frontdesk.py:154 | `f"{n:,}"` ungroups to `str(n)`, has exactly (k - 1) / 3 commas for k digits, and puts them exactly every four places from the right, so it never starts with a comma. Below 1000 it equals `str(n)`. |
| Render.GroupedExamples | dashboard_frontdesk.py:154 | 7 renders as "7" and 1234 as "1,234". |
| Poll.Take | dashboard_frontdesk.py:200 | The slice `data[:n]` has min(n, len) records, and they are the first ones in order. |
| Poll.Collect | dashboard_frontdesk.py:198-203 | A comprehension whose element may raise gives a list exactly when every element formats. That list has one entry per record, in order, each the element's formatting. |
| Auth.DashboardPaths | app.py:86-96 | Each role's home location is `/<role>_dashboard`, spelled out for all five roles. |
| Auth.DisplayPage | app.py:56-70 | "/" is the login page whatever the session, including no session. A role dashboard is shown iff a session exists and the location is that session's own role's dashboard. The dashboard shown is the session's role, so there is no hierarchy. Every other case, including unlisted locations and any location other than "/" with no session, is Access Denied. |
| Auth.LoginUser | app.py:82-99 | The alert is empty iff the email is in the table and the password equals the stored one exactly; an empty (None) field never matches. On success the session becomes the table entry and the location its role's dashboard. On failure both outputs are `no_update` and the alert is "Invalid email or password.". |
| Auth.LoginLandsOnOwnDashboard | app.py:83-96 | After a successful login, the new location shown with the new session is that role's dashboard. The new session is authorised for it. |
| Auth.EveryAccountReachesItsDashboard | app.py:16-22 | Round trip over the whole table: logging in with each account's own password and displaying the returned location gives that account's dashboard, never Access Denied. |
| Auth.FailedLoginChangesNothing | app.py:97-99 | A failed login leaves session and location as they were and returns the generic message. |
| Auth.FailuresIndistinguishable | app.py:83-99 | Any two failed logins (unknown email, wrong password, empty field) give identical outputs. |
| Auth.SubmitLogin | app.py:73-99 | Pressing the login button writes the callback's outputs back into the session store (app.py:27) and the location. The alert is empty iff the credentials authenticate. On success the client holds the table entry and the role's dashboard location; on failure the client state is unchanged and the alert is the generic message. |
| Auth.Navigate | app.py:51-56 | Following a link changes only the location. The session stays as it was, so the next page is decided by the unchanged session and a denied page does not log the user out. |
| Auth.DoctorLoginExample | app.py:17 | doctor1@example.com with "doctorpass" stores the entry with role doctor and name "Dr. John Doe", goes to /doctor_dashboard with an empty alert, and shows the doctor dashboard. |
| Auth.WrongPasswordExample | app.py:84-99 | The doctor's email with any other password leaves an empty session empty and shows "Invalid email or password.". |
| Auth.NoRoleHierarchyExample | app.py:59-60 | An admin or a patient session is denied /doctor_dashboard. |
| FrontDesk.DisplayPage | dashboard_frontdesk.py:130-147 | "/" is the overview, and only "/" is. Each of the seven routed locations is a placeholder with its own title. Every other location is the "Page Not Found" placeholder. |
| FrontDesk.PatientRecordLinkNotRouted | dashboard_frontdesk.py:27 | The sidebar link "/patient_record" is not routed, so it shows "Page Not Found". |
| FrontDesk.CorrectedSidebarLinksRouted | dashboard_frontdesk.py:26-31 | With the link aimed at "/patients", every sidebar entry reaches a routed page, and that link shows "Patient Profiles". |
| FrontDesk.PatientCount | dashboard_frontdesk.py:151-156 | On success the card shows exactly the comma-grouped rendering of the number of records, which reads back as that number once the commas are removed. Any failure shows "0". |
| FrontDesk.PatientCountFailureLooksEmpty | dashboard_frontdesk.py:152-156 | A failed poll is displayed exactly like an empty list. |
| FrontDesk.Remaining | dashboard_frontdesk.py:166 | `max(0, 30 - n)` is never negative and never above 30. n + r = 30 when n ≤ 30, and r = 0 when n ≥ 30. |
| FrontDesk.Appointments | dashboard_frontdesk.py:163-169 | On success the count is exactly `str(n)` of the number of appointments (so it reads back as that number), and the second line is the remaining capacity followed by " remaining". A failure gives exactly ("0", "--"). |
| FrontDesk.AppointmentsExample | dashboard_frontdesk.py:166-167 | Five appointments show "5" and "25 remaining". |
| FrontDesk.RecentActivity | dashboard_frontdesk.py:197-203 | A list is shown iff the poll succeeded and each of the first five records has all four fields. It then has min(5, n) ≤ 5 items: the first records in backend order, each the name "first last" and the detail " - type on date". Otherwise the list is replaced by the fallback. |
| NursePortal.PatientsPage | nurse_portal.py:85-96 | "No active patients found." is shown exactly for an empty list. The error message is shown exactly for a failure or for a non-empty list where some required column is carried by no record. Otherwise a table of exactly first_name, last_name, gender and date_of_birth is shown, one row per record in order, iff each column is carried by at least one record; a cell is missing (NaN) where its record lacks the key. |
| NursePortal.DisplayPage | nurse_portal.py:136-147 | Each of "/", "/patients", "/labs", "/vitals" and "/settings" maps to the page served there, with the patients page built from the fetch. Every other location, and only those, gives the "404 - Page not found" heading. |
| NursePortal.CountCard | nurse_portal.py:152-165 | The active-patient and lab-report cards show exactly `str(n)` of the number of records, with no grouping, which reads back as that number. Any failure shows "0". |
| NursePortal.RefreshLabList | nurse_portal.py:168-174 | A list is shown iff the poll succeeded and each of the first ten records has type, result and date. It then has min(10, n) ≤ 10 items in order, each "type - result (date)". Otherwise the fallback message is shown. |
| NursePortal.LabReportPayload | nurse_portal.py:188-193 | The payload has exactly the keys patient_id, report_type, report_date and result. The form values pass through unchanged, and the date is the submission time. |
| NursePortal.SubmitAlert | nurse_portal.py:196-201 | The success alert (and the only "success" colour) appears iff the response status is 200. Any other status gives the failure alert. An exception gives a danger alert carrying the exception text. |
| PatientPortal.HealthRecords | patient_portal.py:64-79 | "No patient records available." is shown exactly for an empty list. The error message is shown exactly for a failure or for a first record missing one of the five fields. A card is shown iff the first record has all five fields. The card is built from that first record only: name, gender, date of birth and check-in status. |
| PatientPortal.AppointmentsToday | patient_portal.py:144-155 | "No upcoming appointments." is shown exactly for an empty list. The error message is shown exactly for a failure or for any appointment missing its date or doctor. Otherwise there is exactly one "date - doctor" line per appointment, in backend order, with no limit. |
| PatientPortal.ChartOf | patient_portal.py:91-115 | The lab-results and risk-score sections give no-data exactly for an empty list and an error exactly for a failure. Otherwise they chart all the records. |
| PatientPortal.ChartMessage | patient_portal.py:94-115 | A section without a chart shows its tab's own "No … available." message for an empty list and its own "Error loading …" message for a failure. |
| PatientPortal.ChartMessagesDistinct | patient_portal.py:94-115 | The lab and risk tabs never share a message, and within a tab the empty and error messages differ. |
| PatientPortal.RenderTab | patient_portal.py:38-60 | The text "Tab content not found." is shown exactly for ids outside the ten tab ids. Every other id renders the section that belongs to it, and the data sections are built from their own endpoint. |
| PatientPortal.InitialTabRenders | patient_portal.py:30 | The page opens on "records", which renders the health-records section. |
| PatientPortal.TabsDistinct | patient_portal.py:38-58 | Two different tab ids never render the same section. |

## Findings

| source | as written | input that shows it | evidently intended | confidence | as-written member | corrected member |
|---|---|---|---|---|---|---|
| dashboard_frontdesk.py:27 | The "Patient Profiles" sidebar link points at "/patient_record", which the router (lines 130-147) does not list. | Clicking "Patient Profiles" shows the "Page Not Found" placeholder. | The link points at "/patients", which the router serves with the title "Patient Profiles". | medium, not executed | FrontDesk.PatientRecordLinkNotRouted | FrontDesk.CorrectedSidebarLinksRouted |

## Left out

- HTTP requests, the `API` base URL and JSON decoding are abstracted into the `Fetch` input. Only JSON arrays of objects are modelled. A JSON object payload (where `len` counts its keys and slicing raises) and array elements that are not objects are not distinguished from the cases the model has.
- Record values are the text `str` gives them. Their JSON types, and how pandas renders them in the nurse patients table, are not modelled.
- The outcome of the lab-report POST and the submission clock (`pd.Timestamp.now()`) are parameters. No request in the source sets a timeout, and the model has none.
- The polling callbacks never check the status code. A non-2xx response whose body is JSON is decoded like a success. For example, a `{"detail": "Not Found"}` body makes the front-desk patient card show "1" and the appointments card ("1", "29 remaining"). Such responses fall outside `Fetch`, which only has decoded arrays of records and failures.
- NursePortal.LabReportPayload: `patient_id` comes from a `type="number"` input (nurse_portal.py:107), so the posted JSON carries a number. The model types every form value as optional text.
- Charts are built with pandas and plotly over floating-point data, so the model leaves them out. This covers `update_age_group_chart`, `update_trend_chart`, `vitals_page`, and the figure parts of the lab-results and risk-score tabs. A chart section carries the records it would plot.
- PatientPortal.ChartOf: building the figure can itself raise, for example on a missing column, and then show the error message. The model treats every non-empty list as a chart.
- The 10-second `dcc.Interval` timers and the Dash callback wiring are not modelled; scheduling belongs to the framework. In the nurse portal, the cards are triggered by an interval that exists only on the labs page (nurse_portal.py:101, 151, 159). That is a wiring fact outside these functions.
- Layout markup, styles, headers and the static tab sections are opaque views. The static tab sections are medications, vaccinations, education, messages, journal and goals.
- `dashboard_doctor` is not part of this model. The doctor dashboard layout is the opaque `Dashboard(Doctor)` view, and `register_doctor_callbacks` is left out.
- The session store lives in the browser (`storage_type='session'`). A client could write any value there, but in the model the session only ever holds a table entry. As in the source, that stored entry includes the password field.
- Auth.LoginUser: the source's implicit `None` return, for a table entry whose role is none of the five, cannot arise with the fixed table and is not modelled. The button's click count is ignored, as in the source.
- An initially undefined location (`None`) is not modelled. Locations and tab ids are strings.
- NursePortal.CountCard models both `update_active_patients` and `update_lab_reports`, which apply the same transform to different endpoints.
- `app.run` and server start-up are left out.
