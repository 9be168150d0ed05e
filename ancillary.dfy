/** The append-only collections of server.js: emergency alerts, incident reports and volunteer sign-ups. */
module Ancillary {
  import opened Wrappers
  import opened Seqs

  /** An emergency alert; fields the request left out stay absent. */
  datatype Alert = Alert(
    id: int,
    title: Option<string>,
    description: Option<string>,
    severity: Option<string>,
    affectedAreas: seq<string>,
    dateCreated: string,
    isActive: bool)

  /** The body of an alert request. */
  datatype AlertFields = AlertFields(
    title: Option<string>,
    description: Option<string>,
    severity: Option<string>,
    affectedAreas: Option<seq<string>>)

  /** The alert the create handler appends: active, with no affected areas unless given. */
  function NewAlert(f: AlertFields, id: int, dateCreated: string): Alert {
    Alert(id, f.title, f.description, f.severity, f.affectedAreas.GetOr([]), dateCreated, true)
  }

  function IsActive(): Alert -> bool {
    (a: Alert) => a.isActive
  }

  /** The alert list response: the active alerts, in store order. */
  function ActiveAlerts(s: seq<Alert>): seq<Alert> {
    Filter(s, IsActive())
  }

  /** A new alert is listed, after every alert that was listed before it. */
  lemma NewAlertIsListed(s: seq<Alert>, f: AlertFields, id: int, dateCreated: string)
    ensures ActiveAlerts(s + [NewAlert(f, id, dateCreated)]) == ActiveAlerts(s) + [NewAlert(f, id, dateCreated)]
  {
    FilterAppend(s, [NewAlert(f, id, dateCreated)], IsActive());
  }

  /** A report about a resource; `resourceId` is not checked against the store. */
  datatype Report = Report(
    id: int,
    resourceId: Option<int>,
    issue: Option<string>,
    description: Option<string>,
    reporterContact: Option<string>,
    status: string,
    dateReported: string)

  /** The body of a report request. */
  datatype ReportFields = ReportFields(
    resourceId: Option<int>,
    issue: Option<string>,
    description: Option<string>,
    reporterContact: Option<string>)

  /** The report the create handler appends: the request's fields, status "pending". */
  function NewReport(f: ReportFields, id: int, dateReported: string): Report {
    Report(id, f.resourceId, f.issue, f.description, f.reporterContact, "pending", dateReported)
  }

  /** A volunteer sign-up. */
  datatype Volunteer = Volunteer(
    id: int,
    name: Option<string>,
    email: Option<string>,
    phone: Option<string>,
    skills: seq<string>,
    availability: Option<string>,
    location: Option<string>,
    status: string,
    dateRegistered: string)

  /** The body of a volunteer request. */
  datatype VolunteerFields = VolunteerFields(
    name: Option<string>,
    email: Option<string>,
    phone: Option<string>,
    skills: Option<seq<string>>,
    availability: Option<string>,
    location: Option<string>)

  /** The sign-up the create handler appends: no skills unless given, status "pending". */
  function NewVolunteer(f: VolunteerFields, id: int, dateRegistered: string): Volunteer {
    Volunteer(id, f.name, f.email, f.phone, f.skills.GetOr([]), f.availability, f.location,
      "pending", dateRegistered)
  }
}
