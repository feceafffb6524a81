/** The Alert schema (models/Alert.js): the three enumerations, the stored
    record, and the validation and defaults applied when an alert document is
    built and saved. The schema's `type` field is called `alertType` here. */
module AlertModel {
  import opened Util

  datatype AlertType = Security | Firewall | Malware | Intrusion | System

  datatype AlertSeverity = Info | Warning | Danger | Critical

  datatype AlertStatus = Active | Acknowledged | Resolved

  /** Every alert severity, each once. */
  const AllAlertSeverities: seq<AlertSeverity> := [Info, Warning, Danger, Critical]

  /** The schema default of `emergencyContact`. */
  const DEFAULT_EMERGENCY_CONTACT: string := "7004398297"

  function AlertTypeName(t: AlertType): string {
    match t
    case Security => "security"
    case Firewall => "firewall"
    case Malware => "malware"
    case Intrusion => "intrusion"
    case System => "system"
  }

  function AlertSeverityName(v: AlertSeverity): string {
    match v
    case Info => "info"
    case Warning => "warning"
    case Danger => "danger"
    case Critical => "critical"
  }

  function StatusName(s: AlertStatus): string {
    match s
    case Active => "active"
    case Acknowledged => "acknowledged"
    case Resolved => "resolved"
  }

  /** The enum check on `type`. */
  function ParseAlertType(s: string): (r: Option<AlertType>)
    ensures r.Some? ==> AlertTypeName(r.value) == s
    ensures r.None? ==> forall t :: AlertTypeName(t) != s
  {
    if s == "security" then Some(Security)
    else if s == "firewall" then Some(Firewall)
    else if s == "malware" then Some(Malware)
    else if s == "intrusion" then Some(Intrusion)
    else if s == "system" then Some(System)
    else None
  }

  /** The enum check on `severity`. */
  function ParseAlertSeverity(s: string): (r: Option<AlertSeverity>)
    ensures r.Some? ==> AlertSeverityName(r.value) == s
    ensures r.None? ==> forall v :: AlertSeverityName(v) != s
  {
    if s == "info" then Some(Info)
    else if s == "warning" then Some(Warning)
    else if s == "danger" then Some(Danger)
    else if s == "critical" then Some(Critical)
    else None
  }

  /** The enum check on `status`. */
  function ParseStatus(s: string): (r: Option<AlertStatus>)
    ensures r.Some? ==> StatusName(r.value) == s
    ensures r.None? ==> forall v :: StatusName(v) != s
  {
    if s == "active" then Some(Active)
    else if s == "acknowledged" then Some(Acknowledged)
    else if s == "resolved" then Some(Resolved)
    else None
  }

  /** A stored alert. `id` is its position in the alert store; an empty
      `metadata` map stands for the absent optional map. */
  datatype Alert = Alert(
    id: nat,
    title: string,
    message: string,
    alertType: AlertType,
    severity: AlertSeverity,
    status: AlertStatus,
    notificationSent: bool,
    emergencyContact: string,
    metadata: map<string, string>,
    createdAt: int,
    resolvedAt: Option<int>)

  /** The fields handed to `new Alert(...)`; `None` is a field left
      undefined. No caller passes `createdAt` or `resolvedAt`. */
  datatype AlertInput = AlertInput(
    title: Option<string>,
    message: Option<string>,
    alertType: Option<string>,
    severity: Option<string>,
    status: Option<string>,
    notificationSent: Option<bool>,
    emergencyContact: Option<string>,
    metadata: map<string, string>)

  /** The paths that fail validation. */
  function AlertErrors(i: AlertInput): set<string> {
    (if !Present(i.title) then {"title"} else {})
    + (if !Present(i.message) then {"message"} else {})
    + (if !Present(i.alertType) || ParseAlertType(i.alertType.value).None? then {"type"} else {})
    + (if i.severity.Some? && ParseAlertSeverity(i.severity.value).None? then {"severity"} else {})
    + (if i.status.Some? && ParseStatus(i.status.value).None? then {"status"} else {})
  }

  /** What every stored alert satisfies. */
  predicate WellFormedAlert(a: Alert) {
    a.title != "" && a.message != ""
  }

  /** Validation and defaults of `new Alert(input)` saved at time `now`
      under the identifier `id`. */
  function NewAlert(i: AlertInput, id: nat, now: int): (r: Result<Alert, set<string>>)
    ensures r.Success? <==>
      Present(i.title) && Present(i.message)
      && Present(i.alertType) && ParseAlertType(i.alertType.value).Some?
      && (i.severity.None? || ParseAlertSeverity(i.severity.value).Some?)
      && (i.status.None? || ParseStatus(i.status.value).Some?)
    ensures r.Failure? ==> r.error == AlertErrors(i) && r.error != {}
    ensures r.Success? ==>
      var a := r.value;
      && WellFormedAlert(a)
      && a.id == id
      && a.title == i.title.value && a.message == i.message.value
      && AlertTypeName(a.alertType) == i.alertType.value
      && AlertSeverityName(a.severity) == i.severity.GetOr("warning")
      && StatusName(a.status) == i.status.GetOr("active")
      && a.notificationSent == i.notificationSent.GetOr(false)
      && a.emergencyContact == i.emergencyContact.GetOr(DEFAULT_EMERGENCY_CONTACT)
      && a.metadata == i.metadata
      && a.createdAt == now && a.resolvedAt.None?
  {
    if AlertErrors(i) != {} then
      Failure(AlertErrors(i))
    else
      assert "title" !in AlertErrors(i) && "message" !in AlertErrors(i) && "type" !in AlertErrors(i);
      assert "severity" !in AlertErrors(i) && "status" !in AlertErrors(i);
      Success(Alert(
        id,
        i.title.value,
        i.message.value,
        ParseAlertType(i.alertType.value).value,
        if i.severity.Some? then ParseAlertSeverity(i.severity.value).value else Warning,
        if i.status.Some? then ParseStatus(i.status.value).value else Active,
        i.notificationSent.GetOr(false),
        i.emergencyContact.GetOr(DEFAULT_EMERGENCY_CONTACT),
        i.metadata,
        now,
        None))
  }

  /** With only the required fields given, a new alert is active, of
      severity `warning`, not yet notified, and carries the default contact. */
  lemma NewAlertDefaults(title: string, message: string, t: AlertType, id: nat, now: int)
    requires title != "" && message != ""
    ensures NewAlert(AlertInput(Some(title), Some(message), Some(AlertTypeName(t)), None, None, None, None, map[]), id, now)
         == Success(Alert(id, title, message, t, Warning, Active, false, DEFAULT_EMERGENCY_CONTACT, map[], now, None))
  {
    var r := NewAlert(AlertInput(Some(title), Some(message), Some(AlertTypeName(t)), None, None, None, None, map[]), id, now);
    assert ParseAlertType(AlertTypeName(t)).Some?;
    assert r.Success?;
    assert ParseAlertType(AlertTypeName(t)).value == t by {
      match t
      case Security =>
      case Firewall =>
      case Malware =>
      case Intrusion =>
      case System =>
    }
  }

  function SeverityOf(a: Alert): AlertSeverity { a.severity }

  function CreatedAtOf(a: Alert): int { a.createdAt }

  /** The four severities are listed once each and cover every alert. */
  lemma AllAlertSeveritiesComplete()
    ensures forall v :: v in AllAlertSeverities
    ensures forall i, j :: 0 <= i < j < |AllAlertSeverities| ==> AllAlertSeverities[i] != AllAlertSeverities[j]
  {
    forall v ensures v in AllAlertSeverities {
      match v
      case Info => assert AllAlertSeverities[0] == v;
      case Warning => assert AllAlertSeverities[1] == v;
      case Danger => assert AllAlertSeverities[2] == v;
      case Critical => assert AllAlertSeverities[3] == v;
    }
  }
}
