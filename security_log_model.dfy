/** The SecurityLog schema (models/SecurityLog.js): the two enumerations, the
    record a stored log holds, and the validation `SecurityLog.create`
    performs before anything is written (required fields, enum membership,
    defaults). The schema's `type` field is called `logType` here because
    `type` is a reserved word. */
module SecurityLogModel {
  import opened Util

  datatype LogType =
    | LoginAttempt | FailedLogin | SuspiciousActivity | FirewallBlock
    | MalwareDetected | DdosAttempt | UnauthorizedAccess

  datatype LogSeverity = Low | Medium | High | Critical

  /** Every log type, each once. */
  const AllLogTypes: seq<LogType> := [
    LoginAttempt, FailedLogin, SuspiciousActivity, FirewallBlock,
    MalwareDetected, DdosAttempt, UnauthorizedAccess
  ]

  /** The string the schema stores for a log type. */
  function LogTypeName(t: LogType): string {
    match t
    case LoginAttempt => "login_attempt"
    case FailedLogin => "failed_login"
    case SuspiciousActivity => "suspicious_activity"
    case FirewallBlock => "firewall_block"
    case MalwareDetected => "malware_detected"
    case DdosAttempt => "ddos_attempt"
    case UnauthorizedAccess => "unauthorized_access"
  }

  function LogSeverityName(v: LogSeverity): string {
    match v
    case Low => "low"
    case Medium => "medium"
    case High => "high"
    case Critical => "critical"
  }

  /** The enum check on `type`: a string is accepted exactly when it names a
      log type, and then it names exactly that one. */
  function ParseLogType(s: string): (r: Option<LogType>)
    ensures r.Some? ==> LogTypeName(r.value) == s
    ensures r.None? ==> forall t :: LogTypeName(t) != s
  {
    if s == "login_attempt" then Some(LoginAttempt)
    else if s == "failed_login" then Some(FailedLogin)
    else if s == "suspicious_activity" then Some(SuspiciousActivity)
    else if s == "firewall_block" then Some(FirewallBlock)
    else if s == "malware_detected" then Some(MalwareDetected)
    else if s == "ddos_attempt" then Some(DdosAttempt)
    else if s == "unauthorized_access" then Some(UnauthorizedAccess)
    else None
  }

  /** The enum check on `severity`. */
  function ParseLogSeverity(s: string): (r: Option<LogSeverity>)
    ensures r.Some? ==> LogSeverityName(r.value) == s
    ensures r.None? ==> forall v :: LogSeverityName(v) != s
  {
    if s == "low" then Some(Low)
    else if s == "medium" then Some(Medium)
    else if s == "high" then Some(High)
    else if s == "critical" then Some(Critical)
    else None
  }

  /** A stored security log. `userId` is the position of the user it refers
      to; an empty `metadata` map stands for the absent optional map. */
  datatype SecurityLog = SecurityLog(
    logType: LogType,
    severity: LogSeverity,
    ipAddress: string,
    userAgent: Option<string>,
    userId: Option<nat>,
    description: Option<string>,
    metadata: map<string, string>,
    resolved: bool,
    timestamp: int)

  /** The fields a caller hands to `SecurityLog.create`; `None` is a field
      left undefined. No caller passes `metadata`, `resolved` or `timestamp`. */
  datatype LogInput = LogInput(
    logType: Option<string>,
    severity: Option<string>,
    ipAddress: Option<string>,
    userAgent: Option<string>,
    userId: Option<nat>,
    description: Option<string>)

  /** The paths that fail validation. */
  function LogErrors(i: LogInput): set<string> {
    (if !Present(i.logType) || ParseLogType(i.logType.value).None? then {"type"} else {})
    + (if i.severity.Some? && ParseLogSeverity(i.severity.value).None? then {"severity"} else {})
    + (if !Present(i.ipAddress) then {"ipAddress"} else {})
  }

  /** What every stored log satisfies. */
  predicate WellFormedLog(l: SecurityLog) {
    l.ipAddress != ""
  }

  /** Validation and defaults of `new SecurityLog(input)` at time `now`. */
  function NewLog(i: LogInput, now: int): (r: Result<SecurityLog, set<string>>)
    ensures r.Success? <==>
      Present(i.logType) && ParseLogType(i.logType.value).Some?
      && (i.severity.None? || ParseLogSeverity(i.severity.value).Some?)
      && Present(i.ipAddress)
    ensures r.Failure? ==> r.error == LogErrors(i) && r.error != {}
    ensures r.Success? ==>
      var l := r.value;
      && WellFormedLog(l)
      && LogTypeName(l.logType) == i.logType.value
      && LogSeverityName(l.severity) == i.severity.GetOr("medium")
      && l.ipAddress == i.ipAddress.value
      && l.userAgent == i.userAgent && l.userId == i.userId && l.description == i.description
      && l.metadata == map[] && !l.resolved && l.timestamp == now
  {
    if LogErrors(i) != {} then
      Failure(LogErrors(i))
    else
      assert "type" !in LogErrors(i) && "severity" !in LogErrors(i) && "ipAddress" !in LogErrors(i);
      Success(SecurityLog(
        ParseLogType(i.logType.value).value,
        if i.severity.Some? then ParseLogSeverity(i.severity.value).value else Medium,
        i.ipAddress.value,
        i.userAgent, i.userId, i.description,
        map[], false, now))
  }

  function IpOf(l: SecurityLog): string { l.ipAddress }

  function TypeOf(l: SecurityLog): LogType { l.logType }

  function TimestampOf(l: SecurityLog): int { l.timestamp }

  /** The seven log types are listed once each and cover every log. */
  lemma AllLogTypesComplete()
    ensures forall t :: t in AllLogTypes
    ensures forall i, j :: 0 <= i < j < |AllLogTypes| ==> AllLogTypes[i] != AllLogTypes[j]
  {
    forall t ensures t in AllLogTypes {
      match t
      case LoginAttempt => assert AllLogTypes[0] == t;
      case FailedLogin => assert AllLogTypes[1] == t;
      case SuspiciousActivity => assert AllLogTypes[2] == t;
      case FirewallBlock => assert AllLogTypes[3] == t;
      case MalwareDetected => assert AllLogTypes[4] == t;
      case DdosAttempt => assert AllLogTypes[5] == t;
      case UnauthorizedAccess => assert AllLogTypes[6] == t;
    }
  }
}
