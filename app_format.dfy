/** The two display helpers of public/app.js: the label of a log type, and
    the relative age of a timestamp. */
module AppFormat {
  import opened Util
  import opened SecurityLogModel

  /** The label shown for each log type. */
  function ThreatLabel(t: LogType): string {
    match t
    case LoginAttempt => "Login Attempt"
    case FailedLogin => "Failed Login"
    case SuspiciousActivity => "Suspicious Activity"
    case FirewallBlock => "Firewall Block"
    case MalwareDetected => "Malware Detected"
    case DdosAttempt => "DDoS Attempt"
    case UnauthorizedAccess => "Unauthorized Access"
  }

  /** `formatThreatType(type)`: the label of a known type string, and any
      other string unchanged (`types[type] || type`; every label is
      non-empty, so the fallback is taken only for unknown strings). */
  function FormatThreatType(s: string): (r: string)
    ensures forall t :: LogTypeName(t) == s ==> r == ThreatLabel(t)
    ensures (forall t :: LogTypeName(t) != s) ==> r == s
  {
    match ParseLogType(s)
    case Some(t) => ThreatLabel(t)
    case None => s
  }

  /** A label is never itself a type string, so formatting twice is
      formatting once. */
  lemma FormatThreatTypeIdempotent(s: string)
    ensures FormatThreatType(FormatThreatType(s)) == FormatThreatType(s)
  {
    match ParseLogType(s)
    case Some(t) =>
      assert ParseLogType(ThreatLabel(t)).None? by {
        match t
        case LoginAttempt =>
        case FailedLogin =>
        case SuspiciousActivity =>
        case FirewallBlock =>
        case MalwareDetected =>
        case DdosAttempt =>
        case UnauthorizedAccess =>
      }
    case None =>
  }

  /** The seven types get seven different labels. */
  lemma ThreatLabelsDistinct(t: LogType, u: LogType)
    requires t != u
    ensures ThreatLabel(t) != ThreatLabel(u)
  {
  }

  const MINUTE: int := 60000
  const HOUR: int := 3600000
  const DAY: int := 86400000

  /** `formatDate(date)` at clock `now`, both in milliseconds. The age is
      bucketed by floor division, which for these positive divisors is
      Dafny's `/`; ages past a week use `localeDate`, the browser's
      `toLocaleDateString()` of the date. */
  function FormatDate(date: int, now: int, localeDate: string): string {
    var diff := now - date;
    var minutes := diff / MINUTE;
    var hours := diff / HOUR;
    var days := diff / DAY;
    if minutes < 1 then "Just now"
    else if minutes < 60 then NatToString(minutes) + "m ago"
    else if hours < 24 then NatToString(hours) + "h ago"
    else if days < 7 then NatToString(days) + "d ago"
    else localeDate
  }

  /** The buckets by age: under a minute (including dates in the future)
      is "Just now"; then whole minutes below an hour, whole hours below a
      day, whole days below a week; older dates fall back to the locale
      date. Each count shown is at least 1 and below the next unit. */
  lemma FormatDateBuckets(date: int, now: int, localeDate: string)
    ensures var age := now - date;
      var r := FormatDate(date, now, localeDate);
      && (age < MINUTE ==> r == "Just now")
      && (MINUTE <= age < HOUR ==> r == NatToString(age / MINUTE) + "m ago" && 1 <= age / MINUTE < 60)
      && (HOUR <= age < DAY ==> r == NatToString(age / HOUR) + "h ago" && 1 <= age / HOUR < 24)
      && (DAY <= age < 7 * DAY ==> r == NatToString(age / DAY) + "d ago" && 1 <= age / DAY < 7)
      && (age >= 7 * DAY ==> r == localeDate)
  {
    var age := now - date;
    MinutesBelow(age);
    DivBounds(age, MINUTE, 60);
    DivBounds(age, HOUR, 24);
    DivBounds(age, DAY, 7);
  }

  /** `q = n / d` is at least 1 exactly when `n >= d`, and below `k` exactly
      when `n < k * d`. */
  lemma DivBounds(n: int, d: int, k: int)
    requires d > 0
    ensures n / d >= 1 <==> n >= d
    ensures n / d < k <==> n < k * d
  {
    var q, m := n / d, n % d;
    assert n == q * d + m && 0 <= m < d;
    if q >= 1 {
      MulMonotone(1, q, d);
    } else {
      MulMonotone(q, 0, d);
    }
    if q < k {
      MulMonotone(q + 1, k, d);
    } else {
      MulMonotone(k, q, d);
    }
  }

  lemma MulMonotone(a: int, b: int, d: int)
    requires a <= b && d > 0
    ensures a * d <= b * d
  {
  }

  /** A minute count below 60 means an age below an hour, and so on up. */
  lemma MinutesBelow(age: int)
    ensures age / MINUTE >= 60 ==> age / HOUR >= 1
    ensures age / HOUR >= 24 ==> age / DAY >= 1
  {
    DivBounds(age, MINUTE, 60);
    DivBounds(age, HOUR, 1);
    DivBounds(age, HOUR, 24);
    DivBounds(age, DAY, 1);
  }
}
