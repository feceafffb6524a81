/** routes/alerts.js: the alert listing (filter, newest first, limit), the
    manual creation route, acknowledge and resolve as in-place updates of one
    alert, and the statistics. Every route sits behind `authenticate`, which
    is modelled on its own; answers are HTTP statuses. */
module AlertRoutes {
  import opened Util
  import opened Aggregate
  import opened AlertModel
  import opened Store
  import opened AlertService

  /** The contact the routes write into manual alerts and report in the
      statistics. */
  const ROUTE_CONTACT: string := "7004398297"

  /** Twenty-four hours, in milliseconds. */
  const STATS_WINDOW: int := 24 * 60 * 60 * 1000

  // ---------------------------------------------------------------- list

  predicate ListMatches(a: Alert, status: Option<string>, severity: Option<string>) {
    Requested(status, StatusName(a.status)) && Requested(severity, AlertSeverityName(a.severity))
  }

  function Matcher(status: Option<string>, severity: Option<string>): Alert -> bool {
    a => ListMatches(a, status, severity)
  }

  /** `GET /`: `Alert.find(query).sort({createdAt: -1}).limit(limit)`. */
  function ListAlerts(alerts: seq<Alert>, status: Option<string>, severity: Option<string>, limit: Option<int>): (r: seq<Alert>)
    ensures forall a :: a in r ==> a in alerts && ListMatches(a, status, severity)
    ensures SortedDesc(r, CreatedAtOf)
    ensures |r| == PageLimit(limit).Cap(|Filter(alerts, Matcher(status, severity))|)
    ensures forall a, b :: a in alerts && ListMatches(a, status, severity) && a !in r && b in r ==> a.createdAt <= b.createdAt
    ensures multiset(r) <= multiset(Filter(alerts, Matcher(status, severity)))
  {
    var r := TopN(alerts, Matcher(status, severity), CreatedAtOf, PageLimit(limit));
    assert forall a :: a in r ==> a in alerts && ListMatches(a, status, severity) by {
      forall a | a in r ensures a in alerts && ListMatches(a, status, severity) {
        assert Matcher(status, severity)(a);
      }
    }
    assert forall a, b :: a in alerts && ListMatches(a, status, severity) && a !in r && b in r ==> a.createdAt <= b.createdAt by {
      forall a, b | a in alerts && ListMatches(a, status, severity) && a !in r && b in r
        ensures a.createdAt <= b.createdAt
      {
        assert Matcher(status, severity)(a);
        assert CreatedAtOf(a) <= CreatedAtOf(b);
      }
    }
    r
  }

  /** When the limit does not cut the result, an alert is listed exactly
      when it matches every filter that is given. */
  lemma ListAlertsComplete(alerts: seq<Alert>, status: Option<string>, severity: Option<string>, limit: Option<int>)
    requires PageLimit(limit).Cap(|Filter(alerts, Matcher(status, severity))|) == |Filter(alerts, Matcher(status, severity))|
    ensures forall a :: a in ListAlerts(alerts, status, severity, limit) <==> a in alerts && ListMatches(a, status, severity)
  {
    var r := ListAlerts(alerts, status, severity, limit);
    SameMultiset(r, Filter(alerts, Matcher(status, severity)));
  }

  /** Without a `limit` at most 50 alerts are listed, and all of them when
      no more than 50 match. */
  lemma ListAlertsDefaultLimit(alerts: seq<Alert>, status: Option<string>, severity: Option<string>)
    ensures var n := |Filter(alerts, Matcher(status, severity))|;
      var r := ListAlerts(alerts, status, severity, None);
      && |r| <= 50
      && (n <= 50 ==> |r| == n)
      && (n > 50 ==> |r| == 50)
  {
  }

  /** A filter that is absent or empty does not filter: every alert
      matches, and the list is as long as the limit allows over the store. */
  lemma ListAlertsUnfiltered(alerts: seq<Alert>, status: Option<string>, severity: Option<string>, limit: Option<int>)
    requires !Present(status) && !Present(severity)
    ensures Filter(alerts, Matcher(status, severity)) == alerts
    ensures |ListAlerts(alerts, status, severity, limit)| == PageLimit(limit).Cap(|alerts|)
  {
    FilterAll(alerts, Matcher(status, severity));
  }

  // ---------------------------------------------------------------- create

  /** The body fields `POST /` reads. */
  datatype ManualAlertBody = ManualAlertBody(title: Option<string>, message: Option<string>, alertType: Option<string>, severity: Option<string>)

  function ManualInput(b: ManualAlertBody): AlertInput {
    AlertInput(b.title, b.message, b.alertType, b.severity, None, None, Some(ROUTE_CONTACT), map[])
  }

  /** `POST /`: build and save the alert, then notify when the body's
      severity is `critical`; a failed notification does not change the
      answer. */
  function ManualCreateStep(s: Stores, b: ManualAlertBody, now: int): Outcome<int> {
    match NewAlert(ManualInput(b), |s.alerts|, now)
    case Failure(_) => Outcome(s, 500)
    case Success(a) =>
      var w := PutAlert(s, a);
      if !w.result then Outcome(w.after, 500)
      else if b.severity == Some("critical") then Outcome(NotifyStep(w.after, a).after, 201)
      else Outcome(w.after, 201)
  }

  /** A valid body with the store up gives 201 and one new alert at the end:
      active, with the given fields and the route's contact. A message goes
      to the emergency channel exactly when the severity is `critical`, and
      then (if the second write also succeeds) the stored flag is set. */
  lemma ManualCreateAppends(s: Stores, b: ManualAlertBody, now: int)
    requires NewAlert(ManualInput(b), |s.alerts|, now).Success? && s.budget.Allows()
    ensures var o := ManualCreateStep(s, b, now);
      var n := |s.alerts|;
      var stored := o.after.alerts[n];
      && o.result == 201
      && |o.after.alerts| == n + 1 && o.after.alerts[..n] == s.alerts
      && stored.status == Active && stored.emergencyContact == ROUTE_CONTACT
      && stored.title == b.title.value && stored.message == b.message.value
      && AlertTypeName(stored.alertType) == b.alertType.value
      && AlertSeverityName(stored.severity) == b.severity.GetOr("warning")
      && (b.severity == Some("critical") ==> o.after.sent == s.sent + [NoticeFor(stored.(notificationSent := false))])
      && (b.severity != Some("critical") ==> o.after.sent == s.sent && !stored.notificationSent)
      && (s.budget.Covers(2) ==> stored.notificationSent == (b.severity == Some("critical")))
      && o.after.logs == s.logs && o.after.users == s.users
  {
    var a := NewAlert(ManualInput(b), |s.alerts|, now).value;
    var w := PutAlert(s, a);
    assert w.after.alerts[|s.alerts|] == a;
    if b.severity == Some("critical") {
      var nt := NotifyStep(w.after, a);
      assert nt.after.alerts[|s.alerts|].(notificationSent := false) == a;
    }
  }

  /** An invalid body (a missing title, message or type, or a value outside
      an enumeration) or a store that is down gives 500 and changes nothing. */
  lemma ManualCreateFails(s: Stores, b: ManualAlertBody, now: int)
    requires NewAlert(ManualInput(b), |s.alerts|, now).Failure? || !s.budget.Allows()
    ensures ManualCreateStep(s, b, now) == Outcome(s, 500)
  {
  }

  // ---------------------------------------------------------------- update

  function AcknowledgedCopy(a: Alert): Alert {
    a.(status := Acknowledged)
  }

  function ResolvedCopy(a: Alert, now: int): Alert {
    a.(status := Resolved, resolvedAt := Some(now))
  }

  /** `findByIdAndUpdate(id, change)`: 404 for an unknown id and 500 when
      the store is down; otherwise the alert is replaced by its changed copy
      and 200 answered. */
  function UpdateStep(s: Stores, id: nat, change: Alert -> Alert): Outcome<int> {
    if id >= |s.alerts| then Outcome(s, if s.budget.Allows() then 404 else 500)
    else
      var w := SetAlert(s, id, change(s.alerts[id]));
      Outcome(w.after, if w.result then 200 else 500)
  }

  /** `PATCH /:id/acknowledge`. */
  function AcknowledgeStep(s: Stores, id: nat): Outcome<int> {
    UpdateStep(s, id, AcknowledgedCopy)
  }

  /** `PATCH /:id/resolve`. */
  function ResolveStep(s: Stores, id: nat, now: int): Outcome<int> {
    UpdateStep(s, id, a => ResolvedCopy(a, now))
  }

  /** Acknowledging answers 404 for an unknown id and 500 when the store is
      down, changing nothing; otherwise it answers 200 and sets the status of
      that one alert to `acknowledged`, whatever it was (a resolved alert
      becomes acknowledged again and keeps its `resolvedAt`); no other alert
      and no other field changes. */
  lemma AcknowledgeEffect(s: Stores, id: nat)
    ensures var o := AcknowledgeStep(s, id);
      && (id >= |s.alerts| && s.budget.Allows() ==> o == Outcome(s, 404))
      && (!s.budget.Allows() ==> o == Outcome(s, 500))
      && (id < |s.alerts| && s.budget.Allows() ==>
            && o.result == 200
            && |o.after.alerts| == |s.alerts|
            && o.after.alerts[id].status == Acknowledged
            && o.after.alerts[id].resolvedAt == s.alerts[id].resolvedAt
            && o.after.alerts[id].(status := s.alerts[id].status) == s.alerts[id]
            && (forall j :: 0 <= j < |s.alerts| && j != id ==> o.after.alerts[j] == s.alerts[j])
            && o.after.logs == s.logs && o.after.users == s.users && o.after.sent == s.sent)
  {
  }

  /** Resolving answers 404 for an unknown id and 500 when the store is down,
      changing nothing; otherwise it answers 200 and that one alert becomes
      `resolved` with `resolvedAt` set to now; nothing else changes. */
  lemma ResolveEffect(s: Stores, id: nat, now: int)
    ensures var o := ResolveStep(s, id, now);
      && (id >= |s.alerts| && s.budget.Allows() ==> o == Outcome(s, 404))
      && (!s.budget.Allows() ==> o == Outcome(s, 500))
      && (id < |s.alerts| && s.budget.Allows() ==>
            && o.result == 200
            && |o.after.alerts| == |s.alerts|
            && o.after.alerts[id].status == Resolved
            && o.after.alerts[id].resolvedAt == Some(now)
            && o.after.alerts[id].(status := s.alerts[id].status, resolvedAt := s.alerts[id].resolvedAt) == s.alerts[id]
            && (forall j :: 0 <= j < |s.alerts| && j != id ==> o.after.alerts[j] == s.alerts[j])
            && o.after.logs == s.logs && o.after.users == s.users && o.after.sent == s.sent)
  {
  }

  /** Acknowledging twice leaves the alerts as acknowledging once does. */
  lemma AcknowledgeIdempotent(s: Stores, id: nat)
    requires s.budget.Covers(2)
    ensures AcknowledgeStep(AcknowledgeStep(s, id).after, id).after.alerts == AcknowledgeStep(s, id).after.alerts
  {
  }

  /** Acknowledge after resolve: the alert is `acknowledged` again but still
      carries the time it was resolved. */
  lemma AcknowledgeAfterResolve(s: Stores, id: nat, now: int)
    requires id < |s.alerts| && s.budget.Covers(2)
    ensures var a := AcknowledgeStep(ResolveStep(s, id, now).after, id).after.alerts[id];
      a.status == Acknowledged && a.resolvedAt == Some(now)
  {
  }

  /** The updates keep the stores consistent. */
  lemma UpdatesKeepConsistent(s: Stores, id: nat, now: int)
    requires Consistent(s)
    ensures Consistent(AcknowledgeStep(s, id).after)
    ensures Consistent(ResolveStep(s, id, now).after)
  {
  }

  /** Manual creation keeps the stores consistent. */
  lemma ManualCreateKeepsConsistent(s: Stores, b: ManualAlertBody, now: int)
    requires Consistent(s)
    ensures Consistent(ManualCreateStep(s, b, now).after)
  {
    var r := NewAlert(ManualInput(b), |s.alerts|, now);
    if r.Success? {
      var a := r.value;
      var w := PutAlert(s, a);
      if w.result && b.severity == Some("critical") {
        var n := NotifyStep(w.after, a);
        assert forall i :: 0 <= i < |n.after.alerts| ==>
          n.after.alerts[i].id == w.after.alerts[i].id && n.after.alerts[i].title == w.after.alerts[i].title
          && n.after.alerts[i].message == w.after.alerts[i].message;
      }
    }
  }

  // ---------------------------------------------------------------- stats

  predicate IsActive(a: Alert) {
    a.status == Active
  }

  predicate IsActiveCritical(a: Alert) {
    a.status == Active && a.severity == Critical
  }

  predicate InStatsWindow(a: Alert, now: int) {
    a.createdAt >= now - STATS_WINDOW
  }

  function StatsWindow(alerts: seq<Alert>, now: int): seq<Alert> {
    Filter(alerts, a => InStatsWindow(a, now))
  }

  /** The `GET /stats` answer. */
  datatype AlertStatsReport = AlertStatsReport(
    activeAlerts: nat,
    criticalAlerts: nat,
    last24Hours: seq<Bucket<AlertSeverity>>,
    emergencyContact: string)

  /** `GET /stats`: the active count, the active critical count, and the
      alerts of the last 24 hours grouped by severity. */
  function AlertStats(alerts: seq<Alert>, now: int): (r: AlertStatsReport)
    ensures r.activeAlerts == |Filter(alerts, IsActive)|
    ensures r.criticalAlerts == |Filter(alerts, IsActiveCritical)|
    ensures r.criticalAlerts <= r.activeAlerts
    ensures forall e :: e in r.last24Hours ==> e.count == CountKey(StatsWindow(alerts, now), SeverityOf, e.key) && e.count > 0
    ensures forall v :: CountKey(StatsWindow(alerts, now), SeverityOf, v) > 0 ==>
      Bucket(v, CountKey(StatsWindow(alerts, now), SeverityOf, v)) in r.last24Hours
    ensures forall i, j :: 0 <= i < j < |r.last24Hours| ==> r.last24Hours[i].key != r.last24Hours[j].key
    ensures r.emergencyContact == ROUTE_CONTACT
  {
    FilterMonotone(alerts, IsActiveCritical, IsActive);
    AllAlertSeveritiesComplete();
    GroupKeysDistinct(StatsWindow(alerts, now), SeverityOf, AllAlertSeverities);
    AlertStatsReport(|Filter(alerts, IsActive)|, |Filter(alerts, IsActiveCritical)|,
                     Group(StatsWindow(alerts, now), SeverityOf, AllAlertSeverities), ROUTE_CONTACT)
  }

  /** The per-severity counts of the last 24 hours add up to the number of
      alerts created in that window. */
  lemma StatsWindowTotal(alerts: seq<Alert>, now: int)
    ensures Total(AlertStats(alerts, now).last24Hours) == |StatsWindow(alerts, now)|
  {
    AllAlertSeveritiesComplete();
    GroupPartition(StatsWindow(alerts, now), SeverityOf, AllAlertSeverities);
  }

  // ---------------------------------------------------------------- handlers

  /** The manual creation handler over the store. */
  method ManualCreate(db: Database, b: ManualAlertBody, now: int) returns (status: int)
    modifies db
    ensures var o := ManualCreateStep(old(db.Snapshot()), b, now); db.Snapshot() == o.after && status == o.result
  {
    var checked := NewAlert(ManualInput(b), |db.alerts|, now);
    if checked.Failure? {
      return 500;
    }
    var alert := checked.value;
    var saved := db.InsertAlert(alert);
    if !saved {
      return 500;
    }
    if b.severity == Some("critical") {
      var _ := SendEmergencyNotification(db, alert);
    }
    status := 201;
  }

  /** `findByIdAndUpdate` over the store. */
  method Update(db: Database, id: nat, change: Alert -> Alert) returns (status: int)
    modifies db
    ensures var o := UpdateStep(old(db.Snapshot()), id, change); db.Snapshot() == o.after && status == o.result
  {
    if id >= |db.alerts| {
      return if db.budget.Allows() then 404 else 500;
    }
    var ok := db.UpdateAlert(id, change(db.alerts[id]));
    status := if ok then 200 else 500;
  }

  method Acknowledge(db: Database, id: nat) returns (status: int)
    modifies db
    ensures var o := AcknowledgeStep(old(db.Snapshot()), id); db.Snapshot() == o.after && status == o.result
  {
    status := Update(db, id, AcknowledgedCopy);
  }

  method Resolve(db: Database, id: nat, now: int) returns (status: int)
    modifies db
    ensures var o := ResolveStep(old(db.Snapshot()), id, now); db.Snapshot() == o.after && status == o.result
  {
    status := Update(db, id, a => ResolvedCopy(a, now));
  }
}
