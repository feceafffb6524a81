/** routes/security.js: the dashboard aggregates, the firewall counts and the
    log query. Each route only reads the log store, so each is a function of
    the log sequence and the clock; none of them writes. */
module SecurityRoutes {
  import opened Util
  import opened Aggregate
  import opened SecurityLogModel

  /** Twenty-four hours, in milliseconds. */
  const DAY: int := 24 * 60 * 60 * 1000

  predicate InLastDay(l: SecurityLog, now: int) {
    l.timestamp >= now - DAY
  }

  /** `{timestamp: {$gte: last24Hours}}`. */
  function LastDay(logs: seq<SecurityLog>, now: int): seq<SecurityLog> {
    Filter(logs, LastDayFilter(now))
  }

  function LastDayFilter(now: int): SecurityLog -> bool {
    l => InLastDay(l, now)
  }

  predicate IsCriticalLog(l: SecurityLog) {
    l.severity == LogSeverity.Critical
  }

  predicate IsBlock(l: SecurityLog) {
    l.logType == FirewallBlock
  }

  /** The in-window `firewall_block` logs. */
  function Blocks(logs: seq<SecurityLog>, now: int): seq<SecurityLog> {
    Filter(LastDay(logs, now), IsBlock)
  }

  /** `SecurityLog.distinct('ipAddress', {type: 'firewall_block', ...})`. */
  function BlockedIps(logs: seq<SecurityLog>, now: int): (ips: seq<string>)
    ensures NoDup(ips)
    ensures forall ip :: ip in ips <==> exists l :: l in logs && InLastDay(l, now) && IsBlock(l) && l.ipAddress == ip
    ensures |ips| <= |Blocks(logs, now)|
  {
    var ips := Distinct(KeysOf(Blocks(logs, now), IpOf));
    assert forall ip :: ip in KeysOf(Blocks(logs, now), IpOf) <==> exists l :: l in Blocks(logs, now) && l.ipAddress == ip by {
      var bs := Blocks(logs, now);
      forall ip ensures ip in KeysOf(bs, IpOf) <==> exists l :: l in bs && l.ipAddress == ip {
        if ip in KeysOf(bs, IpOf) {
          var i :| 0 <= i < |bs| && KeysOf(bs, IpOf)[i] == ip;
          assert bs[i] in bs;
        }
        if exists l :: l in bs && l.ipAddress == ip {
          var l :| l in bs && l.ipAddress == ip;
          var i :| 0 <= i < |bs| && bs[i] == l;
          assert KeysOf(bs, IpOf)[i] == ip;
        }
      }
    }
    ips
  }

  // ---------------------------------------------------------------- dashboard

  /** One entry of `threatsByType`: a type, its in-window count, and how many
      of those are `critical`. */
  datatype ThreatBucket = ThreatBucket(logType: LogType, count: nat, criticalCount: nat)

  /** Adds the critical count to each `$group` bucket. */
  function WithCritical(window: seq<SecurityLog>, g: seq<Bucket<LogType>>): (r: seq<ThreatBucket>)
    ensures |r| == |g|
    ensures forall i :: 0 <= i < |g| ==>
      r[i] == ThreatBucket(g[i].key, g[i].count, CountKey(Filter(window, IsCriticalLog), TypeOf, g[i].key))
  {
    if g == [] then []
    else [ThreatBucket(g[0].key, g[0].count, CountKey(Filter(window, IsCriticalLog), TypeOf, g[0].key))]
         + WithCritical(window, g[1..])
  }

  function ThreatTotal(bs: seq<ThreatBucket>): nat {
    if bs == [] then 0 else bs[0].count + ThreatTotal(bs[1..])
  }

  lemma {:induction false} WithCriticalTotal(window: seq<SecurityLog>, g: seq<Bucket<LogType>>)
    ensures ThreatTotal(WithCritical(window, g)) == Total(g)
  {
    if g != [] {
      WithCriticalTotal(window, g[1..]);
    }
  }

  /** The `GET /dashboard` answer; `lastScan` is the clock. */
  datatype Dashboard = Dashboard(
    totalThreats: nat,
    criticalThreats: nat,
    blockedIPs: nat,
    threatsByType: seq<ThreatBucket>,
    firewallStatus: string,
    lastScan: int)

  /** `GET /dashboard`. */
  function DashboardAt(logs: seq<SecurityLog>, now: int): (d: Dashboard)
    ensures d.totalThreats == |LastDay(logs, now)|
    ensures d.criticalThreats <= d.totalThreats
    ensures d.criticalThreats == |Filter(LastDay(logs, now), IsCriticalLog)|
    ensures forall b :: b in d.threatsByType ==>
      b.count == CountKey(LastDay(logs, now), TypeOf, b.logType) && 0 < b.count && b.criticalCount <= b.count
    ensures forall b :: b in d.threatsByType ==>
      b.criticalCount == CountKey(Filter(LastDay(logs, now), IsCriticalLog), TypeOf, b.logType)
    ensures forall t :: CountKey(LastDay(logs, now), TypeOf, t) > 0 ==>
      exists b :: b in d.threatsByType && b.logType == t
    ensures forall i, j :: 0 <= i < j < |d.threatsByType| ==>
      d.threatsByType[i].logType != d.threatsByType[j].logType
    ensures d.blockedIPs == |set l | l in logs && InLastDay(l, now) && IsBlock(l) :: l.ipAddress|
    ensures d.firewallStatus == "active" && d.lastScan == now
  {
    var window := LastDay(logs, now);
    var byType := WithCritical(window, Group(window, TypeOf, AllLogTypes));
    ThreatBucketsBounded(window);
    var ips := BlockedIps(logs, now);
    BlockedIpsCount(logs, now);
    Dashboard(|window|, |Filter(window, IsCriticalLog)|, |ips|, byType, "active", now)
  }

  /** Every bucket is a type's non-zero count in the window together with its
      critical count, which does not exceed it; every type seen in the window
      has a bucket, and no type has two. */
  lemma ThreatBucketsBounded(window: seq<SecurityLog>)
    ensures forall b :: b in WithCritical(window, Group(window, TypeOf, AllLogTypes)) ==>
      b.count == CountKey(window, TypeOf, b.logType) && 0 < b.count && b.criticalCount <= b.count
    ensures forall b :: b in WithCritical(window, Group(window, TypeOf, AllLogTypes)) ==>
      b.criticalCount == CountKey(Filter(window, IsCriticalLog), TypeOf, b.logType)
    ensures forall t :: CountKey(window, TypeOf, t) > 0 ==>
      exists b :: b in WithCritical(window, Group(window, TypeOf, AllLogTypes)) && b.logType == t
    ensures forall i, j :: 0 <= i < j < |WithCritical(window, Group(window, TypeOf, AllLogTypes))| ==>
      WithCritical(window, Group(window, TypeOf, AllLogTypes))[i].logType
        != WithCritical(window, Group(window, TypeOf, AllLogTypes))[j].logType
  {
    var g := Group(window, TypeOf, AllLogTypes);
    var byType := WithCritical(window, g);
    forall b | b in byType
      ensures b.count == CountKey(window, TypeOf, b.logType) && 0 < b.count && b.criticalCount <= b.count
      ensures b.criticalCount == CountKey(Filter(window, IsCriticalLog), TypeOf, b.logType)
    {
      var i :| 0 <= i < |byType| && byType[i] == b;
      assert g[i] in g;
      CountKeyFilter(window, IsCriticalLog, TypeOf, g[i].key);
    }
    AllLogTypesComplete();
    forall t | CountKey(window, TypeOf, t) > 0
      ensures exists b :: b in byType && b.logType == t
    {
      var i :| 0 <= i < |g| && g[i] == Bucket(t, CountKey(window, TypeOf, t));
      assert byType[i] in byType;
    }
    GroupKeysDistinct(window, TypeOf, AllLogTypes);
  }

  /** The number of distinct blocked IPs of the last day. */
  lemma BlockedIpsCount(logs: seq<SecurityLog>, now: int)
    ensures |BlockedIps(logs, now)| == |set l | l in logs && InLastDay(l, now) && IsBlock(l) :: l.ipAddress|
  {
    var ips := BlockedIps(logs, now);
    NoDupCard(ips);
    assert (set ip | ip in ips) == (set l | l in logs && InLastDay(l, now) && IsBlock(l) :: l.ipAddress);
  }

  /** The `threatsByType` counts add up to `totalThreats`. */
  lemma DashboardTypesTotal(logs: seq<SecurityLog>, now: int)
    ensures ThreatTotal(DashboardAt(logs, now).threatsByType) == DashboardAt(logs, now).totalThreats
  {
    var window := LastDay(logs, now);
    WithCriticalTotal(window, Group(window, TypeOf, AllLogTypes));
    AllLogTypesComplete();
    GroupPartition(window, TypeOf, AllLogTypes);
  }

  /** The critical counts of the buckets add up to `criticalThreats`. */
  lemma DashboardCriticalTotal(logs: seq<SecurityLog>, now: int)
    ensures CriticalTotal(DashboardAt(logs, now).threatsByType) == DashboardAt(logs, now).criticalThreats
  {
    var window := LastDay(logs, now);
    var g := Group(window, TypeOf, AllLogTypes);
    var crit := Filter(window, IsCriticalLog);
    AllLogTypesComplete();
    CriticalTotalOfGroup(window, AllLogTypes);
    assert forall x :: x in crit ==> TypeOf(x) in AllLogTypes;
    SumCountsPartition(crit, TypeOf, AllLogTypes);
  }

  function CriticalTotal(bs: seq<ThreatBucket>): nat {
    if bs == [] then 0 else bs[0].criticalCount + CriticalTotal(bs[1..])
  }

  /** A type missing from the groups has no critical logs either, so the
      buckets' critical counts add up over all the types. */
  lemma {:induction false} CriticalTotalOfGroup(window: seq<SecurityLog>, ts: seq<LogType>)
    ensures CriticalTotal(WithCritical(window, Group(window, TypeOf, ts)))
         == SumCounts(Filter(window, IsCriticalLog), TypeOf, ts)
  {
    if ts != [] {
      CriticalTotalOfGroup(window, ts[1..]);
      var n := CountKey(window, TypeOf, ts[0]);
      var rest := Group(window, TypeOf, ts[1..]);
      var c := CountKey(Filter(window, IsCriticalLog), TypeOf, ts[0]);
      if n > 0 {
        assert Group(window, TypeOf, ts) == [Bucket(ts[0], n)] + rest;
        assert WithCritical(window, [Bucket(ts[0], n)] + rest)[1..] == WithCritical(window, rest);
      } else {
        CountKeyFilter(window, IsCriticalLog, TypeOf, ts[0]);
        assert Group(window, TypeOf, ts) == rest;
      }
    }
  }

  // ---------------------------------------------------------------- firewall

  /** A rule as listed by `GET /firewall`. */
  datatype FirewallRule = FirewallRule(name: string, status: string, description: string)

  const FIREWALL_RULES: seq<FirewallRule> := [
    FirewallRule("Rate Limiting", "active", "100 requests per 15 minutes"),
    FirewallRule("SQL Injection Protection", "active", "Blocks malicious SQL patterns"),
    FirewallRule("XSS Protection", "active", "Prevents cross-site scripting"),
    FirewallRule("DDoS Protection", "active", "Monitors for DDoS patterns")
  ]

  datatype FirewallStatus = FirewallStatus(status: string, blockedRequests: nat, blockedIPs: nat, rules: seq<FirewallRule>)

  /** `GET /firewall`. */
  function FirewallAt(logs: seq<SecurityLog>, now: int): (f: FirewallStatus)
    ensures f.blockedRequests == |Blocks(logs, now)|
    ensures f.blockedIPs <= f.blockedRequests
    ensures f.blockedIPs == DashboardAt(logs, now).blockedIPs
    ensures f.status == "active" && f.rules == FIREWALL_RULES && |f.rules| == 4
  {
    var ips := BlockedIps(logs, now);
    NoDupCard(ips);
    assert (set ip | ip in ips) == (set l | l in logs && InLastDay(l, now) && IsBlock(l) :: l.ipAddress);
    FirewallStatus("active", |Blocks(logs, now)|, |ips|, FIREWALL_RULES)
  }

  /** A log appended to the store adds at most its own IP to the blocked
      IPs, and adds it exactly when it is an in-window block. */
  lemma BlockedIpsAppend(logs: seq<SecurityLog>, l: SecurityLog, now: int)
    ensures forall ip :: ip in BlockedIps(logs + [l], now) <==>
      ip in BlockedIps(logs, now) || (IsBlock(l) && InLastDay(l, now) && ip == l.ipAddress)
  {
    forall ip | ip in BlockedIps(logs + [l], now)
      ensures ip in BlockedIps(logs, now) || (IsBlock(l) && InLastDay(l, now) && ip == l.ipAddress)
    {
      var m :| m in logs + [l] && InLastDay(m, now) && IsBlock(m) && m.ipAddress == ip;
      if m != l {
        assert m in logs;
      }
    }
    forall ip | ip in BlockedIps(logs, now) ensures ip in BlockedIps(logs + [l], now) {
      var m :| m in logs && InLastDay(m, now) && IsBlock(m) && m.ipAddress == ip;
      assert m in logs + [l];
    }
    assert l in logs + [l];
  }

  /** One more in-window block from an IP not blocked before raises both
      the blocked-request count and the blocked-IP count by one. */
  lemma FirewallNewIp(logs: seq<SecurityLog>, l: SecurityLog, now: int)
    requires IsBlock(l) && InLastDay(l, now)
    requires forall m :: m in logs && InLastDay(m, now) && IsBlock(m) ==> m.ipAddress != l.ipAddress
    ensures FirewallAt(logs + [l], now).blockedRequests == FirewallAt(logs, now).blockedRequests + 1
    ensures FirewallAt(logs + [l], now).blockedIPs == FirewallAt(logs, now).blockedIPs + 1
  {
    FilterAppend(logs, [l], LastDayFilter(now));
    FilterAll([l], LastDayFilter(now));
    assert LastDay(logs + [l], now) == LastDay(logs, now) + [l];
    FilterAppend(LastDay(logs, now), [l], IsBlock);
    FilterAll([l], IsBlock);
    assert Blocks(logs + [l], now) == Blocks(logs, now) + [l];
    BlockedIpsAppend(logs, l, now);
    NoDupOneMore(BlockedIps(logs + [l], now), BlockedIps(logs, now), l.ipAddress);
  }

  // ---------------------------------------------------------------- logs

  predicate LogMatches(l: SecurityLog, severity: Option<string>, logType: Option<string>) {
    Requested(severity, LogSeverityName(l.severity)) && Requested(logType, LogTypeName(l.logType))
  }

  function LogMatcher(severity: Option<string>, logType: Option<string>): SecurityLog -> bool {
    l => LogMatches(l, severity, logType)
  }

  /** `GET /logs`: `find(query).sort({timestamp: -1}).limit(limit)`. */
  function QueryLogs(logs: seq<SecurityLog>, limit: Option<int>, severity: Option<string>, logType: Option<string>): (r: seq<SecurityLog>)
    ensures forall l :: l in r ==> l in logs && LogMatches(l, severity, logType)
    ensures SortedDesc(r, TimestampOf)
    ensures |r| == PageLimit(limit).Cap(|Filter(logs, LogMatcher(severity, logType))|)
    ensures forall l, m :: l in logs && LogMatches(l, severity, logType) && l !in r && m in r ==> l.timestamp <= m.timestamp
    ensures multiset(r) <= multiset(Filter(logs, LogMatcher(severity, logType)))
  {
    var p := LogMatcher(severity, logType);
    var r := TopN(logs, p, TimestampOf, PageLimit(limit));
    assert forall l :: l in r ==> l in logs && LogMatches(l, severity, logType) by {
      forall l | l in r ensures l in logs && LogMatches(l, severity, logType) {
        assert p(l);
      }
    }
    assert forall l, m :: l in logs && LogMatches(l, severity, logType) && l !in r && m in r ==> l.timestamp <= m.timestamp by {
      forall l, m | l in logs && LogMatches(l, severity, logType) && l !in r && m in r
        ensures l.timestamp <= m.timestamp
      {
        assert p(l);
        assert TimestampOf(l) <= TimestampOf(m);
      }
    }
    r
  }

  /** When the limit does not cut the result, a log is returned exactly when
      it matches every filter that is given. */
  lemma QueryLogsComplete(logs: seq<SecurityLog>, limit: Option<int>, severity: Option<string>, logType: Option<string>)
    requires PageLimit(limit).Cap(|Filter(logs, LogMatcher(severity, logType))|) == |Filter(logs, LogMatcher(severity, logType))|
    ensures forall l :: l in QueryLogs(logs, limit, severity, logType) <==> l in logs && LogMatches(l, severity, logType)
  {
    SameMultiset(QueryLogs(logs, limit, severity, logType), Filter(logs, LogMatcher(severity, logType)));
  }
}
