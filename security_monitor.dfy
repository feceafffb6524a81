/** services/securityMonitor.js: the three threshold rules the monitor runs
    over the security-log store, and the one-bit start guard.

    Each rule selects its candidates once, from the logs as they are before
    the rule writes anything (a window, a group by IP or by type, a count and
    a threshold), and then, for each candidate in turn, creates an alert and
    a log. The whole rule sits in a `try`: the first failure ends the rule,
    nothing is raised, and whatever was written before stays. */
module Monitor {
  import opened Util
  import opened Aggregate
  import opened SecurityLogModel
  import opened AlertModel
  import opened Store
  import opened AlertService

  /** Five minutes, in milliseconds. */
  const FAILED_LOGIN_WINDOW: int := 5 * 60 * 1000
  const FAILED_LOGIN_THRESHOLD: nat := 3
  /** One minute, in milliseconds. */
  const REQUEST_WINDOW: int := 60 * 1000
  const REQUEST_THRESHOLD: nat := 50
  /** One day, in milliseconds. */
  const REPORT_WINDOW: int := 24 * 60 * 60 * 1000

  const FAILED_LOGIN_TITLE: string := "\U{26A0}\U{FE0F} Multiple Failed Login Attempts"
  const DDOS_TITLE: string := "\U{1F6A8} Possible DDoS Attack"
  const REPORT_TITLE: string := "\U{1F4CA} Daily Security Report"

  // ---------------------------------------------------------------- candidates

  /** One `$group` bucket that passed the threshold: `_id` and `count`. */
  datatype Candidate = Candidate(ip: string, count: nat)

  /** The buckets of `ips` (in that order) whose count in `window` reaches
      `threshold`. */
  function Qualifying(window: seq<SecurityLog>, ips: seq<string>, threshold: nat): (cs: seq<Candidate>)
    ensures forall c :: c in cs ==> c.ip in ips && c.count == CountKey(window, IpOf, c.ip) && c.count >= threshold
    ensures forall ip :: ip in ips && CountKey(window, IpOf, ip) >= threshold ==>
      Candidate(ip, CountKey(window, IpOf, ip)) in cs
    ensures NoDup(ips) ==> forall i, j :: 0 <= i < j < |cs| ==> cs[i].ip != cs[j].ip
  {
    if ips == [] then []
    else
      var n := CountKey(window, IpOf, ips[0]);
      var rest := Qualifying(window, ips[1..], threshold);
      assert NoDup(ips) ==> NoDup(ips[1..]) && ips[0] !in ips[1..];
      if n >= threshold then [Candidate(ips[0], n)] + rest else rest
  }

  lemma KeysCoverCounts(window: seq<SecurityLog>)
    ensures forall ip :: CountKey(window, IpOf, ip) > 0 ==> ip in Distinct(KeysOf(window, IpOf))
  {
    forall ip | CountKey(window, IpOf, ip) > 0
      ensures ip in Distinct(KeysOf(window, IpOf))
    {
      CountKeyPositive(window, IpOf, ip);
    }
  }

  /** `$group: {_id: '$ipAddress', count: {$sum: 1}}` followed by
      `$match: {count: {$gte: threshold}}`: every IP whose bucket reaches the
      threshold, once, with its count, and no other. */
  function Candidates(window: seq<SecurityLog>, threshold: nat): (cs: seq<Candidate>)
    requires threshold >= 1
    ensures forall c :: c in cs ==> c.count == CountKey(window, IpOf, c.ip) && c.count >= threshold
    ensures forall ip :: CountKey(window, IpOf, ip) >= threshold ==> Candidate(ip, CountKey(window, IpOf, ip)) in cs
    ensures forall i, j :: 0 <= i < j < |cs| ==> cs[i].ip != cs[j].ip
  {
    KeysCoverCounts(window);
    Qualifying(window, Distinct(KeysOf(window, IpOf)), threshold)
  }

  /** A candidate's IP is the address of some log in the window, so stored
      logs (which all carry an address) give non-empty candidate IPs. */
  lemma CandidateIpsPresent(window: seq<SecurityLog>, threshold: nat)
    requires threshold >= 1
    requires forall l :: l in window ==> WellFormedLog(l)
    ensures forall c :: c in Candidates(window, threshold) ==> c.ip != ""
  {
    forall c | c in Candidates(window, threshold)
      ensures c.ip != ""
    {
      CountKeyPositive(window, IpOf, c.ip);
      var ks := KeysOf(window, IpOf);
      var i :| 0 <= i < |ks| && ks[i] == c.ip;
      assert window[i] in window;
    }
  }

  /** When the whole window comes from one address, there is a candidate
      exactly when the window reaches the threshold. */
  lemma {:induction false} SingleSourceCandidates(window: seq<SecurityLog>, ip: string, threshold: nat)
    requires threshold >= 1 && window != []
    requires forall l :: l in window ==> l.ipAddress == ip
    ensures Candidates(window, threshold) == if |window| >= threshold then [Candidate(ip, |window|)] else []
  {
    var ks := KeysOf(window, IpOf);
    assert forall i :: 0 <= i < |window| ==> IpOf(window[i]) == ip by {
      forall i | 0 <= i < |window| ensures IpOf(window[i]) == ip {
        assert window[i] in window;
      }
    }
    CountKeyAll(window, IpOf, ip);
    DistinctConstant(ks, ip);
    var ds := Distinct(ks);
    var cs := Candidates(window, threshold);
    assert cs == Qualifying(window, ds, threshold);
    assert ds[1..] == [];
  }

  // ---------------------------------------------------------------- windows

  /** The `$match` of the failed-login rule. */
  predicate InFailedLoginWindow(l: SecurityLog, now: int) {
    l.logType == FailedLogin && l.timestamp >= now - FAILED_LOGIN_WINDOW
  }

  function FailedLoginWindow(logs: seq<SecurityLog>, now: int): seq<SecurityLog> {
    Filter(logs, l => InFailedLoginWindow(l, now))
  }

  /** The `$match` of the request-rate rule: every type counts. */
  predicate InRequestWindow(l: SecurityLog, now: int) {
    l.timestamp >= now - REQUEST_WINDOW
  }

  function RequestWindow(logs: seq<SecurityLog>, now: int): seq<SecurityLog> {
    Filter(logs, l => InRequestWindow(l, now))
  }

  /** The `$match` of the daily report. */
  predicate InReportWindow(l: SecurityLog, now: int) {
    l.timestamp >= now - REPORT_WINDOW
  }

  function ReportWindow(logs: seq<SecurityLog>, now: int): seq<SecurityLog> {
    Filter(logs, l => InReportWindow(l, now))
  }

  function FailedLoginCandidates(logs: seq<SecurityLog>, now: int): seq<Candidate> {
    Candidates(FailedLoginWindow(logs, now), FAILED_LOGIN_THRESHOLD)
  }

  function RequestCandidates(logs: seq<SecurityLog>, now: int): seq<Candidate> {
    Candidates(RequestWindow(logs, now), REQUEST_THRESHOLD)
  }

  /** Logs that are not in-window failed logins do not change the
      failed-login candidates, wherever they sit in the store. */
  lemma FailedLoginIgnoresOthers(logs: seq<SecurityLog>, extra: seq<SecurityLog>, now: int)
    requires forall l :: l in extra ==> !InFailedLoginWindow(l, now)
    ensures FailedLoginCandidates(logs + extra, now) == FailedLoginCandidates(logs, now)
    ensures FailedLoginCandidates(extra + logs, now) == FailedLoginCandidates(logs, now)
  {
    var p := l => InFailedLoginWindow(l, now);
    FilterAppend(logs, extra, p);
    FilterAppend(extra, logs, p);
    FilterNone(extra, p);
    assert Filter(logs, p) + [] == Filter(logs, p);
    assert [] + Filter(logs, p) == Filter(logs, p);
  }

  /** One more in-window failed login from an address raises exactly that
      address's count, by one. */
  lemma FailedLoginCountsEach(logs: seq<SecurityLog>, l: SecurityLog, now: int, ip: string)
    requires InFailedLoginWindow(l, now)
    ensures CountKey(FailedLoginWindow(logs + [l], now), IpOf, ip)
         == CountKey(FailedLoginWindow(logs, now), IpOf, ip) + (if l.ipAddress == ip then 1 else 0)
  {
    var p := l' => InFailedLoginWindow(l', now);
    var w := Filter(logs, p);
    FilterAppend(logs, [l], p);
    assert Filter([l], p) == [l] by {
      assert [l][1..] == [];
    }
    assert FailedLoginWindow(logs + [l], now) == w + [l];
    CountKeyAppend(w, [l], IpOf, ip);
    assert CountKey([l], IpOf, ip) == (if l.ipAddress == ip then 1 else 0) by {
      assert [l][1..] == [];
    }
  }

  /** Two, or three, failed logins from one address inside the window: the
      first gives no candidate, the second gives exactly that address with
      count 3. */
  lemma FailedLoginThreshold(logs: seq<SecurityLog>, ip: string, now: int)
    requires logs != []
    requires forall l :: l in logs ==> InFailedLoginWindow(l, now) && l.ipAddress == ip
    ensures FailedLoginCandidates(logs, now) == if |logs| >= 3 then [Candidate(ip, |logs|)] else []
  {
    FilterAll(logs, l => InFailedLoginWindow(l, now));
    SingleSourceCandidates(logs, ip, FAILED_LOGIN_THRESHOLD);
  }

  /** Requests from one address inside the last minute: 49 give no candidate,
      50 or more give that address with its count. Logs of every type count. */
  lemma RequestRateThreshold(logs: seq<SecurityLog>, ip: string, now: int)
    requires logs != []
    requires forall l :: l in logs ==> InRequestWindow(l, now) && l.ipAddress == ip
    ensures RequestCandidates(logs, now) == if |logs| >= 50 then [Candidate(ip, |logs|)] else []
  {
    FilterAll(logs, l => InRequestWindow(l, now));
    SingleSourceCandidates(logs, ip, REQUEST_THRESHOLD);
  }

  // ---------------------------------------------------------------- the two rules

  /** The two per-IP rules. */
  datatype Rule = FailedLogins | HighRequestRate {
    /** Store writes one candidate takes when nothing fails: the alert, its
        notification flag when it is critical, and the log. */
    function Writes(): nat {
      if FailedLogins? then 2 else 3
    }
  }

  // ---------------------------------------------------------------- a pass in general

  /** Store writes `m` candidates take when each takes `w` and nothing fails. */
  function Cost(w: nat, m: nat): nat {
    if m == 0 then 0 else w + Cost(w, m - 1)
  }

  /** What one candidate of a pass leaves when nothing fails: it takes
      `writes` store writes and leaves the alert `alertOf(c, id)` at position
      `id`, the log `logOf(c)` and, when `notify` holds, one emergency
      message for the alert. */
  datatype Plan = Plan(writes: nat, alertOf: (Candidate, nat) -> Alert, logOf: Candidate -> SecurityLog, notify: bool)

  /** The emergency messages a candidate's alert produces. */
  function Notices(p: Plan, c: Candidate, id: nat): seq<Notice> {
    if p.notify then [NoticeFor(p.alertOf(c, id))] else []
  }

  function PlanAlerts(p: Plan, cs: seq<Candidate>, id: nat): seq<Alert>
    decreases |cs|
  {
    if cs == [] then [] else [p.alertOf(cs[0], id)] + PlanAlerts(p, cs[1..], id + 1)
  }

  function PlanLogs(p: Plan, cs: seq<Candidate>): seq<SecurityLog>
    decreases |cs|
  {
    if cs == [] then [] else [p.logOf(cs[0])] + PlanLogs(p, cs[1..])
  }

  function PlanNotices(p: Plan, cs: seq<Candidate>, id: nat): seq<Notice>
    decreases |cs|
  {
    if cs == [] then [] else Notices(p, cs[0], id) + PlanNotices(p, cs[1..], id + 1)
  }

  /** The stores after every candidate of `cs` went through without a
      failure, one after the other. */
  function Completed(p: Plan, s: Stores, cs: seq<Candidate>): Stores
    requires s.budget.Covers(Cost(p.writes, |cs|))
    decreases |cs|
  {
    if cs == [] then s
    else
      SpendCons(s.budget, p.writes, |cs|);
      Completed(p, Advanced(p, s, cs[0]), cs[1..])
  }

  /** The stores after one candidate went through without a failure. */
  function Advanced(p: Plan, s: Stores, c: Candidate): Stores
    requires s.budget.Covers(p.writes)
  {
    s.(alerts := s.alerts + [p.alertOf(c, |s.alerts|)],
       logs := s.logs + [p.logOf(c)],
       sent := s.sent + Notices(p, c, |s.alerts|),
       budget := s.budget.SpendMany(p.writes))
  }

  /** The stores after the store gave out in the middle of candidate `c`,
      with `left` writes still possible (fewer than a candidate needs): no
      alert at all, or the alert (not flagged as notified unless its flag
      was saved), and never the log. */
  function Interrupted(p: Plan, s: Stores, c: Candidate, left: nat): Stores {
    if left == 0 then s
    else
      var a := p.alertOf(c, |s.alerts|);
      s.(alerts := s.alerts + [a.(notificationSent := a.notificationSent && left >= 2)],
         sent := s.sent + Notices(p, c, |s.alerts|),
         budget := Remaining(0))
  }

  /** A loop over the candidates whose body is `item`; the body's `result`
      is false when it threw, which ends the loop. */
  function Pass(item: (Stores, Candidate) -> Outcome<bool>, s: Stores, cs: seq<Candidate>): Stores
    decreases |cs|
  {
    if cs == [] then s
    else
      var o := item(s, cs[0]);
      if o.result then Pass(item, o.after, cs[1..]) else o.after
  }

  /** The loop body writes what `p` says for every candidate of `cs`:
      everything when the budget covers it, and otherwise the part that
      `Interrupted` describes, after which it throws. */
  ghost predicate Follows(item: (Stores, Candidate) -> Outcome<bool>, p: Plan, cs: seq<Candidate>) {
    forall s: Stores, c :: c in cs ==>
      && (s.budget.Covers(p.writes) ==> item(s, c) == Outcome(Advanced(p, s, c), true))
      && (!s.budget.Covers(p.writes) ==> item(s, c) == Outcome(Interrupted(p, s, c, s.budget.n), false))
  }

  lemma FollowsTail(item: (Stores, Candidate) -> Outcome<bool>, p: Plan, cs: seq<Candidate>)
    requires cs != [] && Follows(item, p, cs)
    ensures Follows(item, p, cs[1..])
  {
    assert forall c :: c in cs[1..] ==> c in cs;
  }

  /** Spending one candidate's writes and then `m - 1` candidates' is
      spending `m` candidates'. */
  lemma SpendCons(b: WriteBudget, w: nat, m: nat)
    requires m > 0 && b.Covers(Cost(w, m))
    ensures b.Covers(w) && b.SpendMany(w).Covers(Cost(w, m - 1))
    ensures b.SpendMany(w).SpendMany(Cost(w, m - 1)) == b.SpendMany(Cost(w, m))
  {
    SpendManyAdd(b, w, Cost(w, m - 1));
  }

  /** Appending the first candidate's alert, then the rest's, appends all
      of them, each numbered by its position. */
  lemma PlanAlertsAppend(p: Plan, xs: seq<Alert>, cs: seq<Candidate>)
    requires cs != []
    ensures var ys := xs + [p.alertOf(cs[0], |xs|)];
      ys + PlanAlerts(p, cs[1..], |ys|) == xs + PlanAlerts(p, cs, |xs|)
  {
    var head, tail := [p.alertOf(cs[0], |xs|)], PlanAlerts(p, cs[1..], |xs| + 1);
    assert PlanAlerts(p, cs, |xs|) == head + tail;
    AppendAssoc(xs, head, tail);
  }

  /** The same for the logs. */
  lemma PlanLogsAppend(p: Plan, xs: seq<SecurityLog>, cs: seq<Candidate>)
    requires cs != []
    ensures (xs + [p.logOf(cs[0])]) + PlanLogs(p, cs[1..]) == xs + PlanLogs(p, cs)
  {
    var head, tail := [p.logOf(cs[0])], PlanLogs(p, cs[1..]);
    assert PlanLogs(p, cs) == head + tail;
    AppendAssoc(xs, head, tail);
  }

  /** The same for the emergency messages, numbered by the alerts' positions. */
  lemma PlanNoticesAppend(p: Plan, xs: seq<Notice>, alerts: seq<Alert>, cs: seq<Candidate>)
    requires cs != []
    ensures var ys := alerts + [p.alertOf(cs[0], |alerts|)];
      (xs + Notices(p, cs[0], |alerts|)) + PlanNotices(p, cs[1..], |ys|) == xs + PlanNotices(p, cs, |alerts|)
  {
    var head, tail := Notices(p, cs[0], |alerts|), PlanNotices(p, cs[1..], |alerts| + 1);
    assert PlanNotices(p, cs, |alerts|) == head + tail;
    AppendAssoc(xs, head, tail);
  }

  lemma {:induction false} CompletedAlerts(p: Plan, s: Stores, cs: seq<Candidate>)
    requires s.budget.Covers(Cost(p.writes, |cs|))
    ensures Completed(p, s, cs).alerts == s.alerts + PlanAlerts(p, cs, |s.alerts|)
    decreases |cs|
  {
    if cs == [] {
      assert s.alerts + [] == s.alerts;
    } else {
      SpendCons(s.budget, p.writes, |cs|);
      CompletedAlerts(p, Advanced(p, s, cs[0]), cs[1..]);
      PlanAlertsAppend(p, s.alerts, cs);
    }
  }

  lemma {:induction false} CompletedLogs(p: Plan, s: Stores, cs: seq<Candidate>)
    requires s.budget.Covers(Cost(p.writes, |cs|))
    ensures Completed(p, s, cs).logs == s.logs + PlanLogs(p, cs)
    decreases |cs|
  {
    if cs == [] {
      assert s.logs + [] == s.logs;
    } else {
      SpendCons(s.budget, p.writes, |cs|);
      CompletedLogs(p, Advanced(p, s, cs[0]), cs[1..]);
      PlanLogsAppend(p, s.logs, cs);
    }
  }

  lemma {:induction false} CompletedSent(p: Plan, s: Stores, cs: seq<Candidate>)
    requires s.budget.Covers(Cost(p.writes, |cs|))
    ensures Completed(p, s, cs).sent == s.sent + PlanNotices(p, cs, |s.alerts|)
    decreases |cs|
  {
    if cs == [] {
      assert s.sent + [] == s.sent;
    } else {
      SpendCons(s.budget, p.writes, |cs|);
      CompletedSent(p, Advanced(p, s, cs[0]), cs[1..]);
      PlanNoticesAppend(p, s.sent, s.alerts, cs);
    }
  }

  lemma {:induction false} CompletedBudget(p: Plan, s: Stores, cs: seq<Candidate>)
    requires s.budget.Covers(Cost(p.writes, |cs|))
    ensures Completed(p, s, cs).budget == s.budget.SpendMany(Cost(p.writes, |cs|))
    ensures Completed(p, s, cs).users == s.users
    decreases |cs|
  {
    if cs != [] {
      SpendCons(s.budget, p.writes, |cs|);
      CompletedBudget(p, Advanced(p, s, cs[0]), cs[1..]);
    }
  }

  /** A completed run appends, after the earlier records, each candidate's
      alert (numbered by its position) and its log, in candidate order, and
      the notices of those alerts; it spends one candidate's writes per
      candidate and leaves the accounts alone. */
  lemma CompletedContents(p: Plan, s: Stores, cs: seq<Candidate>)
    requires s.budget.Covers(Cost(p.writes, |cs|))
    ensures var t := Completed(p, s, cs);
      && t.alerts == s.alerts + PlanAlerts(p, cs, |s.alerts|)
      && t.logs == s.logs + PlanLogs(p, cs)
      && t.sent == s.sent + PlanNotices(p, cs, |s.alerts|)
      && t.users == s.users
      && t.budget == s.budget.SpendMany(Cost(p.writes, |cs|))
  {
    CompletedAlerts(p, s, cs);
    CompletedLogs(p, s, cs);
    CompletedSent(p, s, cs);
    CompletedBudget(p, s, cs);
  }

  /** With budget for every write, a pass whose body follows `p` completes
      every candidate. */
  lemma {:induction false} PassCompletes(item: (Stores, Candidate) -> Outcome<bool>, p: Plan, s: Stores, cs: seq<Candidate>)
    requires Follows(item, p, cs)
    requires s.budget.Covers(Cost(p.writes, |cs|))
    ensures Pass(item, s, cs) == Completed(p, s, cs)
    decreases |cs|
  {
    if cs != [] {
      SpendCons(s.budget, p.writes, |cs|);
      assert cs[0] in cs;
      FollowsTail(item, p, cs);
      PassCompletes(item, p, Advanced(p, s, cs[0]), cs[1..]);
    }
  }

  /** A budget too small for `m` candidates is `k` candidates' worth of
      writes and `r` writes more, with `k < m` and `r` short of one more
      candidate. */
  lemma {:induction false} SplitBudget(w: nat, n: nat, m: nat) returns (k: nat, r: nat)
    requires n < Cost(w, m)
    ensures k < m && r < w && n == Cost(w, k) + r
    decreases m
  {
    if n < w {
      k, r := 0, n;
    } else {
      var k1, r1 := SplitBudget(w, n - w, m - 1);
      k, r := k1 + 1, r1;
    }
  }

  /** When the store gives out with `k` candidates' worth of writes and `r`
      more left, the first `k` candidates are complete, candidate `k` stops
      part-way, and no later candidate is touched: nothing is raised, and
      nothing written before the failure is undone. */
  lemma {:induction false} PassInterrupted(item: (Stores, Candidate) -> Outcome<bool>, p: Plan, s: Stores, cs: seq<Candidate>, k: nat, r: nat)
    requires Follows(item, p, cs)
    requires k < |cs| && r < p.writes
    requires s.budget == Remaining(Cost(p.writes, k) + r)
    ensures s.budget.Covers(Cost(p.writes, k))
    ensures Pass(item, s, cs) == Interrupted(p, Completed(p, s, cs[..k]), cs[k], r)
    decreases k
  {
    assert cs[0] in cs;
    if k == 0 {
      assert cs[..0] == [];
    } else {
      SpendCons(s.budget, p.writes, k);
      var s1 := Advanced(p, s, cs[0]);
      FollowsTail(item, p, cs);
      assert s1.budget == Remaining(Cost(p.writes, k - 1) + r);
      PassInterrupted(item, p, s1, cs[1..], k - 1, r);
      var q := cs[..k];
      assert q[0] == cs[0] && q[1..] == cs[1..][..k - 1] && cs[1..][k - 1] == cs[k];
    }
  }

  /** Whatever the budget, a pass whose body follows `p` appends only the
      logs of a prefix of the candidates, in order. */
  lemma PassLogs(item: (Stores, Candidate) -> Outcome<bool>, p: Plan, s: Stores, cs: seq<Candidate>)
    requires Follows(item, p, cs)
    ensures exists k :: 0 <= k <= |cs| && Pass(item, s, cs).logs == s.logs + PlanLogs(p, cs[..k])
  {
    if s.budget.Covers(Cost(p.writes, |cs|)) {
      PassCompletes(item, p, s, cs);
      CompletedLogs(p, s, cs);
      assert cs[..|cs|] == cs;
    } else {
      var k, r := SplitBudget(p.writes, s.budget.n, |cs|);
      PassInterrupted(item, p, s, cs, k, r);
      CompletedLogs(p, s, cs[..k]);
    }
  }

  // ---------------------------------------------------------------- rule effects

  function RuleCandidates(rule: Rule, logs: seq<SecurityLog>, now: int): seq<Candidate> {
    match rule
    case FailedLogins => FailedLoginCandidates(logs, now)
    case HighRequestRate => RequestCandidates(logs, now)
  }

  function RuleMessage(rule: Rule, c: Candidate): string {
    match rule
    case FailedLogins => "IP " + c.ip + " has " + NatToString(c.count) + " failed login attempts in the last 5 minutes"
    case HighRequestRate => "IP " + c.ip + " made " + NatToString(c.count) + " requests in the last minute"
  }

  function RuleMetadata(rule: Rule, c: Candidate): map<string, string> {
    match rule
    case FailedLogins => map["ipAddress" := c.ip, "attempts" := NatToString(c.count)]
    case HighRequestRate => map["ipAddress" := c.ip, "requestCount" := NatToString(c.count)]
  }

  function RuleDescription(rule: Rule, c: Candidate): string {
    match rule
    case FailedLogins => "Blocked due to " + NatToString(c.count) + " failed login attempts"
    case HighRequestRate => "Potential DDoS: " + NatToString(c.count) + " requests per minute"
  }

  /** What the rule hands to `createAlert` for a candidate. */
  function RuleAlertInput(rule: Rule, c: Candidate): AlertInput {
    match rule
    case FailedLogins =>
      AlertInput(Some(FAILED_LOGIN_TITLE), Some(RuleMessage(rule, c)), Some("security"), Some("warning"),
                 None, None, None, RuleMetadata(rule, c))
    case HighRequestRate =>
      AlertInput(Some(DDOS_TITLE), Some(RuleMessage(rule, c)), Some("security"), Some("critical"),
                 None, None, None, RuleMetadata(rule, c))
  }

  /** What the rule hands to `SecurityLog.create` for a candidate. */
  function RuleLogInput(rule: Rule, c: Candidate): LogInput {
    match rule
    case FailedLogins =>
      LogInput(Some("firewall_block"), Some("high"), Some(c.ip), None, None, Some(RuleDescription(rule, c)))
    case HighRequestRate =>
      LogInput(Some("ddos_attempt"), Some("critical"), Some(c.ip), None, None, Some(RuleDescription(rule, c)))
  }

  /** The alert a candidate leaves in the store when all its writes succeed:
      a `security`/`warning` alert for failed logins, a notified
      `security`/`critical` one for a high request rate. */
  function RuleAlert(rule: Rule, c: Candidate, id: nat, now: int): Alert {
    match rule
    case FailedLogins =>
      Alert(id, FAILED_LOGIN_TITLE, RuleMessage(rule, c), Security, Warning, Active, false,
            EMERGENCY_CONTACT, RuleMetadata(rule, c), now, None)
    case HighRequestRate =>
      Alert(id, DDOS_TITLE, RuleMessage(rule, c), Security, AlertSeverity.Critical, Active, true,
            EMERGENCY_CONTACT, RuleMetadata(rule, c), now, None)
  }

  /** The log a candidate leaves: `firewall_block`/`high` or
      `ddos_attempt`/`critical`, for the candidate's address. */
  function RuleLog(rule: Rule, c: Candidate, now: int): SecurityLog {
    match rule
    case FailedLogins =>
      SecurityLog(FirewallBlock, High, c.ip, None, None, Some(RuleDescription(rule, c)), map[], false, now)
    case HighRequestRate =>
      SecurityLog(DdosAttempt, LogSeverity.Critical, c.ip, None, None, Some(RuleDescription(rule, c)), map[], false, now)
  }

  /** What a rule's candidate leaves when nothing fails. */
  function RulePlan(rule: Rule, now: int): Plan {
    Plan(rule.Writes(), (c: Candidate, id: nat) => RuleAlert(rule, c, id, now), (c: Candidate) => RuleLog(rule, c, now), rule == HighRequestRate)
  }

  /** One iteration of the rule's `for` loop; `result` is false when it
      threw, which ends the loop. */
  function RuleItem(rule: Rule, s: Stores, c: Candidate, now: int): Outcome<bool> {
    var a := CreateAlertStep(s, RuleAlertInput(rule, c), now);
    if a.result.Failure? then Outcome(a.after, false)
    else
      var l := CreateLogStep(a.after, RuleLogInput(rule, c), now);
      Outcome(l.after, l.result.Success?)
  }

  /** The rule's loop body as a value. */
  function RuleStep(rule: Rule, now: int): (Stores, Candidate) -> Outcome<bool> {
    (s, c) => RuleItem(rule, s, c, now)
  }

  /** The rule's loop over the candidates, stopping at the first failure. */
  function RulePass(rule: Rule, s: Stores, cs: seq<Candidate>, now: int): Stores {
    Pass(RuleStep(rule, now), s, cs)
  }

  /** One turn of the loop: the first candidate's records, then the rest
      if they were both written. */
  lemma RulePassHead(rule: Rule, s: Stores, cs: seq<Candidate>, now: int)
    requires cs != []
    ensures var o := RuleItem(rule, s, cs[0], now);
      RulePass(rule, s, cs, now) == if o.result then RulePass(rule, o.after, cs[1..], now) else o.after
  {
    assert RuleStep(rule, now)(s, cs[0]) == RuleItem(rule, s, cs[0], now);
  }

  lemma RuleAlertAccepted(rule: Rule, c: Candidate, id: nat, now: int)
    ensures NewAlert(RuleAlertInput(rule, c).(emergencyContact := Some(EMERGENCY_CONTACT)), id, now)
         == Success(RuleAlert(rule, c, id, now).(notificationSent := false))
  {
    var i := RuleAlertInput(rule, c).(emergencyContact := Some(EMERGENCY_CONTACT));
    assert AlertErrors(i) == {};
  }

  lemma RuleLogAccepted(rule: Rule, c: Candidate, now: int)
    requires c.ip != ""
    ensures NewLog(RuleLogInput(rule, c), now) == Success(RuleLog(rule, c, now))
  {
    assert LogErrors(RuleLogInput(rule, c)) == {};
  }

  /** One candidate: with enough budget it leaves exactly its alert and its
      log (and, when critical, one emergency message); otherwise it stops
      part-way as `Interrupted` says. */
  lemma RuleItemEffect(rule: Rule, s: Stores, c: Candidate, now: int)
    requires c.ip != ""
    ensures var o := RuleItem(rule, s, c, now);
      && (s.budget.Covers(rule.Writes()) ==> o.result && o.after == Advanced(RulePlan(rule, now), s, c))
      && (!s.budget.Covers(rule.Writes()) ==> !o.result && o.after == Interrupted(RulePlan(rule, now), s, c, s.budget.n))
  {
    if s.budget.Covers(rule.Writes()) {
      RuleItemAdvances(rule, s, c, now);
    } else {
      RuleItemStops(rule, s, c, now);
    }
  }

  lemma RuleItemAdvances(rule: Rule, s: Stores, c: Candidate, now: int)
    requires c.ip != "" && s.budget.Covers(rule.Writes())
    ensures var o := RuleItem(rule, s, c, now); o.result && o.after == Advanced(RulePlan(rule, now), s, c)
  {
    match rule
    case FailedLogins => FailedLoginItemAdvances(s, c, now);
    case HighRequestRate => RequestItemAdvances(s, c, now);
  }

  lemma FailedLoginItemAdvances(s: Stores, c: Candidate, now: int)
    requires c.ip != "" && s.budget.Covers(2)
    ensures var o := RuleItem(FailedLogins, s, c, now); o.result && o.after == Advanced(RulePlan(FailedLogins, now), s, c)
  {
    RuleAlertAccepted(FailedLogins, c, |s.alerts|, now);
    RuleLogAccepted(FailedLogins, c, now);
  }

  lemma RequestItemAdvances(s: Stores, c: Candidate, now: int)
    requires c.ip != "" && s.budget.Covers(3)
    ensures var o := RuleItem(HighRequestRate, s, c, now); o.result && o.after == Advanced(RulePlan(HighRequestRate, now), s, c)
  {
    var id := |s.alerts|;
    RuleAlertAccepted(HighRequestRate, c, id, now);
    RuleLogAccepted(HighRequestRate, c, now);
    var a := RuleAlert(HighRequestRate, c, id, now);
    assert NoticeFor(a.(notificationSent := false)) == NoticeFor(a);
  }

  lemma RuleItemStops(rule: Rule, s: Stores, c: Candidate, now: int)
    requires c.ip != "" && !s.budget.Covers(rule.Writes())
    ensures var o := RuleItem(rule, s, c, now); !o.result && o.after == Interrupted(RulePlan(rule, now), s, c, s.budget.n)
  {
    if s.budget.n == 0 {
      assert CreateAlertStep(s, RuleAlertInput(rule, c), now).after == s;
    } else {
      match rule
      case FailedLogins => FailedLoginItemStops(s, c, now);
      case HighRequestRate =>
        if s.budget.n == 1 {
          RequestItemStopsUnflagged(s, c, now);
        } else {
          RequestItemStopsFlagged(s, c, now);
        }
    }
  }

  /** The store gives out after the failed-login alert was saved: the log
      is refused. */
  lemma FailedLoginItemStops(s: Stores, c: Candidate, now: int)
    requires c.ip != "" && s.budget == Remaining(1)
    ensures var o := RuleItem(FailedLogins, s, c, now); !o.result && o.after == Interrupted(RulePlan(FailedLogins, now), s, c, 1)
  {
    RuleAlertAccepted(FailedLogins, c, |s.alerts|, now);
  }

  /** The store gives out right after the request-rate alert was saved:
      the message still goes out, the flag and the log are refused. */
  lemma RequestItemStopsUnflagged(s: Stores, c: Candidate, now: int)
    requires c.ip != "" && s.budget == Remaining(1)
    ensures var o := RuleItem(HighRequestRate, s, c, now); !o.result && o.after == Interrupted(RulePlan(HighRequestRate, now), s, c, 1)
  {
    var id := |s.alerts|;
    RuleAlertAccepted(HighRequestRate, c, id, now);
    var a := RuleAlert(HighRequestRate, c, id, now);
    assert NoticeFor(a.(notificationSent := false)) == NoticeFor(a);
  }

  /** The store gives out after the request-rate alert and its flag were
      saved: the log is refused. */
  lemma RequestItemStopsFlagged(s: Stores, c: Candidate, now: int)
    requires c.ip != "" && s.budget == Remaining(2)
    ensures var o := RuleItem(HighRequestRate, s, c, now); !o.result && o.after == Interrupted(RulePlan(HighRequestRate, now), s, c, 2)
  {
    var id := |s.alerts|;
    RuleAlertAccepted(HighRequestRate, c, id, now);
    var a := RuleAlert(HighRequestRate, c, id, now);
    assert NoticeFor(a.(notificationSent := false)) == NoticeFor(a);
  }

  /** The rule's loop body follows its plan for candidates with an address. */
  lemma RuleFollowsPlan(rule: Rule, cs: seq<Candidate>, now: int)
    requires forall c :: c in cs ==> c.ip != ""
    ensures Follows(RuleStep(rule, now), RulePlan(rule, now), cs)
  {
    forall s: Stores, c | c in cs
      ensures var p := RulePlan(rule, now);
        && (s.budget.Covers(p.writes) ==> RuleStep(rule, now)(s, c) == Outcome(Advanced(p, s, c), true))
        && (!s.budget.Covers(p.writes) ==> RuleStep(rule, now)(s, c) == Outcome(Interrupted(p, s, c, s.budget.n), false))
    {
      RuleItemEffect(rule, s, c, now);
    }
  }

  /** With budget for every write, a rule's pass appends, per candidate and
      in order, exactly one alert and then exactly one log, plus the notice
      of each critical alert; users are untouched. */
  lemma RulePassCompletes(rule: Rule, s: Stores, cs: seq<Candidate>, now: int)
    requires forall c :: c in cs ==> c.ip != ""
    requires s.budget.Covers(Cost(rule.Writes(), |cs|))
    ensures RulePass(rule, s, cs, now) == Completed(RulePlan(rule, now), s, cs)
    ensures var t, p := RulePass(rule, s, cs, now), RulePlan(rule, now);
      && t.alerts == s.alerts + PlanAlerts(p, cs, |s.alerts|)
      && t.logs == s.logs + PlanLogs(p, cs)
      && t.sent == s.sent + PlanNotices(p, cs, |s.alerts|)
      && t.users == s.users
  {
    RuleFollowsPlan(rule, cs, now);
    PassCompletes(RuleStep(rule, now), RulePlan(rule, now), s, cs);
    CompletedContents(RulePlan(rule, now), s, cs);
  }

  /** When the store gives out during a rule's pass with `k` candidates'
      worth of writes and `r` more left, the first `k` candidates are
      complete, candidate `k` stops part-way and no later one is touched. */
  lemma RulePassInterrupted(rule: Rule, s: Stores, cs: seq<Candidate>, now: int, k: nat, r: nat)
    requires forall c :: c in cs ==> c.ip != ""
    requires k < |cs| && r < rule.Writes()
    requires s.budget == Remaining(Cost(rule.Writes(), k) + r)
    ensures s.budget.Covers(Cost(rule.Writes(), k))
    ensures RulePass(rule, s, cs, now) == Interrupted(RulePlan(rule, now), Completed(RulePlan(rule, now), s, cs[..k]), cs[k], r)
  {
    RuleFollowsPlan(rule, cs, now);
    PassInterrupted(RuleStep(rule, now), RulePlan(rule, now), s, cs, k, r);
  }

  /** Whatever the budget, a rule's pass only appends the logs of a prefix
      of its candidates, in order. */
  lemma RulePassLogs(rule: Rule, s: Stores, cs: seq<Candidate>, now: int)
    requires forall c :: c in cs ==> c.ip != ""
    ensures exists k :: 0 <= k <= |cs| && RulePass(rule, s, cs, now).logs == s.logs + PlanLogs(RulePlan(rule, now), cs[..k])
  {
    RuleFollowsPlan(rule, cs, now);
    PassLogs(RuleStep(rule, now), RulePlan(rule, now), s, cs);
  }

  /** The failed-login rule's own writes (firewall blocks) never change its
      candidates: evaluating the query again after the pass gives the same
      addresses and counts. */
  lemma FailedLoginPassStable(s: Stores, now: int)
    requires forall l :: l in s.logs ==> WellFormedLog(l)
    ensures var cs := FailedLoginCandidates(s.logs, now);
      FailedLoginCandidates(RulePass(FailedLogins, s, cs, now).logs, now) == cs
  {
    var cs := FailedLoginCandidates(s.logs, now);
    var p := RulePlan(FailedLogins, now);
    assert forall l :: l in FailedLoginWindow(s.logs, now) ==> WellFormedLog(l);
    CandidateIpsPresent(FailedLoginWindow(s.logs, now), FAILED_LOGIN_THRESHOLD);
    RulePassLogs(FailedLogins, s, cs, now);
    var k :| 0 <= k <= |cs| && RulePass(FailedLogins, s, cs, now).logs == s.logs + PlanLogs(p, cs[..k]);
    BlocksAreNotFailedLogins(cs[..k], now);
    FailedLoginIgnoresOthers(s.logs, PlanLogs(p, cs[..k]), now);
  }

  lemma {:induction false} BlocksAreNotFailedLogins(cs: seq<Candidate>, now: int)
    ensures forall l :: l in PlanLogs(RulePlan(FailedLogins, now), cs) ==> l.logType == FirewallBlock
    decreases |cs|
  {
    if cs != [] {
      BlocksAreNotFailedLogins(cs[1..], now);
    }
  }

  /** One candidate keeps the store consistent: its alert goes through
      `createAlert` and its log through `SecurityLog.create`, whether or not
      the store gives out in between. */
  lemma RuleItemKeepsConsistent(rule: Rule, s: Stores, c: Candidate, now: int)
    requires Consistent(s)
    ensures Consistent(RuleItem(rule, s, c, now).after)
  {
    var a := CreateAlertStep(s, RuleAlertInput(rule, c), now);
    CreateAlertKeepsConsistent(s, RuleAlertInput(rule, c), now);
    if a.result.Success? {
      CreateLogKeepsConsistent(a.after, RuleLogInput(rule, c), now);
    }
  }

  /** A whole rule pass keeps the store consistent, however far it gets. */
  lemma {:induction false} RulePassKeepsConsistent(rule: Rule, s: Stores, cs: seq<Candidate>, now: int)
    requires Consistent(s)
    ensures Consistent(RulePass(rule, s, cs, now))
    decreases |cs|
  {
    if cs != [] {
      RulePassHead(rule, s, cs, now);
      RuleItemKeepsConsistent(rule, s, cs[0], now);
      var o := RuleItem(rule, s, cs[0], now);
      if o.result {
        RulePassKeepsConsistent(rule, o.after, cs[1..], now);
      }
    }
  }

  // ---------------------------------------------------------------- daily report

  /** The report's per-type statistics: one bucket per type that occurs. */
  function TypeStats(window: seq<SecurityLog>): seq<Bucket<LogType>> {
    Group(window, TypeOf, AllLogTypes)
  }

  /** The reduce total is the sum of the per-type counts, and that is the
      number of logs in the last 24 hours. */
  lemma TotalIncidentsCountsWindow(logs: seq<SecurityLog>, now: int)
    ensures Total(TypeStats(ReportWindow(logs, now))) == |ReportWindow(logs, now)|
  {
    AllLogTypesComplete();
    GroupPartition(ReportWindow(logs, now), TypeOf, AllLogTypes);
  }

  function ReportAlertInput(total: nat, reportDate: string): AlertInput {
    AlertInput(Some(REPORT_TITLE),
               Some("Total security incidents in last 24 hours: " + NatToString(total)),
               Some("system"), Some("info"), None, None, None,
               map["totalIncidents" := NatToString(total), "reportDate" := reportDate])
  }

  /** `generateDailyReport`; `reportDate` is the clock rendered by
      `toISOString`. */
  function DailyReportStep(s: Stores, now: int, reportDate: string): Stores {
    var total := Total(TypeStats(ReportWindow(s.logs, now)));
    CreateAlertStep(s, ReportAlertInput(total, reportDate), now).after
  }

  /** The report appends exactly one `system`/`info` alert carrying the
      number of logs of the last 24 hours, and sends nothing; if the store is
      down nothing changes and nothing is raised. */
  lemma DailyReportAppendsOne(s: Stores, now: int, reportDate: string)
    ensures var total := |ReportWindow(s.logs, now)|;
      var r := DailyReportStep(s, now, reportDate);
      && (s.budget.Allows() ==>
            r == s.(alerts := s.alerts + [Alert(|s.alerts|, REPORT_TITLE,
                      "Total security incidents in last 24 hours: " + NatToString(total),
                      System, Info, Active, false, EMERGENCY_CONTACT,
                      map["totalIncidents" := NatToString(total), "reportDate" := reportDate],
                      now, None)],
                    budget := s.budget.Spend()))
      && (!s.budget.Allows() ==> r == s)
  {
    TotalIncidentsCountsWindow(s.logs, now);
    var total := |ReportWindow(s.logs, now)|;
    var i := ReportAlertInput(total, reportDate).(emergencyContact := Some(EMERGENCY_CONTACT));
    assert AlertErrors(i) == {};
  }

  /** The daily report keeps the store consistent. */
  lemma DailyReportKeepsConsistent(s: Stores, now: int, reportDate: string)
    requires Consistent(s)
    ensures Consistent(DailyReportStep(s, now, reportDate))
  {
    CreateAlertKeepsConsistent(s, ReportAlertInput(Total(TypeStats(ReportWindow(s.logs, now))), reportDate), now);
  }

  // ---------------------------------------------------------------- the monitor

  class SecurityMonitor {
    var isRunning: bool

    constructor ()
      ensures !isRunning
    {
      isRunning := false;
    }

    /** `start()`: schedules the rules the first time only; `scheduled`
        says whether this call registered them. */
    method Start() returns (scheduled: bool)
      modifies this
      ensures isRunning
      ensures scheduled <==> !old(isRunning)
    {
      if isRunning {
        return false;
      }
      isRunning := true;
      scheduled := true;
    }

    /** The `for` loop shared by the two per-IP rules. */
    method RunRule(db: Database, rule: Rule, cs: seq<Candidate>, now: int)
      modifies db
      ensures db.Snapshot() == RulePass(rule, old(db.Snapshot()), cs, now)
    {
      ghost var s0 := db.Snapshot();
      var i := 0;
      while i < |cs|
        invariant 0 <= i <= |cs|
        invariant RulePass(rule, s0, cs, now) == RulePass(rule, db.Snapshot(), cs[i..], now)
      {
        var item := cs[i];
        ghost var before := db.Snapshot();
        assert cs[i..][0] == item && cs[i..][1..] == cs[i + 1..];
        RulePassHead(rule, before, cs[i..], now);
        ghost var step := RuleItem(rule, before, item, now);
        var created := AlertService.CreateAlert(db, RuleAlertInput(rule, item), now);
        if created.Failure? {
          assert db.Snapshot() == step.after && !step.result;
          return;
        }
        var logged := db.CreateLog(RuleLogInput(rule, item), now);
        if logged.Failure? {
          assert db.Snapshot() == step.after && !step.result;
          return;
        }
        assert db.Snapshot() == step.after && step.result;
        i := i + 1;
      }
    }

    /** `checkSuspiciousActivity()`. */
    method CheckSuspiciousActivity(db: Database, now: int)
      modifies db
      ensures db.Snapshot() == RulePass(FailedLogins, old(db.Snapshot()), FailedLoginCandidates(old(db.logs), now), now)
    {
      var failedLogins := FailedLoginCandidates(db.logs, now);
      RunRule(db, FailedLogins, failedLogins, now);
    }

    /** `checkDDoSPatterns()`. */
    method CheckDDoSPatterns(db: Database, now: int)
      modifies db
      ensures db.Snapshot() == RulePass(HighRequestRate, old(db.Snapshot()), RequestCandidates(old(db.logs), now), now)
    {
      var highRateIPs := RequestCandidates(db.logs, now);
      RunRule(db, HighRequestRate, highRateIPs, now);
    }

    /** `generateDailyReport()`. */
    method GenerateDailyReport(db: Database, now: int, reportDate: string)
      modifies db
      ensures db.Snapshot() == DailyReportStep(old(db.Snapshot()), now, reportDate)
    {
      var stats := TypeStats(ReportWindow(db.logs, now));
      var totalIncidents := Total(stats);
      var _ := AlertService.CreateAlert(db, ReportAlertInput(totalIncidents, reportDate), now);
    }
  }
}
