# Cyber Security Shield — a verified model of its core

Cyber Security Shield is an Express/MongoDB service. It records security
events (`SecurityLog`) and raises alerts (`Alert`). An emergency
notification goes out for every critical alert. Logins are guarded by an
account lockout. A background monitor turns bursts of failed logins and of
requests from one IP address into firewall blocks and alerts. This
project models that core in Dafny and proves what it promises:

- the two document models and their validation, with defaults and enums
  (`AlertModel`, `SecurityLogModel`);
- the collections as a value, `Store.Stores`, and as mutable state, the
  `Store.Database` class. The methods that create documents are proved
  equal to a step function on the value; `Commit` and `Emit` are specified
  directly by the fields they update. A store that goes down is modelled as a
  write budget: each write spends one unit, and once the budget is
  exhausted every further write fails;
- the alert service: alert creation with the forced emergency contact, and
  the emergency notification (`AlertService`);
- the security monitor's three jobs. A pass over its candidates is
  modelled both as a loop over the database (`Monitor.SecurityMonitor`) and
  as a pure replay (`Monitor.RulePass`) (`Monitor`). The replay is the
  general loop `Monitor.Pass` with the rule's body. Its properties are
  proved for any body that writes what a `Monitor.Plan` says for each
  candidate, and each rule's body is proved to do so;
- registration and login with the lockout (`AuthRoutes`);
- the alert routes: list, manual create, acknowledge, resolve and stats
  (`AlertRoutes`);
- the security routes: dashboard, log query and firewall status
  (`SecurityRoutes`);
- the authentication middleware, as a decision function and as an
  `Exchange` class that holds the request and response fields it sets
  (`AuthMiddleware`);
- the two formatting helpers of the dashboard page (`AppFormat`);
- shared sequence machinery: filter, count by key, group with totals,
  distinct, sort descending, and the cursor limit (`Aggregate`, `Util`).

The model follows the code where a stated design intent differs from it:

- A login against a locked account answers 423 and raises a warning
  alert, but it writes no security log (routes/auth.js:73-81).
- Acknowledging a resolved alert sets it back to `acknowledged` and keeps
  its `resolvedAt` (routes/alerts.js:55-63). `AlertRoutes.AcknowledgeAfterResolve`
  states this.
- `sendEmergencyNotification` has no already-sent guard: it sends again
  for an alert whose flag is set (services/alertService.js:26-50).
  `AlertService.NotifyHasNoGuard` states this.

## Model

| member | source | states |
|---|---|---|
| SecurityLogModel.ParseLogType | models/SecurityLog.js:4-8 | a type string is accepted exactly when it names one of the seven enum values, and that value's name is the string |
| SecurityLogModel.ParseLogSeverity | models/SecurityLog.js:9-13 | a severity string is accepted exactly when it names one of the four levels |
| SecurityLogModel.NewLog | models/SecurityLog.js:4-35 | validation fails exactly when the type or the IP address is missing or invalid, or the severity is invalid, and reports those fields; otherwise the log has the given fields, severity `medium` by default, `resolved` false and the current timestamp |
| SecurityLogModel.AllLogTypesComplete | models/SecurityLog.js:6 | the list of log types holds each of the seven types exactly once |
| AlertModel.ParseAlertType | models/Alert.js:12-16 | an alert type string is accepted exactly when it names one of the enum values |
| AlertModel.ParseAlertSeverity | models/Alert.js:17-21 | a severity string is accepted exactly when it names one of the four levels |
| AlertModel.ParseStatus | models/Alert.js:22-26 | a status string is accepted exactly when it is `active`, `acknowledged` or `resolved` |
| AlertModel.NewAlert | models/Alert.js:4-43 | validation fails exactly when title, message or type is missing or an enum value is invalid; otherwise every given field is kept and every missing one takes its default |
| AlertModel.NewAlertDefaults | models/Alert.js:17-43 | an alert given only title, message and type is `warning`, `active`, not notified, has the default contact `7004398297`, empty metadata, and was created now |
| AlertModel.AllAlertSeveritiesComplete | models/Alert.js:19 | the list of severities holds each of the four levels exactly once |
| Util.NatToString | routes/auth.js:107 | the decimal text of a count is non-empty and all digits |
| Util.ParseNatToString | routes/auth.js:107 | reading the decimal text back gives the count, so different counts print differently |
| Store.CreateLogStep | models/SecurityLog.js:4-35 | `SecurityLog.create`: an invalid log is refused with its errors and nothing written; a valid one is appended when the store takes the write, and the store is unchanged when it does not |
| Store.FindByEmail | routes/auth.js:58 | `User.findOne({email})` finds the first account with that e-mail, and none when no account has it |
| Store.Database.CreateLog | models/SecurityLog.js:4-35 | the database after `SecurityLog.create` is `CreateLogStep` of the database before |
| AlertService.NotifyStep | services/alertService.js:26-50 | the message always goes to the emergency channel; the result is true exactly when the stored alert exists and the store takes the save; only that alert's `notificationSent` changes |
| AlertService.CreateAlertStep | services/alertService.js:5-24 | creation never touches logs or users, and a store that is down leaves everything unchanged and reports failure |
| AlertService.CreateAlertStoresFields | services/alertService.js:7-12 | a created alert is appended at its own id with the validated fields and the contact `7004398297`, whatever contact the caller gave |
| AlertService.CreateAlertNotifiesIffCritical | services/alertService.js:15-17 | one notice is sent exactly when the alert is `critical`, and then the stored flag is set when the store takes both writes |
| AlertService.CreateAlertRethrows | services/alertService.js:20-23 | a validation error or a refused save is raised to the caller, and nothing is written |
| AlertService.CreateAlertKeepsConsistent | services/alertService.js:5-24 | creating an alert keeps ids equal to positions and every alert titled |
| AlertService.NotifyHasNoGuard | services/alertService.js:26-45 | notifying an already-notified alert sends the message again and leaves the alert as it was |
| AlertService.SendEmergencyNotification | services/alertService.js:26-50 | the database after the call is `NotifyStep` of the database before, and the returned flag is its result |
| AlertService.CreateAlert | services/alertService.js:5-24 | the database after the call is `CreateAlertStep` of the database before, and so is the result |
| Monitor.Qualifying | services/securityMonitor.js:44-55 | the candidates are exactly the listed IPs whose count in the window reaches the threshold, each with its count, without repeats when the listed IPs are distinct |
| Monitor.KeysCoverCounts | services/securityMonitor.js:44-50 | every IP that occurs in the window is among the grouped keys |
| Monitor.Candidates | services/securityMonitor.js:44-55 | grouping by IP and matching `count >= threshold` yields exactly the IPs at or over the threshold, with their counts, each once |
| Monitor.CandidateIpsPresent | services/securityMonitor.js:44-55 | a candidate's IP is never empty when the logs are valid |
| Monitor.SingleSourceCandidates | services/securityMonitor.js:44-55 | when every log comes from one IP, that IP is a candidate exactly when the window holds at least the threshold |
| Monitor.FailedLoginIgnoresOthers | services/securityMonitor.js:34-42 | logs that are not failed logins of the last 5 minutes do not change the failed-login candidates |
| Monitor.FailedLoginCountsEach | services/securityMonitor.js:34-50 | a new failed login within 5 minutes adds one to its own IP's count and nothing to others |
| Monitor.FailedLoginThreshold | services/securityMonitor.js:52-55 | failed logins from one IP make it a candidate from the third one on |
| Monitor.RequestRateThreshold | services/securityMonitor.js:84-104 | logs of the last minute from one IP make it a candidate from the fiftieth one on |
| Monitor.RuleAlertAccepted | services/securityMonitor.js:58-68 | the alert a rule builds for a candidate always passes validation, with the rule's title, message, severity and metadata |
| Monitor.RuleLogAccepted | services/securityMonitor.js:70-75 | the block log a rule builds for a candidate always passes validation |
| Monitor.RuleItemEffect | services/securityMonitor.js:57-79 | one candidate costs its rule's writes: when the store takes them, the alert, its notice and the log are appended; otherwise the writes done so far remain |
| Monitor.RuleFollowsPlan | services/securityMonitor.js:57-79 | for every state and every candidate with an address, the rule's loop body writes the alert, its notice and the log when the budget covers them, and otherwise stops after the part `Interrupted` describes |
| Monitor.CompletedContents | services/securityMonitor.js:57-76 | completing a run appends each candidate's alert, numbered by its position, and its log, in candidate order, plus the notices of those alerts; it spends one candidate's writes per candidate and leaves the accounts alone |
| Monitor.PassCompletes | services/securityMonitor.js:57-76 | for any loop body that follows a plan, enough budget makes the loop append every candidate's alert and log, in order |
| Monitor.PassInterrupted | services/securityMonitor.js:57-79 | for any such body, a budget of k candidates' writes and r more completes the first k candidates, stops part-way in candidate k and touches no later one |
| Monitor.PassLogs | services/securityMonitor.js:57-79 | for any such body, whatever the budget, the loop appends the logs of a prefix of the candidates |
| Monitor.RulePassHead | services/securityMonitor.js:57-79 | a pass handles its first candidate and goes on with the rest only when that one succeeded |
| Monitor.RulePassCompletes | services/securityMonitor.js:57-76 | with enough budget the pass appends one alert and one log per candidate in order, plus the notices of critical alerts |
| Monitor.RulePassInterrupted | services/securityMonitor.js:77-79 | when the store gives out at candidate k, the first k candidates are fully written, the k-th partly, and the rest not at all |
| Monitor.RulePassLogs | services/securityMonitor.js:57-79 | whatever fails, the pass adds exactly the block logs of a prefix of the candidates |
| Monitor.RuleItemKeepsConsistent | services/securityMonitor.js:58-75 | one candidate's alert and log, or the part of them written before the store gave out, keep ids equal to positions and every document well formed |
| Monitor.RulePassKeepsConsistent | services/securityMonitor.js:57-79 | a whole pass keeps the store consistent, however far it gets |
| Monitor.FailedLoginPassStable | services/securityMonitor.js:34-76 | the block logs the pass writes leave the failed-login candidates unchanged |
| Monitor.BlocksAreNotFailedLogins | services/securityMonitor.js:70-75 | every log written by the failed-login rule is a `firewall_block` |
| Monitor.TotalIncidentsCountsWindow | services/securityMonitor.js:132-148 | summing the per-type counts gives the number of logs of the last 24 hours |
| Monitor.DailyReportAppendsOne | services/securityMonitor.js:132-162 | the daily report appends one `info` system alert carrying that total and the report date, and writes nothing when the store is down |
| Monitor.DailyReportKeepsConsistent | services/securityMonitor.js:132-162 | the daily report keeps the store consistent |
| Monitor.SecurityMonitor.constructor | services/securityMonitor.js:6-8 | a new monitor is not running |
| Monitor.SecurityMonitor.Start | services/securityMonitor.js:10-30 | starting schedules the jobs only when the monitor was not running, and the monitor is running afterwards |
| Monitor.SecurityMonitor.RunRule | services/securityMonitor.js:57-79 | the loop over the candidates leaves the database as `RulePass` of the database before |
| Monitor.SecurityMonitor.CheckSuspiciousActivity | services/securityMonitor.js:32-80 | the job finds the failed-login candidates once, before any write, and runs the pass over them |
| Monitor.SecurityMonitor.CheckDDoSPatterns | services/securityMonitor.js:82-128 | the job finds the request-rate candidates once, before any write, and runs the pass over them |
| Monitor.SecurityMonitor.GenerateDailyReport | services/securityMonitor.js:130-163 | the database after the job is `DailyReportStep` of the database before |
| AuthRoutes.FindAccount | routes/auth.js:14 | registration finds an account with the same e-mail or username, and none only when no account has either |
| AuthRoutes.RegisterDuplicate | routes/auth.js:14-17 | an e-mail or username already in use answers 400 and writes nothing |
| AuthRoutes.RegisterFresh | routes/auth.js:20-31 | a new account is appended with role `user` and no attempts, a `login_attempt` log records the registration, and the answer is 201 |
| AuthRoutes.RegisterKeepsConsistent | routes/auth.js:9-52 | registration keeps e-mails unique and ids equal to positions |
| AuthRoutes.FailedAttempt | routes/auth.js:86-97 | a failed attempt adds one to the count; at five the account is locked for 30 minutes from now, below five the lock is untouched |
| AuthRoutes.LoginUnknownEmail | routes/auth.js:60-70 | an unknown e-mail logs a `failed_login` and answers 401, changing nothing else |
| AuthRoutes.LoginLocked | routes/auth.js:73-81 | a locked account answers 423 with one warning alert, whether or not the password matches, and neither the account nor the logs change |
| AuthRoutes.LoginWrongPassword | routes/auth.js:84-110 | a wrong password increments the count, locks at five with one danger alert, logs `Failed login attempt n/5` and answers 401 |
| AuthRoutes.LoginSuccess | routes/auth.js:114-126 | a right password resets the count, clears the lock, records the login time, logs a success and answers 200 |
| AuthRoutes.LoginStoreDown | routes/auth.js:144-146 | with the store down, login answers 500 and changes nothing |
| AuthRoutes.LoginKeepsConsistent | routes/auth.js:55-147 | login keeps e-mails unique, ids equal to positions, and every account with five failures locked |
| AuthRoutes.FindByEmailAfterUpdate | routes/auth.js:99 | saving an account without changing its e-mail does not change which account an e-mail finds |
| AuthRoutes.RepeatedFailures | routes/auth.js:84-110 | repeated wrong passwords below the threshold each answer 401 and count up by one, with no lock |
| AuthRoutes.LockoutScenario | routes/auth.js:73-110 | four wrong passwords answer 401 and leave no lock; the fifth answers 401 and locks for 30 minutes; a sixth within the lock answers 423 even with the right password |
| AuthRoutes.Register | routes/auth.js:9-52 | the database after the handler is `RegisterStep` of the database before, and the status is its answer |
| AuthRoutes.Login | routes/auth.js:55-147 | the database after the handler is `LoginStep` of the database before, and the status is its answer |
| AlertRoutes.ListAlerts | routes/alerts.js:8-24 | the list holds only matching alerts, newest first, as many as the limit allows (50 by default), no matching alert left out is newer than one returned, and no alert appears more often than it matches |
| AlertRoutes.ListAlertsComplete | routes/alerts.js:10-18 | when the limit does not cut, the list holds exactly the matching alerts |
| AlertRoutes.ListAlertsDefaultLimit | routes/alerts.js:10 | without a `limit` at most 50 alerts are returned |
| AlertRoutes.ListAlertsUnfiltered | routes/alerts.js:12-13 | a status or severity filter that is absent or empty does not filter, whatever the other: every alert matches and the list is as long as the limit allows |
| AlertRoutes.ManualCreateAppends | routes/alerts.js:27-45 | a valid manual alert is appended as `active` with the given fields and the contact `7004398297`, and answers 201; a notice is sent exactly when the body's severity is `critical`, and then the stored flag is set when the store takes both writes |
| AlertRoutes.ManualCreateFails | routes/alerts.js:46-49 | an invalid alert or a store that is down answers 500 and writes nothing |
| AlertRoutes.AcknowledgeEffect | routes/alerts.js:53-69 | acknowledging answers 404 for an unknown id and 500 with the store down; otherwise 200, and only that alert's status changes |
| AlertRoutes.ResolveEffect | routes/alerts.js:72-91 | resolving answers 404 or 500 likewise; otherwise 200, and only that alert's status and `resolvedAt` change |
| AlertRoutes.AcknowledgeIdempotent | routes/alerts.js:55-63 | acknowledging twice leaves the alerts as acknowledging once |
| AlertRoutes.AcknowledgeAfterResolve | routes/alerts.js:55-63 | acknowledging a resolved alert sets it back to `acknowledged` and keeps its `resolvedAt` |
| AlertRoutes.UpdatesKeepConsistent | routes/alerts.js:53-91 | acknowledge and resolve keep ids equal to positions and every alert titled |
| AlertRoutes.ManualCreateKeepsConsistent | routes/alerts.js:27-50 | manual creation keeps the stores consistent |
| AlertRoutes.AlertStats | routes/alerts.js:94-127 | the active count is the number of active alerts and the critical count the number of active critical ones, so it never exceeds the former; every severity of the last 24 hours has exactly one bucket with its count, and only those appear; the contact is `7004398297` |
| AlertRoutes.StatsWindowTotal | routes/alerts.js:112-116 | the per-severity counts add up to the alerts of the last 24 hours |
| AlertRoutes.ManualCreate | routes/alerts.js:27-50 | the database after the handler is `ManualCreateStep` of the database before |
| AlertRoutes.Acknowledge | routes/alerts.js:53-69 | the database after the handler is `AcknowledgeStep` of the database before |
| AlertRoutes.Resolve | routes/alerts.js:72-91 | the database after the handler is `ResolveStep` of the database before |
| SecurityRoutes.BlockedIps | routes/security.js:38-41 | the distinct blocked IPs of the last day, each once, and exactly those |
| SecurityRoutes.WithCritical | routes/security.js:12-27 | each type bucket keeps its count and gains the number of critical logs of its type |
| SecurityRoutes.WithCriticalTotal | routes/security.js:12-27 | adding the critical counts does not change the bucket total |
| SecurityRoutes.DashboardAt | routes/security.js:7-54 | total threats is the number of logs of the last day and critical threats the number of critical ones among them; every type seen in the window has exactly one bucket, holding its count and its critical count, which never exceeds the count; blocked IPs is the number of distinct blocked addresses |
| SecurityRoutes.DashboardTypesTotal | routes/security.js:12-31 | the per-type counts add up to the total threats |
| SecurityRoutes.DashboardCriticalTotal | routes/security.js:12-36 | the per-type critical counts add up to the critical threats |
| SecurityRoutes.CriticalTotalOfGroup | routes/security.js:12-27 | over a grouping by distinct types, the critical counts add up to the critical logs of those types |
| SecurityRoutes.FirewallAt | routes/security.js:77-105 | blocked requests is the number of block logs of the last day, blocked IPs is the dashboard's figure and never exceeds it, and the rules are the fixed table of four |
| SecurityRoutes.BlockedIpsAppend | routes/security.js:38-41 | a new log adds its IP to the blocked IPs exactly when it is a block of the last day |
| SecurityRoutes.FirewallNewIp | routes/security.js:81-94 | a block from a new address raises both firewall counts by one |
| SecurityRoutes.QueryLogs | routes/security.js:57-74 | the query returns only matching logs, newest first, as many as the limit allows, no matching log left out is newer than one returned, and no log appears more often than it matches |
| SecurityRoutes.QueryLogsComplete | routes/security.js:59-68 | when the limit does not cut, the query returns exactly the matching logs |
| AuthMiddleware.IndexOf | middleware/auth.js:6 | the first position at which the pattern occurs, and none when it does not occur |
| AuthMiddleware.ReplaceFirst | middleware/auth.js:6 | a missing pattern leaves the string as it is; otherwise the first occurrence, and only it, is replaced by the replacement |
| AuthMiddleware.ExtractBearer | middleware/auth.js:6 | a `Bearer t` header yields `t` |
| AuthMiddleware.ExtractWithoutBearer | middleware/auth.js:6 | a header without `Bearer ` is used as the token as it is |
| AuthMiddleware.ExtractFirstOnly | middleware/auth.js:6 | only the first `Bearer ` is removed |
| AuthMiddleware.Decide | middleware/auth.js:5-25 | access is granted exactly when a non-empty token verifies to an existing active account, which becomes the request's user; every refusal is 401 |
| AuthMiddleware.NoTokenRefused | middleware/auth.js:8-10 | a missing or empty token is refused before verification |
| AuthMiddleware.BadAccountRefused | middleware/auth.js:12-24 | a token naming a missing or inactive account is invalid; a token that fails verification is refused as failed |
| AuthMiddleware.Exchange.constructor | middleware/auth.js:5 | a new request has no user, no status, and has not been passed on |
| AuthMiddleware.Exchange.Authenticate | middleware/auth.js:5-25 | on a grant the user and user id are set and `next` is called once; on a refusal the status is set and `next` is not called |
| AuthMiddleware.Exchange.RequireAdmin | middleware/auth.js:27-32 | an administrator is passed on once; anyone else gets 403 and is not passed on |
| AuthMiddleware.Guard | middleware/auth.js:5-32 | an administrator's valid token reaches the handler; a valid non-admin token gets 403; anything else gets 401 |
| AppFormat.FormatThreatType | public/app.js:381-392 | a known type string becomes its label, and any other string is returned unchanged |
| AppFormat.FormatThreatTypeIdempotent | public/app.js:381-392 | formatting a formatted type changes nothing |
| AppFormat.ThreatLabelsDistinct | public/app.js:382-390 | different types get different labels |
| AppFormat.FormatDateBuckets | public/app.js:366-379 | under a minute (or in the future) shows `Just now`, then whole minutes, hours and days below the next unit, each at least 1; a week or more shows the locale date |

## Left out

- Scheduling (`cron.schedule`) and concurrency are not modelled. Each job is modelled as one call, and handlers do not interleave.
- Reads from the store never fail in the model. Only writes fail, through the write budget, which stands for the database going down for the rest of the operation.
- Console logging, the SMS/notification transport and the HTTP response bodies (tokens, populated documents, messages) are left out. Only status codes and store effects are modelled.
- `jwt.sign`, `jwt.verify` and `bcrypt` are not modelled. Password checking is a boolean on the request. Token verification is a function parameter from the token to an account id.
- The `User` model is not part of this model. Its defaults (role `user`, active, no attempts) are assumed, and its password hashing and field validation are left out.
- `parseInt` of the `limit` query parameter is not modelled, so NaN is not covered. The route receives the parsed integer, or none.
- A malformed alert id: `findByIdAndUpdate` throws a cast error, which the acknowledge and resolve routes answer with 500 (routes/alerts.js:66-67, 88-89). The model has no such input: ids are positions in the collection, so every id is well formed and an id with no alert answers 404.
- The order in which Mongo's `$group` and `distinct` return their results is unspecified. The model groups by enum order and takes distinct IPs in the order of their last occurrence. No property depends on either order.
- `GET /health` (routes/security.js:108-119) is left out. It returns a fixed status, the current time and constant service labels, and reads no state.
- `toLocaleDateString` is a parameter of `FormatDate`. Prototype keys (`constructor`, `toString`) given to `formatThreatType` are treated as unknown strings.
- Indexes and `populate` are not modelled; the `default: Date.now` fields take the `now` parameter. The rest of public/app.js (charts, DOM updates, polling) is not part of this model.
