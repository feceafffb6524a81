/** routes/auth.js: registration with its duplicate check, and the login
    lockout state machine driven by the outcomes unknown email, locked
    account, wrong password and success. A request is answered by an HTTP
    status; the JSON bodies and the signed token are not modelled. */
module AuthRoutes {
  import opened Util
  import opened SecurityLogModel
  import opened AlertModel
  import opened Store
  import opened AlertService

  /** Failed attempts that lock an account. */
  const LOCK_THRESHOLD: nat := 5
  /** Thirty minutes, in milliseconds. */
  const LOCK_DURATION: int := 30 * 60 * 1000

  const LOCKOUT_ATTEMPT_TITLE: string := "\U{1F6A8} Account Lockout Attempt"
  const ACCOUNT_LOCKED_TITLE: string := "\U{1F512} Account Locked"

  /** The request fields the routes read. `passwordMatches` is the answer of
      `user.comparePassword(password)`; `ip` and `userAgent` are `req.ip` and
      the `user-agent` header, absent when the request has none. */
  datatype LoginRequest = LoginRequest(email: string, passwordMatches: bool, ip: Option<string>, userAgent: Option<string>)

  datatype RegisterRequest = RegisterRequest(username: string, email: string, ip: Option<string>, userAgent: Option<string>)

  // ---------------------------------------------------------------- register

  /** `User.findOne({$or: [{email}, {username}]})`: the first account that
      has the email or the username. */
  function FindAccount(users: seq<User>, email: string, username: string): (r: Option<nat>)
    ensures r.Some? ==> r.value < |users| && (users[r.value].email == email || users[r.value].username == username)
    ensures r.None? ==> forall j :: 0 <= j < |users| ==> users[j].email != email && users[j].username != username
  {
    if users == [] then None
    else if users[0].email == email || users[0].username == username then Some(0)
    else match FindAccount(users[1..], email, username)
      case None => None
      case Some(i) => Some(i + 1)
  }

  /** A new account with the defaults the routes rely on (the User model
      itself is not part of this model). */
  function NewUser(id: nat, username: string, email: string): User {
    User(id, username, email, "user", true, 0, None, None)
  }

  function RegistrationLog(req: RegisterRequest, id: nat): LogInput {
    LogInput(Some("login_attempt"), Some("low"), req.ip, req.userAgent, Some(id), Some("New user registration"))
  }

  /** `SecurityLog.create(input)`, answering `status` when it succeeds and
      500 when it throws. */
  function LogThen(s: Stores, input: LogInput, now: int, status: int): Outcome<int> {
    var l := CreateLogStep(s, input, now);
    Outcome(l.after, if l.result.Success? then status else 500)
  }

  /** `POST /register`. */
  function RegisterStep(s: Stores, req: RegisterRequest, now: int): Outcome<int> {
    if FindAccount(s.users, req.email, req.username).Some? then Outcome(s, 400)
    else
      var id := |s.users|;
      var w := PutUser(s, NewUser(id, req.username, req.email));
      if !w.result then Outcome(w.after, 500)
      else LogThen(w.after, RegistrationLog(req, id), now, 201)
  }

  /** An email or a username already taken gives 400 and changes nothing. */
  lemma RegisterDuplicate(s: Stores, req: RegisterRequest, now: int, j: nat)
    requires j < |s.users| && (s.users[j].email == req.email || s.users[j].username == req.username)
    ensures RegisterStep(s, req, now) == Outcome(s, 400)
  {
  }

  /** A fresh email and username, with the store up, give 201: one account
      with the defaults at the next position, then one `login_attempt`/`low`
      log naming it. */
  lemma RegisterFresh(s: Stores, req: RegisterRequest, now: int)
    requires forall j :: 0 <= j < |s.users| ==> s.users[j].email != req.email && s.users[j].username != req.username
    requires s.budget.Covers(2) && Present(req.ip)
    ensures var o := RegisterStep(s, req, now);
      && o.result == 201
      && o.after.users == s.users + [User(|s.users|, req.username, req.email, "user", true, 0, None, None)]
      && o.after.logs == s.logs + [SecurityLog(LoginAttempt, Low, req.ip.value, req.userAgent, Some(|s.users|),
                                               Some("New user registration"), map[], false, now)]
      && o.after.alerts == s.alerts && o.after.sent == s.sent
  {
    var w := PutUser(s, NewUser(|s.users|, req.username, req.email));
    var l := NewLog(RegistrationLog(req, |s.users|), now);
    assert LogErrors(RegistrationLog(req, |s.users|)) == {};
  }

  /** Registration keeps accounts unique and the stores consistent. */
  lemma RegisterKeepsConsistent(s: Stores, req: RegisterRequest, now: int)
    requires Consistent(s)
    ensures Consistent(RegisterStep(s, req, now).after)
  {
    if FindAccount(s.users, req.email, req.username).None? {
      var u := NewUser(|s.users|, req.username, req.email);
      AddUserKeepsConsistent(s, u);
      var w := PutUser(s, u);
      if w.result {
        CreateLogKeepsConsistent(w.after, RegistrationLog(req, |s.users|), now);
      }
    }
  }

  lemma AddUserKeepsConsistent(s: Stores, u: User)
    requires Consistent(s) && u.id == |s.users| && LockRecorded(u)
    requires forall j :: 0 <= j < |s.users| ==> s.users[j].email != u.email && s.users[j].username != u.username
    ensures Consistent(PutUser(s, u).after)
  {
    var w := PutUser(s, u);
    if w.result {
      var us := w.after.users;
      assert us == s.users + [u];
      forall i, j | 0 <= i < j < |us| ensures us[i].email != us[j].email && us[i].username != us[j].username {
        if j < |s.users| {
          assert us[i] == s.users[i] && us[j] == s.users[j];
        } else {
          assert us[i] == s.users[i] && us[j] == u;
        }
      }
      assert UniqueAccounts(us);
    }
  }

  // ---------------------------------------------------------------- login

  function UnknownEmailLog(req: LoginRequest): LogInput {
    LogInput(Some("failed_login"), Some("medium"), req.ip, req.userAgent, None, Some("Login attempt with non-existent email"))
  }

  function LockoutAttemptAlert(email: string): AlertInput {
    AlertInput(Some(LOCKOUT_ATTEMPT_TITLE), Some("Locked account login attempt for " + email),
               Some("security"), Some("warning"), None, None, None, map[])
  }

  function AccountLockedAlert(email: string): AlertInput {
    AlertInput(Some(ACCOUNT_LOCKED_TITLE), Some("Account " + email + " locked due to multiple failed login attempts"),
               Some("security"), Some("danger"), None, None, None, map[])
  }

  function FailedAttemptLog(req: LoginRequest, id: nat, attempts: nat): LogInput {
    LogInput(Some("failed_login"), Some("high"), req.ip, req.userAgent, Some(id),
             Some("Failed login attempt " + NatToString(attempts) + "/5"))
  }

  function SuccessLog(req: LoginRequest, id: nat): LogInput {
    LogInput(Some("login_attempt"), Some("low"), req.ip, req.userAgent, Some(id), Some("Successful login"))
  }

  /** The account after a wrong password: one more failed attempt, and a
      lock of `LOCK_DURATION` from `now` once the threshold is reached. */
  function FailedAttempt(u: User, now: int): (v: User)
    ensures v.loginAttempts == u.loginAttempts + 1
    ensures v.loginAttempts >= LOCK_THRESHOLD ==> v.lockUntil == Some(now + LOCK_DURATION)
    ensures v.loginAttempts < LOCK_THRESHOLD ==> v.lockUntil == u.lockUntil
    ensures LockRecorded(v)
    ensures v.(loginAttempts := u.loginAttempts, lockUntil := u.lockUntil) == u
  {
    var attempts := u.loginAttempts + 1;
    if attempts >= LOCK_THRESHOLD then u.(loginAttempts := attempts, lockUntil := Some(now + LOCK_DURATION))
    else u.(loginAttempts := attempts)
  }

  /** Saves the account after a wrong password, logs the attempt, answers 401. */
  function RecordFailure(s: Stores, i: nat, u: User, req: LoginRequest, now: int): Outcome<int>
    requires i < |s.users|
  {
    var w := SetUser(s, i, u);
    if !w.result then Outcome(w.after, 500)
    else LogThen(w.after, FailedAttemptLog(req, u.id, u.loginAttempts), now, 401)
  }

  /** `POST /login`. */
  function LoginStep(s: Stores, req: LoginRequest, now: int): Outcome<int> {
    match FindByEmail(s.users, req.email)
    case None => LogThen(s, UnknownEmailLog(req), now, 401)
    case Some(i) =>
      var u := s.users[i];
      if IsLocked(u, now) then
        var a := CreateAlertStep(s, LockoutAttemptAlert(req.email), now);
        Outcome(a.after, if a.result.Success? then 423 else 500)
      else if !req.passwordMatches then
        var v := FailedAttempt(u, now);
        if v.loginAttempts >= LOCK_THRESHOLD then
          var a := CreateAlertStep(s, AccountLockedAlert(req.email), now);
          if a.result.Failure? then Outcome(a.after, 500)
          else RecordFailure(a.after, i, v, req, now)
        else RecordFailure(s, i, v, req, now)
      else
        var w := SetUser(s, i, u.(loginAttempts := 0, lockUntil := None, lastLogin := Some(now)));
        if !w.result then Outcome(w.after, 500)
        else LogThen(w.after, SuccessLog(req, u.id), now, 200)
  }

  /** Unknown email: one `failed_login`/`medium` log without a user, 401;
      no account and no alert changes. */
  lemma LoginUnknownEmail(s: Stores, req: LoginRequest, now: int)
    requires FindByEmail(s.users, req.email).None?
    ensures var o := LoginStep(s, req, now);
      && o.after.users == s.users && o.after.alerts == s.alerts && o.after.sent == s.sent
      && (s.budget.Allows() && Present(req.ip) ==>
            o.result == 401
            && o.after.logs == s.logs + [SecurityLog(FailedLogin, Medium, req.ip.value, req.userAgent, None,
                                                     Some("Login attempt with non-existent email"), map[], false, now)])
      && (!(s.budget.Allows() && Present(req.ip)) ==> o == Outcome(s, 500))
  {
    assert Present(req.ip) ==> LogErrors(UnknownEmailLog(req)) == {};
  }

  /** A locked account: 423 and one `security`/`warning` alert, whatever the
      password; the account and the logs are untouched. */
  lemma LoginLocked(s: Stores, req: LoginRequest, now: int)
    requires FindByEmail(s.users, req.email).Some?
    requires IsLocked(s.users[FindByEmail(s.users, req.email).value], now)
    ensures var o := LoginStep(s, req, now);
      && o == LoginStep(s, req.(passwordMatches := !req.passwordMatches), now)
      && (s.budget.Allows() ==>
            o.result == 423
            && o.after == s.(alerts := s.alerts + [Alert(|s.alerts|, LOCKOUT_ATTEMPT_TITLE,
                                                          "Locked account login attempt for " + req.email,
                                                          Security, Warning, Active, false, EMERGENCY_CONTACT,
                                                          map[], now, None)],
                             budget := s.budget.Spend()))
      && (!s.budget.Allows() ==> o == Outcome(s, 500))
  {
    assert AlertErrors(LockoutAttemptAlert(req.email).(emergencyContact := Some(EMERGENCY_CONTACT))) == {};
  }

  /** A wrong password on an unlocked account: the attempt counter goes up by
      exactly one and is saved, a `failed_login`/`high` log names the account,
      and the answer is 401. Reaching five attempts also locks the account
      for thirty minutes and raises one `danger` alert; below five the lock
      time is untouched and no alert is raised. */
  lemma LoginWrongPassword(s: Stores, req: LoginRequest, now: int)
    requires FindByEmail(s.users, req.email).Some?
    requires !IsLocked(s.users[FindByEmail(s.users, req.email).value], now)
    requires !req.passwordMatches
    requires s.budget.Covers(3) && Present(req.ip)
    ensures var i := FindByEmail(s.users, req.email).value;
      var u := s.users[i];
      var n := u.loginAttempts + 1;
      var o := LoginStep(s, req, now);
      && o.result == 401
      && o.after.users == s.users[i := u.(loginAttempts := n,
                                          lockUntil := if n >= LOCK_THRESHOLD then Some(now + LOCK_DURATION) else u.lockUntil)]
      && o.after.logs == s.logs + [SecurityLog(FailedLogin, High, req.ip.value, req.userAgent, Some(u.id),
                                               Some("Failed login attempt " + NatToString(n) + "/5"), map[], false, now)]
      && (n >= LOCK_THRESHOLD ==>
            o.after.alerts == s.alerts + [Alert(|s.alerts|, ACCOUNT_LOCKED_TITLE,
                                                "Account " + req.email + " locked due to multiple failed login attempts",
                                                Security, Danger, Active, false, EMERGENCY_CONTACT, map[], now, None)])
      && (n < LOCK_THRESHOLD ==> o.after.alerts == s.alerts)
      && o.after.sent == s.sent
  {
    var i := FindByEmail(s.users, req.email).value;
    var v := FailedAttempt(s.users[i], now);
    assert LogErrors(FailedAttemptLog(req, v.id, v.loginAttempts)) == {};
    assert AlertErrors(AccountLockedAlert(req.email).(emergencyContact := Some(EMERGENCY_CONTACT))) == {};
  }

  /** The right password on an unlocked account: the counter is reset, the
      lock cleared, the login time recorded, one `login_attempt`/`low` log
      is written, and the answer is 200. */
  lemma LoginSuccess(s: Stores, req: LoginRequest, now: int)
    requires FindByEmail(s.users, req.email).Some?
    requires !IsLocked(s.users[FindByEmail(s.users, req.email).value], now)
    requires req.passwordMatches
    requires s.budget.Covers(2) && Present(req.ip)
    ensures var i := FindByEmail(s.users, req.email).value;
      var u := s.users[i];
      var o := LoginStep(s, req, now);
      && o.result == 200
      && o.after.users == s.users[i := u.(loginAttempts := 0, lockUntil := None, lastLogin := Some(now))]
      && o.after.logs == s.logs + [SecurityLog(LoginAttempt, Low, req.ip.value, req.userAgent, Some(u.id),
                                               Some("Successful login"), map[], false, now)]
      && o.after.alerts == s.alerts && o.after.sent == s.sent
  {
    var u := s.users[FindByEmail(s.users, req.email).value];
    assert LogErrors(SuccessLog(req, u.id)) == {};
  }

  /** With the store down every login answers 500 and changes nothing. */
  lemma LoginStoreDown(s: Stores, req: LoginRequest, now: int)
    requires !s.budget.Allows()
    ensures LoginStep(s, req, now) == Outcome(s, 500)
  {
  }

  /** Login keeps the stores consistent; in particular an account that has
      reached the threshold always carries a lock time. */
  lemma LoginKeepsConsistent(s: Stores, req: LoginRequest, now: int)
    requires Consistent(s)
    ensures Consistent(LoginStep(s, req, now).after)
  {
    match FindByEmail(s.users, req.email)
    case None =>
      CreateLogKeepsConsistent(s, UnknownEmailLog(req), now);
    case Some(i) =>
      var u := s.users[i];
      if IsLocked(u, now) {
        CreateAlertKeepsConsistent(s, LockoutAttemptAlert(req.email), now);
      } else if !req.passwordMatches {
        var v := FailedAttempt(u, now);
        if v.loginAttempts >= LOCK_THRESHOLD {
          CreateAlertKeepsConsistent(s, AccountLockedAlert(req.email), now);
          var a := CreateAlertStep(s, AccountLockedAlert(req.email), now);
          if a.result.Success? {
            RecordFailureKeepsConsistent(a.after, i, v, req, now);
          }
        } else {
          RecordFailureKeepsConsistent(s, i, v, req, now);
        }
      } else {
        var v := u.(loginAttempts := 0, lockUntil := None, lastLogin := Some(now));
        SetUserKeepsConsistent(s, i, v);
        var w := SetUser(s, i, v);
        if w.result {
          CreateLogKeepsConsistent(w.after, SuccessLog(req, u.id), now);
        }
      }
  }

  lemma RecordFailureKeepsConsistent(s: Stores, i: nat, v: User, req: LoginRequest, now: int)
    requires Consistent(s) && i < |s.users|
    requires v.id == s.users[i].id && v.email == s.users[i].email && v.username == s.users[i].username
    requires LockRecorded(v)
    ensures Consistent(RecordFailure(s, i, v, req, now).after)
  {
    SetUserKeepsConsistent(s, i, v);
    var w := SetUser(s, i, v);
    if w.result {
      CreateLogKeepsConsistent(w.after, FailedAttemptLog(req, v.id, v.loginAttempts), now);
    }
  }

  lemma SetUserKeepsConsistent(s: Stores, i: nat, v: User)
    requires Consistent(s) && i < |s.users|
    requires v.id == s.users[i].id && v.email == s.users[i].email && v.username == s.users[i].username
    requires LockRecorded(v)
    ensures Consistent(SetUser(s, i, v).after)
  {
  }

  /** Rewriting an account's counters does not change which account an
      email finds. */
  lemma {:induction false} FindByEmailAfterUpdate(users: seq<User>, i: nat, v: User, email: string)
    requires i < |users| && v.email == users[i].email
    ensures FindByEmail(users[i := v], email) == FindByEmail(users, email)
  {
    if users[0].email != email && i > 0 {
      assert users[i := v][1..] == users[1..][i - 1 := v];
      FindByEmailAfterUpdate(users[1..], i - 1, v, email);
    } else if users[0].email != email {
      assert users[i := v][1..] == users[1..];
    }
  }

  /** One wrong password on an unlocked account with the store up: the
      account's counter goes up by one and the same account is found next
      time. */
  lemma WrongPasswordStep(s: Stores, req: LoginRequest, now: int, i: nat)
    requires s.budget == Unbounded && Present(req.ip) && !req.passwordMatches
    requires FindByEmail(s.users, req.email) == Some(i)
    requires !IsLocked(s.users[i], now)
    ensures var o := LoginStep(s, req, now);
      && o.result == 401 && o.after.budget == Unbounded
      && |o.after.users| == |s.users|
      && o.after.users[i] == FailedAttempt(s.users[i], now)
      && FindByEmail(o.after.users, req.email) == Some(i)
  {
    LoginWrongPassword(s, req, now);
    FindByEmailAfterUpdate(s.users, i, FailedAttempt(s.users[i], now), req.email);
  }

  /** A locked account is refused with 423 while the store is up. */
  lemma LockedStep(s: Stores, req: LoginRequest, now: int, i: nat)
    requires s.budget == Unbounded
    requires FindByEmail(s.users, req.email) == Some(i)
    requires IsLocked(s.users[i], now)
    ensures LoginStep(s, req, now).result == 423
  {
    LoginLocked(s, req, now);
  }

  /** The same login request repeated at each of `times`, in order: the
      answers and the final state. */
  function Attempts(s: Stores, req: LoginRequest, times: seq<int>): (o: Outcome<seq<int>>)
    ensures |o.result| == |times|
    decreases |times|
  {
    if times == [] then Outcome(s, [])
    else
      var first := LoginStep(s, req, times[0]);
      var rest := Attempts(first.after, req, times[1..]);
      Outcome(rest.after, [first.result] + rest.result)
  }

  /** Wrong passwords that stay below the threshold: each is answered 401,
      each is counted, and the account stays unlocked. */
  lemma {:induction false} RepeatedFailures(s: Stores, req: LoginRequest, i: nat, times: seq<int>)
    requires s.budget == Unbounded && Present(req.ip) && !req.passwordMatches
    requires FindByEmail(s.users, req.email) == Some(i)
    requires s.users[i].lockUntil.None? && s.users[i].loginAttempts + |times| < LOCK_THRESHOLD
    ensures var o := Attempts(s, req, times);
      && (forall k :: 0 <= k < |times| ==> o.result[k] == 401)
      && o.after.budget == Unbounded
      && FindByEmail(o.after.users, req.email) == Some(i)
      && o.after.users[i].loginAttempts == s.users[i].loginAttempts + |times|
      && o.after.users[i].lockUntil.None?
    decreases |times|
  {
    if times != [] {
      WrongPasswordStep(s, req, times[0], i);
      var first := LoginStep(s, req, times[0]);
      RepeatedFailures(first.after, req, i, times[1..]);
    }
  }

  /** The lockout scenario: on a fresh account, four wrong passwords are
      answered 401 and leave it unlocked, the fifth is answered 401 and locks
      it for thirty minutes, and an attempt within that time is refused with
      423 even with the right password. */
  lemma LockoutScenario(s0: Stores, req: LoginRequest, i: nat, times: seq<int>, fifth: int, sixth: int)
    requires s0.budget == Unbounded && Present(req.ip) && !req.passwordMatches
    requires FindByEmail(s0.users, req.email) == Some(i)
    requires s0.users[i].loginAttempts == 0 && s0.users[i].lockUntil.None?
    requires |times| == LOCK_THRESHOLD - 1 && sixth < fifth + LOCK_DURATION
    ensures var o := Attempts(s0, req, times);
      var o5 := LoginStep(o.after, req, fifth);
      var o6 := LoginStep(o5.after, req.(passwordMatches := true), sixth);
      && o.result == [401, 401, 401, 401]
      && FindByEmail(o.after.users, req.email) == Some(i)
      && o.after.users[i].loginAttempts == 4 && o.after.users[i].lockUntil.None?
      && o5.result == 401 && FindByEmail(o5.after.users, req.email) == Some(i)
      && o5.after.users[i].lockUntil == Some(fifth + LOCK_DURATION)
      && o6.result == 423
  {
    RepeatedFailures(s0, req, i, times);
    var o := Attempts(s0, req, times);
    assert o.result == [401, 401, 401, 401] by {
      assert |o.result| == 4;
      assert o.result[0] == 401 && o.result[1] == 401 && o.result[2] == 401 && o.result[3] == 401;
    }
    FifthAttemptLocks(o.after, req, i, fifth, sixth);
  }

  /** From four failures on record: the fifth failure locks the account and
      a later attempt within the lock is refused. */
  lemma FifthAttemptLocks(s4: Stores, req: LoginRequest, i: nat, fifth: int, sixth: int)
    requires s4.budget == Unbounded && Present(req.ip) && !req.passwordMatches
    requires FindByEmail(s4.users, req.email) == Some(i)
    requires s4.users[i].loginAttempts == LOCK_THRESHOLD - 1 && s4.users[i].lockUntil.None?
    requires sixth < fifth + LOCK_DURATION
    ensures var o5 := LoginStep(s4, req, fifth);
      && o5.result == 401 && FindByEmail(o5.after.users, req.email) == Some(i)
      && o5.after.users[i].lockUntil == Some(fifth + LOCK_DURATION)
      && LoginStep(o5.after, req.(passwordMatches := true), sixth).result == 423
  {
    WrongPasswordStep(s4, req, fifth, i);
    var s5 := LoginStep(s4, req, fifth).after;
    assert s5.users[i].lockUntil == Some(fifth + LOCK_DURATION);
    LockedStep(s5, req.(passwordMatches := true), sixth, i);
  }

  // ---------------------------------------------------------------- handlers

  /** The `/register` handler over the store. */
  method Register(db: Database, req: RegisterRequest, now: int) returns (status: int)
    modifies db
    ensures var o := RegisterStep(old(db.Snapshot()), req, now); db.Snapshot() == o.after && status == o.result
  {
    var existingUser := FindAccount(db.users, req.email, req.username);
    if existingUser.Some? {
      return 400;
    }
    var id := |db.users|;
    var saved := db.InsertUser(NewUser(id, req.username, req.email));
    if !saved {
      return 500;
    }
    var logged := db.CreateLog(RegistrationLog(req, id), now);
    status := if logged.Success? then 201 else 500;
  }

  /** The `/login` handler over the store: the account document is read,
      its counters are changed in place and it is saved back. */
  method Login(db: Database, req: LoginRequest, now: int) returns (status: int)
    modifies db
    ensures var o := LoginStep(old(db.Snapshot()), req, now); db.Snapshot() == o.after && status == o.result
  {
    var found := FindByEmail(db.users, req.email);
    if found.None? {
      status := LogAndAnswer(db, UnknownEmailLog(req), now, 401);
      return;
    }
    var i := found.value;
    var user := db.users[i];
    if IsLocked(user, now) {
      var alerted := CreateAlert(db, LockoutAttemptAlert(req.email), now);
      return if alerted.Success? then 423 else 500;
    }
    if !req.passwordMatches {
      ghost var before := user;
      user := user.(loginAttempts := user.loginAttempts + 1);
      if user.loginAttempts >= LOCK_THRESHOLD {
        user := user.(lockUntil := Some(now + LOCK_DURATION));
        var alerted := CreateAlert(db, AccountLockedAlert(req.email), now);
        if alerted.Failure? {
          return 500;
        }
      }
      assert user == FailedAttempt(before, now);
      status := SaveFailure(db, i, user, req, now);
      return;
    }
    user := user.(loginAttempts := 0, lockUntil := None, lastLogin := Some(now));
    var saved := db.SaveUser(i, user);
    if !saved {
      return 500;
    }
    status := LogAndAnswer(db, SuccessLog(req, user.id), now, 200);
  }

  /** `await SecurityLog.create(input)` followed by the answer `status`. */
  method LogAndAnswer(db: Database, input: LogInput, now: int, status: int) returns (r: int)
    modifies db
    ensures var o := LogThen(old(db.Snapshot()), input, now, status); db.Snapshot() == o.after && r == o.result
  {
    var logged := db.CreateLog(input, now);
    r := if logged.Success? then status else 500;
  }

  /** `await user.save()` after a wrong password, then the failed-attempt log. */
  method SaveFailure(db: Database, i: nat, user: User, req: LoginRequest, now: int) returns (r: int)
    requires i < |db.users|
    modifies db
    ensures var o := RecordFailure(old(db.Snapshot()), i, user, req, now); db.Snapshot() == o.after && r == o.result
  {
    var saved := db.SaveUser(i, user);
    if !saved {
      return 500;
    }
    r := LogAndAnswer(db, FailedAttemptLog(req, user.id, user.loginAttempts), now, 401);
  }
}
