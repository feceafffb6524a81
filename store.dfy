/** The persistent state the core reads and writes: the SecurityLog, Alert
    and User collections, the messages handed to the emergency channel, and
    the availability of the store.

    Availability is a write budget: every write spends one unit, and once the
    budget is spent every later write fails with `StoreUnavailable` and
    changes nothing, which is how an outage in the middle of a request or a
    monitor pass looks from the code. Reads never fail. Identifiers are
    positions: nothing in the core deletes a document, so the n-th inserted
    alert (or user) has id n. */
module Store {
  import opened Util
  import opened SecurityLogModel
  import opened AlertModel

  /** An account as the routes use it (the User model itself is not part of
      this model; the password hash is left out because password comparison
      is an oracle). */
  datatype User = User(
    id: nat,
    username: string,
    email: string,
    role: string,
    isActive: bool,
    loginAttempts: nat,
    lockUntil: Option<int>,
    lastLogin: Option<int>)

  /** A message handed to the emergency channel. */
  datatype Notice = Notice(contact: string, title: string, message: string, severity: AlertSeverity)

  datatype WriteBudget = Unbounded | Remaining(n: nat) {
    predicate Allows() {
      Unbounded? || n > 0
    }

    function Spend(): WriteBudget
      requires Allows()
    {
      if Unbounded? then Unbounded else Remaining(n - 1)
    }

    /** At least `k` more writes will succeed. */
    predicate Covers(k: nat) {
      Unbounded? || n >= k
    }

    /** The budget left after `k` successful writes. */
    function SpendMany(k: nat): WriteBudget
      requires Covers(k)
    {
      if Unbounded? then Unbounded else Remaining(n - k)
    }
  }

  /** Spending `x` writes and then `y` is spending `x + y`. */
  lemma SpendManyAdd(b: WriteBudget, x: nat, y: nat)
    requires b.Covers(x + y)
    ensures b.Covers(x) && b.SpendMany(x).Covers(y)
    ensures b.SpendMany(x).SpendMany(y) == b.SpendMany(x + y)
  {
  }

  datatype Stores = Stores(
    logs: seq<SecurityLog>,
    alerts: seq<Alert>,
    users: seq<User>,
    sent: seq<Notice>,
    budget: WriteBudget)

  /** Why an operation that writes stopped. */
  datatype Fault = Invalid(paths: set<string>) | StoreUnavailable

  /** The state after an operation, and what it returned. */
  datatype Outcome<R> = Outcome(after: Stores, result: R)

  /** One write that, if the store accepts it, turns `s` into `next`. */
  function Write(s: Stores, next: Stores): (w: Outcome<bool>)
    ensures w.result == s.budget.Allows()
    ensures w.result ==> w.after == next.(budget := s.budget.Spend())
    ensures !w.result ==> w.after == s
  {
    if s.budget.Allows() then Outcome(next.(budget := s.budget.Spend()), true) else Outcome(s, false)
  }

  function PutLog(s: Stores, l: SecurityLog): Outcome<bool> {
    Write(s, s.(logs := s.logs + [l]))
  }

  function PutAlert(s: Stores, a: Alert): Outcome<bool> {
    Write(s, s.(alerts := s.alerts + [a]))
  }

  function SetAlert(s: Stores, id: nat, a: Alert): Outcome<bool>
    requires id < |s.alerts|
  {
    Write(s, s.(alerts := s.alerts[id := a]))
  }

  function PutUser(s: Stores, u: User): Outcome<bool> {
    Write(s, s.(users := s.users + [u]))
  }

  function SetUser(s: Stores, i: nat, u: User): Outcome<bool>
    requires i < |s.users|
  {
    Write(s, s.(users := s.users[i := u]))
  }

  /** `SecurityLog.create(input)`: validate, then insert. A validation error
      is raised before the store is contacted. */
  function CreateLogStep(s: Stores, input: LogInput, now: int): (o: Outcome<Result<SecurityLog, Fault>>)
    ensures NewLog(input, now).Failure? ==> o.after == s && o.result == Failure(Invalid(NewLog(input, now).error))
    ensures NewLog(input, now).Success? && s.budget.Allows() ==>
      o.result == Success(NewLog(input, now).value)
      && o.after == s.(logs := s.logs + [NewLog(input, now).value], budget := s.budget.Spend())
    ensures !s.budget.Allows() ==> o.after == s && o.result.Failure?
  {
    match NewLog(input, now)
    case Failure(e) => Outcome(s, Failure(Invalid(e)))
    case Success(l) =>
      var w := PutLog(s, l);
      Outcome(w.after, if w.result then Success(l) else Failure(StoreUnavailable))
  }

  /** Creating a log keeps the stores consistent. */
  lemma CreateLogKeepsConsistent(s: Stores, input: LogInput, now: int)
    requires Consistent(s)
    ensures Consistent(CreateLogStep(s, input, now).after)
  {
    var o := CreateLogStep(s, input, now);
    if NewLog(input, now).Success? && s.budget.Allows() {
      assert forall l :: l in o.after.logs ==> l in s.logs || l == NewLog(input, now).value;
    }
  }

  /** The first account registered with `email` (`User.findOne({email})`). */
  function FindByEmail(users: seq<User>, email: string): (r: Option<nat>)
    ensures r.Some? ==> r.value < |users| && users[r.value].email == email
    ensures r.Some? ==> forall j :: 0 <= j < r.value ==> users[j].email != email
    ensures r.None? ==> forall j :: 0 <= j < |users| ==> users[j].email != email
  {
    if users == [] then None
    else if users[0].email == email then Some(0)
    else match FindByEmail(users[1..], email)
      case None => None
      case Some(i) => Some(i + 1)
  }

  /** `user.isLocked()`: a lock time is set and lies in the future. */
  predicate IsLocked(u: User, now: int) {
    u.lockUntil.Some? && u.lockUntil.value > now
  }

  /** The account lockout invariant: an account that has reached the
      failure threshold carries a lock time. */
  predicate LockRecorded(u: User) {
    u.loginAttempts >= 5 ==> u.lockUntil.Some?
  }

  /** No two accounts share an email or a username. */
  predicate UniqueAccounts(users: seq<User>) {
    forall i, j :: 0 <= i < j < |users| ==> users[i].email != users[j].email && users[i].username != users[j].username
  }

  /** What the stores satisfy between requests. */
  predicate Consistent(s: Stores) {
    && (forall i :: 0 <= i < |s.alerts| ==> s.alerts[i].id == i && WellFormedAlert(s.alerts[i]))
    && (forall l :: l in s.logs ==> WellFormedLog(l))
    && (forall i :: 0 <= i < |s.users| ==> s.users[i].id == i && LockRecorded(s.users[i]))
    && UniqueAccounts(s.users)
  }

  /** The collections as mutable state. Each method performs one write (or
      one emergency-channel message) and is specified by the corresponding
      function on `Stores`. */
  class Database {
    var logs: seq<SecurityLog>
    var alerts: seq<Alert>
    var users: seq<User>
    var sent: seq<Notice>
    var budget: WriteBudget

    function Snapshot(): Stores
      reads this
    {
      Stores(logs, alerts, users, sent, budget)
    }

    constructor (budget: WriteBudget)
      ensures Snapshot() == Stores([], [], [], [], budget)
      ensures Consistent(Snapshot())
    {
      logs, alerts, users, sent := [], [], [], [];
      this.budget := budget;
    }

    /** Replaces the whole state by the outcome of a successful write. */
    method Commit(next: Stores)
      requires budget.Allows()
      modifies this
      ensures Snapshot() == next.(budget := old(budget).Spend())
    {
      logs, alerts, users, sent := next.logs, next.alerts, next.users, next.sent;
      budget := budget.Spend();
    }

    method InsertLog(l: SecurityLog) returns (ok: bool)
      modifies this
      ensures var w := PutLog(old(Snapshot()), l); Snapshot() == w.after && ok == w.result
    {
      ok := budget.Allows();
      if ok {
        Commit(Snapshot().(logs := logs + [l]));
      }
    }

    /** `SecurityLog.create(input)`. */
    method CreateLog(input: LogInput, now: int) returns (r: Result<SecurityLog, Fault>)
      modifies this
      ensures var o := CreateLogStep(old(Snapshot()), input, now); Snapshot() == o.after && r == o.result
    {
      var checked := NewLog(input, now);
      if checked.Failure? {
        return Failure(Invalid(checked.error));
      }
      var ok := InsertLog(checked.value);
      r := if ok then Success(checked.value) else Failure(StoreUnavailable);
    }

    method InsertAlert(a: Alert) returns (ok: bool)
      modifies this
      ensures var w := PutAlert(old(Snapshot()), a); Snapshot() == w.after && ok == w.result
    {
      ok := budget.Allows();
      if ok {
        Commit(Snapshot().(alerts := alerts + [a]));
      }
    }

    method UpdateAlert(id: nat, a: Alert) returns (ok: bool)
      requires id < |alerts|
      modifies this
      ensures var w := SetAlert(old(Snapshot()), id, a); Snapshot() == w.after && ok == w.result
    {
      ok := budget.Allows();
      if ok {
        Commit(Snapshot().(alerts := alerts[id := a]));
      }
    }

    method InsertUser(u: User) returns (ok: bool)
      modifies this
      ensures var w := PutUser(old(Snapshot()), u); Snapshot() == w.after && ok == w.result
    {
      ok := budget.Allows();
      if ok {
        Commit(Snapshot().(users := users + [u]));
      }
    }

    method SaveUser(i: nat, u: User) returns (ok: bool)
      requires i < |users|
      modifies this
      ensures var w := SetUser(old(Snapshot()), i, u); Snapshot() == w.after && ok == w.result
    {
      ok := budget.Allows();
      if ok {
        Commit(Snapshot().(users := users[i := u]));
      }
    }

    /** Hands a message to the emergency channel (the console in the source);
        this is not a store write and cannot fail. */
    method Emit(n: Notice)
      modifies this
      ensures Snapshot() == old(Snapshot()).(sent := old(sent) + [n])
    {
      sent := sent + [n];
    }
  }
}
