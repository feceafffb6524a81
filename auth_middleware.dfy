/** middleware/auth.js: `authenticate` extracts the bearer token, checks it
    and the account it names, and either answers 401 or records the user on
    the request and passes it on; `requireAdmin` lets only administrators
    through. Token verification (`jwt.verify` and the `userId` it decodes) is
    an oracle: a function from the token to the decoded user id, absent when
    verification throws. */
module AuthMiddleware {
  import opened Util
  import opened Store

  const BEARER: string := "Bearer "

  /** `pat` occurs in `s` starting at position `j`. */
  predicate OccursAt(s: string, pat: string, j: nat) {
    j + |pat| <= |s| && s[j..j + |pat|] == pat
  }

  lemma OccursAtTail(s: string, pat: string, j: nat)
    requires 1 <= j && s != []
    ensures OccursAt(s, pat, j) == OccursAt(s[1..], pat, j - 1)
  {
    if j + |pat| <= |s| {
      var here, there := s[j..j + |pat|], s[1..][j - 1..j - 1 + |pat|];
      forall k | 0 <= k < |pat| ensures here[k] == there[k] {
        assert here[k] == s[j + k];
        assert there[k] == s[1..][j - 1 + k];
      }
      assert here == there;
    }
  }

  /** The first position at which `pat` occurs in `s`. */
  function IndexOf(s: string, pat: string): (r: Option<nat>)
    ensures r.Some? ==> OccursAt(s, pat, r.value)
    ensures r.Some? ==> forall j :: 0 <= j < r.value ==> !OccursAt(s, pat, j)
    ensures r.None? ==> forall j :: 0 <= j <= |s| ==> !OccursAt(s, pat, j)
    decreases |s|
  {
    if |s| < |pat| then None
    else if s[..|pat|] == pat then
      assert OccursAt(s, pat, 0) by { assert s[0..|pat|] == s[..|pat|]; }
      Some(0)
    else
      assert !OccursAt(s, pat, 0) by { assert s[0..|pat|] == s[..|pat|]; }
      assert forall j :: 1 <= j <= |s| ==> OccursAt(s, pat, j) == OccursAt(s[1..], pat, j - 1) by {
        forall j | 1 <= j <= |s| ensures OccursAt(s, pat, j) == OccursAt(s[1..], pat, j - 1) {
          OccursAtTail(s, pat, j);
        }
      }
      match IndexOf(s[1..], pat)
      case None => None
      case Some(i) => Some(i + 1)
  }

  /** `s.replace(pat, rep)` with a string pattern: only the first occurrence
      is replaced. */
  function ReplaceFirst(s: string, pat: string, rep: string): (r: string)
    ensures IndexOf(s, pat).None? ==> r == s
    ensures IndexOf(s, pat).Some? ==> |r| == |s| - |pat| + |rep|
    ensures forall i: nat :: OccursAt(s, pat, i) && (forall j :: 0 <= j < i ==> !OccursAt(s, pat, j)) ==>
      r == s[..i] + rep + s[i + |pat|..]
  {
    match IndexOf(s, pat)
    case None =>
      assert forall i: nat :: OccursAt(s, pat, i) ==> i <= |s|;
      s
    case Some(i) =>
      assert forall k: nat :: OccursAt(s, pat, k) && (forall j :: 0 <= j < k ==> !OccursAt(s, pat, j)) ==> k == i;
      s[..i] + rep + s[i + |pat|..]
  }

  /** `req.header('Authorization')?.replace('Bearer ', '')`. */
  function ExtractToken(authorization: Option<string>): Option<string> {
    match authorization
    case None => None
    case Some(h) => Some(ReplaceFirst(h, BEARER, ""))
  }

  /** A header of the form `Bearer <t>` yields `t`, whatever `t` contains. */
  lemma ExtractBearer(t: string)
    ensures ExtractToken(Some(BEARER + t)) == Some(t)
  {
    var h := BEARER + t;
    assert h[..|BEARER|] == BEARER;
    assert IndexOf(h, BEARER) == Some(0);
    assert h[..0] + "" + h[|BEARER|..] == t;
  }

  /** A header that does not contain `Bearer ` is used as the token as it is. */
  lemma ExtractWithoutBearer(h: string)
    requires forall j :: 0 <= j <= |h| ==> !OccursAt(h, BEARER, j)
    ensures ExtractToken(Some(h)) == Some(h)
  {
  }

  /** Only the first occurrence goes: `Bearer Bearer x` yields `Bearer x`. */
  lemma ExtractFirstOnly(t: string)
    ensures ExtractToken(Some(BEARER + BEARER + t)) == Some(BEARER + t)
  {
    assert BEARER + BEARER + t == BEARER + (BEARER + t);
    ExtractBearer(BEARER + t);
  }

  /** What `authenticate` decides. */
  datatype AuthDecision = Denied(status: int, message: string) | Granted(user: User)

  /** The decision for an `Authorization` header, given the verification
      oracle and the account store (`User.findById`). */
  function Decide(authorization: Option<string>, verify: string -> Option<nat>, users: seq<User>): (d: AuthDecision)
    ensures d.Granted? <==>
      && ExtractToken(authorization).Some? && ExtractToken(authorization).value != ""
      && verify(ExtractToken(authorization).value).Some?
      && verify(ExtractToken(authorization).value).value < |users|
      && users[verify(ExtractToken(authorization).value).value].isActive
    ensures d.Granted? ==> d.user == users[verify(ExtractToken(authorization).value).value]
    ensures d.Denied? ==> d.status == 401
  {
    var token := ExtractToken(authorization);
    if !Present(token) then Denied(401, "No authentication token provided")
    else match verify(token.value)
      case None => Denied(401, "Authentication failed")
      case Some(id) =>
        if id >= |users| || !users[id].isActive then Denied(401, "Invalid authentication token")
        else Granted(users[id])
  }

  /** A missing header, or one that is empty once `Bearer ` is removed, is
      refused before the token is verified. */
  lemma NoTokenRefused(authorization: Option<string>, verify: string -> Option<nat>, users: seq<User>)
    requires authorization.None? || authorization == Some(BEARER) || authorization == Some("")
    ensures Decide(authorization, verify, users) == Denied(401, "No authentication token provided")
  {
    if authorization == Some(BEARER) {
      ExtractBearer("");
      assert BEARER + "" == BEARER;
    }
  }

  /** A token that verifies but names a missing or deactivated account is
      refused as invalid; one whose verification throws is refused as failed. */
  lemma BadAccountRefused(t: string, verify: string -> Option<nat>, users: seq<User>)
    requires t != ""
    ensures verify(t).Some? && (verify(t).value >= |users| || !users[verify(t).value].isActive) ==>
      Decide(Some(BEARER + t), verify, users) == Denied(401, "Invalid authentication token")
    ensures verify(t).None? ==>
      Decide(Some(BEARER + t), verify, users) == Denied(401, "Authentication failed")
  {
    ExtractBearer(t);
  }

  /** `requireAdmin`'s test. */
  predicate IsAdmin(u: User) {
    u.role == "admin"
  }

  /** The request and response as the middleware sees them: the header it
      reads, the fields it sets, the status it answers with, and how many
      times it has called `next`. */
  class Exchange {
    var authorization: Option<string>
    var user: Option<User>
    var userId: Option<nat>
    var status: Option<int>
    var nextCalls: nat

    constructor (authorization: Option<string>)
      ensures this.authorization == authorization
      ensures user.None? && userId.None? && status.None? && nextCalls == 0
    {
      this.authorization := authorization;
      user, userId, status, nextCalls := None, None, None, 0;
    }

    /** `authenticate`: on success `req.user` and `req.userId` are set and
        `next` is called once; otherwise the status is set and `next` is not
        called. */
    method Authenticate(verify: string -> Option<nat>, users: seq<User>)
      modifies this
      ensures authorization == old(authorization)
      ensures var d := Decide(old(authorization), verify, users);
        && (d.Granted? ==> user == Some(d.user) && userId == Some(d.user.id)
                           && nextCalls == old(nextCalls) + 1 && status == old(status))
        && (d.Denied? ==> status == Some(d.status) && nextCalls == old(nextCalls)
                          && user == old(user) && userId == old(userId))
    {
      var token := ExtractToken(authorization);
      if !Present(token) {
        status := Some(401);
        return;
      }
      var decoded := verify(token.value);
      if decoded.None? {
        status := Some(401);
        return;
      }
      var id := decoded.value;
      if id >= |users| || !users[id].isActive {
        status := Some(401);
        return;
      }
      user := Some(users[id]);
      userId := Some(users[id].id);
      nextCalls := nextCalls + 1;
    }

    /** `requireAdmin`, which runs after `authenticate` has set the user. */
    method RequireAdmin()
      requires user.Some?
      modifies this
      ensures user == old(user) && userId == old(userId) && authorization == old(authorization)
      ensures !IsAdmin(user.value) ==> status == Some(403) && nextCalls == old(nextCalls)
      ensures IsAdmin(user.value) ==> status == old(status) && nextCalls == old(nextCalls) + 1
    {
      if user.value.role != "admin" {
        status := Some(403);
        return;
      }
      nextCalls := nextCalls + 1;
    }
  }

  /** The two checks in sequence: an administrator's valid token reaches the
      handler once; any other request is stopped with 401 or 403. */
  method Guard(ex: Exchange, verify: string -> Option<nat>, users: seq<User>)
    requires ex.nextCalls == 0 && ex.status.None?
    modifies ex
    ensures var d := Decide(old(ex.authorization), verify, users);
      && (d.Granted? && IsAdmin(d.user) ==> ex.nextCalls == 2 && ex.status.None?)
      && (d.Granted? && !IsAdmin(d.user) ==> ex.nextCalls == 1 && ex.status == Some(403))
      && (d.Denied? ==> ex.nextCalls == 0 && ex.status == Some(401))
  {
    ex.Authenticate(verify, users);
    if ex.nextCalls == 1 {
      ex.RequireAdmin();
    }
  }
}
