/** The sign-in state (src/contexts/AuthContext.tsx): the start-up check of a stored
    token with up to three `getMe` attempts, the decision whether a final failure
    discards the token, login, logout, refresh, and the inactivity logout timer. */
module Auth {
  import opened Common

  datatype User = User(userId: int, email: string, fullName: string, role: string)

  /** What one `getMe` call settles to; `Ok(None)` is a falsy reply. */
  type MeReply = Remote<Option<User>>

  const AttemptLimit := 3
  const AutoLogoutTime := 30 * 60 * 1000
  const ActivityThrottle := 60000

  /** A token read from `localStorage`, used as a condition. */
  predicate HasToken(token: Option<string>)
  {
    token.Some? && token.value != ""
  }

  predicate IsUser(r: MeReply)
  {
    r.Ok? && r.value.Some?
  }

  // ---------------------------------------------------------------------------
  // The getMe retry loop

  /** The first attempt that produced a user. */
  function FirstUser(rs: seq<MeReply>): (r: Option<nat>)
    ensures r.Some? ==> r.value < |rs| && IsUser(rs[r.value]) && forall j :: 0 <= j < r.value ==> !IsUser(rs[j])
    ensures r.None? ==> forall j :: 0 <= j < |rs| ==> !IsUser(rs[j])
  {
    if rs == [] then None
    else if IsUser(rs[0]) then Some(0)
    else
      var r := FirstUser(rs[1..]);
      if r.None? then None else Some(r.value + 1)
  }

  /** How many times the loop calls `getMe`: up to the first user, at most three. */
  function Attempts(rs: seq<MeReply>): (n: nat)
    requires |rs| >= AttemptLimit
    ensures 1 <= n <= AttemptLimit
  {
    var first := FirstUser(rs[..AttemptLimit]);
    if first.Some? then first.value + 1 else AttemptLimit
  }

  /** The last error thrown among the given replies (`lastError`). */
  function LastThrown(rs: seq<MeReply>): (e: Option<Thrown>)
    ensures e.Some? ==> exists i :: 0 <= i < |rs| && rs[i] == Threw(e.value)
    ensures e.None? ==> forall i :: 0 <= i < |rs| ==> rs[i].Ok?
  {
    if rs == [] then None
    else if rs[|rs| - 1].Threw? then Some(rs[|rs| - 1].error)
    else LastThrown(rs[..|rs| - 1])
  }

  /** The pauses taken: one after each failed attempt but the third. */
  function Waits(rs: seq<MeReply>): (n: nat)
  {
    if rs == [] then 0
    else Waits(rs[..|rs| - 1]) + (if |rs| - 1 < AttemptLimit - 1 && rs[|rs| - 1].Threw? then 1 else 0)
  }

  /** Pauses only come between attempts, never after the last one made. */
  lemma {:induction false} WaitsBetweenAttempts(rs: seq<MeReply>)
    requires |rs| >= AttemptLimit
    ensures Waits(rs[..Attempts(rs)]) <= Attempts(rs) - 1
  {
    var n := Attempts(rs);
    WaitsBound(rs[..n]);
    if n < AttemptLimit {
      var s := rs[..n];
      assert s[..n - 1] == rs[..n - 1];
      assert IsUser(rs[..AttemptLimit][n - 1]);
      WaitsBound(rs[..n - 1]);
    }
  }

  lemma {:induction false} WaitsBound(rs: seq<MeReply>)
    ensures Waits(rs) <= |rs| && Waits(rs) <= AttemptLimit - 1
  {
    if rs != [] {
      WaitsBound(rs[..|rs| - 1]);
    }
  }

  /** What the retry loop ends with. */
  datatype Retried = Retried(user: Option<User>, lastError: Option<Thrown>, calls: nat, waits: nat)

  /** The retry loop: `getMe` up to three times, stopping at the first user; an error
      is remembered and followed by a pause unless it came from the third attempt. */
  method RetryGetMe(replies: seq<MeReply>) returns (r: Retried)
    requires |replies| >= AttemptLimit
    ensures r.calls == Attempts(replies)
    ensures var first := FirstUser(replies[..AttemptLimit]);
      r.user == if first.Some? then replies[first.value].value else None
    ensures r.user.None? ==> r.calls == AttemptLimit && r.lastError == LastThrown(replies[..AttemptLimit])
    ensures r.waits == Waits(replies[..r.calls])
  {
    var attempt := 0;
    var lastError: Option<Thrown> := None;
    var waits := 0;
    while attempt < AttemptLimit
      invariant 0 <= attempt <= AttemptLimit
      invariant forall j :: 0 <= j < attempt ==> !IsUser(replies[j])
      invariant lastError == LastThrown(replies[..attempt])
      invariant waits == Waits(replies[..attempt])
    {
      var reply := replies[attempt];
      assert replies[..attempt + 1][..attempt] == replies[..attempt];
      if reply.Ok? && reply.value.Some? {
        assert FirstUser(replies[..AttemptLimit]) == Some(attempt) by {
          var first := FirstUser(replies[..AttemptLimit]);
          assert IsUser(replies[..AttemptLimit][attempt]);
        }
        return Retried(reply.value, lastError, attempt + 1, waits);
      }
      if reply.Threw? {
        lastError := Some(reply.error);
        if attempt < AttemptLimit - 1 {
          waits := waits + 1;
        }
      }
      attempt := attempt + 1;
    }
    assert FirstUser(replies[..AttemptLimit]).None? by {
      forall j | 0 <= j < AttemptLimit ensures !IsUser(replies[..AttemptLimit][j]) { }
    }
    r := Retried(None, lastError, AttemptLimit, waits);
  }

  // ---------------------------------------------------------------------------
  // Whether a failed start-up discards the token

  /** Messages that point at the network, a missing endpoint or CORS: the token is kept. */
  predicate KeepsToken(msg: string)
  {
    Contains(msg, "네트워크 연결 실패") || Contains(msg, "Failed to fetch") || Contains(msg, "404")
    || Contains(msg, "405") || Contains(msg, "Not Found") || Contains(msg, "Method Not Allowed")
    || Contains(msg, "CORS")
  }

  /** Messages that say the credentials were refused. */
  predicate SaysUnauthorized(msg: string)
  {
    Contains(msg, "인증이 필요합니다") || Contains(msg, "401") || Contains(msg, "Unauthorized")
  }

  /** The token goes only on an explicit authentication error that is not first taken
      for a network, endpoint or CORS problem. */
  predicate RemovesToken(msg: string)
  {
    !KeepsToken(msg) && SaysUnauthorized(msg)
  }

  /** The text the classification reads: the message of an `Error`; other thrown values
      are taken to read as no known pattern. */
  function ErrorText(e: Thrown): string
  {
    MessageOr(e, "")
  }

  /** The token survives every message that mentions a network, endpoint or CORS
      problem, even when it also mentions 401. */
  lemma NetworkTrumpsUnauthorized(msg: string)
    requires Contains(msg, "404") || Contains(msg, "CORS") || Contains(msg, "Failed to fetch")
    ensures !RemovesToken(msg)
  {
  }

  // ---------------------------------------------------------------------------
  // The provider

  class AuthProvider {
    var user: Option<User>
    var isLoading: bool
    /** `localStorage.getItem('accessToken')` */
    var token: Option<string>
    /** When the inactivity timer, if set, logs the user out. */
    var logoutDeadline: Option<int>
    /** `lastActivityRef.current` */
    var lastActivity: int

    constructor (stored: Option<string>, now: int)
      ensures user == None && isLoading && token == stored && logoutDeadline == None && lastActivity == now
    {
      user := None;
      isLoading := true;
      token := stored;
      logoutDeadline := None;
      lastActivity := now;
    }

    /** `!!getAuthToken() || !!user` */
    function IsAuthenticated(): bool
      reads this
    {
      HasToken(token) || user.Some?
    }

    /** initAuth: without a token nothing is asked; otherwise the retry loop runs, and
        if it finds no user after an error, an authentication message discards the
        token. Loading is over in every case. */
    method InitAuth(replies: seq<MeReply>) returns (calls: nat)
      modifies this
      requires |replies| >= AttemptLimit
      ensures !isLoading && logoutDeadline == old(logoutDeadline) && lastActivity == old(lastActivity)
      ensures !HasToken(old(token)) ==> calls == 0 && user == None && token == old(token)
      ensures HasToken(old(token)) ==> calls == Attempts(replies)
      ensures HasToken(old(token)) && FirstUser(replies[..AttemptLimit]).Some? ==>
        user == replies[FirstUser(replies[..AttemptLimit]).value].value && token == old(token)
      ensures HasToken(old(token)) && FirstUser(replies[..AttemptLimit]).None? ==>
        var last := LastThrown(replies[..AttemptLimit]);
        && (last.Some? ==> user == None)
        && (last.None? ==> user == old(user))
        && token == if last.Some? && RemovesToken(ErrorText(last.value)) then None else old(token)
    {
      if !HasToken(token) {
        user := None;
        isLoading := false;
        return 0;
      }
      var r := RetryGetMe(replies);
      calls := r.calls;
      if r.user.Some? {
        user := r.user;
        isLoading := false;
        return;
      }
      if r.lastError.Some? {
        var msg := ErrorText(r.lastError.value);
        if KeepsToken(msg) {
          user := None;
        } else if SaysUnauthorized(msg) {
          token := None;
          user := None;
        } else {
          user := None;
        }
      }
      isLoading := false;
    }

    /** login: an error of the login call propagates; an access token is stored and
        the retry loop looks for the user, whose absence does not fail the login. */
    method Login(reply: Remote<Option<string>>, replies: seq<MeReply>) returns (thrown: Option<Thrown>)
      modifies this
      requires |replies| >= AttemptLimit
      ensures reply.Threw? ==> thrown == Some(reply.error) && user == old(user) && token == old(token)
      ensures reply.Ok? ==> thrown == None
      ensures reply.Ok? && !HasToken(reply.value) ==> user == old(user) && token == old(token)
      ensures reply.Ok? && HasToken(reply.value) ==>
        token == reply.value &&
        var first := FirstUser(replies[..AttemptLimit]);
        user == if first.Some? then replies[first.value].value else None
      ensures reply.Ok? && HasToken(reply.value) ==> IsAuthenticated()
      ensures isLoading == old(isLoading) && logoutDeadline == old(logoutDeadline) && lastActivity == old(lastActivity)
    {
      match reply {
        case Threw(e) =>
          return Some(e);
        case Ok(accessToken) =>
          thrown := None;
          if HasToken(accessToken) {
            token := accessToken;
            var r := RetryGetMe(replies);
            user := r.user;
          }
      }
    }

    /** logout: token, user and timer are gone. */
    method Logout()
      modifies this
      ensures token == None && user == None && logoutDeadline == None
      ensures !IsAuthenticated()
      ensures isLoading == old(isLoading) && lastActivity == old(lastActivity)
    {
      token := None;
      user := None;
      logoutDeadline := None;
    }

    /** refreshUser: whatever `getMe` answers becomes the user, unchecked, so an empty
        answer clears the user while the token stays and alone keeps the session
        authenticated; a failure discards token and user and is rethrown. */
    method RefreshUser(reply: MeReply) returns (thrown: Option<Thrown>)
      modifies this
      ensures reply.Ok? ==> user == reply.value && token == old(token) && thrown == None
      ensures reply.Ok? && reply.value.None? ==> (IsAuthenticated() <==> HasToken(old(token)))
      ensures reply.Threw? ==> user == None && token == None && thrown == Some(reply.error) && !IsAuthenticated()
      ensures isLoading == old(isLoading) && logoutDeadline == old(logoutDeadline) && lastActivity == old(lastActivity)
    {
      match reply {
        case Ok(u) =>
          user := u;
          thrown := None;
        case Threw(e) =>
          token := None;
          user := None;
          thrown := Some(e);
      }
    }

    /** The effect on `user`: a signed-in user gets a fresh 30-minute timer, otherwise
        the timer is cleared. */
    method UserChanged(now: int)
      modifies this`logoutDeadline
      ensures logoutDeadline == if user.Some? then Some(now + AutoLogoutTime) else None
    {
      if user.Some? {
        logoutDeadline := Some(now + AutoLogoutTime);
      } else {
        logoutDeadline := None;
      }
    }

    /** handleUserActivity, listened to only while signed in: the timer restarts only
        when more than a minute has passed since the last recorded activity. */
    method UserActivity(now: int)
      modifies this`logoutDeadline, this`lastActivity
      ensures user.Some? && now - old(lastActivity) > ActivityThrottle ==>
        lastActivity == now && logoutDeadline == Some(now + AutoLogoutTime)
      ensures !(user.Some? && now - old(lastActivity) > ActivityThrottle) ==>
        lastActivity == old(lastActivity) && logoutDeadline == old(logoutDeadline)
    {
      if user.Some? && now - lastActivity > ActivityThrottle {
        lastActivity := now;
        logoutDeadline := Some(now + AutoLogoutTime);
      }
    }

    /** The timer's callback: log out and go to the login page. */
    method LogoutTimerFired() returns (path: string)
      modifies this
      ensures token == None && user == None && logoutDeadline == None && path == "/login"
      ensures isLoading == old(isLoading) && lastActivity == old(lastActivity)
    {
      Logout();
      path := "/login";
    }
  }
}
