/** The account-security state updates of the authentication service:
    failed-login counting and lockout, login, registration, refresh-token
    rotation, logout and the e-mail verification token. Each operation is a
    method that sets User fields, proved against a function on the account
    value. Repository lookups, the authentication manager and token
    validation are inputs; token strings are inputs too. */
module AuthService {
  import opened Wrappers
  import opened UserEntity

  const MaxFailedAttempts: int := 5
  const LockMillis: int := 30 * 60 * 1000
  const RefreshTokenMillis: int := 7 * 24 * 60 * 60 * 1000
  const VerificationMillis: int := 24 * 60 * 60 * 1000

  const RefreshExpiryNullMessage: string :=
    "Cannot invoke \"java.time.LocalDateTime.isBefore(java.time.chrono.ChronoLocalDateTime)\" because the return value of \"com.nckh.entity.User.getRefreshTokenExpiry()\" is null"
  const VerificationExpiryNullMessage: string :=
    "Cannot invoke \"java.time.LocalDateTime.isBefore(java.time.chrono.ChronoLocalDateTime)\" because the return value of \"com.nckh.entity.User.getVerificationTokenExpiry()\" is null"

  // ---- account transitions ----

  /** handleFailedLogin on a known user: one more failed attempt, and from
      the fifth on a lock of thirty minutes from now. */
  function AfterFailedLogin(a: Account, now: int): (r: Account)
    ensures r.failedLoginAttempts == a.failedLoginAttempts + 1
    ensures r.failedLoginAttempts >= MaxFailedAttempts ==>
              r.lockedUntil == Some(now + LockMillis) && !r.IsAccountNonLocked(now + LockMillis)
    ensures r.failedLoginAttempts < MaxFailedAttempts ==> r.lockedUntil == a.lockedUntil
    ensures r.(failedLoginAttempts := a.failedLoginAttempts, lockedUntil := a.lockedUntil) == a
  {
    var attempts := a.failedLoginAttempts + 1;
    if attempts >= MaxFailedAttempts then
      a.(failedLoginAttempts := attempts, lockedUntil := Some(now + LockMillis))
    else
      a.(failedLoginAttempts := attempts)
  }

  /** A successful login: the counter is reset and a refresh token valid for
      seven days is stored; an existing lock is left in place. */
  function AfterLogin(a: Account, now: int, ip: string, token: string): (r: Account)
    ensures r.failedLoginAttempts == 0
    ensures r.lockedUntil == a.lockedUntil
    ensures r.refreshToken == Some(token) && r.refreshTokenExpiry == Some(now + RefreshTokenMillis)
    ensures r.lastLoginAt == Some(now) && r.lastLoginIp == Some(ip)
    ensures a.TokensPaired() ==> r.TokensPaired()
    ensures r.status == a.status && r.emailVerified == a.emailVerified
            && r.verificationToken == a.verificationToken && r.verificationTokenExpiry == a.verificationTokenExpiry
  {
    a.(lastLoginAt := Some(now), lastLoginIp := Some(ip), failedLoginAttempts := 0,
       refreshToken := Some(token), refreshTokenExpiry := Some(now + RefreshTokenMillis))
  }

  /** register: a new user awaiting e-mail verification, with role USER, a
      verification token valid for a day and a refresh token valid for a
      week. Such a user is not enabled. */
  function NewAccount(username: string, email: string, now: int, verificationToken: string, refreshToken: string): (r: Account)
    ensures r.status == PENDING_VERIFICATION && !r.emailVerified && r.roles == {USER}
    ensures !r.IsEnabled()
    ensures |r.GetAuthorities()| == 1
    ensures r.verificationToken == Some(verificationToken)
            && r.verificationTokenExpiry == Some(now + VerificationMillis)
    ensures r.refreshToken == Some(refreshToken) && r.refreshTokenExpiry == Some(now + RefreshTokenMillis)
    ensures r.failedLoginAttempts == 0 && r.lockedUntil.None? && r.IsAccountNonLocked(now)
    ensures r.TokensPaired()
  {
    Account(username, email, PENDING_VERIFICATION, {USER}, false, None, None, 0, None,
            Some(refreshToken), Some(now + RefreshTokenMillis),
            Some(verificationToken), Some(now + VerificationMillis), false)
  }

  /** refreshToken replaces both the token and its expiry. */
  function AfterRefresh(a: Account, now: int, token: string): (r: Account)
    ensures r.refreshToken == Some(token) && r.refreshTokenExpiry == Some(now + RefreshTokenMillis)
    ensures a.TokensPaired() ==> r.TokensPaired()
    ensures r.(refreshToken := a.refreshToken, refreshTokenExpiry := a.refreshTokenExpiry) == a
  {
    a.(refreshToken := Some(token), refreshTokenExpiry := Some(now + RefreshTokenMillis))
  }

  /** logout clears the refresh token and its expiry. */
  function AfterLogout(a: Account): (r: Account)
    ensures r.refreshToken.None? && r.refreshTokenExpiry.None?
    ensures a.TokensPaired() ==> r.TokensPaired()
    ensures r.(refreshToken := a.refreshToken, refreshTokenExpiry := a.refreshTokenExpiry) == a
  {
    a.(refreshToken := None, refreshTokenExpiry := None)
  }

  /** verifyEmail: verified, ACTIVE, and the verification token is gone. */
  function AfterVerify(a: Account): (r: Account)
    ensures r.emailVerified && r.status == ACTIVE
    ensures r.verificationToken.None? && r.verificationTokenExpiry.None?
    ensures !a.deleted ==> r.IsEnabled()
    ensures a.TokensPaired() ==> r.TokensPaired()
  {
    a.(emailVerified := true, status := ACTIVE, verificationToken := None, verificationTokenExpiry := None)
  }

  /** resendVerificationEmail: a fresh token valid for a day replaces the old
      one. */
  function AfterResend(a: Account, now: int, token: string): (r: Account)
    ensures r.verificationToken == Some(token) && r.verificationTokenExpiry == Some(now + VerificationMillis)
    ensures a.TokensPaired() ==> r.TokensPaired()
    ensures r.(verificationToken := a.verificationToken, verificationTokenExpiry := a.verificationTokenExpiry) == a
  {
    a.(verificationToken := Some(token), verificationTokenExpiry := Some(now + VerificationMillis))
  }

  // ---- checks ----

  /** The checks of refreshToken, in order: the token must validate, belong
      to a user, and not have expired (expiry strictly before now). */
  function RefreshCheck(tokenValid: bool, found: Option<Account>, now: int): (r: Outcome)
    ensures r.Pass? <==> tokenValid && found.Some? && found.value.refreshTokenExpiry.Some?
                         && now <= found.value.refreshTokenExpiry.value
    ensures !tokenValid ==> r == Fail("Invalid refresh token")
    ensures tokenValid && found.None? ==> r == Fail("User not found with this refresh token")
    ensures (tokenValid && found.Some? && found.value.refreshTokenExpiry.Some?
             && found.value.refreshTokenExpiry.value < now) ==> r == Fail("Refresh token has expired")
  {
    if !tokenValid then Fail("Invalid refresh token")
    else if found.None? then Fail("User not found with this refresh token")
    else if found.value.refreshTokenExpiry.None? then Fail(RefreshExpiryNullMessage)
    else if found.value.refreshTokenExpiry.value < now then Fail("Refresh token has expired")
    else Pass
  }

  /** The checks of verifyEmail: the token must belong to a user and not
      have expired. */
  function VerifyCheck(found: Option<Account>, now: int): (r: Outcome)
    ensures r.Pass? <==> found.Some? && found.value.verificationTokenExpiry.Some?
                         && now <= found.value.verificationTokenExpiry.value
    ensures found.None? ==> r == Fail("Invalid verification token")
    ensures (found.Some? && found.value.verificationTokenExpiry.Some?
             && found.value.verificationTokenExpiry.value < now) ==> r == Fail("Verification token has expired")
  {
    if found.None? then Fail("Invalid verification token")
    else if found.value.verificationTokenExpiry.None? then Fail(VerificationExpiryNullMessage)
    else if found.value.verificationTokenExpiry.value < now then Fail("Verification token has expired")
    else Pass
  }

  /** The checks of resendVerificationEmail: a known, unverified user. */
  function ResendCheck(found: Option<Account>): (r: Outcome)
    ensures r.Pass? <==> found.Some? && !found.value.emailVerified
    ensures found.None? ==> r == Fail("User not found with this email")
    ensures found.Some? && found.value.emailVerified ==> r == Fail("Email is already verified")
  {
    if found.None? then Fail("User not found with this email")
    else if found.value.emailVerified then Fail("Email is already verified")
    else Pass
  }

  /** The checks of register: the username is checked before the e-mail. */
  function RegisterCheck(usernameTaken: bool, emailTaken: bool): (r: Outcome)
    ensures r.Pass? <==> !usernameTaken && !emailTaken
    ensures usernameTaken ==> r == Fail("Username is already taken!")
    ensures !usernameTaken && emailTaken ==> r == Fail("Email is already in use!")
  {
    if usernameTaken then Fail("Username is already taken!")
    else if emailTaken then Fail("Email is already in use!")
    else Pass
  }

  // ---- properties over several operations ----

  /** A run of failed logins at the given instants. */
  function FailedLogins(a: Account, times: seq<int>): (r: Account)
    decreases |times|
  {
    if times == [] then a else FailedLogins(AfterFailedLogin(a, times[0]), times[1..])
  }

  /** Failed logins that keep the counter below five leave any lock as it
      was. */
  lemma {:induction false} FewFailuresKeepLock(a: Account, times: seq<int>)
    requires a.failedLoginAttempts + |times| < MaxFailedAttempts
    ensures FailedLogins(a, times).failedLoginAttempts == a.failedLoginAttempts + |times|
    ensures FailedLogins(a, times).lockedUntil == a.lockedUntil
    decreases |times|
  {
    if times != [] {
      FewFailuresKeepLock(AfterFailedLogin(a, times[0]), times[1..]);
    }
  }

  /** Once the counter reaches five, the account is locked for thirty minutes
      from the last failure: at every instant from that failure up to and
      including the end of the lock, isAccountNonLocked is false. */
  lemma {:induction false} FailuresLock(a: Account, times: seq<int>)
    requires times != [] && a.failedLoginAttempts + |times| >= MaxFailedAttempts
    ensures FailedLogins(a, times).failedLoginAttempts == a.failedLoginAttempts + |times|
    ensures FailedLogins(a, times).lockedUntil == Some(times[|times| - 1] + LockMillis)
    ensures forall now :: times[|times| - 1] <= now <= times[|times| - 1] + LockMillis
                          ==> !FailedLogins(a, times).IsAccountNonLocked(now)
    decreases |times|
  {
    var b := AfterFailedLogin(a, times[0]);
    if |times| == 1 {
      assert FailedLogins(a, times) == FailedLogins(b, []);
    } else {
      FailuresLock(b, times[1..]);
      assert times[1..][|times| - 2] == times[|times| - 1];
    }
  }

  /** The e-mail verification lifecycle: a registered user is not enabled;
      after verification with the token it received, the user is enabled and
      holds no verification token, so the same token matches it no more. */
  lemma VerificationLifecycle(username: string, email: string, now: int, vt: string, rt: string, later: int)
    requires now <= later <= now + VerificationMillis
    ensures var a := NewAccount(username, email, now, vt, rt);
            && !a.IsEnabled()
            && VerifyCheck(Some(a), later) == Pass
            && AfterVerify(a).IsEnabled()
            && AfterVerify(a).verificationToken != Some(vt)
  {
  }

  // ---- the service operations on a User ----

  /** handleFailedLogin: a known user gets AfterFailedLogin; an unknown one
      changes nothing. */
  method HandleFailedLogin(found: Option<User>, now: int)
    modifies if found.Some? then {found.value} else {}
    ensures found.Some? ==> found.value.Snapshot() == AfterFailedLogin(old(found.value.Snapshot()), now)
  {
    if found.Some? {
      var user := found.value;
      var attempts := user.failedLoginAttempts + 1;
      user.failedLoginAttempts := attempts;
      if attempts >= MaxFailedAttempts {
        user.lockedUntil := Some(now + LockMillis);
      }
    }
  }

  /** What the authentication manager does with the credentials: it returns
      the principal, refuses them as bad credentials, or throws another
      authentication exception (a locked or disabled account, say), which
      the service does not catch. */
  datatype Authentication = Authenticated(principal: User) | BadCredentials | OtherFailure(message: string)

  /** login. `lookup` is the user found by username or e-mail for the
      failure count. A locked principal is refused without change; otherwise
      it gets AfterLogin. Bad credentials count a failed login; any other
      authentication failure passes through and changes nothing. */
  method Login(auth: Authentication, lookup: Option<User>, ip: string, now: int, token: string)
    returns (r: Outcome)
    modifies (if auth.Authenticated? then {auth.principal} else {}),
             (if auth.BadCredentials? && lookup.Some? then {lookup.value} else {})
    ensures auth.Authenticated? && !old(auth.principal.Snapshot()).IsAccountNonLocked(now) ==>
              r == Fail("Account is locked. Please try again later.")
              && auth.principal.Snapshot() == old(auth.principal.Snapshot())
    ensures auth.Authenticated? && old(auth.principal.Snapshot()).IsAccountNonLocked(now) ==>
              r == Pass && auth.principal.Snapshot() == AfterLogin(old(auth.principal.Snapshot()), now, ip, token)
    ensures auth.Authenticated? && lookup.Some? && lookup.value != auth.principal ==>
              lookup.value.Snapshot() == old(lookup.value.Snapshot())
    ensures auth.BadCredentials? ==>
              r == Fail("Invalid username/email or password")
              && (lookup.Some? ==> lookup.value.Snapshot() == AfterFailedLogin(old(lookup.value.Snapshot()), now))
    ensures auth.OtherFailure? ==>
              r == Fail(auth.message)
              && (lookup.Some? ==> lookup.value.Snapshot() == old(lookup.value.Snapshot()))
  {
    match auth
    case OtherFailure(message) =>
      return Fail(message);
    case BadCredentials =>
      HandleFailedLogin(lookup, now);
      return Fail("Invalid username/email or password");
    case Authenticated(user) =>
      if !(user.lockedUntil.None? || user.lockedUntil.value < now) {
        return Fail("Account is locked. Please try again later.");
      }
      user.lastLoginAt := Some(now);
      user.lastLoginIp := Some(ip);
      user.failedLoginAttempts := 0;
      user.refreshToken := Some(token);
      user.refreshTokenExpiry := Some(now + RefreshTokenMillis);
      r := Pass;
  }

  /** register: the two uniqueness checks, then a fresh user holding
      NewAccount. */
  method Register(usernameTaken: bool, emailTaken: bool, username: string, email: string, now: int,
                  verificationToken: string, refreshToken: string)
    returns (r: Result<User>)
    ensures r.Err? <==> RegisterCheck(usernameTaken, emailTaken).Fail?
    ensures r.Err? ==> r.error == RegisterCheck(usernameTaken, emailTaken).error
    ensures r.Ok? ==> fresh(r.value)
                      && r.value.Snapshot() == NewAccount(username, email, now, verificationToken, refreshToken)
  {
    if usernameTaken {
      return Err("Username is already taken!");
    }
    if emailTaken {
      return Err("Email is already in use!");
    }
    var user := new User(username, email, PENDING_VERIFICATION, {USER}, false);
    user.verificationToken := Some(verificationToken);
    user.verificationTokenExpiry := Some(now + VerificationMillis);
    user.refreshToken := Some(refreshToken);
    user.refreshTokenExpiry := Some(now + RefreshTokenMillis);
    r := Ok(user);
  }

  /** refreshToken: `found` is the user holding the presented token. */
  method RefreshToken(token: string, tokenValid: bool, found: Option<User>, now: int, newToken: string)
    returns (r: Outcome)
    requires found.Some? ==> found.value.refreshToken == Some(token)
    modifies if found.Some? then {found.value} else {}
    ensures r == RefreshCheck(tokenValid, if found.Some? then Some(old(found.value.Snapshot())) else None, now)
    ensures found.Some? ==>
              found.value.Snapshot()
                == if r.Pass? then AfterRefresh(old(found.value.Snapshot()), now, newToken) else old(found.value.Snapshot())
  {
    if !tokenValid {
      return Fail("Invalid refresh token");
    }
    if found.None? {
      return Fail("User not found with this refresh token");
    }
    var user := found.value;
    if user.refreshTokenExpiry.None? {
      return Fail(RefreshExpiryNullMessage);
    }
    if user.refreshTokenExpiry.value < now {
      return Fail("Refresh token has expired");
    }
    user.refreshToken := Some(newToken);
    user.refreshTokenExpiry := Some(now + RefreshTokenMillis);
    r := Pass;
  }

  /** logout: `found` is the user of that name. */
  method Logout(found: Option<User>) returns (r: Outcome)
    modifies if found.Some? then {found.value} else {}
    ensures r.Pass? <==> found.Some?
    ensures found.None? ==> r == Fail("User not found")
    ensures found.Some? ==> found.value.Snapshot() == AfterLogout(old(found.value.Snapshot()))
  {
    if found.None? {
      return Fail("User not found");
    }
    var user := found.value;
    user.refreshToken := None;
    user.refreshTokenExpiry := None;
    r := Pass;
  }

  /** verifyEmail: `found` is the user holding the presented token. */
  method VerifyEmail(token: string, found: Option<User>, now: int) returns (r: Outcome)
    requires found.Some? ==> found.value.verificationToken == Some(token)
    modifies if found.Some? then {found.value} else {}
    ensures r == VerifyCheck(if found.Some? then Some(old(found.value.Snapshot())) else None, now)
    ensures found.Some? ==>
              found.value.Snapshot()
                == if r.Pass? then AfterVerify(old(found.value.Snapshot())) else old(found.value.Snapshot())
    ensures r.Pass? ==> found.Some? && found.value.verificationToken != Some(token)
  {
    if found.None? {
      return Fail("Invalid verification token");
    }
    var user := found.value;
    if user.verificationTokenExpiry.None? {
      return Fail(VerificationExpiryNullMessage);
    }
    if user.verificationTokenExpiry.value < now {
      return Fail("Verification token has expired");
    }
    user.emailVerified := true;
    user.status := ACTIVE;
    user.verificationToken := None;
    user.verificationTokenExpiry := None;
    r := Pass;
  }

  /** resendVerificationEmail: `found` is the user with that e-mail. */
  method ResendVerificationEmail(found: Option<User>, now: int, token: string) returns (r: Outcome)
    modifies if found.Some? then {found.value} else {}
    ensures r == ResendCheck(if found.Some? then Some(old(found.value.Snapshot())) else None)
    ensures found.Some? ==>
              found.value.Snapshot()
                == if r.Pass? then AfterResend(old(found.value.Snapshot()), now, token) else old(found.value.Snapshot())
  {
    if found.None? {
      return Fail("User not found with this email");
    }
    var user := found.value;
    if user.emailVerified {
      return Fail("Email is already verified");
    }
    user.verificationToken := Some(token);
    user.verificationTokenExpiry := Some(now + VerificationMillis);
    r := Pass;
  }

  /** With tokens stored in pairs, the refresh and verification checks never
      meet a token without an expiry. */
  lemma PairedTokensHaveExpiry(a: Account, now: int)
    requires a.TokensPaired()
    ensures a.refreshToken.Some? ==> RefreshCheck(true, Some(a), now) != Fail(RefreshExpiryNullMessage)
    ensures a.verificationToken.Some? ==> VerifyCheck(Some(a), now) != Fail(VerificationExpiryNullMessage)
  {
  }
}
