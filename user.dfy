/** The account fields of the User entity and the Spring Security predicates
    it derives from them. Dates are milliseconds on one clock; `now` is a
    parameter. */
module UserEntity {
  import opened Wrappers
  import opened JavaText

  datatype UserStatus = ACTIVE | INACTIVE | SUSPENDED | PENDING_VERIFICATION

  datatype Role = USER | ADMIN | MODERATOR | PREMIUM_USER

  /** Role.name(). */
  function RoleName(role: Role): string {
    match role
    case USER => "USER"
    case ADMIN => "ADMIN"
    case MODERATOR => "MODERATOR"
    case PREMIUM_USER => "PREMIUM_USER"
  }

  /** The authority string of one role. */
  function Authority(role: Role): (a: string)
    ensures StartsWith(a, "ROLE_") && a[5..] == RoleName(role)
  {
    "ROLE_" + RoleName(role)
  }

  /** Different roles give different authorities. */
  lemma AuthorityInjective(a: Role, b: Role)
    requires Authority(a) == Authority(b)
    ensures a == b
  {
    assert RoleName(a) == Authority(a)[5..] == Authority(b)[5..] == RoleName(b);
  }

  /** getAuthorities: one "ROLE_" authority per role. */
  function Authorities(roles: set<Role>): (r: set<string>)
    ensures forall role :: role in roles <==> Authority(role) in r
    ensures forall a :: a in r ==> StartsWith(a, "ROLE_")
  {
    var r := set role | role in roles :: Authority(role);
    assert forall role :: Authority(role) in r ==> role in roles by {
      forall role | Authority(role) in r
        ensures role in roles
      {
        var q :| q in roles && Authority(q) == Authority(role);
        AuthorityInjective(q, role);
      }
    }
    r
  }

  /** There are exactly as many authorities as roles. */
  lemma {:induction false} AuthoritiesCount(roles: set<Role>)
    ensures |Authorities(roles)| == |roles|
    decreases |roles|
  {
    if roles == {} {
      assert Authorities(roles) == {};
    } else {
      var x :| x in roles;
      var rest := roles - {x};
      AuthoritiesCount(rest);
      assert Authorities(roles) == Authorities(rest) + {Authority(x)};
      assert Authority(x) !in Authorities(rest);
    }
  }

  /** The account fields of a User as one value. The predicates of the
      entity are expressions over these fields; `deleted` is the soft-delete
      flag of the common entity base class. */
  datatype Account = Account(
    username: string,
    email: string,
    status: UserStatus,
    roles: set<Role>,
    emailVerified: bool,
    lastLoginAt: Option<int>,
    lastLoginIp: Option<string>,
    failedLoginAttempts: int,
    lockedUntil: Option<int>,
    refreshToken: Option<string>,
    refreshTokenExpiry: Option<int>,
    verificationToken: Option<string>,
    verificationTokenExpiry: Option<int>,
    deleted: bool)
  {
    /** isAccountNonLocked: no lock, or a lock that ended strictly before
        now. */
    predicate IsAccountNonLocked(now: int) {
      lockedUntil.None? || lockedUntil.value < now
    }

    /** isEnabled: ACTIVE and not soft-deleted. */
    predicate IsEnabled() {
      status == ACTIVE && !deleted
    }

    /** isAccountNonExpired and isCredentialsNonExpired hold for every
        user. */
    function IsAccountNonExpired(): (r: bool)
      ensures r
    {
      true
    }

    function IsCredentialsNonExpired(): (r: bool)
      ensures r
    {
      true
    }

    function GetAuthorities(): (r: set<string>)
      ensures |r| == |roles|
      ensures forall role :: role in roles <==> Authority(role) in r
    {
      AuthoritiesCount(roles);
      Authorities(roles)
    }

    /** A refresh token is always stored with its expiry, and so is a
        verification token. */
    predicate TokensPaired() {
      (refreshToken.Some? <==> refreshTokenExpiry.Some?)
      && (verificationToken.Some? <==> verificationTokenExpiry.Some?)
    }
  }

  /** A lock ends strictly after its instant: at the instant itself the
      account is still locked, one millisecond later it is not. */
  lemma LockBoundary(a: Account, t: int)
    requires a.lockedUntil == Some(t)
    ensures !a.IsAccountNonLocked(t) && a.IsAccountNonLocked(t + 1)
  {
  }

  /** The User entity, whose fields the account operations set one by one. */
  class User {
    var username: string
    var email: string
    var status: UserStatus
    var roles: set<Role>
    var emailVerified: bool
    var lastLoginAt: Option<int>
    var lastLoginIp: Option<string>
    var failedLoginAttempts: int
    var lockedUntil: Option<int>
    var refreshToken: Option<string>
    var refreshTokenExpiry: Option<int>
    var verificationToken: Option<string>
    var verificationTokenExpiry: Option<int>
    var deleted: bool

    /** User.builder() with the status, roles and verification flag given;
        every other field takes its default: no failed attempts, no lock,
        no tokens. */
    constructor(username: string, email: string, status: UserStatus, roles: set<Role>, emailVerified: bool)
      ensures Snapshot() == Account(username, email, status, roles, emailVerified, None, None, 0, None, None, None, None, None, false)
    {
      this.username := username;
      this.email := email;
      this.status := status;
      this.roles := roles;
      this.emailVerified := emailVerified;
      lastLoginAt := None;
      lastLoginIp := None;
      failedLoginAttempts := 0;
      lockedUntil := None;
      refreshToken := None;
      refreshTokenExpiry := None;
      verificationToken := None;
      verificationTokenExpiry := None;
      deleted := false;
    }

    /** The current field values. */
    function Snapshot(): Account
      reads this
    {
      Account(username, email, status, roles, emailVerified, lastLoginAt, lastLoginIp,
              failedLoginAttempts, lockedUntil, refreshToken, refreshTokenExpiry,
              verificationToken, verificationTokenExpiry, deleted)
    }
  }
}
