/** The authentication context: the seeded staff accounts, the permission check, and the
    login / logout / session-termination state machine with its five-strike lockout and
    fixed-code second factor. */
module AuthContext {

  import opened Wrappers

  /** An entry of the module-level `mockUsers` array. `login` mutates these objects in place
      (the attempt counter and the lock flag). */
  datatype Account = Account(
    id: string,
    name: string,
    email: string,
    password: string,
    role: string,
    permissions: seq<string>,
    isActive: bool,
    is2FAEnabled: bool,
    loginAttempts: nat,
    isLocked: bool)

  /** The signed-in user: the account without its password, stamped with the login time. */
  datatype User = User(
    id: string,
    name: string,
    email: string,
    role: string,
    permissions: seq<string>,
    lastLogin: string,
    isActive: bool,
    is2FAEnabled: bool,
    loginAttempts: nat,
    isLocked: bool)

  datatype LoginSession = LoginSession(
    sessionId: string,
    userId: string,
    ipAddress: string,
    userAgent: string,
    loginTime: string,
    isActive: bool)

  /** The `{ success, requires2FA?, message? }` object `login` resolves to; an absent
      `requires2FA` is `false`. */
  datatype LoginResult = LoginResult(success: bool, requires2FA: bool, message: string)

  const MaxLoginAttempts: nat := 5
  const MockOtp: string := "123456"
  const MockIpAddress: string := "192.168.1.1"

  /** The five seeded staff accounts. */
  function SeedAccounts(): (accounts: seq<Account>)
    ensures |accounts| == 5
    ensures forall a :: a in accounts ==> a.loginAttempts == 0 && !a.isLocked && a.isActive
  {
    [ Account("ADM001", "System Administrator", "admin@paisadekho.com", "admin123",
              "admin", ["all"], true, false, 0, false),
      Account("CRO001", "Amit Sharma", "amit@paisadekho.com", "credit123",
              "credit_officer", ["loans", "underwriting", "kyc", "disbursement"], true, false, 0, false),
      Account("RSK001", "Priya Singh", "priya@paisadekho.com", "risk123",
              "risk_manager", ["risk", "underwriting", "loans", "analytics", "fraud"], true, false, 0, false),
      Account("COL001", "Rahul Verma", "rahul@paisadekho.com", "collect123",
              "collections_officer", ["collections", "disbursement", "repayment"], true, false, 0, false),
      Account("COM001", "Sneha Patel", "sneha@paisadekho.com", "comply123",
              "compliance_officer", ["kyc", "compliance", "reporting", "audit"], true, false, 0, false) ]
  }

  /** `list.includes(x)`: a left-to-right scan for an exact, case-sensitive match. */
  function Includes(list: seq<string>, x: string): (found: bool)
    ensures found <==> x in list
  {
    if list == [] then false
    else if list[0] == x then true
    else Includes(list[1..], x)
  }

  /** `hasPermission`: no user has no permission; otherwise the wildcard `'all'` or an exact
      entry grants it. */
  function HasPermission(user: Option<User>, permission: string): (granted: bool)
    ensures granted <==> user.Some? && ("all" in user.value.permissions || permission in user.value.permissions)
  {
    match user
    case None => false
    case Some(u) => Includes(u.permissions, "all") || Includes(u.permissions, permission)
  }

  /** A user holding the wildcard is granted every permission, named or not, even "". */
  lemma WildcardGrantsEverything(u: User, permission: string)
    requires "all" in u.permissions
    ensures HasPermission(Some(u), permission)
  {
  }

  /** Matching is exact: a permission list without the wildcard grants nothing it does not
      name, so "loan" is not "loans". */
  lemma NoPrefixMatching(u: User)
    requires u.permissions == ["loans"]
    ensures !HasPermission(Some(u), "loan") && !HasPermission(Some(u), "Loans")
  {
  }

  /** `mockUsers.find(u => u.email === email && u.isActive)`: the first active account with
      that exact email. */
  function FindActive(accounts: seq<Account>, email: string): (found: Option<nat>)
    ensures found.Some? ==> found.value < |accounts|
                            && accounts[found.value].email == email && accounts[found.value].isActive
                            && forall j :: 0 <= j < found.value ==> !(accounts[j].email == email && accounts[j].isActive)
    ensures found.None? ==> forall j :: 0 <= j < |accounts| ==> !(accounts[j].email == email && accounts[j].isActive)
  {
    if accounts == [] then None
    else if accounts[0].email == email && accounts[0].isActive then Some(0)
    else match FindActive(accounts[1..], email)
      case None => None
      case Some(k) => Some(k + 1)
  }

  /** The lockout invariant every account keeps: at most five recorded failures, and locked
      exactly when five were reached. */
  predicate LockConsistent(a: Account)
  {
    a.loginAttempts <= MaxLoginAttempts && (a.isLocked <==> a.loginAttempts >= MaxLoginAttempts)
  }

  /** What one failed password does to an account: one more attempt, locked on reaching five. */
  function RecordFailure(a: Account): (b: Account)
    ensures b.loginAttempts == a.loginAttempts + 1
    ensures b.isLocked <==> (a.isLocked || b.loginAttempts >= MaxLoginAttempts)
    ensures b == a.(loginAttempts := b.loginAttempts, isLocked := b.isLocked)
  {
    var attempts := a.loginAttempts + 1;
    a.(loginAttempts := attempts, isLocked := if attempts >= MaxLoginAttempts then true else a.isLocked)
  }

  /** A failure recorded on an unlocked, consistent account keeps it consistent. */
  lemma RecordFailureKeepsConsistent(a: Account)
    requires LockConsistent(a) && !a.isLocked
    ensures LockConsistent(RecordFailure(a))
  {
  }

  /** Five wrong passwords in a row lock a fresh account. */
  lemma FiveFailuresLock(a: Account)
    requires a.loginAttempts == 0 && !a.isLocked
    ensures RecordFailure(RecordFailure(RecordFailure(RecordFailure(a)))).isLocked == false
    ensures RecordFailure(RecordFailure(RecordFailure(RecordFailure(RecordFailure(a))))).isLocked
  {
  }

  /** The second factor is missing when `otp` is undefined or the empty string (falsy). */
  predicate OtpMissing(otp: Option<string>)
  {
    otp.None? || otp.value == ""
  }

  /** How `login` treats the account it found, in the order of its checks. */
  datatype Verdict = Locked | WrongPassword | TwoFactorRequired | WrongOtp | Granted

  function LoginVerdict(a: Account, password: string, otp: Option<string>): Verdict
  {
    if a.isLocked then Locked
    else if a.password != password then WrongPassword
    else if a.is2FAEnabled && OtpMissing(otp) then TwoFactorRequired
    else if a.is2FAEnabled && otp.value != MockOtp then WrongOtp
    else Granted
  }

  /** A locked account is refused before its password is looked at. */
  lemma LockedRefusedWhateverPassword(a: Account, password: string, otp: Option<string>)
    requires a.isLocked
    ensures LoginVerdict(a, password, otp) == Locked
  {
  }

  /** Access is granted exactly when the account is unlocked, the password matches, and either
      there is no second factor or the fixed code was given. */
  lemma GrantedIff(a: Account, password: string, otp: Option<string>)
    ensures LoginVerdict(a, password, otp) == Granted <==>
            !a.isLocked && a.password == password && (!a.is2FAEnabled || otp == Some(MockOtp))
  {
  }

  const InvalidCredentials: LoginResult := LoginResult(false, false, "Invalid credentials")

  function ResultFor(v: Verdict): LoginResult
  {
    match v
    case Locked => LoginResult(false, false, "Account is locked due to multiple failed attempts")
    case WrongPassword => InvalidCredentials
    case TwoFactorRequired => LoginResult(false, true, "Please enter your 2FA code")
    case WrongOtp => LoginResult(false, false, "Invalid 2FA code")
    case Granted => LoginResult(true, false, "Login successful")
  }

  /** `userWithoutPassword`, built after the counters were reset. */
  function SignedInUser(a: Account, now: string): (u: User)
    ensures u.id == a.id && u.permissions == a.permissions && u.role == a.role
    ensures u.name == a.name && u.email == a.email
    ensures u.isActive == a.isActive && u.is2FAEnabled == a.is2FAEnabled
    ensures u.loginAttempts == 0 && !u.isLocked && u.lastLogin == now
  {
    User(a.id, a.name, a.email, a.role, a.permissions, now, a.isActive, a.is2FAEnabled, 0, false)
  }

  /** The session a successful login appends. The random id, the browser's user agent and the
      clock are passed in. */
  function NewSession(a: Account, sessionId: string, userAgent: string, now: string): (s: LoginSession)
    ensures s.userId == a.id && s.isActive
  {
    LoginSession(sessionId, a.id, MockIpAddress, userAgent, now, true)
  }

  /** Sessions after `logout`: every session of the signed-out user is flagged inactive. */
  function EndSessionsOf(sessions: seq<LoginSession>, user: Option<User>): (r: seq<LoginSession>)
    ensures |r| == |sessions|
    ensures forall i :: 0 <= i < |r| ==>
              if user.Some? && sessions[i].userId == user.value.id then r[i] == sessions[i].(isActive := false)
              else r[i] == sessions[i]
  {
    seq(|sessions|, i requires 0 <= i < |sessions| =>
      if user.Some? && sessions[i].userId == user.value.id then sessions[i].(isActive := false) else sessions[i])
  }

  /** Sessions after `terminateSession(id)`: only sessions carrying that id are flagged inactive. */
  function EndSessionWithId(sessions: seq<LoginSession>, sessionId: string): (r: seq<LoginSession>)
    ensures |r| == |sessions|
    ensures forall i :: 0 <= i < |r| ==>
              if sessions[i].sessionId == sessionId then r[i] == sessions[i].(isActive := false)
              else r[i] == sessions[i]
  {
    seq(|sessions|, i requires 0 <= i < |sessions| =>
      if sessions[i].sessionId == sessionId then sessions[i].(isActive := false) else sessions[i])
  }

  /** Number of active sessions in a list. */
  function ActiveCount(sessions: seq<LoginSession>): nat
  {
    if sessions == [] then 0 else (if sessions[0].isActive then 1 else 0) + ActiveCount(sessions[1..])
  }

  /** Flagging sessions inactive never increases the number of active sessions. */
  lemma {:induction false} EndSessionWithIdNoMoreActive(sessions: seq<LoginSession>, sessionId: string)
    ensures ActiveCount(EndSessionWithId(sessions, sessionId)) <= ActiveCount(sessions)
  {
    if sessions != [] {
      EndSessionWithIdNoMoreActive(sessions[1..], sessionId);
      assert EndSessionWithId(sessions, sessionId)[1..] == EndSessionWithId(sessions[1..], sessionId);
    }
  }

  /** Ending the sessions of a user twice is the same as ending them once. */
  lemma EndSessionsOfIdempotent(sessions: seq<LoginSession>, user: Option<User>)
    ensures EndSessionsOf(EndSessionsOf(sessions, user), user) == EndSessionsOf(sessions, user)
  {
  }

  /** The provider's state: `mockUsers` (shared, mutated by login), the signed-in user, the
      authentication flag and the session list. */
  class AuthProvider {
    var accounts: seq<Account>
    var user: Option<User>
    var isAuthenticated: bool
    var loginSessions: seq<LoginSession>

    /** The flag and the user are always set together, and every account keeps the lockout
        invariant. */
    ghost predicate Valid()
      reads this
    {
      (isAuthenticated <==> user.Some?)
      && forall i :: 0 <= i < |accounts| ==> LockConsistent(accounts[i])
    }

    /** A fresh provider: seeded accounts, nobody signed in, no sessions. */
    constructor ()
      ensures Valid()
      ensures accounts == SeedAccounts() && user == None && !isAuthenticated && loginSessions == []
    {
      accounts := SeedAccounts();
      user := None;
      isAuthenticated := false;
      loginSessions := [];
    }

    function Permitted(permission: string): (granted: bool)
      reads this
    {
      HasPermission(user, permission)
    }

    /** `login(email, password, otp)`. Early returns, in the source's order: unknown or
        inactive email, locked account, wrong password (counted), missing second factor,
        wrong second factor; otherwise the counters are reset, a session is appended and the
        user is signed in. */
    method Login(email: string, password: string, otp: Option<string>,
                 sessionId: string, userAgent: string, now: string) returns (result: LoginResult)
      requires Valid()
      modifies this
      ensures Valid()
      ensures |accounts| == |old(accounts)|
      // an account that was locked stays exactly as it was
      ensures forall k :: 0 <= k < |accounts| && old(accounts)[k].isLocked ==> accounts[k] == old(accounts)[k]
      ensures FindActive(old(accounts), email).None? ==>
                result == InvalidCredentials
                && accounts == old(accounts) && user == old(user)
                && isAuthenticated == old(isAuthenticated) && loginSessions == old(loginSessions)
      ensures FindActive(old(accounts), email).Some? ==>
                var a := old(accounts)[FindActive(old(accounts), email).value];
                result == ResultFor(LoginVerdict(a, password, otp))
      ensures FindActive(old(accounts), email).Some? ==>
                var i := FindActive(old(accounts), email).value;
                var a := old(accounts)[i];
                LoginVerdict(a, password, otp) == WrongPassword ==>
                  accounts == old(accounts)[i := RecordFailure(a)]
                  && user == old(user) && isAuthenticated == old(isAuthenticated)
                  && loginSessions == old(loginSessions)
      ensures FindActive(old(accounts), email).Some? ==>
                var v := LoginVerdict(old(accounts)[FindActive(old(accounts), email).value], password, otp);
                v == Locked || v == TwoFactorRequired || v == WrongOtp ==>
                  accounts == old(accounts) && user == old(user)
                  && isAuthenticated == old(isAuthenticated) && loginSessions == old(loginSessions)
      ensures FindActive(old(accounts), email).Some? ==>
                var i := FindActive(old(accounts), email).value;
                var a := old(accounts)[i];
                LoginVerdict(a, password, otp) == Granted ==>
                  accounts == old(accounts)[i := a.(loginAttempts := 0, isLocked := false)]
                  && loginSessions == old(loginSessions) + [NewSession(a, sessionId, userAgent, now)]
                  && user == Some(SignedInUser(a, now)) && isAuthenticated
    {
      var found := FindActive(accounts, email);
      if found.None? {
        return InvalidCredentials;
      }
      var i := found.value;
      var foundUser := accounts[i];

      if foundUser.isLocked {
        return LoginResult(false, false, "Account is locked due to multiple failed attempts");
      }

      if foundUser.password != password {
        accounts := accounts[i := RecordFailure(foundUser)];
        return InvalidCredentials;
      }

      if foundUser.is2FAEnabled && OtpMissing(otp) {
        return LoginResult(false, true, "Please enter your 2FA code");
      }

      if foundUser.is2FAEnabled && !OtpMissing(otp) {
        if otp.value != MockOtp {
          return LoginResult(false, false, "Invalid 2FA code");
        }
      }

      accounts := accounts[i := foundUser.(loginAttempts := 0, isLocked := false)];
      loginSessions := loginSessions + [NewSession(foundUser, sessionId, userAgent, now)];
      user := Some(SignedInUser(foundUser, now));
      isAuthenticated := true;
      return LoginResult(true, false, "Login successful");
    }

    /** `logout`: signs out and flags every session of the signed-out user inactive. */
    method Logout()
      requires Valid()
      modifies this
      ensures Valid()
      ensures user == None && !isAuthenticated && accounts == old(accounts)
      ensures loginSessions == EndSessionsOf(old(loginSessions), old(user))
    {
      var updatedSessions := EndSessionsOf(loginSessions, user);
      user := None;
      isAuthenticated := false;
      loginSessions := updatedSessions;
    }

    /** `terminateSession(sessionId)`: flags the sessions with that id inactive, nothing else. */
    method TerminateSession(sessionId: string)
      modifies this
      ensures loginSessions == EndSessionWithId(old(loginSessions), sessionId)
      ensures accounts == old(accounts) && user == old(user) && isAuthenticated == old(isAuthenticated)
    {
      loginSessions := EndSessionWithId(loginSessions, sessionId);
    }
  }

  /** A short client: a wrong password is counted, then the right one signs the officer in,
      resets the counter and opens exactly one session. */
  method RecoveryScenario()
  {
    var auth := new AuthProvider();
    assert auth.accounts[1].email == "amit@paisadekho.com";
    var r := auth.Login("amit@paisadekho.com", "wrong", None, "s1", "agent", "t1");
    assert r == InvalidCredentials && auth.accounts[1].loginAttempts == 1 && !auth.isAuthenticated;
    r := auth.Login("amit@paisadekho.com", "credit123", None, "s2", "agent", "t2");
    assert r.success && auth.isAuthenticated && auth.accounts[1].loginAttempts == 0;
    assert auth.loginSessions == [LoginSession("s2", "CRO001", MockIpAddress, "agent", "t2", true)];
  }
}
