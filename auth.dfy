/** The authentication context: who is signed in, the role tests every
    page uses, and the login, register, logout, refresh and start-up
    sequences. Calls to the server are parameters: each stands for the
    answer the server gave. */
module Auth {
  import opened Text
  import Api

  const ADMIN := "admin"
  const PROTOCOL_OFFICER := "protocol_officer"
  const PROTOCOL_INCHARGE := "protocol_incharge"
  const REQUESTEE := "requestee"

  /** The four roles of the system. */
  const Roles: seq<string> := [ADMIN, PROTOCOL_OFFICER, PROTOCOL_INCHARGE, REQUESTEE]

  /** A signed-in user. The role is the string the server sent, which need
      not be one of the four. */
  datatype User = User(id: int, username: string, email: string, userType: string, isActive: bool)

  // ---------------------------------------------------------------------------
  // Role tests

  /** The argument of `hasRole`: one role or a list of roles. */
  datatype RoleArg = One(role: string) | Many(roles: seq<string>)

  /** `hasRole`: false without a user; otherwise whether the user's role is
      among the given ones, a single role counting as a one-element list. */
  function HasRole(user: Option<User>, arg: RoleArg): (b: bool)
    ensures user.None? ==> !b
    ensures user.Some? && arg.One? ==> (b <==> user.value.userType == arg.role)
    ensures user.Some? && arg.Many? ==> (b <==> exists k :: 0 <= k < |arg.roles| && arg.roles[k] == user.value.userType)
  {
    match user
    case None => false
    case Some(u) =>
      var roleArray := if arg.Many? then arg.roles else [arg.role];
      u.userType in roleArray
  }

  /** `canAccess`: false without a user; otherwise membership of the user's
      role in the required roles. */
  function CanAccess(user: Option<User>, required: seq<string>): (b: bool)
    ensures b <==> user.Some? && user.value.userType in required
  {
    match user
    case None => false
    case Some(u) => u.userType in required
  }

  /** `isAuthenticated` */
  predicate IsAuthenticated(user: Option<User>) {
    user.Some?
  }

  /** A single role and the list of just that role are the same test, and
      `canAccess` is `hasRole` on a list. */
  lemma HasRoleOneIsMany(user: Option<User>, role: string, required: seq<string>)
    ensures HasRole(user, One(role)) == HasRole(user, Many([role]))
    ensures CanAccess(user, required) == HasRole(user, Many(required))
    ensures HasRole(user, Many(required)) ==> IsAuthenticated(user)
  {
  }

  /** The flags of `useRBAC`. */
  datatype Rbac = Rbac(
    isAdmin: bool,
    isProtocolOfficer: bool,
    isProtocolIncharge: bool,
    isRequestee: bool,
    canManageUsers: bool,
    canManageProtocols: bool)

  function RbacOf(user: Option<User>): (r: Rbac)
    ensures r.isAdmin == HasRole(user, One(ADMIN))
    ensures r.isProtocolOfficer == HasRole(user, One(PROTOCOL_OFFICER))
    ensures r.isProtocolIncharge == HasRole(user, One(PROTOCOL_INCHARGE))
    ensures r.isRequestee == HasRole(user, One(REQUESTEE))
    ensures r.canManageUsers == HasRole(user, Many([ADMIN]))
    ensures r.canManageProtocols == HasRole(user, Many([ADMIN, PROTOCOL_INCHARGE, PROTOCOL_OFFICER]))
  {
    Rbac(
      HasRole(user, One(ADMIN)),
      HasRole(user, One(PROTOCOL_OFFICER)),
      HasRole(user, One(PROTOCOL_INCHARGE)),
      HasRole(user, One(REQUESTEE)),
      HasRole(user, Many([ADMIN])),
      HasRole(user, Many([ADMIN, PROTOCOL_INCHARGE, PROTOCOL_OFFICER])))
  }

  /** Protocols are managed by exactly the admin, the in-charge and the
      officer: never by a requestee, never by an unknown role, never
      without a user. User management is the admin's alone, and a user holds
      at most one of the four role flags. */
  lemma RbacFlags(user: Option<User>)
    ensures RbacOf(user).canManageProtocols <==> RbacOf(user).isAdmin || RbacOf(user).isProtocolIncharge || RbacOf(user).isProtocolOfficer
    ensures RbacOf(user).canManageUsers <==> RbacOf(user).isAdmin
    ensures RbacOf(user).isRequestee ==> !RbacOf(user).canManageProtocols
    ensures user.Some? && user.value.userType !in Roles ==> RbacOf(user) == Rbac(false, false, false, false, false, false)
    ensures var r := RbacOf(user);
      (if r.isAdmin then 1 else 0) + (if r.isProtocolOfficer then 1 else 0)
      + (if r.isProtocolIncharge then 1 else 0) + (if r.isRequestee then 1 else 0) <= 1
  {
    assert ADMIN[0] != PROTOCOL_OFFICER[0] && ADMIN[0] != REQUESTEE[0];
    assert PROTOCOL_OFFICER[9] != PROTOCOL_INCHARGE[9];
    assert PROTOCOL_OFFICER[0] != REQUESTEE[0] && PROTOCOL_INCHARGE[0] != REQUESTEE[0];
  }

  /** The page a user is sent to after signing in, by role. */
  function RouteFor(userType: string): (route: string)
    ensures userType !in Roles ==> route == "/dashboard"
    ensures userType == ADMIN ==> route == "/admin"
    ensures userType == PROTOCOL_OFFICER ==> route == "/protocol-officer"
    ensures userType == PROTOCOL_INCHARGE ==> route == "/protocol-incharge"
    ensures userType == REQUESTEE ==> route == "/requestee"
  {
    if userType == ADMIN then "/admin"
    else if userType == PROTOCOL_OFFICER then "/protocol-officer"
    else if userType == PROTOCOL_INCHARGE then "/protocol-incharge"
    else if userType == REQUESTEE then "/requestee"
    else "/dashboard"
  }

  /** Each known role has its own landing page, and no known role lands on
      the general dashboard. */
  lemma RoutesAreDistinct(a: string, b: string)
    requires a in Roles && b in Roles && a != b
    ensures RouteFor(a) != RouteFor(b)
    ensures RouteFor(a) != "/dashboard"
  {
    assert ADMIN[0] != PROTOCOL_OFFICER[0] && ADMIN[0] != REQUESTEE[0];
    assert PROTOCOL_OFFICER[9] != PROTOCOL_INCHARGE[9];
    assert PROTOCOL_OFFICER[0] != REQUESTEE[0] && PROTOCOL_INCHARGE[0] != REQUESTEE[0];
    assert |RouteFor(ADMIN)| == 6 && |RouteFor(PROTOCOL_OFFICER)| == 17;
    assert |RouteFor(PROTOCOL_INCHARGE)| == 18 && |RouteFor(REQUESTEE)| == 10;
    assert RouteFor(REQUESTEE)[1] != "/dashboard"[1];
  }

  /** Pages that need no signed-in user. */
  const PUBLIC_PATHS: seq<string> := ["/login", "/register", "/"]

  // ---------------------------------------------------------------------------
  // The context

  /** The answer of a server call: a value, or the failure it threw. */
  datatype Answer<T> = Ok(value: T) | Failed(failure: Api.Failure)

  /** The `data` inside a login or register answer: absent, or an object
      whose `user` may be absent. */
  datatype SessionData = NoData | Data(user: Option<User>)

  datatype Credentials = Credentials(email: string, password: string)

  datatype RegisterData = RegisterData(username: string, email: string, password: string, confirmPassword: string, userType: Option<string>)

  /** What `register` sends: the form's data without `confirmPassword`. */
  datatype RegisterPayload = RegisterPayload(username: string, email: string, password: string, userType: Option<string>)

  const CREDENTIALS_REQUIRED := "Email and password are required"
  const PASSWORDS_DIFFER := "Passwords do not match"

  class AuthProvider {
    var user: Option<User>
    var isLoading: bool
    var isInitialized: bool

    constructor()
      ensures user == None && isLoading && !isInitialized
    {
      user := None;
      isLoading := true;
      isInitialized := false;
    }

    function IsAuthenticatedNow(): bool
      reads this
    {
      IsAuthenticated(user)
    }

    /** The start-up check, once: on a public page nobody is signed in;
        elsewhere the current user is asked for, then, if that fails, the
        token is refreshed and the user asked for again; if both fail nobody
        is signed in. An answer without a user signs nobody in. */
    method Init(pathname: string, current: Answer<Option<User>>, afterRefresh: Answer<Option<User>>)
      modifies this
      ensures old(isInitialized) ==> user == old(user) && isLoading == old(isLoading) && isInitialized
      ensures !old(isInitialized) ==> isInitialized && !isLoading
      ensures !old(isInitialized) && pathname in PUBLIC_PATHS ==> user == None
      ensures !old(isInitialized) && pathname !in PUBLIC_PATHS ==>
        user == (if current.Ok? then current.value
                 else if afterRefresh.Ok? then afterRefresh.value
                 else None)
    {
      if isInitialized {
        return;
      }
      if pathname in PUBLIC_PATHS {
        isLoading := false;
        isInitialized := true;
        user := None;
        return;
      }
      isLoading := true;
      if current.Ok? {
        user := current.value;
      } else if afterRefresh.Ok? {
        user := afterRefresh.value;
      } else {
        user := None;
      }
      isLoading := false;
      isInitialized := true;
    }

    /** `login`: empty fields throw before any call; when the call fails the
        user is kept, the toast shows the text `handleApiError` gives (the
        `error` output) and the original error is rethrown; a successful
        call signs the user in and picks the landing page by role.
        A successful answer without `data` throws a TypeError while the
        user is unpacked, and one without a user signs nobody in and then
        throws one while the welcome is built; `typeError` is that error's
        message. Loading ends either way. */
    method Login(credentials: Credentials, answer: Answer<SessionData>, typeError: string)
      returns (called: bool, route: Option<string>, error: Option<string>)
      modifies this
      ensures !isLoading && isInitialized == old(isInitialized)
      ensures called <==> credentials.email != "" && credentials.password != ""
      ensures !called ==> error == Some(CREDENTIALS_REQUIRED) && route == None && user == old(user)
      ensures called && answer.Failed? ==>
        error == Some(Api.HandleApiError(answer.failure)) && route == None && user == old(user)
      ensures called && answer == Ok(NoData) ==> error == Some(typeError) && route == None && user == old(user)
      ensures called && answer == Ok(Data(None)) ==> error == Some(typeError) && route == None && user == None
      ensures called && answer.Ok? && answer.value.Data? && answer.value.user.Some? ==>
        var u := answer.value.user.value;
        error == None && user == Some(u) && route == Some(RouteFor(u.userType))
      ensures route.Some? <==> error.None?
    {
      isLoading := true;
      called, route, error := false, None, None;
      if credentials.email == "" || credentials.password == "" {
        error := Some(Api.HandleApiError(Api.PlainError(CREDENTIALS_REQUIRED)));
      } else {
        called := true;
        match answer
        case Failed(f) =>
          error := Some(Api.HandleApiError(f));
        case Ok(NoData) =>
          error := Some(Api.HandleApiError(Api.PlainError(typeError)));
        case Ok(Data(None)) =>
          user := None;
          error := Some(Api.HandleApiError(Api.PlainError(typeError)));
        case Ok(Data(Some(u))) =>
          user := Some(u);
          route := Some(RouteFor(u.userType));
      }
      isLoading := false;
    }

    /** `register`: differing passwords throw before any call; otherwise the
        data goes without its confirmation; success signs the user in and
        opens the dashboard. A successful answer without `data` throws a
        TypeError (message `typeError`) while the user is unpacked; one
        without a user signs nobody in and still opens the dashboard.
        Loading ends either way. */
    method Register(data: RegisterData, answer: Answer<SessionData>, typeError: string)
      returns (sent: Option<RegisterPayload>, route: Option<string>, error: Option<string>)
      modifies this
      ensures !isLoading && isInitialized == old(isInitialized)
      ensures sent.Some? <==> data.password == data.confirmPassword
      ensures sent.Some? ==> sent.value == RegisterPayload(data.username, data.email, data.password, data.userType)
      ensures sent.None? ==> error == Some(PASSWORDS_DIFFER) && route == None && user == old(user)
      ensures sent.Some? && answer.Failed? ==>
        error == Some(Api.HandleApiError(answer.failure)) && route == None && user == old(user)
      ensures sent.Some? && answer == Ok(NoData) ==> error == Some(typeError) && route == None && user == old(user)
      ensures sent.Some? && answer.Ok? && answer.value.Data? ==>
        error == None && user == answer.value.user && route == Some("/dashboard")
      ensures route.Some? <==> error.None?
    {
      isLoading := true;
      sent, route, error := None, None, None;
      var payload := RegisterPayload(data.username, data.email, data.password, data.userType);
      if data.password != data.confirmPassword {
        error := Some(Api.HandleApiError(Api.PlainError(PASSWORDS_DIFFER)));
      } else {
        sent := Some(payload);
        match answer
        case Failed(f) =>
          error := Some(Api.HandleApiError(f));
        case Ok(NoData) =>
          error := Some(Api.HandleApiError(Api.PlainError(typeError)));
        case Ok(Data(u)) =>
          user := u;
          route := Some("/dashboard");
      }
      isLoading := false;
    }

    /** `logout`: whether or not the server call succeeds, nobody is signed
        in afterwards and the login page opens. */
    method Logout(callSucceeded: bool) returns (route: string)
      modifies this
      ensures user == None && !IsAuthenticatedNow() && route == "/login" && !isLoading
      ensures isInitialized == old(isInitialized)
    {
      isLoading := true;
      if callSucceeded {
        user := None;
        route := "/login";
      } else {
        user := None;
        route := "/login";
      }
      isLoading := false;
    }

    /** `refreshToken`: a refresh that answers with a user replaces the
        user; one that answers without keeps it; a failed one signs the user
        out and rethrows. */
    method RefreshToken(answer: Answer<Option<User>>) returns (thrown: bool)
      modifies this
      ensures thrown <==> answer.Failed?
      ensures answer.Failed? ==> user == None
      ensures answer.Ok? && answer.value.Some? ==> user == answer.value
      ensures answer.Ok? && answer.value.None? ==> user == old(user)
      ensures isLoading == old(isLoading) && isInitialized == old(isInitialized)
    {
      thrown := false;
      match answer
      case Failed(_) =>
        user := None;
        thrown := true;
      case Ok(returned) =>
        if returned.Some? {
          user := returned;
        }
    }
  }

  /** The text shown for the two input guards is the guard's own message. */
  lemma GuardMessagesShown()
    ensures Api.HandleApiError(Api.PlainError(CREDENTIALS_REQUIRED)) == CREDENTIALS_REQUIRED
    ensures Api.HandleApiError(Api.PlainError(PASSWORDS_DIFFER)) == PASSWORDS_DIFFER
  {
  }
}
