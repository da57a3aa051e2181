/**
 * The admin hook: the admin profile query, and login/logout mutations whose success handlers
 * touch the query cache and the location. Each mutation is two steps, as it is in the browser:
 * `mutate` marks it pending, and settling it with the server's outcome runs its handlers.
 */
module AdminAuth {
  import opened Wrappers

  const ProfileQueryKey := "/api/admin/profile"
  const DashboardPath := "/admin/dashboard"
  const LoginPath := "/admin/login"

  datatype Admin = Admin(id: nat, email: string, role: string, isActive: bool)

  /** What the profile query reports: its data, whether it is still loading, whether it failed. */
  datatype ProfileQuery = ProfileQuery(admin: Option<Admin>, isLoading: bool, hasError: bool)

  /** `isAuthenticated`: profile data is present and the query has not failed. */
  predicate IsAuthenticated(q: ProfileQuery) {
    q.admin.Some? && !q.hasError
  }

  /** Why the last login mutation failed. */
  datatype LoginError = LoginFailed | NetworkError

  class AdminSession {
    var location: string
    /** Keys of the queries held in the query cache, and those of them marked stale. */
    var cached: set<string>
    var stale: set<string>
    var loginPending: bool
    var logoutPending: bool
    var loginError: Option<LoginError>

    constructor (location: string, cached: set<string>)
      ensures this.location == location && this.cached == cached && stale == {}
      ensures !loginPending && !logoutPending && loginError == None
    {
      this.location := location;
      this.cached := cached;
      stale := {};
      loginPending := false;
      logoutPending := false;
      loginError := None;
    }

    /** `isLoggingIn` and `isLoggingOut` mirror the pending state of their mutations. */
    predicate IsLoggingIn()
      reads this
    {
      loginPending
    }

    predicate IsLoggingOut()
      reads this
    {
      logoutPending
    }

    /**
     * `login(credentials)`: a fresh login mutation starts, so the error of any earlier attempt
     * is no longer reported while it is pending.
     */
    method BeginLogin()
      modifies this
      ensures loginPending && IsLoggingIn() && loginError == None
      ensures location == old(location) && cached == old(cached) && stale == old(stale)
      ensures logoutPending == old(logoutPending)
    {
      loginPending := true;
      loginError := None;
    }

    /**
     * The login mutation settles with the outcome of `POST /api/admin/login`. Success marks the
     * profile query stale and goes to the dashboard; a rejection raises "Login failed" and a
     * network failure its own error, and the error handler only logs: nothing else moves.
     */
    method SettleLogin(reply: Reply<Admin>)
      modifies this
      ensures !loginPending && !IsLoggingIn() && logoutPending == old(logoutPending)
      ensures cached == old(cached)
      ensures reply.Ok? ==>
        loginError == None && location == DashboardPath && stale == old(stale) + {ProfileQueryKey}
      ensures reply.Rejected? ==>
        loginError == Some(LoginFailed) && location == old(location) && stale == old(stale)
      ensures reply.TransportError? ==>
        loginError == Some(NetworkError) && location == old(location) && stale == old(stale)
    {
      match reply {
        case Ok(_) =>
          loginError := None;
          stale := stale + {ProfileQueryKey};
          location := DashboardPath;
        case Rejected(_) =>
          loginError := Some(LoginFailed);
        case TransportError =>
          loginError := Some(NetworkError);
      }
      loginPending := false;
    }

    /** `logout()`: the logout mutation starts. */
    method BeginLogout()
      modifies this
      ensures logoutPending && IsLoggingOut()
      ensures location == old(location) && cached == old(cached) && stale == old(stale)
      ensures loginPending == old(loginPending) && loginError == old(loginError)
    {
      logoutPending := true;
    }

    /**
     * The logout mutation settles. It succeeds whenever the response body parses, whatever the
     * status; success empties the whole query cache and goes to the admin login page. A failure
     * has no handler, so cache and location stay as they were.
     */
    method SettleLogout(bodyParsed: bool)
      modifies this
      ensures !logoutPending && !IsLoggingOut()
      ensures loginPending == old(loginPending) && loginError == old(loginError)
      ensures bodyParsed ==> cached == {} && stale == {} && location == LoginPath
      ensures !bodyParsed ==>
        cached == old(cached) && stale == old(stale) && location == old(location)
    {
      if bodyParsed {
        cached := {};
        stale := {};
        location := LoginPath;
      }
      logoutPending := false;
    }
  }
}
