/** The auth store of src/store/authStore.js as an object whose actions assign
    its fields in place.  `refreshToken` is the pair RefreshToken (up to the
    call to the refresh endpoint) and SettleRefresh (the handlers that run
    when that call settles).  Endpoint replies are parameters.  Every action
    is proved to leave the store in the state the matching function of
    AuthSpec computes, and to keep the pending-refresh slot coherent. */
module AuthStore {
  import opened Common
  import AuthSpec

  class Store {
    var user: Option<AuthSpec.User>
    var accessToken: Option<string>
    var isAuthChecked: bool
    var isRefreshing: bool
    var refreshPromise: Option<AuthSpec.Handle>
    /** Calls made to the refresh endpoint so far; not a field of the source
        store, it numbers the refresh promises. */
    var refreshCalls: nat

    function State(): AuthSpec.AuthState
      reads this
    {
      AuthSpec.AuthState(user, accessToken, isAuthChecked, isRefreshing, refreshPromise, refreshCalls)
    }

    ghost predicate Valid()
      reads this
    {
      AuthSpec.SlotCoherent(State())
    }

    constructor ()
      ensures State() == AuthSpec.Initial()
      ensures Valid()
    {
      user := None;
      accessToken := None;
      isAuthChecked := false;
      isRefreshing := false;
      refreshPromise := None;
      refreshCalls := 0;
    }

    /** Getter `isAuthenticated`. */
    function IsAuthenticated(): (b: bool)
      reads this
      ensures b == AuthSpec.IsAuthenticated(State())
    {
      match accessToken
      case None => false
      case Some(token) => |token| > 0
    }

    method Login(response: Result<AuthSpec.Credentials, Error>) returns (r: Outcome)
      requires Valid()
      modifies this
      ensures Step(State(), r) == AuthSpec.Login(old(State()), response)
      ensures Valid()
    {
      match response {
        case Success(c) =>
          accessToken := Some(c.accessToken);
          isAuthChecked := true;
          user := c.user;
          r := Pass;
        case Failure(e) =>
          isAuthChecked := true;
          r := Fail(e);
      }
    }

    /** `refreshToken` up to the call to the refresh endpoint. */
    method RefreshToken() returns (start: AuthSpec.RefreshStart)
      requires Valid()
      modifies this
      ensures Step(State(), start) == AuthSpec.BeginRefresh(old(State()))
      ensures Valid()
    {
      if isAuthChecked && !IsAuthenticated() {
        return AuthSpec.Rejected(AuthSpec.NotAuthenticated);
      }
      if isRefreshing {
        return AuthSpec.Joined(refreshPromise);
      }
      isRefreshing := true;
      refreshCalls := refreshCalls + 1;
      refreshPromise := Some(refreshCalls);
      start := AuthSpec.Started(refreshCalls);
    }

    /** The handlers chained on the refresh call, run when it settles with `result`. */
    method SettleRefresh(result: Result<AuthSpec.Credentials, Error>) returns (r: Result<AuthSpec.Credentials, Error>)
      requires Valid()
      modifies this
      ensures Step(State(), r) == AuthSpec.CompleteRefresh(old(State()), result)
      ensures Valid()
    {
      match result {
        case Success(response) =>
          accessToken := Some(response.accessToken);
          isAuthChecked := true;
          user := response.user;
        case Failure(e) =>
          Logout();
      }
      isRefreshing := false;
      refreshPromise := None;
      r := result;
    }

    /** `checkAuth` up to the point where it waits. */
    method CheckAuth() returns (start: AuthSpec.CheckAuthStart)
      requires Valid()
      modifies this
      ensures Step(State(), start) == AuthSpec.CheckAuth(old(State()))
      ensures Valid()
    {
      if isAuthChecked && !IsAuthenticated() {
        return AuthSpec.Skipped;
      }
      if isRefreshing {
        return AuthSpec.AwaitsPending(refreshPromise);
      }
      var own := RefreshToken();
      start := AuthSpec.StartedOwn(own.handle);
    }

    method Logout()
      modifies this
      ensures State() == AuthSpec.Logout(old(State()))
      ensures Valid()
    {
      user := None;
      accessToken := None;
      isAuthChecked := true;
      isRefreshing := false;
      refreshPromise := None;
    }

    method FetchUser(response: Result<AuthSpec.User, Error>) returns (r: Outcome)
      requires Valid()
      modifies this
      ensures Step(State(), r) == AuthSpec.FetchUser(old(State()), response)
      ensures Valid()
    {
      if !IsAuthenticated() {
        user := None;
        return Pass;
      }
      match response {
        case Success(userData) =>
          user := Some(userData);
          r := Pass;
        case Failure(e) =>
          user := None;
          r := Fail(e);
      }
    }
  }
}
