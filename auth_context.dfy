/** The session controller (src/context/AuthContext.jsx): the React state
    `(token, user, loading, error)` of the auth provider, kept beside the
    credential store and driven by auto-login, login, logout and updateUser. */
module AuthContext {
  import opened Wrappers
  import opened Js
  import opened Records
  import opened TokenStore
  import opened Api
  import opened AuthService
  import Telegram

  const NoInitDataMessage := "Unable to get Telegram authentication data. Please try refreshing the app."
  const AutoLoginFailedMessage := "Authentication failed"
  const LoginFailedMessage := "Login failed"

  /** `!!token && !!user` */
  predicate Authenticated(token: Option<string>, user: Option<User>) {
    Truthy(token) && user.Some?
  }

  /** The way auto-login goes, decided by what is stored and by the init string. */
  datatype Branch = Adopt | Exchange(initData: string) | NoInitData

  function AutoLoginBranch(storedToken: Option<string>, storedUser: Option<User>, initData: Option<string>): (b: Branch)
    ensures b == Adopt <==> Authenticated(storedToken, storedUser)
    ensures b.Exchange? <==> !Authenticated(storedToken, storedUser) && NonBlank(initData)
    ensures b.Exchange? ==> Some(b.initData) == initData && HasContent(b.initData)
  {
    if Truthy(storedToken) && storedUser.Some? then Adopt
    else if initData.Some? && NonBlank(initData) then
      TrimNonEmptyIff(initData.value);
      Exchange(initData.value)
    else NoInitData
  }

  class Session {
    const api: Client
    var user: Option<User>
    var token: Option<string>
    var loading: bool
    var error: Option<string>

    ghost predicate Valid()
      reads this, api, api.store
    {
      api.Valid()
    }

    /** `isAuthenticated` */
    predicate IsAuthenticated(): (r: bool)
      reads this
      ensures r ==> token.Some? && token.value != "" && user.Some?
      ensures token.None? || user.None? ==> !r
    {
      Authenticated(token, user)
    }

    /** The provider's initial state. */
    constructor (api: Client)
      requires api.Valid()
      ensures Valid() && this.api == api
      ensures token == None && user == None && loading && error == None
    {
      this.api := api;
      token := None;
      user := None;
      loading := true;
      error := None;
    }

    /** `autoLogin`, run once on mount. The host environment is a parameter,
        and so is the transport outcome of the login request, if one is made. */
    method AutoLogin(env: Telegram.Env, outcome: Transport<LoginReply>)
      requires Valid()
      modifies this, api, api.store
      ensures Valid()
      ensures !loading
      ensures var b := AutoLoginBranch(TokenIn(old(api.store.items)), UserIn(old(api.store.items)), Telegram.GetInitData(env));
        && (b == Adopt ==>
              && token == TokenIn(old(api.store.items)) && user == UserIn(old(api.store.items))
              && IsAuthenticated() && error == old(error) && api.State() == old(api.State()))
        && (b == NoInitData ==>
              && error == Some(NoInitDataMessage) && token == old(token) && user == old(user)
              && api.State() == old(api.State()))
        && (b.Exchange? ==>
              var (s, r) := LoginStep(old(api.State()), b.initData, outcome);
              && api.sent == s.sent && api.pathname == s.pathname && api.navigations == s.navigations
              && (r.Ok? ==> && token == Some(r.value.token) && user == Some(r.value.user)
                            && error == old(error) && api.store.items == s.items)
              && (r.Err? ==> && error == Some(OrElse(r.error.message, AutoLoginFailedMessage))
                             && token == old(token) && user == old(user)
                             && api.store.items == Cleared(s.items)))
    {
      var storedToken := api.store.GetToken();
      var storedUser := api.store.GetUser();
      if Truthy(storedToken) && storedUser.Some? {
        token := storedToken;
        user := storedUser;
        loading := false;
        return;
      }
      var initData := Telegram.GetInitData(env);
      if Truthy(initData) && |Trim(initData.value)| > 0 {
        var result := TelegramLogin(api, initData.value, outcome);
        match result {
          case Ok(credentials) =>
            token := Some(credentials.token);
            user := Some(credentials.user);
          case Err(failure) =>
            error := Some(OrElse(failure.message, AutoLoginFailedMessage));
            api.store.ClearAuth();
        }
      } else {
        error := Some(NoInitDataMessage);
      }
      loading := false;
    }

    /** `login(initData)`: the promise rejects with the failure after recording it. */
    method Login(initData: string, outcome: Transport<LoginReply>) returns (r: Result<Credentials, Failure>)
      requires Valid()
      modifies this, api, api.store
      ensures Valid()
      ensures (api.State(), r) == LoginStep(old(api.State()), initData, outcome)
      ensures !loading
      ensures r.Ok? ==> token == Some(r.value.token) && user == Some(r.value.user) && error == None
      ensures r.Err? ==> error == Some(OrElse(r.error.message, LoginFailedMessage))
                         && token == old(token) && user == old(user)
    {
      loading := true;
      error := None;
      r := TelegramLogin(api, initData, outcome);
      match r {
        case Ok(credentials) =>
          token := Some(credentials.token);
          user := Some(credentials.user);
        case Err(failure) =>
          error := Some(OrElse(failure.message, LoginFailedMessage));
      }
      loading := false;
    }

    /** `logout()`: no request, storage and state both cleared. */
    method Logout()
      requires Valid()
      modifies this, api.store
      ensures Valid()
      ensures api.store.items == Cleared(old(api.store.items))
      ensures token == None && user == None && !IsAuthenticated()
      ensures loading == old(loading) && error == old(error)
    {
      api.store.ClearAuth();
      token := None;
      user := None;
    }

    /** `updateUser(userData)`: the same record goes to storage and to the state. */
    method UpdateUser(userData: User)
      requires Valid()
      modifies this, api.store
      ensures Valid()
      ensures api.store.items == old(api.store.items)[UserKey := UserJson(userData)]
      ensures user == Some(userData) && UserIn(api.store.items) == Some(userData)
      ensures token == old(token) && loading == old(loading) && error == old(error)
    {
      api.store.SetUser(userData);
      user := Some(userData);
    }
  }
}
