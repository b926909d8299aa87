/** The login exchange (src/services/auth.js): trade the platform's init
    string for a bearer token, store the credentials, or throw. */
module AuthService {
  import opened Wrappers
  import opened Records
  import opened TokenStore
  import opened Api

  const LoginPath := "/auth/telegram"
  const AuthenticationFailedMessage := "Authentication failed"

  /** The body of a `/auth/telegram` reply. */
  datatype LoginReply = LoginReply(success: bool, token: string, user: User)

  /** What `telegramLogin` resolves with: `{success: true, token, user}`. */
  datatype Credentials = Credentials(token: string, user: User)

  function LoginBody(initData: string): map<string, Value> {
    map["initData" := Str(initData)]
  }

  /** The client state and the settled promise after `telegramLogin(initData)`. */
  function LoginStep(s: ClientState, initData: string, outcome: Transport<LoginReply>): (r: (ClientState, Result<Credentials, Failure>))
    ensures r.0.sent == s.sent + [Outgoing(s.items, Post, LoginPath, LoginBody(initData), map[])]
    ensures r.1.Ok? <==> outcome.Delivered? && outcome.data.success
    ensures r.1.Ok? ==> TokenIn(r.0.items) == Some(r.1.value.token) && UserIn(r.0.items) == Some(r.1.value.user)
  {
    var t := AfterCall(s, Post, LoginPath, LoginBody(initData), map[], outcome);
    match outcome
    case Failed(e) => (t, Err(Classify(e)))
    case Delivered(reply) =>
      if reply.success then
        (t.(items := t.items[TokenKey := Text(reply.token)][UserKey := UserJson(reply.user)]),
         Ok(Credentials(reply.token, reply.user)))
      else
        (t, Err(Failure(Some(AuthenticationFailedMessage), None, None)))
  }

  /** One request is sent; on success the credentials returned are exactly the
      ones now stored, every other key is kept and nothing navigates; a refusal stores nothing; a transport failure is
      passed on as the client rejected it and stores nothing (a 401 clears). */
  lemma LoginStepProperties(s: ClientState, initData: string, outcome: Transport<LoginReply>)
    ensures var (t, r) := LoginStep(s, initData, outcome);
      && t.sent == s.sent + [Outgoing(s.items, Post, LoginPath, LoginBody(initData), map[])]
      && (r.Ok? <==> outcome.Delivered? && outcome.data.success)
      && (r.Ok? ==> TokenIn(t.items) == Some(r.value.token) && UserIn(t.items) == Some(r.value.user))
      && (r.Ok? ==> t.items - {TokenKey, UserKey} == s.items - {TokenKey, UserKey})
      && (r.Ok? ==> t.pathname == s.pathname && t.navigations == s.navigations)
      && (outcome.Delivered? && !outcome.data.success ==>
            && r.error.message == Some(AuthenticationFailedMessage)
            && t.items == s.items)
      && (outcome.Failed? ==>
            && r == Err(Classify(outcome.error))
            && t.items == (if Unauthorized(outcome.error) then Cleared(s.items) else s.items))
  {
  }

  /** `telegramLogin(initData)` */
  method TelegramLogin(api: Client, initData: string, outcome: Transport<LoginReply>)
    returns (r: Result<Credentials, Failure>)
    requires api.Valid()
    modifies api, api.store
    ensures api.Valid()
    ensures (api.State(), r) == LoginStep(old(api.State()), initData, outcome)
  {
    var response := api.Call(Post, LoginPath, LoginBody(initData), map[], outcome);
    match response {
      case Err(f) =>
        r := Err(f);
      case Ok(reply) =>
        if reply.success {
          api.store.SetToken(reply.token);
          api.store.SetUser(reply.user);
          r := Ok(Credentials(reply.token, reply.user));
        } else {
          r := Err(Failure(Some(AuthenticationFailedMessage), None, None));
        }
    }
  }
}
