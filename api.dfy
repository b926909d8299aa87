/** The shared HTTP client (src/services/api.js): a request interceptor that
    attaches the bearer token and a response interceptor that sorts failures
    into one rejection shape and handles 401. The transport itself is not
    modelled: each call is given the outcome the transport produced. */
module Api {
  import opened Wrappers
  import opened Js
  import opened TokenStore

  datatype Verb = Get | Post

  /** A JSON scalar in a request body or query string. Members that are
      `undefined` are dropped by serialization, so they are simply absent. */
  datatype Value = Num(n: real) | Str(s: string)

  datatype Request = Request(
    verb: Verb,
    path: string,
    headers: map<string, string>,
    body: map<string, Value>,
    params: map<string, Value>)

  const AuthorizationHeader := "Authorization"
  const BearerPrefix := "Bearer "
  const BaseHeaders: map<string, string> := map["Content-Type" := "application/json"]

  /** `response.data` of a failed request, with the `error` member the backend may send. */
  datatype ErrorData = ErrorData(error: Option<string>)

  /** A failed request as the transport reports it to the response interceptor. */
  datatype HttpError =
    | ServerError(status: int, data: Option<ErrorData>, message: Option<string>)  // `error.response` is set
    | NoResponse(message: Option<string>)   // `error.request` is set, no response came back
    | SetupError(message: Option<string>)   // anything else

  /** The value a failed call rejects with: the interceptor's `{message, status, data}`,
      or an `Error` a service throws itself (no status, no data). */
  datatype Failure = Failure(message: Option<string>, status: Option<int>, data: Option<ErrorData>)

  /** What the transport produced for one request. */
  datatype Transport<T> = Delivered(data: T) | Failed(error: HttpError)

  const NetworkErrorMessage := "Network error. Please check your connection."
  const UnexpectedErrorMessage := "An unexpected error occurred"

  /** The request interceptor on a header map: `Authorization: Bearer <token>`
      when the stored token is truthy, the headers untouched otherwise. */
  function WithBearer(headers: map<string, string>, token: Option<string>): map<string, string> {
    if Truthy(token) then headers[AuthorizationHeader := BearerPrefix + token.value] else headers
  }

  /** The token a server reads back out of the `Authorization` header. */
  function BearerOf(headers: map<string, string>): Option<string> {
    if AuthorizationHeader in headers
       && |BearerPrefix| <= |headers[AuthorizationHeader]|
       && headers[AuthorizationHeader][..|BearerPrefix|] == BearerPrefix
    then Some(headers[AuthorizationHeader][|BearerPrefix|..])
    else None
  }

  /** The header carries exactly the stored token when there is one, and every
      other header is left as it was. */
  lemma BearerRoundTrip(headers: map<string, string>, token: Option<string>)
    ensures Truthy(token) ==> BearerOf(WithBearer(headers, token)) == token
    ensures !Truthy(token) ==> WithBearer(headers, token) == headers
    ensures forall h :: h != AuthorizationHeader ==>
              (h in WithBearer(headers, token) <==> h in headers)
    ensures forall h :: h != AuthorizationHeader && h in headers ==> WithBearer(headers, token)[h] == headers[h]
  {
    if Truthy(token) {
      var v := BearerPrefix + token.value;
      assert v[..|BearerPrefix|] == BearerPrefix;
      assert v[|BearerPrefix|..] == token.value;
    }
  }

  /** A 401 response: the only failure that clears the credentials. */
  predicate Unauthorized(e: HttpError) {
    e.ServerError? && e.status == 401
  }

  /** The rejection the response interceptor builds for a failure. */
  function Classify(e: HttpError): (f: Failure)
    ensures e.ServerError? ==> f.status == Some(e.status) && f.data == e.data
    ensures e.ServerError? && e.data.Some? && Truthy(e.data.value.error) ==> f.message == e.data.value.error
    ensures e.ServerError? && (e.data.None? || !Truthy(e.data.value.error)) ==> f.message == e.message
    ensures !e.ServerError? ==> f.status == Some(0) && f.data == None && Truthy(f.message)
    ensures e.NoResponse? ==> f.message == Some(NetworkErrorMessage)
    ensures e.SetupError? && Truthy(e.message) ==> f.message == e.message
    ensures e.SetupError? && !Truthy(e.message) ==> f.message == Some(UnexpectedErrorMessage)
  {
    match e
    case ServerError(status, data, message) =>
      Failure(Or(if data.Some? then data.value.error else None, message), Some(status), data)
    case NoResponse(_) =>
      Failure(Some(NetworkErrorMessage), Some(0), None)
    case SetupError(message) =>
      Failure(Some(OrElse(message, UnexpectedErrorMessage)), Some(0), None)
  }

  /** On a 401 the client navigates to '/' unless it is already there. */
  function RedirectOn(e: HttpError, pathname: string): (target: Option<string>)
    ensures target.Some? <==> Unauthorized(e) && pathname != "/"
    ensures target.Some? ==> target.value == "/"
  {
    if Unauthorized(e) && pathname != "/" then Some("/") else None
  }

  /** The settled promise of a call: the response data unchanged, or the rejection. */
  function Settle<T>(outcome: Transport<T>): Result<T, Failure> {
    match outcome
    case Delivered(data) => Ok(data)
    case Failed(e) => Err(Classify(e))
  }

  /** Everything a call can change: storage, the log of requests sent, and
      the `window.location.href` assignments made. `pathname` is the current
      document's path; assigning `href` starts a page load but does not change
      it, so it is the same for every call the page makes. */
  datatype ClientState = ClientState(
    items: map<string, Item>,
    sent: seq<Request>,
    pathname: string,
    navigations: seq<string>)

  /** The request as it leaves the request interceptor. */
  function Outgoing(items: map<string, Item>, verb: Verb, path: string,
                    body: map<string, Value>, params: map<string, Value>): Request {
    Request(verb, path, WithBearer(BaseHeaders, TokenIn(items)), body, params)
  }

  /** The client state once the request interceptor has run and the request is on its way. */
  function Sent(s: ClientState, verb: Verb, path: string, body: map<string, Value>,
                params: map<string, Value>): (t: ClientState)
    ensures t.sent == s.sent + [Outgoing(s.items, verb, path, body, params)]
    ensures t.items == s.items && t.pathname == s.pathname && t.navigations == s.navigations
  {
    s.(sent := s.sent + [Outgoing(s.items, verb, path, body, params)])
  }

  /** The `href` assignments the response interceptor makes for one outcome. */
  function RedirectsOf<T>(outcome: Transport<T>, pathname: string): (r: seq<string>)
    ensures r == [] || r == ["/"]
    ensures r == ["/"] <==> outcome.Failed? && Unauthorized(outcome.error) && pathname != "/"
  {
    if outcome.Failed? && RedirectOn(outcome.error, pathname).Some? then ["/"] else []
  }

  /** The client state once the response interceptor has handled an outcome. */
  function Received<T>(s: ClientState, outcome: Transport<T>): (t: ClientState)
    ensures t.sent == s.sent && t.pathname == s.pathname
    ensures t.navigations == s.navigations + RedirectsOf(outcome, s.pathname)
    ensures t.items == if outcome.Failed? && Unauthorized(outcome.error) then Cleared(s.items) else s.items
  {
    match outcome
    case Delivered(_) => s
    case Failed(e) =>
      ClientState(if Unauthorized(e) then Cleared(s.items) else s.items, s.sent, s.pathname,
                  s.navigations + RedirectsOf(outcome, s.pathname))
  }

  /** The client state after one call whose transport outcome is `outcome`. */
  function AfterCall<T>(s: ClientState, verb: Verb, path: string, body: map<string, Value>,
                        params: map<string, Value>, outcome: Transport<T>): (t: ClientState)
    ensures t.sent == s.sent + [Outgoing(s.items, verb, path, body, params)]
    ensures outcome.Delivered? ==> t == s.(sent := t.sent)
    ensures t.navigations == s.navigations || t.navigations == s.navigations + ["/"]
  {
    Received(Sent(s, verb, path, body, params), outcome)
  }

  /** Every call sends exactly one request; only a 401 touches storage, and then
      both credentials are gone while every other key survives; only a 401 away
      from `/` navigates, once, to `/`. */
  lemma CallEffects<T>(s: ClientState, verb: Verb, path: string, body: map<string, Value>,
                       params: map<string, Value>, outcome: Transport<T>)
    ensures var t := AfterCall(s, verb, path, body, params, outcome);
      && |t.sent| == |s.sent| + 1 && t.sent[..|s.sent|] == s.sent
      && t.sent[|s.sent|].path == path
      && BearerOf(t.sent[|s.sent|].headers) == (if Truthy(TokenIn(s.items)) then TokenIn(s.items) else None)
      && (!(outcome.Failed? && Unauthorized(outcome.error)) ==> t.items == s.items)
      && (outcome.Failed? && Unauthorized(outcome.error) ==> TokenIn(t.items) == None && UserIn(t.items) == None)
      && (forall k :: k != TokenKey && k != UserKey ==> (k in t.items <==> k in s.items))
      && t.pathname == s.pathname
      && (t.navigations == s.navigations + ["/"] <==> outcome.Failed? && RedirectOn(outcome.error, s.pathname).Some?)
  {
    var t := AfterCall(s, verb, path, body, params, outcome);
    var h := Outgoing(s.items, verb, path, body, params).headers;
    BearerRoundTrip(BaseHeaders, TokenIn(s.items));
    if !Truthy(TokenIn(s.items)) {
      assert AuthorizationHeader !in BaseHeaders;
    }
    if t.navigations == s.navigations + ["/"] {
      assert |t.navigations| == |s.navigations| + 1;
    }
  }

  /** The config object the request interceptor receives and mutates. */
  class RequestConfig {
    const verb: Verb
    const path: string
    var headers: map<string, string>
    const body: map<string, Value>
    const params: map<string, Value>

    constructor (verb: Verb, path: string, body: map<string, Value>, params: map<string, Value>)
      ensures this.verb == verb && this.path == path && this.body == body && this.params == params
      ensures headers == BaseHeaders
    {
      this.verb := verb;
      this.path := path;
      this.body := body;
      this.params := params;
      headers := BaseHeaders;
    }

    function Snapshot(): Request
      reads this
    {
      Request(verb, path, headers, body, params)
    }
  }

  class Client {
    const store: CredentialStore
    var sent: seq<Request>
    const pathname: string
    var navigations: seq<string>

    ghost predicate Valid()
      reads this, store
    {
      store.Valid()
    }

    function State(): ClientState
      reads this, store
    {
      ClientState(store.items, sent, pathname, navigations)
    }

    constructor (store: CredentialStore, pathname: string)
      requires store.Valid()
      ensures Valid() && this.store == store
      ensures sent == [] && this.pathname == pathname && navigations == []
    {
      this.store := store;
      this.pathname := pathname;
      sent := [];
      navigations := [];
    }

    /** The request interceptor. */
    method InterceptRequest(config: RequestConfig)
      requires Valid()
      modifies config
      ensures config.headers == WithBearer(old(config.headers), TokenIn(store.items))
    {
      var token := store.GetToken();
      if token.Some? && token.value != "" {
        config.headers := config.headers[AuthorizationHeader := BearerPrefix + token.value];
      }
    }

    /** The failure branch of the response interceptor: 401 clears the
        credentials and leaves the page, then every failure rejects. */
    method InterceptError(e: HttpError) returns (f: Failure)
      requires Valid()
      modifies this, store
      ensures Valid()
      ensures f == Classify(e)
      ensures store.items == if Unauthorized(e) then Cleared(old(store.items)) else old(store.items)
      ensures RedirectOn(e, pathname).Some? ==> navigations == old(navigations) + ["/"]
      ensures RedirectOn(e, pathname).None? ==> navigations == old(navigations)
      ensures sent == old(sent)
    {
      if e.ServerError? {
        if e.status == 401 {
          store.ClearAuth();
          if pathname != "/" {
            navigations := navigations + ["/"];
          }
        }
        var message := if e.data.Some? && Truthy(e.data.value.error) then e.data.value.error else e.message;
        f := Failure(message, Some(e.status), e.data);
      } else if e.NoResponse? {
        f := Failure(Some(NetworkErrorMessage), Some(0), None);
      } else {
        f := Failure(Some(if Truthy(e.message) then e.message.value else UnexpectedErrorMessage), Some(0), None);
      }
    }

    /** The request half of a call: the request interceptor runs and the
        request leaves. */
    method Send(verb: Verb, path: string, body: map<string, Value>, params: map<string, Value>)
      requires Valid()
      modifies this
      ensures Valid()
      ensures State() == Sent(old(State()), verb, path, body, params)
    {
      var config := new RequestConfig(verb, path, body, params);
      InterceptRequest(config);
      sent := sent + [config.Snapshot()];
    }

    /** The response half of a call: a reply passes through unchanged, a
        failure goes through the error interceptor. */
    method Receive<T>(outcome: Transport<T>) returns (r: Result<T, Failure>)
      requires Valid()
      modifies this, store
      ensures Valid()
      ensures State() == Received(old(State()), outcome)
      ensures r == Settle(outcome)
    {
      match outcome {
        case Delivered(data) =>
          r := Ok(data);
        case Failed(e) =>
          var f := InterceptError(e);
          r := Err(f);
      }
    }

    /** One call through both interceptors. */
    method Call<T>(verb: Verb, path: string, body: map<string, Value>, params: map<string, Value>,
                   outcome: Transport<T>) returns (r: Result<T, Failure>)
      requires Valid()
      modifies this, store
      ensures Valid()
      ensures State() == AfterCall(old(State()), verb, path, body, params, outcome)
      ensures r == Settle(outcome)
    {
      Send(verb, path, body, params);
      r := Receive(outcome);
    }
  }
}
