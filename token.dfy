/** The credential store (src/utils/token.js): a bearer token and a user
    snapshot kept under two fixed keys of the browser's key-value storage. */
module TokenStore {
  import opened Wrappers
  import opened Records

  const TokenKey: string := "telegram_roi_token"
  const UserKey: string := "telegram_roi_user"

  /** A storage value: plain text, or the JSON text of a user record
      (`JSON.stringify`/`JSON.parse` are the identity on records). */
  datatype Item = Text(text: string) | UserJson(user: User)

  /** Only this module writes the two keys: the token key holds text and
      the user key holds a serialized user. */
  ghost predicate WellFormed(items: map<string, Item>) {
    && (TokenKey in items ==> items[TokenKey].Text?)
    && (UserKey in items ==> items[UserKey].UserJson?)
  }

  /** What `getToken()` returns for a storage snapshot (`null` is None). */
  function TokenIn(items: map<string, Item>): Option<string> {
    if TokenKey in items && items[TokenKey].Text? then Some(items[TokenKey].text) else None
  }

  /** What `getUser()` returns for a storage snapshot. */
  function UserIn(items: map<string, Item>): Option<User> {
    if UserKey in items && items[UserKey].UserJson? then Some(items[UserKey].user) else None
  }

  /** The storage after `clearAuth()`. */
  function Cleared(items: map<string, Item>): (r: map<string, Item>)
    ensures TokenKey !in r && UserKey !in r
    ensures forall k :: k != TokenKey && k != UserKey ==> (k in r <==> k in items)
    ensures forall k :: k in r ==> r[k] == items[k]
  {
    items - {TokenKey, UserKey}
  }

  class CredentialStore {
    var items: map<string, Item>

    ghost predicate Valid()
      reads this
    {
      WellFormed(items)
    }

    constructor (initial: map<string, Item>)
      requires WellFormed(initial)
      ensures Valid() && items == initial
    {
      items := initial;
    }

    /** `setToken` */
    method SetToken(token: string)
      requires Valid()
      modifies this
      ensures Valid()
      ensures items == old(items)[TokenKey := Text(token)]
    {
      items := items[TokenKey := Text(token)];
    }

    /** `getToken` */
    method GetToken() returns (token: Option<string>)
      requires Valid()
      ensures token.Some? <==> TokenKey in items
      ensures token.Some? ==> items[TokenKey] == Text(token.value)
    {
      if TokenKey in items {
        token := Some(items[TokenKey].text);
      } else {
        token := None;
      }
    }

    /** `removeToken` */
    method RemoveToken()
      requires Valid()
      modifies this
      ensures Valid()
      ensures items == old(items) - {TokenKey}
    {
      items := items - {TokenKey};
    }

    /** `setUser` */
    method SetUser(user: User)
      requires Valid()
      modifies this
      ensures Valid()
      ensures items == old(items)[UserKey := UserJson(user)]
    {
      items := items[UserKey := UserJson(user)];
    }

    /** `getUser`: a missing entry reads as `null`. */
    method GetUser() returns (user: Option<User>)
      requires Valid()
      ensures user.Some? <==> UserKey in items
      ensures user.Some? ==> items[UserKey] == UserJson(user.value)
    {
      if UserKey in items {
        user := Some(items[UserKey].user);
      } else {
        user := None;
      }
    }

    /** `removeUser` */
    method RemoveUser()
      requires Valid()
      modifies this
      ensures Valid()
      ensures items == old(items) - {UserKey}
    {
      items := items - {UserKey};
    }

    /** `clearAuth`: the two removals in turn. */
    method ClearAuth()
      requires Valid()
      modifies this
      ensures Valid()
      ensures items == Cleared(old(items))
    {
      RemoveToken();
      RemoveUser();
    }
  }

  /** After `setToken(t)`, `getToken()` returns t and `getUser()` is unchanged. */
  lemma SetTokenThenGet(items: map<string, Item>, t: string)
    ensures TokenIn(items[TokenKey := Text(t)]) == Some(t)
    ensures UserIn(items[TokenKey := Text(t)]) == UserIn(items)
  {
  }

  /** After `removeToken()`, `getToken()` returns `null` and `getUser()` is unchanged. */
  lemma RemoveTokenThenGet(items: map<string, Item>)
    ensures TokenIn(items - {TokenKey}) == None
    ensures UserIn(items - {TokenKey}) == UserIn(items)
  {
  }

  /** After `setUser(u)`, `getUser()` returns u and `getToken()` is unchanged. */
  lemma SetUserThenGet(items: map<string, Item>, u: User)
    ensures UserIn(items[UserKey := UserJson(u)]) == Some(u)
    ensures TokenIn(items[UserKey := UserJson(u)]) == TokenIn(items)
  {
  }

  /** After `removeUser()`, `getUser()` returns `null` and `getToken()` is unchanged. */
  lemma RemoveUserThenGet(items: map<string, Item>)
    ensures UserIn(items - {UserKey}) == None
    ensures TokenIn(items - {UserKey}) == TokenIn(items)
  {
  }

  /** `clearAuth` empties both keys, and doing it twice is doing it once. */
  lemma ClearAuthIdempotent(items: map<string, Item>)
    ensures TokenIn(Cleared(items)) == None && UserIn(Cleared(items)) == None
    ensures Cleared(Cleared(items)) == Cleared(items)
  {
  }
}
