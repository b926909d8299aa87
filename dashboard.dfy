/** The dashboard (src/pages/Dashboard.jsx): `loadData` fetches the profile
    and the five latest transactions, and refreshes the session's user. */
module Dashboard {
  import opened Wrappers
  import opened Js
  import opened Records
  import opened TokenStore
  import opened Api
  import opened UserService
  import opened AuthContext
  import Display

  const RecentTransactionLimit := 5
  const LoadFailedMessage := "Failed to load data"

  /** The sign and colour a transaction row is drawn with. */
  datatype TxLook = TxLook(sign: char, amountColour: Display.Colour, statusColour: Display.Colour)

  function TransactionLook(tx: Transaction): (l: TxLook)
    ensures l.sign == '+' <==> l.amountColour == Display.Green
    ensures l.sign == '+' <==> Display.IsCredit(tx.txType)
    ensures l.statusColour == Display.StatusColour(tx.status)
  {
    Display.SignAgreesWithColour(tx.txType);
    TxLook(Display.TxSign(tx.txType), Display.AmountColour(tx.txType), Display.StatusColour(tx.status))
  }

  /** The client state after the two requests `loadData` starts together:
      `Promise.all` starts both calls, so both request interceptors run before
      either reply is handled; the profile reply is then handled first. */
  function AfterFetch(s: ClientState, profileOutcome: Transport<ProfileReply>,
                      txOutcome: Transport<TransactionList>): ClientState {
    var both := Sent(Sent(s, Get, ProfilePath, map[], map[]),
                     Get, TransactionsPath, map[], TransactionQuery(None, None, Some(RecentTransactionLimit)));
    Received(Received(both, profileOutcome), txOutcome)
  }

  /** Both requests are built from the storage as it was before either reply,
      so both carry the same token, the transactions one with `limit` 5 and no
      filter; each failure is handled on its own, so two 401s clear the
      credentials and navigate to `/` twice. */
  lemma FetchSendsBoth(s: ClientState, profileOutcome: Transport<ProfileReply>, txOutcome: Transport<TransactionList>)
    ensures var t := AfterFetch(s, profileOutcome, txOutcome);
      && |t.sent| == |s.sent| + 2 && t.sent[..|s.sent|] == s.sent
      && t.sent[|s.sent|] == Outgoing(s.items, Get, ProfilePath, map[], map[])
      && t.sent[|s.sent| + 1] == Outgoing(s.items, Get, TransactionsPath, map[], map["limit" := Num(5.0)])
      && t.pathname == s.pathname
      && t.navigations == s.navigations + RedirectsOf(profileOutcome, s.pathname) + RedirectsOf(txOutcome, s.pathname)
      && t.items == (if (profileOutcome.Failed? && Unauthorized(profileOutcome.error))
                        || (txOutcome.Failed? && Unauthorized(txOutcome.error))
                     then Cleared(s.items) else s.items)
  {
    var q := TransactionQuery(None, None, Some(RecentTransactionLimit));
    assert q.Keys == {"limit"};
    assert q == map["limit" := Num(5.0)];
    var both := Sent(Sent(s, Get, ProfilePath, map[], map[]), Get, TransactionsPath, map[], q);
    assert both.sent == s.sent + [Outgoing(s.items, Get, ProfilePath, map[], map[]),
                                  Outgoing(s.items, Get, TransactionsPath, map[], q)];
    var t1 := Received(both, profileOutcome);
    if profileOutcome.Failed? && Unauthorized(profileOutcome.error) {
      assert Cleared(t1.items) == Cleared(s.items);
    }
  }

  /** The page's React state; the user and `updateUser` come from the session. */
  class DashboardView {
    const session: Session
    var profile: Option<ProfileReply>
    var transactions: seq<Transaction>
    var loading: bool
    var error: Option<string>

    ghost predicate Valid()
      reads this, session, session.api, session.api.store
    {
      session.Valid()
    }

    constructor (session: Session)
      requires session.Valid()
      ensures Valid() && this.session == session
      ensures profile == None && transactions == [] && loading && error == None
    {
      this.session := session;
      profile := None;
      transactions := [];
      loading := true;
      error := None;
    }

    /** `loadData`: both requests leave before either reply is handled. When
        both fail the model reports the profile's failure (which one
        `Promise.all` reports depends on timing). */
    method LoadData(profileOutcome: Transport<ProfileReply>, txOutcome: Transport<TransactionList>)
      requires Valid()
      modifies this, session, session.api, session.api.store
      ensures Valid()
      ensures !loading
      ensures session.token == old(session.token) && session.loading == old(session.loading)
      ensures session.error == old(session.error)
      ensures var fetched := AfterFetch(old(session.api.State()), profileOutcome, txOutcome);
        && (profileOutcome.Delivered? && txOutcome.Delivered? ==>
              && profile == Some(profileOutcome.data)
              && transactions == txOutcome.data.transactions.GetOr([])
              && error == None
              && (profileOutcome.data.user.Some? ==>
                    && session.user == profileOutcome.data.user
                    && session.api.State() == fetched.(items := fetched.items[UserKey := UserJson(profileOutcome.data.user.value)]))
              && (profileOutcome.data.user.None? ==>
                    session.user == old(session.user) && session.api.State() == fetched))
        && (profileOutcome.Failed? || txOutcome.Failed? ==>
              var failure := if profileOutcome.Failed? then Classify(profileOutcome.error) else Classify(txOutcome.error);
              && error == Some(OrElse(failure.message, LoadFailedMessage))
              && profile == old(profile) && transactions == old(transactions)
              && session.user == old(session.user) && session.api.State() == fetched)
    {
      loading := true;
      error := None;
      session.api.Send(Get, ProfilePath, map[], map[]);
      var params := TransactionParams(None, None, Some(RecentTransactionLimit));
      session.api.Send(Get, TransactionsPath, map[], params);
      var profileResult := session.api.Receive(profileOutcome);
      var txResult := session.api.Receive(txOutcome);
      if profileResult.Err? {
        error := Some(OrElse(profileResult.error.message, LoadFailedMessage));
      } else if txResult.Err? {
        error := Some(OrElse(txResult.error.message, LoadFailedMessage));
      } else {
        profile := Some(profileResult.value);
        transactions := if txResult.value.transactions.Some? then txResult.value.transactions.value else [];
        if profileResult.value.user.Some? {
          session.UpdateUser(profileResult.value.user.value);
        }
      }
      loading := false;
    }
  }
}
