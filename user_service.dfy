/** The account endpoints (src/services/user.js). Each builds a body or query,
    calls one fixed path through the shared client and resolves with
    `response.data` unchanged. */
module UserService {
  import opened Wrappers
  import opened Js
  import opened Records
  import opened Api

  const ProfilePath := "/user/profile"
  const DepositPath := "/user/deposit"
  const DepositsPath := "/user/deposits"
  const WithdrawPath := "/user/withdraw"
  const WithdrawalsPath := "/withdrawals"
  const ReferralsPath := "/user/referrals"
  const TransactionsPath := "/user/transactions"

  const DefaultTransactionLimit := 50

  /** `/user/profile` reply; `wallet` and `investments` are display data only. */
  datatype ProfileReply = ProfileReply(user: Option<User>)
  /** `{success}` reply of the two create endpoints. */
  datatype Ack = Ack(success: bool)
  datatype WithdrawalList = WithdrawalList(withdrawals: Option<seq<Withdrawal>>)
  datatype TransactionList = TransactionList(transactions: Option<seq<Transaction>>)

  /** The `createDeposit` body: the referrer code is sent only when truthy. */
  function DepositBody(amount: real, referrerCode: Option<string>): (body: map<string, Value>)
    ensures "amount" in body && body["amount"] == Num(amount)
    ensures "referrer_code" in body <==> Truthy(referrerCode)
    ensures "referrer_code" in body ==> body["referrer_code"] == Str(referrerCode.value)
    ensures body.Keys <= {"amount", "referrer_code"}
  {
    map["amount" := Num(amount)]
      + if Truthy(referrerCode) then map["referrer_code" := Str(referrerCode.value)] else map[]
  }

  function WithdrawBody(amount: real): map<string, Value> {
    map["amount" := Num(amount)]
  }

  /** The `getTransactions` query; `limit` is None when the caller leaves it out. */
  function TransactionQuery(txType: Option<string>, status: Option<string>, limit: Option<int>): (q: map<string, Value>)
    ensures "limit" in q && q["limit"] == Num(limit.GetOr(DefaultTransactionLimit) as real)
    ensures "type" in q <==> Truthy(txType)
    ensures "type" in q ==> q["type"] == Str(txType.value)
    ensures "status" in q <==> Truthy(status)
    ensures "status" in q ==> q["status"] == Str(status.value)
    ensures q.Keys <= {"limit", "type", "status"}
  {
    map["limit" := Num(limit.GetOr(DefaultTransactionLimit) as real)]
      + (if Truthy(txType) then map["type" := Str(txType.value)] else map[])
      + (if Truthy(status) then map["status" := Str(status.value)] else map[])
  }

  /** The query object as `getTransactions` builds it, key by key. */
  method TransactionParams(txType: Option<string>, status: Option<string>, limit: Option<int>)
    returns (params: map<string, Value>)
    ensures params == TransactionQuery(txType, status, limit)
  {
    var n := if limit.Some? then limit.value else DefaultTransactionLimit;
    params := map["limit" := Num(n as real)];
    if Truthy(txType) {
      params := params["type" := Str(txType.value)];
    }
    if Truthy(status) {
      params := params["status" := Str(status.value)];
    }
  }

  /** `getProfile()` */
  method GetProfile(api: Client, outcome: Transport<ProfileReply>) returns (r: Result<ProfileReply, Failure>)
    requires api.Valid()
    modifies api, api.store
    ensures api.Valid()
    ensures api.State() == AfterCall(old(api.State()), Get, ProfilePath, map[], map[], outcome)
    ensures r == Settle(outcome)
  {
    r := api.Call(Get, ProfilePath, map[], map[], outcome);
  }

  /** `createDeposit(amount, referrerCode)` */
  method CreateDeposit(api: Client, amount: real, referrerCode: Option<string>, outcome: Transport<Ack>)
    returns (r: Result<Ack, Failure>)
    requires api.Valid()
    modifies api, api.store
    ensures api.Valid()
    ensures api.State() == AfterCall(old(api.State()), Post, DepositPath, DepositBody(amount, referrerCode), map[], outcome)
    ensures r == Settle(outcome)
  {
    r := api.Call(Post, DepositPath, DepositBody(amount, referrerCode), map[], outcome);
  }

  /** `getDeposits()`; the reply's shape is not used by any page. */
  method GetDeposits<T>(api: Client, outcome: Transport<T>) returns (r: Result<T, Failure>)
    requires api.Valid()
    modifies api, api.store
    ensures api.Valid()
    ensures api.State() == AfterCall(old(api.State()), Get, DepositsPath, map[], map[], outcome)
    ensures r == Settle(outcome)
  {
    r := api.Call(Get, DepositsPath, map[], map[], outcome);
  }

  /** `createWithdraw(amount)` */
  method CreateWithdraw(api: Client, amount: real, outcome: Transport<Ack>) returns (r: Result<Ack, Failure>)
    requires api.Valid()
    modifies api, api.store
    ensures api.Valid()
    ensures api.State() == AfterCall(old(api.State()), Post, WithdrawPath, WithdrawBody(amount), map[], outcome)
    ensures r == Settle(outcome)
  {
    r := api.Call(Post, WithdrawPath, WithdrawBody(amount), map[], outcome);
  }

  /** `getWithdrawals()` */
  method GetWithdrawals(api: Client, outcome: Transport<WithdrawalList>) returns (r: Result<WithdrawalList, Failure>)
    requires api.Valid()
    modifies api, api.store
    ensures api.Valid()
    ensures api.State() == AfterCall(old(api.State()), Get, WithdrawalsPath, map[], map[], outcome)
    ensures r == Settle(outcome)
  {
    r := api.Call(Get, WithdrawalsPath, map[], map[], outcome);
  }

  /** `getReferrals()`; the reply type is the Referrals page's. */
  method GetReferrals<T>(api: Client, outcome: Transport<T>) returns (r: Result<T, Failure>)
    requires api.Valid()
    modifies api, api.store
    ensures api.Valid()
    ensures api.State() == AfterCall(old(api.State()), Get, ReferralsPath, map[], map[], outcome)
    ensures r == Settle(outcome)
  {
    r := api.Call(Get, ReferralsPath, map[], map[], outcome);
  }

  /** `getTransactions(type, status, limit)` */
  method GetTransactions(api: Client, txType: Option<string>, status: Option<string>, limit: Option<int>,
                         outcome: Transport<TransactionList>) returns (r: Result<TransactionList, Failure>)
    requires api.Valid()
    modifies api, api.store
    ensures api.Valid()
    ensures api.State() == AfterCall(old(api.State()), Get, TransactionsPath, map[],
                                     TransactionQuery(txType, status, limit), outcome)
    ensures r == Settle(outcome)
  {
    var params := TransactionParams(txType, status, limit);
    r := api.Call(Get, TransactionsPath, map[], params, outcome);
  }
}
