/** The backend's records as the client sees them. Every field the client may
    find missing is optional; amounts are the values `parseFloat` reads. */
module Records {
  import opened Wrappers

  /** The user profile snapshot kept in the session and in storage. */
  datatype User = User(
    id: Option<string>,
    telegramId: Option<string>,
    username: Option<string>,
    firstName: Option<string>,
    balance: Option<real>)

  /** `{}`: the object a spread of `null` produces. */
  const EmptyUser := User(None, None, None, None, None)

  /** A row of `/user/transactions`. */
  datatype Transaction = Transaction(id: string, txType: string, amount: real, status: string)

  /** A row of `/withdrawals`. */
  datatype Withdrawal = Withdrawal(id: string, amount: real, status: string)

  /** A referred user in one level of the referral tree. */
  datatype Referral = Referral(
    firstName: Option<string>,
    username: Option<string>,
    totalInvested: real,
    totalEarned: real)
}
