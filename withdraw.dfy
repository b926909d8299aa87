/** The withdrawal page (src/pages/Withdraw.jsx): the amount check against
    the balance, the quick-amount buttons, the optimistic balance update
    after a request is accepted, and the withdrawal history. */
module Withdraw {
  import opened Wrappers
  import opened Js
  import opened Records
  import opened TokenStore
  import opened Api
  import opened UserService
  import opened AuthContext
  import Display

  const MinWithdrawal: real := 10.0
  const MinWithdrawalMessage := "Minimum withdrawal amount is $10"
  const InsufficientBalanceMessage := "Insufficient balance"
  const WithdrawFailedMessage := "Failed to create withdrawal request"
  const DashboardPath := "/dashboard"

  /** `parseFloat(user?.balance || 0)` */
  function BalanceOf(user: Option<User>): (b: real)
    ensures user.None? || user.value.balance.None? ==> b == 0.0
    ensures user.Some? && user.value.balance.Some? ==> b == user.value.balance.value
  {
    if user.Some? && user.value.balance.Some? then user.value.balance.value else 0.0
  }

  /** The submit-time check: the minimum first, then the balance. */
  function CheckWithdrawAmount(amount: Option<real>, balance: real): (r: Result<real, string>)
    ensures r.Ok? <==> amount.Some? && MinWithdrawal <= amount.value <= balance
    ensures r.Ok? ==> r.value == amount.value
    ensures amount.None? || amount.value < MinWithdrawal ==> r == Err(MinWithdrawalMessage)
    ensures amount.Some? && MinWithdrawal <= amount.value && amount.value > balance ==> r == Err(InsufficientBalanceMessage)
  {
    if amount.None? || amount.value < 10.0 then Err(MinWithdrawalMessage)
    else if amount.value > balance then Err(InsufficientBalanceMessage)
    else Ok(amount.value)
  }

  /** The submit button's `disabled` condition. */
  predicate SubmitDisabled(loading: bool, success: bool, balance: real): (disabled: bool)
    ensures !disabled ==> !loading && !success && balance >= MinWithdrawal
    ensures balance < MinWithdrawal ==> disabled
  {
    loading || success || balance < 10.0
  }

  /** Some amount passes the check exactly when the idle form's submit button
      is enabled: both need a balance of at least 10. */
  lemma AcceptableAmountIffEnabled(balance: real)
    ensures (exists a :: CheckWithdrawAmount(Some(a), balance).Ok?) <==> !SubmitDisabled(false, false, balance)
  {
    if balance >= 10.0 {
      assert CheckWithdrawAmount(Some(10.0), balance).Ok?;
    }
  }

  /** `{...user, balance: b}` read back: only the balance is replaced
      (a spread of `null` starts from `{}`). */
  function WithBalance(user: Option<User>, b: real): (u: User)
    ensures u.balance == Some(b)
    ensures user.Some? ==> u.(balance := user.value.balance) == user.value
    ensures user.None? ==> u.(balance := None) == EmptyUser
  {
    match user
    case Some(v) => v.(balance := Some(b))
    case None => EmptyUser.(balance := Some(b))
  }

  /** The balance the page writes back after an accepted request. */
  function BalanceAfter(balance: real, amount: real): real {
    Round2(balance - amount)
  }

  /** An accepted amount never drives the written-back balance negative, and
      the written-back balance is within half a cent of the exact difference. */
  lemma BalanceAfterNonNegative(amount: Option<real>, balance: real)
    requires CheckWithdrawAmount(amount, balance).Ok?
    ensures BalanceAfter(balance, amount.value) >= 0.0
    ensures -0.005 <= BalanceAfter(balance, amount.value) - (balance - amount.value) <= 0.005
  {
    Round2NonNegative(balance - amount.value);
    Round2Error(balance - amount.value);
  }

  datatype QuickButton = Quarter | Half | Max

  function Share(b: QuickButton): real {
    match b
    case Quarter => 0.25
    case Half => 0.5
    case Max => 1.0
  }

  /** The amount a quick button puts in the input, read back by `parseFloat`. */
  function QuickAmount(balance: real, b: QuickButton): (r: Option<real>)
    ensures r.Some?
    ensures -0.005 <= r.value - balance * Share(b) <= 0.005
  {
    Round2Error(balance * Share(b));
    Some(Round2(balance * Share(b)))
  }

  /** For a balance in whole cents, "Max" fills in the balance itself, which
      the check accepts once the balance reaches the minimum. */
  lemma MaxAcceptedForWholeCents(cents: int)
    requires cents >= 1000
    ensures QuickAmount(cents as real / 100.0, Max) == Some(cents as real / 100.0)
    ensures CheckWithdrawAmount(QuickAmount(cents as real / 100.0, Max), cents as real / 100.0).Ok?
  {
    assert cents as real / 100.0 * 1.0 == cents as real / 100.0;
    Round2Cents(cents);
  }

  /** With a balance of more than two decimals, "Max" can round up past the
      balance, and the check then refuses the amount it filled in. */
  lemma MaxCanExceedBalance()
    ensures QuickAmount(10.006, Max) == Some(10.01)
    ensures CheckWithdrawAmount(QuickAmount(10.006, Max), 10.006) == Err(InsufficientBalanceMessage)
  {
    assert (10.006 * 1.0 * 100.0 + 0.5).Floor == 1001;
  }

  /** The colour of a withdrawal's status line (the Dashboard's rule). */
  function WithdrawalColour(w: Withdrawal): (c: Display.Colour)
    ensures c == Display.Green <==> w.status == "approved" || w.status == "completed"
    ensures c == Display.Yellow <==> w.status == "pending"
  {
    Display.StatusColour(w.status)
  }

  /** The page's React state; the user and `updateUser` come from the session. */
  class WithdrawForm {
    const session: Session
    var amount: Option<real>
    var loading: bool
    var loadingHistory: bool
    var error: Option<string>
    var success: bool
    var withdrawals: seq<Withdrawal>
    var scheduledNavigation: Option<string>

    ghost predicate Valid()
      reads this, session, session.api, session.api.store
    {
      session.Valid()
    }

    constructor (session: Session)
      requires session.Valid()
      ensures Valid() && this.session == session
      ensures amount == None && !loading && loadingHistory && error == None && !success
      ensures withdrawals == [] && scheduledNavigation == None
    {
      this.session := session;
      amount := None;
      loading := false;
      loadingHistory := true;
      error := None;
      success := false;
      withdrawals := [];
      scheduledNavigation := None;
    }

    /** The balance shown and checked against. */
    function Balance(): real
      reads this, session
    {
      BalanceOf(session.user)
    }

    /** A quick-amount button. */
    method PressQuickAmount(b: QuickButton)
      modifies this
      ensures amount == QuickAmount(Balance(), b)
      ensures loading == old(loading) && loadingHistory == old(loadingHistory) && error == old(error)
      ensures success == old(success) && withdrawals == old(withdrawals)
      ensures scheduledNavigation == old(scheduledNavigation)
    {
      amount := Some(Round2(BalanceOf(session.user) * Share(b)));
    }

    /** `loadWithdrawals`: a missing list reads as empty; a failure is only logged. */
    method LoadWithdrawals(outcome: Transport<WithdrawalList>)
      requires Valid()
      modifies this, session.api, session.api.store
      ensures Valid()
      ensures session.api.State() == AfterCall(old(session.api.State()), Get, WithdrawalsPath, map[], map[], outcome)
      ensures !loadingHistory
      ensures withdrawals == if outcome.Delivered? then outcome.data.withdrawals.GetOr([]) else old(withdrawals)
      ensures amount == old(amount) && loading == old(loading) && error == old(error) && success == old(success)
      ensures scheduledNavigation == old(scheduledNavigation)
    {
      loadingHistory := true;
      var result := GetWithdrawals(session.api, outcome);
      if result.Ok? {
        withdrawals := if result.value.withdrawals.Some? then result.value.withdrawals.value else [];
      }
      loadingHistory := false;
    }

    /** `handleSubmit`. The outcomes of the withdrawal request and of the
        history reload are parameters; each is used only if its request is made. */
    method HandleSubmit(submitOutcome: Transport<Ack>, historyOutcome: Transport<WithdrawalList>)
      requires Valid()
      modifies this, session, session.api, session.api.store
      ensures Valid()
      ensures amount == old(amount)
      ensures loadingHistory == (if success then false else old(loadingHistory))
      ensures session.token == old(session.token) && session.loading == old(session.loading)
      ensures session.error == old(session.error)
      ensures var balance := BalanceOf(old(session.user));
              var checked := CheckWithdrawAmount(amount, balance);
        && (checked.Err? ==>
              && error == Some(checked.error) && !success && loading == old(loading)
              && withdrawals == old(withdrawals) && scheduledNavigation == old(scheduledNavigation)
              && session.user == old(session.user) && session.api.State() == old(session.api.State()))
        && (checked.Ok? ==>
              var afterSubmit := AfterCall(old(session.api.State()), Post, WithdrawPath, WithdrawBody(checked.value), map[], submitOutcome);
              && !loading
              && (success <==> submitOutcome.Delivered? && submitOutcome.data.success)
              && (success ==>
                    var updated := WithBalance(old(session.user), BalanceAfter(balance, checked.value));
                    && session.user == Some(updated)
                    && session.api.State() == AfterCall(afterSubmit.(items := afterSubmit.items[UserKey := UserJson(updated)]),
                                                        Get, WithdrawalsPath, map[], map[], historyOutcome)
                    && withdrawals == (if historyOutcome.Delivered? then historyOutcome.data.withdrawals.GetOr([])
                                       else old(withdrawals))
                    && scheduledNavigation == Some(DashboardPath)
                    && error == None)
              && (!success ==>
                    && session.user == old(session.user) && session.api.State() == afterSubmit
                    && withdrawals == old(withdrawals) && scheduledNavigation == old(scheduledNavigation)
                    && error == (if submitOutcome.Failed? then Some(OrElse(Classify(submitOutcome.error).message, WithdrawFailedMessage))
                                 else None)))
    {
      error := None;
      success := false;
      if amount.None? || amount.value < 10.0 {
        error := Some(MinWithdrawalMessage);
        return;
      }
      var user := session.user;
      var balance := BalanceOf(user);
      if amount.value > balance {
        error := Some(InsufficientBalanceMessage);
        return;
      }
      loading := true;
      var result := CreateWithdraw(session.api, amount.value, submitOutcome);
      match result {
        case Ok(reply) =>
          if reply.success {
            success := true;
            session.UpdateUser(WithBalance(user, Round2(balance - amount.value)));
            LoadWithdrawals(historyOutcome);
            scheduledNavigation := Some(DashboardPath);
          }
        case Err(failure) =>
          error := Some(OrElse(failure.message, WithdrawFailedMessage));
      }
      loading := false;
    }
  }
}
