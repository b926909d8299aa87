/** The deposit page (src/pages/Deposit.jsx): the amount check, the
    three-tier package shown beside it, and the submit handler. The amount
    is the value `parseFloat` reads from the input, None for NaN or ''. */
module Deposit {
  import opened Wrappers
  import opened Js
  import opened Api
  import opened UserService

  const MinDeposit: real := 35.0
  const MaxDeposit: real := 100000.0
  const MinDepositMessage := "Minimum deposit amount is $35"
  const MaxDepositMessage := "Maximum deposit amount is $100,000"
  const DepositFailedMessage := "Failed to create deposit request"
  const DashboardPath := "/dashboard"

  /** A package tier and its daily percentage. */
  datatype Package = Package(tier: int, percent: real)

  /** `getPackageType` */
  function PackageType(amount: Option<real>): (p: Option<Package>)
    ensures p.Some? ==> amount.Some? && MinDeposit <= amount.value <= MaxDeposit
    ensures p.Some? ==> p.value in {Package(1, 0.5), Package(2, 1.0), Package(3, 2.0)}
  {
    if amount.None? then None
    else if 35.0 <= amount.value <= 499.0 then Some(Package(1, 0.5))
    else if 500.0 <= amount.value <= 4999.0 then Some(Package(2, 1.0))
    else if 5000.0 <= amount.value <= 100000.0 then Some(Package(3, 2.0))
    else None
  }

  /** Each tier covers exactly its closed range; the ranges are disjoint, so at
      most one tier applies, and every other amount has none. */
  lemma PackageRanges(x: real)
    ensures PackageType(Some(x)) == Some(Package(1, 0.5)) <==> 35.0 <= x <= 499.0
    ensures PackageType(Some(x)) == Some(Package(2, 1.0)) <==> 500.0 <= x <= 4999.0
    ensures PackageType(Some(x)) == Some(Package(3, 2.0)) <==> 5000.0 <= x <= 100000.0
    ensures PackageType(Some(x)).None? <==>
      !(35.0 <= x <= 499.0 || 500.0 <= x <= 4999.0 || 5000.0 <= x <= 100000.0)
  {
  }

  /** A higher tier pays a strictly higher percentage. */
  lemma PercentIncreasesWithTier(x: real, y: real)
    requires PackageType(Some(x)).Some? && PackageType(Some(y)).Some?
    requires PackageType(Some(x)).value.tier < PackageType(Some(y)).value.tier
    ensures PackageType(Some(x)).value.percent < PackageType(Some(y)).value.percent
  {
  }

  /** The submit-time check, minimum first. */
  function CheckDepositAmount(amount: Option<real>): (r: Result<real, string>)
    ensures r.Ok? <==> amount.Some? && MinDeposit <= amount.value <= MaxDeposit
    ensures r.Ok? ==> r.value == amount.value
    ensures amount.None? || amount.value < MinDeposit ==> r == Err(MinDepositMessage)
    ensures amount.Some? && amount.value > MaxDeposit ==> r == Err(MaxDepositMessage)
  {
    if amount.None? || amount.value < 35.0 then Err(MinDepositMessage)
    else if amount.value > 100000.0 then Err(MaxDepositMessage)
    else Ok(amount.value)
  }

  /** Every whole-dollar amount the check accepts has a tier. */
  lemma WholeAmountsHaveTier(n: int)
    requires CheckDepositAmount(Some(n as real)).Ok?
    ensures PackageType(Some(n as real)).Some?
  {
  }

  /** An accepted amount has no tier exactly when it falls strictly between
      499 and 500 or between 4999 and 5000. */
  lemma AcceptedWithoutTier(x: real)
    requires CheckDepositAmount(Some(x)).Ok?
    ensures PackageType(Some(x)).None? <==> (499.0 < x < 500.0 || 4999.0 < x < 5000.0)
  {
  }

  /** `referrerCode || undefined` */
  function ReferrerArgument(code: string): (r: Option<string>)
    ensures Truthy(r) <==> code != ""
    ensures r.Some? ==> r.value == code
  {
    if code == "" then None else Some(code)
  }

  /** The page's React state. */
  class DepositForm {
    const api: Client
    var amount: Option<real>
    var referrerCode: string
    var loading: bool
    var error: Option<string>
    var success: bool
    var scheduledNavigation: Option<string>

    ghost predicate Valid()
      reads this, api, api.store
    {
      api.Valid()
    }

    constructor (api: Client)
      requires api.Valid()
      ensures Valid() && this.api == api
      ensures amount == None && referrerCode == "" && !loading && error == None && !success
      ensures scheduledNavigation == None
    {
      this.api := api;
      amount := None;
      referrerCode := "";
      loading := false;
      error := None;
      success := false;
      scheduledNavigation := None;
    }

    /** `packageInfo`: the tier shown for the current input. */
    function PackageInfo(): (p: Option<Package>)
      reads this
      ensures p.Some? ==> amount.Some? && CheckDepositAmount(amount).Ok?
    {
      PackageType(amount)
    }

    /** `handleSubmit`. The transport outcome of the deposit request is a
        parameter; it is used only if the request is made. */
    method HandleSubmit(outcome: Transport<Ack>)
      requires Valid()
      modifies this, api, api.store
      ensures Valid()
      ensures amount == old(amount) && referrerCode == old(referrerCode)
      ensures var checked := CheckDepositAmount(amount);
        && (checked.Err? ==>
              && error == Some(checked.error) && !success && loading == old(loading)
              && scheduledNavigation == old(scheduledNavigation)
              && api.State() == old(api.State()))
        && (checked.Ok? ==>
              && api.State() == AfterCall(old(api.State()), Post, DepositPath,
                                          DepositBody(checked.value, ReferrerArgument(referrerCode)), map[], outcome)
              && !loading
              && (success <==> outcome.Delivered? && outcome.data.success)
              && scheduledNavigation == (if success then Some(DashboardPath) else old(scheduledNavigation))
              && error == (if outcome.Failed? then Some(OrElse(Classify(outcome.error).message, DepositFailedMessage))
                           else None))
    {
      error := None;
      success := false;
      if amount.None? || amount.value < 35.0 {
        error := Some(MinDepositMessage);
        return;
      }
      if amount.value > 100000.0 {
        error := Some(MaxDepositMessage);
        return;
      }
      loading := true;
      var result := CreateDeposit(api, amount.value, ReferrerArgument(referrerCode), outcome);
      match result {
        case Ok(reply) =>
          if reply.success {
            success := true;
            scheduledNavigation := Some(DashboardPath);
          }
        case Err(failure) =>
          error := Some(OrElse(failure.message, DepositFailedMessage));
      }
      loading := false;
    }
  }
}
