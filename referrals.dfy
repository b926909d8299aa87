/** The referrals page (src/pages/Referrals.jsx): the 15-level tree with its
    commission labels, which levels are listed, the expand/collapse set, and
    the name and code fallbacks. */
module Referrals {
  import opened Wrappers
  import opened Js
  import opened Records
  import opened Api
  import opened UserService

  const LoadFailedMessage := "Failed to load referrals"
  const LevelCount := 15

  /** The `/user/referrals` reply; the statistics are display data only. */
  datatype ReferralReply = ReferralReply(tree: Option<map<int, seq<Referral>>>)

  /** The levels expanded when the page mounts. */
  const InitialExpanded: set<int> := {1, 2, 3}

  /** The commission percentage printed for a level (`commissionRates`). */
  function CommissionRate(level: int): (r: real)
    requires 1 <= level <= LevelCount
    ensures r > 0.0
  {
    if level == 1 then 10.0
    else if level == 2 then 5.0
    else if level == 3 then 3.0
    else if level == 4 then 2.0
    else if level == 5 then 1.0
    else if level <= 10 then 0.5
    else 0.25
  }

  /** Deeper levels never earn a higher rate. */
  lemma RatesNonIncreasing(a: int, b: int)
    requires 1 <= a <= b <= LevelCount
    ensures CommissionRate(a) >= CommissionRate(b)
  {
  }

  /** `toggleLevel` on the set of expanded levels. */
  function Toggled(expanded: set<int>, level: int): (r: set<int>)
    ensures level in r <==> level !in expanded
    ensures r - {level} == expanded - {level}
  {
    if level in expanded then expanded - {level} else expanded + {level}
  }

  /** Toggling flips the membership of that level and of no other. */
  lemma ToggleFlipsOnlyThatLevel(expanded: set<int>, level: int, other: int)
    ensures other in Toggled(expanded, level) <==> (if other == level then other !in expanded else other in expanded)
  {
  }

  /** Toggling the same level twice restores the set. */
  lemma ToggleTwiceRestores(expanded: set<int>, level: int)
    ensures Toggled(Toggled(expanded, level), level) == expanded
  {
  }

  /** `ref.first_name || ref.username || 'User'` */
  function DisplayName(r: Referral): (name: string)
    ensures name != ""
    ensures Truthy(r.firstName) ==> name == r.firstName.value
    ensures !Truthy(r.firstName) && Truthy(r.username) ==> name == r.username.value
    ensures !Truthy(r.firstName) && !Truthy(r.username) ==> name == "User"
  {
    OrElse(Or(r.firstName, r.username), "User")
  }

  /** `ref.username || 'N/A'` */
  function HandleOf(r: Referral): (handle: string)
    ensures handle != ""
    ensures Truthy(r.username) ==> handle == r.username.value
    ensures !Truthy(r.username) ==> handle == "N/A"
  {
    OrElse(r.username, "N/A")
  }

  /** `user?.telegram_id || user?.username || 'N/A'` */
  function ReferralCode(user: Option<User>): (code: string)
    ensures code != ""
    ensures user.Some? && Truthy(user.value.telegramId) ==> code == user.value.telegramId.value
    ensures user.Some? && !Truthy(user.value.telegramId) && Truthy(user.value.username) ==> code == user.value.username.value
    ensures (user.None? || (!Truthy(user.value.telegramId) && !Truthy(user.value.username))) ==> code == "N/A"
  {
    match user
    case None => "N/A"
    case Some(u) => OrElse(Or(u.telegramId, u.username), "N/A")
  }

  /** `(tree[level] || []).length` */
  function LevelSize(tree: map<int, seq<Referral>>, level: int): nat {
    if level in tree then |tree[level]| else 0
  }

  /** Levels 1 to 5 are hidden while empty; deeper levels are always listed. */
  predicate LevelListed(tree: map<int, seq<Referral>>, level: int) {
    !(LevelSize(tree, level) == 0 && level <= 5)
  }

  datatype Row = Row(name: string, handle: string, invested: real, earned: real)
  datatype LevelView = LevelView(level: int, count: nat, rate: real, expanded: bool, rows: seq<Row>)
  datatype TreeView = NoReferralsYet | Levels(levels: seq<LevelView>)

  function RowOf(r: Referral): Row {
    Row(DisplayName(r), HandleOf(r), r.totalInvested, r.totalEarned)
  }

  function Rows(refs: seq<Referral>): (rows: seq<Row>)
    ensures |rows| == |refs|
    ensures forall i :: 0 <= i < |refs| ==> rows[i] == RowOf(refs[i])
  {
    seq(|refs|, i requires 0 <= i < |refs| => RowOf(refs[i]))
  }

  /** One level's block: its header, and its rows when expanded and non-empty. */
  function LevelOf(tree: map<int, seq<Referral>>, expanded: set<int>, level: int): (v: LevelView)
    requires 1 <= level <= LevelCount
    ensures v.level == level && v.count == LevelSize(tree, level) && v.expanded == (level in expanded)
    ensures |v.rows| > 0 <==> level in expanded && LevelSize(tree, level) > 0
    ensures |v.rows| > 0 ==> v.rows == Rows(tree[level])
  {
    var refs := if level in tree then tree[level] else [];
    LevelView(level, |refs|, CommissionRate(level), level in expanded,
              if level in expanded && |refs| > 0 then Rows(refs) else [])
  }

  /** The levels from `from` to 15 that are listed, in order. */
  function ListedFrom(tree: map<int, seq<Referral>>, from: int): (ls: seq<int>)
    requires 1 <= from <= LevelCount + 1
    ensures forall i :: 0 <= i < |ls| ==> from <= ls[i] <= LevelCount
    decreases LevelCount + 1 - from
  {
    if from == LevelCount + 1 then []
    else (if LevelListed(tree, from) then [from] else []) + ListedFrom(tree, from + 1)
  }

  /** The referral-tree section: one block per listed level. */
  function RenderTree(tree: map<int, seq<Referral>>, expanded: set<int>): (v: TreeView)
    ensures v == NoReferralsYet <==> |tree| == 0
  {
    if |tree| == 0 then NoReferralsYet
    else
      var ls := ListedFrom(tree, 1);
      Levels(seq(|ls|, i requires 0 <= i < |ls| => LevelOf(tree, expanded, ls[i])))
  }

  /** A level is in the listing from `from` on exactly when it is in range and listed. */
  lemma {:induction false} ListedFromExactly(tree: map<int, seq<Referral>>, from: int, l: int)
    requires 1 <= from <= LevelCount + 1
    ensures l in ListedFrom(tree, from) <==> from <= l <= LevelCount && LevelListed(tree, l)
    decreases LevelCount + 1 - from
  {
    if from <= LevelCount {
      ListedFromExactly(tree, from + 1, l);
      var head := if LevelListed(tree, from) then [from] else [];
      assert ListedFrom(tree, from) == head + ListedFrom(tree, from + 1);
    }
  }

  predicate StrictlyIncreasing(ls: seq<int>) {
    forall i, j :: 0 <= i < j < |ls| ==> ls[i] < ls[j]
  }

  /** Putting a smaller value in front keeps a sequence strictly increasing. */
  lemma ConsIncreasing(x: int, rest: seq<int>)
    requires StrictlyIncreasing(rest)
    requires forall i :: 0 <= i < |rest| ==> x < rest[i]
    ensures StrictlyIncreasing([x] + rest)
  {
    var ls := [x] + rest;
    forall i, j | 0 <= i < j < |ls|
      ensures ls[i] < ls[j]
    {
      assert ls[j] == rest[j - 1];
      if i > 0 {
        assert ls[i] == rest[i - 1];
      }
    }
  }

  /** The listing is strictly increasing. */
  lemma {:induction false} ListedFromIncreasing(tree: map<int, seq<Referral>>, from: int)
    requires 1 <= from <= LevelCount + 1
    ensures StrictlyIncreasing(ListedFrom(tree, from))
    decreases LevelCount + 1 - from
  {
    if from <= LevelCount {
      ListedFromIncreasing(tree, from + 1);
      var rest := ListedFrom(tree, from + 1);
      if LevelListed(tree, from) {
        ConsIncreasing(from, rest);
        assert ListedFrom(tree, from) == [from] + rest;
      } else {
        assert ListedFrom(tree, from) == [] + rest;
        assert [] + rest == rest;
      }
    }
  }

  predicate Lists(view: seq<LevelView>, level: int) {
    exists i :: 0 <= i < |view| && view[i].level == level
  }

  /** A non-empty tree lists levels 6 to 15 always and levels 1 to 5 only when
      they have referrals, each once, in order, with its own commission rate;
      an empty tree lists nothing and shows the "no referrals yet" message. */
  lemma TreeRendering(tree: map<int, seq<Referral>>, expanded: set<int>)
    ensures RenderTree(tree, expanded) == NoReferralsYet <==> |tree| == 0
    ensures RenderTree(tree, expanded).Levels? ==>
      && (forall l :: 1 <= l <= LevelCount ==>
            (Lists(RenderTree(tree, expanded).levels, l) <==> l >= 6 || LevelSize(tree, l) > 0))
      && (forall b :: b in RenderTree(tree, expanded).levels ==>
            1 <= b.level <= LevelCount && b == LevelOf(tree, expanded, b.level))
      && (forall i, j :: 0 <= i < j < |RenderTree(tree, expanded).levels| ==>
            RenderTree(tree, expanded).levels[i].level < RenderTree(tree, expanded).levels[j].level)
  {
    if |tree| > 0 {
      var ls := ListedFrom(tree, 1);
      var v := RenderTree(tree, expanded).levels;
      assert |v| == |ls| && forall i :: 0 <= i < |v| ==> v[i].level == ls[i];
      ListedFromIncreasing(tree, 1);
      forall l | 1 <= l <= LevelCount
        ensures Lists(v, l) <==> l >= 6 || LevelSize(tree, l) > 0
      {
        ListedFromExactly(tree, 1, l);
        if l in ls {
          var i :| 0 <= i < |ls| && ls[i] == l;
          assert v[i].level == l;
        }
        if Lists(v, l) {
          var i :| 0 <= i < |v| && v[i].level == l;
          assert ls[i] == l;
        }
      }
    }
  }

  /** What the page renders: its loader, its error, or the content. */
  datatype PageView = LoadingView | ErrorView(message: string) | ContentView(tree: TreeView, referralCode: string)

  /** The page's React state. */
  class ReferralsView {
    const api: Client
    var data: Option<ReferralReply>
    var loading: bool
    var error: Option<string>
    var expanded: set<int>

    ghost predicate Valid()
      reads this, api, api.store
    {
      api.Valid()
    }

    constructor (api: Client)
      requires api.Valid()
      ensures Valid() && this.api == api
      ensures data == None && loading && error == None && expanded == InitialExpanded
    {
      this.api := api;
      data := None;
      loading := true;
      error := None;
      expanded := InitialExpanded;
    }

    /** `referralData?.referral_tree || {}` */
    function Tree(): map<int, seq<Referral>>
      reads this
    {
      if data.Some? && data.value.tree.Some? then data.value.tree.value else map[]
    }

    /** The page for the signed-in user `user`. */
    function Render(user: Option<User>): (v: PageView)
      reads this
      ensures loading ==> v == LoadingView
      ensures !loading && Truthy(error) ==> v == ErrorView(error.value)
      ensures v.ContentView? <==> !loading && !Truthy(error)
      ensures v.ContentView? ==> v.tree == RenderTree(Tree(), expanded) && v.referralCode == ReferralCode(user)
    {
      if loading then LoadingView
      else if Truthy(error) then ErrorView(error.value)
      else ContentView(RenderTree(Tree(), expanded), ReferralCode(user))
    }

    /** `loadReferrals` */
    method LoadReferrals(outcome: Transport<ReferralReply>)
      requires Valid()
      modifies this, api, api.store
      ensures Valid()
      ensures api.State() == AfterCall(old(api.State()), Get, ReferralsPath, map[], map[], outcome)
      ensures !loading && expanded == old(expanded)
      ensures outcome.Delivered? ==> data == Some(outcome.data) && error == None
      ensures outcome.Failed? ==>
        data == old(data) && error == Some(OrElse(Classify(outcome.error).message, LoadFailedMessage))
    {
      loading := true;
      error := None;
      var result := GetReferrals(api, outcome);
      match result {
        case Ok(reply) =>
          data := Some(reply);
        case Err(failure) =>
          error := Some(OrElse(failure.message, LoadFailedMessage));
      }
      loading := false;
    }

    /** `toggleLevel(level)`: a copy of the set with that level flipped. */
    method ToggleLevel(level: int)
      modifies this
      ensures expanded == Toggled(old(expanded), level)
      ensures data == old(data) && loading == old(loading) && error == old(error)
    {
      var next := expanded;
      if level in next {
        next := next - {level};
      } else {
        next := next + {level};
      }
      expanded := next;
    }
  }
}
