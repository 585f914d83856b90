/** The home page summary (src/pages/Home.tsx): the habits left today, the
    mean progress of the active goals, the balance bar and whether the couple
    is connected. Today's habit progress is the habits page's figure
    (HabitsPage.TotalProgress), computed the same way. */
module HomePage {
  import opened Common
  import Habits
  import HabitsPage
  import Goals
  import Auth

  /** `isConnected`: an active couple and a loaded partner profile. */
  predicate IsConnected(couple: Option<Auth.Couple>, partner: Option<Auth.Profile>) {
    couple.Some? && couple.value.status == "active" && partner.Some?
  }

  /** The "habits left" figure: the habits not yet completed today. */
  function RemainingHabits(hs: seq<Habits.Habit>, cs: seq<Habits.Completion>, current: Option<string>, today: int): (r: nat)
    ensures r + HabitsPage.CompletedCount(hs, cs, current, today) == |hs|
    ensures r == 0 ==> hs == [] || HabitsPage.TotalProgress(hs, cs, current, today) == 100
  {
    HabitsPage.TotalProgressBounds(hs, cs, current, today);
    |hs| - HabitsPage.CompletedCount(hs, cs, current, today)
  }

  predicate IsActive(g: Goals.Goal) { g.status == "active" }

  /** What one goal adds to the reduce: its progress `current / target * 100`
      when the target is truthy and positive, nothing otherwise. */
  function GoalShare(g: Goals.Goal): real {
    if NonZero(g.targetAmount) && g.targetAmount.value > 0
    then (g.currentAmount as real) / (g.targetAmount.value as real) * 100.0
    else 0.0
  }

  function SumShares(gs: seq<Goals.Goal>): real {
    if gs == [] then 0.0 else SumShares(gs[..|gs| - 1]) + GoalShare(gs[|gs| - 1])
  }

  /** `totalGoalProgress`: the rounded mean share over the active goals, 0
      when none is active. */
  function TotalGoalProgress(goals: seq<Goals.Goal>): int {
    var active := Filter(goals, IsActive);
    if |active| > 0 then Round(SumShares(active) / (|active| as real)) else 0
  }

  /** A goal without a positive target adds nothing to the sum. */
  lemma {:induction false} SumSharesBounds(gs: seq<Goals.Goal>)
    requires forall k :: 0 <= k < |gs| ==> 0 <= gs[k].currentAmount
    ensures 0.0 <= SumShares(gs)
  {
    if gs != [] {
      SumSharesBounds(gs[..|gs| - 1]);
      var g := gs[|gs| - 1];
      if NonZero(g.targetAmount) && g.targetAmount.value > 0 {
        assert 0 <= g.currentAmount;
        assert 0.0 <= (g.currentAmount as real) / (g.targetAmount.value as real);
      }
    }
  }

  lemma {:induction false} SumSharesAtMost(gs: seq<Goals.Goal>)
    requires forall k :: 0 <= k < |gs| ==> 0 <= gs[k].currentAmount
    requires forall k :: 0 <= k < |gs| ==> gs[k].targetAmount.Some? ==> gs[k].currentAmount <= gs[k].targetAmount.value
    ensures SumShares(gs) <= 100.0 * (|gs| as real)
  {
    if gs != [] {
      SumSharesAtMost(gs[..|gs| - 1]);
      var g := gs[|gs| - 1];
      if NonZero(g.targetAmount) && g.targetAmount.value > 0 {
        var t := g.targetAmount.value as real;
        assert (g.currentAmount as real) <= t;
        assert (g.currentAmount as real) / t <= 1.0;
      }
    }
  }

  lemma MeanBounds(sum: real, n: real)
    requires n > 0.0 && 0.0 <= sum <= 100.0 * n
    ensures 0.0 <= sum / n <= 100.0
  {
  }

  /** With no amount below 0 and none above its target, the mean progress of
      the active goals lies between 0 and 100; no active goal gives 0. */
  lemma TotalGoalProgressBounds(goals: seq<Goals.Goal>)
    requires forall k :: 0 <= k < |goals| ==> 0 <= goals[k].currentAmount
    requires forall k :: 0 <= k < |goals| ==> goals[k].targetAmount.Some? ==> goals[k].currentAmount <= goals[k].targetAmount.value
    ensures 0 <= TotalGoalProgress(goals) <= 100
    ensures (forall k :: 0 <= k < |goals| ==> !IsActive(goals[k])) ==> TotalGoalProgress(goals) == 0
  {
    var active := Filter(goals, IsActive);
    if |active| > 0 {
      forall k | 0 <= k < |active|
        ensures 0 <= active[k].currentAmount
        ensures active[k].targetAmount.Some? ==> active[k].currentAmount <= active[k].targetAmount.value
      {
        var j :| 0 <= j < |goals| && goals[j] == active[k];
      }
      SumSharesBounds(active);
      SumSharesAtMost(active);
      MeanBounds(SumShares(active), |active| as real);
    }
    if forall k :: 0 <= k < |goals| ==> !IsActive(goals[k]) {
      FilterNone(goals, IsActive);
    }
  }

  /** The balance bar: full for a positive balance, half otherwise. */
  function BalanceBar(balance: int): (r: int)
    ensures r == 100 <==> balance > 0
    ensures r == 50 <==> balance <= 0
  {
    var raw := if balance > 0 then 100 else 50;
    var low := if raw > 0 then raw else 0;
    if low < 100 then low else 100
  }

  /** The "healthy" message shows for a balance of at least 0. */
  predicate Healthy(balance: int) { balance >= 0 }

  /** The message and the bar disagree on one balance only: a zero balance
      is healthy yet shows the half bar; otherwise healthy means the full bar. */
  lemma HealthyAndBar(balance: int)
    ensures Healthy(balance) <==> BalanceBar(balance) == 100 || balance == 0
    ensures Healthy(0) && BalanceBar(0) == 50
    ensures !Healthy(balance) ==> BalanceBar(balance) == 50
  {
  }

  /** For the data `fetchUserData` loads, the couple is connected exactly when
      a couple and a partner profile were both found, and the partner shown is
      then the couple's other member with a stored profile. */
  lemma IsConnectedAfterFetch(b: Auth.Backend, uid: string)
    ensures var c := Auth.ActiveCoupleOf(b, uid);
            var p := Auth.PartnerProfileOf(b, c, uid);
            (IsConnected(c, p) <==> c.Some? && p.Some?)
            && (IsConnected(c, p) ==>
                  && p.value in b.profiles
                  && Auth.PartnerId(c.value, uid) == Some(p.value.id)
                  && Auth.IsMember(c.value, p.value.id))
  {
    var c := Auth.ActiveCoupleOf(b, uid);
    if c.Some? {
      Auth.PartnerIsOtherMember(c.value, uid);
    }
  }
}
