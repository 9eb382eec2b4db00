/**
  Admission snapshot of a deposit session (lib/session-policy.ts) and the price a review approves
  from it (lib/deposit-review.ts, lib/reward.ts). Multipliers are basis points and every rounding is
  exact integer arithmetic.
 */
module SessionPolicy {
  import opened Basics
  import opened Rounding

  const BPS := 10_000

  datatype RewardUnit = PerItem | PerKilogram
  datatype PolicyType = PolicyType(id: Id, unit: RewardUnit, rewardPerUnit: nat, maxReward: Option<int>, maxWeight: Option<nat>)
  datatype Policy = Policy(money: bool, multiplierBps: nat, types: seq<PolicyType>)

  /** Rupiah per item times quantity times multiplier, rounded half up. */
  function ItemReward(rate: nat, quantity: nat, multiplierBps: nat): nat {
    (2 * (rate * quantity * multiplierBps) + BPS) / (2 * BPS)
  }

  /** Rupiah per kilogram for a weight in grams, rounded down. */
  function WeightReward(rate: nat, grams: nat, multiplierBps: nat): nat {
    (grams * rate * multiplierBps) / (1000 * BPS)
  }

  /** The most one item of a type can pay; none for a weighed type without a maximum weight. */
  function PolicyItemCap(t: PolicyType, multiplierBps: nat): Option<int> {
    if t.unit == PerKilogram then
      if t.maxWeight.None? then None else Some(WeightReward(t.rewardPerUnit, t.maxWeight.value, multiplierBps))
    else Some(ItemReward(t.rewardPerUnit, 1, multiplierBps))
  }

  /** A snapshot as admission builds it: every type carries the cap of its own rate. */
  predicate Built(p: Policy) {
    forall i :: 0 <= i < |p.types| ==> p.types[i].maxReward == PolicyItemCap(p.types[i], p.multiplierBps)
  }

  /** Largest per-type cap: unbounded when some type is, 0 for a session without money. */
  method SnapshotMaxItemCap(policy: Option<Policy>) returns (cap: Option<int>)
    ensures policy.None? ==> cap.None?
    ensures policy.Some? && !policy.value.money ==> cap == Some(0)
    ensures policy.Some? && policy.value.money ==>
              (cap.None? <==> exists i :: 0 <= i < |policy.value.types| && policy.value.types[i].maxReward.None?)
    ensures policy.Some? && policy.value.money && cap.Some? ==> IsMaxCap(policy.value, cap.value)
  {
    if policy.None? { return None; }
    if !policy.value.money { return Some(0); }
    var types := policy.value.types;
    var max := 0;
    for i := 0 to |types|
      invariant max >= 0
      invariant forall j :: 0 <= j < i ==> types[j].maxReward.Some? && types[j].maxReward.value <= max
      invariant max == 0 || exists j :: 0 <= j < i && types[j].maxReward == Some(max)
    {
      if types[i].maxReward.None? { return None; }
      if types[i].maxReward.value > max {
        max := types[i].maxReward.value;
      }
    }
    return Some(max);
  }

  /** `cap` bounds every type of the price list and is 0 or attained. */
  ghost predicate IsMaxCap(p: Policy, cap: int) {
    && cap >= 0
    && (forall i :: 0 <= i < |p.types| ==> p.types[i].maxReward.Some? && p.types[i].maxReward.value <= cap)
    && (cap == 0 || exists i :: 0 <= i < |p.types| && p.types[i].maxReward == Some(cap))
  }

  /** What approving an item as type `t` pays. */
  function ApprovedTarget(p: Policy, t: PolicyType, quantity: nat, grams: nat): nat {
    if !p.money then 0
    else if t.unit == PerKilogram then WeightReward(t.rewardPerUnit, grams, p.multiplierBps)
    else ItemReward(t.rewardPerUnit, quantity, p.multiplierBps)
  }

  /** A weighed item within its window never pays more than its type's cap. */
  lemma WeighedApprovalWithinCap(p: Policy, i: nat, quantity: nat, grams: nat)
    requires Built(p) && i < |p.types| && p.types[i].unit == PerKilogram && p.types[i].maxWeight.Some?
    requires grams <= p.types[i].maxWeight.value
    ensures ApprovedTarget(p, p.types[i], quantity, grams) <= p.types[i].maxReward.value
  {
    var t := p.types[i];
    ProductMono(grams, t.maxWeight.value, t.rewardPerUnit);
    ProductMono(grams * t.rewardPerUnit, t.maxWeight.value * t.rewardPerUnit, p.multiplierBps);
    QuotientMono(grams * t.rewardPerUnit * p.multiplierBps, t.maxWeight.value * t.rewardPerUnit * p.multiplierBps, 1000 * BPS);
  }

  /** The largest quantity of a counted type that prices within `cap`, when the type pays anything at all. */
  function QuantityLimit(rate: nat, multiplierBps: nat, cap: nat): nat
    requires rate * multiplierBps > 0
  {
    ((2 * cap + 1) * BPS - 1) / (2 * (rate * multiplierBps))
  }

  lemma Reorder(rate: nat, quantity: nat, multiplierBps: nat)
    ensures rate * quantity * multiplierBps == quantity * (rate * multiplierBps)
  {
  }

  /** x <= y / d exactly when x * d <= y. */
  lemma QuotientBound(x: nat, y: nat, d: nat)
    requires d > 0
    ensures x <= y / d <==> x * d <= y
  {
    assert y == y / d * d + y % d;
    if x <= y / d {
      ProductMono(x, y / d, d);
    } else {
      ProductMono(y / d + 1, x, d);
    }
  }

  /** A counted item prices within a cap exactly when its quantity is within the limit the caller can compute. */
  lemma CountedWithinCap(rate: nat, quantity: nat, multiplierBps: nat, cap: nat)
    requires rate * multiplierBps > 0
    ensures ItemReward(rate, quantity, multiplierBps) <= cap <==> quantity <= QuantityLimit(rate, multiplierBps, cap)
  {
    var unit := rate * multiplierBps;
    Reorder(rate, quantity, multiplierBps);
    QuotientBound(cap + 1, 2 * (quantity * unit) + BPS, 2 * BPS);
    QuotientBound(quantity, (2 * cap + 1) * BPS - 1, 2 * unit);
    assert quantity * (2 * unit) == 2 * (quantity * unit);
  }

  lemma PaysNothing(rate: nat, quantity: nat, multiplierBps: nat)
    requires rate * multiplierBps == 0
    ensures ItemReward(rate, quantity, multiplierBps) == 0
  {
    Reorder(rate, quantity, multiplierBps);
  }

  /** Against its own cap, the cap of one item, a type that pays a whole rupiah per item admits one item and no more. */
  lemma OneItemWithinOwnCap(rate: nat, quantity: nat, multiplierBps: nat)
    requires rate * multiplierBps >= BPS
    ensures ItemReward(rate, quantity, multiplierBps) <= ItemReward(rate, 1, multiplierBps) <==> quantity <= 1
  {
    var unit := rate * multiplierBps;
    Reorder(rate, quantity, multiplierBps);
    Reorder(rate, 1, multiplierBps);
    if quantity == 0 {
      QuotientMono(BPS, 2 * unit + BPS, 2 * BPS);
    } else if quantity >= 2 {
      ProductMono(2, quantity, unit);
      QuotientMono(2 * (unit + BPS) + BPS, 2 * (quantity * unit) + BPS, 2 * BPS);
    }
  }

  /** The approval is within what the session keeps per item: weighed within the window, or counted within the limit. */
  predicate Admissible(p: Policy, t: PolicyType, quantity: nat, grams: nat, cap: nat) {
    if t.unit == PerKilogram then t.maxWeight.Some? && grams <= t.maxWeight.value
    else t.rewardPerUnit * p.multiplierBps == 0 || quantity <= QuantityLimit(t.rewardPerUnit, p.multiplierBps, cap)
  }

  /** An admissible approval never exceeds the session's largest cap; for a counted type nothing else stays within it. */
  lemma ApprovalWithinSessionCap(p: Policy, i: nat, quantity: nat, grams: nat, cap: nat)
    requires Built(p) && p.money && i < |p.types| && IsMaxCap(p, cap)
    ensures Admissible(p, p.types[i], quantity, grams, cap) ==> ApprovedTarget(p, p.types[i], quantity, grams) <= cap
    ensures p.types[i].unit == PerItem ==>
      (ApprovedTarget(p, p.types[i], quantity, grams) <= cap <==> Admissible(p, p.types[i], quantity, grams, cap))
  {
    var t := p.types[i];
    if t.unit == PerKilogram {
      if Admissible(p, t, quantity, grams, cap) {
        WeighedApprovalWithinCap(p, i, quantity, grams);
      }
    } else if t.rewardPerUnit * p.multiplierBps == 0 {
      PaysNothing(t.rewardPerUnit, quantity, p.multiplierBps);
    } else {
      CountedWithinCap(t.rewardPerUnit, quantity, p.multiplierBps, cap);
    }
  }
}
