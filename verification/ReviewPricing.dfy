/** The price of a review approval against what the session kept for it. */
module ReviewPricing {
  import opened Basics
  import opened Sums
  import opened FundingBook
  import opened FundingRuns
  import opened SessionPolicy
  import opened ReviewExposure

  /** What the exposure counts per undecided item under snapshot `p`. */
  ghost predicate KeepsPerItem(p: Policy, cap: nat) { if p.money then IsMaxCap(p, cap) else cap == 0 }

  /** The decision that approves item `k` as type `i` of the snapshot. */
  function Approval(p: Policy, i: nat, quantity: nat, grams: nat, k: nat): Decision
    requires i < |p.types|
  {
    Decision(k, Some(ApprovedTarget(p, p.types[i], quantity, grams)))
  }

  /** An admissible approval adds nothing uncovered and keeps enough for every other undecided item. */
  lemma AdmissibleApprovalCovered(p: Policy, i: nat, quantity: nat, grams: nat, b: Book, s: Session, k: nat)
    requires Built(p) && i < |p.types| && KeepsPerItem(p, s.cap) && Admissible(p, p.types[i], quantity, grams, s.cap)
    requires Tracked(b, s) && Enough(b, s) && k < |s.undecided| && Decide(b, s, Approval(p, i, quantity, grams, k)).Ok?
    ensures var (b', s') := Decide(b, s, Approval(p, i, quantity, grams, k)).value;
      Tracked(b', s') && Enough(b', s') && TotalUncovered(b') == TotalUncovered(b)
  {
    if p.money {
      ApprovalWithinSessionCap(p, i, quantity, grams, s.cap);
    }
    DecisionCovered(b, s, Approval(p, i, quantity, grams, k));
  }

  // ----- an approval of two items ---------------------------------------------------------------

  const BOTTLES := Policy(true, BPS, [PolicyType(0, PerItem, 1000, Some(1000), None)])
  const FRESH := Book({0}, map[], map[], [], [], [], [])
  const ADMISSION := ReserveInput(SessionAdmission(0), 0, None, 7, 1000)
  const KEPT := Session(0, 0, 1000, [5])

  lemma BottlesKeepOneItem()
    ensures Built(BOTTLES) && KeepsPerItem(BOTTLES, 1000) && ApprovedTarget(BOTTLES, BOTTLES.types[0], 2, 0) == 2000
  {
    assert PolicyItemCap(BOTTLES.types[0], BPS) == Some(1000);
    assert BOTTLES.types[0].maxReward == Some(1000);
  }

  lemma Admitted() returns (b: Book)
    ensures Sound(b) && b.commits == [] && b.releases == [] && b.entries == [] && Reserve(FRESH, ADMISSION, false) == Ok((b, 0))
    ensures b.reservations == [Reservation(SessionAdmission(0), 0, None, 7, 1000, 1000, true, false, 1000, 0)]
    ensures b.accounts == map[0 := Account(0, 1000)]
  {
    RunConserves([FRESH], [], 0);
    assert Find(FRESH.reservations, ReservationKeyed(ADMISSION.key)).None?;
    var ready := OpenAccount(FRESH, 0);
    assert ready.accounts == map[0 := Account(0, 0)];
    assert ready.accounts[0 := Account(0, 1000)] == map[0 := Account(0, 1000)];
    assert Reserve(FRESH, ADMISSION, false) == Admit(ready, None, ADMISSION, false);
    ReserveKeeps(FRESH, ADMISSION, false);
    b := Reserve(FRESH, ADMISSION, false).value.0;
  }

  lemma KeptEnough(b: Book)
    requires Sound(b) && b.commits == []
    requires b.reservations == [Reservation(SessionAdmission(0), 0, None, 7, 1000, 1000, true, false, 1000, 0)]
    ensures Tracked(b, KEPT) && Enough(b, KEPT)
  {
    assert KEPT.undecided[..0] == [];
    assert Sum(KEPT.undecided, ItemExposure(b, 1000)) == ItemExposure(b, 1000)(5);
  }

  lemma TwoSettled(b: Book)
    requires Tracked(b, KEPT) && b.commits == [] && b.releases == [] && b.accounts == map[0 := Account(0, 1000)]
    requires b.reservations == [Reservation(SessionAdmission(0), 0, None, 7, 1000, 1000, true, false, 1000, 0)]
    ensures Settle(b, KEPT, 0, Some(2000)).Ok?
  {
    KeyFoundAt(b, 0);
    assert Find(b.commits, CommitKeyed(ItemEarn(5))).None?;
    assert Draw(b.reservations[0], 2000) == 1000;
    assert BumpAccount(b.(reservations := b.reservations[0 := DrawnRow(b.reservations[0], 2000)]), 0, 0, 1000).Ok?;
  }

  /**
    The exposure kept for one item does not cover an approval of two: the session keeps exactly its exposure, the
    approved quantity is within 1..999, and half of the approved reward is uncovered.
   */
  lemma ApprovalOfTwoUncovered() returns (b: Book, b': Book)
    ensures Built(BOTTLES) && KeepsPerItem(BOTTLES, KEPT.cap) && Tracked(b, KEPT) && Enough(b, KEPT)
    ensures !Admissible(BOTTLES, BOTTLES.types[0], 2, 0, KEPT.cap)
    ensures Settle(b, KEPT, 0, Some(ApprovedTarget(BOTTLES, BOTTLES.types[0], 2, 0))).Ok?
    ensures b' == Settle(b, KEPT, 0, Some(ApprovedTarget(BOTTLES, BOTTLES.types[0], 2, 0))).value.0
    ensures TotalUncovered(b') == TotalUncovered(b) + 1000
  {
    BottlesKeepOneItem();
    b := Admitted();
    KeptEnough(b);
    TwoSettled(b);
    b' := Settle(b, KEPT, 0, Some(2000)).value.0;
    SettlementUncovered(b, KEPT, 0, Some(2000));
    assert Raise(b, 5, Some(2000)) == 2000 && Left(b, KEPT) == 1000;
    ApprovalWithinSessionCap(BOTTLES, 0, 2, 0, 1000);
  }
}
