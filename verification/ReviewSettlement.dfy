/** A review decision settles an item's money exactly (planReviewSettlement and decideDepositReview). */
module ReviewSettlement {
  import opened Basics
  import opened Sums
  import opened FundingBook
  import opened FundingRuns
  import opened WalletLedger
  import opened WalletRuns

  /** What an item's row counts for: available earnings and corrections. */
  function SettledOf(item: Id): Row -> int {
    (r: Row) => if r.item == Some(item) && r.status == Available && r.kind != Redeem then r.amount else 0
  }
  function EarnRowsOf(item: Id): Row -> int { (r: Row) => if r.item == Some(item) && r.kind == Earn then 1 else 0 }

  /** The planned entry always satisfies the writer's sign rules, whatever the rows. */
  lemma PlanRespectsSigns(approve: bool, target: int, rows: seq<PlanRow>)
    ensures var plan := PlanReview(approve, target, rows);
            && (plan.entry.None? <==> plan.delta == 0)
            && (plan.entry == Some(Earn) ==> plan.delta > 0 && Sum(rows, EarnCount) == 0)
            && (plan.entry == Some(Reverse) ==> plan.delta < 0)
            && (plan.entry.Some? ==> plan.entry.value == Earn || plan.entry.value == Adjust || plan.entry.value == Reverse)
  {
  }

  /** One ledger row counts the same in the plan as once it is settled. */
  lemma PlanCountsRow(r: Row, item: Id, pays: bool)
    ensures var settled := if IsHold(r, item) then r.(status := if pays then Available else Rejected) else r;
            var counted := Committed(pays)(PlanRow(0, r.kind, r.status, r.amount));
            SettledOf(item)(settled) == if OfItem(r, item) then counted else 0
  {
  }

  lemma LastItemRow(ledger: seq<Row>, item: Id, f: PlanRow -> int)
    requires |ledger| > 0
    ensures var n := |ledger| - 1;
            Sum(ItemRows(ledger, item), f) == Sum(ItemRows(ledger[..n], item), f)
              + if OfItem(ledger[n], item) then f(PlanRow(n, ledger[n].kind, ledger[n].status, ledger[n].amount)) else 0
  {
    var n := |ledger| - 1;
    if OfItem(ledger[n], item) {
      SumAppend(ItemRows(ledger[..n], item), PlanRow(n, ledger[n].kind, ledger[n].status, ledger[n].amount), f);
    }
  }

  lemma SettleHoldsLast(ledger: seq<Row>, item: Id, pays: bool, f: Row -> int)
    requires |ledger| > 0
    ensures var n := |ledger| - 1;
      Sum(SettleHolds(ledger, item, pays), f)
      == Sum(SettleHolds(ledger[..n], item, pays), f) + f(SettleHolds(ledger, item, pays)[n])
  {
    var n := |ledger| - 1;
    assert SettleHolds(ledger, item, pays)[..n] == SettleHolds(ledger[..n], item, pays);
  }

  /** The plan counts exactly what the item's rows are worth once its holds are settled. */
  lemma {:induction false} PlanCountsLedger(ledger: seq<Row>, item: Id, pays: bool)
    ensures Sum(ItemRows(ledger, item), Committed(pays)) == Sum(SettleHolds(ledger, item, pays), SettledOf(item))
    ensures Sum(ItemRows(ledger, item), EarnCount) == Sum(SettleHolds(ledger, item, pays), EarnRowsOf(item))
  {
    if |ledger| > 0 {
      var n := |ledger| - 1;
      PlanCountsLedger(ledger[..n], item, pays);
      SettleHoldsLast(ledger, item, pays, SettledOf(item));
      SettleHoldsLast(ledger, item, pays, EarnRowsOf(item));
      LastItemRow(ledger, item, Committed(pays));
      LastItemRow(ledger, item, EarnCount);
      PlanCountsRow(ledger[n], item, pays);
    }
  }

  lemma HoldsKeepEarnCount(ledger: seq<Row>, item: Id, pays: bool)
    ensures Sum(SettleHolds(ledger, item, pays), EarnRowsOf(item)) == Sum(ledger, EarnRowsOf(item))
  {
    SumPointwise(ledger, SettleHolds(ledger, item, pays), EarnRowsOf(item));
    SumPointwise(SettleHolds(ledger, item, pays), ledger, EarnRowsOf(item));
  }

  /** The ledger after a decision that was not refused: the settled holds plus the planned correction. */
  lemma SettledLedger(w: Wallet, r: Review, item: Item)
    requires Sound(w.book)
    requires Find(w.ledger, RowKeyed(EffectKey(ReviewDecision(r.item)))).None?
    requires SettleLedger(w, r, item).Ok? && !SettleLedger(w, r, item).value.1
    ensures var plan := PlanReview(r.approve, r.target, ItemRows(w.ledger, r.item));
            var settled := SettleHolds(w.ledger, r.item, r.approve && r.target > 0);
            SettleLedger(w, r, item).value.0.ledger
            == if plan.entry.None? then settled else settled + [EffectRow(ReviewEffect(r, item.user, plan))]
  {
    var pays := r.approve && r.target > 0;
    var settled := SettleHolds(w.ledger, r.item, pays);
    assert forall i :: 0 <= i < |settled| ==> settled[i].key == w.ledger[i].key;
    assert Find(settled, RowKeyed(EffectKey(ReviewDecision(r.item)))).None?;
  }

  lemma HoldsGone(ledger: seq<Row>, item: Id, pays: bool)
    ensures forall i :: 0 <= i < |ledger| ==> !IsHold(SettleHolds(ledger, item, pays)[i], item)
  {
  }

  /** Appending the planned correction brings the item's rows to the target. */
  lemma CorrectionExact(settled: seq<Row>, r: Review, user: Id, plan: Plan)
    requires plan.entry.Some? && plan.delta == r.target - Sum(settled, SettledOf(r.item))
    requires plan.entry == Some(Earn) ==> Sum(settled, EarnRowsOf(r.item)) == 0
    requires plan.entry.value != Redeem
    requires forall i :: 0 <= i < |settled| ==> !IsHold(settled[i], r.item)
    ensures var after := settled + [EffectRow(ReviewEffect(r, user, plan))];
            && Sum(after, SettledOf(r.item)) == r.target
            && (forall i :: 0 <= i < |after| ==> !IsHold(after[i], r.item))
            && Sum(after, EarnRowsOf(r.item)) <= Max(1, Sum(settled, EarnRowsOf(r.item)))
  {
    var row := EffectRow(ReviewEffect(r, user, plan));
    SumAppend(settled, row, SettledOf(r.item));
    SumAppend(settled, row, EarnRowsOf(r.item));
  }

  /** Exact settlement: the item's available rows sum to the target and no hold is left. */
  lemma SettlementExact(w: Wallet, r: Review, item: Item)
    requires Sound(w.book)
    requires Find(w.ledger, RowKeyed(EffectKey(ReviewDecision(r.item)))).None?
    requires SettleLedger(w, r, item).Ok? && !SettleLedger(w, r, item).value.1
    ensures var after := SettleLedger(w, r, item).value.0.ledger;
            && Sum(after, SettledOf(r.item)) == r.target
            && (forall i :: 0 <= i < |after| ==> !IsHold(after[i], r.item))
            && Sum(after, EarnRowsOf(r.item)) <= Max(1, Sum(w.ledger, EarnRowsOf(r.item)))
  {
    var pays := r.approve && r.target > 0;
    var plan := PlanReview(r.approve, r.target, ItemRows(w.ledger, r.item));
    SettledLedger(w, r, item);
    PlanCountsLedger(w.ledger, r.item, pays);
    HoldsKeepEarnCount(w.ledger, r.item, pays);
    HoldsGone(w.ledger, r.item, pays);
    PlanRespectsSigns(r.approve, r.target, ItemRows(w.ledger, r.item));
    if plan.entry.Some? {
      CorrectionExact(SettleHolds(w.ledger, r.item, pays), r, item.user, plan);
    }
  }

  /** In a safe wallet the decision key of an item still in review is unused. */
  lemma DecisionKeyFresh(w: Wallet, item: Id)
    requires Safe(w) && item in w.items && w.items[item].status == InReview
    ensures Find(w.ledger, RowKeyed(EffectKey(ReviewDecision(item)))).None?
  {
    forall i | 0 <= i < |w.ledger| ensures w.ledger[i].key != EffectKey(ReviewDecision(item)) {
      assert RowSound(w.requests, w.items, w.ledger[i]);
    }
  }

  /** After a funding settlement an existing commit of the item holds max(target, paid) and is settled. */
  lemma SettledCommit(b: Book, r: Review, session: Id, j: nat)
    requires Sound(b) && SettleFunding(b, r, session, false).Ok?
    requires Find(b.commits, CommitKeyed(ItemEarn(r.item))) == Some(j)
    ensures var b' := SettleFunding(b, r, session, false).value;
            && j < |b'.commits| && b'.commits[j].key == ItemEarn(r.item)
            && b'.commits[j].held == Max(r.target, b.commits[j].paid)
            && b'.commits[j].paid == b.commits[j].paid && !b'.commits[j].pending
  {
    RowsSound(b);
    SettleOrCommitKeeps(b, ItemEarn(r.item), SessionAdmission(session), r.stored, r.cutover, Some(r.target), false);
    var b1 := SettleOrCommit(b, ItemEarn(r.item), SessionAdmission(session), r.stored, r.cutover, Some(r.target), false).value.0;
    assert b1 == SettleCommit(b, ItemEarn(r.item), r.target, false).value.0;
    SettledRow(b, ItemEarn(r.item), r.target, j);
    CloseKeepsCommits(b1, session, r.sessionSettled);
  }

  lemma SettledRow(b: Book, key: EarnKey, target: int, j: nat)
    requires Find(b.commits, CommitKeyed(key)) == Some(j) && CommitLinked(b, b.commits[j])
    requires SettleCommit(b, key, target, false).Ok?
    ensures var c := SettleCommit(b, key, target, false).value.0.commits;
            && |c| == |b.commits| && c[j].key == key && c[j].held == Max(target, b.commits[j].paid)
            && c[j].paid == b.commits[j].paid && !c[j].pending
  {
    assert CommitKeyed(key)(b.commits[j]);
  }

  lemma CloseKeepsCommits(b: Book, session: Id, settled: bool)
    requires Sound(b) && CloseSession(b, session, settled).Ok?
    ensures CloseSession(b, session, settled).value.commits == b.commits
  {
    RowsSound(b);
  }

  /** A decision of a safe wallet that is not refused settles the ledger and the obligation to its target. */
  lemma DecisionExact(w: Wallet, r: Review)
    requires Safe(w) && DecideReview(w, r).Ok? && DecideReview(w, r).value.1 == ReviewOutcome.Decided(false)
    ensures var w' := DecideReview(w, r).value.0;
            && Sum(w'.ledger, SettledOf(r.item)) == r.target
            && (forall i :: 0 <= i < |w'.ledger| ==> !IsHold(w'.ledger[i], r.item))
            && Sum(w'.ledger, EarnRowsOf(r.item)) <= Max(1, Sum(w.ledger, EarnRowsOf(r.item)))
            && var found := Find(w.book.commits, CommitKeyed(ItemEarn(r.item)));
               (found.Some? ==> found.value < |w'.book.commits|
                                && w'.book.commits[found.value].held == Max(r.target, w.book.commits[found.value].paid))
  {
    DecideShape(w, r);
    DecisionKeyFresh(w, r.item);
    var w0 := MarkDecided(w, r);
    SettlementExact(w0, r, w.items[r.item]);
    var found := Find(w.book.commits, CommitKeyed(ItemEarn(r.item)));
    if found.Some? {
      SettledCommit(w.book, r, w.items[r.item].session, found.value);
    }
  }
}
