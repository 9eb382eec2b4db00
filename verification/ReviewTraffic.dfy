/** Review decisions of a watermarked session interleaved with every other transaction of the funding book. */
module ReviewTraffic {
  import opened Basics
  import opened Sums
  import opened FundingBook
  import FR = FundingRuns
  import FF = FundingFrames
  import opened ReviewExposure

  predicate OwnKey(s: Session, key: EarnKey) { key.ItemEarn? && key.item in s.undecided }

  /** Payouts, cash, fraud holds, and anything about other sessions, trips or items. */
  predicate Foreign(b: Book, op: FR.Op, s: Session) {
    match op
    case ReserveOp(input, _) => input.key != SessionAdmission(s.id)
    case EarnOp(source, _, _, key, _, _) => source != SessionAdmission(s.id) && !OwnKey(s, key)
    case ReviewOp(key, source, _, _, _, _) =>
      source != SessionAdmission(s.id) && !OwnKey(s, key) && FF.TakenElsewhere(b, key, SessionAdmission(s.id))
    case ReleaseOp(i, _, _, _) => i < |b.reservations| ==> b.reservations[i].key != SessionAdmission(s.id)
    case _ => true
  }

  /** An earning key the transaction does not write. */
  function Unused(op: FR.Op): EarnKey {
    if (op.EarnOp? || op.ReviewOp?) && op.key == ItemEarn(0) then ItemEarn(1) else ItemEarn(0)
  }

  lemma SameReservation(b: Book, op: FR.Op, s: Session)
    requires Tracked(b, s) && Foreign(b, op, s)
    ensures var b' := FR.Apply(b, op); s.reservation < |b'.reservations| && b'.reservations[s.reservation] == b.reservations[s.reservation]
  {
    FF.ElsewhereSpares(b, op, SessionAdmission(s.id), Unused(op));
  }

  /** A spared earning is found where it was, and holds what it held. */
  lemma SameCommit(b: Book, b': Book, mine: SourceKey, item: Id)
    requires Wired(b) && Wired(b') && FF.Spares(b, b', mine, ItemEarn(item))
    ensures HeldFor(b', item) == HeldFor(b, item)
    ensures forall r :: TakenFrom(b, r, item) ==> TakenFrom(b', r, item)
  {
    var keyed := CommitKeyed(ItemEarn(item));
    var found, found' := Find(b.commits, keyed), Find(b'.commits, keyed);
    if found.Some? {
      assert keyed(b.commits[found.value]);
      assert keyed(b'.commits[found.value]);
      assert keyed(b'.commits[found'.value]);
    } else {
      forall j | 0 <= j < |b'.commits| ensures !keyed(b'.commits[j]) {
        if j < |b.commits| { assert !keyed(b.commits[j]); }
      }
    }
  }

  lemma SparedItem(b: Book, op: FR.Op, s: Session, item: Id)
    requires FR.Sound(b) && Foreign(b, op, s) && item in s.undecided
    ensures FF.Spares(b, FR.Apply(b, op), SessionAdmission(s.id), ItemEarn(item))
  {
    FF.ElsewhereSpares(b, op, SessionAdmission(s.id), ItemEarn(item));
  }

  lemma SameItem(b: Book, b': Book, s: Session, i: nat)
    requires Tracked(b, s) && Wired(b') && i < |s.undecided| && FF.Spares(b, b', SessionAdmission(s.id), ItemEarn(s.undecided[i]))
    ensures Exposed(b', s.cap, s.undecided[i]) == Exposed(b, s.cap, s.undecided[i]) && TakenFrom(b', s.reservation, s.undecided[i])
  {
    SameCommit(b, b', SessionAdmission(s.id), s.undecided[i]);
    assert TakenFrom(b, s.reservation, s.undecided[i]);
  }

  /** Other traffic neither takes from what the session keeps nor moves its exposure. */
  lemma TrafficKeeps(b: Book, op: FR.Op, s: Session, b': Book)
    requires Tracked(b, s) && Enough(b, s) && FR.Allowed(b, op) && Foreign(b, op, s) && b' == FR.Apply(b, op)
    ensures Tracked(b', s) && Enough(b', s)
  {
    FR.StepKeeps(b, op);
    SameReservation(b, op, s);
    forall i | 0 <= i < |s.undecided|
      ensures Exposed(b', s.cap, s.undecided[i]) == Exposed(b, s.cap, s.undecided[i]) && TakenFrom(b', s.reservation, s.undecided[i])
    {
      SparedItem(b, op, s, s.undecided[i]);
      SameItem(b, b', s, i);
    }
    SumSame(s.undecided, ItemExposure(b', s.cap), ItemExposure(b, s.cap));
  }

  // ----- runs -------------------------------------------------------------------------------------

  datatype Step = Own(decision: Decision) | Other(op: FR.Op)

  ghost predicate Steps(before: (Book, Session), step: Step, after: (Book, Session)) {
    match step
    case Own(d) => Reviewed(before, d, after)
    case Other(op) =>
      Tracked(before.0, before.1) ==>
        FR.Allowed(before.0, op) && Foreign(before.0, op, before.1) && after == (FR.Apply(before.0, op), before.1)
  }

  ghost predicate IsRun(states: seq<(Book, Session)>, steps: seq<Step>) {
    |states| == |steps| + 1 && forall i :: 0 <= i < |steps| ==> Steps(states[i], steps[i], states[i + 1])
  }

  ghost predicate WithinCap(steps: seq<Step>, cap: nat) {
    forall i :: 0 <= i < |steps| && steps[i].Own? && steps[i].decision.target.Some? ==> steps[i].decision.target.value <= cap
  }

  lemma StepGood(before: (Book, Session), step: Step, after: (Book, Session), cap: nat)
    requires Steps(before, step, after) && Good(before, cap)
    requires step.Own? && step.decision.target.Some? ==> step.decision.target.value <= cap
    ensures Good(after, cap) && (step.Own? ==> TotalUncovered(after.0) == TotalUncovered(before.0))
  {
    match step
    case Own(d) => {
      ReviewStep(before, d, after, cap);
      assert StaysCovered(before, after, cap);
    }
    case Other(op) => TrafficKeeps(before.0, op, before.1, after.0);
  }

  lemma {:induction false} RunGood(states: seq<(Book, Session)>, steps: seq<Step>, cap: nat, n: nat)
    requires IsRun(states, steps) && n <= |steps| && Good(states[0], cap) && WithinCap(steps, cap)
    ensures Good(states[n], cap)
  {
    if n > 0 {
      RunGood(states, steps, cap, n - 1);
      assert Steps(states[n - 1], steps[n - 1], states[n - 1 + 1]);
      StepGood(states[n - 1], steps[n - 1], states[n], cap);
    }
  }

  /**
    Review exposure is enough under any traffic: whatever payouts, cash and other sources do in between, every
    in-cap decision of the session adds zero uncovered rupiah and leaves enough for the rest.
   */
  lemma ReviewsCoveredInTraffic(states: seq<(Book, Session)>, steps: seq<Step>, cap: nat, n: nat)
    requires IsRun(states, steps) && n < |steps| && Good(states[0], cap) && WithinCap(steps, cap)
    ensures Good(states[n], cap) && Good(states[n + 1], cap)
    ensures steps[n].Own? ==> TotalUncovered(states[n + 1].0) == TotalUncovered(states[n].0)
  {
    RunGood(states, steps, cap, n);
    assert Steps(states[n], steps[n], states[n + 1]);
    StepGood(states[n], steps[n], states[n + 1], cap);
  }
}
