/** A run of the funding book in which a repeated payout is not recognised and draws a second time. */
module PayoutReplay {
  import opened Basics
  import opened Sums
  import opened FundingBook
  import opened PayoutAttribution
  import opened FundingRuns
  import RP = ReviewPricing

  const PAY := PayoutOp(9, 7, 500)
  const EARN := EarnOp(SessionAdmission(0), None, None, ItemEarn(5), 500, false)
  const ADMITTED := Reservation(SessionAdmission(0), 0, None, 7, 1000, 1000, true, false, 1000, 0)
  const OPS: seq<Op> := [ReserveOp(RP.ADMISSION, false), PAY, EARN, PAY]

  /** Nothing of owner 7 is open: the payout is all legacy, and leaves no entry. */
  lemma FirstCall(b: Book)
    requires b.commits == [] && b.entries == []
    ensures SettlePayout(b, 9, 7, 500) == Ok((b, PayoutResult(0, 500, false)))
  {
    assert Sources(b.commits, 7, 500) == {};
    assert PayoutAccounts(b, 7, 500, []) == b.accounts;
    assert PaidCommits(b.commits, 7, 500) == b.commits;
    assert PayoutEntries(b.commits, 7, 500, 9, []) == [];
    assert b.entries + [] == b.entries;
  }

  lemma EarnCall(b: Book)
    requires Sound(b) && b.commits == [] && b.reservations == [ADMITTED]
    ensures var r := EarnReward(b, SessionAdmission(0), None, None, ItemEarn(5), 500, false);
      && r.Ok? && r.value.entries == b.entries && r.value.accounts == b.accounts
      && r.value.commits == [Commit(ItemEarn(5), 0, 0, None, 7, 500, 0, 0, false)]
  {
    RowsSound(b);
    assert b.reservations[..0] == [];
    assert ReservationKeyed(SessionAdmission(0))(b.reservations[0]);
    assert Find(b.reservations, ReservationKeyed(SessionAdmission(0))) == Some(0);
    assert Find(b.commits, CommitKeyed(ItemEarn(5))).None?;
    assert Draw(b.reservations[0], 500) == 500;
  }

  lemma SecondCall(b: Book)
    requires b.commits == [Commit(ItemEarn(5), 0, 0, None, 7, 500, 0, 0, false)] && b.entries == []
    requires b.accounts == map[0 := Account(0, 1000)]
    ensures SettlePayout(b, 9, 7, 500).Ok? && SettlePayout(b, 9, 7, 500).value.1 == PayoutResult(500, 0, false)
  {
    assert b.commits[..0] == [];
    assert Sum(b.commits, Drawable(7)) == 500;
    var ids := SortedIds(Sources(b.commits, 7, 500));
    forall k | 0 <= k < |ids| ensures ids[k] == 0 {
      assert ids[k] in ids;
    }
    DrawnFromBounds(b.commits, 7, 500, 0, 1);
    AttributesMinimum(b, 9, 7, 500);
  }

  lemma RunOfFour(s: Book, s1: Book, s2: Book, s3: Book, s4: Book, ops: seq<Op>)
    requires |ops| == 4 && Steps(s, ops[0], s1) && Steps(s1, ops[1], s2) && Steps(s2, ops[2], s3) && Steps(s3, ops[3], s4)
    ensures IsRun([s, s1, s2, s3, s4], ops)
  {
  }

  lemma ReserveStep(b: Book)
    requires Reserve(RP.FRESH, RP.ADMISSION, false) == Ok((b, 0))
    ensures Steps(RP.FRESH, ReserveOp(RP.ADMISSION, false), b)
  {
  }

  lemma PayStep(b: Book, b': Book)
    requires SettlePayout(b, 9, 7, 500).Ok? && b' == SettlePayout(b, 9, 7, 500).value.0
    ensures Steps(b, PAY, b')
  {
  }

  lemma EarnStep(b: Book, b': Book)
    requires Sound(b) && EarnReward(b, SessionAdmission(0), None, None, ItemEarn(5), 500, false) == Ok(b')
    ensures Steps(b, EARN, b')
  {
  }

  /** Redemption 9 of owner 7 is settled as new, with `attributed` of its 500 drawn from commits. */
  predicate Attributes(b: Book, attributed: int) {
    SettlePayout(b, 9, 7, 500).Ok? && SettlePayout(b, 9, 7, 500).value.1 == PayoutResult(attributed, 500 - attributed, false)
  }

  lemma FirstSettled(b: Book)
    requires b.commits == [] && b.entries == []
    ensures Attributes(b, 0) && Steps(b, PAY, b)
  {
    FirstCall(b);
    PayStep(b, b);
  }

  lemma EarnedThenSettled(b: Book) returns (b': Book, last: Book)
    requires Sound(b) && b.commits == [] && b.entries == [] && b.reservations == [ADMITTED] && b.accounts == map[0 := Account(0, 1000)]
    ensures Steps(b, EARN, b') && Attributes(b', 500) && Steps(b', PAY, last)
  {
    EarnCall(b);
    b' := EarnReward(b, SessionAdmission(0), None, None, ItemEarn(5), 500, false).value;
    EarnStep(b, b');
    SecondCall(b');
    last := SettlePayout(b', 9, 7, 500).value.0;
    PayStep(b', last);
  }

  lemma AdmittedStep() returns (b: Book)
    ensures Steps(RP.FRESH, OPS[0], b)
    ensures Sound(b) && b.commits == [] && b.entries == [] && b.reservations == [ADMITTED] && b.accounts == map[0 := Account(0, 1000)]
  {
    b := RP.Admitted();
    ReserveStep(b);
  }

  lemma PaidTwice(b: Book) returns (b': Book, last: Book)
    requires Sound(b) && b.commits == [] && b.entries == [] && b.reservations == [ADMITTED] && b.accounts == map[0 := Account(0, 1000)]
    ensures Attributes(b, 0) && Steps(b, OPS[1], b) && Steps(b, OPS[2], b') && Attributes(b', 500) && Steps(b', OPS[3], last)
  {
    FirstSettled(b);
    b', last := EarnedThenSettled(b);
  }

  lemma ReplayStates() returns (b: Book, b': Book, last: Book)
    ensures Steps(RP.FRESH, OPS[0], b) && Attributes(b, 0) && Steps(b, OPS[1], b)
    ensures Steps(b, OPS[2], b') && Attributes(b', 500) && Steps(b', OPS[3], last)
  {
    b := AdmittedStep();
    b', last := PaidTwice(b);
  }

  /** The same payout twice, with an earning between: the second call attributes the whole amount. */
  lemma ReplayDrawsAgain() returns (states: seq<Book>)
    ensures IsRun(states, OPS) && Empty(states[0]) && Attributes(states[1], 0) && Attributes(states[3], 500)
  {
    var b, b', last := ReplayStates();
    RunOfFour(RP.FRESH, b, b, b', last, OPS);
    states := [RP.FRESH, b, b, b', last];
  }
}
