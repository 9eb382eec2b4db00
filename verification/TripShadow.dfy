/** Without enforcement a multiplier may rise while bags are out, and the return is then not covered. */
module TripShadow {
  import opened Basics
  import opened FundingBook
  import FR = FundingRuns
  import opened Trips
  import opened TripRuns

  const DOUBLED := Terms(true, false, Some(20_000))
  const ISSUED := Reservation(TripIssuance(0), 0, Some(0), 7, 2000, 2000, true, false, 2000, 0)
  const RETURNED := CheckOut([BagStatus(0, Good)], false, true, true, false, None)

  const START := State(Book({0}, map[], map[0 := Campaign(0, None, 0, 0)], [], [], [], []), [], map[0 := Terms(true, false, None)])
  const CREATED := START.(trips := [Trip(Some(7), 0, 0, 0, Planned, [], [], None, None)])
  const WITH_BAG := CREATED.(
    book := START.book.(accounts := map[0 := Account(0, 2000)], campaigns := map[0 := Campaign(0, None, 2000, 0)], reservations := [ISSUED]),
    trips := [Trip(Some(7), 0, 0, 0, Planned, [None], [], Some(Quote(1, ONE)), None)])
  const CHECKED_IN := WITH_BAG.(trips := [WITH_BAG.trips[0].(status := Active)])
  const RAISED := CHECKED_IN.(terms := map[0 := DOUBLED])

  const OPS: seq<Op> := [
    CreateTrip(Some(7), 0, 0, 0), IssueBags(0, 1, false), CheckInTrip(0), ChangeTerms(0, DOUBLED, false, false), CheckOutBags(0, RETURNED)]

  lemma IssueStep()
    ensures Issue(CREATED, 0, 1, false) == Ok(WITH_BAG)
  {
    var input := IssuanceInput(0, CREATED.trips[0], 1, None);
    assert IssuanceCeiling(1, None) == 2000;
    assert Find(START.book.reservations, ReservationKeyed(TripIssuance(0))).None?;
    var b := OpenAccount(START.book, 0);
    assert b.accounts == map[0 := Account(0, 0)];
    assert Reserve(START.book, input, false) == Admit(b, None, input, false);
    assert b.accounts[0 := Account(0, 2000)] == WITH_BAG.book.accounts;
    assert b.campaigns[0 := Campaign(0, None, 2000, 0)] == WITH_BAG.book.campaigns;
    assert b.reservations + [ISSUED] == [ISSUED];
    assert CheckCapacity(Account(0, 0), Some(Campaign(0, None, 0, 0)), 2000) == CapacityCheck(2000, 0);
    assert Admit(b, None, input, false) == Ok((WITH_BAG.book, 0));
    assert ReserveIssuance(CREATED, 0, 1, false) == Ok((WITH_BAG.book, Some(Quote(1, ONE))));
    var bags: seq<Option<Condition>> := CREATED.trips[0].bags + seq(1, _ => None);
    assert bags == [None];
    assert CREATED.trips[0 := WITH_BAG.trips[0]] == WITH_BAG.trips;
  }

  lemma Priced(bags: seq<Option<Condition>>)
    requires bags == [Some(Good)]
    ensures var e := Evaluate(bags, true, true, Some(20_000)); e.reviewed == e.issued == 1 && e.reward == 4000
  {
    assert bags[..0] == [];
    assert Known(bags) == [Good];
    var known: seq<Condition> := [Good];
    assert known[..0] == [];
    assert Count(known, Returned) == 1 && Count(known, Rewardable) == 1;
  }

  /** Half of the doubled return is drawn from the reservation, the other half is uncovered. */
  lemma EarnStep()
    requires FR.Sound(RAISED.book)
    ensures var r := FR.EarnReward(RAISED.book, TripIssuance(0), StoredTrip(RAISED.trips[0]), None, TripReturn(0), 4000, false);
      r.Ok? && r.value.commits == [Commit(TripReturn(0), 0, 0, Some(0), 7, 4000, 2000, 0, false)]
      && r.value.reservations == [ISSUED.(remaining := 0)] && r.value.accounts == map[0 := Account(0, 4000)]
      && r.value.campaigns.Keys == {0}
  {
    var b := RAISED.book;
    assert b.reservations[..0] == [];
    assert ReservationKeyed(TripIssuance(0))(b.reservations[0]);
    assert Find(b.reservations, ReservationKeyed(TripIssuance(0))) == Some(0);
    assert Find(b.commits, CommitKeyed(TripReturn(0))).None?;
    assert Draw(ISSUED, 4000) == 2000;
    assert b.accounts[0 := Account(0, 4000)] == map[0 := Account(0, 4000)];
    assert b.reservations[0 := ISSUED.(remaining := 0)] == [ISSUED.(remaining := 0)];
  }

  lemma CloseStep(b: Book)
    requires Wired(b) && b.reservations == [ISSUED.(remaining := 0)] && 0 in b.accounts && 0 in b.campaigns
    ensures CloseTrip(b, 0).Ok? && CloseTrip(b, 0).value.commits == b.commits
  {
    assert b.reservations[..0] == [];
    assert ReservationKeyed(TripIssuance(0))(b.reservations[0]);
    assert Find(b.reservations, ReservationKeyed(TripIssuance(0))) == Some(0);
  }

  lemma CheckOutStep()
    requires FR.Sound(RAISED.book)
    ensures CheckOutTrip(RAISED, 0, RETURNED).Ok?
    ensures CheckOutTrip(RAISED, 0, RETURNED).value.book.commits == [Commit(TripReturn(0), 0, 0, Some(0), 7, 4000, 2000, 0, false)]
  {
    Reported0();
    Priced([Some(Good)]);
    EarnAndCloseStep();
  }

  lemma Reported0()
    ensures ValidateBags(RAISED.trips[0].bags, RETURNED.reports) == Ok([Some(Good)])
  {
    assert ValidateBags(RAISED.trips[0].bags, RETURNED.reports).value == [Some(Good)];
  }

  lemma EarnAndCloseStep()
    requires FR.Sound(RAISED.book)
    ensures var r := EarnAndClose(RAISED.book, 0, RAISED.trips[0], 4000, None);
      r.Ok? && r.value.commits == [Commit(TripReturn(0), 0, 0, Some(0), 7, 4000, 2000, 0, false)]
  {
    EarnStep();
    var b := FR.EarnReward(RAISED.book, TripIssuance(0), StoredTrip(RAISED.trips[0]), None, TripReturn(0), 4000, false).value;
    FR.StepKeeps(RAISED.book, FR.EarnOp(TripIssuance(0), StoredTrip(RAISED.trips[0]), None, TripReturn(0), 4000, false));
    CloseStep(b);
  }

  lemma StartFine()
    ensures Fine(START)
  {
    RunFine([START], [], 0);
  }

  lemma CreateStep()
    ensures Fine(START) && Apply(START, OPS[0]) == CREATED && Fine(CREATED)
  {
    StartFine();
    StepFine(START, OPS[0]);
  }

  lemma IssueRun()
    requires Fine(CREATED)
    ensures Apply(CREATED, OPS[1]) == WITH_BAG && Fine(WITH_BAG)
  {
    IssueStep();
    StepFine(CREATED, OPS[1]);
  }

  lemma CheckInRun()
    requires Fine(WITH_BAG)
    ensures Apply(WITH_BAG, OPS[2]) == CHECKED_IN && Fine(CHECKED_IN)
  {
    assert WITH_BAG.trips[0 := CHECKED_IN.trips[0]] == CHECKED_IN.trips;
    StepFine(WITH_BAG, OPS[2]);
  }

  lemma RaiseRun()
    requires Fine(CHECKED_IN)
    ensures Apply(CHECKED_IN, OPS[3]) == RAISED && Fine(RAISED)
  {
    assert CHECKED_IN.terms[0 := DOUBLED] == RAISED.terms;
    StepFine(CHECKED_IN, OPS[3]);
  }

  lemma RunOfFive(s: State, s1: State, s2: State, s3: State, s4: State, s5: State, ops: seq<Op>)
    requires FR.Empty(s.book) && s.trips == [] && |ops| == 5
    requires Steps(s, ops[0], s1) && Steps(s1, ops[1], s2) && Steps(s2, ops[2], s3) && Steps(s3, ops[3], s4) && Steps(s4, ops[4], s5)
    ensures IsRun([s, s1, s2, s3, s4, s5], ops)
  {
  }

  /** Commit 0 is trip 0's return and is not fully covered. */
  predicate Uncovered(b: Book) { |b.commits| == 1 && b.commits[0].key == TripReturn(0) && b.commits[0].uncovered == 2000 }

  lemma OpeningRun() returns (states: seq<State>)
    ensures IsRun(states, OPS) && states[4] == RAISED
  {
    CreateStep();
    IssueRun();
    CheckInRun();
    RaiseRun();
    states := [START, CREATED, WITH_BAG, CHECKED_IN, RAISED, Apply(RAISED, OPS[4])];
    RunOfFive(START, CREATED, WITH_BAG, CHECKED_IN, RAISED, states[5], OPS);
  }

  lemma LastStep(st: State, c: CheckOut)
    requires FR.Sound(st.book) && CheckOutTrip(st, 0, c).Ok?
    ensures Apply(st, CheckOutBags(0, c)) == CheckOutTrip(st, 0, c).value
  {
  }

  /** In shadow mode a raised multiplier leaves a completed trip with an uncovered obligation. */
  lemma ShadowRaiseUncovered() returns (states: seq<State>)
    ensures IsRun(states, OPS) && !Enforced(OPS) && Uncovered(states[|OPS|].book)
  {
    states := OpeningRun();
    RunFine(states, OPS, 4);
    assert Steps(states[4], OPS[4], states[4 + 1]);
    CheckOutStep();
    LastStep(states[4], RETURNED);
    assert OPS[3].ChangeTerms? && !OPS[3].enforced;
  }
}
