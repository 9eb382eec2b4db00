/** A wallet run in which a resolved fraud-hold case lets an earning under suspicion be withdrawn. */
module FraudReplay {
  import opened Basics
  import opened Sums
  import opened FundingBook
  import opened FundingRuns
  import opened WalletLedger
  import opened WalletRuns
  import RP = ReviewPricing

  const EARNING := Effect(ItemEarn(5), 7, 1000, Available, Earn, Some(5), None, None, None, CommitCeiling(None, None))
  const CANCEL := TransitionInput(7, false, 0, Cancel, None, None, true)
  const OPS: seq<WalletOp> := [
    EffectOp(EARNING, false), RequestOp(Ask(1)), FraudOp(5, false), ResolveCaseOp(0), FraudOp(5, false), MoveOp(CANCEL), RequestOp(Ask(2))]

  /** User 7 asks for all of it. */
  function Ask(key: Id): RedemptionInput { RedemptionInput(7, true, 1000, 3, key, true, false, 500) }

  function Asked(key: Id, status: RequestStatus): Request {
    Request(7, 1000, status, key, 3, None, None, false, true, false, None)
  }

  const EARNED := EffectRow(EARNING)
  const RESERVE := ReserveFor(Ask(1), 0)

  function Tables(ledger: seq<Row>, requests: seq<Request>, cases: seq<Case>, status: ItemStatus): Wallet {
    Wallet(ledger, requests, cases, map[5 := Item(7, 0, status)], RP.FRESH)
  }

  const START := Tables([], [], [], OtherItemStatus)
  const CREDITED := Tables([EARNED], [], [], OtherItemStatus)
  const ASKED := Tables([EARNED, RESERVE], [Asked(1, Requested)], [], OtherItemStatus)
  const HELD := Tables([EARNED, RESERVE], [Asked(1, Requested)], [ParkedCase(5, 7, 1000)], InReview)
  const RESOLVED := Tables([EARNED, RESERVE], [Asked(1, Requested)], [ParkedCase(5, 7, 1000).(open := false)], InReview)
  const CANCELLED := Tables([EARNED, RESERVE.(status := Reversed)], [Asked(1, ReversedRequest)], RESOLVED.cases, InReview)

  lemma OneRow(r: Row, f: Row -> int)
    ensures Sum([r], f) == f(r)
  {
    assert [r][..0] == [];
  }

  lemma TwoRows(r: Row, s: Row, f: Row -> int)
    ensures Sum([r, s], f) == f(r) + f(s)
  {
    OneRow(r, f);
    assert [r, s] == [r] + [s];
    SumAppend([r], s, f);
  }

  lemma CreditStep()
    ensures WalletSteps(START, OPS[0], CREDITED)
  {
    assert Find(START.ledger, RowKeyed(EffectKey(ItemEarn(5)))).None?;
    assert Find(START.cases, CaseKeyed(ItemEarn(5))).None?;
    assert START.ledger + [EARNED] == [EARNED];
    if Sound(RP.FRESH) {
      assert ApplyEffect(START, EARNING, false) == Ok((CREDITED, Credited));
    }
  }

  lemma AskStep()
    ensures WalletSteps(CREDITED, OPS[1], ASKED)
  {
    OneRow(EARNED, AvailableOf(7));
    assert Find(CREDITED.requests, RequestKeyed(7, 1)).None?;
    assert CREDITED.ledger + [RESERVE] == ASKED.ledger && CREDITED.requests + [Asked(1, Requested)] == ASKED.requests;
    assert RequestRedemption(CREDITED, Ask(1)) == Ok((ASKED, 0, false));
  }

  /** With the reserve pending nothing is available, so the earning stays where it is. */
  lemma HoldMovesNothing(w: Wallet)
    requires w.ledger == [EARNED, RESERVE]
    ensures HoldRows(w, 5, 7, 2) == w.(cases := OpenFraudCase(w.cases, 5, 7, 1000))
  {
    TwoRows(EARNED, RESERVE, AvailableOf(7));
    assert HoldRows(w, 5, 7, 1) == HoldRow(w, 5, 7, 0);
  }

  lemma HoldStep(w: Wallet, w': Wallet)
    requires w.ledger == [EARNED, RESERVE] && w.book == RP.FRESH && w.items.Keys == {5} && w.items[5].user == 7
    requires w.items[5].status == OtherItemStatus || w.items[5].status == InReview
    requires w' == w.(cases := OpenFraudCase(w.cases, 5, 7, 1000), items := map[5 := w.items[5].(status := InReview)])
    ensures WalletSteps(w, FraudOp(5, false), w')
  {
    assert Find(RP.FRESH.commits, CommitKeyed(ItemEarn(5))).None?;
    var items := w.items[5 := w.items[5].(status := InReview)];
    assert items == w'.items;
    HoldMovesNothing(w.(items := items));
  }

  lemma FirstHold()
    ensures WalletSteps(ASKED, OPS[2], HELD)
  {
    assert Find(ASKED.cases, CaseKeyed(FraudHold(5))).None?;
    assert ASKED.cases + [ParkedCase(5, 7, 1000)] == HELD.cases;
    HoldStep(ASKED, HELD);
  }

  lemma ResolveStep()
    ensures WalletSteps(HELD, OPS[3], RESOLVED)
  {
    assert HELD.cases[0 := HELD.cases[0].(open := false)] == RESOLVED.cases;
  }

  /** The second hold finds the resolved case and opens none. */
  lemma SecondHold()
    ensures WalletSteps(RESOLVED, OPS[4], RESOLVED)
  {
    assert CaseKeyed(FraudHold(5))(RESOLVED.cases[0]);
    HoldStep(RESOLVED, RESOLVED);
  }

  lemma CancelStep()
    ensures WalletSteps(RESOLVED, OPS[5], CANCELLED)
  {
    TwoRows(EARNED, RESERVE, ReserveCount(0));
    FindOnly(RESOLVED.ledger, LiveReserve(0), 1);
    assert LoadReserve(RESOLVED.ledger, 0, RESOLVED.requests[0]) == Ok(1);
    assert RESOLVED.requests[0 := Asked(1, ReversedRequest)] == CANCELLED.requests;
    assert RESOLVED.ledger[1 := RESERVE.(status := Reversed)] == CANCELLED.ledger;
    assert CommitMove(RESOLVED, CANCEL, 1) == Ok(CANCELLED);
    assert Transition(RESOLVED, CANCEL) == Ok((CANCELLED, false));
  }

  lemma NothingWithheld()
    ensures HeldByOpenDebitCases(CANCELLED.cases, 7) == 0 && AvailableBalance(CANCELLED.ledger, 7) == 1000
  {
    TwoRows(EARNED, RESERVE.(status := Reversed), AvailableOf(7));
    assert HeldByCases(CANCELLED.cases, 7, 1) == HeldByCases(CANCELLED.cases, 7, 0);
  }

  lemma WithdrawStep(w: Wallet)
    requires w == CANCELLED.(requests := CANCELLED.requests + [Asked(2, Requested)], ledger := CANCELLED.ledger + [ReserveFor(Ask(2), 1)])
    ensures WalletSteps(CANCELLED, OPS[6], w) && RequestRedemption(CANCELLED, Ask(2)) == Ok((w, 1, false))
  {
    NothingWithheld();
    assert Find(CANCELLED.requests, RequestKeyed(7, 2)).None?;
  }

  /**
    Hold, resolve, hold again: the second hold leaves the item in review with its earning available and nothing
    withheld, and once the first request is cancelled the user withdraws all of it.
   */
  lemma ResolvedHoldWithdrawn() returns (states: seq<Wallet>)
    ensures IsWalletRun(states, OPS) && Opening(states[0])
    ensures states[5].ledger != [] && IsHoldable(states[5].ledger[0], 5, 7)
    ensures FraudCaseClosed(states[4].cases, 5) && !FraudCaseOpen(states[5].cases, 5)
    ensures HeldByOpenDebitCases(states[6].cases, 7) == 0
    ensures 5 in states[7].items && states[7].items[5].status == InReview && |states[7].requests| == 2 && states[7].requests[1] == Asked(2, Requested)
  {
    var last := CANCELLED.(
      requests := CANCELLED.requests + [Asked(2, Requested)], ledger := CANCELLED.ledger + [ReserveFor(Ask(2), 1)]);
    states := [START, CREDITED, ASKED, HELD, RESOLVED, RESOLVED, CANCELLED, last];
    CreditStep();
    AskStep();
    FirstHold();
    ResolveStep();
    SecondHold();
    CancelStep();
    WithdrawStep(last);
    NothingWithheld();
    assert CaseKeyed(FraudHold(5))(RESOLVED.cases[0]);
  }
}
