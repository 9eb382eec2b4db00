/**
  Safety of the wallet over every run: each payout request is backed by exactly one live reserve of
  its owner and amount in the expected status, finished requests never move again, no user's spendable
  balance goes below zero, and funded sources pay a request at most once and at most its amount.
 */
module WalletRuns {
  import opened Basics
  import opened Sums
  import opened FundingBook
  import opened PayoutAttribution
  import opened FundingRuns
  import opened WalletLedger

  // ----- the invariant --------------------------------------------------------------------------

  predicate ItemDecided(items: map<Id, Item>, item: Id) {
    item in items && (items[item].status == ReviewAccepted || items[item].status == ReviewRejected)
  }

  predicate BackedBy(requests: seq<Request>, r: Row) {
    && r.reference.RedemptionRef? && r.reference.id.Some? && r.reference.id.value < |requests|
    && r.user == requests[r.reference.id.value].user
    && r.amount == -requests[r.reference.id.value].amount
    && r.status == ExpectedReserve(requests[r.reference.id.value].status)
  }

  predicate RowSound(requests: seq<Request>, items: map<Id, Item>, r: Row) {
    && (r.kind == Earn ==> r.amount >= 0)
    && (r.kind == Redeem ==> BackedBy(requests, r))
    && (r.key.EffectKey? && r.key.key.ReviewDecision? ==> ItemDecided(items, r.key.key.item))
  }

  ghost predicate LedgerSound(w: Wallet) {
    forall i :: 0 <= i < |w.ledger| ==> RowSound(w.requests, w.items, w.ledger[i])
  }

  /** Exactly one live reserve per request. */
  ghost predicate OneReserveEach(w: Wallet) {
    forall id: Id {:trigger ReserveCount(id)} :: Sum(w.ledger, ReserveCount(id)) == if id < |w.requests| then 1 else 0
  }

  ghost predicate NoOverdraft(ledger: seq<Row>) { forall u: Id :: AvailableBalance(ledger, u) >= 0 }

  ghost predicate CasesSound(w: Wallet) {
    forall i :: 0 <= i < |w.cases| ==>
      w.cases[i].amount >= 0 && (w.cases[i].key.ReviewDecision? ==> ItemDecided(w.items, w.cases[i].key.item))
  }

  /** Money left funded sources only for a successful request, and at most its amount. */
  ghost predicate PayoutsBacked(requests: seq<Request>, entries: seq<Entry>) {
    && (forall i :: 0 <= i < |entries| && entries[i].kind == Payout ==> PaidFor(requests, entries[i]))
    && (forall id :: 0 <= id < |requests| ==> 0 <= Sum(entries, RecordedPayout(id)) <= requests[id].amount)
  }

  predicate PaidFor(requests: seq<Request>, e: Entry) {
    e.redemption.Some? && e.redemption.value < |requests| && requests[e.redemption.value].status == Success
  }

  ghost predicate RequestsSound(requests: seq<Request>) {
    forall id :: 0 <= id < |requests| ==> requests[id].amount > 0
  }

  ghost predicate Safe(w: Wallet) {
    && Sound(w.book) && LedgerSound(w) && OneReserveEach(w) && NoOverdraft(w.ledger) && CasesSound(w)
    && RequestsSound(w.requests) && PayoutsBacked(w.requests, w.book.entries)
  }

  // ----- what a step may change -----------------------------------------------------------------

  /** Rows are never deleted and only their status moves. */
  ghost predicate AppendOnly(before: seq<Row>, after: seq<Row>) {
    |before| <= |after| && forall i :: 0 <= i < |before| ==> after[i].(status := before[i].status) == before[i]
  }

  /** Requests keep owner and amount, and a finished one keeps its status. */
  ghost predicate RequestsProgress(before: seq<Request>, after: seq<Request>) {
    && |before| <= |after|
    && forall i :: 0 <= i < |before| ==>
         && after[i].user == before[i].user && after[i].amount == before[i].amount
         && (Terminal(before[i].status) ==> after[i].status == before[i].status)
  }

  ghost predicate Progress(w: Wallet, w': Wallet) {
    AppendOnly(w.ledger, w'.ledger) && RequestsProgress(w.requests, w'.requests)
  }

  // ----- reward effects -------------------------------------------------------------------------

  lemma FundingKeepsEntries(b: Book, e: Effect)
    requires Sound(b) && CheckRewardFunding(b, e).Ok?
    ensures Sound(CheckRewardFunding(b, e).value) && CheckRewardFunding(b, e).value.entries == b.entries
  {
    if CheckRewardFunding(b, e).value != b {
      var pending := if e.funding.pending.Some? then e.funding.pending.value else e.status == Pending;
      StepKeeps(b, EarnOp(e.source.value, e.stored, e.cutover, e.key, FundingCeiling(e), pending));
      EarnCash(b, e.source.value, e.stored, e.cutover, e.key, FundingCeiling(e), pending);
    }
  }

  /** An inserted effect row keeps every balance at or above zero unless it overdraws. */
  lemma EffectRowBalance(ledger: seq<Row>, e: Effect)
    requires NoOverdraft(ledger) && EffectValid(e) && !Overdraws(ledger, e)
    ensures NoOverdraft(ledger + [EffectRow(e)])
  {
    forall u: Id ensures AvailableBalance(ledger + [EffectRow(e)], u) >= 0 {
      assert AvailableBalance(ledger, u) >= 0;
      SumAppend(ledger, EffectRow(e), AvailableOf(u));
    }
  }

  lemma EffectRowReserves(ledger: seq<Row>, e: Effect, id: Id)
    requires EffectValid(e)
    ensures Sum(ledger + [EffectRow(e)], ReserveCount(id)) == Sum(ledger, ReserveCount(id))
  {
    SumAppend(ledger, EffectRow(e), ReserveCount(id));
  }

  /** The effects callers may write: review keys only from the review of that item. */
  predicate EffectAllowed(items: map<Id, Item>, e: Effect) { e.key.ReviewDecision? ==> ItemDecided(items, e.key.item) }

  lemma EffectShape(w: Wallet, e: Effect, erased: bool)
    requires Sound(w.book) && ApplyEffect(w, e, erased).Ok?
    ensures var (w', outcome) := ApplyEffect(w, e, erased).value;
            && w'.requests == w.requests && w'.items == w.items && EffectValid(e)
            && (w'.book == w.book || (CheckRewardFunding(w.book, e).Ok? && w'.book == CheckRewardFunding(w.book, e).value))
            && (w'.ledger == w.ledger || (w'.ledger == w.ledger + [EffectRow(e)] && !Overdraws(w.ledger, e)))
            && (w'.cases == w.cases || exists reason :: w'.cases == OpenCase(w, e, reason).cases)
  {
  }

  lemma EffectKeeps(w: Wallet, e: Effect, erased: bool)
    requires Safe(w) && EffectAllowed(w.items, e) && ApplyEffect(w, e, erased).Ok?
    ensures var w' := ApplyEffect(w, e, erased).value.0; Safe(w') && Progress(w, w')
  {
    EffectShape(w, e, erased);
    var w' := ApplyEffect(w, e, erased).value.0;
    assert Sound(w'.book) && w'.book.entries == w.book.entries by {
      if w'.book != w.book { FundingKeepsEntries(w.book, e); }
    }
    if w'.ledger != w.ledger {
      EffectRowBalance(w.ledger, e);
      forall id: Id ensures Sum(w'.ledger, ReserveCount(id)) == Sum(w.ledger, ReserveCount(id)) {
        EffectRowReserves(w.ledger, e, id);
      }
    }
  }

  // ----- review ---------------------------------------------------------------------------------

  lemma HoldsBalance(ledger: seq<Row>, item: Id, pays: bool)
    requires NoOverdraft(ledger)
    requires forall i :: 0 <= i < |ledger| ==> ledger[i].kind == Earn ==> ledger[i].amount >= 0
    ensures NoOverdraft(SettleHolds(ledger, item, pays))
  {
    forall u: Id ensures AvailableBalance(SettleHolds(ledger, item, pays), u) >= 0 {
      assert AvailableBalance(ledger, u) >= 0;
      SumPointwise(ledger, SettleHolds(ledger, item, pays), AvailableOf(u));
    }
  }

  lemma HoldsReserves(ledger: seq<Row>, item: Id, pays: bool, id: Id)
    ensures Sum(SettleHolds(ledger, item, pays), ReserveCount(id)) == Sum(ledger, ReserveCount(id))
  {
    SumPointwise(ledger, SettleHolds(ledger, item, pays), ReserveCount(id));
    SumPointwise(SettleHolds(ledger, item, pays), ledger, ReserveCount(id));
  }

  function MarkDecided(w: Wallet, r: Review): Wallet
    requires r.item in w.items
  {
    w.(items := w.items[r.item := w.items[r.item].(status := if r.approve then ReviewAccepted else ReviewRejected)])
  }

  lemma MarkDecidedSafe(w: Wallet, r: Review)
    requires Safe(w) && r.item in w.items
    ensures Safe(MarkDecided(w, r))
  {
    var w' := MarkDecided(w, r);
    forall i | 0 <= i < |w.ledger| ensures RowSound(w'.requests, w'.items, w'.ledger[i]) {
      assert RowSound(w.requests, w.items, w.ledger[i]);
    }
  }

  lemma HoldsSafe(w: Wallet, item: Id, pays: bool)
    requires Safe(w)
    ensures var w' := w.(ledger := SettleHolds(w.ledger, item, pays)); Safe(w') && AppendOnly(w.ledger, w'.ledger)
  {
    var w' := w.(ledger := SettleHolds(w.ledger, item, pays));
    forall i | 0 <= i < |w.ledger| ensures RowSound(w'.requests, w'.items, w'.ledger[i]) {
      assert RowSound(w.requests, w.items, w.ledger[i]);
    }
    HoldsBalance(w.ledger, item, pays);
    forall id: Id ensures Sum(w'.ledger, ReserveCount(id)) == Sum(w.ledger, ReserveCount(id)) {
      HoldsReserves(w.ledger, item, pays, id);
    }
  }

  lemma SettleLedgerKeeps(w: Wallet, r: Review, item: Item)
    requires Safe(w) && ItemDecided(w.items, r.item) && SettleLedger(w, r, item).Ok?
    ensures var w' := SettleLedger(w, r, item).value.0; Safe(w') && Progress(w, w')
  {
    var plan := PlanReview(r.approve, r.target, ItemRows(w.ledger, r.item));
    var pays := r.approve && r.target > 0;
    HoldsSafe(w, r.item, pays);
    var w1 := w.(ledger := SettleHolds(w.ledger, r.item, pays));
    if plan.entry.Some? {
      EffectKeeps(w1, ReviewEffect(r, item.user, plan), r.erased);
    }
  }

  lemma ResolvedCasesSafe(w: Wallet, item: Id)
    requires Safe(w)
    ensures Safe(w.(cases := ResolveItemCases(w.cases, item)))
  {
  }

  lemma BookSafe(w: Wallet, b: Book)
    requires Safe(w) && Sound(b) && b.entries == w.book.entries
    ensures Safe(w.(book := b))
  {
  }

  lemma SettleFundingKeeps(b: Book, r: Review, session: Id, refused: bool)
    requires Sound(b) && SettleFunding(b, r, session, refused).Ok?
    ensures Sound(SettleFunding(b, r, session, refused).value)
    ensures SettleFunding(b, r, session, refused).value.entries == b.entries
  {
    var target := if refused then None else Some(r.target);
    SettleOrCommitKeeps(b, ItemEarn(r.item), SessionAdmission(session), r.stored, r.cutover, target, false);
    SettleOrCommitCash(b, ItemEarn(r.item), SessionAdmission(session), r.stored, r.cutover, target, false);
    var b1 := SettleOrCommit(b, ItemEarn(r.item), SessionAdmission(session), r.stored, r.cutover, target, false).value.0;
    CloseSessionKeeps(b1, session, r.sessionSettled);
  }

  lemma CloseSessionSound(b: Book, session: Id, settled: bool)
    requires Sound(b) && CloseSession(b, session, settled).Ok?
    ensures Sound(CloseSession(b, session, settled).value)
  {
    var found := Find(b.reservations, ReservationKeyed(SessionAdmission(session)));
    if settled && found.Some? && b.reservations[found.value].active {
      RowsSound(b);
      ReleaseKeeps(b, found.value, b.reservations[found.value].remaining, true, Some(ReviewClose(session)));
    }
  }

  lemma CloseSessionCash(b: Book, session: Id, settled: bool)
    requires Sound(b) && CloseSession(b, session, settled).Ok?
    ensures CloseSession(b, session, settled).value.entries == b.entries
  {
    var found := Find(b.reservations, ReservationKeyed(SessionAdmission(session)));
    if settled && found.Some? && b.reservations[found.value].active {
      assert ReservationSound(b, b.reservations[found.value]);
      ReleaseCash(b, found.value, b.reservations[found.value].remaining, true, Some(ReviewClose(session)));
    }
  }

  lemma CloseSessionKeeps(b: Book, session: Id, settled: bool)
    requires Sound(b) && CloseSession(b, session, settled).Ok?
    ensures Sound(CloseSession(b, session, settled).value)
    ensures CloseSession(b, session, settled).value.entries == b.entries
  {
    CloseSessionSound(b, session, settled);
    CloseSessionCash(b, session, settled);
  }

  /** The stages of a decision. */
  lemma DecideShape(w: Wallet, r: Review)
    requires Sound(w.book) && DecideReview(w, r).Ok?
    ensures var (w', outcome) := DecideReview(w, r).value;
            && r.item in w.items
            && (outcome.Replayed? ==> w' == w)
            && (outcome.Decided? ==>
                  var item := w.items[r.item];
                  var w0 := MarkDecided(w, r);
                  && item.status == InReview && ItemDecided(w0.items, r.item)
                  && SettleLedger(w0, r, item).Ok?
                  && var (w1, refused) := SettleLedger(w0, r, item).value;
                     var w2 := if refused then w1 else w1.(cases := ResolveItemCases(w1.cases, r.item));
                     && outcome.refused == refused && w1.book == w.book
                     && SettleFunding(w2.book, r, item.session, refused).Ok?
                     && w' == w2.(book := SettleFunding(w2.book, r, item.session, refused).value))
  {
    if DecideReview(w, r).value.1.Decided? {
      LedgerKeepsBook(MarkDecided(w, r), r, w.items[r.item]);
    }
  }

  lemma ReviewKeeps(w: Wallet, r: Review)
    requires Safe(w) && DecideReview(w, r).Ok?
    ensures var w' := DecideReview(w, r).value.0; Safe(w') && Progress(w, w')
  {
    DecideShape(w, r);
    if DecideReview(w, r).value.1.Decided? {
      var item := w.items[r.item];
      MarkDecidedSafe(w, r);
      SettleLedgerKeeps(MarkDecided(w, r), r, item);
      var (w1, refused) := SettleLedger(MarkDecided(w, r), r, item).value;
      ResolvedCasesSafe(w1, r.item);
      var w2 := if refused then w1 else w1.(cases := ResolveItemCases(w1.cases, r.item));
      SettleFundingKeeps(w2.book, r, item.session, refused);
      BookSafe(w2, SettleFunding(w2.book, r, item.session, refused).value);
    }
  }

  // ----- payout requests ------------------------------------------------------------------------

  lemma {:induction false} HeldNonNegative(cases: seq<Case>, user: Id, n: nat)
    requires n <= |cases|
    ensures HeldByCases(cases, user, n) >= 0
  {
    if n > 0 {
      HeldNonNegative(cases, user, n - 1);
    }
  }

  lemma RequestShape(w: Wallet, input: RedemptionInput)
    requires RequestRedemption(w, input).Ok?
    ensures var (w', id, existing) := RequestRedemption(w, input).value;
            && (existing ==> w' == w)
            && (!existing ==>
                  && id == |w.requests| && |w'.requests| == |w.requests| + 1 && w'.requests[..id] == w.requests
                  && w'.requests[id].user == input.user && w'.requests[id].amount == input.amount > 0
                  && w'.requests[id].status == Requested
                  && w'.ledger == w.ledger + [ReserveFor(input, id)]
                  && w'.cases == w.cases && w'.items == w.items && w'.book == w.book
                  && AvailableBalance(w.ledger, input.user) >= input.amount)
  {
    HeldNonNegative(w.cases, input.user, |w.cases|);
  }

  lemma ReserveBalance(ledger: seq<Row>, input: RedemptionInput, id: Id)
    requires NoOverdraft(ledger) && AvailableBalance(ledger, input.user) >= input.amount
    ensures NoOverdraft(ledger + [ReserveFor(input, id)])
  {
    forall u: Id ensures AvailableBalance(ledger + [ReserveFor(input, id)], u) >= 0 {
      assert AvailableBalance(ledger, u) >= 0;
      SumAppend(ledger, ReserveFor(input, id), AvailableOf(u));
    }
  }

  lemma RequestLedgerSound(w: Wallet, w': Wallet, row: Row)
    requires LedgerSound(w) && w'.ledger == w.ledger + [row] && w'.items == w.items
    requires |w'.requests| == |w.requests| + 1 && w'.requests[..|w.requests|] == w.requests
    requires RowSound(w'.requests, w'.items, row)
    ensures LedgerSound(w')
  {
    assert forall id :: 0 <= id < |w.requests| ==> w'.requests[id] == w.requests[id];
    forall i | 0 <= i < |w'.ledger| ensures RowSound(w'.requests, w'.items, w'.ledger[i]) {
      if i < |w.ledger| {
        assert RowSound(w.requests, w.items, w.ledger[i]);
      }
    }
  }

  lemma UnpaidYet(requests: seq<Request>, entries: seq<Entry>)
    requires forall i :: 0 <= i < |entries| && entries[i].kind == Payout ==> PaidFor(requests, entries[i])
    ensures Sum(entries, RecordedPayout(|requests|)) == 0
  {
    forall i | 0 <= i < |entries| ensures RecordedPayout(|requests|)(entries[i]) == 0 {
      if entries[i].kind == Payout { assert PaidFor(requests, entries[i]); }
    }
    SumZero(entries, RecordedPayout(|requests|));
  }

  lemma RequestPayouts(requests: seq<Request>, entries: seq<Entry>, request: Request)
    requires PayoutsBacked(requests, entries) && request.amount > 0
    ensures PayoutsBacked(requests + [request], entries)
  {
    UnpaidYet(requests, entries);
    forall i | 0 <= i < |entries| && entries[i].kind == Payout ensures PaidFor(requests + [request], entries[i]) {
      assert PaidFor(requests, entries[i]);
    }
  }

  lemma RequestReserves(w: Wallet, row: Row, requests: seq<Request>)
    requires OneReserveEach(w) && IsReserveOf(row, |w.requests|) && |requests| == |w.requests| + 1
    ensures OneReserveEach(w.(ledger := w.ledger + [row], requests := requests))
  {
    forall k: Id ensures Sum(w.ledger + [row], ReserveCount(k)) == if k < |requests| then 1 else 0 {
      SumAppend(w.ledger, row, ReserveCount(k));
    }
  }

  lemma RequestKeeps(w: Wallet, input: RedemptionInput)
    requires Safe(w) && RequestRedemption(w, input).Ok?
    ensures var w' := RequestRedemption(w, input).value.0; Safe(w') && Progress(w, w')
  {
    RequestShape(w, input);
    var (w', id, existing) := RequestRedemption(w, input).value;
    if !existing {
      RequestSafe(w, w', input, id);
    }
  }

  lemma RequestSafe(w: Wallet, w': Wallet, input: RedemptionInput, id: Id)
    requires Safe(w) && id == |w.requests| && |w'.requests| == id + 1 && w'.requests[..id] == w.requests
    requires w'.requests[id].user == input.user && w'.requests[id].amount == input.amount > 0
    requires w'.requests[id].status == Requested
    requires w' == w.(ledger := w.ledger + [ReserveFor(input, id)], requests := w'.requests)
    requires AvailableBalance(w.ledger, input.user) >= input.amount
    ensures Safe(w') && Progress(w, w')
  {
    var row := ReserveFor(input, id);
    RequestLedgerSound(w, w', row);
    ReserveBalance(w.ledger, input, id);
    RequestReserves(w, row, w'.requests);
    assert w'.requests == w.requests + [w'.requests[id]];
    RequestPayouts(w.requests, w.book.entries, w'.requests[id]);
  }

  // ----- transitions ----------------------------------------------------------------------------

  /** In a safe wallet the only rows for a request are its one reserve. */
  lemma ReserveLoaded(w: Wallet, id: Id)
    requires Safe(w) && id < |w.requests|
    ensures var r := LoadReserve(w.ledger, id, w.requests[id]);
            && r.Ok? && r.value < |w.ledger| && IsReserveOf(w.ledger[r.value], id)
            && w.ledger[r.value].status == ExpectedReserve(w.requests[id].status)
            && (forall i :: 0 <= i < |w.ledger| && i != r.value ==> !IsReserveOf(w.ledger[i], id))
  {
    var found := Find(w.ledger, LiveReserve(id));
    assert Sum(w.ledger, ReserveCount(id)) == 1;
    if found.None? {
      SumZero(w.ledger, ReserveCount(id));
    } else {
      assert LiveReserve(id)(w.ledger[found.value]);
      assert RowSound(w.requests, w.items, w.ledger[found.value]);
      forall i | 0 <= i < |w.ledger| && i != found.value ensures !IsReserveOf(w.ledger[i], id) {
        if IsReserveOf(w.ledger[i], id) {
          TwoRows(w.ledger, i, found.value, ReserveCount(id));
        }
      }
    }
  }

  lemma {:induction false} TwoRows(s: seq<Row>, i: nat, j: nat, f: Row -> int)
    requires i < |s| && j < |s| && i != j && (forall k :: 0 <= k < |s| ==> f(s[k]) >= 0)
    ensures f(s[i]) + f(s[j]) <= Sum(s, f)
  {
    var n := |s| - 1;
    if i < n && j < n {
      TwoRows(s[..n], i, j, f);
    } else {
      SumAtLeastOne(s[..n], if i == n then j else i, f);
    }
  }

  lemma CommitShape(w: Wallet, input: TransitionInput, reserve: nat)
    requires input.id < |w.requests| && reserve < |w.ledger|
    requires CommitMove(w, input, reserve).Ok?
    ensures var w' := CommitMove(w, input, reserve).value;
            var current := w.requests[input.id];
            var next := Moved(current, input);
            && w'.requests == w.requests[input.id := next] && w'.cases == w.cases && w'.items == w.items
            && next.user == current.user && next.amount == current.amount && next.status == Outcome(input.action)
            && w'.ledger == (if Terminal(next.status)
                             then w.ledger[reserve := w.ledger[reserve].(status := ExpectedReserve(next.status))] else w.ledger)
            && (next.status != Success ==> w'.book == w.book)
            && (next.status == Success ==>
                  var paid := SettlePayout(w.book, input.id, current.user, current.amount);
                  paid.Ok? && w'.book == paid.value.0)
  {
  }

  /** Only the request's own reserve follows its new status. */
  lemma MovedLedgerSound(w: Wallet, id: Id, next: Request, reserve: nat)
    requires LedgerSound(w) && id < |w.requests| && reserve < |w.ledger| && IsReserveOf(w.ledger[reserve], id)
    requires next.user == w.requests[id].user && next.amount == w.requests[id].amount
    requires forall i :: 0 <= i < |w.ledger| && i != reserve ==> !IsReserveOf(w.ledger[i], id)
    ensures LedgerSound(w.(requests := w.requests[id := next],
                           ledger := w.ledger[reserve := w.ledger[reserve].(status := ExpectedReserve(next.status))]))
  {
    var w' := w.(requests := w.requests[id := next],
                 ledger := w.ledger[reserve := w.ledger[reserve].(status := ExpectedReserve(next.status))]);
    forall i | 0 <= i < |w'.ledger| ensures RowSound(w'.requests, w'.items, w'.ledger[i]) {
      assert RowSound(w.requests, w.items, w.ledger[i]);
      assert i != reserve ==> !IsReserveOf(w.ledger[i], id);
    }
  }

  lemma StatusBalance(ledger: seq<Row>, reserve: nat, status: Status)
    requires reserve < |ledger| && NoOverdraft(ledger)
    requires ledger[reserve].kind == Redeem && ledger[reserve].status == Pending && ledger[reserve].amount <= 0
    requires status == Redeemed || status == Reversed || status == Pending
    ensures NoOverdraft(ledger[reserve := ledger[reserve].(status := status)])
  {
    var next := ledger[reserve := ledger[reserve].(status := status)];
    forall u: Id ensures AvailableBalance(next, u) >= 0 {
      assert AvailableBalance(ledger, u) >= 0;
      SumUpdate(ledger, reserve, next[reserve], AvailableOf(u));
    }
  }

  lemma MovedPayouts(requests: seq<Request>, entries: seq<Entry>, id: Id, next: Request)
    requires PayoutsBacked(requests, entries) && id < |requests| && !Terminal(requests[id].status)
    requires next.amount == requests[id].amount
    ensures PayoutsBacked(requests[id := next], entries)
    ensures Sum(entries, RecordedPayout(id)) == 0 && Find(entries, PayoutOfRedemption(id)).None?
  {
    forall i | 0 <= i < |entries| ensures !PayoutOfRedemption(id)(entries[i]) {
      if entries[i].kind == Payout { assert PaidFor(requests, entries[i]); }
    }
    SumZero(entries, RecordedPayout(id));
    forall i | 0 <= i < |entries| && entries[i].kind == Payout ensures PaidFor(requests[id := next], entries[i]) {
      assert PaidFor(requests, entries[i]);
    }
  }

  /** A settlement adds to its own request's payouts exactly what it attributes, and to no other's. */
  lemma PayoutAdds(b: Book, redemption: Id, user: Id, gross: int, id: Id)
    requires SettlePayout(b, redemption, user, gross).Ok?
    requires Find(b.entries, PayoutOfRedemption(redemption)).None?
    ensures var (b', r) := SettlePayout(b, redemption, user, gross).value;
            && Sum(b'.entries, RecordedPayout(id)) == Sum(b.entries, RecordedPayout(id)) + (if id == redemption then r.attributed else 0)
            && 0 <= r.attributed <= gross
  {
    var (b', r) := SettlePayout(b, redemption, user, gross).value;
    AddedEntries(b, redemption, user, gross);
    EntriesSumToAttributed(b, redemption, user, gross);
    EntriesWellFormed(b.commits, user, gross, redemption);
    AttributesMinimum(b, redemption, user, gross);
    AddedPayouts(b.entries, b'.entries, redemption, id);
  }

  lemma AddedPayouts(entries: seq<Entry>, more: seq<Entry>, redemption: Id, id: Id)
    requires entries <= more
    requires forall i :: 0 <= i < |more[|entries|..]| ==> PayoutOfRedemption(redemption)(more[|entries|..][i])
    ensures Sum(more, RecordedPayout(id))
            == Sum(entries, RecordedPayout(id)) - (if id == redemption then Sum(more[|entries|..], Amount) else 0)
  {
    var added := more[|entries|..];
    assert more == entries + added;
    SumConcat(entries, added, RecordedPayout(id));
    if id == redemption {
      NegatedSum(added, redemption);
    } else {
      SumZero(added, RecordedPayout(id));
    }
  }

  lemma {:induction false} NegatedSum(entries: seq<Entry>, redemption: Id)
    requires forall i :: 0 <= i < |entries| ==> PayoutOfRedemption(redemption)(entries[i])
    ensures Sum(entries, RecordedPayout(redemption)) == -Sum(entries, Amount)
  {
    if |entries| > 0 {
      NegatedSum(entries[..|entries| - 1], redemption);
    }
  }

  lemma SuccessPayouts(requests: seq<Request>, b: Book, id: Id, user: Id, amount: int)
    requires id < |requests| && requests[id].status == Success && requests[id].amount == amount > 0
    requires PayoutsBacked(requests, b.entries) && Find(b.entries, PayoutOfRedemption(id)).None?
    requires Sum(b.entries, RecordedPayout(id)) == 0
    requires SettlePayout(b, id, user, amount).Ok?
    ensures PayoutsBacked(requests, SettlePayout(b, id, user, amount).value.0.entries)
  {
    var b' := SettlePayout(b, id, user, amount).value.0;
    AddedEntries(b, id, user, amount);
    EntriesWellFormed(b.commits, user, amount, id);
    forall i | 0 <= i < |b'.entries| && b'.entries[i].kind == Payout ensures PaidFor(requests, b'.entries[i]) {
      if i >= |b.entries| {
        assert b'.entries[i] == b'.entries[|b.entries|..][i - |b.entries|];
        assert PayoutOfRedemption(id)(b'.entries[i]);
      } else {
        assert PaidFor(requests, b.entries[i]);
      }
    }
    forall k | 0 <= k < |requests| ensures 0 <= Sum(b'.entries, RecordedPayout(k)) <= requests[k].amount {
      PayoutAdds(b, id, user, amount, k);
    }
  }

  lemma TransitionShape(w: Wallet, input: TransitionInput)
    requires Transition(w, input).Ok?
    ensures var (w', replay) := Transition(w, input).value;
            && (replay ==> w' == w)
            && (!replay ==>
                  && input.id < |w.requests| && MayStart(input.action, w.requests[input.id].status)
                  && var reserve := LoadReserve(w.ledger, input.id, w.requests[input.id]);
                     && reserve.Ok? && reserve.value < |w.ledger| && w.ledger[reserve.value].status == Pending
                     && CommitMove(w, input, reserve.value) == Ok(w'))
  {
  }

  lemma MovedSound(w: Wallet, input: TransitionInput, reserve: nat)
    requires Safe(w) && input.id < |w.requests| && MayStart(input.action, w.requests[input.id].status)
    requires reserve < |w.ledger| && IsReserveOf(w.ledger[reserve], input.id) && w.ledger[reserve].status == Pending
    requires forall i :: 0 <= i < |w.ledger| && i != reserve ==> !IsReserveOf(w.ledger[i], input.id)
    ensures var next := Moved(w.requests[input.id], input);
            Safe(w.(requests := w.requests[input.id := next],
                    ledger := w.ledger[reserve := w.ledger[reserve].(status := ExpectedReserve(next.status))]))
  {
    var next := Moved(w.requests[input.id], input);
    assert RowSound(w.requests, w.items, w.ledger[reserve]);
    MovedLedgerSound(w, input.id, next, reserve);
    StatusBalance(w.ledger, reserve, ExpectedReserve(next.status));
    MovedPayouts(w.requests, w.book.entries, input.id, next);
    var row := w.ledger[reserve].(status := ExpectedReserve(next.status));
    forall k: Id ensures Sum(w.ledger[reserve := row], ReserveCount(k)) == Sum(w.ledger, ReserveCount(k)) {
      SumUpdate(w.ledger, reserve, row, ReserveCount(k));
    }
  }

  lemma TransitionKeeps(w: Wallet, input: TransitionInput)
    requires Safe(w) && Transition(w, input).Ok?
    ensures var w' := Transition(w, input).value.0; Safe(w') && Progress(w, w')
  {
    TransitionShape(w, input);
    var (w', replay) := Transition(w, input).value;
    if !replay {
      ReserveLoaded(w, input.id);
      var reserve := LoadReserve(w.ledger, input.id, w.requests[input.id]).value;
      CommitShape(w, input, reserve);
      CommitKeepsSafe(w, input, reserve, w');
    }
  }

  lemma CommitKeepsSafe(w: Wallet, input: TransitionInput, reserve: nat, w': Wallet)
    requires Safe(w) && input.id < |w.requests| && MayStart(input.action, w.requests[input.id].status)
    requires reserve < |w.ledger| && IsReserveOf(w.ledger[reserve], input.id) && w.ledger[reserve].status == Pending
    requires forall i :: 0 <= i < |w.ledger| && i != reserve ==> !IsReserveOf(w.ledger[i], input.id)
    requires CommitMove(w, input, reserve) == Ok(w')
    ensures Safe(w') && Progress(w, w')
  {
    CommitShape(w, input, reserve);
    MovedSound(w, input, reserve);
    var current := w.requests[input.id];
    var next := Moved(current, input);
    var row := w.ledger[reserve].(status := ExpectedReserve(next.status));
    var w1 := w.(requests := w.requests[input.id := next], ledger := w.ledger[reserve := row]);
    assert w'.ledger == w1.ledger by {
      if !Terminal(next.status) { assert w.ledger[reserve := row] == w.ledger; }
    }
    if next.status == Success {
      MovedPayouts(w.requests, w.book.entries, input.id, next);
      PayoutKeeps(w.book, input.id, current.user, current.amount);
      SuccessPayouts(w1.requests, w.book, input.id, current.user, current.amount);
      assert w' == w1.(book := SettlePayout(w.book, input.id, current.user, current.amount).value.0);
    } else {
      assert w' == w1;
    }
  }

  lemma FlagKeeps(w: Wallet, superadmin: bool, id: Id, note: Id)
    requires Safe(w) && FlagForReconciliation(w, superadmin, id, note).Ok?
    ensures var w' := FlagForReconciliation(w, superadmin, id, note).value.0; Safe(w') && Progress(w, w')
  {
    var w' := FlagForReconciliation(w, superadmin, id, note).value.0;
    if w' != w {
      forall i | 0 <= i < |w.ledger| ensures RowSound(w'.requests, w'.items, w'.ledger[i]) {
        assert RowSound(w.requests, w.items, w.ledger[i]);
      }
      MovedPayouts(w.requests, w.book.entries, id, w'.requests[id]);
    }
  }

  // ----- fraud hold -------------------------------------------------------------------------------

  lemma HoldRowBalance(w: Wallet, item: Id, user: Id, i: nat, u: Id)
    requires i < |w.ledger| && AvailableBalance(w.ledger, u) >= 0
    ensures AvailableBalance(HoldRow(w, item, user, i).ledger, u) >= 0
    ensures Sum(HoldRow(w, item, user, i).ledger, ReserveCount(u)) == Sum(w.ledger, ReserveCount(u))
  {
    var row := w.ledger[i];
    SumUpdate(w.ledger, i, row.(status := Pending), AvailableOf(u));
    SumUpdate(w.ledger, i, row.(status := Pending), ReserveCount(u));
  }

  lemma HoldRowSafe(w: Wallet, item: Id, user: Id, i: nat)
    requires Safe(w) && i < |w.ledger|
    ensures Safe(HoldRow(w, item, user, i)) && Progress(w, HoldRow(w, item, user, i))
  {
    var w' := HoldRow(w, item, user, i);
    forall k | 0 <= k < |w.ledger| ensures RowSound(w'.requests, w'.items, w'.ledger[k]) {
      assert RowSound(w.requests, w.items, w.ledger[k]);
    }
    forall u: Id ensures AvailableBalance(w'.ledger, u) >= 0 && Sum(w'.ledger, ReserveCount(u)) == Sum(w.ledger, ReserveCount(u)) {
      assert AvailableBalance(w.ledger, u) >= 0;
      HoldRowBalance(w, item, user, i, u);
    }
  }

  lemma {:induction false} HoldRowsSafe(w: Wallet, item: Id, user: Id, n: nat)
    requires Safe(w) && n <= |w.ledger|
    ensures Safe(HoldRows(w, item, user, n)) && Progress(w, HoldRows(w, item, user, n))
  {
    if n > 0 {
      HoldRowsSafe(w, item, user, n - 1);
      HoldRowSafe(HoldRows(w, item, user, n - 1), item, user, n - 1);
    }
  }

  /** Reopening an item that has no final decision. */
  lemma ReopenSafe(w: Wallet, item: Id)
    requires Safe(w) && item in w.items && !ItemDecided(w.items, item)
    ensures var w1 := w.(items := w.items[item := w.items[item].(status := InReview)], book := MarkPending(w.book, ItemEarn(item)));
      Safe(w1) && Progress(w, w1)
  {
    MarkPendingKeeps(w.book, ItemEarn(item));
    var items := w.items[item := w.items[item].(status := InReview)];
    forall i | 0 <= i < |w.ledger| ensures RowSound(w.requests, items, w.ledger[i]) {
      assert RowSound(w.requests, w.items, w.ledger[i]);
    }
  }

  /** A fraud hold never drives a balance below zero. */
  lemma FraudHoldKeeps(w: Wallet, item: Id, refused: bool)
    requires Safe(w)
    ensures Safe(HoldForFraud(w, item, refused)) && Progress(w, HoldForFraud(w, item, refused))
  {
    if item in w.items && !refused && !ItemDecided(w.items, item) {
      ReopenSafe(w, item);
      var w1 := w.(items := w.items[item := w.items[item].(status := InReview)], book := MarkPending(w.book, ItemEarn(item)));
      HoldRowsSafe(w1, item, w.items[item].user, |w.ledger|);
    }
  }

  /** The item's fraud-hold case withholds money. */
  predicate FraudCaseOpen(cases: seq<Case>, item: Id) {
    var found := Find(cases, CaseKeyed(FraudHold(item)));
    found.Some? && cases[found.value].open
  }

  /** The item had a fraud-hold case, and it was resolved. */
  predicate FraudCaseClosed(cases: seq<Case>, item: Id) {
    var found := Find(cases, CaseKeyed(FraudHold(item)));
    found.Some? && !cases[found.value].open
  }

  /** The hold left earning k available and opened one case, for it. */
  ghost predicate Parked(w: Wallet, held: Wallet, item: Id, user: Id, k: nat) {
    && k < |held.ledger| && IsHoldable(held.ledger[k], item, user)
    && held.cases == w.cases + [ParkedCase(item, user, held.ledger[k].amount)]
  }

  /** A hold opens at most one case, for the first earning it could not move, and none where its key is taken. */
  lemma {:induction false} HoldOpens(w: Wallet, item: Id, user: Id, n: nat)
    requires n <= |w.ledger|
    ensures var held := HoldRows(w, item, user, n);
      && (forall i :: n <= i < |w.ledger| ==> held.ledger[i] == w.ledger[i])
      && (Find(w.cases, CaseKeyed(FraudHold(item))).Some? ==> held.cases == w.cases)
      && (Find(w.cases, CaseKeyed(FraudHold(item))).None? ==>
            if exists i :: 0 <= i < n && IsHoldable(held.ledger[i], item, user)
            then exists k :: 0 <= k < n && Parked(w, held, item, user, k)
            else held.cases == w.cases)
  {
    if n > 0 {
      HoldOpens(w, item, user, n - 1);
      if Find(w.cases, CaseKeyed(FraudHold(item))).None? {
        HoldOpensStep(w, item, user, n - 1);
      }
    }
  }

  lemma HoldOpensStep(w: Wallet, item: Id, user: Id, n: nat)
    requires n < |w.ledger| && Find(w.cases, CaseKeyed(FraudHold(item))).None?
    requires var before := HoldRows(w, item, user, n);
      if exists i :: 0 <= i < n && IsHoldable(before.ledger[i], item, user)
      then exists k :: 0 <= k < n && Parked(w, before, item, user, k)
      else before.cases == w.cases
    ensures var held := HoldRows(w, item, user, n + 1);
      if exists i :: 0 <= i < n + 1 && IsHoldable(held.ledger[i], item, user)
      then exists k :: 0 <= k < n + 1 && Parked(w, held, item, user, k)
      else held.cases == w.cases
  {
    var before, held := HoldRows(w, item, user, n), HoldRows(w, item, user, n + 1);
    assert forall i :: 0 <= i < n ==> held.ledger[i] == before.ledger[i];
    if k :| 0 <= k < n && Parked(w, before, item, user, k) {
      assert CaseKeyed(FraudHold(item))(before.cases[|w.cases|]);
      assert Parked(w, held, item, user, k);
    } else if IsHoldable(held.ledger[n], item, user) {
      assert Parked(w, held, item, user, n);
    }
  }

  /** What is withheld is at least what any one item is withheld for. */
  lemma {:induction false} HeldCoversKey(cases: seq<Case>, user: Id, key: HoldKey, n: nat)
    requires n <= |cases|
    ensures LargestHold(cases, user, key, n) <= HeldByCases(cases, user, n)
  {
    if n > 0 {
      HeldCoversKey(cases, user, key, n - 1);
    }
  }

  lemma ParkedWithheld(w: Wallet, held: Wallet, item: Id, user: Id, k: nat)
    requires Parked(w, held, item, user, k)
    ensures FraudCaseOpen(held.cases, item) || Find(w.cases, CaseKeyed(FraudHold(item))).Some?
    ensures HeldByOpenDebitCases(held.cases, user) >= held.ledger[k].amount
  {
    var n := |w.cases|;
    assert CaseKeyed(FraudHold(item))(held.cases[n]);
    HeldCoversKey(held.cases, user, HoldItem(item), n + 1);
  }

  /**
    An earning the hold could not move is withheld by an open case exactly when no resolved case took its key. A fresh
    case withholds the first such earning in full; where the key is taken the hold withholds nothing more.
   */
  lemma HeldOrParked(w: Wallet, item: Id, user: Id, n: nat, i: nat)
    requires i < n <= |w.ledger| && IsHoldable(HoldRows(w, item, user, n).ledger[i], item, user)
    ensures var held := HoldRows(w, item, user, n);
      && (FraudCaseOpen(held.cases, item) <==> !FraudCaseClosed(w.cases, item))
      && (Find(w.cases, CaseKeyed(FraudHold(item))).Some? ==> held.cases == w.cases)
      && (Find(w.cases, CaseKeyed(FraudHold(item))).None? ==>
            exists k :: 0 <= k < n && Parked(w, held, item, user, k) && HeldByOpenDebitCases(held.cases, user) >= held.ledger[k].amount)
  {
    HoldOpens(w, item, user, n);
    var held := HoldRows(w, item, user, n);
    if Find(w.cases, CaseKeyed(FraudHold(item))).None? {
      var k :| 0 <= k < n && Parked(w, held, item, user, k);
      ParkedWithheld(w, held, item, user, k);
    }
  }

  // ----- runs -----------------------------------------------------------------------------------

  datatype WalletOp =
    | FraudOp(item: Id, refused: bool)
    | RequestOp(request: RedemptionInput)
    | MoveOp(move: TransitionInput)
    | FlagOp(superadmin: bool, id: Id, note: Id)
    | EffectOp(effect: Effect, erased: bool)
    | ReviewItemOp(review: Review)
    | ResolveCaseOp(index: nat)
    | FundingOp(op: FundingRuns.Op)

  /** Callers' guarantees: the review writes its own keys, payouts run only inside a transition. */
  ghost predicate Permitted(w: Wallet, op: WalletOp) {
    match op
    case EffectOp(e, _) => !e.key.ReviewDecision?
    case FundingOp(f) => !f.PayoutOp? && Allowed(w.book, f)
    case _ => true
  }

  function Step(w: Wallet, op: WalletOp): Wallet
    requires Sound(w.book)
  {
    match op
    case RequestOp(input) => var r := RequestRedemption(w, input); if r.Ok? then r.value.0 else w
    case MoveOp(input) => var r := Transition(w, input); if r.Ok? then r.value.0 else w
    case FlagOp(superadmin, id, note) =>
      var r := FlagForReconciliation(w, superadmin, id, note); if r.Ok? then r.value.0 else w
    case EffectOp(e, erased) => var r := ApplyEffect(w, e, erased); if r.Ok? then r.value.0 else w
    case ReviewItemOp(review) => var r := DecideReview(w, review); if r.Ok? then r.value.0 else w
    case ResolveCaseOp(i) =>
      if i < |w.cases| then w.(cases := w.cases[i := w.cases[i].(open := false)]) else w
    case FraudOp(item, refused) => HoldForFraud(w, item, refused)
    case FundingOp(f) => w.(book := Apply(w.book, f))
  }

  /** Cash entries recorded outside a payout are never payouts. */
  lemma FundingKeepsPayouts(b: Book, op: FundingRuns.Op)
    requires Sound(b) && !op.PayoutOp?
    ensures b.entries <= Apply(b, op).entries
    ensures forall i :: |b.entries| <= i < |Apply(b, op).entries| ==> Apply(b, op).entries[i].kind != Payout
  {
    RowsSound(b);
    match op
    case ReserveOp(input, enforced) => if Reserve(b, input, enforced).Ok? { ReserveCash(b, input, enforced); }
    case EarnOp(source, stored, cutover, key, amount, pending) =>
      if EarnReward(b, source, stored, cutover, key, amount, pending).Ok? {
        EarnCash(b, source, stored, cutover, key, amount, pending);
      }
    case ReviewOp(key, source, stored, cutover, target, pending) =>
      if SettleOrCommit(b, key, source, stored, cutover, target, pending).Ok? {
        SettleOrCommitCash(b, key, source, stored, cutover, target, pending);
      }
    case ReleaseOp(i, amount, close, key) =>
      if Release(b, i, amount, close, key).Ok? { ReleaseCash(b, i, amount, close, key); }
    case _ =>
  }

  lemma MoreEntriesBacked(requests: seq<Request>, entries: seq<Entry>, more: seq<Entry>)
    requires PayoutsBacked(requests, entries) && entries <= more
    requires forall i :: |entries| <= i < |more| ==> more[i].kind != Payout
    ensures PayoutsBacked(requests, more)
  {
    forall i | 0 <= i < |more| && more[i].kind == Payout ensures PaidFor(requests, more[i]) {
      assert more[i] == entries[i];
    }
    forall id | 0 <= id < |requests| ensures Sum(more, RecordedPayout(id)) == Sum(entries, RecordedPayout(id)) {
      var added := more[|entries|..];
      assert more == entries + added;
      SumConcat(entries, added, RecordedPayout(id));
      assert forall i :: 0 <= i < |added| ==> added[i] == more[|entries| + i];
      SumZero(added, RecordedPayout(id));
    }
  }

  lemma FundingOpKeeps(w: Wallet, op: FundingRuns.Op)
    requires Safe(w) && !op.PayoutOp? && Allowed(w.book, op)
    ensures Safe(w.(book := Apply(w.book, op)))
  {
    StepKeeps(w.book, op);
    FundingKeepsPayouts(w.book, op);
    MoreEntriesBacked(w.requests, w.book.entries, Apply(w.book, op).entries);
  }

  lemma PayoutStepKeeps(w: Wallet, op: WalletOp)
    requires Safe(w) && (op.RequestOp? || op.MoveOp? || op.FlagOp?)
    ensures Safe(Step(w, op)) && Progress(w, Step(w, op))
  {
    match op
    case RequestOp(input) => if RequestRedemption(w, input).Ok? { RequestKeeps(w, input); }
    case MoveOp(input) => if Transition(w, input).Ok? { TransitionKeeps(w, input); }
    case FlagOp(superadmin, id, note) =>
      if FlagForReconciliation(w, superadmin, id, note).Ok? { FlagKeeps(w, superadmin, id, note); }
  }

  lemma RewardStepKeeps(w: Wallet, op: WalletOp)
    requires Safe(w) && Permitted(w, op) && (op.EffectOp? || op.ReviewItemOp? || op.FraudOp?)
    ensures Safe(Step(w, op)) && Progress(w, Step(w, op))
  {
    match op
    case EffectOp(e, erased) => if ApplyEffect(w, e, erased).Ok? { EffectKeeps(w, e, erased); }
    case ReviewItemOp(review) => if DecideReview(w, review).Ok? { ReviewKeeps(w, review); }
    case FraudOp(item, refused) => FraudHoldKeeps(w, item, refused);
  }

  lemma WalletStepKeeps(w: Wallet, op: WalletOp)
    requires Safe(w) && Permitted(w, op)
    ensures Safe(Step(w, op)) && Progress(w, Step(w, op))
  {
    match op
    case ResolveCaseOp(i) =>
    case FundingOp(f) => FundingOpKeeps(w, f);
    case _ => if op.RequestOp? || op.MoveOp? || op.FlagOp? { PayoutStepKeeps(w, op); } else { RewardStepKeeps(w, op); }
  }

  ghost predicate WalletSteps(w: Wallet, op: WalletOp, w': Wallet) {
    Sound(w.book) ==> Permitted(w, op) && w' == Step(w, op)
  }

  ghost predicate IsWalletRun(states: seq<Wallet>, ops: seq<WalletOp>) {
    |states| == |ops| + 1 && forall i :: 0 <= i < |ops| ==> WalletSteps(states[i], ops[i], states[i + 1])
  }

  predicate Opening(w: Wallet) {
    w.ledger == [] && w.requests == [] && w.cases == [] && Empty(w.book)
  }

  lemma {:induction false} WalletRunSafe(states: seq<Wallet>, ops: seq<WalletOp>, n: nat)
    requires IsWalletRun(states, ops) && Opening(states[0]) && n <= |ops|
    ensures Safe(states[n])
  {
    if n > 0 {
      WalletRunSafe(states, ops, n - 1);
      assert WalletSteps(states[n - 1], ops[n - 1], states[n - 1 + 1]);
      WalletStepKeeps(states[n - 1], ops[n - 1]);
    }
  }

  /** A finished request keeps its status for the rest of every run. */
  lemma {:induction false} FinishedStaysFinished(states: seq<Wallet>, ops: seq<WalletOp>, m: nat, n: nat, id: Id)
    requires IsWalletRun(states, ops) && Opening(states[0]) && m <= n <= |ops|
    requires id < |states[m].requests| && Terminal(states[m].requests[id].status)
    ensures id < |states[n].requests| && states[n].requests[id].status == states[m].requests[id].status
    ensures states[n].requests[id].amount == states[m].requests[id].amount
    decreases n
  {
    if m < n {
      FinishedStaysFinished(states, ops, m, n - 1, id);
      WalletRunSafe(states, ops, n - 1);
      assert WalletSteps(states[n - 1], ops[n - 1], states[n - 1 + 1]);
      WalletStepKeeps(states[n - 1], ops[n - 1]);
    }
  }

  // ----- what it means for the user's money -----------------------------------------------------

  function CreditedTo(u: Id): Row -> int {
    (r: Row) => if r.user == u && r.kind != Redeem && r.status == Available then r.amount else 0
  }
  function PaidOrHeld(u: Id): Row -> int {
    (r: Row) => if r.user == u && r.kind == Redeem && (r.status == Pending || r.status == Redeemed) then -r.amount else 0
  }

  /** Paid plus reserved never exceeds what was credited. */
  lemma NeverPaysMoreThanCredited(states: seq<Wallet>, ops: seq<WalletOp>, n: nat, u: Id)
    requires IsWalletRun(states, ops) && Opening(states[0]) && n <= |ops|
    ensures Sum(states[n].ledger, PaidOrHeld(u)) <= Sum(states[n].ledger, CreditedTo(u))
  {
    WalletRunSafe(states, ops, n);
    assert AvailableBalance(states[n].ledger, u) >= 0;
    SumPlus(states[n].ledger, AvailableOf(u), PaidOrHeld(u), CreditedTo(u));
  }
}
