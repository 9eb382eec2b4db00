/**
  Reconciliation read model (lib/reconciliation-report.ts): payout requests compared with their reserves
  request by request, and the liabilities summed user by user.
 */
module Reconciliation {
  import opened Basics
  import opened Sums
  import opened WalletLedger
  import opened WalletRuns
  import opened WalletService

  // ----- payout requests against the ledger -----------------------------------------------------

  datatype Problem =
    | NotLinkedToRedemption | MissingReference | RequestMissing | OwnerMismatch | AmountMismatch
    | ReserveIsMissing | DuplicateReserve | StateMismatch

  datatype RequestRow = RequestRow(
    id: nat, status: RequestStatus, amount: int, reserveStatuses: seq<Status>, ledgerPaid: int, ledgerReserved: int)
  datatype OrphanRow = OrphanRow(ledgerId: nat, status: Status, amount: int, problem: Problem)
  datatype Mismatch = Mismatch(paidDifference: int, reservedDifference: int, problem: Problem)

  function PaidAmount(r: Row): int { if r.kind == Redeem && r.status == Redeemed then -r.amount else 0 }
  function ReservedAmount(r: Row): int { if r.kind == Redeem && r.status == Pending then -r.amount else 0 }

  function ExpectedPaid(r: Request): int { if ExpectedReserve(r.status) == Redeemed then r.amount else 0 }
  function ExpectedHeld(r: Request): int { if ExpectedReserve(r.status) == Pending then r.amount else 0 }

  /** A live reserve row of the request's own owner (the join condition). */
  predicate Joins(requests: seq<Request>, id: nat, r: Row) {
    id < |requests| && IsReserveOf(r, id) && r.user == requests[id].user
  }

  function PaidOf(requests: seq<Request>, id: nat): Row -> int {
    (r: Row) => if Joins(requests, id, r) then PaidAmount(r) else 0
  }
  function ReservedOf(requests: seq<Request>, id: nat): Row -> int {
    (r: Row) => if Joins(requests, id, r) then ReservedAmount(r) else 0
  }

  function JoinedStatuses(ledger: seq<Row>, requests: seq<Request>, id: nat): seq<Status> {
    if |ledger| == 0 then []
    else
      var front := JoinedStatuses(ledger[..|ledger| - 1], requests, id);
      var last := ledger[|ledger| - 1];
      if Joins(requests, id, last) then front + [last.status] else front
  }

  function Joined(ledger: seq<Row>, requests: seq<Request>, id: nat): RequestRow
    requires id < |requests|
  {
    RequestRow(id, requests[id].status, requests[id].amount, JoinedStatuses(ledger, requests, id),
               Sum(ledger, PaidOf(requests, id)), Sum(ledger, ReservedOf(requests, id)))
  }

  predicate Disagrees(ledger: seq<Row>, requests: seq<Request>, id: nat)
    requires id < |requests|
  {
    || Sum(ledger, PaidOf(requests, id)) != ExpectedPaid(requests[id])
    || Sum(ledger, ReservedOf(requests, id)) != ExpectedHeld(requests[id])
  }

  /** Requests below n whose own reserve rows disagree with their status. */
  function MismatchedRequests(ledger: seq<Row>, requests: seq<Request>, n: nat): seq<RequestRow>
    requires n <= |requests|
  {
    if n == 0 then []
    else
      MismatchedRequests(ledger, requests, n - 1)
      + if Disagrees(ledger, requests, n - 1) then [Joined(ledger, requests, n - 1)] else []
  }

  /** Why a REDEEM row is not backed by a matching request, if it is not. */
  function ReserveProblem(requests: seq<Request>, r: Row): Option<Problem> {
    if r.kind != Redeem then None
    else if !r.reference.RedemptionRef? then Some(NotLinkedToRedemption)
    else if r.reference.id.None? then Some(MissingReference)
    else if r.reference.id.value >= |requests| then Some(RequestMissing)
    else if requests[r.reference.id.value].user != r.user then Some(OwnerMismatch)
    else if -r.amount != requests[r.reference.id.value].amount then Some(AmountMismatch)
    else None
  }

  function ReservesWithoutRequest(ledger: seq<Row>, requests: seq<Request>): seq<OrphanRow> {
    if |ledger| == 0 then []
    else
      var n := |ledger| - 1;
      var problem := ReserveProblem(requests, ledger[n]);
      ReservesWithoutRequest(ledger[..n], requests)
      + if problem.Some? then [OrphanRow(n, ledger[n].status, ledger[n].amount, problem.value)] else []
  }

  function MoneyRows(statuses: seq<Status>): seq<Status> {
    if |statuses| == 0 then []
    else
      var last := statuses[|statuses| - 1];
      MoneyRows(statuses[..|statuses| - 1]) + if last == Pending || last == Redeemed then [last] else []
  }

  function RequestMismatch(row: RequestRow): Mismatch {
    var paid := if ExpectedReserve(row.status) == Redeemed then row.amount else 0;
    var held := if ExpectedReserve(row.status) == Pending then row.amount else 0;
    var money := MoneyRows(row.reserveStatuses);
    var problem :=
      if |row.reserveStatuses| == 0 then ReserveIsMissing
      else if |money| > 1 then DuplicateReserve
      else if |money| == 0 || money[0] != ExpectedReserve(row.status) then StateMismatch
      else AmountMismatch;
    Mismatch(row.ledgerPaid - paid, row.ledgerReserved - held, problem)
  }

  /** A paid or held REDEEM row that backs no request of its owner; amount mismatches are per request. */
  function OrphanMismatch(row: OrphanRow): Option<Mismatch> {
    if row.problem == AmountMismatch || (row.status != Pending && row.status != Redeemed) then None
    else Some(Mismatch(if row.status == Redeemed then -row.amount else 0, if row.status == Pending then -row.amount else 0, row.problem))
  }

  function RequestMismatches(rows: seq<RequestRow>): seq<Mismatch> {
    if |rows| == 0 then [] else RequestMismatches(rows[..|rows| - 1]) + [RequestMismatch(rows[|rows| - 1])]
  }

  function OrphanMismatches(rows: seq<OrphanRow>): seq<Mismatch> {
    if |rows| == 0 then []
    else
      var last := OrphanMismatch(rows[|rows| - 1]);
      OrphanMismatches(rows[..|rows| - 1]) + if last.Some? then [last.value] else []
  }

  function Mismatches(ledger: seq<Row>, requests: seq<Request>): seq<Mismatch> {
    RequestMismatches(MismatchedRequests(ledger, requests, |requests|))
    + OrphanMismatches(ReservesWithoutRequest(ledger, requests))
  }

  function PaidDifference(m: Mismatch): int { m.paidDifference }
  function ReservedDifference(m: Mismatch): int { m.reservedDifference }
  function AbsPaid(m: Mismatch): int { Abs(m.paidDifference) }
  function AbsReserved(m: Mismatch): int { Abs(m.reservedDifference) }

  // ----- no money is hidden ---------------------------------------------------------------------

  /** The row belongs to some request below n. */
  predicate Matched(requests: seq<Request>, n: nat, r: Row) {
    r.reference.RedemptionRef? && r.reference.id.Some? && r.reference.id.value < n && Joins(requests, r.reference.id.value, r)
  }

  /** Redeem money of a row matched to some request below n. */
  function MatchedPaid(requests: seq<Request>, n: nat): Row -> int {
    (r: Row) => if Matched(requests, n, r) then PaidAmount(r) else 0
  }
  function MatchedReserved(requests: seq<Request>, n: nat): Row -> int {
    (r: Row) => if Matched(requests, n, r) then ReservedAmount(r) else 0
  }

  /** Summing request by request is summing the matched rows once. */
  lemma {:induction false} RequestDifferences(ledger: seq<Row>, requests: seq<Request>, n: nat)
    requires n <= |requests|
    ensures var rows := RequestMismatches(MismatchedRequests(ledger, requests, n));
            && Sum(rows, PaidDifference) == Sum(ledger, MatchedPaid(requests, n)) - Sum(requests[..n], ExpectedPaid)
            && Sum(rows, ReservedDifference) == Sum(ledger, MatchedReserved(requests, n)) - Sum(requests[..n], ExpectedHeld)
  {
    if n == 0 {
      SumZero(ledger, MatchedPaid(requests, 0));
      SumZero(ledger, MatchedReserved(requests, 0));
    } else {
      RequestDifferences(ledger, requests, n - 1);
      SumPlus(ledger, MatchedPaid(requests, n - 1), PaidOf(requests, n - 1), MatchedPaid(requests, n));
      SumPlus(ledger, MatchedReserved(requests, n - 1), ReservedOf(requests, n - 1), MatchedReserved(requests, n));
      assert requests[..n][..n - 1] == requests[..n - 1];
      LastRequest(ledger, requests, n);
    }
  }

  lemma LastRequest(ledger: seq<Row>, requests: seq<Request>, n: nat)
    requires 0 < n <= |requests|
    ensures var front := RequestMismatches(MismatchedRequests(ledger, requests, n - 1));
            var rows := RequestMismatches(MismatchedRequests(ledger, requests, n));
            && Sum(rows, PaidDifference) == Sum(front, PaidDifference) + Sum(ledger, PaidOf(requests, n - 1)) - ExpectedPaid(requests[n - 1])
            && Sum(rows, ReservedDifference)
               == Sum(front, ReservedDifference) + Sum(ledger, ReservedOf(requests, n - 1)) - ExpectedHeld(requests[n - 1])
  {
    var front := MismatchedRequests(ledger, requests, n - 1);
    if Disagrees(ledger, requests, n - 1) {
      var row := Joined(ledger, requests, n - 1);
      assert (front + [row])[..|front|] == front;
      SumAppend(RequestMismatches(front), RequestMismatch(row), PaidDifference);
      SumAppend(RequestMismatches(front), RequestMismatch(row), ReservedDifference);
    } else {
      assert MismatchedRequests(ledger, requests, n) == front;
    }
  }

  function UnmatchedPaid(requests: seq<Request>): Row -> int {
    (r: Row) => if Matched(requests, |requests|, r) then 0 else PaidAmount(r)
  }
  function UnmatchedReserved(requests: seq<Request>): Row -> int {
    (r: Row) => if Matched(requests, |requests|, r) then 0 else ReservedAmount(r)
  }

  /** A row is unmatched exactly by what it is listed for as an orphan. */
  lemma OrphanIsUnmatched(requests: seq<Request>, r: Row, i: nat)
    ensures var problem := ReserveProblem(requests, r);
            var m := if problem.None? then None else OrphanMismatch(OrphanRow(i, r.status, r.amount, problem.value));
            && UnmatchedPaid(requests)(r) == (if m.None? then 0 else m.value.paidDifference)
            && UnmatchedReserved(requests)(r) == (if m.None? then 0 else m.value.reservedDifference)
  {
  }

  lemma LastOrphan(ledger: seq<Row>, requests: seq<Request>)
    requires |ledger| > 0
    ensures var n := |ledger| - 1;
            var front := OrphanMismatches(ReservesWithoutRequest(ledger[..n], requests));
            var rows := OrphanMismatches(ReservesWithoutRequest(ledger, requests));
            && Sum(rows, PaidDifference) == Sum(front, PaidDifference) + UnmatchedPaid(requests)(ledger[n])
            && Sum(rows, ReservedDifference) == Sum(front, ReservedDifference) + UnmatchedReserved(requests)(ledger[n])
  {
    var n := |ledger| - 1;
    OrphanIsUnmatched(requests, ledger[n], n);
    var front := ReservesWithoutRequest(ledger[..n], requests);
    var problem := ReserveProblem(requests, ledger[n]);
    if problem.None? {
      assert ReservesWithoutRequest(ledger, requests) == front;
    } else {
      var row := OrphanRow(n, ledger[n].status, ledger[n].amount, problem.value);
      assert (front + [row])[..|front|] == front;
      var m := OrphanMismatch(row);
      if m.None? {
        assert OrphanMismatches(front + [row]) == OrphanMismatches(front);
      } else {
        SumAppend(OrphanMismatches(front), m.value, PaidDifference);
        SumAppend(OrphanMismatches(front), m.value, ReservedDifference);
      }
    }
  }

  lemma {:induction false} OrphanDifferences(ledger: seq<Row>, requests: seq<Request>)
    ensures var rows := OrphanMismatches(ReservesWithoutRequest(ledger, requests));
            && Sum(rows, PaidDifference) == Sum(ledger, UnmatchedPaid(requests))
            && Sum(rows, ReservedDifference) == Sum(ledger, UnmatchedReserved(requests))
  {
    if |ledger| > 0 {
      OrphanDifferences(ledger[..|ledger| - 1], requests);
      LastOrphan(ledger, requests);
    }
  }

  /** For any tables, the signed differences account for the whole gap between ledger and requests. */
  lemma DifferencesExplainGap(ledger: seq<Row>, requests: seq<Request>)
    ensures Sum(Mismatches(ledger, requests), PaidDifference) == Sum(ledger, PaidAmount) - Sum(requests, ExpectedPaid)
    ensures Sum(Mismatches(ledger, requests), ReservedDifference) == Sum(ledger, ReservedAmount) - Sum(requests, ExpectedHeld)
  {
    RequestDifferences(ledger, requests, |requests|);
    OrphanDifferences(ledger, requests);
    assert requests[..|requests|] == requests;
    var a, b := RequestMismatches(MismatchedRequests(ledger, requests, |requests|)), OrphanMismatches(ReservesWithoutRequest(ledger, requests));
    SumConcat(a, b, PaidDifference);
    SumConcat(a, b, ReservedDifference);
    SumPlus(ledger, MatchedPaid(requests, |requests|), UnmatchedPaid(requests), PaidAmount);
    SumPlus(ledger, MatchedReserved(requests, |requests|), UnmatchedReserved(requests), ReservedAmount);
  }

  lemma {:induction false} AbsBoundsSum(ms: seq<Mismatch>)
    ensures Abs(Sum(ms, PaidDifference)) <= Sum(ms, AbsPaid)
    ensures Abs(Sum(ms, ReservedDifference)) <= Sum(ms, AbsReserved)
  {
    if |ms| > 0 {
      AbsBoundsSum(ms[..|ms| - 1]);
    }
  }

  /** The reported discrepancy is never smaller than the total gap, so gaps cannot cancel out. */
  lemma GapWithinDiscrepancy(ledger: seq<Row>, requests: seq<Request>)
    ensures Abs(Sum(ledger, PaidAmount) - Sum(requests, ExpectedPaid)) <= Sum(Mismatches(ledger, requests), AbsPaid)
    ensures Abs(Sum(ledger, ReservedAmount) - Sum(requests, ExpectedHeld)) <= Sum(Mismatches(ledger, requests), AbsReserved)
  {
    DifferencesExplainGap(ledger, requests);
    AbsBoundsSum(Mismatches(ledger, requests));
  }

  // ----- a clean report is a clean ledger --------------------------------------------------------

  predicate HasDiscrepancy(ms: seq<Mismatch>) { Sum(ms, AbsPaid) != 0 || Sum(ms, AbsReserved) != 0 }

  ghost predicate Clean(ms: seq<Mismatch>) {
    forall i :: 0 <= i < |ms| ==> ms[i].paidDifference == 0 && ms[i].reservedDifference == 0
  }

  lemma DiscrepancyIsUnclean(ms: seq<Mismatch>)
    ensures HasDiscrepancy(ms) <==> !Clean(ms)
  {
    if Clean(ms) {
      SumZero(ms, AbsPaid);
      SumZero(ms, AbsReserved);
    } else {
      var i :| 0 <= i < |ms| && !(ms[i].paidDifference == 0 && ms[i].reservedDifference == 0);
      SumAtLeastOne(ms, i, AbsPaid);
      SumAtLeastOne(ms, i, AbsReserved);
    }
  }

  lemma CleanAppend(ms: seq<Mismatch>, m: Mismatch)
    ensures Clean(ms + [m]) <==> Clean(ms) && m.paidDifference == 0 && m.reservedDifference == 0
  {
    assert (ms + [m])[|ms|] == m;
    assert forall i :: 0 <= i < |ms| ==> (ms + [m])[i] == ms[i];
  }

  lemma {:induction false} RequestsClean(ledger: seq<Row>, requests: seq<Request>, n: nat)
    requires n <= |requests|
    ensures Clean(RequestMismatches(MismatchedRequests(ledger, requests, n)))
      <==> forall id :: 0 <= id < n ==> !Disagrees(ledger, requests, id)
  {
    if n > 0 {
      RequestsClean(ledger, requests, n - 1);
      var front := MismatchedRequests(ledger, requests, n - 1);
      if Disagrees(ledger, requests, n - 1) {
        var row := Joined(ledger, requests, n - 1);
        assert (front + [row])[..|front|] == front;
        CleanAppend(RequestMismatches(front), RequestMismatch(row));
      } else {
        assert MismatchedRequests(ledger, requests, n) == front;
      }
    }
  }

  /** The row is money that no request of its owner accounts for. */
  predicate CarriesOrphanMoney(requests: seq<Request>, r: Row) {
    UnmatchedPaid(requests)(r) != 0 || UnmatchedReserved(requests)(r) != 0
  }

  lemma {:induction false} OrphansClean(ledger: seq<Row>, requests: seq<Request>)
    ensures Clean(OrphanMismatches(ReservesWithoutRequest(ledger, requests)))
      <==> forall i :: 0 <= i < |ledger| ==> !CarriesOrphanMoney(requests, ledger[i])
  {
    if |ledger| > 0 {
      var n := |ledger| - 1;
      OrphansClean(ledger[..n], requests);
      OrphanIsUnmatched(requests, ledger[n], n);
      var front := ReservesWithoutRequest(ledger[..n], requests);
      var problem := ReserveProblem(requests, ledger[n]);
      if problem.None? {
        assert ReservesWithoutRequest(ledger, requests) == front;
      } else {
        var row := OrphanRow(n, ledger[n].status, ledger[n].amount, problem.value);
        assert (front + [row])[..|front|] == front;
        if OrphanMismatch(row).None? {
          assert OrphanMismatches(front + [row]) == OrphanMismatches(front);
        } else {
          CleanAppend(OrphanMismatches(front), OrphanMismatch(row).value);
        }
      }
      assert forall i :: 0 <= i < n ==> ledger[..n][i] == ledger[i];
    }
  }

  /** For any tables: the report shows no discrepancy exactly when every request agrees and no orphan row carries money. */
  lemma DiscrepancyExact(ledger: seq<Row>, requests: seq<Request>)
    ensures !HasDiscrepancy(Mismatches(ledger, requests)) <==>
      && (forall id :: 0 <= id < |requests| ==> !Disagrees(ledger, requests, id))
      && (forall i :: 0 <= i < |ledger| ==> !CarriesOrphanMoney(requests, ledger[i]))
  {
    RequestsClean(ledger, requests, |requests|);
    OrphansClean(ledger, requests);
    var a, b := RequestMismatches(MismatchedRequests(ledger, requests, |requests|)), OrphanMismatches(ReservesWithoutRequest(ledger, requests));
    DiscrepancyIsUnclean(a + b);
    CleanConcat(a, b);
  }

  lemma CleanConcat(a: seq<Mismatch>, b: seq<Mismatch>)
    ensures Clean(a + b) <==> Clean(a) && Clean(b)
  {
    assert forall i :: 0 <= i < |b| ==> (a + b)[|a| + i] == b[i];
    assert forall i :: 0 <= i < |a| ==> (a + b)[i] == a[i];
  }

  // ----- the wallet machine reports no discrepancy ----------------------------------------------

  lemma SafeRequestAgrees(w: Wallet, id: nat)
    requires Safe(w) && id < |w.requests|
    ensures !Disagrees(w.ledger, w.requests, id)
  {
    ReserveLoaded(w, id);
    var i := LoadReserve(w.ledger, id, w.requests[id]).value;
    assert RowSound(w.requests, w.items, w.ledger[i]);
    SumSingle(w.ledger, i, PaidOf(w.requests, id));
    SumSingle(w.ledger, i, ReservedOf(w.requests, id));
  }

  lemma {:induction false} SafeHasNoMismatch(w: Wallet, n: nat)
    requires Safe(w) && n <= |w.requests|
    ensures MismatchedRequests(w.ledger, w.requests, n) == []
  {
    if n > 0 {
      SafeHasNoMismatch(w, n - 1);
      SafeRequestAgrees(w, n - 1);
    }
  }

  lemma {:induction false} SafeHasNoOrphan(ledger: seq<Row>, requests: seq<Request>)
    requires forall i :: 0 <= i < |ledger| && ledger[i].kind == Redeem ==> BackedBy(requests, ledger[i])
    ensures ReservesWithoutRequest(ledger, requests) == []
  {
    if |ledger| > 0 {
      SafeHasNoOrphan(ledger[..|ledger| - 1], requests);
    }
  }

  /** Every state the wallet machine reaches reports no mismatch at all. */
  lemma WalletReportsNothing(states: seq<Wallet>, ops: seq<WalletOp>, n: nat)
    requires IsWalletRun(states, ops) && Opening(states[0]) && n <= |ops|
    ensures Mismatches(states[n].ledger, states[n].requests) == []
  {
    WalletRunSafe(states, ops, n);
    var w := states[n];
    SafeHasNoMismatch(w, |w.requests|);
    forall i | 0 <= i < |w.ledger| && w.ledger[i].kind == Redeem ensures BackedBy(w.requests, w.ledger[i]) {
      assert RowSound(w.requests, w.items, w.ledger[i]);
    }
    SafeHasNoOrphan(w.ledger, w.requests);
  }

  // ----- liabilities ----------------------------------------------------------------------------

  datatype Liabilities = Liabilities(
    available: int, pending: int, reserved: int, paid: int, overdrawnUsers: nat, availableShortfall: int, pendingShortfall: int)

  function AvailableIn(b: Balance): int { b.available }
  function PendingIn(b: Balance): int { b.pending }
  function RedeemedIn(b: Balance): int { b.redeemed }
  function ReservedIn(b: Balance): int { b.reserved }
  function Owed(b: Balance): int { Max(0, b.available) }
  function OwedPending(b: Balance): int { Max(0, b.pending) }

  /** A user below zero counts once, with what is missing; it never offsets what others are owed. */
  function Overdrawn(b: Balance): int { if b.available < 0 || b.pending < 0 then 1 else 0 }
  function ShortOfAvailable(b: Balance): int { Max(0, -b.available) }
  function ShortOfPending(b: Balance): int { Max(0, -b.pending) }

  method SummarizeLiabilities(balances: seq<Balance>) returns (s: Liabilities)
    ensures s.available == Sum(balances, Owed) && s.pending == Sum(balances, OwedPending)
    ensures s.reserved == Sum(balances, ReservedIn) && s.paid == Sum(balances, RedeemedIn)
    ensures s.available - s.availableShortfall == Sum(balances, AvailableIn) && s.availableShortfall >= 0
    ensures s.pending - s.pendingShortfall == Sum(balances, PendingIn) && s.pendingShortfall >= 0
    ensures s.availableShortfall == Sum(balances, ShortOfAvailable) && s.pendingShortfall == Sum(balances, ShortOfPending)
    ensures s.overdrawnUsers == Sum(balances, Overdrawn)
  {
    var available, pending, reserved, paid := 0, 0, 0, 0;
    var users, availableShortfall, pendingShortfall := 0, 0, 0;
    var i := 0;
    while i < |balances|
      invariant i <= |balances|
      invariant available == Sum(balances[..i], Owed) && pending == Sum(balances[..i], OwedPending)
      invariant reserved == Sum(balances[..i], ReservedIn) && paid == Sum(balances[..i], RedeemedIn)
      invariant available - availableShortfall == Sum(balances[..i], AvailableIn) && availableShortfall >= 0
      invariant pending - pendingShortfall == Sum(balances[..i], PendingIn) && pendingShortfall >= 0
      invariant availableShortfall == Sum(balances[..i], ShortOfAvailable) && pendingShortfall == Sum(balances[..i], ShortOfPending)
      invariant users >= 0 && users == Sum(balances[..i], Overdrawn)
    {
      var b := balances[i];
      assert balances[..i + 1][..i] == balances[..i];
      if b.available >= 0 {
        available := available + b.available;
      } else {
        availableShortfall := availableShortfall - b.available;
      }
      if b.pending >= 0 {
        pending := pending + b.pending;
      } else {
        pendingShortfall := pendingShortfall - b.pending;
      }
      if b.available < 0 || b.pending < 0 {
        users := users + 1;
      }
      reserved := reserved + b.reserved;
      paid := paid + b.redeemed;
      i := i + 1;
    }
    assert balances[..i] == balances;
    s := Liabilities(available, pending, reserved, paid, users, availableShortfall, pendingShortfall);
  }

  function PaidTo(u: Id): Row -> int { (r: Row) => if r.user == u then PaidAmount(r) else 0 }
  function UserPaid(ledger: seq<Row>): Id -> int { (u: Id) => Sum(ledger, PaidTo(u)) }

  /** Summed over distinct users that cover the ledger, the paid totals are the ledger's paid total. */
  lemma {:induction false} PaidTotalByUser(ledger: seq<Row>, users: seq<Id>)
    requires forall i, j :: 0 <= i < j < |users| ==> users[i] != users[j]
    requires forall k :: 0 <= k < |ledger| ==> ledger[k].user in users
    ensures Sum(users, UserPaid(ledger)) == Sum(ledger, PaidAmount)
  {
    if |ledger| == 0 {
      SumZero(users, UserPaid(ledger));
    } else {
      var n := |ledger| - 1;
      PaidTotalByUser(ledger[..n], users);
      OneUserMoves(ledger, users);
    }
  }

  lemma {:induction false} OneUserMoves(ledger: seq<Row>, users: seq<Id>)
    requires |ledger| > 0
    requires forall i, j :: 0 <= i < j < |users| ==> users[i] != users[j]
    ensures var n := |ledger| - 1;
            Sum(users, UserPaid(ledger)) == Sum(users, UserPaid(ledger[..n])) + if ledger[n].user in users then PaidAmount(ledger[n]) else 0
  {
    if |users| > 0 {
      var front := users[..|users| - 1];
      OneUserMoves(ledger, front);
      assert users == front + [users[|users| - 1]];
    }
  }
}
