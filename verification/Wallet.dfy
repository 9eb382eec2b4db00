/**
  Wallet ledger, reward effects, review settlement and the payout machine (lib/ledger.ts,
  lib/reward-credit.ts, lib/deposit-review.ts, lib/wallet-service.ts).

  The ledger is append-only: a row is inserted once and afterwards only its status changes. Each
  function is one wallet transaction over the ledger, the requests, the cases and the funding book.
 */
module WalletLedger {
  import opened Basics
  import opened Sums
  import opened FundingBook
  import opened PayoutAttribution
  import opened FundingRuns

  datatype EntryType = Earn | Redeem | Adjust | Reverse | Penalty
  datatype Status = Pending | Available | Redeemed | Reversed | Rejected
  datatype RowKey = EffectKey(key: EarnKey) | ReserveKey(redemption: Id) | NoKey
  datatype Reference = RedemptionRef(id: Option<Id>) | OtherRef
  datatype Row = Row(user: Id, kind: EntryType, status: Status, amount: int, key: RowKey, item: Option<Id>, reference: Reference)

  datatype RequestStatus = Requested | Approved | Processing | Success | Failed | ReversedRequest
  datatype Request = Request(
    user: Id, amount: int, status: RequestStatus, idempotencyKey: Id, payoutAccount: Id,
    reference: Option<Id>, note: Option<Id>, proof: bool, destination: bool,
    flagged: bool, flagNote: Option<Id>)

  datatype CaseReason = AlreadyPaidOut | RecipientErased
  datatype Case = Case(key: EarnKey, user: Id, amount: int, reason: CaseReason, item: Option<Id>, open: bool)

  datatype ItemStatus = InReview | ReviewAccepted | ReviewRejected | OtherItemStatus
  datatype Item = Item(user: Id, session: Id, status: ItemStatus)

  datatype Wallet = Wallet(
    ledger: seq<Row>, requests: seq<Request>, cases: seq<Case>, items: map<Id, Item>, book: Book)

  datatype WalletError =
    | EffectInvalid | RewardKeyConflict | ReserveMissing | ReserveMismatch
    | RequestKeyConflict | PayoutAccountNotFound | PayoutAccountDisabled | BelowMinimum | BalanceInsufficient | AmountOutOfRange
    | RoleRefused | RequestNotFound | NotOwner | StatusChanged | InvalidTransition | ProofRequired | NoteRequiredToFail
    | DestinationUnavailable | ReplayReferenceConflict | ReplayNoteConflict | FlagNoteConflict
    | ItemNotFound | ItemNotInReview | DecidedDifferently | ItemChanged
    | Funding(error: FundingError)

  // ----- balance --------------------------------------------------------------------------------

  /** What a row adds to its owner's spendable balance. */
  function Spendable(kind: EntryType, status: Status, amount: int): int {
    match kind
    case Redeem => if status == Pending || status == Redeemed then amount else 0
    case _ => if status == Available then amount else 0
  }

  function AvailableOf(u: Id): Row -> int {
    (r: Row) => if r.user == u then Spendable(r.kind, r.status, r.amount) else 0
  }

  function AvailableBalance(ledger: seq<Row>, u: Id): int { Sum(ledger, AvailableOf(u)) }

  // ----- cases ----------------------------------------------------------------------------------

  /** Each deposit item once; a case without an item by itself. */
  datatype HoldKey = HoldItem(item: Id) | HoldCase(index: nat)

  function HoldKeyOf(cases: seq<Case>, i: nat): HoldKey
    requires i < |cases|
  {
    if cases[i].item.Some? then HoldItem(cases[i].item.value) else HoldCase(i)
  }

  predicate HoldsFor(c: Case, user: Id) { c.user == user && c.open && c.reason == AlreadyPaidOut }

  /** Largest amount an open debit case among the first n holds for `key`. */
  function LargestHold(cases: seq<Case>, user: Id, key: HoldKey, n: nat): int
    requires n <= |cases|
  {
    if n == 0 then 0
    else
      var rest := LargestHold(cases, user, key, n - 1);
      if HoldsFor(cases[n - 1], user) && HoldKeyOf(cases, n - 1) == key then Max(rest, cases[n - 1].amount) else rest
  }

  /** Rupiah the first n open debit cases keep out of reach: each item at its largest case. */
  function HeldByCases(cases: seq<Case>, user: Id, n: nat): int
    requires n <= |cases|
  {
    if n == 0 then 0
    else
      HeldByCases(cases, user, n - 1)
      + if HoldsFor(cases[n - 1], user)
        then Max(0, cases[n - 1].amount - LargestHold(cases, user, HoldKeyOf(cases, n - 1), n - 1))
        else 0
  }

  function HeldByOpenDebitCases(cases: seq<Case>, user: Id): int { HeldByCases(cases, user, |cases|) }

  // ----- reward effects -------------------------------------------------------------------------

  datatype FundingHint = CommitCeiling(ceiling: Option<int>, pending: Option<bool>) | SettledByCaller

  datatype Effect = Effect(
    key: EarnKey, user: Id, amount: int, status: Status, kind: EntryType, item: Option<Id>,
    source: Option<SourceKey>, stored: Option<Source>, cutover: Option<int>, funding: FundingHint)

  predicate EffectValid(e: Effect) {
    && -MAX_RUPIAH <= e.amount <= MAX_RUPIAH
    && (e.kind == Earn || e.kind == Adjust || e.kind == Reverse)
    && (e.status == Available || e.status == Pending)
    && (e.kind == Earn ==> e.amount >= 0)
    && (e.kind == Reverse ==> e.amount <= 0)
  }

  /** The approvable ceiling the effect names, else its positive amount. */
  function FundingCeiling(e: Effect): int {
    match e.funding
    case SettledByCaller => 0
    case CommitCeiling(ceiling, _) => if ceiling.Some? then ceiling.value else Max(e.amount, 0)
  }

  /** An earning commits its ceiling against its source's reservation; corrections are settled by the review. */
  function CheckRewardFunding(b: Book, e: Effect): Result<Book, FundingError>
    requires Sound(b)
  {
    if e.funding.SettledByCaller? || e.kind != Earn || FundingCeiling(e) <= 0 || e.source.None? then Ok(b)
    else
      EarnReward(b, e.source.value, e.stored, e.cutover, e.key, FundingCeiling(e),
           if e.funding.pending.Some? then e.funding.pending.value else e.status == Pending)
  }

  function RowKeyed(key: RowKey): Row -> bool { (r: Row) => r.key == key }
  function CaseKeyed(key: EarnKey): Case -> bool { (c: Case) => c.key == key }

  datatype EffectOutcome = Credited | Existing | Zero | CaseOpened

  function EffectRow(e: Effect): Row {
    Row(e.user, e.kind, e.status, e.amount, EffectKey(e.key), e.item, OtherRef)
  }

  function OpenCase(w: Wallet, e: Effect, reason: CaseReason): Wallet {
    w.(cases := w.cases + [Case(e.key, e.user, Abs(e.amount), reason, e.item, true)])
  }

  /** A debit the recipient's spendable balance no longer covers. */
  predicate Overdraws(ledger: seq<Row>, e: Effect) {
    e.amount < 0 && e.status == Available && AvailableBalance(ledger, e.user) + e.amount < 0
  }

  function ApplyEffect(w: Wallet, e: Effect, erased: bool): Result<(Wallet, EffectOutcome), WalletError>
    requires Sound(w.book)
  {
    if !EffectValid(e) then Err(EffectInvalid)
    else if e.amount == 0 then
      var r := CheckRewardFunding(w.book, e);
      if r.Err? then Err(Funding(r.error)) else Ok((w.(book := r.value), Zero))
    else
      var existing := Find(w.ledger, RowKeyed(EffectKey(e.key)));
      if existing.Some? then
        var row := w.ledger[existing.value];
        if row.user == e.user && row.kind == e.kind && row.amount == e.amount then Ok((w, Existing))
        else Err(RewardKeyConflict)
      else if Find(w.cases, CaseKeyed(e.key)).Some? then Ok((w, CaseOpened))
      else if erased then Ok((OpenCase(w, e, RecipientErased), CaseOpened))
      else if Overdraws(w.ledger, e) then Ok((OpenCase(w, e, AlreadyPaidOut), CaseOpened))
      else
        var r := CheckRewardFunding(w.book, e);
        if r.Err? then Err(Funding(r.error))
        else Ok((w.(book := r.value, ledger := w.ledger + [EffectRow(e)]), Credited))
  }

  // ----- review settlement ----------------------------------------------------------------------

  datatype PlanRow = PlanRow(id: nat, kind: EntryType, status: Status, amount: int)
  datatype Plan = Plan(releaseIds: seq<nat>, rejectIds: seq<nat>, delta: int, entry: Option<EntryType>)

  predicate IsCorrection(kind: EntryType) { kind == Adjust || kind == Reverse || kind == Penalty }

  function HoldIds(rows: seq<PlanRow>): seq<nat> {
    if |rows| == 0 then []
    else
      var front := HoldIds(rows[..|rows| - 1]);
      var last := rows[|rows| - 1];
      if last.kind == Earn && last.status == Pending then front + [last.id] else front
  }

  /** What a row counts for once the holds are released (`pays`) or rejected. */
  function Committed(pays: bool): PlanRow -> int {
    (r: PlanRow) =>
      if r.kind == Earn && (r.status == Available || (r.status == Pending && pays)) then r.amount
      else if IsCorrection(r.kind) && r.status == Available then r.amount
      else 0
  }

  function EarnCount(r: PlanRow): int { if r.kind == Earn then 1 else 0 }

  function PlanReview(approve: bool, target: int, rows: seq<PlanRow>): Plan {
    var pays := approve && target > 0;
    var holds := HoldIds(rows);
    var delta := target - Sum(rows, Committed(pays));
    var entry :=
      if delta == 0 then None
      else if !approve then Some(if delta < 0 then Reverse else Adjust)
      else if delta > 0 && Sum(rows, EarnCount) == 0 then Some(Earn)
      else Some(Adjust);
    Plan(if pays then holds else [], if pays then [] else holds, delta, entry)
  }

  predicate OfItem(r: Row, item: Id) { r.item == Some(item) }

  /** The item's ledger rows in id order. */
  function ItemRows(ledger: seq<Row>, item: Id): seq<PlanRow> {
    if |ledger| == 0 then []
    else
      var n := |ledger| - 1;
      var front := ItemRows(ledger[..n], item);
      if OfItem(ledger[n], item) then front + [PlanRow(n, ledger[n].kind, ledger[n].status, ledger[n].amount)] else front
  }

  predicate IsHold(r: Row, item: Id) { OfItem(r, item) && r.kind == Earn && r.status == Pending }

  /** The item's pending earnings become available (the decision pays) or rejected. */
  function SettleHolds(ledger: seq<Row>, item: Id, pays: bool): (settled: seq<Row>)
    ensures |settled| == |ledger|
  {
    seq(|ledger|, i requires 0 <= i < |ledger| =>
      if IsHold(ledger[i], item) then ledger[i].(status := if pays then Available else Rejected) else ledger[i])
  }

  function ResolveItemCases(cases: seq<Case>, item: Id): (resolved: seq<Case>)
    ensures |resolved| == |cases|
  {
    seq(|cases|, i requires 0 <= i < |cases| =>
      if cases[i].item == Some(item) && cases[i].open && cases[i].reason == AlreadyPaidOut
      then cases[i].(open := false) else cases[i])
  }

  datatype Review = Review(
    item: Id, approve: bool, target: int, sameParameters: bool, erased: bool,
    stored: Option<Source>, cutover: Option<int>, sessionSettled: bool)

  datatype ReviewOutcome = Replayed | Decided(refused: bool)

  function ReviewEffect(r: Review, user: Id, plan: Plan): Effect
    requires plan.entry.Some?
  {
    Effect(ReviewDecision(r.item), user, plan.delta, Available, plan.entry.value, Some(r.item), None, None, None, SettledByCaller)
  }

  /** The ledger side of a decision: holds settled, then the single correction, which may be refused. */
  function SettleLedger(w: Wallet, r: Review, item: Item): Result<(Wallet, bool), WalletError>
    requires Sound(w.book)
  {
    var plan := PlanReview(r.approve, r.target, ItemRows(w.ledger, r.item));
    var w1 := w.(ledger := SettleHolds(w.ledger, r.item, r.approve && r.target > 0));
    if plan.entry.None? then Ok((w1, false))
    else
      var (w2, outcome) :- ApplyEffect(w1, ReviewEffect(r, item.user, plan), r.erased);
      Ok((w2, outcome == CaseOpened))
  }

  /** Closes the reservation of a watermarked session whose review exposure is gone. */
  function CloseSession(b: Book, session: Id, settled: bool): Result<Book, FundingError>
    requires Sound(b)
  {
    var found := Find(b.reservations, ReservationKeyed(SessionAdmission(session)));
    if !settled || found.None? || !b.reservations[found.value].active then Ok(b)
    else
      assert ReservationSound(b, b.reservations[found.value]);
      var (b', _, _) :- CloseReservation(b, found.value, Some(ReviewClose(session)));
      Ok(b')
  }

  function SettleFunding(b: Book, r: Review, session: Id, refused: bool): Result<Book, FundingError>
    requires Sound(b)
  {
    var (b1, _) :- SettleOrCommit(b, ItemEarn(r.item), SessionAdmission(session), r.stored, r.cutover,
                                  if refused then None else Some(r.target), false);
    SettleOrCommitKeeps(b, ItemEarn(r.item), SessionAdmission(session), r.stored, r.cutover, if refused then None else Some(r.target), false);
    CloseSession(b1, session, r.sessionSettled)
  }

  function DecideReview(w: Wallet, r: Review): Result<(Wallet, ReviewOutcome), WalletError>
    requires Sound(w.book)
  {
    if r.item !in w.items then Err(ItemNotFound)
    else
      var item := w.items[r.item];
      if item.status == OtherItemStatus then Err(ItemNotInReview)
      else if item.status != InReview then
        if r.sameParameters && (r.approve <==> item.status == ReviewAccepted) then Ok((w, Replayed)) else Err(DecidedDifferently)
      else if exists i :: 0 <= i < |w.ledger| && OfItem(w.ledger[i], r.item) && w.ledger[i].user != item.user
      then Err(ItemChanged)
      else
        var w0 := w.(items := w.items[r.item := item.(status := if r.approve then ReviewAccepted else ReviewRejected)]);
        var (w1, refused) :- SettleLedger(w0, r, item);
        LedgerKeepsBook(w0, r, item);
        var w2 := if refused then w1 else w1.(cases := ResolveItemCases(w1.cases, r.item));
        var funded := SettleFunding(w2.book, r, item.session, refused);
        if funded.Err? then Err(Funding(funded.error))
        else Ok((w2.(book := funded.value), Decided(refused)))
  }

  /** The correction of a review never touches the funding book: its caller settles the obligation. */
  lemma LedgerKeepsBook(w: Wallet, r: Review, item: Item)
    requires Sound(w.book) && SettleLedger(w, r, item).Ok?
    ensures SettleLedger(w, r, item).value.0.book == w.book
  {
  }

  // ----- fraud hold -------------------------------------------------------------------------------

  /** An available earning of the item. */
  predicate IsHoldable(r: Row, item: Id, user: Id) { OfItem(r, item) && r.user == user && r.kind == Earn && r.status == Available }

  function ParkedCase(item: Id, user: Id, amount: int): Case {
    Case(FraudHold(item), user, Abs(amount), AlreadyPaidOut, Some(item), true)
  }

  /** Opened once per key. */
  function OpenFraudCase(cases: seq<Case>, item: Id, user: Id, amount: int): seq<Case> {
    if Find(cases, CaseKeyed(FraudHold(item))).Some? then cases
    else cases + [ParkedCase(item, user, amount)]
  }

  /** One earning: held while the balance still covers it, else parked as a case. */
  function HoldRow(w: Wallet, item: Id, user: Id, i: nat): Wallet
    requires i < |w.ledger|
  {
    var row := w.ledger[i];
    if !IsHoldable(row, item, user) then w
    else if AvailableBalance(w.ledger, user) >= row.amount then w.(ledger := w.ledger[i := row.(status := Pending)])
    else w.(cases := OpenFraudCase(w.cases, item, user, row.amount))
  }

  /** The first n rows, in order. */
  function HoldRows(w: Wallet, item: Id, user: Id, n: nat): (held: Wallet)
    requires n <= |w.ledger|
    ensures |held.ledger| == |w.ledger|
  {
    if n == 0 then w else HoldRow(HoldRows(w, item, user, n - 1), item, user, n - 1)
  }

  /** A fraud signal sends an item without a final decision back to review and holds its earnings; `refused`: the machine rejected it. */
  function HoldForFraud(w: Wallet, item: Id, refused: bool): Wallet {
    if item !in w.items || refused || w.items[item].status == ReviewAccepted || w.items[item].status == ReviewRejected then w
    else
      var w1 := w.(items := w.items[item := w.items[item].(status := InReview)], book := MarkPending(w.book, ItemEarn(item)));
      HoldRows(w1, item, w.items[item].user, |w.ledger|)
  }

  // ----- payout requests ------------------------------------------------------------------------

  function ExpectedReserve(status: RequestStatus): Status {
    match status
    case Success => Redeemed
    case Failed => Reversed
    case ReversedRequest => Reversed
    case _ => Pending
  }

  predicate Terminal(status: RequestStatus) { status == Success || status == Failed || status == ReversedRequest }

  predicate IsReserveOf(r: Row, id: Id) {
    r.kind == Redeem && r.reference == RedemptionRef(Some(id)) && r.status != Rejected
  }

  function LiveReserve(id: Id): Row -> bool { (r: Row) => IsReserveOf(r, id) }
  function ReserveCount(id: Id): Row -> int { (r: Row) => if IsReserveOf(r, id) then 1 else 0 }

  /** The single live reserve of a request, of the same owner and amount. */
  function LoadReserve(ledger: seq<Row>, id: Id, request: Request): Result<nat, WalletError> {
    var found := Find(ledger, LiveReserve(id));
    if found.None? then Err(ReserveMissing)
    else if Sum(ledger, ReserveCount(id)) > 1 || ledger[found.value].user != request.user
            || ledger[found.value].amount != -request.amount
    then Err(ReserveMismatch)
    else Ok(found.value)
  }

  datatype RedemptionInput = RedemptionInput(
    user: Id, isUser: bool, amount: int, payoutAccount: Id, idempotencyKey: Id,
    accountOwned: bool, accountDisabled: bool, minimum: int)

  function RequestKeyed(user: Id, key: Id): Request -> bool {
    (r: Request) => r.user == user && r.idempotencyKey == key
  }

  function ReserveFor(input: RedemptionInput, id: Id): Row {
    Row(input.user, Redeem, Pending, -input.amount, ReserveKey(id), None, RedemptionRef(Some(id)))
  }

  function RequestRedemption(w: Wallet, input: RedemptionInput): Result<(Wallet, Id, bool), WalletError> {
    if !input.isUser then Err(RoleRefused)
    else if !Rupiah(input.amount, 1) then Err(AmountOutOfRange)
    else
      var existing := Find(w.requests, RequestKeyed(input.user, input.idempotencyKey));
      if existing.Some? then
        var r := w.requests[existing.value];
        if r.amount == input.amount && r.payoutAccount == input.payoutAccount then Ok((w, existing.value, true))
        else Err(RequestKeyConflict)
      else if !input.accountOwned then Err(PayoutAccountNotFound)
      else if input.accountDisabled then Err(PayoutAccountDisabled)
      else if input.amount < input.minimum then Err(BelowMinimum)
      else if AvailableBalance(w.ledger, input.user) - HeldByOpenDebitCases(w.cases, input.user) < input.amount
      then Err(BalanceInsufficient)
      else
        var id := |w.requests|;
        Ok((w.(requests := w.requests + [Request(input.user, input.amount, Requested, input.idempotencyKey,
                                                  input.payoutAccount, None, None, false, true, false, None)],
               ledger := w.ledger + [ReserveFor(input, id)]),
            id, false))
  }

  // ----- transitions ----------------------------------------------------------------------------

  datatype Action = Approve | Process | Succeed | Fail | Cancel

  predicate MayStart(action: Action, status: RequestStatus) {
    match action
    case Approve => status == Requested
    case Process => status == Approved
    case Succeed => status == Processing
    case Fail => status == Requested || status == Approved || status == Processing
    case Cancel => status == Requested
  }

  function Outcome(action: Action): RequestStatus {
    match action
    case Approve => Approved
    case Process => Processing
    case Succeed => Success
    case Fail => Failed
    case Cancel => ReversedRequest
  }

  datatype TransitionInput = TransitionInput(
    actor: Id, superadmin: bool, id: Id, action: Action, note: Option<Id>, reference: Option<Id>, accountKnown: bool)

  /** Guards of a transition on a request whose reserve was loaded. */
  function TransitionRefusal(current: Request, reserve: Row, input: TransitionInput): Option<WalletError> {
    if !MayStart(input.action, current.status) then
      Some(if Terminal(current.status) then StatusChanged else InvalidTransition)
    else if reserve.status != Pending then Some(ReserveMismatch)
    else if input.action == Succeed && input.reference.None? && !current.proof then Some(ProofRequired)
    else if input.action == Fail && current.flagged && input.note.None? then Some(NoteRequiredToFail)
    else if input.action == Process && !current.destination && !input.accountKnown then Some(DestinationUnavailable)
    else None
  }

  function Moved(current: Request, input: TransitionInput): Request {
    current.(status := Outcome(input.action),
             note := if input.note.Some? then input.note else current.note,
             reference := if input.reference.Some? then input.reference else current.reference,
             destination := current.destination || input.action == Process || input.action == Succeed,
             flagged := current.flagged && !Terminal(Outcome(input.action)))
  }

  function ReplayRefusal(current: Request, reserve: Row, input: TransitionInput): Option<WalletError> {
    if reserve.status != ExpectedReserve(current.status) then Some(ReserveMismatch)
    else if input.reference.Some? && input.reference != current.reference then Some(ReplayReferenceConflict)
    else if input.note.Some? && input.note != current.note then Some(ReplayNoteConflict)
    else None
  }

  /** Writes the request status together with its reserve, and on success the funded sources. */
  function CommitMove(w: Wallet, input: TransitionInput, reserve: nat): Result<Wallet, WalletError>
    requires input.id < |w.requests| && reserve < |w.ledger|
  {
    var current := w.requests[input.id];
    var next := Moved(current, input);
    var w1 := w.(requests := w.requests[input.id := next]);
    if !Terminal(next.status) then Ok(w1)
    else
      var w2 := w1.(ledger := w1.ledger[reserve := w1.ledger[reserve].(status := ExpectedReserve(next.status))]);
      if next.status != Success then Ok(w2)
      else
        var paid := SettlePayout(w2.book, input.id, current.user, current.amount);
        if paid.Err? then Err(Funding(paid.error)) else Ok(w2.(book := paid.value.0))
  }

  function Transition(w: Wallet, input: TransitionInput): Result<(Wallet, bool), WalletError> {
    if !input.superadmin && input.action != Cancel then Err(RoleRefused)
    else if input.id >= |w.requests| then Err(RequestNotFound)
    else
      var current := w.requests[input.id];
      if !input.superadmin && current.user != input.actor then Err(NotOwner)
      else
        var reserve :- LoadReserve(w.ledger, input.id, current);
        if current.status == Outcome(input.action) then
          var refusal := ReplayRefusal(current, w.ledger[reserve], input);
          if refusal.Some? then Err(refusal.value) else Ok((w, true))
        else
          var refusal := TransitionRefusal(current, w.ledger[reserve], input);
          if refusal.Some? then Err(refusal.value)
          else
            var w' :- CommitMove(w, input, reserve);
            Ok((w', false))
  }

  /** The transfer outcome is uncertain: the request stays PROCESSING and its reserve stays held. */
  function FlagForReconciliation(w: Wallet, superadmin: bool, id: Id, note: Id): Result<(Wallet, bool), WalletError> {
    if !superadmin then Err(RoleRefused)
    else if id >= |w.requests| then Err(RequestNotFound)
    else
      var current := w.requests[id];
      var reserve :- LoadReserve(w.ledger, id, current);
      if current.status != Processing then Err(if Terminal(current.status) then StatusChanged else InvalidTransition)
      else if w.ledger[reserve].status != Pending then Err(ReserveMismatch)
      else if current.flagged then
        if current.flagNote == Some(note) then Ok((w, true)) else Err(FlagNoteConflict)
      else
        Ok((w.(requests := w.requests[id := current.(flagged := true, flagNote := Some(note), destination := true)]), false))
  }
}
