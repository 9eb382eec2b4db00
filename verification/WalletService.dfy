/**
  The wallet transactions as the service runs them: table fields changed row by row, each method
  proved to have exactly the effect of its function in WalletLedger, plus the balance and hold loops.
 */
module WalletService {
  import opened Basics
  import opened Sums
  import opened FundingBook
  import opened PayoutAttribution
  import opened FundingRuns
  import opened WalletLedger

  // ----- balances -------------------------------------------------------------------------------

  datatype Group = Group(kind: EntryType, status: Status, amount: int)
  datatype Balance = Balance(available: int, pending: int, redeemed: int, reserved: int, totalEarned: int)

  /** One group per (type, status), carrying the summed amount of the user's rows. */
  function GroupAmount(u: Id, kind: EntryType, status: Status): Row -> int {
    (r: Row) => if r.user == u && r.kind == kind && r.status == status then r.amount else 0
  }

  function AvailableIn(g: Group): int { Spendable(g.kind, g.status, g.amount) }
  function PendingIn(g: Group): int { if g.kind != Redeem && g.status == Pending then g.amount else 0 }
  function RedeemedIn(g: Group): int { if g.kind == Redeem && g.status == Redeemed then -g.amount else 0 }
  function ReservedIn(g: Group): int { if g.kind == Redeem && g.status == Pending then -g.amount else 0 }
  function EarnedIn(g: Group): int {
    if g.kind == Earn && (g.status == Available || g.status == Pending) then g.amount else 0
  }

  method ComputeBalance(groups: seq<Group>) returns (b: Balance)
    ensures b == Balance(Sum(groups, AvailableIn), Sum(groups, PendingIn), Sum(groups, RedeemedIn),
                         Sum(groups, ReservedIn), Sum(groups, EarnedIn))
  {
    var available, pending, redeemed, reserved, totalEarned := 0, 0, 0, 0, 0;
    var i := 0;
    while i < |groups|
      invariant i <= |groups|
      invariant available == Sum(groups[..i], AvailableIn) && pending == Sum(groups[..i], PendingIn)
      invariant redeemed == Sum(groups[..i], RedeemedIn) && reserved == Sum(groups[..i], ReservedIn)
      invariant totalEarned == Sum(groups[..i], EarnedIn)
    {
      var row := groups[i];
      var sum := row.amount;
      assert groups[..i + 1][..i] == groups[..i];
      if row.kind == Earn {
        if row.status == Available {
          available, totalEarned := available + sum, totalEarned + sum;
        } else if row.status == Pending {
          pending, totalEarned := pending + sum, totalEarned + sum;
        }
      } else if row.kind == Redeem {
        if row.status == Pending {
          available, reserved := available + sum, reserved - sum;
        } else if row.status == Redeemed {
          available, redeemed := available + sum, redeemed - sum;
        }
      } else if row.status == Available {
        available := available + sum;
      } else if row.status == Pending {
        pending := pending + sum;
      }
      i := i + 1;
    }
    assert groups[..i] == groups;
    b := Balance(available, pending, redeemed, reserved, totalEarned);
  }

  /** Groups cover the user's rows: each row lies in exactly one group and every group is its rows' sum. */
  ghost predicate Groups(groups: seq<Group>, ledger: seq<Row>, u: Id) {
    && (forall i :: 0 <= i < |groups| ==> groups[i].amount == Sum(ledger, GroupAmount(u, groups[i].kind, groups[i].status)))
    && (forall i, j :: 0 <= i < j < |groups| ==> !(groups[i].kind == groups[j].kind && groups[i].status == groups[j].status))
    && (forall k :: 0 <= k < |ledger| && ledger[k].user == u ==>
          exists i :: 0 <= i < |groups| && groups[i].kind == ledger[k].kind && groups[i].status == ledger[k].status)
  }

  /** The groups' amounts restricted to the first n ledger rows. */
  ghost function Regrouped(groups: seq<Group>, ledger: seq<Row>, u: Id): seq<Group> {
    seq(|groups|, i requires 0 <= i < |groups| =>
      groups[i].(amount := Sum(ledger, GroupAmount(u, groups[i].kind, groups[i].status))))
  }

  /** Grouping first and balancing the groups gives the row-wise balance. */
  lemma {:induction false} GroupedBalance(groups: seq<Group>, ledger: seq<Row>, u: Id)
    requires forall i, j :: 0 <= i < j < |groups| ==> !(groups[i].kind == groups[j].kind && groups[i].status == groups[j].status)
    requires forall k :: 0 <= k < |ledger| && ledger[k].user == u ==>
               exists i :: 0 <= i < |groups| && groups[i].kind == ledger[k].kind && groups[i].status == ledger[k].status
    ensures Sum(Regrouped(groups, ledger, u), AvailableIn) == AvailableBalance(ledger, u)
  {
    if |ledger| == 0 {
      SumZero(Regrouped(groups, ledger, u), AvailableIn);
    } else {
      var n := |ledger| - 1;
      var last := ledger[n];
      var front := Regrouped(groups, ledger[..n], u);
      GroupedBalance(groups, ledger[..n], u);
      if last.user != u {
        assert Regrouped(groups, ledger, u) == front;
      } else {
        var i :| 0 <= i < |groups| && groups[i].kind == last.kind && groups[i].status == last.status;
        assert Regrouped(groups, ledger, u) == front[i := front[i].(amount := front[i].amount + last.amount)];
        SumUpdate(front, i, front[i].(amount := front[i].amount + last.amount), AvailableIn);
      }
    }
  }

  /** The wallet's available balance, computed as the service does: group, then reduce. */
  method WalletAvailable(groups: seq<Group>, ghost ledger: seq<Row>, ghost u: Id) returns (available: int)
    requires Groups(groups, ledger, u)
    ensures available == AvailableBalance(ledger, u)
  {
    var balance := ComputeBalance(groups);
    GroupedBalance(groups, ledger, u);
    assert Regrouped(groups, ledger, u) == groups;
    available := balance.available;
  }

  // ----- money held by open cases ---------------------------------------------------------------

  /** The per-item map in insertion order, and a lookup in it. */
  function Entry(key: HoldKey): ((HoldKey, int)) -> bool { (p: (HoldKey, int)) => p.0 == key }
  function Second(p: (HoldKey, int)): int { p.1 }
  function Lookup(perItem: seq<(HoldKey, int)>, key: HoldKey): int {
    var at := Find(perItem, Entry(key));
    if at.Some? then perItem[at.value].1 else 0
  }

  /** The map holds each key once, at the largest open case seen so far. */
  ghost predicate Tallied(perItem: seq<(HoldKey, int)>, cases: seq<Case>, user: Id, n: nat)
    requires n <= |cases|
  {
    && (forall i, j :: 0 <= i < j < |perItem| ==> perItem[i].0 != perItem[j].0)
    && (forall key :: Lookup(perItem, key) == LargestHold(cases, user, key, n))
  }

  lemma LookupPut(perItem: seq<(HoldKey, int)>, at: nat, key: HoldKey, amount: int, other: HoldKey)
    requires forall i, j :: 0 <= i < j < |perItem| ==> perItem[i].0 != perItem[j].0
    requires at <= |perItem| && (at < |perItem| ==> perItem[at].0 == key)
    requires at == |perItem| ==> forall i :: 0 <= i < |perItem| ==> perItem[i].0 != key
    ensures Lookup(Put(perItem, at, (key, amount)), other) == if other == key then amount else Lookup(perItem, other)
  {
    var next := Put(perItem, at, (key, amount));
    var found := Find(perItem, Entry(other));
    if other == key {
      FindOnly(next, Entry(key), at);
    } else if found.Some? {
      FindOnly(next, Entry(other), found.value);
    }
  }

  /** Where the map holds `key`, or would insert it. */
  function Slot(perItem: seq<(HoldKey, int)>, key: HoldKey): (at: nat)
    ensures at <= |perItem| && (at < |perItem| ==> perItem[at].0 == key)
    ensures at == |perItem| ==> forall i :: 0 <= i < |perItem| ==> perItem[i].0 != key
  {
    var found := Find(perItem, Entry(key));
    assert found.None? ==> forall i :: 0 <= i < |perItem| ==> !Entry(key)(perItem[i]);
    if found.Some? then found.value else |perItem|
  }

  /** One more case that holds for the user: the map and its total move together. */
  lemma TallyCase(perItem: seq<(HoldKey, int)>, cases: seq<Case>, user: Id, i: nat, amount: int)
    requires i < |cases| && HoldsFor(cases[i], user) && Tallied(perItem, cases, user, i)
    requires Sum(perItem, Second) == HeldByCases(cases, user, i) && cases[i].amount >= 0
    requires amount == Max(Lookup(perItem, HoldKeyOf(cases, i)), cases[i].amount)
    ensures var next := Put(perItem, Slot(perItem, HoldKeyOf(cases, i)), (HoldKeyOf(cases, i), amount));
      Tallied(next, cases, user, i + 1) && Sum(next, Second) == HeldByCases(cases, user, i + 1)
  {
    var key := HoldKeyOf(cases, i);
    var at := Slot(perItem, key);
    assert Lookup(perItem, key) == LargestHold(cases, user, key, i);
    SumPut(perItem, at, (key, amount), Second);
    forall other ensures Lookup(Put(perItem, at, (key, amount)), other) == LargestHold(cases, user, other, i + 1) {
      LookupPut(perItem, at, key, amount, other);
      assert Lookup(perItem, other) == LargestHold(cases, user, other, i);
    }
    SlotValue(perItem, key);
  }

  lemma SlotValue(perItem: seq<(HoldKey, int)>, key: HoldKey)
    ensures Was(perItem, Slot(perItem, key), Second) == Lookup(perItem, key)
  {
  }

  method HeldByDebitCases(cases: seq<Case>, user: Id) returns (held: int)
    requires forall i :: 0 <= i < |cases| ==> cases[i].amount >= 0
    ensures held == HeldByOpenDebitCases(cases, user)
  {
    var perItem: seq<(HoldKey, int)> := [];
    var i := 0;
    while i < |cases|
      invariant i <= |cases|
      invariant Tallied(perItem, cases, user, i)
      invariant Sum(perItem, Second) == HeldByCases(cases, user, i)
    {
      if HoldsFor(cases[i], user) {
        var key := HoldKeyOf(cases, i);
        var amount := Max(Lookup(perItem, key), cases[i].amount);
        TallyCase(perItem, cases, user, i, amount);
        perItem := Put(perItem, Slot(perItem, key), (key, amount));
      } else {
        assert forall key :: LargestHold(cases, user, key, i + 1) == LargestHold(cases, user, key, i);
      }
      i := i + 1;
    }
    held := Sum(perItem, Second);
  }

  /** A case holds at most its own amount, and never less than nothing. */
  lemma {:induction false} HoldStep(cases: seq<Case>, user: Id, n: nat)
    requires n < |cases| && forall i :: 0 <= i < |cases| ==> cases[i].amount >= 0
    ensures HeldByCases(cases, user, n) <= HeldByCases(cases, user, n + 1) <= HeldByCases(cases, user, n) + cases[n].amount
  {
    LargestHoldNonNegative(cases, user, HoldKeyOf(cases, n), n);
  }

  lemma {:induction false} LargestHoldNonNegative(cases: seq<Case>, user: Id, key: HoldKey, n: nat)
    requires n <= |cases| && forall i :: 0 <= i < |cases| ==> cases[i].amount >= 0
    ensures LargestHold(cases, user, key, n) >= 0
  {
    if n > 0 {
      LargestHoldNonNegative(cases, user, key, n - 1);
    }
  }

  // ----- the service ----------------------------------------------------------------------------

  class WalletTables {
    var ledger: seq<Row>
    var requests: seq<Request>
    var cases: seq<Case>
    var items: map<Id, Item>
    var book: Book

    constructor (book: Book, items: map<Id, Item>)
      ensures State() == Wallet([], [], [], items, book)
    {
      ledger, requests, cases := [], [], [];
      this.items, this.book := items, book;
    }

    function State(): Wallet
      reads this
    {
      Wallet(ledger, requests, cases, items, book)
    }

    ghost predicate Did<T>(spec: Result<(Wallet, T), WalletError>, r: Result<T, WalletError>, before: Wallet)
      reads this
    {
      match spec
      case Ok((w, value)) => r == Ok(value) && State() == w
      case Err(e) => r == Err(e) && State() == before
    }

    /** Writes one keyed money effect, or parks it as a case; never forces the ledger. */
    method ApplyRewardEffect(e: Effect, erased: bool) returns (r: Result<EffectOutcome, WalletError>)
      requires Sound(book)
      modifies this
      ensures Did(ApplyEffect(old(State()), e, erased), r, old(State()))
    {
      if !EffectValid(e) { return Err(EffectInvalid); }
      if e.amount == 0 {
        var funded := CheckRewardFunding(book, e);
        if funded.Err? { return Err(Funding(funded.error)); }
        book := funded.value;
        return Ok(Zero);
      }
      var existing := Find(ledger, RowKeyed(EffectKey(e.key)));
      if existing.Some? {
        var row := ledger[existing.value];
        if row.user == e.user && row.kind == e.kind && row.amount == e.amount { return Ok(Existing); }
        return Err(RewardKeyConflict);
      }
      var refused := Find(cases, CaseKeyed(e.key));
      if refused.Some? { return Ok(CaseOpened); }
      if erased {
        cases := cases + [Case(e.key, e.user, Abs(e.amount), RecipientErased, e.item, true)];
        return Ok(CaseOpened);
      }
      if e.amount < 0 && e.status == Available {
        var available := AvailableBalance(ledger, e.user);
        if available + e.amount < 0 {
          cases := cases + [Case(e.key, e.user, Abs(e.amount), AlreadyPaidOut, e.item, true)];
          return Ok(CaseOpened);
        }
      }
      var funded := CheckRewardFunding(book, e);
      if funded.Err? { return Err(Funding(funded.error)); }
      book := funded.value;
      ledger := ledger + [EffectRow(e)];
      return Ok(Credited);
    }

    /** Reserves `amount` of the actor's spendable balance for a payout request. */
    method Request(input: RedemptionInput) returns (r: Result<(Id, bool), WalletError>)
      requires forall i :: 0 <= i < |cases| ==> cases[i].amount >= 0
      modifies this
      ensures match RequestRedemption(old(State()), input)
              case Ok((w, id, existing)) => r == Ok((id, existing)) && State() == w
              case Err(e) => r == Err(e) && State() == old(State())
    {
      if !input.isUser { return Err(RoleRefused); }
      if !Rupiah(input.amount, 1) { return Err(AmountOutOfRange); }
      var existing := Find(requests, RequestKeyed(input.user, input.idempotencyKey));
      if existing.Some? {
        var same := requests[existing.value].amount == input.amount && requests[existing.value].payoutAccount == input.payoutAccount;
        if !same { return Err(RequestKeyConflict); }
        return Ok((existing.value, true));
      }
      if !input.accountOwned { return Err(PayoutAccountNotFound); }
      if input.accountDisabled { return Err(PayoutAccountDisabled); }
      if input.amount < input.minimum { return Err(BelowMinimum); }
      var held := HeldByDebitCases(cases, input.user);
      if AvailableBalance(ledger, input.user) - held < input.amount { return Err(BalanceInsufficient); }
      var id := |requests|;
      requests := requests + [WalletLedger.Request(input.user, input.amount, Requested, input.idempotencyKey,
                                                   input.payoutAccount, None, None, false, true, false, None)];
      ledger := ledger + [ReserveFor(input, id)];
      return Ok((id, false));
    }

    /** Settles a reserve once: a repeated outcome changes nothing, the other outcome is a mismatch. */
    method SettleReserve(reserve: nat, outcome: Status) returns (r: Result<bool, WalletError>)
      requires reserve < |ledger| && outcome != Pending
      modifies this`ledger
      ensures |ledger| == |old(ledger)|
      ensures r.Ok? ==> ledger[reserve].status == outcome && (r.value <==> old(ledger)[reserve].status == Pending)
      ensures r.Err? <==> old(ledger)[reserve].status != Pending && old(ledger)[reserve].status != outcome
      ensures ledger[reserve].(status := old(ledger)[reserve].status) == old(ledger)[reserve]
      ensures forall i :: 0 <= i < |ledger| && i != reserve ==> ledger[i] == old(ledger)[i]
      ensures r != Ok(true) ==> ledger == old(ledger)
    {
      if ledger[reserve].status == outcome { return Ok(false); }
      if ledger[reserve].status != Pending { return Err(ReserveMismatch); }
      ledger := ledger[reserve := ledger[reserve].(status := outcome)];
      return Ok(true);
    }

    /** Moves a payout request and its reserve together; a success also debits the funded sources. */
    method TransitionRedemption(input: TransitionInput) returns (r: Result<bool, WalletError>)
      modifies this
      ensures Did(Transition(old(State()), input), r, old(State()))
    {
      if !input.superadmin && input.action != Cancel { return Err(RoleRefused); }
      if input.id >= |requests| { return Err(RequestNotFound); }
      var current := requests[input.id];
      if !input.superadmin && current.user != input.actor { return Err(NotOwner); }
      var loaded := LoadReserve(ledger, input.id, current);
      if loaded.Err? { return Err(loaded.error); }
      var reserve := loaded.value;
      if current.status == Outcome(input.action) {
        var refusal := ReplayRefusal(current, ledger[reserve], input);
        if refusal.Some? { return Err(refusal.value); }
        return Ok(true);
      }
      var refusal := TransitionRefusal(current, ledger[reserve], input);
      if refusal.Some? { return Err(refusal.value); }
      var thrown := WriteMove(input, reserve);
      if thrown.Some? { return Err(thrown.value); }
      return Ok(false);
    }

    method WriteMove(input: TransitionInput, reserve: nat) returns (thrown: Option<WalletError>)
      requires input.id < |requests| && reserve < |ledger| && ledger[reserve].status == Pending
      modifies this
      ensures match CommitMove(old(State()), input, reserve)
              case Ok(w) => thrown.None? && State() == w
              case Err(e) => thrown == Some(e) && State() == old(State())
    {
      var current := requests[input.id];
      var next := Moved(current, input);
      var saved := State();
      requests := requests[input.id := next];
      if Terminal(next.status) {
        var settled := SettleReserve(reserve, ExpectedReserve(next.status));
        assert ledger == saved.ledger[reserve := saved.ledger[reserve].(status := ExpectedReserve(next.status))];
        if next.status == Success {
          var paid := SettlePayout(book, input.id, current.user, current.amount);
          if paid.Err? {
            requests, ledger := saved.requests, saved.ledger;
            return Some(Funding(paid.error));
          }
          book := paid.value.0;
        }
      }
      return None;
    }

    /** The two hold loops of a decision: each named pending row changes once. */
    method ChangeHolds(ids: seq<nat>, status: Status, item: Id)
      requires forall k :: 0 <= k < |ids| ==> ids[k] < |ledger| && IsHold(ledger[ids[k]], item)
      requires forall k, m :: 0 <= k < m < |ids| ==> ids[k] < ids[m]
      modifies this`ledger
      ensures |ledger| == |old(ledger)|
      ensures forall i :: 0 <= i < |ledger| ==>
                ledger[i] == if i in ids then old(ledger)[i].(status := status) else old(ledger)[i]
    {
      var k := 0;
      while k < |ids|
        invariant k <= |ids| && |ledger| == |old(ledger)|
        invariant forall i :: 0 <= i < |ledger| ==>
                    ledger[i] == if i in ids[..k] then old(ledger)[i].(status := status) else old(ledger)[i]
      {
        assert ids[k] !in ids[..k];
        ledger := ledger[ids[k] := ledger[ids[k]].(status := status)];
        assert ids[..k + 1] == ids[..k] + [ids[k]];
        k := k + 1;
      }
      assert ids[..k] == ids;
    }

    /** Holds first, then the single correction. */
    method SettleItemLedger(review: Review, item: Item) returns (r: Result<bool, WalletError>)
      requires Sound(book)
      modifies this
      ensures match SettleLedger(old(State()), review, item)
              case Ok((w, refused)) => r == Ok(refused) && State() == w
              case Err(e) => r == Err(e)
    {
      var rows := ItemRows(ledger, review.item);
      var plan := PlanReview(review.approve, review.target, rows);
      HoldIdsAreHolds(ledger, review.item);
      ghost var was := ledger;
      ChangeHolds(plan.releaseIds, Available, review.item);
      ChangeHolds(plan.rejectIds, Rejected, review.item);
      assert ledger == SettleHolds(was, review.item, review.approve && review.target > 0);
      if plan.entry.None? { return Ok(false); }
      var effect := ApplyRewardEffect(ReviewEffect(review, item.user, plan), review.erased);
      if effect.Err? { return Err(effect.error); }
      return Ok(effect.value == CaseOpened);
    }

    /** Closes the item's open debit cases once its money is settled. */
    method ResolveItemDebitCases(item: Id)
      modifies this`cases
      ensures cases == ResolveItemCases(old(cases), item)
    {
      var i := 0;
      while i < |cases|
        invariant i <= |cases| == |old(cases)|
        invariant cases == ResolveItemCases(old(cases), item)[..i] + old(cases)[i..]
      {
        if cases[i].item == Some(item) && cases[i].open && cases[i].reason == AlreadyPaidOut {
          cases := cases[i := cases[i].(open := false)];
        }
        i := i + 1;
      }
    }

    /** The fraud hold loop: each available earning is held while the balance covers it, else parked. */
    method HoldItemForFraud(item: Id, refused: bool)
      modifies this
      ensures State() == HoldForFraud(old(State()), item, refused)
    {
      if item !in items || refused || items[item].status == ReviewAccepted || items[item].status == ReviewRejected { return; }
      var user := items[item].user;
      items := items[item := items[item].(status := InReview)];
      book := MarkPending(book, ItemEarn(item));
      ghost var was := State();
      var i := 0;
      while i < |ledger|
        invariant 0 <= i <= |ledger| == |was.ledger| && State() == HoldRows(was, item, user, i)
      {
        var earn := ledger[i];
        if IsHoldable(earn, item, user) {
          if AvailableBalance(ledger, user) >= earn.amount {
            ledger := ledger[i := earn.(status := Pending)];
          } else {
            cases := OpenFraudCase(cases, item, user, earn.amount);
          }
        }
        i := i + 1;
      }
    }

    method Restore(saved: Wallet)
      modifies this
      ensures State() == saved
    {
      ledger, requests, cases, items, book := saved.ledger, saved.requests, saved.cases, saved.items, saved.book;
    }

    /** One review decision: the item, its holds and correction, its cases, then its funding. */
    method DecideDepositReview(review: Review) returns (r: Result<ReviewOutcome, WalletError>)
      requires Sound(book)
      modifies this
      ensures Did(DecideReview(old(State()), review), r, old(State()))
    {
      var saved := State();
      if review.item !in items { return Err(ItemNotFound); }
      var item := items[review.item];
      if item.status == OtherItemStatus { return Err(ItemNotInReview); }
      if item.status != InReview {
        if review.sameParameters && (review.approve <==> item.status == ReviewAccepted) { return Ok(Replayed); }
        return Err(DecidedDifferently);
      }
      if exists i :: 0 <= i < |ledger| && OfItem(ledger[i], review.item) && ledger[i].user != item.user {
        return Err(ItemChanged);
      }
      items := items[review.item := item.(status := if review.approve then ReviewAccepted else ReviewRejected)];
      ghost var marked := State();
      var settled := SettleItemLedger(review, item);
      if settled.Err? {
        Restore(saved);
        return Err(settled.error);
      }
      LedgerKeepsBook(marked, review, item);
      if !settled.value {
        ResolveItemDebitCases(review.item);
      }
      var funded := SettleFunding(book, review, item.session, settled.value);
      if funded.Err? {
        Restore(saved);
        return Err(Funding(funded.error));
      }
      book := funded.value;
      return Ok(Decided(settled.value));
    }
  }

  /** One more ledger row adds its own id to the planned holds, if it is one. */
  lemma HoldIdsStep(ledger: seq<Row>, item: Id)
    requires |ledger| > 0
    ensures var n := |ledger| - 1;
            HoldIds(ItemRows(ledger, item))
            == HoldIds(ItemRows(ledger[..n], item)) + if IsHold(ledger[n], item) then [n] else []
  {
    var n := |ledger| - 1;
    var rows := ItemRows(ledger, item);
    if OfItem(ledger[n], item) {
      assert rows[..|rows| - 1] == ItemRows(ledger[..n], item);
    }
  }

  /** The planned ids are exactly the item's pending earnings, in id order. */
  lemma {:induction false} HoldIdsAreHolds(ledger: seq<Row>, item: Id)
    ensures AreHolds(ledger, item, HoldIds(ItemRows(ledger, item)))
  {
    if |ledger| > 0 {
      var n := |ledger| - 1;
      HoldIdsAreHolds(ledger[..n], item);
      HoldIdsStep(ledger, item);
      OneMoreHold(ledger, item, HoldIds(ItemRows(ledger[..n], item)));
    }
  }

  /** `ids` lists exactly the item's pending earnings, ascending. */
  ghost predicate AreHolds(ledger: seq<Row>, item: Id, ids: seq<nat>) {
    && (forall i :: 0 <= i < |ledger| ==> (i in ids <==> IsHold(ledger[i], item)))
    && (forall k :: 0 <= k < |ids| ==> ids[k] < |ledger| && IsHold(ledger[ids[k]], item))
    && (forall k, m :: 0 <= k < m < |ids| ==> ids[k] < ids[m])
  }

  lemma OneMoreHold(ledger: seq<Row>, item: Id, ids: seq<nat>)
    requires |ledger| > 0 && AreHolds(ledger[..|ledger| - 1], item, ids)
    ensures AreHolds(ledger, item, ids + if IsHold(ledger[|ledger| - 1], item) then [|ledger| - 1] else [])
  {
  }
}
