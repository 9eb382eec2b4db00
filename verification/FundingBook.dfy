/**
  Reward funding book (lib/reward-funding.ts): the tables and one function per writer.

  A table is a sequence of rows in creation order; a row id is its index. One organization has one
  funding account, keyed by the organization id. Every function is the whole effect of one writer on
  the tables it was given; an error carries no book, because a thrown error rolls the writes back.
 */
module FundingBook {
  import opened Basics
  import opened Sums

  const MAX_RUPIAH := 2_147_483_647

  /** Business keys: one constructor per key builder, so that different sources never share a key. */
  datatype SourceKey = SessionAdmission(session: Id) | TripIssuance(trip: Id)
  datatype EarnKey = ItemEarn(item: Id) | TripReturn(trip: Id) | ReviewDecision(item: Id) | FraudHold(item: Id) | OtherEffect(effect: Id)
  datatype ReleaseKey = CloseWatermark(session: Id) | ReviewClose(session: Id) | OperatorRelease(request: Id)
  datatype EntryKey =
    | Cash(reference: Id)
    | Correction(reference: Id)
    | PayoutFrom(redemption: Id, account: Id)

  datatype EntryKind = ConfirmedTopup | CashCorrection | Payout

  datatype Account = Account(confirmed: int, held: int)
  datatype Campaign = Campaign(organization: Id, budget: Option<int>, held: int, spent: int)
  datatype Reservation = Reservation(
    key: SourceKey, account: Id, campaign: Option<Id>, user: Id,
    ceiling: int, remaining: int, active: bool, late: bool,
    shortfall: int, campaignShortfall: int)
  datatype Commit = Commit(
    key: EarnKey, reservation: nat, account: Id, campaign: Option<Id>, user: Id,
    held: int, uncovered: int, paid: int, pending: bool)
  datatype ReleaseRow = ReleaseRow(key: ReleaseKey, reservation: nat, amount: int)
  datatype Entry = Entry(account: Id, key: EntryKey, kind: EntryKind, amount: int, redemption: Option<Id>)

  datatype Book = Book(
    organizations: set<Id>,
    accounts: map<Id, Account>,
    campaigns: map<Id, Campaign>,
    reservations: seq<Reservation>,
    commits: seq<Commit>,
    releases: seq<ReleaseRow>,
    entries: seq<Entry>)

  datatype FundingError =
    | AmountInvalid | OrganizationNotFound | CampaignNotFound | CampaignForeign | KeyConflict
    | FundingInsufficient | BudgetNotConfigured | BudgetInsufficient | ReservationNotFound
    | KeyRequired | ReferenceRequired | NoteRequired | ReferenceConflict

  // ----- lookups by unique key ------------------------------------------------------------------

  function ReservationKeyed(key: SourceKey): Reservation -> bool { (r: Reservation) => r.key == key }
  function CommitKeyed(key: EarnKey): Commit -> bool { (c: Commit) => c.key == key }
  function ReleaseKeyed(key: ReleaseKey): ReleaseRow -> bool { (r: ReleaseRow) => r.key == key }
  function EntryKeyed(key: EntryKey): Entry -> bool { (e: Entry) => e.key == key }
  function PayoutOfRedemption(redemption: Id): Entry -> bool {
    (e: Entry) => e.kind == Payout && e.redemption == Some(redemption)
  }

  // ----- sums the counters summarise ------------------------------------------------------------

  /** Remaining ceiling a reservation holds on account `a`. */
  function RemainingOn(a: Id): Reservation -> int {
    (r: Reservation) => if r.account == a then r.remaining else 0
  }
  /** Unpaid obligation a commit holds on account `a`. */
  function OpenOn(a: Id): Commit -> int {
    (c: Commit) => if c.account == a then c.held - c.paid else 0
  }
  function CashOn(a: Id): Entry -> int { (e: Entry) => if e.account == a then e.amount else 0 }
  function CampaignRemaining(k: Id): Reservation -> int {
    (r: Reservation) => if r.campaign == Some(k) then r.remaining else 0
  }
  function CampaignHeld(k: Id): Commit -> int {
    (c: Commit) => if c.campaign == Some(k) then c.held else 0
  }
  function HeldUnder(reservation: nat): Commit -> int {
    (c: Commit) => if c.reservation == reservation then c.held else 0
  }

  // ----- guards and counters --------------------------------------------------------------------

  predicate Rupiah(value: int, min: int) { min <= value <= MAX_RUPIAH }

  predicate InCounterRange(value: int) { -MAX_RUPIAH <= value <= MAX_RUPIAH }

  /** A configured money cap is a positive amount; anything else is "not configured". */
  function ConfiguredCap(value: Option<int>): Option<int> {
    if value.Some? && value.value > 0 then value else None
  }

  /** Locking an organization's account creates it on first use. */
  function OpenAccount(b: Book, organization: Id): Book {
    if organization in b.accounts then b
    else b.(accounts := b.accounts[organization := Account(0, 0)])
  }

  function BumpAccount(b: Book, a: Id, confirmed: int, held: int): Result<Book, FundingError>
    requires a in b.accounts
  {
    var current := b.accounts[a];
    var next := Account(current.confirmed + confirmed, current.held + held);
    if InCounterRange(next.confirmed) && InCounterRange(next.held)
    then Ok(b.(accounts := b.accounts[a := next]))
    else Err(AmountInvalid)
  }

  function BumpCampaign(b: Book, campaign: Option<Id>, held: int, spent: int): Book
    requires campaign.Some? ==> campaign.value in b.campaigns
  {
    if campaign.None? then b
    else
      var current := b.campaigns[campaign.value];
      b.(campaigns := b.campaigns[campaign.value :=
        current.(held := current.held + held, spent := current.spent + spent)])
  }

  datatype CapacityCheck = CapacityCheck(account: int, campaign: int)

  /** What the account (confirmed - held) and the budget (budget - held - spent) lack for `ceiling`. */
  function CheckCapacity(account: Account, campaign: Option<Campaign>, ceiling: int): CapacityCheck {
    var capacity := account.confirmed - account.held;
    var budget :=
      if campaign.Some? && campaign.value.budget.Some?
      then Some(campaign.value.budget.value - campaign.value.held - campaign.value.spent)
      else None;
    CapacityCheck(
      if capacity < ceiling then ceiling - capacity else 0,
      if budget.Some? && budget.value < ceiling then ceiling - budget.value else 0)
  }

  /** Every account and campaign a row names exists (foreign keys). */
  predicate Linked(b: Book, account: Id, campaign: Option<Id>) {
    account in b.accounts && (campaign.Some? ==> campaign.value in b.campaigns)
  }

  // ----- reserve --------------------------------------------------------------------------------

  datatype ReserveInput = ReserveInput(
    key: SourceKey, organization: Id, campaign: Option<Id>, user: Id, ceiling: int)

  function CampaignRow(b: Book, campaign: Option<Id>): Option<Campaign>
    requires campaign.Some? ==> campaign.value in b.campaigns
  {
    if campaign.None? then None else Some(b.campaigns[campaign.value])
  }

  /** Why an enforced admission of `ceiling` is refused. */
  function Refusal(campaign: Option<Campaign>, ceiling: int, lacking: CapacityCheck): Option<FundingError> {
    if ceiling <= 0 then Some(FundingInsufficient)
    else if campaign.Some? && ConfiguredCap(campaign.value.budget).None? then Some(BudgetNotConfigured)
    else if lacking.account > 0 then Some(FundingInsufficient)
    else if lacking.campaign > 0 then Some(BudgetInsufficient)
    else None
  }

  /** What reserving `ceiling` under an existing reservation must add to what it already holds. */
  function ReserveDelta(b: Book, existing: Option<nat>, ceiling: int): int
    requires existing.Some? ==> existing.value < |b.reservations|
  {
    if existing.None? then ceiling
    else if b.reservations[existing.value].active then ceiling - b.reservations[existing.value].ceiling
    else Max(0, ceiling - Sum(b.commits, HeldUnder(existing.value)))
  }

  function ReserveRow(b: Book, existing: Option<nat>, input: ReserveInput, delta: int, lacking: CapacityCheck): Reservation
    requires existing.Some? ==> existing.value < |b.reservations|
  {
    if existing.None? then
      Reservation(input.key, input.organization, input.campaign, input.user,
                  input.ceiling, input.ceiling, true, false, lacking.account, lacking.campaign)
    else
      var r := b.reservations[existing.value];
      r.(ceiling := input.ceiling,
         remaining := if r.active then r.remaining + delta else delta,
         active := true,
         shortfall := r.shortfall + lacking.account,
         campaignShortfall := r.campaignShortfall + lacking.campaign)
  }

  function Reserve(b: Book, input: ReserveInput, enforced: bool): Result<(Book, nat), FundingError> {
    if !Rupiah(input.ceiling, 0) then Err(AmountInvalid)
    else if input.organization !in b.organizations then Err(OrganizationNotFound)
    else if input.campaign.Some? && input.campaign.value !in b.campaigns then Err(CampaignNotFound)
    else if input.campaign.Some? && b.campaigns[input.campaign.value].organization != input.organization
    then Err(CampaignForeign)
    else
      var b1 := OpenAccount(b, input.organization);
      var existing := Find(b1.reservations, ReservationKeyed(input.key));
      if existing.Some? && (b1.reservations[existing.value].account != input.organization
                            || b1.reservations[existing.value].user != input.user)
      then Err(KeyConflict)
      else if existing.Some? && b1.reservations[existing.value].active
              && b1.reservations[existing.value].ceiling >= input.ceiling
      then Ok((b1, existing.value))
      else Admit(b1, existing, input, enforced)
  }

  /** Reserves what `input.ceiling` adds: capacity checks, then the counters, then the row. */
  function Admit(b: Book, existing: Option<nat>, input: ReserveInput, enforced: bool): Result<(Book, nat), FundingError>
    requires Linked(b, input.organization, input.campaign)
    requires existing.Some? ==> existing.value < |b.reservations|
  {
    var campaign := CampaignRow(b, input.campaign);
    var delta := ReserveDelta(b, existing, input.ceiling);
    var lacking := CheckCapacity(b.accounts[input.organization], campaign, delta);
    var refusal := Refusal(campaign, input.ceiling, lacking);
    if enforced && refusal.Some? then Err(refusal.value)
    else
      var b1 :- if delta > 0 then BumpAccount(b, input.organization, 0, delta) else Ok(b);
      var b2 := if delta > 0 then BumpCampaign(b1, input.campaign, delta, 0) else b1;
      var row := ReserveRow(b, existing, input, delta, lacking);
      if existing.Some?
      then Ok((b2.(reservations := b2.reservations[existing.value := row]), existing.value))
      else Ok((b2.(reservations := b2.reservations + [row]), |b2.reservations|))
  }

  // ----- the reservation an earning commits against ---------------------------------------------

  /** The session or trip behind a source key, as stored: creation time, owner, campaign, organization. */
  datatype Source = Source(createdAt: int, user: Id, campaign: Option<Id>, organization: Id)
  datatype SourceReservation = Reserved(reservation: nat, late: bool) | LegacySource | NoSource

  function ResolveSource(b: Book, key: SourceKey, source: Option<Source>, cutover: Option<int>)
    : Result<(Book, SourceReservation), FundingError>
  {
    var existing := Find(b.reservations, ReservationKeyed(key));
    if existing.Some? then Ok((b, Reserved(existing.value, b.reservations[existing.value].late)))
    else if source.None? then Ok((b, NoSource))
    else if cutover.Some? && source.value.createdAt < cutover.value then Ok((b, LegacySource))
    else if source.value.organization !in b.organizations then Err(OrganizationNotFound)
    else if source.value.campaign.Some? && source.value.campaign.value !in b.campaigns then Err(CampaignNotFound)
    else
      var b1 := OpenAccount(b, source.value.organization);
      var row := Reservation(key, source.value.organization, source.value.campaign, source.value.user,
                             0, 0, true, true, 0, 0);
      Ok((b1.(reservations := b1.reservations + [row]), Reserved(|b1.reservations|, true)))
  }

  // ----- commit and settle ----------------------------------------------------------------------

  datatype CommitResult = CommitResult(commit: nat, covered: int, uncovered: int, existing: bool)

  /** What a reservation can still give towards `amount`. */
  function Draw(r: Reservation, amount: int): int {
    if r.active then Min(amount, r.remaining) else 0
  }

  /** Moves `amount` of reservation `i` into an obligation: the draw, the excess and the campaign counters. */
  function Oblige(b: Book, i: nat, amount: int): Result<Book, FundingError>
    requires i < |b.reservations|
    requires Linked(b, b.reservations[i].account, b.reservations[i].campaign)
  {
    var r := b.reservations[i];
    var covered := Draw(r, amount);
    var b1 := b.(reservations := b.reservations[i := r.(remaining := r.remaining - covered)]);
    var b2 :- if amount > covered then BumpAccount(b1, r.account, 0, amount - covered) else Ok(b1);
    Ok(BumpCampaign(b2, r.campaign, -covered, amount))
  }

  function CommitReward(b: Book, i: nat, key: EarnKey, amount: int, pending: bool)
    : Result<(Book, CommitResult), FundingError>
    requires i < |b.reservations| ==> Linked(b, b.reservations[i].account, b.reservations[i].campaign)
  {
    if !Rupiah(amount, 0) then Err(AmountInvalid)
    else if i >= |b.reservations| then Err(ReservationNotFound)
    else
      var existing := Find(b.commits, CommitKeyed(key));
      if existing.Some? then
        var c := b.commits[existing.value];
        if c.reservation != i then Err(KeyConflict)
        else Ok((b, CommitResult(existing.value, c.held - c.uncovered, c.uncovered, true)))
      else
        var r := b.reservations[i];
        var covered := Draw(r, amount);
        var b1 :- Oblige(b, i, amount);
        var row := Commit(key, i, r.account, r.campaign, r.user, amount, amount - covered, 0, pending);
        Ok((b1.(commits := b1.commits + [row]), CommitResult(|b1.commits|, covered, amount - covered, false)))
  }

  /** A commit row names an existing reservation, account and campaign. */
  predicate CommitLinked(b: Book, c: Commit) {
    && c.reservation < |b.reservations|
    && c.account == b.reservations[c.reservation].account
    && c.campaign == b.reservations[c.reservation].campaign
    && Linked(b, c.account, c.campaign)
  }

  function SettleCommit(b: Book, key: EarnKey, target: int, pending: bool)
    : Result<(Book, Option<nat>), FundingError>
    requires var found := Find(b.commits, CommitKeyed(key));
             found.Some? ==> CommitLinked(b, b.commits[found.value])
  {
    if !Rupiah(target, 0) then Err(AmountInvalid)
    else
      var found := Find(b.commits, CommitKeyed(key));
      if found.None? then Ok((b, None))
      else
        var c := b.commits[found.value];
        var newHeld := Max(target, c.paid);
        var delta := newHeld - c.held;
        if delta > 0 then
          var uncovered := delta - Draw(b.reservations[c.reservation], delta);
          var b1 :- Oblige(b, c.reservation, delta);
          var row := c.(held := newHeld, pending := pending, uncovered := c.uncovered + uncovered);
          Ok((b1.(commits := b1.commits[found.value := row]), found))
        else
          var b1 :- if delta < 0 then BumpAccount(b, c.account, 0, delta) else Ok(b);
          var b2 := if delta < 0 then BumpCampaign(b1, c.campaign, 0, delta) else b1;
          Ok((b2.(commits := b2.commits[found.value := c.(held := newHeld, pending := pending)]), found))
  }

  /** Review settlement: settle the earning's commit, or commit the target against the source's reservation. */
  function SettleOrCommit(b: Book, key: EarnKey, source: SourceKey, stored: Option<Source>, cutover: Option<int>,
                          target: Option<int>, pending: bool): Result<(Book, Option<nat>), FundingError>
    requires Wired(b)
  {
    var existing := Find(b.commits, CommitKeyed(key));
    if existing.Some? then
      assert CommitSound(b, b.commits[existing.value]);
      SettleCommit(b, key, if target.Some? then target.value else b.commits[existing.value].held, pending)
    else if target.None? || target.value <= 0 then Ok((b, None))
    else
      var (b1, resolved) :- ResolveSource(b, source, stored, cutover);
      if !resolved.Reserved? then Ok((b1, None))
      else
        var (b2, committed) :- CommitReward(b1, resolved.reservation, key, target.value, pending);
        Ok((b2, Some(committed.commit)))
  }

  /** A fraud hold marks the commit pending again; no counter moves. */
  function MarkPending(b: Book, key: EarnKey): Book {
    var found := Find(b.commits, CommitKeyed(key));
    if found.None? then b
    else b.(commits := b.commits[found.value := b.commits[found.value].(pending := true)])
  }

  // ----- release --------------------------------------------------------------------------------

  function Release(b: Book, i: nat, amount: int, close: bool, key: Option<ReleaseKey>)
    : Result<(Book, int, bool), FundingError>
    requires i < |b.reservations| ==> Linked(b, b.reservations[i].account, b.reservations[i].campaign)
  {
    if !Rupiah(amount, 0) then Err(AmountInvalid)
    else if !close && key.None? then Err(KeyRequired)
    else if i >= |b.reservations| then Err(ReservationNotFound)
    else
      var recorded := if key.Some? then Find(b.releases, ReleaseKeyed(key.value)) else None;
      if recorded.Some? then
        if b.releases[recorded.value].reservation != i then Err(KeyConflict)
        else Ok((b, b.releases[recorded.value].amount, true))
      else
        var (b1, released) :- GiveBack(b, i, amount, close);
        Ok((if key.Some? then b1.(releases := b1.releases + [ReleaseRow(key.value, i, released)]) else b1, released, false))
  }

  /** Returns up to `amount` of what reservation `i` still holds; a released reservation is left as it is. */
  function GiveBack(b: Book, i: nat, amount: int, close: bool): Result<(Book, int), FundingError>
    requires i < |b.reservations| && Linked(b, b.reservations[i].account, b.reservations[i].campaign)
  {
    var r := b.reservations[i];
    if !r.active then Ok((b, 0))
    else
      var released := Min(amount, r.remaining);
      var b1 :- if released > 0 then BumpAccount(b, r.account, 0, -released) else Ok(b);
      var b2 := if released > 0 then BumpCampaign(b1, r.campaign, -released, 0) else b1;
      Ok((b2.(reservations := b2.reservations[i := r.(remaining := r.remaining - released, active := !close)]), released))
  }

  /** A close is always called with everything that remains. */
  function CloseReservation(b: Book, i: nat, key: Option<ReleaseKey>): Result<(Book, int, bool), FundingError>
    requires i < |b.reservations| ==> Linked(b, b.reservations[i].account, b.reservations[i].campaign)
  {
    if i >= |b.reservations| then Err(ReservationNotFound)
    else Release(b, i, b.reservations[i].remaining, true, key)
  }

  // ----- cash entries ---------------------------------------------------------------------------

  /** Operator entry; the two flags say whether the reference and the note pass their length checks. */
  datatype CashInput = CashInput(
    organization: Id, topup: bool, amount: int, reference: Id, referenceValid: bool, noteValid: bool)

  function RecordCash(b: Book, input: CashInput): Result<(Book, nat, bool), FundingError> {
    if !input.referenceValid then Err(ReferenceRequired)
    else if !input.noteValid then Err(NoteRequired)
    else if !Rupiah(if input.topup then input.amount else Abs(input.amount), 1) then Err(AmountInvalid)
    else if input.organization !in b.organizations then Err(OrganizationNotFound)
    else
      var b1 := OpenAccount(b, input.organization);
      var key := if input.amount > 0 then Cash(input.reference) else Correction(input.reference);
      var kind := if input.topup then ConfirmedTopup else CashCorrection;
      var existing := Find(b1.entries, EntryKeyed(key));
      if existing.Some? then
        var e := b1.entries[existing.value];
        if e.account != input.organization || e.amount != input.amount || e.kind != kind then Err(ReferenceConflict)
        else Ok((b1, existing.value, true))
      else
        var b2 := b1.(entries := b1.entries + [Entry(input.organization, key, kind, input.amount, None)]);
        var b3 :- BumpAccount(b2, input.organization, input.amount, 0);
        Ok((b3, |b1.entries|, false))
  }

  // ----- what every writer keeps ----------------------------------------------------------------

  predicate ReservationSound(b: Book, r: Reservation) {
    && Linked(b, r.account, r.campaign)
    && r.remaining >= 0
    && (!r.active ==> r.remaining == 0)
  }

  predicate CommitSound(b: Book, c: Commit) {
    && CommitLinked(b, c)
    && c.user == b.reservations[c.reservation].user
    && 0 <= c.paid <= c.held
    && c.uncovered >= 0
  }

  /** Foreign keys, row bounds and unique business keys of the tables. */
  ghost predicate Wired(b: Book) {
    && (forall i :: 0 <= i < |b.reservations| ==> ReservationSound(b, b.reservations[i]))
    && (forall i :: 0 <= i < |b.commits| ==> CommitSound(b, b.commits[i]))
    && (forall i :: 0 <= i < |b.entries| ==> b.entries[i].account in b.accounts)
    && (forall i, j :: 0 <= i < j < |b.reservations| ==> b.reservations[i].key != b.reservations[j].key)
    && (forall i, j :: 0 <= i < j < |b.commits| ==> b.commits[i].key != b.commits[j].key)
    && (forall i, j :: 0 <= i < j < |b.releases| ==> b.releases[i].key != b.releases[j].key)
  }

  /** The account's counters agree with the rows they summarise. */
  ghost predicate AccountAgrees(b: Book, a: Id)
    requires a in b.accounts
  {
    && b.accounts[a].held == Sum(b.reservations, RemainingOn(a)) + Sum(b.commits, OpenOn(a))
    && b.accounts[a].confirmed == Sum(b.entries, CashOn(a))
  }

  ghost predicate CampaignAgrees(b: Book, k: Id)
    requires k in b.campaigns
  {
    && b.campaigns[k].held == Sum(b.reservations, CampaignRemaining(k))
    && b.campaigns[k].spent == Sum(b.commits, CampaignHeld(k))
  }

  ghost predicate Conserved(b: Book) {
    && (forall a :: a in b.accounts ==> AccountAgrees(b, a))
    && (forall k :: k in b.campaigns ==> CampaignAgrees(b, k))
  }
}
