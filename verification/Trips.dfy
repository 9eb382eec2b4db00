/**
  Trash-bag trips (lib/trip.ts, lib/tourism.ts, lib/trip-issuance.ts, lib/trip-validation.ts) over the funding
  book: bags are issued under a reservation of the most they can pay, and check-out earns against it once.
  Multipliers are exact basis points (10 000 = 1.0).
 */
module Trips {
  import opened Basics
  import opened Rounding
  import opened FundingBook
  import opened FundingRuns

  // ----- price ----------------------------------------------------------------------------------

  const REWARD_PER_BAG := 2000
  const ONE := 10_000

  datatype Condition = Good | Partial | Poor | NotReturned
  datatype Stage = CheckInStage | CheckOutStage | PickupStage
  datatype ComplianceStatus = CheckedIn | Compliant | NeedsReview | NonCompliant
  datatype Compliance = Compliance(score: int, status: ComplianceStatus)

  /** Effective terms of a program: whether its trips pay money, whether its machines do, and its multiplier. */
  datatype Terms = Terms(money: bool, machines: bool, multiplier: Option<int>)

  /** A missing or non-positive multiplier counts as one. */
  function Effective(multiplier: Option<int>): (m: int)
    ensures m > 0
  {
    if multiplier.Some? && multiplier.value > 0 then multiplier.value else ONE
  }

  predicate Rewardable(c: Condition) { c == Good || c == Partial }
  predicate Returned(c: Condition) { c != NotReturned }

  function Known(bags: seq<Option<Condition>>): (r: seq<Condition>)
    ensures |r| <= |bags|
  {
    if bags == [] then []
    else Known(bags[..|bags| - 1]) + if bags[|bags| - 1].Some? then [bags[|bags| - 1].value] else []
  }

  function Count(cs: seq<Condition>, p: Condition -> bool): (n: nat)
    ensures n <= |cs|
    ensures n == |cs| <==> forall i :: 0 <= i < |cs| ==> p(cs[i])
    ensures n == 0 <==> forall i :: 0 <= i < |cs| ==> !p(cs[i])
  {
    if cs == [] then 0 else Count(cs[..|cs| - 1], p) + if p(cs[|cs| - 1]) then 1 else 0
  }

  function Aggregate(known: seq<Condition>): Option<Condition> {
    if known == [] then None
    else if forall i :: 0 <= i < |known| ==> known[i] == NotReturned then Some(NotReturned)
    else if forall i :: 0 <= i < |known| ==> known[i] == Good then Some(Good)
    else if exists i :: 0 <= i < |known| && known[i] == Poor then Some(Poor)
    else Some(Partial)
  }

  function Comply(stage: Stage, appCompleted: bool, issued: int, returned: int, condition: Option<Condition>): (c: Compliance)
    ensures 0 <= c.score <= 100
    ensures stage == CheckOutStage ==>
      (c.score == 100 <==> appCompleted && condition == Some(Good) && returned > 0 && returned >= issued)
  {
    if stage == CheckInStage then Compliance(if appCompleted then 30 else 0, CheckedIn)
    else if stage == PickupStage then Compliance(100, Compliant)
    else
      var a, r := Max(0, issued), Max(0, returned);
      var app := if appCompleted then 30 else 0;
      var back := if a == 0 then (if r > 0 then 40 else 0) else if r >= a then 40 else if r > 0 then 20 else 0;
      var sorted := if condition == Some(Good) then 30 else if condition == Some(Partial) then 20 else 0;
      var score := app + back + sorted;
      Compliance(score, if score >= 80 then Compliant else if score >= 50 then NeedsReview else NonCompliant)
  }

  /** The most `rows` bags can ever pay, rounded up. */
  function IssuanceCeiling(rows: int, multiplier: Option<int>): int {
    if rows <= 0 then 0 else (rows * REWARD_PER_BAG * Effective(multiplier) + ONE - 1) / ONE
  }

  function BagReward(rewardable: int, score: int, multiplier: Option<int>): int {
    if rewardable <= 0 then 0
    else rewardable * REWARD_PER_BAG * Effective(multiplier) * Max(0, Min(100, score)) / (ONE * 100)
  }

  datatype Evaluation = Evaluation(issued: nat, reviewed: nat, returned: nat, rewardable: nat, condition: Option<Condition>,
                                   compliance: Compliance, reward: int)

  function Evaluate(bags: seq<Option<Condition>>, appCompleted: bool, pays: bool, multiplier: Option<int>): Evaluation {
    var known := Known(bags);
    var returned, rewardable := Count(known, Returned), Count(known, Rewardable);
    var condition := Aggregate(known);
    var compliance := Comply(CheckOutStage, appCompleted, |bags|, returned, condition);
    Evaluation(|bags|, |known|, returned, rewardable, condition, compliance,
               if pays then BagReward(rewardable, compliance.score, multiplier) else 0)
  }

  lemma BasisMono(rewardable: int, rows: int, m: int, m': int)
    requires 0 <= rewardable <= rows && 0 < m <= m'
    ensures 0 <= rewardable * REWARD_PER_BAG * m <= rows * REWARD_PER_BAG * m'
  {
    ProductMono(rewardable * REWARD_PER_BAG, rows * REWARD_PER_BAG, m);
    ProductMono(m, m', rows * REWARD_PER_BAG);
    ProductMono(0, rewardable * REWARD_PER_BAG, m);
  }

  /** A return never earns more than was reserved for at least as many bags at at least this multiplier. */
  lemma RewardWithinCeiling(rewardable: int, score: int, rows: int, now: Option<int>, quoted: Option<int>)
    requires rewardable <= rows && Effective(now) <= Effective(quoted)
    ensures 0 <= BagReward(rewardable, score, now) <= IssuanceCeiling(rows, quoted)
  {
    if rewardable > 0 {
      var basis, top := rewardable * REWARD_PER_BAG * Effective(now), rows * REWARD_PER_BAG * Effective(quoted);
      var s := Max(0, Min(100, score));
      BasisMono(rewardable, rows, Effective(now), Effective(quoted));
      ProductMono(s, 100, basis);
      ProductMono(0, s, basis);
      QuotientMono(0, basis * s, ONE * 100);
      QuotientMono(basis * s, basis * 100, ONE * 100);
      assert basis * 100 / (ONE * 100) == basis / ONE;
      QuotientMono(basis, top + ONE - 1, ONE);
    } else if rows > 0 {
      BasisMono(0, rows, Effective(quoted), Effective(quoted));
      QuotientMono(0, rows * REWARD_PER_BAG * Effective(quoted) + ONE - 1, ONE);
    }
  }

  lemma EvaluationBounds(bags: seq<Option<Condition>>, appCompleted: bool, pays: bool, multiplier: Option<int>)
    ensures var e := Evaluate(bags, appCompleted, pays, multiplier);
      e.rewardable <= e.returned <= e.reviewed <= e.issued == |bags|
    ensures 0 <= Evaluate(bags, appCompleted, pays, multiplier).reward <= IssuanceCeiling(|bags|, multiplier)
  {
    var known := Known(bags);
    CountImplies(known, Rewardable, Returned);
    RewardWithinCeiling(Count(known, Rewardable), Evaluate(bags, appCompleted, pays, multiplier).compliance.score, |bags|, multiplier, multiplier);
  }

  lemma {:induction false} CountImplies(cs: seq<Condition>, p: Condition -> bool, q: Condition -> bool)
    requires forall i :: 0 <= i < |cs| && p(cs[i]) ==> q(cs[i])
    ensures Count(cs, p) <= Count(cs, q)
  {
    if cs != [] { CountImplies(cs[..|cs| - 1], p, q); }
  }

  // ----- state ----------------------------------------------------------------------------------

  datatype TripStatus = Planned | Active | Completed | Cancelled

  /** What a reservation was computed from: `rows` bags at `bps`. */
  datatype Quote = Quote(rows: nat, bps: int)

  /**
    One trip. `earnings` are its recorded return earnings; `quote` is what its open reservation covers and
    `priced` what its return was computed from (history the statements refer to).
   */
  datatype Trip = Trip(
    user: Option<Id>, campaign: Id, organization: Id, createdAt: int, status: TripStatus,
    bags: seq<Option<Condition>>, earnings: seq<int>, quote: Option<Quote>, priced: Option<Quote>)

  datatype State = State(book: Book, trips: seq<Trip>, terms: map<Id, Terms>)

  function TermsOf(st: State, trip: Trip): Terms { TermsAt(st, trip.campaign) }

  datatype TripError = TripNotFound | WrongStatus | BadBags | AmountTooLarge | OpenSources | Funding(error: FundingError)

  // ----- changing a program -------------------------------------------------------------------------

  function TermsAt(st: State, campaign: Id): Terms {
    if campaign in st.terms then st.terms[campaign] else Terms(false, false, None)
  }

  /** The change starts paying money somewhere, or raises what is paid. */
  predicate PaysMore(current: Terms, next: Terms) {
    || (!current.money && next.money) || (!current.machines && next.machines)
    || ((next.money || next.machines) && Effective(next.multiplier) > Effective(current.multiplier))
  }

  /** A trip admitted under the program that can still earn. */
  predicate OpenSource(trip: Trip, campaign: Id) {
    trip.campaign == campaign && (trip.status == Planned || trip.status == Active) && trip.bags != []
  }

  predicate HasOpenTrips(trips: seq<Trip>, campaign: Id) { exists t :: 0 <= t < |trips| && OpenSource(trips[t], campaign) }

  /** Under enforcement a program with open trips or sessions cannot pay more; in shadow mode it can. */
  function ChangeProgram(st: State, campaign: Id, next: Terms, enforced: bool, openSessions: bool): Result<State, TripError> {
    if enforced && PaysMore(TermsAt(st, campaign), next) && (openSessions || HasOpenTrips(st.trips, campaign)) then Err(OpenSources)
    else Ok(st.(terms := st.terms[campaign := next]))
  }

  // ----- issue, cancel, reopen --------------------------------------------------------------------

  function IssuanceInput(t: Id, trip: Trip, rows: int, multiplier: Option<int>): ReserveInput
    requires trip.user.Some?
  {
    ReserveInput(TripIssuance(t), trip.organization, Some(trip.campaign), trip.user.value, IssuanceCeiling(rows, multiplier))
  }

  /** The ceiling of `rows` bags goes on reserve, if the trip has someone to pay and the program pays money. */
  function ReserveIssuance(st: State, t: Id, rows: nat, enforced: bool): Result<(Book, Option<Quote>), TripError>
    requires t < |st.trips|
  {
    var trip, terms := st.trips[t], TermsOf(st, st.trips[t]);
    if trip.user.None? || rows == 0 || !terms.money then Ok((st.book, trip.quote))
    else if IssuanceCeiling(rows, terms.multiplier) > MAX_RUPIAH then Err(AmountTooLarge)
    else
      var r := Reserve(st.book, IssuanceInput(t, trip, rows, terms.multiplier), enforced);
      if r.Err? then Err(Funding(r.error)) else Ok((r.value.0, Some(Quote(rows, Effective(terms.multiplier)))))
  }

  function Issue(st: State, t: Id, count: nat, enforced: bool): Result<State, TripError> {
    if t >= |st.trips| then Err(TripNotFound)
    else if st.trips[t].status != Planned && st.trips[t].status != Active then Err(WrongStatus)
    else
      var (book, quote) :- ReserveIssuance(st, t, |st.trips[t].bags| + count, enforced);
      var trip := st.trips[t].(bags := st.trips[t].bags + seq(count, _ => None), quote := quote);
      Ok(st.(book := book, trips := st.trips[t := trip]))
  }

  predicate MaySet(current: TripStatus, next: TripStatus) {
    || current == next
    || (next == Cancelled && (current == Planned || current == Active))
    || (next == Planned && current == Cancelled)
  }

  /** The trip's open reservation gives everything it still holds back. */
  function CloseTrip(b: Book, t: Id): Result<Book, FundingError>
    requires Wired(b)
  {
    var found := Find(b.reservations, ReservationKeyed(TripIssuance(t)));
    if found.None? || !b.reservations[found.value].active then Ok(b)
    else
      assert ReservationSound(b, b.reservations[found.value]);
      var r := CloseReservation(b, found.value, None);
      if r.Err? then Err(r.error) else Ok(r.value.0)
  }

  function ChangeStatus(st: State, t: Id, expected: TripStatus, next: TripStatus, enforced: bool): Result<State, TripError>
    requires Wired(st.book)
  {
    if t >= |st.trips| then Err(TripNotFound)
    else if st.trips[t].status != expected || !MaySet(expected, next) then Err(WrongStatus)
    else if next == Cancelled then
      var closed := CloseTrip(st.book, t);
      if closed.Err? then Err(Funding(closed.error))
      else Ok(st.(book := closed.value, trips := st.trips[t := st.trips[t].(status := Cancelled, quote := None)]))
    else if expected == Cancelled && next == Planned then
      var (book, quote) :- ReserveIssuance(st, t, |st.trips[t].bags|, enforced);
      Ok(st.(book := book, trips := st.trips[t := st.trips[t].(status := Planned, quote := quote)]))
    else Ok(st)
  }

  function CheckIn(st: State, t: Id): Result<State, TripError> {
    if t >= |st.trips| then Err(TripNotFound)
    else if st.trips[t].status != Planned then Err(WrongStatus)
    else Ok(st.(trips := st.trips[t := st.trips[t].(status := Active)]))
  }

  // ----- bags and check-out ---------------------------------------------------------------------------

  datatype BagStatus = BagStatus(bag: nat, condition: Condition)

  predicate DistinctBags(reports: seq<BagStatus>) {
    forall i, j :: 0 <= i < j < |reports| ==> reports[i].bag != reports[j].bag
  }

  /** Reported conditions, one per bag of this trip; anything else is refused before any write. */
  function ValidateBags(bags: seq<Option<Condition>>, reports: seq<BagStatus>): Result<seq<Option<Condition>>, TripError> {
    if !DistinctBags(reports) || exists i :: 0 <= i < |reports| && reports[i].bag >= |bags| then Err(BadBags)
    else Ok(seq(|bags|, b requires 0 <= b < |bags| => Reported(bags[b], b, reports)))
  }

  function Reported(was: Option<Condition>, bag: nat, reports: seq<BagStatus>): Option<Condition> {
    if reports == [] then was
    else if reports[|reports| - 1].bag == bag then Some(reports[|reports| - 1].condition)
    else Reported(was, bag, reports[..|reports| - 1])
  }

  /** Bulk check-out: bags never presented are recorded as not returned. */
  function MarkUnreviewed(bags: seq<Option<Condition>>): seq<Option<Condition>> {
    seq(|bags|, b requires 0 <= b < |bags| => if bags[b].None? then Some(NotReturned) else bags[b])
  }

  /** `mayClose`: the scan may complete the trip; `erased`: the recipient's account is anonymized, so the credit becomes a case. */
  datatype CheckOut = CheckOut(reports: seq<BagStatus>, bulk: bool, appCompleted: bool, mayClose: bool, erased: bool, cutover: Option<int>)

  function StoredTrip(trip: Trip): Option<Source> {
    if trip.user.None? then None
    else Some(Source(trip.createdAt, trip.user.value, Some(trip.campaign), trip.organization))
  }

  /** Commits the return earning against the trip's reservation, then closes the reservation. */
  function EarnAndClose(b: Book, t: Id, trip: Trip, amount: int, cutover: Option<int>): Result<Book, FundingError>
    requires Sound(b)
  {
    var earned :- EarnReward(b, TripIssuance(t), StoredTrip(trip), cutover, TripReturn(t), amount, false);
    StepKeeps(b, EarnOp(TripIssuance(t), StoredTrip(trip), cutover, TripReturn(t), amount, false));
    CloseTrip(earned, t)
  }

  /** Recomputes the outcome from every bag row; the first completion earns, once, and closes the reservation. */
  function Refresh(st: State, t: Id, bags: seq<Option<Condition>>, c: CheckOut): Result<State, TripError>
    requires Sound(st.book) && t < |st.trips|
  {
    var trip, terms := st.trips[t], TermsOf(st, st.trips[t]);
    if trip.status != Active && trip.status != Completed then Err(WrongStatus)
    else
      var e := Evaluate(bags, c.appCompleted, terms.money && trip.user.Some?, terms.multiplier);
      if e.reward > MAX_RUPIAH then Err(AmountTooLarge)
      else if trip.status == Completed || !c.mayClose || e.reviewed != e.issued
      then Ok(st.(trips := st.trips[t := trip.(bags := bags)]))
      else
        var earns := e.reward > 0 && trip.earnings == [] && !c.erased;
        var closed := if earns then EarnAndClose(st.book, t, trip, e.reward, c.cutover) else CloseTrip(st.book, t);
        if closed.Err? then Err(Funding(closed.error))
        else
          var done := trip.(status := Completed, bags := bags, earnings := if earns then trip.earnings + [e.reward] else trip.earnings,
                            priced := Some(Quote(|bags|, Effective(terms.multiplier))));
          Ok(st.(book := closed.value, trips := st.trips[t := done]))
  }

  function CheckOutTrip(st: State, t: Id, c: CheckOut): Result<State, TripError>
    requires Sound(st.book)
  {
    if t >= |st.trips| then Err(TripNotFound)
    else
      var reported :- ValidateBags(st.trips[t].bags, c.reports);
      Refresh(st, t, if c.bulk then MarkUnreviewed(reported) else reported, c)
  }
}
