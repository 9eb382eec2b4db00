/** The trip rows updated in place under the trip locks, against the functions of module Trips. */
module TripService {
  import opened Basics
  import opened FundingBook
  import FR = FundingRuns
  import opened Trips
  import opened TripRuns

  class TripTables {
    var book: Book
    var trips: seq<Trip>
    var terms: map<Id, Terms>

    constructor (organizations: set<Id>, campaigns: map<Id, Campaign>, initial: map<Id, Terms>)
      ensures Now() == State(Book(organizations, map[], campaigns, [], [], [], []), [], initial)
    {
      book := Book(organizations, map[], campaigns, [], [], [], []);
      trips, terms := [], initial;
    }

    function Now(): State
      reads this
    {
      State(book, trips, terms)
    }

    method Write(st: State)
      modifies this
      ensures Now() == st
    {
      book, trips, terms := st.book, st.trips, st.terms;
    }

    /**
      Applies the reported conditions, each to a bag of this trip; a bag scanned twice or a foreign bag is
      refused before any row is written.
     */
    method ValidateTripBags(t: Id, reports: seq<BagStatus>) returns (ok: bool)
      requires t < |trips|
      modifies this`trips
      ensures ok == ValidateBags(old(trips)[t].bags, reports).Ok?
      ensures ok ==> trips == old(trips)[t := old(trips)[t].(bags := ValidateBags(old(trips)[t].bags, reports).value)]
      ensures !ok ==> trips == old(trips)
    {
      if !DistinctBags(reports) || exists i :: 0 <= i < |reports| && reports[i].bag >= |trips[t].bags| {
        return false;
      }
      var bags := trips[t].bags;
      var n := 0;
      while n < |reports|
        invariant 0 <= n <= |reports| && |bags| == |trips[t].bags| && trips == old(trips)
        invariant forall b :: 0 <= b < |bags| ==> bags[b] == Reported(trips[t].bags[b], b, reports[..n])
      {
        var report := reports[n];
        assert reports[..n + 1][..n] == reports[..n] && reports[..n + 1][n] == report;
        if bags[report.bag] != Some(report.condition) {
          bags := bags[report.bag := Some(report.condition)];
        }
        n := n + 1;
      }
      assert reports[..|reports|] == reports;
      assert bags == ValidateBags(trips[t].bags, reports).value;
      trips := trips[t := trips[t].(bags := bags)];
      return true;
    }

    /** Bags not presented and never scanned are recorded as not returned. */
    method MarkUnreviewedBagsNotReturned(t: Id)
      requires t < |trips|
      modifies this`trips
      ensures trips == old(trips)[t := old(trips)[t].(bags := MarkUnreviewed(old(trips)[t].bags))]
    {
      var bags := trips[t].bags;
      var b := 0;
      while b < |bags|
        invariant 0 <= b <= |bags| == |trips[t].bags| && trips == old(trips)
        invariant forall k :: 0 <= k < b ==> bags[k] == MarkUnreviewed(trips[t].bags)[k]
        invariant forall k :: b <= k < |bags| ==> bags[k] == trips[t].bags[k]
      {
        if bags[b].None? { bags := bags[b := Some(NotReturned)]; }
        b := b + 1;
      }
      assert bags == MarkUnreviewed(trips[t].bags);
      trips := trips[t := trips[t].(bags := bags)];
    }

    /** Reserves for every issued row, then inserts the new rows; a refused reservation inserts nothing. */
    method IssueTrashBags(t: Id, count: nat, enforced: bool) returns (ok: bool)
      modifies this
      ensures ok == Issue(old(Now()), t, count, enforced).Ok?
      ensures Now() == if ok then Issue(old(Now()), t, count, enforced).value else old(Now())
      ensures Fine(old(Now())) ==> Fine(Now())
    {
      if Fine(Now()) && Issue(Now(), t, count, enforced).Ok? { IssueFine(Now(), t, count, enforced); }
      if t >= |trips| || (trips[t].status != Planned && trips[t].status != Active) { return false; }
      var reserved := ReserveIssuance(Now(), t, |trips[t].bags| + count, enforced);
      if reserved.Err? { return false; }
      var bags := trips[t].bags;
      var n := 0;
      while n < count
        invariant 0 <= n <= count && bags == trips[t].bags + seq(n, _ => None)
      {
        bags := bags + [None];
        n := n + 1;
      }
      book := reserved.value.0;
      trips := trips[t := trips[t].(bags := bags, quote := reserved.value.1)];
      return true;
    }

    method ChangeTripStatus(t: Id, expected: TripStatus, next: TripStatus, enforced: bool) returns (ok: bool)
      requires FR.Sound(book)
      modifies this
      ensures ok == ChangeStatus(old(Now()), t, expected, next, enforced).Ok?
      ensures Now() == if ok then ChangeStatus(old(Now()), t, expected, next, enforced).value else old(Now())
      ensures Fine(old(Now())) ==> Fine(Now())
    {
      if Fine(Now()) && ChangeStatus(Now(), t, expected, next, enforced).Ok? { ChangeStatusFine(Now(), t, expected, next, enforced); }
      if t >= |trips| || trips[t].status != expected || !MaySet(expected, next) { return false; }
      if next == Cancelled {
        var closed := CloseTrip(book, t);
        if closed.Err? { return false; }
        book := closed.value;
        trips := trips[t := trips[t].(status := Cancelled, quote := None)];
      } else if expected == Cancelled && next == Planned {
        var reserved := ReserveIssuance(Now(), t, |trips[t].bags|, enforced);
        if reserved.Err? { return false; }
        book := reserved.value.0;
        trips := trips[t := trips[t].(status := Planned, quote := reserved.value.1)];
      }
      return true;
    }

    /** The guard of a program change: open trips are looked up one by one; a refusal writes nothing. */
    method ChangeProgramTerms(campaign: Id, next: Terms, enforced: bool, openSessions: bool) returns (ok: bool)
      modifies this`terms
      ensures ok == ChangeProgram(old(Now()), campaign, next, enforced, openSessions).Ok?
      ensures Now() == if ok then ChangeProgram(old(Now()), campaign, next, enforced, openSessions).value else old(Now())
      ensures ok && enforced && HasOpenTrips(trips, campaign) ==> !PaysMore(TermsAt(old(Now()), campaign), next)
    {
      if enforced && PaysMore(TermsAt(Now(), campaign), next) {
        var found, t := openSessions, 0;
        while t < |trips| && !found
          invariant 0 <= t <= |trips|
          invariant found <==> openSessions || exists k :: 0 <= k < t && OpenSource(trips[k], campaign)
        {
          found := OpenSource(trips[t], campaign);
          t := t + 1;
        }
        if found { return false; }
      }
      terms := terms[campaign := next];
      return true;
    }

    /** Check-out in one transaction: bag rows, then the outcome; a refusal rolls the bag rows back. */
    method CheckOutBags(t: Id, c: CheckOut) returns (ok: bool)
      requires FR.Sound(book)
      modifies this
      ensures ok == CheckOutTrip(old(Now()), t, c).Ok?
      ensures Now() == if ok then CheckOutTrip(old(Now()), t, c).value else old(Now())
      ensures Fine(old(Now())) ==> Fine(Now())
    {
      var was := Now();
      if Fine(was) && CheckOutTrip(was, t, c).Ok? { CheckOutFine(was, t, c); }
      if t >= |trips| { return false; }
      ok := ValidateTripBags(t, c.reports);
      if !ok { return; }
      if c.bulk { MarkUnreviewedBagsNotReturned(t); }
      ok := RefreshTripOutcome(t, was, c);
      if !ok { Write(was); }
    }

    /** The outcome from the bag rows as they are now; the earning is written once and the reservation closed after it. */
    method RefreshTripOutcome(t: Id, was: State, c: CheckOut) returns (ok: bool)
      requires t < |was.trips| && FR.Sound(was.book) && book == was.book && terms == was.terms && |trips| == |was.trips|
      requires trips == was.trips[t := was.trips[t].(bags := trips[t].bags)]
      modifies this
      ensures ok == Refresh(was, t, old(trips)[t].bags, c).Ok?
      ensures ok ==> Now() == Refresh(was, t, old(trips)[t].bags, c).value
    {
      var trip, price := trips[t], TermsOf(was, was.trips[t]);
      if trip.status != Active && trip.status != Completed { return false; }
      var e := Evaluate(trip.bags, c.appCompleted, price.money && trip.user.Some?, price.multiplier);
      if e.reward > MAX_RUPIAH { return false; }
      var completedNow := trip.status == Active && c.mayClose && e.reviewed == e.issued;
      if !completedNow { return true; }
      var earns := e.reward > 0 && trip.earnings == [] && !c.erased;
      var closed := if earns then EarnAndClose(book, t, was.trips[t], e.reward, c.cutover) else CloseTrip(book, t);
      if closed.Err? { return false; }
      book := closed.value;
      trips := trips[t := trip.(status := Completed, earnings := if earns then trip.earnings + [e.reward] else trip.earnings,
                                priced := Some(Quote(|trip.bags|, Effective(price.multiplier))))];
      return true;
    }
  }
}
