/** Trip returns are covered by what was reserved at issuance, over every run of trips and other funding traffic. */
module TripRuns {
  import opened Basics
  import opened Rounding
  import opened Sums
  import opened FundingBook
  import FR = FundingRuns
  import FF = FundingFrames
  import opened Trips

  /** The rows of trip `t` are left alone. */
  ghost predicate Spares(b: Book, b': Book, t: Id) { FF.Spares(b, b', TripIssuance(t), TripReturn(t)) }

  // ----- what holds of a trip ---------------------------------------------------------------------

  function Cover(q: Quote): int { IssuanceCeiling(q.rows, Some(q.bps)) }

  predicate Within(p: Quote, q: Quote) { p.rows <= q.rows && p.bps <= q.bps }

  predicate Open(trip: Trip) { trip.status == Planned || trip.status == Active }

  /** An open trip's reservation is untouched and covers its quote; a closed one holds nothing. */
  predicate ReservationFits(r: Reservation, trip: Trip) {
    && r.campaign == Some(trip.campaign) && r.account == trip.organization && trip.user == Some(r.user)
    && if Open(trip) && trip.quote.Some? then r.active && r.remaining == r.ceiling && r.ceiling >= Cover(trip.quote.value)
       else !r.active
  }

  /** The only obligation of a trip is its one return earning, uncovered by exactly what exceeds its backing. */
  predicate CommitFits(b: Book, c: Commit, trip: Trip, t: Id) {
    && trip.status == Completed && trip.earnings == [c.held] && trip.priced.Some?
    && (trip.quote.Some? && Within(trip.priced.value, trip.quote.value) ==> c.uncovered == 0)
    && c.reservation < |b.reservations| && b.reservations[c.reservation].key == TripIssuance(t)
    && c.uncovered == Max(0, c.held - Backing(b.reservations[c.reservation], trip))
  }

  /** What stood reserved for the return when it was earned. */
  function Backing(r: Reservation, trip: Trip): int { if trip.quote.Some? then r.ceiling else 0 }

  ghost predicate HasReservation(b: Book, t: Id) {
    exists i :: 0 <= i < |b.reservations| && b.reservations[i].key == TripIssuance(t)
  }

  ghost predicate HasCommit(b: Book, t: Id) {
    exists j :: 0 <= j < |b.commits| && b.commits[j].key == TripReturn(t)
  }

  predicate TripFits(trip: Trip) {
    && |trip.earnings| <= 1
    && (trip.status != Completed ==> trip.earnings == [] && trip.priced.None?)
    && (trip.status == Completed ==> trip.priced.Some? && trip.priced.value.bps > 0)
    && (trip.status == Cancelled ==> trip.quote.None?)
    && (trip.quote.Some? ==> trip.user.Some? && trip.quote.value.bps > 0)
  }

  predicate UnderTrip(b: Book, c: Commit, t: Id) {
    c.reservation < |b.reservations| && b.reservations[c.reservation].key == TripIssuance(t)
  }

  ghost predicate TripOk(b: Book, trip: Trip, t: Id) {
    && TripFits(trip)
    && (forall i :: 0 <= i < |b.reservations| && b.reservations[i].key == TripIssuance(t) ==> ReservationFits(b.reservations[i], trip))
    && (forall j :: 0 <= j < |b.commits| && b.commits[j].key == TripReturn(t) ==> CommitFits(b, b.commits[j], trip, t))
    && (forall j :: 0 <= j < |b.commits| && UnderTrip(b, b.commits[j], t) ==> b.commits[j].key == TripReturn(t))
    && (trip.quote.Some? ==> HasReservation(b, t))
    && (trip.quote.Some? && trip.earnings != [] ==> HasCommit(b, t))
  }

  lemma SparesKeeps(b: Book, b': Book, trip: Trip, t: Id)
    requires Wired(b) && Spares(b, b', t) && TripOk(b, trip, t)
    ensures TripOk(b', trip, t)
  {
    forall j | 0 <= j < |b.commits| ensures b.commits[j].reservation < |b.reservations| {
      assert CommitSound(b, b.commits[j]);
    }
    if trip.quote.Some? {
      var i :| 0 <= i < |b.reservations| && b.reservations[i].key == TripIssuance(t);
      assert b'.reservations[i].key == TripIssuance(t);
      if trip.earnings != [] {
        var j :| 0 <= j < |b.commits| && b.commits[j].key == TripReturn(t);
        assert b'.commits[j].key == TripReturn(t);
      }
    }
  }

  // ----- issue, cancel, reopen --------------------------------------------------------------------

  /** No obligation stands under the reservation of a trip that has not completed. */
  lemma NothingHeld(b: Book, trip: Trip, t: Id, i: nat)
    requires TripOk(b, trip, t) && trip.status != Completed && i < |b.reservations| && b.reservations[i].key == TripIssuance(t)
    ensures Sum(b.commits, HeldUnder(i)) == 0
  {
    forall j | 0 <= j < |b.commits| ensures HeldUnder(i)(b.commits[j]) == 0 {
      if b.commits[j].reservation == i {
        assert UnderTrip(b, b.commits[j], t);
      }
    }
    SumZero(b.commits, HeldUnder(i));
  }

  predicate Reserved(r: Reservation, trip: Trip, ceiling: int) {
    && r.active && r.remaining == r.ceiling && r.ceiling >= ceiling
    && r.campaign == Some(trip.campaign) && r.account == trip.organization && trip.user == Some(r.user)
  }

  /** Reserving `rows` bags leaves an active reservation that holds at least their ceiling, untouched. */
  lemma ReservedRow(b: Book, trip: Trip, t: Id, rows: nat, multiplier: Option<int>, enforced: bool)
    requires TripOk(b, trip, t) && (Open(trip) || trip.status == Cancelled) && trip.user.Some? && rows > 0
    requires Reserve(b, IssuanceInput(t, trip, rows, multiplier), enforced).Ok?
    ensures var (b', i) := Reserve(b, IssuanceInput(t, trip, rows, multiplier), enforced).value;
      i < |b'.reservations| && Reserved(b'.reservations[i], trip, IssuanceCeiling(rows, multiplier))
  {
    var input := IssuanceInput(t, trip, rows, multiplier);
    FR.ReserveShape(b, input, enforced);
    var b1 := OpenAccount(b, input.organization);
    var existing := Find(b1.reservations, ReservationKeyed(input.key));
    if existing.Some? {
      assert ReservationFits(b.reservations[existing.value], trip);
      if !b.reservations[existing.value].active {
        NothingHeld(b, trip, t, existing.value);
      }
    }
  }

  function QuotedTrip(trip: Trip, status: TripStatus, bags: seq<Option<Condition>>, rows: nat, multiplier: Option<int>): Trip {
    trip.(status := status, bags := bags, quote := Some(Quote(rows, Effective(multiplier))))
  }

  lemma ReserveTripOk(b: Book, trip: Trip, t: Id, rows: nat, multiplier: Option<int>, enforced: bool, trip': Trip)
    requires Wired(b) && TripOk(b, trip, t) && (Open(trip) || trip.status == Cancelled) && trip.user.Some? && rows > 0
    requires Reserve(b, IssuanceInput(t, trip, rows, multiplier), enforced).Ok?
    requires Open(trip') && trip' == QuotedTrip(trip, trip'.status, trip'.bags, rows, multiplier)
    ensures TripOk(Reserve(b, IssuanceInput(t, trip, rows, multiplier), enforced).value.0, trip', t)
  {
    var input := IssuanceInput(t, trip, rows, multiplier);
    FF.ReserveRows(b, input, enforced);
    ReservedRow(b, trip, t, rows, multiplier, enforced);
    var (b', i) := Reserve(b, input, enforced).value;
    assert IssuanceCeiling(rows, multiplier) == Cover(trip'.quote.value);
    forall m | 0 <= m < |b'.reservations| && m != i ensures b'.reservations[m].key != TripIssuance(t) {
      if i < |b.reservations| {
        assert b.reservations[m].key != b.reservations[i].key;
      } else {
        NewKey(b, input, enforced, m);
      }
    }
    forall j | 0 <= j < |b'.commits| ensures b'.commits[j].key != TripReturn(t) && !UnderTrip(b', b'.commits[j], t) {
      assert CommitSound(b, b.commits[j]);
      assert UnderTrip(b', b'.commits[j], t) == UnderTrip(b, b.commits[j], t);
    }
  }

  /** A row is inserted only when no row has its key. */
  lemma NewKey(b: Book, input: ReserveInput, enforced: bool, m: nat)
    requires Reserve(b, input, enforced).Ok? && Reserve(b, input, enforced).value.1 == |b.reservations| && m < |b.reservations|
    ensures b.reservations[m].key != input.key
  {
    FR.ReserveShape(b, input, enforced);
    var existing := Find(b.reservations, ReservationKeyed(input.key));
    assert existing.None?;
    assert !ReservationKeyed(input.key)(b.reservations[m]);
  }

  lemma TripSameCampaign(b: Book, trip: Trip, t: Id, rows: nat, multiplier: Option<int>)
    requires TripOk(b, trip, t) && trip.user.Some?
    ensures FR.SameCampaign(b, IssuanceInput(t, trip, rows, multiplier))
  {
  }

  // ----- closing ------------------------------------------------------------------------------------

  lemma CloseTripKeeps(b: Book, t: Id)
    requires FR.Sound(b) && CloseTrip(b, t).Ok?
    ensures FR.Sound(CloseTrip(b, t).value)
    ensures forall s :: s != t ==> Spares(b, CloseTrip(b, t).value, s)
  {
    var found := Find(b.reservations, ReservationKeyed(TripIssuance(t)));
    if found.Some? && b.reservations[found.value].active {
      FR.RowsSound(b);
      FR.ReleaseKeeps(b, found.value, b.reservations[found.value].remaining, true, None);
      forall s | s != t ensures Spares(b, CloseTrip(b, t).value, s) {
        FF.ReleaseSpares(b, found.value, b.reservations[found.value].remaining, true, None, TripIssuance(s), TripReturn(s));
      }
    }
  }

  /** After the close the trip's reservation is released and its obligations are as they were. */
  lemma CloseTripRows(b: Book, t: Id)
    requires Wired(b) && CloseTrip(b, t).Ok?
    ensures var b' := CloseTrip(b, t).value;
      && b'.commits == b.commits && |b'.reservations| == |b.reservations|
      && forall i :: 0 <= i < |b.reservations| ==>
           SameTerms(b.reservations[i], b'.reservations[i])
           && (b.reservations[i].key == TripIssuance(t) ==> !b'.reservations[i].active)
  {
    var found := Find(b.reservations, ReservationKeyed(TripIssuance(t)));
    forall i | 0 <= i < |b.reservations| && b.reservations[i].key == TripIssuance(t) ensures found == Some(i) {
      assert ReservationKeyed(TripIssuance(t))(b.reservations[i]);
      assert ReservationKeyed(TripIssuance(t))(b.reservations[found.value]);
    }
    if found.Some? && b.reservations[found.value].active {
      assert ReservationSound(b, b.reservations[found.value]);
      FF.ReleaseRows(b, found.value, b.reservations[found.value].remaining, true, None);
    }
  }

  /** A trip that closes without earning. */
  lemma CloseTripOk(b: Book, trip: Trip, t: Id, trip': Trip)
    requires Wired(b) && TripOk(b, trip, t) && trip.status != Completed && CloseTrip(b, t).Ok?
    requires trip'.user == trip.user && trip'.campaign == trip.campaign && trip'.organization == trip.organization
    requires !Open(trip') && TripFits(trip') && trip'.earnings == [] && (trip'.quote.Some? ==> trip.quote.Some?)
    ensures TripOk(CloseTrip(b, t).value, trip', t)
  {
    CloseTripRows(b, t);
    var b' := CloseTrip(b, t).value;
    forall j | 0 <= j < |b'.commits| ensures b'.commits[j].key != TripReturn(t) && !UnderTrip(b', b'.commits[j], t) {
      assert UnderTrip(b', b'.commits[j], t) == UnderTrip(b, b.commits[j], t);
    }
    if trip'.quote.Some? {
      var i :| 0 <= i < |b.reservations| && b.reservations[i].key == TripIssuance(t);
      assert b'.reservations[i].key == TripIssuance(t);
    }
  }

  // ----- earning ------------------------------------------------------------------------------------

  /** What the earning writes: one commit of the whole amount, drawn from the trip's reservation. */
  ghost predicate Earned(b: Book, b': Book, t: Id, amount: int) {
    && |b'.commits| == |b.commits| + 1 && b'.commits[..|b.commits|] == b.commits
    && var c := b'.commits[|b.commits|];
       && c.key == TripReturn(t) && c.held == amount && UnderTrip(b', c, t)
       && c.uncovered == amount - if c.reservation < |b.reservations| then Draw(b.reservations[c.reservation], amount) else 0
  }

  predicate SameTerms(r: Reservation, s: Reservation) { FR.SameSource(r, s) && r.ceiling == s.ceiling }

  /** The reservation rows before and after the earning name the same source; a late one was added only where none was. */
  ghost predicate SameRows(b: Book, b': Book, t: Id, trip: Trip) {
    && |b.reservations| <= |b'.reservations|
    && (forall i :: 0 <= i < |b.reservations| ==> SameTerms(b.reservations[i], b'.reservations[i]))
    && (forall i :: |b.reservations| <= i < |b'.reservations| ==> LateFor(b'.reservations[i], t, trip))
    && (HasReservation(b, t) ==> |b'.reservations| == |b.reservations|)
  }

  predicate LateFor(r: Reservation, t: Id, trip: Trip) {
    r.key == TripIssuance(t) && r.campaign == Some(trip.campaign) && r.account == trip.organization && trip.user == Some(r.user)
  }

  lemma LateRow(b: Book, trip: Trip, t: Id, cutover: Option<int>)
    requires ResolveSource(b, TripIssuance(t), StoredTrip(trip), cutover).Ok?
    ensures var (b1, resolved) := ResolveSource(b, TripIssuance(t), StoredTrip(trip), cutover).value;
      SameRows(b, b1, t, trip) && (!resolved.Reserved? ==> !HasReservation(b, t))
      && (forall i :: 0 <= i < |b.reservations| ==> b1.reservations[i] == b.reservations[i])
      && (forall i :: |b.reservations| <= i < |b1.reservations| ==> b1.reservations[i].remaining == 0)
  {
    var existing := Find(b.reservations, ReservationKeyed(TripIssuance(t)));
    if existing.None? {
      forall i | 0 <= i < |b.reservations| ensures b.reservations[i].key != TripIssuance(t) {
        assert !ReservationKeyed(TripIssuance(t))(b.reservations[i]);
      }
    }
  }

  /** The commit itself, against the resolved reservation `i` of `b1`. */
  lemma CommitEarned(b: Book, b1: Book, trip: Trip, t: Id, i: nat, amount: int)
    requires b1.commits == b.commits && SameRows(b, b1, t, trip)
    requires forall m :: 0 <= m < |b.reservations| ==> b1.reservations[m] == b.reservations[m]
    requires forall m :: |b.reservations| <= m < |b1.reservations| ==> b1.reservations[m].remaining == 0
    requires forall j :: 0 <= j < |b.commits| ==> b.commits[j].key != TripReturn(t)
    requires i < |b1.reservations| && Linked(b1, b1.reservations[i].account, b1.reservations[i].campaign)
    requires b1.reservations[i].key == TripIssuance(t) && CommitReward(b1, i, TripReturn(t), amount, false).Ok?
    ensures var b' := CommitReward(b1, i, TripReturn(t), amount, false).value.0; SameRows(b, b', t, trip) && Earned(b, b', t, amount)
  {
    FF.CommitRows(b1, i, TripReturn(t), amount, false);
    assert Find(b1.commits, CommitKeyed(TripReturn(t))).None?;
  }

  lemma EarnRows(b: Book, trip: Trip, t: Id, amount: int, cutover: Option<int>)
    requires FR.Sound(b) && forall j :: 0 <= j < |b.commits| ==> b.commits[j].key != TripReturn(t)
    requires FR.EarnReward(b, TripIssuance(t), StoredTrip(trip), cutover, TripReturn(t), amount, false).Ok?
    ensures var b' := FR.EarnReward(b, TripIssuance(t), StoredTrip(trip), cutover, TripReturn(t), amount, false).value;
      SameRows(b, b', t, trip) && (Earned(b, b', t, amount) || (b'.commits == b.commits && !HasReservation(b, t)))
  {
    FR.ResolveNames(b, TripIssuance(t), StoredTrip(trip), cutover);
    FR.ResolveKeeps(b, TripIssuance(t), StoredTrip(trip), cutover);
    LateRow(b, trip, t, cutover);
    var (b1, resolved) := ResolveSource(b, TripIssuance(t), StoredTrip(trip), cutover).value;
    if resolved.Reserved? {
      FR.RowsSound(b1);
      CommitEarned(b, b1, trip, t, resolved.reservation, amount);
    }
  }

  lemma EarnTripSpares(b: Book, b1: Book, trip: Trip, t: Id, amount: int, cutover: Option<int>, s: Id)
    requires FR.Sound(b) && s != t
    requires FR.EarnReward(b, TripIssuance(t), StoredTrip(trip), cutover, TripReturn(t), amount, false) == Ok(b1)
    ensures FR.Sound(b1) && Spares(b, b1, s)
  {
    FR.StepKeeps(b, FR.EarnOp(TripIssuance(t), StoredTrip(trip), cutover, TripReturn(t), amount, false));
    FF.EarnSpares(b, TripIssuance(t), StoredTrip(trip), cutover, TripReturn(t), amount, false, TripIssuance(s), TripReturn(s));
  }

  lemma CloseTripSpares(b: Book, b': Book, t: Id, s: Id)
    requires FR.Sound(b) && s != t && CloseTrip(b, t) == Ok(b')
    ensures Spares(b, b', s)
  {
    CloseTripKeeps(b, t);
  }

  lemma BothSpare(b: Book, b1: Book, b2: Book, s: Id)
    requires Spares(b, b1, s) && Spares(b1, b2, s)
    ensures Spares(b, b2, s)
  {
    FF.SparesTransitive(b, b1, b2, TripIssuance(s), TripReturn(s));
  }

  /** The two books an earning check-out goes through. */
  lemma EarnAndCloseStages(b: Book, trip: Trip, t: Id, amount: int, cutover: Option<int>) returns (b1: Book, b2: Book)
    requires FR.Sound(b) && EarnAndClose(b, t, trip, amount, cutover).Ok?
    ensures FR.EarnReward(b, TripIssuance(t), StoredTrip(trip), cutover, TripReturn(t), amount, false) == Ok(b1)
    ensures FR.Sound(b1) && CloseTrip(b1, t) == Ok(b2) && EarnAndClose(b, t, trip, amount, cutover) == Ok(b2)
  {
    FR.StepKeeps(b, FR.EarnOp(TripIssuance(t), StoredTrip(trip), cutover, TripReturn(t), amount, false));
    b1 := FR.EarnReward(b, TripIssuance(t), StoredTrip(trip), cutover, TripReturn(t), amount, false).value;
    b2 := CloseTrip(b1, t).value;
  }

  lemma EarnAndCloseSpares(b: Book, b1: Book, b2: Book, trip: Trip, t: Id, amount: int, cutover: Option<int>, s: Id)
    requires FR.Sound(b) && s != t && FR.Sound(b1) && CloseTrip(b1, t) == Ok(b2)
    requires FR.EarnReward(b, TripIssuance(t), StoredTrip(trip), cutover, TripReturn(t), amount, false) == Ok(b1)
    ensures Spares(b, b2, s)
  {
    EarnTripSpares(b, b1, trip, t, amount, cutover, s);
    CloseTripSpares(b1, b2, t, s);
    BothSpare(b, b1, b2, s);
  }

  lemma EarnAndCloseKeeps(b: Book, trip: Trip, t: Id, amount: int, cutover: Option<int>)
    requires FR.Sound(b) && EarnAndClose(b, t, trip, amount, cutover).Ok?
    ensures FR.Sound(EarnAndClose(b, t, trip, amount, cutover).value)
    ensures forall s :: s != t ==> Spares(b, EarnAndClose(b, t, trip, amount, cutover).value, s)
  {
    var b1, b2 := EarnAndCloseStages(b, trip, t, amount, cutover);
    CloseTripKeeps(b1, t);
    forall s | s != t ensures Spares(b, b2, s) {
      EarnAndCloseSpares(b, b1, b2, trip, t, amount, cutover, s);
    }
  }

  /** Everything known of the rows once the earning is committed and the reservation closed. */
  ghost predicate Settled(b: Book, b': Book, trip: Trip, t: Id, amount: int) {
    && SameRows(b, b', t, trip)
    && (forall i :: 0 <= i < |b'.reservations| && b'.reservations[i].key == TripIssuance(t) ==> !b'.reservations[i].active)
    && (Earned(b, b', t, amount) || (b'.commits == b.commits && !HasReservation(b, t)))
  }

  lemma EarnAndCloseRows(b: Book, trip: Trip, t: Id, amount: int, cutover: Option<int>)
    requires FR.Sound(b) && forall j :: 0 <= j < |b.commits| ==> b.commits[j].key != TripReturn(t)
    requires EarnAndClose(b, t, trip, amount, cutover).Ok?
    ensures Settled(b, EarnAndClose(b, t, trip, amount, cutover).value, trip, t, amount)
  {
    FR.StepKeeps(b, FR.EarnOp(TripIssuance(t), StoredTrip(trip), cutover, TripReturn(t), amount, false));
    EarnRows(b, trip, t, amount, cutover);
    ClosedRows(b, FR.EarnReward(b, TripIssuance(t), StoredTrip(trip), cutover, TripReturn(t), amount, false).value, trip, t, amount);
  }

  lemma ClosedRows(b: Book, b1: Book, trip: Trip, t: Id, amount: int)
    requires Wired(b1) && SameRows(b, b1, t, trip) && CloseTrip(b1, t).Ok?
    requires Earned(b, b1, t, amount) || (b1.commits == b.commits && !HasReservation(b, t))
    ensures Settled(b, CloseTrip(b1, t).value, trip, t, amount)
  {
    CloseTripRows(b1, t);
    var b' := CloseTrip(b1, t).value;
    forall i | 0 <= i < |b.reservations| ensures SameTerms(b.reservations[i], b'.reservations[i]) {
      assert SameTerms(b.reservations[i], b1.reservations[i]) && SameTerms(b1.reservations[i], b'.reservations[i]);
    }
    forall i | |b.reservations| <= i < |b'.reservations| ensures LateFor(b'.reservations[i], t, trip) {
      assert LateFor(b1.reservations[i], t, trip) && SameTerms(b1.reservations[i], b'.reservations[i]);
    }
  }

  lemma SettledOk(b: Book, b': Book, trip: Trip, t: Id, amount: int, trip': Trip)
    requires Wired(b) && TripOk(b, trip, t) && trip.status == Active && Settled(b, b', trip, t, amount)
    requires trip'.user == trip.user && trip'.campaign == trip.campaign && trip'.organization == trip.organization
    requires trip'.status == Completed && trip'.earnings == [amount] && trip'.quote == trip.quote && TripFits(trip')
    requires 0 <= amount <= Cover(trip'.priced.value)
    ensures TripOk(b', trip', t)
  {
    forall i | 0 <= i < |b'.reservations| && b'.reservations[i].key == TripIssuance(t) ensures ReservationFits(b'.reservations[i], trip') {
      if i < |b.reservations| { assert ReservationFits(b.reservations[i], trip); }
    }
    forall j | 0 <= j < |b.commits| ensures b'.commits[j].key != TripReturn(t) && !UnderTrip(b', b'.commits[j], t) {
      assert b'.commits[j] == b'.commits[..|b.commits|][j] == b.commits[j];
      assert CommitSound(b, b.commits[j]);
      assert UnderTrip(b', b'.commits[j], t) == UnderTrip(b, b.commits[j], t);
    }
    if Earned(b, b', t, amount) {
      ReturnCovered(b, b', trip, t, amount, trip'.priced.value);
      assert CommitFits(b', b'.commits[|b.commits|], trip', t);
    }
    if trip'.quote.Some? {
      var i :| 0 <= i < |b.reservations| && b.reservations[i].key == TripIssuance(t);
      assert b'.reservations[i].key == TripIssuance(t);
    }
  }

  /** The return draws its backing first; the rest is uncovered. */
  lemma BackedDraw(b: Book, b': Book, trip: Trip, t: Id, amount: int)
    requires TripOk(b, trip, t) && Open(trip) && SameRows(b, b', t, trip) && Earned(b, b', t, amount) && amount >= 0
    ensures var c := b'.commits[|b.commits|]; c.uncovered == Max(0, amount - Backing(b'.reservations[c.reservation], trip))
  {
    var i := b'.commits[|b.commits|].reservation;
    if i < |b.reservations| {
      assert SameTerms(b.reservations[i], b'.reservations[i]);
      assert ReservationFits(b.reservations[i], trip);
    }
  }

  /** A return priced within the quote is drawn entirely from the reservation. */
  lemma ReturnCovered(b: Book, b': Book, trip: Trip, t: Id, amount: int, priced: Quote)
    requires TripOk(b, trip, t) && Open(trip) && SameRows(b, b', t, trip) && Earned(b, b', t, amount)
    requires 0 <= amount <= Cover(priced) && priced.bps > 0
    ensures trip.quote.Some? && Within(priced, trip.quote.value) ==> b'.commits[|b.commits|].uncovered == 0
    ensures var c := b'.commits[|b.commits|]; c.uncovered == Max(0, amount - Backing(b'.reservations[c.reservation], trip))
  {
    BackedDraw(b, b', trip, t, amount);
    if trip.quote.Some? && Within(priced, trip.quote.value) {
      var c := b'.commits[|b.commits|];
      assert SameTerms(b.reservations[c.reservation], b'.reservations[c.reservation]);
      HeldByReservation(b, trip, t, c.reservation);
      CoverMono(priced, trip.quote.value);
    }
  }

  /** The return earning of a trip priced within its quote is fully covered, and the reservation is closed after it. */
  lemma EarnAndCloseOk(b: Book, trip: Trip, t: Id, amount: int, cutover: Option<int>, trip': Trip)
    requires FR.Sound(b) && TripOk(b, trip, t) && trip.status == Active && EarnAndClose(b, t, trip, amount, cutover).Ok?
    requires trip'.user == trip.user && trip'.campaign == trip.campaign && trip'.organization == trip.organization
    requires trip'.status == Completed && trip'.earnings == [amount] && trip'.quote == trip.quote && TripFits(trip')
    requires 0 <= amount <= Cover(trip'.priced.value)
    ensures TripOk(EarnAndClose(b, t, trip, amount, cutover).value, trip', t)
  {
    EarnAndCloseRows(b, trip, t, amount, cutover);
    SettledOk(b, EarnAndClose(b, t, trip, amount, cutover).value, trip, t, amount, trip');
  }

  lemma HeldByReservation(b: Book, trip: Trip, t: Id, i: nat)
    requires TripOk(b, trip, t) && Open(trip) && trip.quote.Some?
    requires i < |b.reservations| ==> b.reservations[i].key == TripIssuance(t)
    ensures i < |b.reservations| ==> b.reservations[i].active && b.reservations[i].remaining >= Cover(trip.quote.value)
  {
  }

  lemma CoverMono(p: Quote, q: Quote)
    requires Within(p, q) && p.bps > 0
    ensures 0 <= Cover(p) <= Cover(q)
  {
    if p.rows > 0 {
      BasisMono(p.rows, q.rows, p.bps, q.bps);
      QuotientMono(p.rows * REWARD_PER_BAG * p.bps + ONE - 1, q.rows * REWARD_PER_BAG * q.bps + ONE - 1, ONE);
      QuotientMono(0, p.rows * REWARD_PER_BAG * p.bps + ONE - 1, ONE);
    } else if q.rows > 0 {
      BasisMono(0, q.rows, q.bps, q.bps);
      QuotientMono(0, q.rows * REWARD_PER_BAG * q.bps + ONE - 1, ONE);
    }
  }

  // ----- the whole state ----------------------------------------------------------------------------

  /** No row names trip `t`. */
  ghost predicate Vacant(b: Book, t: Id) { !HasReservation(b, t) && !HasCommit(b, t) }

  ghost predicate Fine(st: State) {
    && FR.Sound(st.book)
    && (forall t: Id :: t < |st.trips| ==> TripOk(st.book, st.trips[t], t))
    && (forall t: Id :: t >= |st.trips| ==> Vacant(st.book, t))
  }

  lemma SparesVacant(b: Book, b': Book, t: Id)
    requires Spares(b, b', t) && Vacant(b, t)
    ensures Vacant(b', t)
  {
  }

  /** A step on trip `t` alone. */
  lemma OneTrip(st: State, st': State, t: Id)
    requires Fine(st) && t < |st.trips| == |st'.trips| && st'.trips == st.trips[t := st'.trips[t]]
    requires FR.Sound(st'.book) && TripOk(st'.book, st'.trips[t], t) && forall s: Id :: s != t ==> Spares(st.book, st'.book, s)
    ensures Fine(st')
  {
    forall s: Id | s < |st'.trips| ensures TripOk(st'.book, st'.trips[s], s) {
      if s != t { SparesKeeps(st.book, st'.book, st.trips[s], s); }
    }
    forall s: Id | s >= |st'.trips| ensures Vacant(st'.book, s) {
      SparesVacant(st.book, st'.book, s);
    }
  }

  lemma SameBook(st: State, st': State, t: Id)
    requires Fine(st) && t < |st.trips| == |st'.trips| && st'.trips == st.trips[t := st'.trips[t]] && st'.book == st.book
    requires TripOk(st.book, st'.trips[t], t)
    ensures Fine(st')
  {
    forall s: Id ensures Spares(st.book, st.book, s) { FF.NothingSpared(st.book, TripIssuance(s), TripReturn(s)); }
    OneTrip(st, st', t);
  }

  lemma ReserveFine(st: State, t: Id, rows: nat, enforced: bool, st': State)
    requires Fine(st) && t < |st.trips| && (Open(st.trips[t]) || st.trips[t].status == Cancelled)
    requires st.trips[t].user.Some? && rows > 0
    requires Reserve(st.book, IssuanceInput(t, st.trips[t], rows, TermsOf(st, st.trips[t]).multiplier), enforced).Ok?
    requires st'.book == Reserve(st.book, IssuanceInput(t, st.trips[t], rows, TermsOf(st, st.trips[t]).multiplier), enforced).value.0
    requires |st'.trips| == |st.trips| && st'.trips == st.trips[t := st'.trips[t]] && Open(st'.trips[t])
    requires st'.trips[t] == QuotedTrip(st.trips[t], st'.trips[t].status, st'.trips[t].bags, rows, TermsOf(st, st.trips[t]).multiplier)
    ensures Fine(st')
  {
    var trip, multiplier := st.trips[t], TermsOf(st, st.trips[t]).multiplier;
    var input := IssuanceInput(t, trip, rows, multiplier);
    TripSameCampaign(st.book, trip, t, rows, multiplier);
    FR.ReserveKeeps(st.book, input, enforced);
    ReserveTripOk(st.book, trip, t, rows, multiplier, enforced, st'.trips[t]);
    forall s: Id | s != t ensures Spares(st.book, st'.book, s) {
      FF.ReserveSpares(st.book, input, enforced, TripIssuance(s), TripReturn(s));
    }
    OneTrip(st, st', t);
  }

  /** Issuing either leaves the book alone, or reserves for every row. */
  lemma IssueShape(st: State, t: Id, count: nat, enforced: bool) returns (st': State, bags: seq<Option<Condition>>)
    requires Issue(st, t, count, enforced).Ok?
    ensures st' == Issue(st, t, count, enforced).value && t < |st.trips| && Open(st.trips[t])
    ensures var trip, terms := st.trips[t], TermsOf(st, st.trips[t]); var rows := |trip.bags| + count;
      if trip.user.None? || rows == 0 || !terms.money
      then st' == st.(trips := st.trips[t := trip.(bags := bags)])
      else
        && Reserve(st.book, IssuanceInput(t, trip, rows, terms.multiplier), enforced).Ok?
        && st'.book == Reserve(st.book, IssuanceInput(t, trip, rows, terms.multiplier), enforced).value.0
        && st' == st.(book := st'.book, trips := st.trips[t := QuotedTrip(trip, trip.status, bags, rows, terms.multiplier)])
  {
    st' := Issue(st, t, count, enforced).value;
    bags := st.trips[t].bags + seq(count, _ => None);
  }

  lemma IssueFine(st: State, t: Id, count: nat, enforced: bool)
    requires Fine(st) && Issue(st, t, count, enforced).Ok?
    ensures Fine(Issue(st, t, count, enforced).value)
  {
    var st', bags := IssueShape(st, t, count, enforced);
    var trip, terms := st.trips[t], TermsOf(st, st.trips[t]);
    var rows := |trip.bags| + count;
    if trip.user.None? || rows == 0 || !terms.money {
      RecordedFine(st, st', t, bags);
    } else {
      ReserveFine(st, t, rows, enforced, st');
    }
  }

  lemma CloseFine(st: State, t: Id, st': State)
    requires Fine(st) && t < |st.trips| && st.trips[t].status != Completed && CloseTrip(st.book, t).Ok?
    requires st'.book == CloseTrip(st.book, t).value && |st'.trips| == |st.trips| && st'.trips == st.trips[t := st'.trips[t]]
    requires var trip, trip' := st.trips[t], st'.trips[t];
      && trip'.user == trip.user && trip'.campaign == trip.campaign && trip'.organization == trip.organization
      && !Open(trip') && TripFits(trip') && trip'.earnings == [] && (trip'.quote.Some? ==> trip.quote.Some?)
    ensures Fine(st')
  {
    CloseTripKeeps(st.book, t);
    CloseTripOk(st.book, st.trips[t], t, st'.trips[t]);
    OneTrip(st, st', t);
  }

  lemma ChangeStatusFine(st: State, t: Id, expected: TripStatus, next: TripStatus, enforced: bool)
    requires Fine(st) && ChangeStatus(st, t, expected, next, enforced).Ok?
    ensures Fine(ChangeStatus(st, t, expected, next, enforced).value)
  {
    var st' := ChangeStatus(st, t, expected, next, enforced).value;
    var trip, terms := st.trips[t], TermsOf(st, st.trips[t]);
    if next == Cancelled {
      CloseFine(st, t, st');
    } else if expected == Cancelled && next == Planned {
      if trip.user.None? || |trip.bags| == 0 || !terms.money {
        SameBook(st, st', t);
      } else {
        ReserveFine(st, t, |trip.bags|, enforced, st');
      }
    }
  }

  lemma CheckInFine(st: State, t: Id)
    requires Fine(st) && CheckIn(st, t).Ok?
    ensures Fine(CheckIn(st, t).value)
  {
    SameBook(st, CheckIn(st, t).value, t);
  }

  /** The completed row a check-out writes. */
  function Done(trip: Trip, bags: seq<Option<Condition>>, earnings: seq<int>, multiplier: Option<int>): Trip {
    trip.(status := Completed, bags := bags, earnings := earnings, priced := Some(Quote(|bags|, Effective(multiplier))))
  }

  /** The three outcomes of a check-out: still open or already closed, completed with an earning, completed without. */
  ghost predicate Recorded(st: State, st': State, t: Id, bags: seq<Option<Condition>>)
    requires t < |st.trips|
  {
    st' == st.(trips := st.trips[t := st.trips[t].(bags := bags)])
  }

  ghost predicate CompletedEarning(st: State, st': State, t: Id, bags: seq<Option<Condition>>, amount: int, cutover: Option<int>)
    requires t < |st.trips| && FR.Sound(st.book)
  {
    var trip, multiplier := st.trips[t], TermsOf(st, st.trips[t]).multiplier;
    && trip.status == Active && 0 <= amount <= IssuanceCeiling(|bags|, multiplier)
    && EarnAndClose(st.book, t, trip, amount, cutover) == Ok(st'.book)
    && st' == st.(book := st'.book, trips := st.trips[t := Done(trip, bags, trip.earnings + [amount], multiplier)])
    && trip.earnings == []
  }

  ghost predicate CompletedClosed(st: State, st': State, t: Id, bags: seq<Option<Condition>>)
    requires t < |st.trips| && FR.Sound(st.book)
  {
    var trip := st.trips[t];
    && trip.status == Active && CloseTrip(st.book, t) == Ok(st'.book)
    && st' == st.(book := st'.book, trips := st.trips[t := Done(trip, bags, trip.earnings, TermsOf(st, trip).multiplier)])
  }

  lemma RefreshShape(st: State, t: Id, bags: seq<Option<Condition>>, c: CheckOut) returns (st': State, amount: int)
    requires FR.Sound(st.book) && t < |st.trips| && Refresh(st, t, bags, c).Ok?
    ensures st' == Refresh(st, t, bags, c).value
    ensures Recorded(st, st', t, bags) || CompletedEarning(st, st', t, bags, amount, c.cutover) || CompletedClosed(st, st', t, bags)
  {
    st' := Refresh(st, t, bags, c).value;
    var trip, terms := st.trips[t], TermsOf(st, st.trips[t]);
    EvaluationBounds(bags, c.appCompleted, terms.money && trip.user.Some?, terms.multiplier);
    amount := Evaluate(bags, c.appCompleted, terms.money && trip.user.Some?, terms.multiplier).reward;
  }

  lemma EarnFine(st: State, st': State, t: Id, bags: seq<Option<Condition>>, amount: int, cutover: Option<int>)
    requires Fine(st) && t < |st.trips| && CompletedEarning(st, st', t, bags, amount, cutover)
    ensures Fine(st')
  {
    var trip, multiplier := st.trips[t], TermsOf(st, st.trips[t]).multiplier;
    assert IssuanceCeiling(|bags|, multiplier) == Cover(st'.trips[t].priced.value);
    EarnAndCloseKeeps(st.book, trip, t, amount, cutover);
    EarnAndCloseOk(st.book, trip, t, amount, cutover, st'.trips[t]);
    OneTrip(st, st', t);
  }

  lemma RecordedFine(st: State, st': State, t: Id, bags: seq<Option<Condition>>)
    requires Fine(st) && t < |st.trips| && Recorded(st, st', t, bags)
    ensures Fine(st')
  {
    assert TripOk(st.book, st.trips[t], t);
    SameBook(st, st', t);
  }

  lemma RefreshFine(st: State, t: Id, bags: seq<Option<Condition>>, c: CheckOut)
    requires Fine(st) && t < |st.trips| && Refresh(st, t, bags, c).Ok?
    ensures Fine(Refresh(st, t, bags, c).value)
  {
    var st', amount := RefreshShape(st, t, bags, c);
    if Recorded(st, st', t, bags) {
      RecordedFine(st, st', t, bags);
    } else if CompletedEarning(st, st', t, bags, amount, c.cutover) {
      EarnFine(st, st', t, bags, amount, c.cutover);
    } else {
      CloseFine(st, t, st');
    }
  }

  lemma CheckOutFine(st: State, t: Id, c: CheckOut)
    requires Fine(st) && CheckOutTrip(st, t, c).Ok?
    ensures Fine(CheckOutTrip(st, t, c).value)
  {
    var reported := ValidateBags(st.trips[t].bags, c.reports).value;
    RefreshFine(st, t, if c.bulk then MarkUnreviewed(reported) else reported, c);
  }

  // ----- other funding traffic ------------------------------------------------------------------------

  /** A transaction of the funding book that is not about a trip. */
  predicate Foreign(b: Book, op: FR.Op) {
    match op
    case ReserveOp(input, _) => !input.key.TripIssuance?
    case EarnOp(source, _, _, key, _, _) => !source.TripIssuance? && !key.TripReturn?
    case ReviewOp(key, source, _, _, _, _) => !source.TripIssuance? && !key.TripReturn?
    case FraudHoldOp(key) => !key.TripReturn?
    case ReleaseOp(i, _, _, _) => i < |b.reservations| ==> !b.reservations[i].key.TripIssuance?
    case _ => true
  }

  lemma OtherUnder(st: State, j: nat, t: Id)
    requires Fine(st) && j < |st.book.commits| && !st.book.commits[j].key.TripReturn?
    ensures !UnderTrip(st.book, st.book.commits[j], t)
  {
    if t < |st.trips| {
      assert TripOk(st.book, st.trips[t], t);
    } else {
      assert Vacant(st.book, t);
    }
  }

  lemma ForeignSpares(st: State, op: FR.Op, t: Id)
    requires Fine(st) && Foreign(st.book, op)
    ensures Spares(st.book, FR.Apply(st.book, op), t)
  {
    if op.ReviewOp? {
      ForeignReview(st, op.key, t);
    }
    FF.ElsewhereSpares(st.book, op, TripIssuance(t), TripReturn(t));
  }

  lemma ForeignReview(st: State, key: EarnKey, t: Id)
    requires Fine(st) && !key.TripReturn?
    ensures FF.TakenElsewhere(st.book, key, TripIssuance(t))
  {
    var found := Find(st.book.commits, CommitKeyed(key));
    if found.Some? {
      assert CommitKeyed(key)(st.book.commits[found.value]);
      OtherUnder(st, found.value, t);
    }
  }

  // ----- runs -----------------------------------------------------------------------------------------

  datatype Op =
    | CreateTrip(user: Option<Id>, campaign: Id, organization: Id, createdAt: int)
    | IssueBags(trip: Id, count: nat, enforced: bool)
    | SetStatus(trip: Id, expected: TripStatus, next: TripStatus, enforced: bool)
    | CheckInTrip(trip: Id)
    | CheckOutBags(trip: Id, checkOut: CheckOut)
    | ChangeTerms(campaign: Id, terms: Terms, enforced: bool, openSessions: bool)
    | OtherFunding(op: FR.Op)

  /** One transaction; a refusal changes nothing. */
  function Apply(st: State, op: Op): State
    requires FR.Sound(st.book)
  {
    match op
    case CreateTrip(user, campaign, organization, createdAt) =>
      st.(trips := st.trips + [Trip(user, campaign, organization, createdAt, Planned, [], [], None, None)])
    case IssueBags(t, count, enforced) => var r := Issue(st, t, count, enforced); if r.Ok? then r.value else st
    case SetStatus(t, expected, next, enforced) => var r := ChangeStatus(st, t, expected, next, enforced); if r.Ok? then r.value else st
    case CheckInTrip(t) => var r := CheckIn(st, t); if r.Ok? then r.value else st
    case CheckOutBags(t, c) => var r := CheckOutTrip(st, t, c); if r.Ok? then r.value else st
    case ChangeTerms(k, terms, enforced, openSessions) =>
      var r := ChangeProgram(st, k, terms, enforced, openSessions); if r.Ok? then r.value else st
    case OtherFunding(other) => st.(book := FR.Apply(st.book, other))
  }

  ghost predicate Allowed(st: State, op: Op) {
    op.OtherFunding? ==> FR.Allowed(st.book, op.op) && Foreign(st.book, op.op)
  }

  lemma StepFine(st: State, op: Op)
    requires Fine(st) && Allowed(st, op)
    ensures Fine(Apply(st, op))
  {
    match op
    case CreateTrip(_, _, _, _) => CreateFine(st, op);
    case IssueBags(t, count, enforced) =>
      if Issue(st, t, count, enforced).Ok? { IssueFine(st, t, count, enforced); }
    case SetStatus(t, expected, next, enforced) =>
      if ChangeStatus(st, t, expected, next, enforced).Ok? { ChangeStatusFine(st, t, expected, next, enforced); }
    case CheckInTrip(t) =>
      if CheckIn(st, t).Ok? { CheckInFine(st, t); }
    case CheckOutBags(t, c) =>
      if CheckOutTrip(st, t, c).Ok? { CheckOutFine(st, t, c); }
    case OtherFunding(other) => OtherFine(st, other);
    case ChangeTerms(_, _, _, _) =>
  }

  lemma CreateFine(st: State, op: Op)
    requires Fine(st) && op.CreateTrip?
    ensures Fine(Apply(st, op))
  {
    var n := |st.trips|;
    assert Vacant(st.book, n);
    assert TripOk(st.book, Apply(st, op).trips[n], n);
  }

  lemma OtherFine(st: State, op: FR.Op)
    requires Fine(st) && FR.Allowed(st.book, op) && Foreign(st.book, op)
    ensures Fine(st.(book := FR.Apply(st.book, op)))
  {
    FR.StepKeeps(st.book, op);
    forall t: Id ensures Spares(st.book, FR.Apply(st.book, op), t) {
      ForeignSpares(st, op, t);
    }
    forall t: Id | t < |st.trips| ensures TripOk(FR.Apply(st.book, op), st.trips[t], t) {
      SparesKeeps(st.book, FR.Apply(st.book, op), st.trips[t], t);
    }
    forall t: Id | t >= |st.trips| ensures Vacant(FR.Apply(st.book, op), t) {
      SparesVacant(st.book, FR.Apply(st.book, op), t);
    }
  }

  ghost predicate Steps(st: State, op: Op, st': State) {
    Fine(st) ==> Allowed(st, op) && st' == Apply(st, op)
  }

  ghost predicate IsRun(states: seq<State>, ops: seq<Op>) {
    && |states| == |ops| + 1 && FR.Empty(states[0].book) && states[0].trips == []
    && forall i :: 0 <= i < |ops| ==> Steps(states[i], ops[i], states[i + 1])
  }

  lemma {:induction false} RunFine(states: seq<State>, ops: seq<Op>, n: nat)
    requires IsRun(states, ops) && n <= |ops|
    ensures Fine(states[n])
  {
    if n > 0 {
      RunFine(states, ops, n - 1);
      assert Steps(states[n - 1], ops[n - 1], states[n - 1 + 1]);
      StepFine(states[n - 1], ops[n - 1]);
    }
  }

  // ----- enforcement: no open program starts paying or raises its multiplier -------------------------

  /** An open money trip is quoted for all its bags at no less than today's multiplier; a paid one was priced within its quote. */
  predicate Quoted(st: State, trip: Trip) {
    && (Open(trip) && trip.user.Some? && TermsOf(st, trip).money && |trip.bags| > 0 ==>
          trip.quote.Some? && trip.quote.value.rows == |trip.bags| && Effective(TermsOf(st, trip).multiplier) <= trip.quote.value.bps)
    && (trip.earnings != [] ==> trip.quote.Some? && trip.priced.Some? && Within(trip.priced.value, trip.quote.value))
    && (trip.status != Completed ==> trip.earnings == [])
  }

  ghost predicate AllQuoted(st: State) { forall t :: 0 <= t < |st.trips| ==> Quoted(st, st.trips[t]) }

  lemma NoBagsNoReward(bags: seq<Option<Condition>>, appCompleted: bool, pays: bool, multiplier: Option<int>)
    ensures Evaluate(bags, appCompleted, pays, multiplier).reward > 0 ==> |bags| > 0 && pays
  {
    EvaluationBounds(bags, appCompleted, pays, multiplier);
  }

  /** A step that writes row `t` only. */
  lemma OneQuoted(st: State, st': State, t: Id)
    requires AllQuoted(st) && st'.terms == st.terms && t < |st.trips| == |st'.trips| && st'.trips == st.trips[t := st'.trips[t]]
    requires Quoted(st, st.trips[t]) ==> Quoted(st', st'.trips[t])
    ensures AllQuoted(st')
  {
    forall s | 0 <= s < |st'.trips| ensures Quoted(st', st'.trips[s]) {
      assert Quoted(st, st.trips[s]);
    }
  }

  /** `st'` differs from `st` in row `t`, which stays quoted. */
  ghost predicate Requoted(st: State, st': State, t: Id) {
    && st'.terms == st.terms && t < |st.trips| == |st'.trips| && st'.trips == st.trips[t := st'.trips[t]]
    && (Quoted(st, st.trips[t]) ==> Quoted(st', st'.trips[t]))
  }

  lemma IssueQuoted(st: State, t: Id, count: nat, enforced: bool)
    requires Issue(st, t, count, enforced).Ok?
    ensures Requoted(st, Issue(st, t, count, enforced).value, t)
  {
  }

  lemma ChangeStatusQuoted(st: State, t: Id, expected: TripStatus, next: TripStatus, enforced: bool)
    requires Wired(st.book) && ChangeStatus(st, t, expected, next, enforced).Ok?
    ensures Requoted(st, ChangeStatus(st, t, expected, next, enforced).value, t)
  {
  }

  lemma CheckOutQuoted(st: State, t: Id, c: CheckOut)
    requires FR.Sound(st.book) && CheckOutTrip(st, t, c).Ok?
    ensures Requoted(st, CheckOutTrip(st, t, c).value, t)
  {
    var reported := ValidateBags(st.trips[t].bags, c.reports).value;
    RefreshQuoted(st, t, if c.bulk then MarkUnreviewed(reported) else reported, c);
  }

  lemma RefreshQuoted(st: State, t: Id, bags: seq<Option<Condition>>, c: CheckOut)
    requires FR.Sound(st.book) && t < |st.trips| && |bags| == |st.trips[t].bags| && Refresh(st, t, bags, c).Ok?
    ensures Requoted(st, Refresh(st, t, bags, c).value, t)
  {
    var trip, terms := st.trips[t], TermsOf(st, st.trips[t]);
    NoBagsNoReward(bags, c.appCompleted, terms.money && trip.user.Some?, terms.multiplier);
  }

  /** A change the guard lets through leaves every open trip with bags within its quote. */
  lemma TermsQuoted(st: State, k: Id, terms: Terms, openSessions: bool, t: Id)
    requires ChangeProgram(st, k, terms, true, openSessions).Ok? && t < |st.trips| && Quoted(st, st.trips[t])
    ensures Quoted(ChangeProgram(st, k, terms, true, openSessions).value, st.trips[t])
  {
    var trip := st.trips[t];
    if trip.campaign == k && Open(trip) && |trip.bags| > 0 {
      assert OpenSource(trip, k);
    }
  }

  lemma StepQuoted(st: State, op: Op)
    requires FR.Sound(st.book) && AllQuoted(st) && (op.ChangeTerms? ==> op.enforced)
    ensures AllQuoted(Apply(st, op))
  {
    var st' := Apply(st, op);
    match op
    case CreateTrip(_, _, _, _) => UnchangedQuoted(st, st');
    case IssueBags(t, count, enforced) =>
      if Issue(st, t, count, enforced).Ok? { IssueQuoted(st, t, count, enforced); OneQuoted(st, st', t); }
    case SetStatus(t, expected, next, enforced) =>
      if ChangeStatus(st, t, expected, next, enforced).Ok? { ChangeStatusQuoted(st, t, expected, next, enforced); OneQuoted(st, st', t); }
    case CheckInTrip(t) =>
      if CheckIn(st, t).Ok? { OneQuoted(st, st', t); }
    case CheckOutBags(t, c) =>
      if CheckOutTrip(st, t, c).Ok? { CheckOutQuoted(st, t, c); OneQuoted(st, st', t); }
    case OtherFunding(_) => UnchangedQuoted(st, st');
    case ChangeTerms(k, terms, _, openSessions) => {
      if ChangeProgram(st, k, terms, true, openSessions).Ok? {
        forall t: nat | t < |st.trips| ensures Quoted(st', st.trips[t]) {
          assert Quoted(st, st.trips[t]);
          TermsQuoted(st, k, terms, openSessions, t);
        }
      }
    }
  }

  /** Trips keep their rows; a new one has no bags yet. */
  lemma UnchangedQuoted(st: State, st': State)
    requires AllQuoted(st) && st'.terms == st.terms && |st.trips| <= |st'.trips| && st'.trips[..|st.trips|] == st.trips
    requires forall t :: |st.trips| <= t < |st'.trips| ==> st'.trips[t].bags == [] && st'.trips[t].earnings == []
    ensures AllQuoted(st')
  {
    forall t | 0 <= t < |st'.trips| ensures Quoted(st', st'.trips[t]) {
      if t < |st.trips| {
        assert st'.trips[t] == st'.trips[..|st.trips|][t];
        assert Quoted(st, st.trips[t]);
      }
    }
  }

  ghost predicate Enforced(ops: seq<Op>) { forall i :: 0 <= i < |ops| && ops[i].ChangeTerms? ==> ops[i].enforced }

  lemma {:induction false} RunQuoted(states: seq<State>, ops: seq<Op>, n: nat)
    requires IsRun(states, ops) && n <= |ops| && Enforced(ops)
    ensures AllQuoted(states[n])
  {
    if n > 0 {
      RunQuoted(states, ops, n - 1);
      RunFine(states, ops, n - 1);
      assert Steps(states[n - 1], ops[n - 1], states[n - 1 + 1]);
      StepQuoted(states[n - 1], ops[n - 1]);
    }
  }

  // ----- results --------------------------------------------------------------------------------------

  /** Obligation `j` is the trip's one return, fully covered, and all that its reservation still stands for. */
  ghost predicate HoldsExactly(b: Book, trip: Trip, t: Id, j: nat) {
    && j < |b.commits| && b.commits[j].key == TripReturn(t)
    && trip.earnings == [b.commits[j].held] && b.commits[j].uncovered == 0
    && (forall k :: 0 <= k < |b.commits| && b.commits[k].key == TripReturn(t) ==> k == j)
    && b.commits[j].reservation < |b.reservations|
    && b.reservations[b.commits[j].reservation].key == TripIssuance(t)
    && b.reservations[b.commits[j].reservation].remaining == 0 && !b.reservations[b.commits[j].reservation].active
    && Sum(b.commits, HeldUnder(b.commits[j].reservation)) == b.commits[j].held
  }

  lemma CompletedHolds(b: Book, trip: Trip, t: Id) returns (j: nat)
    requires Wired(b) && TripOk(b, trip, t) && trip.earnings != [] && trip.quote.Some?
    requires trip.priced.Some? && Within(trip.priced.value, trip.quote.value)
    ensures HoldsExactly(b, trip, t, j)
  {
    j :| 0 <= j < |b.commits| && b.commits[j].key == TripReturn(t);
    var c := b.commits[j];
    assert CommitFits(b, c, trip, t);
    assert ReservationSound(b, b.reservations[c.reservation]);
    assert ReservationFits(b.reservations[c.reservation], trip);
    forall k | 0 <= k < |b.commits| && k != j ensures HeldUnder(c.reservation)(b.commits[k]) == 0 && b.commits[k].key != TripReturn(t) {
      assert b.commits[k].key != b.commits[j].key;
      assert !UnderTrip(b, b.commits[k], t);
    }
    SumSingle(b.commits, j, HeldUnder(c.reservation));
  }

  /**
    Over every run, whatever changes of terms and other funding traffic interleave: a trip earns at most once and
    only when completed; its obligation is uncovered by exactly what exceeds its backing; and if it was priced for
    no more bags at no higher multiplier than were reserved, it holds exactly that one, fully covered, obligation.
   */
  lemma TripReturnsBacked(states: seq<State>, ops: seq<Op>, n: nat, t: Id)
    requires IsRun(states, ops) && n <= |ops| && t < |states[n].trips|
    ensures var trip := states[n].trips[t];
      && |trip.earnings| <= 1 && (trip.earnings != [] ==> trip.status == Completed)
      && (trip.earnings != [] && trip.quote.Some? && trip.priced.Some? && Within(trip.priced.value, trip.quote.value)
          ==> exists j :: HoldsExactly(states[n].book, trip, t, j))
    ensures var b := states[n].book; forall j :: 0 <= j < |b.commits| && b.commits[j].key == TripReturn(t) ==>
      && b.commits[j].reservation < |b.reservations|
      && b.commits[j].uncovered == Max(0, b.commits[j].held - Backing(b.reservations[b.commits[j].reservation], states[n].trips[t]))
  {
    RunFine(states, ops, n);
    var trip, b := states[n].trips[t], states[n].book;
    assert TripOk(b, trip, t);
    forall j | 0 <= j < |b.commits| && b.commits[j].key == TripReturn(t) ensures CommitFits(b, b.commits[j], trip, t) {
    }
    if trip.earnings != [] && trip.quote.Some? && trip.priced.Some? && Within(trip.priced.value, trip.quote.value) {
      var j := CompletedHolds(b, trip, t);
    }
  }

  /**
    Over every run under funding enforcement, whatever terms change and other funding traffic interleave: a trip
    earns at most once, only when completed, and then holds exactly that one, fully covered, obligation.
   */
  lemma TripReturnsCovered(states: seq<State>, ops: seq<Op>, n: nat, t: Id)
    requires IsRun(states, ops) && n <= |ops| && Enforced(ops) && t < |states[n].trips|
    ensures var trip := states[n].trips[t];
      && |trip.earnings| <= 1 && (trip.earnings != [] ==> trip.status == Completed)
      && (trip.earnings != [] ==> exists j :: HoldsExactly(states[n].book, trip, t, j))
  {
    TripReturnsBacked(states, ops, n, t);
    RunQuoted(states, ops, n);
    assert Quoted(states[n], states[n].trips[t]);
  }
}
