/**
  What the close watermark keeps is enough for every review still to come (sessionReviewExposure and
  closeWatermarkedSessionIfSettled in lib/reward-funding.ts).
 */
module ReviewExposure {
  import opened Basics
  import opened Sums
  import opened FundingBook
  import opened FundingRuns

  /** What is already committed for an item. */
  function HeldFor(b: Book, item: Id): int {
    var found := Find(b.commits, CommitKeyed(ItemEarn(item)));
    if found.Some? then b.commits[found.value].held else 0
  }

  /** What one undecided item can still draw at the snapshot cap. */
  function Exposed(b: Book, cap: int, item: Id): int { Max(0, cap - HeldFor(b, item)) }

  function ItemExposure(b: Book, cap: int): Id -> int { (item: Id) => Exposed(b, cap, item) }

  function Exposure(b: Book, cap: int, undecided: seq<Id>): int { Sum(undecided, ItemExposure(b, cap)) }

  function TotalUncovered(b: Book): int { Sum(b.commits, Uncovered) }

  predicate Distinct(ids: seq<Id>) { forall i, j :: 0 <= i < j < |ids| ==> ids[i] != ids[j] }

  /** A watermarked session: its reservation, the snapshot's largest cap, its undecided accepted items. */
  datatype Session = Session(id: Id, reservation: nat, cap: nat, undecided: seq<Id>)

  /** The session's reservation exists and every commit of an undecided item was taken against it. */
  ghost predicate Tracked(b: Book, s: Session) {
    && Sound(b) && Distinct(s.undecided)
    && s.reservation < |b.reservations| && b.reservations[s.reservation].key == SessionAdmission(s.id)
    && (forall i :: 0 <= i < |s.undecided| ==> TakenFrom(b, s.reservation, s.undecided[i]))
  }

  predicate TakenFrom(b: Book, reservation: nat, item: Id) {
    var found := Find(b.commits, CommitKeyed(ItemEarn(item)));
    found.Some? ==> b.commits[found.value].reservation == reservation
  }

  /** While the reservation is open it keeps the exposure; once closed there is none. */
  ghost predicate Enough(b: Book, s: Session)
    requires s.reservation < |b.reservations|
  {
    if b.reservations[s.reservation].active
    then b.reservations[s.reservation].remaining >= Exposure(b, s.cap, s.undecided)
    else Exposure(b, s.cap, s.undecided) == 0
  }

  // ----- the review decision --------------------------------------------------------------------

  function Without(ids: seq<Id>, k: nat): seq<Id>
    requires k < |ids|
  {
    ids[..k] + ids[k + 1..]
  }

  /** Settles item k of the session to `target` (none: the decision was refused into a case). */
  function Settle(b: Book, s: Session, k: nat, target: Option<int>): Result<(Book, Option<nat>), FundingError>
    requires Sound(b) && k < |s.undecided|
  {
    SettleOrCommit(b, ItemEarn(s.undecided[k]), SessionAdmission(s.id), None, None, target, false)
  }

  /** Once no exposure is left the reservation's remainder closes, keyed per session. */
  function CloseIfSettled(b: Book, s: Session): Result<Book, FundingError>
    requires Wired(b) && s.reservation < |b.reservations|
  {
    if !b.reservations[s.reservation].active || Exposure(b, s.cap, s.undecided) != 0 then Ok(b)
    else
      assert ReservationSound(b, b.reservations[s.reservation]);
      var (b', _, _) :- Release(b, s.reservation, b.reservations[s.reservation].remaining, true, Some(ReviewClose(s.id)));
      Ok(b')
  }

  // ----- how a settlement moves the exposure ----------------------------------------------------

  /** What settling an existing commit does to its rows. */
  lemma SettleFound(b: Book, key: EarnKey, target: int, j: nat)
    requires Find(b.commits, CommitKeyed(key)) == Some(j) && CommitSound(b, b.commits[j])
    requires ReservationSound(b, b.reservations[b.commits[j].reservation])
    requires SettleCommit(b, key, target, false).Ok?
    ensures var b' := SettleCommit(b, key, target, false).value.0;
            var c := b.commits[j];
            var delta := Max(0, Max(target, c.paid) - c.held);
            var r := b.reservations[c.reservation];
            && b'.reservations == b.reservations[c.reservation := DrawnRow(r, delta)]
            && b'.commits == b.commits[j := b'.commits[j]] && b'.commits[j].key == c.key
            && b'.commits[j].held == Max(target, c.paid)
            && b'.commits[j].uncovered == c.uncovered + delta - Draw(r, delta)
  {
    var r := b.reservations[b.commits[j].reservation];
    assert b.reservations[b.commits[j].reservation := DrawnRow(r, 0)] == b.reservations;
  }

  /** What committing a new earning does to the rows. */
  lemma CommitNew(b: Book, i: nat, key: EarnKey, amount: int)
    requires i < |b.reservations| && ReservationSound(b, b.reservations[i])
    requires Find(b.commits, CommitKeyed(key)).None? && CommitReward(b, i, key, amount, false).Ok?
    ensures var b' := CommitReward(b, i, key, amount, false).value.0;
            var r := b.reservations[i];
            && b'.reservations == b.reservations[i := DrawnRow(r, amount)]
            && b'.commits == b.commits + [b'.commits[|b.commits|]] && b'.commits[|b.commits|].key == key
            && b'.commits[|b.commits|].uncovered == amount - Draw(r, amount)
  {
  }

  /** The three ways a decision settles an item, in terms of the session's own reservation. */
  lemma SettleCases(b: Book, s: Session, k: nat, target: Option<int>)
    requires Tracked(b, s) && k < |s.undecided|
    requires Settle(b, s, k, target).Ok?
    ensures var item := s.undecided[k];
            var found := Find(b.commits, CommitKeyed(ItemEarn(item)));
            var b' := Settle(b, s, k, target).value.0;
            if found.Some? then
              var goal := if target.Some? then target.value else b.commits[found.value].held;
              && CommitSound(b, b.commits[found.value]) && b.commits[found.value].reservation == s.reservation
              && SettleCommit(b, ItemEarn(item), goal, false).Ok? && b' == SettleCommit(b, ItemEarn(item), goal, false).value.0
            else if target.Some? && target.value > 0 then
              && CommitReward(b, s.reservation, ItemEarn(item), target.value, false).Ok?
              && b' == CommitReward(b, s.reservation, ItemEarn(item), target.value, false).value.0
            else b' == b
    ensures ReservationSound(b, b.reservations[s.reservation])
  {
    RowsSound(b);
    KeyFoundAt(b, s.reservation);
    assert TakenFrom(b, s.reservation, s.undecided[k]);
  }

  /** Settling to at most the cap draws at most the item's own exposure. */
  lemma SettledDraw(b: Book, s: Session, k: nat, target: Option<int>)
    requires Tracked(b, s) && Enough(b, s) && k < |s.undecided|
    requires target.Some? ==> target.value <= s.cap
    requires Settle(b, s, k, target).Ok?
    ensures var b' := Settle(b, s, k, target).value.0;
            && |b'.reservations| == |b.reservations|
            && SameSource(b.reservations[s.reservation], b'.reservations[s.reservation])
            && b'.reservations[s.reservation].active == b.reservations[s.reservation].active
            && b'.reservations[s.reservation].remaining
               >= b.reservations[s.reservation].remaining - ItemExposure(b, s.cap)(s.undecided[k])
            && TotalUncovered(b') == TotalUncovered(b)
  {
    SettleCases(b, s, k, target);
    var item := s.undecided[k];
    ExposureCoversItem(b, s, k);
    var found := Find(b.commits, CommitKeyed(ItemEarn(item)));
    var b' := Settle(b, s, k, target).value.0;
    if found.Some? {
      var goal := if target.Some? then target.value else b.commits[found.value].held;
      SettleFound(b, ItemEarn(item), goal, found.value);
      SumUpdate(b.commits, found.value, b'.commits[found.value], Uncovered);
    } else if target.Some? && target.value > 0 {
      CommitNew(b, s.reservation, ItemEarn(item), target.value);
      SumAppend(b.commits, b'.commits[|b.commits|], Uncovered);
    }
  }

  lemma ExposureCoversItem(b: Book, s: Session, k: nat)
    requires k < |s.undecided|
    ensures 0 <= ItemExposure(b, s.cap)(s.undecided[k]) <= Exposure(b, s.cap, s.undecided)
  {
    SumAtLeastOne(s.undecided, k, ItemExposure(b, s.cap));
  }

  /** Other items keep their commits. */
  lemma OthersUnmoved(b: Book, s: Session, k: nat, target: Option<int>, item: Id)
    requires Tracked(b, s) && k < |s.undecided| && item != s.undecided[k]
    requires Settle(b, s, k, target).Ok?
    ensures var b' := Settle(b, s, k, target).value.0;
            && HeldFor(b', item) == HeldFor(b, item)
            && (TakenFrom(b, s.reservation, item) ==> TakenFrom(b', s.reservation, item))
  {
    SettleCases(b, s, k, target);
    var b' := Settle(b, s, k, target).value.0;
    var found := Find(b.commits, CommitKeyed(ItemEarn(s.undecided[k])));
    if found.Some? {
      var goal := if target.Some? then target.value else b.commits[found.value].held;
      SettleFound(b, ItemEarn(s.undecided[k]), goal, found.value);
      CommitLookup(b.commits, found.value, b'.commits[found.value], item);
    } else if target.Some? && target.value > 0 {
      CommitNew(b, s.reservation, ItemEarn(s.undecided[k]), target.value);
      CommitLookup(b.commits, |b.commits|, b'.commits[|b.commits|], item);
    }
  }

  /** Writing another item's commit does not move a lookup. */
  lemma CommitLookup(cs: seq<Commit>, j: nat, c: Commit, item: Id)
    requires j <= |cs| && c.key != ItemEarn(item) && (j < |cs| ==> cs[j].key == c.key)
    requires forall i, j :: 0 <= i < j < |cs| ==> cs[i].key != cs[j].key
    ensures var found, found' := Find(cs, CommitKeyed(ItemEarn(item))), Find(Put(cs, j, c), CommitKeyed(ItemEarn(item)));
            found == found' && (found.Some? ==> cs[found.value] == Put(cs, j, c)[found.value])
  {
    var keyed := CommitKeyed(ItemEarn(item));
    var found := Find(cs, keyed);
    if found.Some? {
      FindOnly(Put(cs, j, c), keyed, found.value);
    } else {
      assert forall m :: 0 <= m < |Put(cs, j, c)| ==> !keyed(Put(cs, j, c)[m]);
    }
  }

  lemma {:induction false} SumWithout(ids: seq<Id>, k: nat, f: Id -> int)
    requires k < |ids|
    ensures Sum(Without(ids, k), f) == Sum(ids, f) - f(ids[k])
  {
    var n := |ids| - 1;
    if k == n {
      assert Without(ids, k) == ids[..n];
    } else {
      SumWithout(ids[..n], k, f);
      assert Without(ids, k)[..|Without(ids, k)| - 1] == Without(ids[..n], k);
    }
  }

  /** An item still undecided after the decision keeps its commit, hence its exposure. */
  lemma RestItem(b: Book, s: Session, k: nat, target: Option<int>, at: nat, b': Book)
    requires Tracked(b, s) && k < |s.undecided| && at < |s.undecided| && at != k
    requires Settle(b, s, k, target).Ok? && b' == Settle(b, s, k, target).value.0
    ensures Exposed(b', s.cap, s.undecided[at]) == Exposed(b, s.cap, s.undecided[at]) && TakenFrom(b', s.reservation, s.undecided[at])
  {
    assert TakenFrom(b, s.reservation, s.undecided[at]);
    OthersUnmoved(b, s, k, target, s.undecided[at]);
  }

  lemma RestExposure(b: Book, s: Session, k: nat, target: Option<int>, b': Book)
    requires Tracked(b, s) && k < |s.undecided|
    requires Settle(b, s, k, target).Ok? && b' == Settle(b, s, k, target).value.0
    ensures Exposure(b', s.cap, Without(s.undecided, k)) == Exposure(b, s.cap, s.undecided) - ItemExposure(b, s.cap)(s.undecided[k])
    ensures forall i :: 0 <= i < |Without(s.undecided, k)| ==> TakenFrom(b', s.reservation, Without(s.undecided, k)[i])
  {
    var rest := Without(s.undecided, k);
    forall i | 0 <= i < |rest|
      ensures ItemExposure(b', s.cap)(rest[i]) == ItemExposure(b, s.cap)(rest[i]) && TakenFrom(b', s.reservation, rest[i])
    {
      var at := if i < k then i else i + 1;
      assert rest[i] == s.undecided[at];
      RestItem(b, s, k, target, at, b');
    }
    SumSame(rest, ItemExposure(b', s.cap), ItemExposure(b, s.cap));
    SumWithout(s.undecided, k, ItemExposure(b, s.cap));
  }

  // ----- exactly what a decision leaves uncovered -----------------------------------------------

  /** By how much settling an item to `target` raises its obligation. */
  function Raise(b: Book, item: Id, target: Option<int>): int {
    var found := Find(b.commits, CommitKeyed(ItemEarn(item)));
    if target.None? then 0
    else if found.Some? then Max(0, Max(target.value, b.commits[found.value].paid) - b.commits[found.value].held)
    else Max(0, target.value)
  }

  /** What the session's reservation can still give. */
  function Left(b: Book, s: Session): int
    requires s.reservation < |b.reservations|
  {
    if b.reservations[s.reservation].active then b.reservations[s.reservation].remaining else 0
  }

  /** For any target, in or out of the cap: uncovered grows by exactly what the raise exceeds the reservation by. */
  lemma SettlementUncovered(b: Book, s: Session, k: nat, target: Option<int>)
    requires Tracked(b, s) && k < |s.undecided| && Settle(b, s, k, target).Ok?
    ensures var b' := Settle(b, s, k, target).value.0; var excess := Raise(b, s.undecided[k], target) - Left(b, s);
      && TotalUncovered(b') == TotalUncovered(b) + Max(0, excess)
      && (TotalUncovered(b') == TotalUncovered(b) <==> Raise(b, s.undecided[k], target) <= Left(b, s))
  {
    SettleCases(b, s, k, target);
    var item := s.undecided[k];
    var found := Find(b.commits, CommitKeyed(ItemEarn(item)));
    var b' := Settle(b, s, k, target).value.0;
    if found.Some? {
      var goal := if target.Some? then target.value else b.commits[found.value].held;
      SettleFound(b, ItemEarn(item), goal, found.value);
      SumUpdate(b.commits, found.value, b'.commits[found.value], Uncovered);
    } else if target.Some? && target.value > 0 {
      CommitNew(b, s.reservation, ItemEarn(item), target.value);
      SumAppend(b.commits, b'.commits[|b.commits|], Uncovered);
    }
  }

  // ----- decisions ------------------------------------------------------------------------------

  datatype Decision = Decision(k: nat, target: Option<int>)

  /** One review decision: settle the item, then close the reservation if nothing is left to draw. */
  function Decide(b: Book, s: Session, d: Decision): Result<(Book, Session), FundingError>
    requires Tracked(b, s) && d.k < |s.undecided|
  {
    var (b1, _) :- Settle(b, s, d.k, d.target);
    var s1 := s.(undecided := Without(s.undecided, d.k));
    SettleOrCommitKeeps(b, ItemEarn(s.undecided[d.k]), SessionAdmission(s.id), None, None, d.target, false);
    SettleLength(b, s, d.k, d.target);
    var b2 :- CloseIfSettled(b1, s1);
    Ok((b2, s1))
  }

  lemma SettleLength(b: Book, s: Session, k: nat, target: Option<int>)
    requires Tracked(b, s) && k < |s.undecided|
    requires Settle(b, s, k, target).Ok?
    ensures |Settle(b, s, k, target).value.0.reservations| == |b.reservations|
  {
    SettleCases(b, s, k, target);
    var found := Find(b.commits, CommitKeyed(ItemEarn(s.undecided[k])));
    if found.Some? {
      SettleFound(b, ItemEarn(s.undecided[k]), if target.Some? then target.value else b.commits[found.value].held, found.value);
    } else if target.Some? && target.value > 0 {
      CommitNew(b, s.reservation, ItemEarn(s.undecided[k]), target.value);
    }
  }

  lemma CloseShape(b: Book, s: Session)
    requires Wired(b) && s.reservation < |b.reservations|
    requires CloseIfSettled(b, s).Ok?
    ensures var b' := CloseIfSettled(b, s).value;
            || b' == b
            || (&& b.reservations[s.reservation].active && Exposure(b, s.cap, s.undecided) == 0
                && b'.commits == b.commits && |b'.reservations| == |b.reservations|
                && SameSource(b.reservations[s.reservation], b'.reservations[s.reservation])
                && (b'.reservations[s.reservation].active ==> b' == b))
  {
  }

  lemma CloseSound(b: Book, s: Session)
    requires Sound(b) && s.reservation < |b.reservations| && CloseIfSettled(b, s).Ok?
    ensures Sound(CloseIfSettled(b, s).value)
  {
    RowsSound(b);
    if b.reservations[s.reservation].active && Exposure(b, s.cap, s.undecided) == 0 {
      ReleaseKeeps(b, s.reservation, b.reservations[s.reservation].remaining, true, Some(ReviewClose(s.id)));
    }
  }

  lemma SameCommitsSameExposure(b: Book, b': Book, s: Session)
    requires b'.commits == b.commits
    ensures Exposure(b', s.cap, s.undecided) == Exposure(b, s.cap, s.undecided)
    ensures forall i :: 0 <= i < |s.undecided| ==> (TakenFrom(b, s.reservation, s.undecided[i]) <==> TakenFrom(b', s.reservation, s.undecided[i]))
  {
    SumSame(s.undecided, ItemExposure(b, s.cap), ItemExposure(b', s.cap));
  }

  lemma CloseKeepsEnough(b: Book, s: Session)
    requires Tracked(b, s) && Enough(b, s) && CloseIfSettled(b, s).Ok?
    ensures var b' := CloseIfSettled(b, s).value;
            Tracked(b', s) && Enough(b', s) && TotalUncovered(b') == TotalUncovered(b)
  {
    CloseShape(b, s);
    CloseSound(b, s);
    SameCommitsSameExposure(b, CloseIfSettled(b, s).value, s);
  }

  /** Any book that drew at most item k's exposure keeps enough for the rest. */
  lemma EnoughWithout(b: Book, b': Book, s: Session, k: nat)
    requires s.reservation < |b.reservations| == |b'.reservations| && Enough(b, s) && k < |s.undecided|
    requires b'.reservations[s.reservation].active == b.reservations[s.reservation].active
    requires b'.reservations[s.reservation].remaining
             >= b.reservations[s.reservation].remaining - ItemExposure(b, s.cap)(s.undecided[k])
    requires Exposure(b', s.cap, Without(s.undecided, k))
             == Exposure(b, s.cap, s.undecided) - ItemExposure(b, s.cap)(s.undecided[k])
    ensures Enough(b', s.(undecided := Without(s.undecided, k)))
  {
    SumNonNegative(Without(s.undecided, k), ItemExposure(b', s.cap));
  }

  lemma TrackedWithout(b: Book, b': Book, s: Session, k: nat)
    requires Tracked(b, s) && Sound(b') && k < |s.undecided|
    requires s.reservation < |b'.reservations| && SameSource(b.reservations[s.reservation], b'.reservations[s.reservation])
    requires forall i :: 0 <= i < |Without(s.undecided, k)| ==> TakenFrom(b', s.reservation, Without(s.undecided, k)[i])
    ensures Tracked(b', s.(undecided := Without(s.undecided, k)))
  {
  }

  /** Settling within the cap adds nothing uncovered and keeps what the rest can still draw. */
  lemma SettledKeepsEnough(b: Book, s: Session, k: nat, target: Option<int>, b': Book)
    requires Tracked(b, s) && Enough(b, s) && k < |s.undecided|
    requires target.Some? ==> target.value <= s.cap
    requires Settle(b, s, k, target).Ok? && Settle(b, s, k, target).value.0 == b'
    ensures Tracked(b', s.(undecided := Without(s.undecided, k)))
    ensures Enough(b', s.(undecided := Without(s.undecided, k)))
    ensures TotalUncovered(b') == TotalUncovered(b)
  {
    assert Sound(b') by {
      SettleOrCommitKeeps(b, ItemEarn(s.undecided[k]), SessionAdmission(s.id), None, None, target, false);
    }
    SettledDraw(b, s, k, target);
    RestExposure(b, s, k, target, b');
    EnoughWithout(b, b', s, k);
    TrackedWithout(b, b', s, k);
  }

  /** One decision within the cap adds nothing uncovered and keeps what the rest can still draw. */
  lemma DecisionCovered(b: Book, s: Session, d: Decision)
    requires Tracked(b, s) && Enough(b, s) && d.k < |s.undecided|
    requires d.target.Some? ==> d.target.value <= s.cap
    requires Decide(b, s, d).Ok?
    ensures var (b', s') := Decide(b, s, d).value;
            Tracked(b', s') && Enough(b', s') && TotalUncovered(b') == TotalUncovered(b)
  {
    SettledKeepsEnough(b, s, d.k, d.target, Settle(b, s, d.k, d.target).value.0);
    CloseKeepsEnough(Settle(b, s, d.k, d.target).value.0, s.(undecided := Without(s.undecided, d.k)));
  }

  /** The same for a whole decision: closing the reservation leaves nothing uncovered. */
  lemma DecisionUncovered(b: Book, s: Session, d: Decision)
    requires Tracked(b, s) && d.k < |s.undecided| && Decide(b, s, d).Ok?
    ensures var b' := Decide(b, s, d).value.0; var excess := Raise(b, s.undecided[d.k], d.target) - Left(b, s);
      && TotalUncovered(b') == TotalUncovered(b) + Max(0, excess)
      && (TotalUncovered(b') == TotalUncovered(b) <==> Raise(b, s.undecided[d.k], d.target) <= Left(b, s))
  {
    SettlementUncovered(b, s, d.k, d.target);
    SettleLength(b, s, d.k, d.target);
    var b1 := Settle(b, s, d.k, d.target).value.0;
    SettleOrCommitKeeps(b, ItemEarn(s.undecided[d.k]), SessionAdmission(s.id), None, None, d.target, false);
    CloseShape(b1, s.(undecided := Without(s.undecided, d.k)));
  }

  /** A run of decisions on a watermarked session, each on an item still undecided at its turn. */
  ghost predicate IsReview(states: seq<(Book, Session)>, decisions: seq<Decision>) {
    && |states| == |decisions| + 1
    && (forall i :: 0 <= i < |decisions| ==> Reviewed(states[i], decisions[i], states[i + 1]))
  }

  ghost predicate Reviewed(before: (Book, Session), d: Decision, after: (Book, Session)) {
    Tracked(before.0, before.1) ==>
      && d.k < |before.1.undecided|
      && after == (if Decide(before.0, before.1, d).Ok? then Decide(before.0, before.1, d).value else before)
  }

  ghost predicate Good(state: (Book, Session), cap: nat) {
    Tracked(state.0, state.1) && Enough(state.0, state.1) && state.1.cap == cap
  }

  /** What one in-cap decision does to a good state. */
  ghost predicate StaysCovered(before: (Book, Session), after: (Book, Session), cap: nat) {
    Good(before, cap) ==> Good(after, cap) && TotalUncovered(after.0) == TotalUncovered(before.0)
  }

  lemma ReviewStep(before: (Book, Session), d: Decision, after: (Book, Session), cap: nat)
    requires Reviewed(before, d, after) && (d.target.Some? ==> d.target.value <= cap)
    ensures StaysCovered(before, after, cap)
  {
    if Good(before, cap) && Decide(before.0, before.1, d).Ok? {
      DecisionCovered(before.0, before.1, d);
    }
  }

  lemma {:induction false} ChainCovered(states: seq<(Book, Session)>, cap: nat, n: nat)
    requires n < |states| && Good(states[0], cap)
    requires forall i :: 0 <= i < n ==> StaysCovered(states[i], states[i + 1], cap)
    ensures Good(states[n], cap) && TotalUncovered(states[n].0) == TotalUncovered(states[0].0)
  {
    if n > 0 {
      ChainCovered(states, cap, n - 1);
      assert StaysCovered(states[n - 1], states[n - 1 + 1], cap);
    }
  }

  /** Review exposure is enough: every in-cap run of decisions adds zero uncovered rupiah. */
  lemma ReviewsCovered(states: seq<(Book, Session)>, decisions: seq<Decision>, cap: nat, n: nat)
    requires IsReview(states, decisions) && n <= |decisions| && Good(states[0], cap)
    requires forall i :: 0 <= i < |decisions| && decisions[i].target.Some? ==> decisions[i].target.value <= cap
    ensures Good(states[n], cap) && TotalUncovered(states[n].0) == TotalUncovered(states[0].0)
  {
    forall i | 0 <= i < n ensures StaysCovered(states[i], states[i + 1], cap) {
      ReviewStep(states[i], decisions[i], states[i + 1], cap);
    }
    ChainCovered(states, cap, n);
  }

  /** After the close at exposure 0, an in-cap decision draws nothing and holds nothing more. */
  lemma NothingAfterClose(b: Book, s: Session, k: nat, target: Option<int>)
    requires Tracked(b, s) && Enough(b, s) && k < |s.undecided|
    requires !b.reservations[s.reservation].active
    requires target.Some? ==> target.value <= s.cap
    requires Settle(b, s, k, target).Ok?
    ensures var b' := Settle(b, s, k, target).value.0;
            && b'.reservations == b.reservations && TotalUncovered(b') == TotalUncovered(b)
            && HeldFor(b', s.undecided[k]) <= HeldFor(b, s.undecided[k])
  {
    SettledDraw(b, s, k, target);
    SettleCases(b, s, k, target);
    ExposureCoversItem(b, s, k);
    var item := s.undecided[k];
    var found := Find(b.commits, CommitKeyed(ItemEarn(item)));
    var b' := Settle(b, s, k, target).value.0;
    if found.Some? {
      SettleFound(b, ItemEarn(item), if target.Some? then target.value else b.commits[found.value].held, found.value);
      assert b'.reservations == b.reservations;
      SameLookup(b.commits, b'.commits, item, found.value);
    }
  }

  lemma SameLookup(cs: seq<Commit>, cs': seq<Commit>, item: Id, j: nat)
    requires j < |cs| == |cs'| && Find(cs, CommitKeyed(ItemEarn(item))) == Some(j)
    requires forall i :: 0 <= i < |cs| ==> cs'[i].key == cs[i].key
    requires forall i, k :: 0 <= i < k < |cs| ==> cs[i].key != cs[k].key
    ensures Find(cs', CommitKeyed(ItemEarn(item))) == Some(j)
  {
    assert CommitKeyed(ItemEarn(item))(cs'[j]);
    var found := Find(cs', CommitKeyed(ItemEarn(item)));
    assert CommitKeyed(ItemEarn(item))(cs'[found.value]);
  }
}
