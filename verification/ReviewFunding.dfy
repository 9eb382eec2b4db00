/**
  The funding side of a wallet's review decision is the decision of the watermarked session (lib/deposit-review.ts with
  closeWatermarkedSessionIfSettled in lib/reward-funding.ts).
 */
module ReviewFunding {
  import opened Basics
  import opened FundingBook
  import opened FundingRuns
  import opened WalletLedger
  import WR = WalletRuns
  import RX = ReviewExposure

  /** What the wallet settles item k of the session to. */
  function DecisionOf(r: Review, k: nat, refused: bool): RX.Decision {
    RX.Decision(k, if refused then None else Some(r.target))
  }

  /** The close is taken exactly when the settlement left the other undecided items nothing to draw. */
  ghost predicate ClosesWhenSettled(b: Book, s: RX.Session, r: Review, k: nat, refused: bool)
    requires Sound(b) && k < |s.undecided|
  {
    var settled := RX.Settle(b, s, k, DecisionOf(r, k, refused).target);
    settled.Ok? ==> (r.sessionSettled <==> RX.Exposure(settled.value.0, s.cap, RX.Without(s.undecided, k)) == 0)
  }

  /** The session's reservation is found by its key, so a stored source is never needed. */
  lemma SameSettlement(b: Book, s: RX.Session, r: Review, k: nat, target: Option<int>)
    requires RX.Tracked(b, s) && k < |s.undecided| && s.undecided[k] == r.item
    ensures SettleOrCommit(b, ItemEarn(r.item), SessionAdmission(s.id), r.stored, r.cutover, target, false) == RX.Settle(b, s, k, target)
  {
    KeyFoundAt(b, s.reservation);
  }

  lemma SameClose(b: Book, s: RX.Session)
    requires Sound(b) && s.reservation < |b.reservations| && b.reservations[s.reservation].key == SessionAdmission(s.id)
    ensures CloseSession(b, s.id, RX.Exposure(b, s.cap, s.undecided) == 0) == RX.CloseIfSettled(b, s)
  {
    KeyFoundAt(b, s.reservation);
  }

  lemma SettledKeepsReservation(b: Book, s: RX.Session, k: nat, target: Option<int>)
    requires RX.Tracked(b, s) && k < |s.undecided| && RX.Settle(b, s, k, target).Ok?
    ensures var b' := RX.Settle(b, s, k, target).value.0;
      && Sound(b') && s.reservation < |b'.reservations|
      && b'.reservations[s.reservation].key == SessionAdmission(s.id)
  {
    SettleOrCommitKeeps(b, ItemEarn(s.undecided[k]), SessionAdmission(s.id), None, None, target, false);
    RX.SettleCases(b, s, k, target);
    var found := Find(b.commits, CommitKeyed(ItemEarn(s.undecided[k])));
    if found.Some? {
      RX.SettleFound(b, ItemEarn(s.undecided[k]), if target.Some? then target.value else b.commits[found.value].held, found.value);
    } else if target.Some? && target.value > 0 {
      RX.CommitNew(b, s.reservation, ItemEarn(s.undecided[k]), target.value);
    }
  }

  /** Same book, same errors. */
  lemma SameDecision(b: Book, s: RX.Session, r: Review, k: nat, refused: bool)
    requires RX.Tracked(b, s) && k < |s.undecided| && s.undecided[k] == r.item && ClosesWhenSettled(b, s, r, k, refused)
    ensures var funded, decided := SettleFunding(b, r, s.id, refused), RX.Decide(b, s, DecisionOf(r, k, refused));
      if decided.Ok? then funded == Ok(decided.value.0) else funded == Err(decided.error)
  {
    var target := DecisionOf(r, k, refused).target;
    SameSettlement(b, s, r, k, target);
    var settled := RX.Settle(b, s, k, target);
    if settled.Ok? {
      SettledKeepsReservation(b, s, k, target);
      SameClose(settled.value.0, s.(undecided := RX.Without(s.undecided, k)));
    }
  }

  /** The whole wallet decision on item k: its book is the one the session's decision leaves. */
  lemma DecisionFunded(w: Wallet, s: RX.Session, r: Review, k: nat)
    requires RX.Tracked(w.book, s) && k < |s.undecided| && s.undecided[k] == r.item
    requires DecideReview(w, r).Ok? && DecideReview(w, r).value.1.Decided? && w.items[r.item].session == s.id
    requires ClosesWhenSettled(w.book, s, r, k, DecideReview(w, r).value.1.refused)
    ensures var (w', outcome) := DecideReview(w, r).value; var d := DecisionOf(r, k, outcome.refused);
      RX.Decide(w.book, s, d).Ok? && w'.book == RX.Decide(w.book, s, d).value.0
  {
    WR.DecideShape(w, r);
    SameDecision(w.book, s, r, k, DecideReview(w, r).value.1.refused);
  }

  /** A wallet decision within the cap adds nothing uncovered, and the session keeps enough for the rest. */
  lemma DecisionCoveredInWallet(w: Wallet, s: RX.Session, r: Review, k: nat)
    requires WR.Safe(w) && RX.Tracked(w.book, s) && RX.Enough(w.book, s) && k < |s.undecided| && s.undecided[k] == r.item
    requires DecideReview(w, r).Ok? && DecideReview(w, r).value.1.Decided? && w.items[r.item].session == s.id
    requires ClosesWhenSettled(w.book, s, r, k, DecideReview(w, r).value.1.refused) && r.target <= s.cap
    ensures var w' := DecideReview(w, r).value.0; var s' := s.(undecided := RX.Without(s.undecided, k));
      && WR.Safe(w') && RX.Tracked(w'.book, s') && RX.Enough(w'.book, s')
      && RX.TotalUncovered(w'.book) == RX.TotalUncovered(w.book)
  {
    WR.ReviewKeeps(w, r);
    DecisionFunded(w, s, r, k);
    RX.DecisionCovered(w.book, s, DecisionOf(r, k, DecideReview(w, r).value.1.refused));
  }
}
