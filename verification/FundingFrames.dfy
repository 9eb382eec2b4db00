/**
  Which rows each writer of the funding book touches: a source's reservation and an earning's commit are left
  alone by every transaction about something else.
 */
module FundingFrames {
  import opened Basics
  import opened Sums
  import opened FundingBook
  import opened PayoutAttribution
  import opened FundingRuns

  // ----- which rows each writer touches ---------------------------------------------------------

  lemma ReserveRows(b: Book, input: ReserveInput, enforced: bool)
    requires Reserve(b, input, enforced).Ok?
    ensures var (b', i) := Reserve(b, input, enforced).value;
      && i <= |b.reservations| && i < |b'.reservations|
      && b'.reservations == Put(b.reservations, i, b'.reservations[i]) && b'.commits == b.commits
      && b'.reservations[i].key == input.key && (i < |b.reservations| ==> b.reservations[i].key == input.key)
  {
    ReserveShape(b, input, enforced);
  }

  lemma ResolveRows(b: Book, key: SourceKey, source: Option<Source>, cutover: Option<int>)
    requires ResolveSource(b, key, source, cutover).Ok?
    ensures var (b', resolved) := ResolveSource(b, key, source, cutover).value;
      && b'.commits == b.commits
      && (b'.reservations == b.reservations
          || (|b'.reservations| == |b.reservations| + 1 && b'.reservations[..|b.reservations|] == b.reservations
              && b'.reservations[|b.reservations|].key == key))
      && (resolved.Reserved? ==> resolved.reservation < |b'.reservations| && b'.reservations[resolved.reservation].key == key)
  {
  }

  lemma CommitRows(b: Book, i: nat, key: EarnKey, amount: int, pending: bool)
    requires i < |b.reservations| && Linked(b, b.reservations[i].account, b.reservations[i].campaign)
    requires CommitReward(b, i, key, amount, pending).Ok?
    ensures var (b', c) := CommitReward(b, i, key, amount, pending).value;
      || (c.existing && b' == b)
      || (&& !c.existing && c.commit == |b.commits| && |b'.commits| == |b.commits| + 1 && b'.commits[..|b.commits|] == b.commits
          && b'.commits[|b.commits|].key == key && b'.commits[|b.commits|].reservation == i
          && b'.commits[|b.commits|].held == amount
          && b'.commits[|b.commits|].uncovered == amount - Draw(b.reservations[i], amount)
          && b'.reservations == b.reservations[i := DrawnRow(b.reservations[i], amount)])
  {
  }

  lemma ReleaseRows(b: Book, i: nat, amount: int, close: bool, key: Option<ReleaseKey>)
    requires i < |b.reservations| && Linked(b, b.reservations[i].account, b.reservations[i].campaign)
    requires Release(b, i, amount, close, key).Ok?
    ensures var b' := Release(b, i, amount, close, key).value.0;
      && b'.commits == b.commits && |b'.reservations| == |b.reservations|
      && b'.reservations == b.reservations[i := b'.reservations[i]] && b'.reservations[i].key == b.reservations[i].key
  {
  }

  lemma SettleRows(b: Book, key: EarnKey, target: int, pending: bool, j: nat)
    requires Find(b.commits, CommitKeyed(key)) == Some(j) && CommitLinked(b, b.commits[j])
    requires SettleCommit(b, key, target, pending).Ok?
    ensures var b' := SettleCommit(b, key, target, pending).value.0; var i := b.commits[j].reservation;
      && |b'.reservations| == |b.reservations| && b'.reservations == b.reservations[i := b'.reservations[i]]
      && b'.reservations[i].key == b.reservations[i].key
      && |b'.commits| == |b.commits| && b'.commits == b.commits[j := b'.commits[j]]
      && b'.commits[j].key == b.commits[j].key && b'.commits[j].reservation == i
  {
  }

  // ----- writes that leave a source's rows alone --------------------------------------------------

  predicate SameObligation(c: Commit, d: Commit) {
    c.key == d.key && c.reservation == d.reservation && c.held == d.held && c.uncovered == d.uncovered
  }

  /** The reservation keyed `mine` and the obligation keyed `own` are as before (a payout may have paid part of it). */
  ghost predicate Spares(b: Book, b': Book, mine: SourceKey, own: EarnKey) {
    && |b.reservations| <= |b'.reservations| && |b.commits| <= |b'.commits|
    && (forall i :: 0 <= i < |b.reservations| ==>
          b'.reservations[i].key == b.reservations[i].key
          && (b.reservations[i].key == mine ==> b'.reservations[i] == b.reservations[i]))
    && (forall i :: |b.reservations| <= i < |b'.reservations| ==> b'.reservations[i].key != mine)
    && (forall j :: 0 <= j < |b.commits| ==>
          b'.commits[j].key == b.commits[j].key && b'.commits[j].reservation == b.commits[j].reservation
          && (b.commits[j].key == own ==> SameObligation(b'.commits[j], b.commits[j])))
    && (forall j :: |b.commits| <= j < |b'.commits| ==>
          b'.commits[j].key != own && b'.commits[j].reservation < |b'.reservations|
          && b'.reservations[b'.commits[j].reservation].key != mine)
  }

  lemma SparesTransitive(a: Book, b: Book, c: Book, mine: SourceKey, own: EarnKey)
    requires Spares(a, b, mine, own) && Spares(b, c, mine, own)
    ensures Spares(a, c, mine, own)
  {
  }

  lemma PutSpares(b: Book, b': Book, i: nat, mine: SourceKey, own: EarnKey)
    requires i <= |b.reservations| && i < |b'.reservations| && b'.reservations == Put(b.reservations, i, b'.reservations[i])
    requires b'.commits == b.commits && b'.reservations[i].key != mine
    requires i < |b.reservations| ==> b.reservations[i].key == b'.reservations[i].key
    ensures Spares(b, b', mine, own)
  {
  }

  lemma ReserveSpares(b: Book, input: ReserveInput, enforced: bool, mine: SourceKey, own: EarnKey)
    requires Reserve(b, input, enforced).Ok? && input.key != mine
    ensures Spares(b, Reserve(b, input, enforced).value.0, mine, own)
  {
    ReserveRows(b, input, enforced);
    var (b', i) := Reserve(b, input, enforced).value;
    PutSpares(b, b', i, mine, own);
  }

  lemma ResolveSpares(b: Book, key: SourceKey, source: Option<Source>, cutover: Option<int>, mine: SourceKey, own: EarnKey)
    requires ResolveSource(b, key, source, cutover).Ok? && key != mine
    ensures Spares(b, ResolveSource(b, key, source, cutover).value.0, mine, own)
  {
    ResolveRows(b, key, source, cutover);
  }

  lemma CommitSpares(b: Book, i: nat, key: EarnKey, amount: int, pending: bool, mine: SourceKey, own: EarnKey)
    requires i < |b.reservations| && Linked(b, b.reservations[i].account, b.reservations[i].campaign)
    requires CommitReward(b, i, key, amount, pending).Ok? && key != own && b.reservations[i].key != mine
    ensures Spares(b, CommitReward(b, i, key, amount, pending).value.0, mine, own)
  {
    CommitRows(b, i, key, amount, pending);
  }

  lemma EarnSpares(b: Book, source: SourceKey, stored: Option<Source>, cutover: Option<int>, key: EarnKey, amount: int, pending: bool, mine: SourceKey, own: EarnKey)
    requires Sound(b) && source != mine && key != own
    requires EarnReward(b, source, stored, cutover, key, amount, pending).Ok?
    ensures Spares(b, EarnReward(b, source, stored, cutover, key, amount, pending).value, mine, own)
  {
    ResolveSpares(b, source, stored, cutover, mine, own);
    ResolveRows(b, source, stored, cutover);
    ResolveKeeps(b, source, stored, cutover);
    var (b1, resolved) := ResolveSource(b, source, stored, cutover).value;
    if resolved.Reserved? {
      RowsSound(b1);
      CommitSpares(b1, resolved.reservation, key, amount, pending, mine, own);
      SparesTransitive(b, b1, CommitReward(b1, resolved.reservation, key, amount, pending).value.0, mine, own);
    }
  }

  lemma SettleSpares(b: Book, key: EarnKey, target: int, pending: bool, mine: SourceKey, own: EarnKey, j: nat)
    requires Find(b.commits, CommitKeyed(key)) == Some(j) && CommitLinked(b, b.commits[j])
    requires key != own && b.reservations[b.commits[j].reservation].key != mine
    requires SettleCommit(b, key, target, pending).Ok?
    ensures Spares(b, SettleCommit(b, key, target, pending).value.0, mine, own)
  {
    SettleRows(b, key, target, pending, j);
  }

  lemma ReleaseSpares(b: Book, i: nat, amount: int, close: bool, key: Option<ReleaseKey>, mine: SourceKey, own: EarnKey)
    requires i < |b.reservations| && Linked(b, b.reservations[i].account, b.reservations[i].campaign)
    requires Release(b, i, amount, close, key).Ok? && b.reservations[i].key != mine
    ensures Spares(b, Release(b, i, amount, close, key).value.0, mine, own)
  {
    ReleaseRows(b, i, amount, close, key);
  }

  lemma PayoutSpares(b: Book, redemption: Id, user: Id, gross: int, mine: SourceKey, own: EarnKey)
    requires SettlePayout(b, redemption, user, gross).Ok?
    ensures Spares(b, SettlePayout(b, redemption, user, gross).value.0, mine, own)
  {
    if Find(b.entries, PayoutOfRedemption(redemption)).None? {
      PayoutShape(b, redemption, user, gross);
    }
  }

  lemma PendingSpares(b: Book, key: EarnKey, mine: SourceKey, own: EarnKey)
    ensures Spares(b, MarkPending(b, key), mine, own)
  {
  }

  lemma CashSpares(b: Book, input: CashInput, mine: SourceKey, own: EarnKey)
    requires RecordCash(b, input).Ok?
    ensures Spares(b, RecordCash(b, input).value.0, mine, own)
  {
  }

  lemma NothingSpared(b: Book, mine: SourceKey, own: EarnKey)
    ensures Spares(b, b, mine, own)
  {
  }

  /** The obligation found by `key`, if any, was not taken from the reservation keyed `mine`. */
  predicate TakenElsewhere(b: Book, key: EarnKey, mine: SourceKey) {
    var found := Find(b.commits, CommitKeyed(key));
    found.Some? && b.commits[found.value].reservation < |b.reservations| ==>
      b.reservations[b.commits[found.value].reservation].key != mine
  }

  /** A transaction about another source and another earning. */
  predicate Elsewhere(b: Book, op: Op, mine: SourceKey, own: EarnKey) {
    match op
    case ReserveOp(input, _) => input.key != mine
    case EarnOp(source, _, _, key, _, _) => source != mine && key != own
    case ReviewOp(key, source, _, _, _, _) => source != mine && key != own && TakenElsewhere(b, key, mine)
    case ReleaseOp(i, _, _, _) => i < |b.reservations| ==> b.reservations[i].key != mine
    case _ => true
  }

  lemma ReviewSpares(b: Book, key: EarnKey, source: SourceKey, stored: Option<Source>, cutover: Option<int>, target: Option<int>, pending: bool,
                     mine: SourceKey, own: EarnKey)
    requires Sound(b) && source != mine && key != own && TakenElsewhere(b, key, mine)
    requires SettleOrCommit(b, key, source, stored, cutover, target, pending).Ok?
    ensures Spares(b, SettleOrCommit(b, key, source, stored, cutover, target, pending).value.0, mine, own)
  {
    var existing := Find(b.commits, CommitKeyed(key));
    NothingSpared(b, mine, own);
    if existing.Some? {
      RowsSound(b);
      SettleSpares(b, key, if target.Some? then target.value else b.commits[existing.value].held, pending, mine, own, existing.value);
    } else if target.Some? && target.value > 0 {
      ResolveSpares(b, source, stored, cutover, mine, own);
      ResolveRows(b, source, stored, cutover);
      ResolveKeeps(b, source, stored, cutover);
      var (b1, resolved) := ResolveSource(b, source, stored, cutover).value;
      if resolved.Reserved? {
        RowsSound(b1);
        CommitSpares(b1, resolved.reservation, key, target.value, pending, mine, own);
        SparesTransitive(b, b1, CommitReward(b1, resolved.reservation, key, target.value, pending).value.0, mine, own);
      }
    }
  }

  lemma ReleaseElsewhere(b: Book, i: nat, amount: int, close: bool, key: Option<ReleaseKey>, mine: SourceKey, own: EarnKey)
    requires Sound(b) && Elsewhere(b, ReleaseOp(i, amount, close, key), mine, own)
    ensures Spares(b, Apply(b, ReleaseOp(i, amount, close, key)), mine, own)
  {
    RowsSound(b);
    NothingSpared(b, mine, own);
    if i < |b.reservations| && Release(b, i, amount, close, key).Ok? { ReleaseSpares(b, i, amount, close, key, mine, own); }
  }

  /** Every transaction about something else leaves the source's rows alone. */
  lemma ElsewhereSpares(b: Book, op: Op, mine: SourceKey, own: EarnKey)
    requires Sound(b) && Elsewhere(b, op, mine, own)
    ensures Spares(b, Apply(b, op), mine, own)
  {
    NothingSpared(b, mine, own);
    match op
    case ReserveOp(input, enforced) =>
      if Reserve(b, input, enforced).Ok? { ReserveSpares(b, input, enforced, mine, own); }
    case EarnOp(source, stored, cutover, key, amount, pending) =>
      if EarnReward(b, source, stored, cutover, key, amount, pending).Ok? {
        EarnSpares(b, source, stored, cutover, key, amount, pending, mine, own);
      }
    case ReviewOp(key, source, stored, cutover, target, pending) =>
      if SettleOrCommit(b, key, source, stored, cutover, target, pending).Ok? {
        ReviewSpares(b, key, source, stored, cutover, target, pending, mine, own);
      }
    case FraudHoldOp(key) => PendingSpares(b, key, mine, own);
    case ReleaseOp(i, amount, close, key) => ReleaseElsewhere(b, i, amount, close, key, mine, own);
    case CashOp(input) =>
      if RecordCash(b, input).Ok? { CashSpares(b, input, mine, own); }
    case PayoutOp(redemption, user, gross) =>
      if SettlePayout(b, redemption, user, gross).Ok? { PayoutSpares(b, redemption, user, gross, mine, own); }
  }
}
