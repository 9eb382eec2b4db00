/** A retried request under the same key writes nothing a second time. */
module FundingReplay {
  import opened Basics
  import opened Sums
  import opened FundingBook
  import opened FundingRuns

  lemma CommitFoundAt(b: Book, j: nat)
    requires Wired(b) && j < |b.commits|
    ensures Find(b.commits, CommitKeyed(b.commits[j].key)) == Some(j)
  {
    var keyed := CommitKeyed(b.commits[j].key);
    assert keyed(b.commits[j]);
    assert keyed(b.commits[Find(b.commits, keyed).value]);
  }

  /** The reservation a request was admitted under. */
  lemma ReservedFor(b: Book, input: ReserveInput, enforced: bool)
    requires Reserve(b, input, enforced).Ok?
    ensures var (b', i) := Reserve(b, input, enforced).value;
      && i < |b'.reservations| && input.organization in b'.accounts && (input.campaign.Some? ==> input.campaign.value in b'.campaigns)
      && b'.organizations == b.organizations && b'.campaigns.Keys == b.campaigns.Keys
      && (input.campaign.Some? ==> b'.campaigns[input.campaign.value].organization == input.organization)
      && var r := b'.reservations[i];
         r.key == input.key && r.account == input.organization && r.user == input.user && r.active && r.ceiling >= input.ceiling
  {
    ReserveShape(b, input, enforced);
  }

  /** Reserving again for the same source gives the same reservation and changes nothing. */
  lemma ReserveReplay(b: Book, input: ReserveInput, enforced: bool)
    requires Sound(b) && SameCampaign(b, input) && Reserve(b, input, enforced).Ok?
    ensures var (b', i) := Reserve(b, input, enforced).value; Reserve(b', input, enforced) == Ok((b', i))
  {
    ReserveKeeps(b, input, enforced);
    ReservedFor(b, input, enforced);
    var (b', i) := Reserve(b, input, enforced).value;
    KeyFoundAt(b', i);
  }

  /** A new commit holds the whole amount: what the reservation gave plus what is recorded as uncovered. */
  lemma CommitSplits(b: Book, i: nat, key: EarnKey, amount: int, pending: bool)
    requires i < |b.reservations| && ReservationSound(b, b.reservations[i]) && CommitReward(b, i, key, amount, pending).Ok?
    ensures var (b', c) := CommitReward(b, i, key, amount, pending).value; c.commit < |b'.commits|
    ensures var (b', c) := CommitReward(b, i, key, amount, pending).value; var row := b'.commits[c.commit]; var r := b.reservations[i];
      && row.key == key && row.reservation == i
      && (!c.existing ==>
            && row.held == amount == c.covered + c.uncovered && row.uncovered == c.uncovered >= 0 && row.paid == 0
            && c.covered == r.remaining - b'.reservations[i].remaining && 0 <= c.covered <= r.remaining
            && (c.uncovered > 0 ==> b'.reservations[i].remaining == 0 || !r.active))
  {
    var existing := Find(b.commits, CommitKeyed(key));
    if existing.Some? { assert CommitKeyed(key)(b.commits[existing.value]); }
  }

  /** Committing again under the same key, with whatever amount, returns the recorded commit and changes nothing. */
  lemma CommitReplay(b: Book, i: nat, key: EarnKey, amount: int, pending: bool, again: int, later: bool)
    requires Sound(b) && i < |b.reservations| && Linked(b, b.reservations[i].account, b.reservations[i].campaign)
    requires CommitReward(b, i, key, amount, pending).Ok? && Rupiah(again, 0)
    ensures var (b', c) := CommitReward(b, i, key, amount, pending).value;
      && i < |b'.reservations| && Linked(b', b'.reservations[i].account, b'.reservations[i].campaign)
      && var r := CommitReward(b', i, key, again, later);
         r.Ok? && r.value.0 == b' && r.value.1.existing && r.value.1.commit == c.commit
  {
    RowsSound(b);
    CommitKeeps(b, i, key, amount, pending);
    CommitSplits(b, i, key, amount, pending);
    var (b', c) := CommitReward(b, i, key, amount, pending).value;
    RowsSound(b');
    CommitFoundAt(b', c.commit);
  }

  /** The release is on record under its key. */
  predicate OnRecord(b: Book, key: ReleaseKey, i: nat, released: int) {
    var found := Find(b.releases, ReleaseKeyed(key));
    found.Some? && b.releases[found.value].reservation == i && b.releases[found.value].amount == released
  }

  lemma NewRelease(releases: seq<ReleaseRow>, row: ReleaseRow)
    requires Find(releases, ReleaseKeyed(row.key)).None?
    ensures Find(releases + [row], ReleaseKeyed(row.key)) == Some(|releases|)
  {
    assert (releases + [row])[..|releases|] == releases;
    assert ReleaseKeyed(row.key)((releases + [row])[|releases|]);
  }

  lemma ReleaseRecorded(b: Book, i: nat, amount: int, close: bool, key: ReleaseKey)
    requires i < |b.reservations| && Linked(b, b.reservations[i].account, b.reservations[i].campaign)
    requires Release(b, i, amount, close, Some(key)).Ok?
    ensures var (b', released, _) := Release(b, i, amount, close, Some(key)).value; OnRecord(b', key, i, released)
    ensures |Release(b, i, amount, close, Some(key)).value.0.reservations| == |b.reservations|
  {
    var (b', released, existing) := Release(b, i, amount, close, Some(key)).value;
    if !existing {
      NewRelease(b.releases, ReleaseRow(key, i, released));
    }
  }

  lemma ReleaseAgain(b: Book, i: nat, key: ReleaseKey, released: int, again: int, closing: bool)
    requires OnRecord(b, key, i, released) && i < |b.reservations| && Rupiah(again, 0)
    requires Linked(b, b.reservations[i].account, b.reservations[i].campaign)
    ensures Release(b, i, again, closing, Some(key)) == Ok((b, released, true))
  {
  }

  /** Releasing again under the same key gives nothing back a second time and reports what was recorded. */
  lemma ReleaseReplay(b: Book, i: nat, amount: int, close: bool, key: ReleaseKey, again: int, closing: bool)
    requires Sound(b) && FullClose(b, i, amount, close) && i < |b.reservations|
    requires Linked(b, b.reservations[i].account, b.reservations[i].campaign)
    requires Release(b, i, amount, close, Some(key)).Ok? && Rupiah(again, 0)
    ensures var (b', released, _) := Release(b, i, amount, close, Some(key)).value;
      && i < |b'.reservations| && Linked(b', b'.reservations[i].account, b'.reservations[i].campaign)
      && Release(b', i, again, closing, Some(key)) == Ok((b', released, true))
  {
    ReleaseKeeps(b, i, amount, close, Some(key));
    ReleaseRecorded(b, i, amount, close, key);
    var (b', released, _) := Release(b, i, amount, close, Some(key)).value;
    assert ReservationSound(b', b'.reservations[i]);
    ReleaseAgain(b', i, key, released, again, closing);
  }

  lemma CashFoundAt(entries: seq<Entry>, e: Entry)
    requires Find(entries, EntryKeyed(e.key)).None?
    ensures Find(entries + [e], EntryKeyed(e.key)) == Some(|entries|)
  {
    var keyed := EntryKeyed(e.key);
    assert (entries + [e])[..|entries|] == entries;
    assert keyed((entries + [e])[|entries|]);
  }

  /** Recording the same proof again moves no cash. */
  lemma CashReplay(b: Book, input: CashInput)
    requires RecordCash(b, input).Ok?
    ensures var (b', id, _) := RecordCash(b, input).value; RecordCash(b', input) == Ok((b', id, true))
  {
    var (b', id, existing) := RecordCash(b, input).value;
    if !existing {
      CashFoundAt(b.entries, b'.entries[|b.entries|]);
      assert b'.entries == b.entries + [b'.entries[|b.entries|]];
    }
  }
}
