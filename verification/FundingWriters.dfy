/**
  The funding writers as the service runs them: each method changes the tables row by row inside its
  transaction and restores them when an error is thrown. Every method is proved to have exactly the
  effect of its function in FundingBook or PayoutAttribution.
 */
module FundingWriters {
  import opened Basics
  import opened Sums
  import opened FundingBook
  import opened PayoutAttribution

  class FundingTables {
    const organizations: set<Id>
    var accounts: map<Id, Account>
    var campaigns: map<Id, Campaign>
    var reservations: seq<Reservation>
    var commits: seq<Commit>
    var releases: seq<ReleaseRow>
    var entries: seq<Entry>

    constructor (organizations: set<Id>, campaigns: map<Id, Campaign>)
      ensures Tables() == Book(organizations, map[], campaigns, [], [], [], [])
    {
      this.organizations := organizations;
      accounts, this.campaigns := map[], campaigns;
      reservations, commits, releases, entries := [], [], [], [];
    }

    function Tables(): Book
      reads this
    {
      Book(organizations, accounts, campaigns, reservations, commits, releases, entries)
    }

    /** The transaction did what `spec` says: its result and book, or its error and nothing written. */
    ghost predicate Did<T>(spec: Result<(Book, T), FundingError>, r: Result<T, FundingError>, before: Book)
      reads this
    {
      match spec
      case Ok((b, value)) => r == Ok(value) && Tables() == b
      case Err(e) => r == Err(e) && Tables() == before
    }

    method Rollback(saved: Book)
      requires saved.organizations == organizations
      modifies this
      ensures Tables() == saved
    {
      accounts, campaigns := saved.accounts, saved.campaigns;
      reservations, commits := saved.reservations, saved.commits;
      releases, entries := saved.releases, saved.entries;
    }

    method LockAccount(organization: Id)
      modifies this`accounts
      ensures Tables() == OpenAccount(old(Tables()), organization)
    {
      if organization !in accounts {
        accounts := accounts[organization := Account(0, 0)];
      }
    }

    method IncrementAccount(a: Id, confirmed: int, held: int) returns (thrown: bool)
      requires a in accounts
      modifies this`accounts
      ensures thrown <==> BumpAccount(old(Tables()), a, confirmed, held).Err?
      ensures Tables() == if thrown then old(Tables()) else BumpAccount(old(Tables()), a, confirmed, held).value
      ensures thrown ==> BumpAccount(old(Tables()), a, confirmed, held) == Err(AmountInvalid)
    {
      var next := Account(accounts[a].confirmed + confirmed, accounts[a].held + held);
      thrown := !InCounterRange(next.confirmed) || !InCounterRange(next.held);
      if !thrown {
        accounts := accounts[a := next];
      }
    }

    method IncrementCampaign(campaign: Option<Id>, held: int, spent: int)
      requires campaign.Some? ==> campaign.value in campaigns
      modifies this`campaigns
      ensures Tables() == BumpCampaign(old(Tables()), campaign, held, spent)
    {
      if campaign.Some? {
        var row := campaigns[campaign.value];
        campaigns := campaigns[campaign.value := row.(held := row.held + held, spent := row.spent + spent)];
      }
    }

    method ReserveRewardBudget(input: ReserveInput, enforced: bool) returns (r: Result<nat, FundingError>)
      modifies this
      ensures Did(Reserve(old(Tables()), input, enforced), r, old(Tables()))
    {
      var saved := Tables();
      if !Rupiah(input.ceiling, 0) { return Err(AmountInvalid); }
      if input.organization !in organizations { return Err(OrganizationNotFound); }
      if input.campaign.Some? && input.campaign.value !in campaigns { return Err(CampaignNotFound); }
      if input.campaign.Some? && campaigns[input.campaign.value].organization != input.organization {
        return Err(CampaignForeign);
      }
      LockAccount(input.organization);
      var existing := Find(reservations, ReservationKeyed(input.key));
      if existing.Some? {
        var row := reservations[existing.value];
        if row.account != input.organization || row.user != input.user {
          Rollback(saved);
          return Err(KeyConflict);
        }
        if row.active && row.ceiling >= input.ceiling {
          return Ok(existing.value);
        }
      }
      r := AdmitReservation(existing, input, enforced);
      if r.Err? {
        Rollback(saved);
      }
    }

    method AdmitReservation(existing: Option<nat>, input: ReserveInput, enforced: bool) returns (r: Result<nat, FundingError>)
      requires Linked(Tables(), input.organization, input.campaign)
      requires existing.Some? ==> existing.value < |reservations|
      modifies this
      ensures match Admit(old(Tables()), existing, input, enforced)
              case Ok((b, id)) => r == Ok(id) && Tables() == b
              case Err(e) => r == Err(e)
    {
      var campaign := CampaignRow(Tables(), input.campaign);
      var delta := ReserveDelta(Tables(), existing, input.ceiling);
      var lacking := CheckCapacity(accounts[input.organization], campaign, delta);
      if enforced {
        var refusal := Refusal(campaign, input.ceiling, lacking);
        if refusal.Some? { return Err(refusal.value); }
      }
      if delta > 0 {
        var thrown := IncrementAccount(input.organization, 0, delta);
        if thrown { return Err(AmountInvalid); }
        IncrementCampaign(input.campaign, delta, 0);
      }
      if existing.Some? {
        var row := reservations[existing.value];
        reservations := reservations[existing.value :=
          row.(ceiling := input.ceiling,
               remaining := if row.active then row.remaining + delta else delta,
               active := true,
               shortfall := row.shortfall + lacking.account,
               campaignShortfall := row.campaignShortfall + lacking.campaign)];
        return Ok(existing.value);
      }
      reservations := reservations + [
        Reservation(input.key, input.organization, input.campaign, input.user, input.ceiling, input.ceiling,
                    true, false, lacking.account, lacking.campaign)];
      return Ok(|reservations| - 1);
    }

    method ResolveSourceReservation(key: SourceKey, source: Option<Source>, cutover: Option<int>)
      returns (r: Result<SourceReservation, FundingError>)
      modifies this
      ensures Did(ResolveSource(old(Tables()), key, source, cutover), r, old(Tables()))
    {
      var existing := Find(reservations, ReservationKeyed(key));
      if existing.Some? { return Ok(Reserved(existing.value, reservations[existing.value].late)); }
      if source.None? { return Ok(NoSource); }
      if cutover.Some? && source.value.createdAt < cutover.value { return Ok(LegacySource); }
      if source.value.organization !in organizations { return Err(OrganizationNotFound); }
      if source.value.campaign.Some? && source.value.campaign.value !in campaigns { return Err(CampaignNotFound); }
      LockAccount(source.value.organization);
      reservations := reservations + [
        Reservation(key, source.value.organization, source.value.campaign, source.value.user, 0, 0, true, true, 0, 0)];
      return Ok(Reserved(|reservations| - 1, true));
    }

    /** Draws `amount` from reservation `i`; what it cannot give is held on the account anyway. */
    method TakeFromReservation(i: nat, amount: int) returns (thrown: bool)
      requires i < |reservations| && Linked(Tables(), reservations[i].account, reservations[i].campaign)
      requires 0 <= amount && reservations[i].remaining >= 0
      modifies this
      ensures thrown <==> Oblige(old(Tables()), i, amount).Err?
      ensures thrown ==> Oblige(old(Tables()), i, amount) == Err(AmountInvalid)
      ensures !thrown ==> Tables() == Oblige(old(Tables()), i, amount).value
    {
      var row := reservations[i];
      var covered := if row.active then Min(amount, row.remaining) else 0;
      var uncovered := amount - covered;
      thrown := false;
      if covered > 0 {
        reservations := reservations[i := row.(remaining := row.remaining - covered)];
      }
      assert reservations == old(reservations)[i := row.(remaining := row.remaining - covered)];
      if uncovered > 0 {
        thrown := IncrementAccount(row.account, 0, uncovered);
      }
      if !thrown {
        IncrementCampaign(row.campaign, -covered, amount);
      }
    }

    method CommitRewardAgainstBudget(i: nat, key: EarnKey, amount: int, pending: bool)
      returns (r: Result<CommitResult, FundingError>)
      requires i < |reservations| ==>
                 Linked(Tables(), reservations[i].account, reservations[i].campaign) && reservations[i].remaining >= 0
      modifies this
      ensures Did(CommitReward(old(Tables()), i, key, amount, pending), r, old(Tables()))
    {
      var saved := Tables();
      if !Rupiah(amount, 0) { return Err(AmountInvalid); }
      if i >= |reservations| { return Err(ReservationNotFound); }
      var existing := Find(commits, CommitKeyed(key));
      if existing.Some? {
        var c := commits[existing.value];
        if c.reservation != i { return Err(KeyConflict); }
        return Ok(CommitResult(existing.value, c.held - c.uncovered, c.uncovered, true));
      }
      var row := reservations[i];
      var covered := Draw(row, amount);
      var thrown := TakeFromReservation(i, amount);
      if thrown {
        Rollback(saved);
        return Err(AmountInvalid);
      }
      commits := commits + [
        Commit(key, i, row.account, row.campaign, row.user, amount, amount - covered, 0, pending)];
      return Ok(CommitResult(|commits| - 1, covered, amount - covered, false));
    }

    method SettleCommittedReward(key: EarnKey, target: int, pending: bool) returns (r: Result<Option<nat>, FundingError>)
      requires var found := Find(commits, CommitKeyed(key));
               found.Some? ==> CommitLinked(Tables(), commits[found.value])
                               && reservations[commits[found.value].reservation].remaining >= 0
      modifies this
      ensures Did(SettleCommit(old(Tables()), key, target, pending), r, old(Tables()))
    {
      var saved := Tables();
      if !Rupiah(target, 0) { return Err(AmountInvalid); }
      var found := Find(commits, CommitKeyed(key));
      if found.None? { return Ok(None); }
      var c := commits[found.value];
      var newHeld := Max(target, c.paid);
      var delta := newHeld - c.held;
      var uncovered := 0;
      var thrown := false;
      if delta > 0 {
        uncovered := delta - Draw(reservations[c.reservation], delta);
        thrown := TakeFromReservation(c.reservation, delta);
      } else if delta < 0 {
        thrown := IncrementAccount(c.account, 0, delta);
        if !thrown {
          IncrementCampaign(c.campaign, 0, delta);
        }
      }
      if thrown {
        Rollback(saved);
        return Err(AmountInvalid);
      }
      commits := commits[found.value := c.(held := newHeld, pending := pending, uncovered := c.uncovered + uncovered)];
      return Ok(found);
    }

    method ReleaseUnusedRewardBudget(i: nat, amount: int, close: bool, key: Option<ReleaseKey>)
      returns (r: Result<(int, bool), FundingError>)
      requires i < |reservations| ==> Linked(Tables(), reservations[i].account, reservations[i].campaign)
      modifies this
      ensures match Release(old(Tables()), i, amount, close, key)
              case Ok((b, released, existing)) => r == Ok((released, existing)) && Tables() == b
              case Err(e) => r == Err(e) && Tables() == old(Tables())
    {
      var saved := Tables();
      if !Rupiah(amount, 0) { return Err(AmountInvalid); }
      if !close && key.None? { return Err(KeyRequired); }
      if i >= |reservations| { return Err(ReservationNotFound); }
      if key.Some? {
        var recorded := Find(releases, ReleaseKeyed(key.value));
        if recorded.Some? {
          if releases[recorded.value].reservation != i { return Err(KeyConflict); }
          return Ok((releases[recorded.value].amount, true));
        }
      }
      var thrown, released := ReturnToCapacity(i, amount, close);
      if thrown {
        Rollback(saved);
        return Err(AmountInvalid);
      }
      if key.Some? {
        releases := releases + [ReleaseRow(key.value, i, released)];
      }
      return Ok((released, false));
    }

    method ReturnToCapacity(i: nat, amount: int, close: bool) returns (thrown: bool, released: int)
      requires i < |reservations| && Linked(Tables(), reservations[i].account, reservations[i].campaign)
      modifies this
      ensures match GiveBack(old(Tables()), i, amount, close)
              case Ok((b, given)) => !thrown && released == given && Tables() == b
              case Err(e) => thrown && e == AmountInvalid
    {
      var row := reservations[i];
      thrown, released := false, 0;
      if row.active {
        released := Min(amount, row.remaining);
        if released > 0 {
          thrown := IncrementAccount(row.account, 0, -released);
          if thrown { return; }
          IncrementCampaign(row.campaign, -released, 0);
        }
        reservations := reservations[i := row.(remaining := row.remaining - released, active := !close)];
      }
    }

    method RecordFundingEntry(input: CashInput) returns (r: Result<(nat, bool), FundingError>)
      modifies this
      ensures match RecordCash(old(Tables()), input)
              case Ok((b, id, existing)) => r == Ok((id, existing)) && Tables() == b
              case Err(e) => r == Err(e) && Tables() == old(Tables())
    {
      var saved := Tables();
      if !input.referenceValid { return Err(ReferenceRequired); }
      if !input.noteValid { return Err(NoteRequired); }
      if !Rupiah(if input.topup then input.amount else Abs(input.amount), 1) { return Err(AmountInvalid); }
      if input.organization !in organizations { return Err(OrganizationNotFound); }
      LockAccount(input.organization);
      var key := if input.amount > 0 then Cash(input.reference) else Correction(input.reference);
      var kind := if input.topup then ConfirmedTopup else CashCorrection;
      var existing := Find(entries, EntryKeyed(key));
      if existing.Some? {
        var e := entries[existing.value];
        if e.account != input.organization || e.amount != input.amount || e.kind != kind {
          Rollback(saved);
          return Err(ReferenceConflict);
        }
        return Ok((existing.value, true));
      }
      entries := entries + [Entry(input.organization, key, kind, input.amount, None)];
      var thrown := IncrementAccount(input.organization, input.amount, 0);
      if thrown {
        Rollback(saved);
        return Err(AmountInvalid);
      }
      return Ok((|entries| - 1, false));
    }

    // ----- payout -------------------------------------------------------------------------------

    /** The draw loop: oldest commit first, one running total per account. */
    static method DrawCommits(commits: seq<Commit>, user: Id, gross: int)
      returns (paid: seq<Commit>, remaining: int, perAccount: map<Id, int>)
      requires gross >= 0
      ensures paid == PaidCommits(commits, user, gross)
      ensures gross - remaining == DrawnUpTo(commits, user, gross, |commits|)
      ensures Tallied(perAccount, commits, user, gross, |commits|)
    {
      paid, remaining, perAccount := commits, gross, map[];
      var i := 0;
      while i < |commits| && remaining > 0
        invariant i <= |commits|
        invariant paid == PaidUpTo(commits, user, gross, i)
        invariant gross - remaining == DrawnUpTo(commits, user, gross, i)
        invariant Tallied(perAccount, commits, user, gross, i)
      {
        var c := paid[i];
        DrawStep(commits, user, gross, i, remaining);
        TallyStep(perAccount, commits, user, gross, i);
        PaidUpToStep(commits, user, gross, i);
        if c.user == user && !c.pending {
          var take := Min(remaining, c.held - c.paid);
          if take > 0 {
            paid := paid[i := c.(paid := c.paid + take)];
            perAccount := perAccount[c.account := (if c.account in perAccount then perAccount[c.account] else 0) + take];
            remaining := remaining - take;
          }
        }
        i := i + 1;
      }
      if i < |commits| {
        DrawnDry(commits, user, gross, i, |commits|);
      }
    }

    /** The entry loop: one debit of confirmed and held per source account, in account order. */
    method DebitSources(redemption: Id, ids: seq<Id>, perAccount: map<Id, int>) returns (thrown: bool)
      requires Ascending(ids)
      requires forall a :: a in ids ==> a in accounts && a in perAccount
      modifies this`accounts, this`entries
      ensures thrown <==> AnyOverflow(old(accounts), ids, perAccount)
      ensures !thrown ==> accounts == DebitedAccounts(old(accounts), ids, perAccount, |ids|)
      ensures !thrown ==> entries == old(entries) + DebitEntries(redemption, ids, perAccount, |ids|)
    {
      var k := 0;
      assert accounts == DebitedAccounts(old(accounts), ids, perAccount, 0);
      assert entries == old(entries) + DebitEntries(redemption, ids, perAccount, 0);
      while k < |ids|
        invariant k <= |ids|
        invariant accounts == DebitedAccounts(old(accounts), ids, perAccount, k)
        invariant entries == old(entries) + DebitEntries(redemption, ids, perAccount, k)
        invariant forall j :: 0 <= j < k ==> !Overflows(Debited(old(accounts)[ids[j]], perAccount[ids[j]]))
      {
        DebitStep(old(accounts), redemption, ids, perAccount, k);
        thrown := IncrementAccount(ids[k], -perAccount[ids[k]], -perAccount[ids[k]]);
        if thrown {
          return;
        }
        entries := entries + [PayoutEntry(redemption, ids[k], perAccount[ids[k]])];
        k := k + 1;
      }
      thrown := false;
    }

    method SettlePayoutFunding(redemption: Id, user: Id, gross: int) returns (r: Result<PayoutResult, FundingError>)
      requires forall i :: 0 <= i < |commits| ==> commits[i].account in accounts
      modifies this
      ensures Did(SettlePayout(old(Tables()), redemption, user, gross), r, old(Tables()))
    {
      if !Rupiah(gross, 1) { return Err(AmountInvalid); }
      if Find(entries, PayoutOfRedemption(redemption)).Some? {
        var recorded := Sum(entries, RecordedPayout(redemption));
        return Ok(PayoutResult(recorded, gross - recorded, true));
      }
      ghost var saved := Tables();
      var thrown, remaining;
      ghost var ids, perAccount;
      thrown, remaining, ids, perAccount := AttributePayout(redemption, user, gross);
      LoopsMatchPayout(saved, redemption, user, gross, ids, perAccount);
      r := if thrown then Err(AmountInvalid) else Ok(PayoutResult(gross - remaining, remaining, false));
    }

    method AttributePayout(redemption: Id, user: Id, gross: int)
      returns (thrown: bool, remaining: int, ghost ids: seq<Id>, ghost perAccount: map<Id, int>)
      requires forall i :: 0 <= i < |commits| ==> commits[i].account in accounts
      requires gross >= 0
      modifies this
      ensures Tallied(perAccount, old(commits), user, gross, |old(commits)|)
      ensures ids == SortedIds(perAccount.Keys)
      ensures forall a :: a in ids ==> a in old(accounts) && a in perAccount
      ensures gross - remaining == DrawnUpTo(old(commits), user, gross, |old(commits)|)
      ensures thrown <==> AnyOverflow(old(accounts), ids, perAccount)
      ensures Tables() == if thrown then old(Tables())
                          else old(Tables()).(accounts := DebitedAccounts(old(accounts), ids, perAccount, |ids|),
                                              commits := PaidCommits(old(commits), user, gross),
                                              entries := old(entries) + DebitEntries(redemption, ids, perAccount, |ids|))
    {
      var saved := Tables();
      var paid, rest, tally := DrawCommits(commits, user, gross);
      TalliedAccounts(saved, user, gross, tally);
      commits := paid;
      var sorted := SortedIds(tally.Keys);
      thrown := DebitSources(redemption, sorted, tally);
      if thrown {
        Rollback(saved);
      }
      remaining, ids, perAccount := rest, sorted, tally;
    }
  }

  // ----- the entry loop's running state ---------------------------------------------------------

  predicate Overflows(account: Account) { !InCounterRange(account.confirmed) || !InCounterRange(account.held) }

  ghost predicate AnyOverflow(accounts: map<Id, Account>, ids: seq<Id>, perAccount: map<Id, int>)
    requires forall a :: a in ids ==> a in accounts && a in perAccount
  {
    exists k :: 0 <= k < |ids| && Overflows(Debited(accounts[ids[k]], perAccount[ids[k]]))
  }

  ghost function DebitedAccounts(accounts: map<Id, Account>, ids: seq<Id>, perAccount: map<Id, int>, k: nat): map<Id, Account>
    requires k <= |ids| && forall a :: a in ids ==> a in perAccount
  {
    map a | a in accounts :: if a in ids[..k] then Debited(accounts[a], perAccount[a]) else accounts[a]
  }

  ghost function DebitEntries(redemption: Id, ids: seq<Id>, perAccount: map<Id, int>, k: nat): seq<Entry>
    requires k <= |ids| && forall a :: a in ids ==> a in perAccount
  {
    seq(k, j requires 0 <= j < k => PayoutEntry(redemption, ids[j], perAccount[ids[j]]))
  }

  lemma DebitStep(accounts: map<Id, Account>, redemption: Id, ids: seq<Id>, perAccount: map<Id, int>, k: nat)
    requires k < |ids| && Ascending(ids) && forall a :: a in ids ==> a in accounts && a in perAccount
    ensures ids[k] in ids
    ensures DebitedAccounts(accounts, ids, perAccount, k)[ids[k]] == accounts[ids[k]]
    ensures DebitedAccounts(accounts, ids, perAccount, k + 1)
            == DebitedAccounts(accounts, ids, perAccount, k)[ids[k] := Debited(accounts[ids[k]], perAccount[ids[k]])]
    ensures DebitEntries(redemption, ids, perAccount, k + 1)
            == DebitEntries(redemption, ids, perAccount, k) + [PayoutEntry(redemption, ids[k], perAccount[ids[k]])]
  {
    assert ids[..k + 1] == ids[..k] + [ids[k]];
    assert ids[k] !in ids[..k];
  }

  lemma TalliedAccounts(b: Book, user: Id, gross: int, perAccount: map<Id, int>)
    requires gross >= 0 && Tallied(perAccount, b.commits, user, gross, |b.commits|)
    requires forall i :: 0 <= i < |b.commits| ==> b.commits[i].account in b.accounts
    ensures forall a :: a in perAccount ==> a in b.accounts
  {
    TalliedSources(perAccount, b.commits, user, gross);
  }

  lemma DebitedMatchesPayout(b: Book, redemption: Id, user: Id, gross: int, ids: seq<Id>, perAccount: map<Id, int>)
    requires Tallied(perAccount, b.commits, user, gross, |b.commits|)
    requires forall a :: a in ids ==> a in b.accounts && a in perAccount
    ensures DebitedAccounts(b.accounts, ids, perAccount, |ids|) == PayoutAccounts(b, user, gross, ids)
    ensures DebitEntries(redemption, ids, perAccount, |ids|) == PayoutEntries(b.commits, user, gross, redemption, ids)
    ensures AnyOverflow(b.accounts, ids, perAccount) <==> PayoutOverflows(PayoutAccounts(b, user, gross, ids), ids)
  {
    assert ids[..|ids|] == ids;
  }

  /** What the two loops leave is what the payout function says. */
  lemma LoopsMatchPayout(b: Book, redemption: Id, user: Id, gross: int, ids: seq<Id>, perAccount: map<Id, int>)
    requires Rupiah(gross, 1) && Find(b.entries, PayoutOfRedemption(redemption)).None?
    requires Tallied(perAccount, b.commits, user, gross, |b.commits|)
    requires ids == SortedIds(perAccount.Keys)
    requires forall a :: a in ids ==> a in b.accounts && a in perAccount
    ensures var attributed := DrawnUpTo(b.commits, user, gross, |b.commits|);
            SettlePayout(b, redemption, user, gross)
            == if AnyOverflow(b.accounts, ids, perAccount) then Err(AmountInvalid)
               else Ok((b.(accounts := DebitedAccounts(b.accounts, ids, perAccount, |ids|),
                           commits := PaidCommits(b.commits, user, gross),
                           entries := b.entries + DebitEntries(redemption, ids, perAccount, |ids|)),
                        PayoutResult(attributed, gross - attributed, false)))
  {
    TalliedSources(perAccount, b.commits, user, gross);
    DebitedMatchesPayout(b, redemption, user, gross, ids, perAccount);
  }
}
