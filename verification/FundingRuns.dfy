/**
  What every run of the funding writers keeps: the counters agree with the rows they summarise, and
  under enforcement no admission promises money that is not there.
 */
module FundingRuns {
  import opened Basics
  import opened Sums
  import opened FundingBook
  import opened PayoutAttribution

  ghost predicate Sound(b: Book) { Wired(b) && Conserved(b) }

  // ----- solvency -------------------------------------------------------------------------------

  function UncoveredOn(a: Id): Commit -> int {
    (c: Commit) => if c.account == a then c.uncovered else 0
  }
  function CampaignUncovered(k: Id): Commit -> int {
    (c: Commit) => if c.campaign == Some(k) then c.uncovered else 0
  }
  /** Cash an operator reversed from account `a`. */
  function ReversedOn(a: Id): Entry -> int {
    (e: Entry) => if e.account == a && e.kind == CashCorrection && e.amount < 0 then -e.amount else 0
  }

  /** An account is short by at most its uncovered obligations and its reversed cash. */
  ghost predicate AccountSolvent(b: Book, a: Id)
    requires a in b.accounts
  {
    b.accounts[a].confirmed - b.accounts[a].held >= -(Sum(b.commits, UncoveredOn(a)) + Sum(b.entries, ReversedOn(a)))
  }

  /** A budget that is missing, zero or negative is not configured and admits nothing. */
  function Budget(c: Campaign): int { if ConfiguredCap(c.budget).Some? then c.budget.value else 0 }

  /** A campaign is short by at most its uncovered obligations, whatever its budget. */
  ghost predicate CampaignSolvent(b: Book, k: Id)
    requires k in b.campaigns
  {
    Budget(b.campaigns[k]) - b.campaigns[k].held - b.campaigns[k].spent >= -Sum(b.commits, CampaignUncovered(k))
  }

  ghost predicate Solvent(b: Book) {
    && (forall a :: a in b.accounts ==> AccountSolvent(b, a))
    && (forall k :: k in b.campaigns ==> CampaignSolvent(b, k))
  }

  /** The pair of facts a writer keeps. */
  ghost predicate Keeps(b: Book, b': Book) { Sound(b') && (Solvent(b) ==> Solvent(b')) }

  // ----- postings: row writes whose counters move by exactly what the rows changed ---------------

  /** One write of reservation row `i`, and possibly one of a commit row under it. */
  datatype Posting = Posting(i: nat, r: Reservation, commit: Option<(nat, Commit)>)

  function Remaining(r: Reservation): int { r.remaining }
  function Open(c: Commit): int { c.held - c.paid }
  function Held(c: Commit): int { c.held }
  function Uncovered(c: Commit): int { c.uncovered }

  function RemainingDelta(b: Book, p: Posting): int { p.r.remaining - Was(b.reservations, p.i, Remaining) }
  function CommitDelta(b: Book, p: Posting, f: Commit -> int): int {
    if p.commit.None? then 0 else f(p.commit.value.1) - Was(b.commits, p.commit.value.0, f)
  }

  ghost predicate CommitPostable(b: Book, p: Posting, j: nat, c: Commit) {
    && j <= |b.commits|
    && c.reservation == p.i && c.account == p.r.account && c.campaign == p.r.campaign && c.user == p.r.user
    && 0 <= c.paid <= c.held && c.uncovered >= 0
    && (j < |b.commits| ==> b.commits[j].key == c.key && b.commits[j].reservation == p.i)
    && (j == |b.commits| ==> forall m :: 0 <= m < |b.commits| ==> b.commits[m].key != c.key)
  }

  /** The written rows are sound, keep their identity, and an inserted row has a new key. */
  ghost predicate Postable(b: Book, p: Posting) {
    && p.i <= |b.reservations|
    && ReservationSound(b, p.r)
    && (p.i < |b.reservations| ==> SameSource(b.reservations[p.i], p.r))
    && (p.i == |b.reservations| ==> forall m :: 0 <= m < |b.reservations| ==> b.reservations[m].key != p.r.key)
    && (p.commit.Some? ==> CommitPostable(b, p, p.commit.value.0, p.commit.value.1))
  }

  predicate SameSource(r: Reservation, s: Reservation) {
    r.key == s.key && r.account == s.account && r.campaign == s.campaign && r.user == s.user
  }

  function PostedAccount(b: Book, p: Posting): Account
    requires p.r.account in b.accounts
  {
    var account := b.accounts[p.r.account];
    account.(held := account.held + RemainingDelta(b, p) + CommitDelta(b, p, Open))
  }

  function PostedCampaign(b: Book, p: Posting, k: Id): Campaign
    requires k in b.campaigns
  {
    var campaign := b.campaigns[k];
    campaign.(held := campaign.held + RemainingDelta(b, p), spent := campaign.spent + CommitDelta(b, p, Held))
  }

  ghost function Post(b: Book, p: Posting): Book
    requires Postable(b, p)
  {
    b.(reservations := Put(b.reservations, p.i, p.r),
       commits := if p.commit.None? then b.commits else Put(b.commits, p.commit.value.0, p.commit.value.1),
       accounts := b.accounts[p.r.account := PostedAccount(b, p)],
       campaigns := if p.r.campaign.None? then b.campaigns
                    else b.campaigns[p.r.campaign.value := PostedCampaign(b, p, p.r.campaign.value)])
  }

  lemma PostWired(b: Book, p: Posting)
    requires Wired(b) && Postable(b, p)
    ensures Wired(Post(b, p))
  {
    var b' := Post(b, p);
    forall m | 0 <= m < |b'.reservations| ensures ReservationSound(b', b'.reservations[m]) {
      assert m != p.i ==> ReservationSound(b, b.reservations[m]);
    }
    forall m | 0 <= m < |b'.commits| ensures CommitSound(b', b'.commits[m]) {
      if p.commit.None? || m != p.commit.value.0 {
        assert CommitSound(b, b.commits[m]);
      }
    }
  }

  lemma PostCommitSums(b: Book, p: Posting, f: Commit -> int)
    requires Postable(b, p)
    ensures Sum(Post(b, p).commits, f) == Sum(b.commits, f) + CommitDelta(b, p, f)
  {
    if p.commit.Some? {
      SumPut(b.commits, p.commit.value.0, p.commit.value.1, f);
    }
  }

  /** On the posting's own account a selector sees the row delta, elsewhere nothing. */
  lemma PostAccountAgrees(b: Book, p: Posting, a: Id)
    requires Wired(b) && Postable(b, p) && a in b.accounts && AccountAgrees(b, a)
    ensures AccountAgrees(Post(b, p), a)
  {
    SumPut(b.reservations, p.i, p.r, RemainingOn(a));
    PostCommitSums(b, p, OpenOn(a));
    PostOldRows(b, p);
  }

  lemma PostCampaignAgrees(b: Book, p: Posting, k: Id)
    requires Wired(b) && Postable(b, p) && k in b.campaigns && CampaignAgrees(b, k)
    ensures CampaignAgrees(Post(b, p), k)
  {
    SumPut(b.reservations, p.i, p.r, CampaignRemaining(k));
    PostCommitSums(b, p, CampaignHeld(k));
    PostOldRows(b, p);
  }

  /** A rewritten commit already belonged to the posting's account and campaign. */
  lemma PostOldRows(b: Book, p: Posting)
    requires Wired(b) && Postable(b, p)
    ensures p.commit.Some? && p.commit.value.0 < |b.commits| ==>
              var c := b.commits[p.commit.value.0]; c.account == p.r.account && c.campaign == p.r.campaign
  {
    if p.commit.Some? && p.commit.value.0 < |b.commits| {
      assert CommitSound(b, b.commits[p.commit.value.0]);
    }
  }

  lemma PostSound(b: Book, p: Posting)
    requires Sound(b) && Postable(b, p)
    ensures Sound(Post(b, p))
  {
    PostWired(b, p);
    forall a | a in Post(b, p).accounts ensures AccountAgrees(Post(b, p), a) { PostAccountAgrees(b, p, a); }
    forall k | k in Post(b, p).campaigns ensures CampaignAgrees(Post(b, p), k) { PostCampaignAgrees(b, p, k); }
  }

  /** The hold a posting adds is either uncovered or within what the account still has. */
  ghost predicate AccountAdmits(b: Book, p: Posting)
    requires p.r.account in b.accounts
  {
    var hold := RemainingDelta(b, p) + CommitDelta(b, p, Open);
    || hold <= CommitDelta(b, p, Uncovered)
    || (p.commit.None? && hold <= b.accounts[p.r.account].confirmed - b.accounts[p.r.account].held)
  }

  ghost predicate CampaignAdmits(b: Book, p: Posting)
    requires p.r.campaign.Some? ==> p.r.campaign.value in b.campaigns
  {
    p.r.campaign.Some? ==>
      var campaign := b.campaigns[p.r.campaign.value];
      var hold := RemainingDelta(b, p) + CommitDelta(b, p, Held);
      || hold <= CommitDelta(b, p, Uncovered)
      || (p.commit.None? && hold <= Budget(campaign) - campaign.held - campaign.spent)
  }

  lemma PostAccountSolvent(b: Book, p: Posting, a: Id)
    requires Wired(b) && Postable(b, p) && a in b.accounts && AccountSolvent(b, a) && AccountAdmits(b, p)
    ensures AccountSolvent(Post(b, p), a)
  {
    PostCommitSums(b, p, UncoveredOn(a));
    PostOldRows(b, p);
    UncoveredNonNegative(b, a, 0);
  }

  lemma PostCampaignSolvent(b: Book, p: Posting, k: Id)
    requires Wired(b) && Postable(b, p) && k in b.campaigns && CampaignSolvent(b, k) && CampaignAdmits(b, p)
    ensures CampaignSolvent(Post(b, p), k)
  {
    PostCommitSums(b, p, CampaignUncovered(k));
    PostOldRows(b, p);
    UncoveredNonNegative(b, 0, k);
  }

  lemma UncoveredNonNegative(b: Book, a: Id, k: Id)
    requires Wired(b)
    ensures Sum(b.commits, UncoveredOn(a)) >= 0 && Sum(b.commits, CampaignUncovered(k)) >= 0
    ensures Sum(b.entries, ReversedOn(a)) >= 0
  {
    forall i | 0 <= i < |b.commits| ensures b.commits[i].uncovered >= 0 { assert CommitSound(b, b.commits[i]); }
    SumNonNegative(b.commits, UncoveredOn(a));
    SumNonNegative(b.commits, CampaignUncovered(k));
    SumNonNegative(b.entries, ReversedOn(a));
  }

  lemma PostSolvent(b: Book, p: Posting)
    requires Sound(b) && Solvent(b) && Postable(b, p) && AccountAdmits(b, p) && CampaignAdmits(b, p)
    ensures Solvent(Post(b, p))
  {
    forall a | a in Post(b, p).accounts ensures AccountSolvent(Post(b, p), a) { PostAccountSolvent(b, p, a); }
    forall k | k in Post(b, p).campaigns ensures CampaignSolvent(Post(b, p), k) { PostCampaignSolvent(b, p, k); }
  }

  /** Rows stay wired when only counters, cash entries or release rows change. */
  lemma WiredFrame(b: Book, b': Book)
    requires Wired(b)
    requires b'.reservations == b.reservations && b'.commits == b.commits
    requires b.accounts.Keys <= b'.accounts.Keys && b.campaigns.Keys <= b'.campaigns.Keys
    requires forall i :: 0 <= i < |b'.entries| ==> b'.entries[i].account in b'.accounts
    requires forall i, j :: 0 <= i < j < |b'.releases| ==> b'.releases[i].key != b'.releases[j].key
    ensures Wired(b')
  {
    forall i | 0 <= i < |b.reservations| ensures ReservationSound(b', b.reservations[i]) {
      assert ReservationSound(b, b.reservations[i]);
    }
    forall i | 0 <= i < |b.commits| ensures CommitSound(b', b.commits[i]) {
      assert CommitSound(b, b.commits[i]);
    }
  }

  /** An account's agreement and solvency depend on its counters and the row tables only. */
  lemma AccountFrame(b: Book, b': Book, a: Id)
    requires a in b.accounts && a in b'.accounts && b'.accounts[a] == b.accounts[a]
    requires b'.reservations == b.reservations && b'.commits == b.commits && b'.entries == b.entries
    ensures AccountAgrees(b, a) ==> AccountAgrees(b', a)
    ensures AccountSolvent(b, a) ==> AccountSolvent(b', a)
  {
  }

  lemma CampaignFrame(b: Book, b': Book)
    requires Sound(b)
    requires b'.reservations == b.reservations && b'.commits == b.commits && b'.campaigns == b.campaigns
    ensures forall k :: k in b'.campaigns ==> CampaignAgrees(b', k)
    ensures Solvent(b) ==> forall k :: k in b'.campaigns ==> CampaignSolvent(b', k)
  {
    forall k | k in b.campaigns ensures CampaignAgrees(b', k) && (CampaignSolvent(b, k) ==> CampaignSolvent(b', k)) {
      assert CampaignAgrees(b, k);
    }
  }

  /** Release rows carry no counter. */
  lemma ReleaseRowKeeps(b: Book, row: ReleaseRow)
    requires Sound(b) && forall m :: 0 <= m < |b.releases| ==> b.releases[m].key != row.key
    ensures Keeps(b, b.(releases := b.releases + [row]))
  {
    var b' := b.(releases := b.releases + [row]);
    WiredFrame(b, b');
    CampaignFrame(b, b');
    forall a | a in b.accounts ensures AccountAgrees(b', a) && (AccountSolvent(b, a) ==> AccountSolvent(b', a)) {
      AccountFrame(b, b', a);
    }
  }

  // ----- one lemma per writer -------------------------------------------------------------------

  lemma OpenAccountKeeps(b: Book, organization: Id)
    requires Sound(b)
    ensures Keeps(b, OpenAccount(b, organization))
  {
    var b' := OpenAccount(b, organization);
    if organization !in b.accounts {
      WiredFrame(b, b');
      CampaignFrame(b, b');
      NewAccountAgrees(b, organization);
      forall a | a in b.accounts ensures AccountAgrees(b', a) && (AccountSolvent(b, a) ==> AccountSolvent(b', a)) {
        AccountFrame(b, b', a);
      }
    }
  }

  lemma NewAccountAgrees(b: Book, organization: Id)
    requires Wired(b) && organization !in b.accounts
    ensures AccountAgrees(OpenAccount(b, organization), organization)
    ensures AccountSolvent(OpenAccount(b, organization), organization)
  {
    forall i | 0 <= i < |b.reservations| ensures b.reservations[i].account != organization {
      assert ReservationSound(b, b.reservations[i]);
    }
    forall i | 0 <= i < |b.commits| ensures b.commits[i].account != organization {
      assert CommitSound(b, b.commits[i]);
    }
    SumZero(b.reservations, RemainingOn(organization));
    SumZero(b.commits, OpenOn(organization));
    SumZero(b.entries, CashOn(organization));
    UncoveredNonNegative(b, organization, 0);
  }

  /** A key names one session or trip, so a repeated reservation carries the campaign it already has. */
  ghost predicate SameCampaign(b: Book, input: ReserveInput) {
    forall i :: 0 <= i < |b.reservations| && b.reservations[i].key == input.key ==>
      b.reservations[i].campaign == input.campaign
  }

  /** What an admission may be called with: the row found by its key, of the same source, to be extended or re-activated. */
  predicate Extends(b: Book, existing: Option<nat>, input: ReserveInput) {
    && Linked(b, input.organization, input.campaign) && input.ceiling >= 0
    && existing == Find(b.reservations, ReservationKeyed(input.key))
    && (existing.Some? ==>
          var r := b.reservations[existing.value];
          && ReservationSound(b, r) && r.campaign == input.campaign && r.account == input.organization && r.user == input.user
          && (r.active ==> r.ceiling < input.ceiling))
  }

  /** The posting of an admission: the reserved row. */
  function AdmitPosting(b: Book, existing: Option<nat>, input: ReserveInput): Posting
    requires Extends(b, existing, input)
  {
    var delta := ReserveDelta(b, existing, input.ceiling);
    var lacking := CheckCapacity(b.accounts[input.organization], CampaignRow(b, input.campaign), delta);
    Posting(if existing.Some? then existing.value else |b.reservations|, ReserveRow(b, existing, input, delta, lacking), None)
  }

  lemma AdmitPostable(b: Book, existing: Option<nat>, input: ReserveInput)
    requires Extends(b, existing, input)
    ensures Postable(b, AdmitPosting(b, existing, input))
    ensures RemainingDelta(b, AdmitPosting(b, existing, input)) == ReserveDelta(b, existing, input.ceiling)
  {
  }

  /** An enforced admission takes no more than account and budget have left. */
  lemma AdmitWithinCapacity(b: Book, existing: Option<nat>, input: ReserveInput)
    requires Extends(b, existing, input) && Admit(b, existing, input, true).Ok?
    ensures AccountAdmits(b, AdmitPosting(b, existing, input)) && CampaignAdmits(b, AdmitPosting(b, existing, input))
  {
    AdmitPostable(b, existing, input);
  }

  /** An admission is a posting of the reserved row. */
  lemma AdmitIsPosting(b: Book, existing: Option<nat>, input: ReserveInput, enforced: bool) returns (p: Posting)
    requires Extends(b, existing, input) && Admit(b, existing, input, enforced).Ok?
    ensures Postable(b, p) && Admit(b, existing, input, enforced).value.0 == Post(b, p)
    ensures enforced ==> AccountAdmits(b, p) && CampaignAdmits(b, p)
  {
    p := AdmitPosting(b, existing, input);
    AdmitPostable(b, existing, input);
    var b' := Admit(b, existing, input, enforced).value.0;
    assert b'.accounts == Post(b, p).accounts;
    assert b'.campaigns == Post(b, p).campaigns;
    if enforced { AdmitWithinCapacity(b, existing, input); }
  }

  lemma ReserveShape(b: Book, input: ReserveInput, enforced: bool)
    requires Reserve(b, input, enforced).Ok?
    ensures var b1 := OpenAccount(b, input.organization);
            var existing := Find(b1.reservations, ReservationKeyed(input.key));
            && Linked(b1, input.organization, input.campaign) && input.ceiling >= 0
            && (existing.Some? ==> b1.reservations[existing.value].account == input.organization
                                   && b1.reservations[existing.value].user == input.user)
            && (|| (existing.Some? && Reserve(b, input, enforced).value == (b1, existing.value))
                || ((existing.Some? && b1.reservations[existing.value].active ==>
                       b1.reservations[existing.value].ceiling < input.ceiling)
                    && Reserve(b, input, enforced) == Admit(b1, existing, input, enforced)))
  {
  }

  lemma PostKeeps(b: Book, p: Posting)
    requires Sound(b) && Postable(b, p)
    ensures Sound(Post(b, p))
    ensures Solvent(b) && AccountAdmits(b, p) && CampaignAdmits(b, p) ==> Solvent(Post(b, p))
  {
    PostSound(b, p);
    if Solvent(b) && AccountAdmits(b, p) && CampaignAdmits(b, p) {
      PostSolvent(b, p);
    }
  }

  /** A row is found by its own key. */
  lemma KeyFoundAt(b: Book, i: nat)
    requires Wired(b) && i < |b.reservations|
    ensures Find(b.reservations, ReservationKeyed(b.reservations[i].key)) == Some(i)
  {
    var found := Find(b.reservations, ReservationKeyed(b.reservations[i].key));
    assert ReservationKeyed(b.reservations[i].key)(b.reservations[i]);
    assert ReservationKeyed(b.reservations[i].key)(b.reservations[found.value]);
  }

  lemma RowsSound(b: Book)
    requires Wired(b)
    ensures forall i :: 0 <= i < |b.reservations| ==> ReservationSound(b, b.reservations[i])
    ensures forall i :: 0 <= i < |b.commits| ==> CommitSound(b, b.commits[i])
  {
  }

  lemma ReserveKeeps(b: Book, input: ReserveInput, enforced: bool)
    requires Sound(b) && SameCampaign(b, input)
    requires Reserve(b, input, enforced).Ok?
    ensures var b' := Reserve(b, input, enforced).value.0;
            Sound(b') && (enforced && Solvent(b) ==> Solvent(b'))
  {
    OpenAccountKeeps(b, input.organization);
    ReserveShape(b, input, enforced);
    var b1 := OpenAccount(b, input.organization);
    RowsSound(b1);
    var existing := Find(b1.reservations, ReservationKeyed(input.key));
    if Reserve(b, input, enforced).value.0 != b1 {
      var p := AdmitIsPosting(b1, existing, input, enforced);
      PostKeeps(b1, p);
    }
  }

  lemma ResolveIsPosting(b: Book, key: SourceKey, source: Option<Source>, cutover: Option<int>) returns (p: Posting)
    requires ResolveSource(b, key, source, cutover).Ok?
    requires ResolveSource(b, key, source, cutover).value.0 != b
    ensures source.Some?
    ensures var b1 := OpenAccount(b, source.value.organization);
            && Postable(b1, p) && AccountAdmits(b1, p) && CampaignAdmits(b1, p)
            && ResolveSource(b, key, source, cutover).value.0 == Post(b1, p)
  {
    var b' := ResolveSource(b, key, source, cutover).value.0;
    var b1 := OpenAccount(b, source.value.organization);
    p := Posting(|b1.reservations|, b'.reservations[|b1.reservations|], None);
    assert b'.accounts == Post(b1, p).accounts;
    assert b'.campaigns == Post(b1, p).campaigns;
  }

  lemma ResolveNames(b: Book, key: SourceKey, source: Option<Source>, cutover: Option<int>)
    requires ResolveSource(b, key, source, cutover).Ok?
    ensures var (b', resolved) := ResolveSource(b, key, source, cutover).value;
            && b'.commits == b.commits
            && (resolved.Reserved? ==> resolved.reservation < |b'.reservations|
                                       && b'.reservations[resolved.reservation].key == key)
  {
  }

  lemma ResolveKeeps(b: Book, key: SourceKey, source: Option<Source>, cutover: Option<int>)
    requires Sound(b)
    requires ResolveSource(b, key, source, cutover).Ok?
    ensures Keeps(b, ResolveSource(b, key, source, cutover).value.0)
  {
    if ResolveSource(b, key, source, cutover).value.0 != b {
      var p := ResolveIsPosting(b, key, source, cutover);
      OpenAccountKeeps(b, source.value.organization);
      PostKeeps(OpenAccount(b, source.value.organization), p);
    }
  }

  function DrawnRow(r: Reservation, amount: int): Reservation { r.(remaining := r.remaining - Draw(r, amount)) }

  lemma ObligeIsPosting(b: Book, i: nat, amount: int, j: nat, c: Commit)
    requires i < |b.reservations| && amount >= 0 && ReservationSound(b, b.reservations[i])
    requires Oblige(b, i, amount).Ok?
    requires CommitPostable(b, Posting(i, b.reservations[i], None), j, c)
    requires Open(c) - Was(b.commits, j, Open) == amount && Held(c) - Was(b.commits, j, Held) == amount
    requires Uncovered(c) - Was(b.commits, j, Uncovered) == amount - Draw(b.reservations[i], amount)
    ensures var p := Posting(i, DrawnRow(b.reservations[i], amount), Some((j, c)));
            && Postable(b, p) && AccountAdmits(b, p) && CampaignAdmits(b, p)
            && Oblige(b, i, amount).value.(commits := Put(b.commits, j, c)) == Post(b, p)
  {
    var p := Posting(i, DrawnRow(b.reservations[i], amount), Some((j, c)));
    var b' := Oblige(b, i, amount).value;
    assert b'.accounts == Post(b, p).accounts;
    assert b'.campaigns == Post(b, p).campaigns;
  }

  lemma CommitIsPosting(b: Book, i: nat, key: EarnKey, amount: int, pending: bool) returns (p: Posting)
    requires i < |b.reservations| && ReservationSound(b, b.reservations[i])
    requires CommitReward(b, i, key, amount, pending).Ok? && !CommitReward(b, i, key, amount, pending).value.1.existing
    ensures Postable(b, p) && AccountAdmits(b, p) && CampaignAdmits(b, p)
    ensures CommitReward(b, i, key, amount, pending).value.0 == Post(b, p)
  {
    var c := CommitReward(b, i, key, amount, pending).value.0.commits[|b.commits|];
    ObligeIsPosting(b, i, amount, |b.commits|, c);
    p := Posting(i, DrawnRow(b.reservations[i], amount), Some((|b.commits|, c)));
  }

  lemma CommitKeeps(b: Book, i: nat, key: EarnKey, amount: int, pending: bool)
    requires Sound(b)
    requires i < |b.reservations| ==> Linked(b, b.reservations[i].account, b.reservations[i].campaign)
    requires CommitReward(b, i, key, amount, pending).Ok?
    ensures Keeps(b, CommitReward(b, i, key, amount, pending).value.0)
  {
    if !CommitReward(b, i, key, amount, pending).value.1.existing {
      RowsSound(b);
      var p := CommitIsPosting(b, i, key, amount, pending);
      PostKeeps(b, p);
    }
  }

  /** A settlement upwards posts the draw and the raised commit. */
  lemma SettleUpIsPosting(b: Book, key: EarnKey, target: int, pending: bool, j: nat) returns (p: Posting)
    requires Find(b.commits, CommitKeyed(key)) == Some(j) && CommitSound(b, b.commits[j])
    requires ReservationSound(b, b.reservations[b.commits[j].reservation])
    requires SettleCommit(b, key, target, pending).Ok? && Max(target, b.commits[j].paid) > b.commits[j].held
    ensures Postable(b, p) && AccountAdmits(b, p) && CampaignAdmits(b, p)
    ensures SettleCommit(b, key, target, pending).value.0 == Post(b, p)
  {
    var c := b.commits[j];
    var delta := Max(target, c.paid) - c.held;
    var row := SettleCommit(b, key, target, pending).value.0.commits[j];
    ObligeIsPosting(b, c.reservation, delta, j, row);
    p := Posting(c.reservation, DrawnRow(b.reservations[c.reservation], delta), Some((j, row)));
  }

  /** A settlement downwards, or to the same amount, posts the lowered commit and leaves the reservation alone. */
  lemma SettleDownIsPosting(b: Book, key: EarnKey, target: int, pending: bool, j: nat) returns (p: Posting)
    requires Find(b.commits, CommitKeyed(key)) == Some(j) && CommitSound(b, b.commits[j])
    requires ReservationSound(b, b.reservations[b.commits[j].reservation])
    requires SettleCommit(b, key, target, pending).Ok? && Max(target, b.commits[j].paid) <= b.commits[j].held
    ensures Postable(b, p) && AccountAdmits(b, p) && CampaignAdmits(b, p)
    ensures SettleCommit(b, key, target, pending).value.0 == Post(b, p)
  {
    var b' := SettleCommit(b, key, target, pending).value.0;
    var c := b.commits[j];
    p := Posting(c.reservation, b.reservations[c.reservation], Some((j, c.(held := Max(target, c.paid), pending := pending))));
    assert b'.accounts == Post(b, p).accounts;
    assert b'.campaigns == Post(b, p).campaigns;
    assert b'.reservations == Post(b, p).reservations;
  }

  lemma SettleIsPosting(b: Book, key: EarnKey, target: int, pending: bool, j: nat) returns (p: Posting)
    requires Find(b.commits, CommitKeyed(key)) == Some(j) && CommitSound(b, b.commits[j])
    requires ReservationSound(b, b.reservations[b.commits[j].reservation])
    requires SettleCommit(b, key, target, pending).Ok?
    ensures Postable(b, p) && AccountAdmits(b, p) && CampaignAdmits(b, p)
    ensures SettleCommit(b, key, target, pending).value.0 == Post(b, p)
  {
    if Max(target, b.commits[j].paid) > b.commits[j].held {
      p := SettleUpIsPosting(b, key, target, pending, j);
    } else {
      p := SettleDownIsPosting(b, key, target, pending, j);
    }
  }

  lemma SettleKeeps(b: Book, key: EarnKey, target: int, pending: bool)
    requires Sound(b)
    requires var found := Find(b.commits, CommitKeyed(key)); found.Some? ==> CommitLinked(b, b.commits[found.value])
    requires SettleCommit(b, key, target, pending).Ok?
    ensures Keeps(b, SettleCommit(b, key, target, pending).value.0)
  {
    var found := Find(b.commits, CommitKeyed(key));
    if found.Some? {
      RowsSound(b);
      assert CommitSound(b, b.commits[found.value]);
      var p := SettleIsPosting(b, key, target, pending, found.value);
      PostKeeps(b, p);
    }
  }

  lemma SettleOrCommitKeeps(b: Book, key: EarnKey, source: SourceKey, stored: Option<Source>, cutover: Option<int>,
                            target: Option<int>, pending: bool)
    requires Sound(b)
    requires SettleOrCommit(b, key, source, stored, cutover, target, pending).Ok?
    ensures Keeps(b, SettleOrCommit(b, key, source, stored, cutover, target, pending).value.0)
  {
    var existing := Find(b.commits, CommitKeyed(key));
    if existing.Some? {
      RowsSound(b);
      SettleKeeps(b, key, if target.Some? then target.value else b.commits[existing.value].held, pending);
    } else if target.Some? && target.value > 0 {
      ResolveKeeps(b, source, stored, cutover);
      ResolveNames(b, source, stored, cutover);
      var (b1, resolved) := ResolveSource(b, source, stored, cutover).value;
      if resolved.Reserved? {
        RowsSound(b1);
        CommitKeeps(b1, resolved.reservation, key, target.value, pending);
      }
    }
  }

  lemma PendingIsPosting(b: Book, key: EarnKey, j: nat) returns (p: Posting)
    requires Find(b.commits, CommitKeyed(key)) == Some(j) && CommitSound(b, b.commits[j])
    requires ReservationSound(b, b.reservations[b.commits[j].reservation])
    ensures Postable(b, p) && AccountAdmits(b, p) && CampaignAdmits(b, p) && MarkPending(b, key) == Post(b, p)
  {
    var c := b.commits[j];
    p := Posting(c.reservation, b.reservations[c.reservation], Some((j, c.(pending := true))));
    assert b.accounts == Post(b, p).accounts;
    assert b.campaigns == Post(b, p).campaigns;
    assert b.reservations == Post(b, p).reservations;
  }

  lemma MarkPendingKeeps(b: Book, key: EarnKey)
    requires Sound(b)
    ensures Keeps(b, MarkPending(b, key))
  {
    var found := Find(b.commits, CommitKeyed(key));
    if found.Some? {
      RowsSound(b);
      assert CommitSound(b, b.commits[found.value]);
      var p := PendingIsPosting(b, key, found.value);
      PostKeeps(b, p);
    }
  }

  /** A close gives back everything that remains; a partial release closes nothing. */
  predicate FullClose(b: Book, i: nat, amount: int, close: bool) {
    close && i < |b.reservations| && b.reservations[i].active ==> amount >= b.reservations[i].remaining
  }

  /** What is given back is a posting of the reservation row. */
  lemma GiveBackIsPosting(b: Book, i: nat, amount: int, close: bool) returns (p: Posting)
    requires i < |b.reservations| && ReservationSound(b, b.reservations[i]) && FullClose(b, i, amount, close) && amount >= 0
    requires GiveBack(b, i, amount, close).Ok?
    ensures Postable(b, p) && AccountAdmits(b, p) && CampaignAdmits(b, p)
    ensures GiveBack(b, i, amount, close).value.0 == Post(b, p)
  {
    var b' := GiveBack(b, i, amount, close).value.0;
    p := Posting(i, b'.reservations[i], None);
    assert b'.accounts == Post(b, p).accounts;
    assert b'.campaigns == Post(b, p).campaigns;
    assert b'.reservations == Post(b, p).reservations;
  }

  lemma ReleaseIsPosting(b: Book, i: nat, amount: int, close: bool, key: Option<ReleaseKey>) returns (p: Posting)
    requires i < |b.reservations| && ReservationSound(b, b.reservations[i]) && FullClose(b, i, amount, close)
    requires Release(b, i, amount, close, key).Ok? && !Release(b, i, amount, close, key).value.2
    ensures Postable(b, p) && AccountAdmits(b, p) && CampaignAdmits(b, p)
    ensures var (b', released, _) := Release(b, i, amount, close, key).value;
            b' == if key.None? then Post(b, p)
                  else Post(b, p).(releases := b.releases + [ReleaseRow(key.value, i, released)])
    ensures key.Some? ==> forall m :: 0 <= m < |b.releases| ==> b.releases[m].key != key.value
  {
    p := GiveBackIsPosting(b, i, amount, close);
    if key.Some? {
      forall m | 0 <= m < |b.releases| ensures b.releases[m].key != key.value {
        assert !ReleaseKeyed(key.value)(b.releases[m]);
      }
    }
  }

  lemma ReleaseKeeps(b: Book, i: nat, amount: int, close: bool, key: Option<ReleaseKey>)
    requires Sound(b) && FullClose(b, i, amount, close)
    requires i < |b.reservations| ==> Linked(b, b.reservations[i].account, b.reservations[i].campaign)
    requires Release(b, i, amount, close, key).Ok?
    ensures Keeps(b, Release(b, i, amount, close, key).value.0)
  {
    var (_, released, existing) := Release(b, i, amount, close, key).value;
    if !existing {
      RowsSound(b);
      var p := ReleaseIsPosting(b, i, amount, close, key);
      PostKeeps(b, p);
      if key.Some? {
        ReleaseRowKeeps(Post(b, p), ReleaseRow(key.value, i, released));
      }
    }
  }

  function WithEntry(b: Book, a: Id, e: Entry): Book
    requires a in b.accounts
  {
    b.(entries := b.entries + [e],
       accounts := b.accounts[a := b.accounts[a].(confirmed := b.accounts[a].confirmed + e.amount)])
  }

  lemma EntryAccount(b: Book, a: Id, e: Entry, x: Id)
    requires a in b.accounts && e.account == a && (e.amount < 0 ==> e.kind == CashCorrection)
    requires x in b.accounts && AccountAgrees(b, x)
    ensures AccountAgrees(WithEntry(b, a, e), x)
    ensures AccountSolvent(b, x) ==> AccountSolvent(WithEntry(b, a, e), x)
  {
    SumAppend(b.entries, e, CashOn(x));
    SumAppend(b.entries, e, ReversedOn(x));
  }

  lemma EntryKeeps(b: Book, a: Id, e: Entry)
    requires Sound(b) && a in b.accounts && e.account == a && (e.amount < 0 ==> e.kind == CashCorrection)
    ensures Keeps(b, WithEntry(b, a, e))
  {
    var b' := WithEntry(b, a, e);
    WiredFrame(b, b');
    CampaignFrame(b, b');
    forall x | x in b'.accounts ensures AccountAgrees(b', x) && (AccountSolvent(b, x) ==> AccountSolvent(b', x)) {
      EntryAccount(b, a, e, x);
    }
  }

  lemma RecordIsEntry(b: Book, input: CashInput) returns (e: Entry)
    requires RecordCash(b, input).Ok? && !RecordCash(b, input).value.2
    ensures e.account == input.organization && (e.amount < 0 ==> e.kind == CashCorrection)
    ensures RecordCash(b, input).value.0 == WithEntry(OpenAccount(b, input.organization), input.organization, e)
  {
    e := RecordCash(b, input).value.0.entries[|b.entries|];
  }

  lemma RecordKeeps(b: Book, input: CashInput)
    requires Sound(b)
    requires RecordCash(b, input).Ok?
    ensures Keeps(b, RecordCash(b, input).value.0)
  {
    OpenAccountKeeps(b, input.organization);
    if !RecordCash(b, input).value.2 {
      var e := RecordIsEntry(b, input);
      EntryKeeps(OpenAccount(b, input.organization), input.organization, e);
    }
  }

  // ----- only cash entries and payouts write the cash table ---------------------------------------

  lemma ReserveCash(b: Book, input: ReserveInput, enforced: bool)
    requires Reserve(b, input, enforced).Ok?
    ensures Reserve(b, input, enforced).value.0.entries == b.entries
  {
  }

  lemma ResolveCash(b: Book, key: SourceKey, source: Option<Source>, cutover: Option<int>)
    requires ResolveSource(b, key, source, cutover).Ok?
    ensures ResolveSource(b, key, source, cutover).value.0.entries == b.entries
  {
  }

  lemma CommitCash(b: Book, i: nat, key: EarnKey, amount: int, pending: bool)
    requires i < |b.reservations| ==> Linked(b, b.reservations[i].account, b.reservations[i].campaign)
    requires CommitReward(b, i, key, amount, pending).Ok?
    ensures CommitReward(b, i, key, amount, pending).value.0.entries == b.entries
  {
  }

  lemma SettleCash(b: Book, key: EarnKey, target: int, pending: bool)
    requires var found := Find(b.commits, CommitKeyed(key)); found.Some? ==> CommitLinked(b, b.commits[found.value])
    requires SettleCommit(b, key, target, pending).Ok?
    ensures SettleCommit(b, key, target, pending).value.0.entries == b.entries
  {
  }

  lemma SettleOrCommitCash(b: Book, key: EarnKey, source: SourceKey, stored: Option<Source>, cutover: Option<int>,
                           target: Option<int>, pending: bool)
    requires Sound(b)
    requires SettleOrCommit(b, key, source, stored, cutover, target, pending).Ok?
    ensures SettleOrCommit(b, key, source, stored, cutover, target, pending).value.0.entries == b.entries
  {
    RowsSound(b);
    var existing := Find(b.commits, CommitKeyed(key));
    if existing.Some? {
      SettleCash(b, key, if target.Some? then target.value else b.commits[existing.value].held, pending);
    } else if target.Some? && target.value > 0 {
      ResolveKeeps(b, source, stored, cutover);
      ResolveNames(b, source, stored, cutover);
      ResolveCash(b, source, stored, cutover);
      var (b1, resolved) := ResolveSource(b, source, stored, cutover).value;
      if resolved.Reserved? {
        RowsSound(b1);
        CommitCash(b1, resolved.reservation, key, target.value, pending);
      }
    }
  }

  lemma ReleaseCash(b: Book, i: nat, amount: int, close: bool, key: Option<ReleaseKey>)
    requires i < |b.reservations| ==> Linked(b, b.reservations[i].account, b.reservations[i].campaign)
    requires Release(b, i, amount, close, key).Ok?
    ensures Release(b, i, amount, close, key).value.0.entries == b.entries
  {
  }

  // ----- payout ---------------------------------------------------------------------------------

  lemma {:induction false} PaidPrefix(commits: seq<Commit>, user: Id, gross: int, n: nat, a: Id, k: Id)
    requires n <= |commits|
    ensures var paid := PaidCommits(commits, user, gross);
            && Sum(paid[..n], OpenOn(a)) == Sum(commits[..n], OpenOn(a)) - DrawnFrom(commits, user, gross, a, n)
            && Sum(paid[..n], CampaignHeld(k)) == Sum(commits[..n], CampaignHeld(k))
            && Sum(paid[..n], UncoveredOn(a)) == Sum(commits[..n], UncoveredOn(a))
            && Sum(paid[..n], CampaignUncovered(k)) == Sum(commits[..n], CampaignUncovered(k))
  {
    if n > 0 {
      PaidPrefix(commits, user, gross, n - 1, a, k);
      var paid := PaidCommits(commits, user, gross);
      assert paid[..n][..n - 1] == paid[..n - 1];
      assert commits[..n][..n - 1] == commits[..n - 1];
    }
  }

  lemma PaidSums(commits: seq<Commit>, user: Id, gross: int, a: Id, k: Id)
    ensures var paid := PaidCommits(commits, user, gross);
            && Sum(paid, OpenOn(a)) == Sum(commits, OpenOn(a)) - DrawnFrom(commits, user, gross, a, |commits|)
            && Sum(paid, CampaignHeld(k)) == Sum(commits, CampaignHeld(k))
            && Sum(paid, UncoveredOn(a)) == Sum(commits, UncoveredOn(a))
            && Sum(paid, CampaignUncovered(k)) == Sum(commits, CampaignUncovered(k))
  {
    PaidPrefix(commits, user, gross, |commits|, a, k);
    var paid := PaidCommits(commits, user, gross);
    assert paid[..|commits|] == paid;
    assert commits[..|commits|] == commits;
  }

  lemma PayoutEntrySums(b: Book, user: Id, gross: int, redemption: Id, a: Id)
    requires gross >= 0
    ensures var ids := SortedIds(Sources(b.commits, user, gross));
            var entries := b.entries + PayoutEntries(b.commits, user, gross, redemption, ids);
            && Sum(entries, CashOn(a)) == Sum(b.entries, CashOn(a)) - DrawnFrom(b.commits, user, gross, a, |b.commits|)
            && Sum(entries, ReversedOn(a)) == Sum(b.entries, ReversedOn(a))
            && (a in ids <==> DrawnFrom(b.commits, user, gross, a, |b.commits|) > 0)
            && DrawnFrom(b.commits, user, gross, a, |b.commits|) >= 0
  {
    var ids := SortedIds(Sources(b.commits, user, gross));
    var added := PayoutEntries(b.commits, user, gross, redemption, ids);
    DrawnFromBounds(b.commits, user, gross, a, |b.commits|);
    EntriesOn(b.commits, user, gross, redemption, ids, a);
    SumConcat(b.entries, added, CashOn(a));
    SumConcat(b.entries, added, ReversedOn(a));
    SumZero(added, ReversedOn(a));
  }

  lemma PayoutKeeps(b: Book, redemption: Id, user: Id, gross: int)
    requires Sound(b)
    requires SettlePayout(b, redemption, user, gross).Ok?
    ensures Keeps(b, SettlePayout(b, redemption, user, gross).value.0)
  {
    if Find(b.entries, PayoutOfRedemption(redemption)).None? {
      PayoutKeepsRows(b, redemption, user, gross);
      var b' := SettlePayout(b, redemption, user, gross).value.0;
      forall a | a in b'.accounts
        ensures AccountAgrees(b', a) && (AccountSolvent(b, a) ==> AccountSolvent(b', a))
      {
        PayoutKeepsAccount(b, redemption, user, gross, a);
      }
      forall k | k in b'.campaigns
        ensures CampaignAgrees(b', k) && (CampaignSolvent(b, k) ==> CampaignSolvent(b', k))
      {
        assert CampaignAgrees(b, k);
        PaidSums(b.commits, user, gross, 0, k);
      }
    }
  }

  lemma PayoutKeepsAccount(b: Book, redemption: Id, user: Id, gross: int, a: Id)
    requires Sound(b) && a in b.accounts
    requires SettlePayout(b, redemption, user, gross).Ok?
    requires Find(b.entries, PayoutOfRedemption(redemption)).None?
    ensures var b' := SettlePayout(b, redemption, user, gross).value.0;
            a in b'.accounts && AccountAgrees(b', a) && (AccountSolvent(b, a) ==> AccountSolvent(b', a))
  {
    assert AccountAgrees(b, a);
    PaidSums(b.commits, user, gross, a, 0);
    PayoutEntrySums(b, user, gross, redemption, a);
  }

  lemma PayoutShape(b: Book, redemption: Id, user: Id, gross: int)
    requires SettlePayout(b, redemption, user, gross).Ok?
    requires Find(b.entries, PayoutOfRedemption(redemption)).None?
    ensures var b' := SettlePayout(b, redemption, user, gross).value.0;
            && b'.reservations == b.reservations && b'.campaigns == b.campaigns && b'.releases == b.releases
            && b'.accounts.Keys == b.accounts.Keys && b'.organizations == b.organizations
            && b'.commits == PaidCommits(b.commits, user, gross) && gross >= 0
  {
  }

  /** Commits name existing accounts, so a payout draws from existing accounts only. */
  lemma SourcesExist(b: Book, user: Id, gross: int, a: Id)
    requires Wired(b) && a in Sources(b.commits, user, gross)
    ensures a in b.accounts
  {
    var i :| 0 <= i < |b.commits| && Taken(b.commits, user, gross, i) > 0 && b.commits[i].account == a;
    assert CommitSound(b, b.commits[i]);
  }

  lemma PayoutEntryAccounts(b: Book, redemption: Id, user: Id, gross: int)
    requires Wired(b)
    requires SettlePayout(b, redemption, user, gross).Ok?
    requires Find(b.entries, PayoutOfRedemption(redemption)).None?
    ensures var b' := SettlePayout(b, redemption, user, gross).value.0;
            forall j :: 0 <= j < |b'.entries| ==> b'.entries[j].account in b.accounts
  {
    AddedEntries(b, redemption, user, gross);
    var b' := SettlePayout(b, redemption, user, gross).value.0;
    var ids := SortedIds(Sources(b.commits, user, gross));
    forall a | a in ids ensures a in b.accounts {
      SourcesExist(b, user, gross, a);
    }
    forall j | 0 <= j < |b'.entries| ensures b'.entries[j].account in b.accounts {
      if j >= |b.entries| {
        assert b'.entries[j] == b'.entries[|b.entries|..][j - |b.entries|];
      }
    }
  }

  lemma PayoutKeepsRows(b: Book, redemption: Id, user: Id, gross: int)
    requires Wired(b)
    requires SettlePayout(b, redemption, user, gross).Ok?
    requires Find(b.entries, PayoutOfRedemption(redemption)).None?
    ensures Wired(SettlePayout(b, redemption, user, gross).value.0)
  {
    PayoutShape(b, redemption, user, gross);
    PayoutEntryAccounts(b, redemption, user, gross);
    var b' := SettlePayout(b, redemption, user, gross).value.0;
    forall j | 0 <= j < |b'.commits| ensures CommitSound(b', b'.commits[j]) && b'.commits[j].key == b.commits[j].key {
      TakenBounds(b.commits, user, gross, j);
      assert CommitSound(b, b.commits[j]);
    }
    forall j | 0 <= j < |b'.reservations| ensures ReservationSound(b', b'.reservations[j]) {
      assert ReservationSound(b, b.reservations[j]);
    }
  }

  // ----- runs -----------------------------------------------------------------------------------

  datatype Op =
    | ReserveOp(input: ReserveInput, enforced: bool)
    | EarnOp(source: SourceKey, stored: Option<Source>, cutover: Option<int>, key: EarnKey, amount: int, pending: bool)
    | ReviewOp(key: EarnKey, source: SourceKey, stored: Option<Source>, cutover: Option<int>, target: Option<int>, pending: bool)
    | FraudHoldOp(key: EarnKey)
    | ReleaseOp(reservation: nat, amount: int, close: bool, release: Option<ReleaseKey>)
    | CashOp(cash: CashInput)
    | PayoutOp(redemption: Id, user: Id, gross: int)

  /** An earning resolves its source's reservation and commits against it in one transaction. */
  function EarnReward(b: Book, source: SourceKey, stored: Option<Source>, cutover: Option<int>, key: EarnKey, amount: int, pending: bool)
    : Result<Book, FundingError>
    requires Sound(b)
  {
    var (b1, resolved) :- ResolveSource(b, source, stored, cutover);
    if !resolved.Reserved? then Ok(b1)
    else
      ResolveKeeps(b, source, stored, cutover);
      ResolveNames(b, source, stored, cutover);
      RowsSound(b1);
      var (b2, _) :- CommitReward(b1, resolved.reservation, key, amount, pending);
      Ok(b2)
  }

  lemma EarnCash(b: Book, source: SourceKey, stored: Option<Source>, cutover: Option<int>, key: EarnKey, amount: int, pending: bool)
    requires Sound(b) && EarnReward(b, source, stored, cutover, key, amount, pending).Ok?
    ensures EarnReward(b, source, stored, cutover, key, amount, pending).value.entries == b.entries
  {
    ResolveKeeps(b, source, stored, cutover);
    ResolveNames(b, source, stored, cutover);
    ResolveCash(b, source, stored, cutover);
    var (b1, resolved) := ResolveSource(b, source, stored, cutover).value;
    if resolved.Reserved? {
      RowsSound(b1);
      CommitCash(b1, resolved.reservation, key, amount, pending);
    }
  }

  /** What the callers of the writers guarantee. */
  ghost predicate Allowed(b: Book, op: Op) {
    match op
    case ReserveOp(input, _) => SameCampaign(b, input)
    case ReleaseOp(i, amount, close, _) => FullClose(b, i, amount, close)
    case _ => true
  }

  /** One transaction; a thrown error leaves the book unchanged. */
  function Apply(b: Book, op: Op): Book
    requires Sound(b)
  {
    assert forall i :: 0 <= i < |b.reservations| ==> ReservationSound(b, b.reservations[i]);
    match op
    case ReserveOp(input, enforced) =>
      var r := Reserve(b, input, enforced); if r.Ok? then r.value.0 else b
    case EarnOp(source, stored, cutover, key, amount, pending) =>
      var r := EarnReward(b, source, stored, cutover, key, amount, pending); if r.Ok? then r.value else b
    case ReviewOp(key, source, stored, cutover, target, pending) =>
      var r := SettleOrCommit(b, key, source, stored, cutover, target, pending); if r.Ok? then r.value.0 else b
    case FraudHoldOp(key) => MarkPending(b, key)
    case ReleaseOp(i, amount, close, key) =>
      var r := Release(b, i, amount, close, key); if r.Ok? then r.value.0 else b
    case CashOp(cash) =>
      var r := RecordCash(b, cash); if r.Ok? then r.value.0 else b
    case PayoutOp(redemption, user, gross) =>
      var r := SettlePayout(b, redemption, user, gross); if r.Ok? then r.value.0 else b
  }

  lemma StepKeeps(b: Book, op: Op)
    requires Sound(b) && Allowed(b, op)
    ensures Sound(Apply(b, op))
    ensures Solvent(b) && (op.ReserveOp? ==> op.enforced) ==> Solvent(Apply(b, op))
  {
    assert forall i :: 0 <= i < |b.reservations| ==> ReservationSound(b, b.reservations[i]);
    match op
    case ReserveOp(input, enforced) =>
      if Reserve(b, input, enforced).Ok? { ReserveKeeps(b, input, enforced); }
    case EarnOp(source, stored, cutover, key, amount, pending) =>
      if EarnReward(b, source, stored, cutover, key, amount, pending).Ok? {
        ResolveKeeps(b, source, stored, cutover);
        ResolveNames(b, source, stored, cutover);
        var (b1, resolved) := ResolveSource(b, source, stored, cutover).value;
        if resolved.Reserved? {
          RowsSound(b1);
          CommitKeeps(b1, resolved.reservation, key, amount, pending);
        }
      }
    case ReviewOp(key, source, stored, cutover, target, pending) =>
      if SettleOrCommit(b, key, source, stored, cutover, target, pending).Ok? {
        SettleOrCommitKeeps(b, key, source, stored, cutover, target, pending);
      }
    case FraudHoldOp(key) => MarkPendingKeeps(b, key);
    case ReleaseOp(i, amount, close, key) =>
      if Release(b, i, amount, close, key).Ok? { ReleaseKeeps(b, i, amount, close, key); }
    case CashOp(cash) =>
      if RecordCash(b, cash).Ok? { RecordKeeps(b, cash); }
    case PayoutOp(redemption, user, gross) =>
      if SettlePayout(b, redemption, user, gross).Ok? { PayoutKeeps(b, redemption, user, gross); }
  }

  /** One allowed transaction leads from `b` to `b'`. */
  ghost predicate Steps(b: Book, op: Op, b': Book) {
    Sound(b) ==> Allowed(b, op) && b' == Apply(b, op)
  }

  /** `states` is a run of `ops`: each state is the previous one after one allowed transaction. */
  ghost predicate IsRun(states: seq<Book>, ops: seq<Op>) {
    && |states| == |ops| + 1
    && (forall i :: 0 <= i < |ops| ==> Steps(states[i], ops[i], states[i + 1]))
  }

  /** No account yet, no rows, and campaigns whose counters are zero. */
  predicate Empty(b: Book) {
    && b.accounts == map[] && b.reservations == [] && b.commits == [] && b.releases == [] && b.entries == []
    && forall k :: k in b.campaigns ==> b.campaigns[k].held == 0 && b.campaigns[k].spent == 0
  }

  lemma {:induction false} RunConserves(states: seq<Book>, ops: seq<Op>, n: nat)
    requires IsRun(states, ops) && Empty(states[0]) && n <= |ops|
    ensures Sound(states[n])
  {
    if n > 0 {
      RunConserves(states, ops, n - 1);
      assert Steps(states[n - 1], ops[n - 1], states[n - 1 + 1]);
      StepKeeps(states[n - 1], ops[n - 1]);
    }
  }

  lemma EnforcedStep(b: Book, op: Op, b': Book)
    requires Sound(b) && Solvent(b) && Steps(b, op, b') && (op.ReserveOp? ==> op.enforced)
    ensures Solvent(b')
  {
    StepKeeps(b, op);
  }

  /** Every run whose admissions are enforced stays solvent. */
  lemma {:induction false} EnforcedRunSolvent(states: seq<Book>, ops: seq<Op>, n: nat)
    requires IsRun(states, ops) && Empty(states[0]) && n <= |ops|
    requires forall i :: 0 <= i < |ops| && ops[i].ReserveOp? ==> ops[i].enforced
    ensures Solvent(states[n])
  {
    if n > 0 {
      EnforcedRunSolvent(states, ops, n - 1);
      RunConserves(states, ops, n - 1);
      assert Steps(states[n - 1], ops[n - 1], states[n - 1 + 1]);
      EnforcedStep(states[n - 1], ops[n - 1], states[n]);
    }
  }

  /** Without over-commits and without reversals, everything promised is confirmed cash. */
  lemma CoveredRunNeverShort(states: seq<Book>, ops: seq<Op>, n: nat, a: Id)
    requires IsRun(states, ops) && Empty(states[0]) && n <= |ops|
    requires forall i :: 0 <= i < |ops| && ops[i].ReserveOp? ==> ops[i].enforced
    requires a in states[n].accounts
    requires forall i :: 0 <= i < |states[n].commits| ==> states[n].commits[i].uncovered == 0
    requires forall i :: 0 <= i < |states[n].entries| && states[n].entries[i].kind == CashCorrection ==> states[n].entries[i].amount > 0
    ensures Sum(states[n].reservations, RemainingOn(a)) + Sum(states[n].commits, OpenOn(a)) <= Sum(states[n].entries, CashOn(a))
  {
    EnforcedRunSolvent(states, ops, n);
    RunConserves(states, ops, n);
    SumZero(states[n].commits, UncoveredOn(a));
    SumZero(states[n].entries, ReversedOn(a));
  }
}
