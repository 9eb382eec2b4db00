/**
  Payout attribution (settlePayoutFunding in lib/reward-funding.ts).

  The reference definition is closed: with S(n) the unpaid amount of the owner's first n settled
  commits, the first n commits together give min(gross, S(n)). The loop is proved to compute it.
 */
module PayoutAttribution {
  import opened Basics
  import opened Sums
  import opened FundingBook

  /** What a payout for `user` may still draw from a commit: nothing while a review is pending. */
  function Drawable(user: Id): Commit -> int {
    (c: Commit) => if c.user == user && !c.pending then Max(0, c.held - c.paid) else 0
  }

  /** Total drawn from the first n commits. */
  function DrawnUpTo(commits: seq<Commit>, user: Id, gross: int, n: nat): int
    requires n <= |commits|
  {
    Min(gross, Sum(commits[..n], Drawable(user)))
  }

  /** Drawn from commit i. */
  function Taken(commits: seq<Commit>, user: Id, gross: int, i: nat): int
    requires i < |commits|
  {
    DrawnUpTo(commits, user, gross, i + 1) - DrawnUpTo(commits, user, gross, i)
  }

  function PaidCommits(commits: seq<Commit>, user: Id, gross: int): seq<Commit> {
    seq(|commits|, i requires 0 <= i < |commits| => commits[i].(paid := commits[i].paid + Taken(commits, user, gross, i)))
  }

  /** Drawn from the first n commits of account a. */
  function DrawnFrom(commits: seq<Commit>, user: Id, gross: int, a: Id, n: nat): int
    requires n <= |commits|
  {
    if n == 0 then 0
    else DrawnFrom(commits, user, gross, a, n - 1)
         + if commits[n - 1].account == a then Taken(commits, user, gross, n - 1) else 0
  }

  /** Accounts some of whose commits are drawn. */
  function Sources(commits: seq<Commit>, user: Id, gross: int): set<Id> {
    set i | 0 <= i < |commits| && Taken(commits, user, gross, i) > 0 :: commits[i].account
  }

  // ----- account order --------------------------------------------------------------------------

  function Least(s: set<Id>): (m: Id)
    requires s != {}
    ensures m in s && forall x :: x in s ==> m <= x
  {
    LeastExists(s);
    var m :| m in s && forall x :: x in s ==> m <= x;
    m
  }

  lemma {:induction false} LeastExists(s: set<Id>)
    requires s != {}
    ensures exists m :: m in s && forall x :: x in s ==> m <= x
  {
    var y :| y in s;
    if s != {y} {
      LeastExists(s - {y});
      var m :| m in s - {y} && forall x :: x in s - {y} ==> m <= x;
      if y < m {
        assert forall x :: x in s ==> x == y || x in s - {y};
        assert y in s && forall x :: x in s ==> y <= x;
      } else {
        assert forall x :: x in s ==> x == y || x in s - {y};
        assert m in s && forall x :: x in s ==> m <= x;
      }
    }
  }

  predicate Ascending(ids: seq<Id>) { forall i, j :: 0 <= i < j < |ids| ==> ids[i] < ids[j] }

  function SortedIds(s: set<Id>): (ids: seq<Id>)
    ensures Ascending(ids)
    ensures forall a :: a in ids <==> a in s
    decreases |s|
  {
    if s == {} then []
    else
      var m := Least(s);
      [m] + SortedIds(s - {m})
  }

  // ----- the payout step ------------------------------------------------------------------------

  function PayoutEntry(redemption: Id, account: Id, amount: int): Entry {
    Entry(account, PayoutFrom(redemption, account), Payout, -amount, Some(redemption))
  }

  function PayoutEntries(commits: seq<Commit>, user: Id, gross: int, redemption: Id, ids: seq<Id>): seq<Entry> {
    seq(|ids|, i requires 0 <= i < |ids| =>
      PayoutEntry(redemption, ids[i], DrawnFrom(commits, user, gross, ids[i], |commits|)))
  }

  function Debited(account: Account, amount: int): Account {
    Account(account.confirmed - amount, account.held - amount)
  }

  /** The accounts after the payout; undefined drawn accounts never occur in a wired book. */
  function PayoutAccounts(b: Book, user: Id, gross: int, ids: seq<Id>): map<Id, Account> {
    map a | a in b.accounts ::
      if a in ids then Debited(b.accounts[a], DrawnFrom(b.commits, user, gross, a, |b.commits|)) else b.accounts[a]
  }

  /** Some debited counter leaves its range. */
  predicate PayoutOverflows(accounts: map<Id, Account>, ids: seq<Id>) {
    exists k :: 0 <= k < |ids| && ids[k] in accounts
                && !(InCounterRange(accounts[ids[k]].confirmed) && InCounterRange(accounts[ids[k]].held))
  }

  datatype PayoutResult = PayoutResult(attributed: int, legacy: int, existing: bool)

  function RecordedPayout(redemption: Id): Entry -> int {
    (e: Entry) => if e.kind == Payout && e.redemption == Some(redemption) then -e.amount else 0
  }

  function SettlePayout(b: Book, redemption: Id, user: Id, gross: int): Result<(Book, PayoutResult), FundingError> {
    if !Rupiah(gross, 1) then Err(AmountInvalid)
    else if Find(b.entries, PayoutOfRedemption(redemption)).Some? then
      var attributed := Sum(b.entries, RecordedPayout(redemption));
      Ok((b, PayoutResult(attributed, gross - attributed, true)))
    else
      var ids := SortedIds(Sources(b.commits, user, gross));
      var accounts := PayoutAccounts(b, user, gross, ids);
      if PayoutOverflows(accounts, ids) then Err(AmountInvalid)
      else
        var attributed := DrawnUpTo(b.commits, user, gross, |b.commits|);
        Ok((b.(accounts := accounts,
               commits := PaidCommits(b.commits, user, gross),
               entries := b.entries + PayoutEntries(b.commits, user, gross, redemption, ids)),
            PayoutResult(attributed, gross - attributed, false)))
  }

  /** Accounts a payout for `user` may draw from, in id order: what the transition locks first. */
  function FundingAccounts(commits: seq<Commit>, user: Id): (ids: seq<Id>)
    ensures Ascending(ids)
  {
    SortedIds(set i | 0 <= i < |commits| && Drawable(user)(commits[i]) > 0 :: commits[i].account)
  }

  // ----- properties of the attribution ----------------------------------------------------------

  lemma {:induction false} PrefixSums(commits: seq<Commit>, user: Id, n: nat)
    requires n <= |commits|
    ensures Sum(commits[..n], Drawable(user)) >= 0
    ensures n < |commits| ==>
              Sum(commits[..n + 1], Drawable(user)) == Sum(commits[..n], Drawable(user)) + Drawable(user)(commits[n])
  {
    SumNonNegative(commits[..n], Drawable(user));
    if n < |commits| {
      assert commits[..n + 1][..n] == commits[..n];
    }
  }

  lemma {:induction false} PrefixMonotone(commits: seq<Commit>, user: Id, m: nat, n: nat)
    requires m <= n <= |commits|
    ensures Sum(commits[..m], Drawable(user)) <= Sum(commits[..n], Drawable(user))
    decreases n
  {
    if m < n {
      PrefixMonotone(commits, user, m, n - 1);
      PrefixSums(commits, user, n - 1);
    }
  }

  /** Each draw is within what the commit has open. */
  lemma TakenBounds(commits: seq<Commit>, user: Id, gross: int, i: nat)
    requires i < |commits| && gross >= 0
    ensures 0 <= Taken(commits, user, gross, i) <= Drawable(user)(commits[i])
  {
    PrefixSums(commits, user, i);
  }

  /** Oldest first: a commit is drawn only when every earlier settled commit of the owner is drawn dry. */
  lemma OldestFirst(commits: seq<Commit>, user: Id, gross: int, i: nat, j: nat)
    requires i < j < |commits| && gross >= 0
    requires Taken(commits, user, gross, j) > 0
    ensures Taken(commits, user, gross, i) == Drawable(user)(commits[i])
    ensures commits[i].user == user && !commits[i].pending && commits[i].held >= commits[i].paid ==>
              PaidCommits(commits, user, gross)[i].paid == commits[i].held
  {
    PrefixSums(commits, user, j);
    PrefixMonotone(commits, user, i + 1, j);
    PrefixSums(commits, user, i);
  }

  /** Everything open is drawn, up to the gross. */
  lemma AttributesMinimum(b: Book, redemption: Id, user: Id, gross: int)
    requires SettlePayout(b, redemption, user, gross).Ok?
    requires Find(b.entries, PayoutOfRedemption(redemption)).None?
    ensures var r := SettlePayout(b, redemption, user, gross).value.1;
            && r.attributed == Min(gross, Sum(b.commits, Drawable(user)))
            && r.attributed + r.legacy == gross && r.attributed >= 0 && r.legacy >= 0
  {
    assert b.commits[..|b.commits|] == b.commits;
    PrefixSums(b.commits, user, |b.commits|);
  }

  lemma {:induction false} DrawnFromBounds(commits: seq<Commit>, user: Id, gross: int, a: Id, n: nat)
    requires n <= |commits| && gross >= 0
    ensures DrawnFrom(commits, user, gross, a, n) >= 0
    ensures DrawnFrom(commits, user, gross, a, n) > 0 <==>
              exists i :: 0 <= i < n && commits[i].account == a && Taken(commits, user, gross, i) > 0
  {
    if n > 0 {
      DrawnFromBounds(commits, user, gross, a, n - 1);
      TakenBounds(commits, user, gross, n - 1);
    }
  }

  /** What the draw loop takes from commit i when `remaining` of the gross is still to attribute. */
  lemma DrawStep(commits: seq<Commit>, user: Id, gross: int, i: nat, remaining: int)
    requires i < |commits| && gross >= 0
    requires gross - remaining == DrawnUpTo(commits, user, gross, i)
    ensures remaining >= 0
    ensures var take := Min(remaining, commits[i].held - commits[i].paid);
            Taken(commits, user, gross, i) == if commits[i].user == user && !commits[i].pending && take > 0 then take else 0
  {
    PrefixSums(commits, user, i);
  }

  /** The running totals per account after the first n commits: exactly the accounts drawn so far. */
  ghost predicate Tallied(perAccount: map<Id, int>, commits: seq<Commit>, user: Id, gross: int, n: nat)
    requires n <= |commits|
  {
    forall a {:trigger a in perAccount} :: 
      && (a in perAccount <==> DrawnFrom(commits, user, gross, a, n) > 0)
      && (a in perAccount ==> perAccount[a] == DrawnFrom(commits, user, gross, a, n))
  }

  lemma TallyStep(perAccount: map<Id, int>, commits: seq<Commit>, user: Id, gross: int, n: nat)
    requires n < |commits| && gross >= 0 && Tallied(perAccount, commits, user, gross, n)
    ensures var take := Taken(commits, user, gross, n);
            var account := commits[n].account;
            var sum := (if account in perAccount then perAccount[account] else 0) + take;
            Tallied(if take > 0 then perAccount[account := sum] else perAccount, commits, user, gross, n + 1)
  {
    TakenBounds(commits, user, gross, n);
    forall a ensures DrawnFrom(commits, user, gross, a, n) >= 0 { DrawnFromBounds(commits, user, gross, a, n); }
  }

  /** The commits after the first n were drawn. */
  ghost function PaidUpTo(commits: seq<Commit>, user: Id, gross: int, n: nat): seq<Commit>
    requires n <= |commits|
  {
    PaidCommits(commits, user, gross)[..n] + commits[n..]
  }

  lemma PaidUpToStep(commits: seq<Commit>, user: Id, gross: int, n: nat)
    requires n < |commits|
    ensures PaidUpTo(commits, user, gross, n)[n] == commits[n]
    ensures PaidUpTo(commits, user, gross, n + 1)
            == PaidUpTo(commits, user, gross, n)[n := commits[n].(paid := commits[n].paid + Taken(commits, user, gross, n))]
  {
  }

  /** Once the gross is attributed, no later commit is touched. */
  lemma {:induction false} DrawnDry(commits: seq<Commit>, user: Id, gross: int, i: nat, n: nat)
    requires i <= n <= |commits| && gross >= 0
    requires DrawnUpTo(commits, user, gross, i) == gross
    ensures DrawnUpTo(commits, user, gross, n) == gross
    ensures forall a :: DrawnFrom(commits, user, gross, a, n) == DrawnFrom(commits, user, gross, a, i)
    ensures forall j :: i <= j < n ==> Taken(commits, user, gross, j) == 0
    ensures n == |commits| ==> PaidUpTo(commits, user, gross, i) == PaidCommits(commits, user, gross)
    decreases n
  {
    if i < n {
      DrawnDry(commits, user, gross, i, n - 1);
      TakenBounds(commits, user, gross, n - 1);
    }
  }

  lemma TalliedSources(perAccount: map<Id, int>, commits: seq<Commit>, user: Id, gross: int)
    requires gross >= 0 && Tallied(perAccount, commits, user, gross, |commits|)
    ensures perAccount.Keys == Sources(commits, user, gross)
  {
    forall a ensures a in perAccount <==> a in Sources(commits, user, gross) {
      DrawnFromBounds(commits, user, gross, a, |commits|);
    }
  }

  function Amount(e: Entry): int { e.amount }

  /** Sum of the draws of accounts `ids` over the first n commits. */
  function DrawnFromAll(commits: seq<Commit>, user: Id, gross: int, ids: seq<Id>, n: nat): int
    requires n <= |commits|
  {
    if |ids| == 0 then 0
    else DrawnFromAll(commits, user, gross, ids[..|ids| - 1], n) + DrawnFrom(commits, user, gross, ids[|ids| - 1], n)
  }

  lemma {:induction false} DrawnFromAllStep(commits: seq<Commit>, user: Id, gross: int, ids: seq<Id>, n: nat)
    requires n < |commits| && Ascending(ids)
    ensures DrawnFromAll(commits, user, gross, ids, n + 1) == DrawnFromAll(commits, user, gross, ids, n)
              + if commits[n].account in ids then Taken(commits, user, gross, n) else 0
  {
    if |ids| > 0 {
      var front := ids[..|ids| - 1];
      DrawnFromAllStep(commits, user, gross, front, n);
      assert ids == front + [ids[|ids| - 1]];
      assert commits[n].account == ids[|ids| - 1] ==> commits[n].account !in front;
    }
  }

  lemma {:induction false} DrawnFromAllZero(commits: seq<Commit>, user: Id, gross: int, ids: seq<Id>)
    ensures DrawnFromAll(commits, user, gross, ids, 0) == 0
  {
    if |ids| > 0 {
      DrawnFromAllZero(commits, user, gross, ids[..|ids| - 1]);
    }
  }

  /** Summed over the source accounts, the draws are exactly what was attributed. */
  lemma {:induction false} DrawnFromAllTotal(commits: seq<Commit>, user: Id, gross: int, ids: seq<Id>, n: nat)
    requires n <= |commits| && gross >= 0 && Ascending(ids)
    requires forall i :: 0 <= i < |commits| && Taken(commits, user, gross, i) > 0 ==> commits[i].account in ids
    ensures DrawnFromAll(commits, user, gross, ids, n) == DrawnUpTo(commits, user, gross, n)
  {
    if n == 0 {
      DrawnFromAllZero(commits, user, gross, ids);
    } else {
      DrawnFromAllTotal(commits, user, gross, ids, n - 1);
      DrawnFromAllStep(commits, user, gross, ids, n - 1);
      TakenBounds(commits, user, gross, n - 1);
    }
  }

  lemma {:induction false} EntriesTotal(commits: seq<Commit>, user: Id, gross: int, redemption: Id, ids: seq<Id>)
    ensures Sum(PayoutEntries(commits, user, gross, redemption, ids), Amount)
            == -DrawnFromAll(commits, user, gross, ids, |commits|)
  {
    if |ids| > 0 {
      var front := ids[..|ids| - 1];
      EntriesTotal(commits, user, gross, redemption, front);
      var entries := PayoutEntries(commits, user, gross, redemption, ids);
      assert entries[..|ids| - 1] == PayoutEntries(commits, user, gross, redemption, front);
    }
  }

  lemma {:induction false} EntriesOn(commits: seq<Commit>, user: Id, gross: int, redemption: Id, ids: seq<Id>, a: Id)
    requires Ascending(ids)
    ensures Sum(PayoutEntries(commits, user, gross, redemption, ids), CashOn(a))
            == if a in ids then -DrawnFrom(commits, user, gross, a, |commits|) else 0
  {
    if |ids| > 0 {
      var front := ids[..|ids| - 1];
      EntriesOn(commits, user, gross, redemption, front, a);
      var entries := PayoutEntries(commits, user, gross, redemption, ids);
      assert entries[..|ids| - 1] == PayoutEntries(commits, user, gross, redemption, front);
      assert ids == front + [ids[|ids| - 1]];
    }
  }

  /** One PAYOUT entry per source account, in account order, each a debit. */
  lemma EntriesWellFormed(commits: seq<Commit>, user: Id, gross: int, redemption: Id)
    requires gross >= 0
    ensures var entries := PayoutEntries(commits, user, gross, redemption, SortedIds(Sources(commits, user, gross)));
            && (forall i, j :: 0 <= i < j < |entries| ==> entries[i].account < entries[j].account)
            && (forall i :: 0 <= i < |entries| ==> entries[i].amount < 0 && PayoutOfRedemption(redemption)(entries[i]))
  {
    var ids := SortedIds(Sources(commits, user, gross));
    forall a | a in ids ensures DrawnFrom(commits, user, gross, a, |commits|) > 0 {
      assert a in Sources(commits, user, gross);
      DrawnFromBounds(commits, user, gross, a, |commits|);
    }
  }

  /** The PAYOUT entries of one settlement sum to the attributed amount. */
  lemma EntriesSumToAttributed(b: Book, redemption: Id, user: Id, gross: int)
    requires SettlePayout(b, redemption, user, gross).Ok?
    requires Find(b.entries, PayoutOfRedemption(redemption)).None?
    ensures var (b', r) := SettlePayout(b, redemption, user, gross).value;
            b.entries <= b'.entries && Sum(b'.entries[|b.entries|..], Amount) == -r.attributed
  {
    var ids := SortedIds(Sources(b.commits, user, gross));
    EntriesTotal(b.commits, user, gross, redemption, ids);
    SourcesCovered(b.commits, user, gross);
    DrawnFromAllTotal(b.commits, user, gross, ids, |b.commits|);
    AddedEntries(b, redemption, user, gross);
  }

  lemma SourcesCovered(commits: seq<Commit>, user: Id, gross: int)
    ensures forall i :: 0 <= i < |commits| && Taken(commits, user, gross, i) > 0 ==>
              commits[i].account in SortedIds(Sources(commits, user, gross))
  {
  }

  lemma AddedEntries(b: Book, redemption: Id, user: Id, gross: int)
    requires SettlePayout(b, redemption, user, gross).Ok?
    requires Find(b.entries, PayoutOfRedemption(redemption)).None?
    ensures var b' := SettlePayout(b, redemption, user, gross).value.0;
            && b.entries <= b'.entries
            && b'.entries[|b.entries|..]
               == PayoutEntries(b.commits, user, gross, redemption, SortedIds(Sources(b.commits, user, gross)))
  {
  }

  /** No account's capacity (confirmed - held) moves. */
  lemma CapacityUnchanged(b: Book, redemption: Id, user: Id, gross: int)
    requires SettlePayout(b, redemption, user, gross).Ok?
    ensures var b' := SettlePayout(b, redemption, user, gross).value.0;
            && b'.accounts.Keys == b.accounts.Keys
            && forall a :: a in b.accounts ==>
                 b'.accounts[a].confirmed - b'.accounts[a].held == b.accounts[a].confirmed - b.accounts[a].held
  {
  }

  /** Every account a payout draws from was locked by the transition beforehand. */
  lemma SourcesWereLocked(commits: seq<Commit>, user: Id, gross: int)
    requires gross >= 0
    ensures forall a :: a in Sources(commits, user, gross) ==> a in FundingAccounts(commits, user)
  {
    forall i | 0 <= i < |commits| && Taken(commits, user, gross, i) > 0
      ensures commits[i].account in FundingAccounts(commits, user)
    {
      TakenBounds(commits, user, gross, i);
    }
  }

  /** A payout leaves an entry behind exactly when it attributed something. */
  lemma EntryRecorded(b: Book, redemption: Id, user: Id, gross: int)
    requires SettlePayout(b, redemption, user, gross).Ok?
    requires Find(b.entries, PayoutOfRedemption(redemption)).None?
    ensures var (b', r) := SettlePayout(b, redemption, user, gross).value;
            Find(b'.entries, PayoutOfRedemption(redemption)).Some? <==> r.attributed > 0
  {
    var (b', r) := SettlePayout(b, redemption, user, gross).value;
    EntriesSumToAttributed(b, redemption, user, gross);
    EntriesWellFormed(b.commits, user, gross, redemption);
    AddedEntries(b, redemption, user, gross);
    var added := b'.entries[|b.entries|..];
    if |added| == 0 {
      assert b'.entries == b.entries;
    } else {
      assert PayoutOfRedemption(redemption)(b'.entries[|b.entries|]) by { assert b'.entries[|b.entries|] == added[0]; }
      NegativeSum(added);
    }
  }

  /** The owner has a settled commit that is not fully paid. */
  ghost predicate HasOpenCommit(commits: seq<Commit>, user: Id) {
    exists i :: 0 <= i < |commits| && commits[i].user == user && !commits[i].pending && commits[i].held > commits[i].paid
  }

  lemma {:induction false} OpenCommitSums(commits: seq<Commit>, user: Id)
    ensures Sum(commits, Drawable(user)) > 0 <==> HasOpenCommit(commits, user)
  {
    SumNonNegative(commits, Drawable(user));
    if i :| 0 <= i < |commits| && commits[i].user == user && !commits[i].pending && commits[i].held > commits[i].paid {
      SumAtLeastOne(commits, i, Drawable(user));
    } else {
      SumZero(commits, Drawable(user));
    }
  }

  /** A repeated payout is recognised, and then writes nothing, exactly when the first call found an open commit of its owner. */
  lemma ReplayRecognised(b: Book, redemption: Id, user: Id, gross: int)
    requires SettlePayout(b, redemption, user, gross).Ok?
    requires Find(b.entries, PayoutOfRedemption(redemption)).None?
    ensures var b' := SettlePayout(b, redemption, user, gross).value.0; var again := SettlePayout(b', redemption, user, gross);
      && (again.Ok? && again.value.1.existing <==> HasOpenCommit(b.commits, user))
      && (HasOpenCommit(b.commits, user) ==> again.value.0 == b')
  {
    EntryRecorded(b, redemption, user, gross);
    AttributesMinimum(b, redemption, user, gross);
    OpenCommitSums(b.commits, user);
  }

  /** A payout that found none is attributed anew as soon as its owner has an open commit. */
  lemma UnrecognisedDrawsAgain(b: Book, later: Book, redemption: Id, user: Id, gross: int)
    requires SettlePayout(b, redemption, user, gross).Ok? && Find(b.entries, PayoutOfRedemption(redemption)).None?
    requires !HasOpenCommit(b.commits, user) && HasOpenCommit(later.commits, user)
    requires later.entries == SettlePayout(b, redemption, user, gross).value.0.entries
    requires SettlePayout(later, redemption, user, gross).Ok?
    ensures var r := SettlePayout(later, redemption, user, gross).value.1;
      !r.existing && r.attributed == Min(gross, Sum(later.commits, Drawable(user))) > 0
  {
    ReplayRecognised(b, redemption, user, gross);
    EntryRecorded(b, redemption, user, gross);
    AttributesMinimum(b, redemption, user, gross);
    OpenCommitSums(b.commits, user);
    OpenCommitSums(later.commits, user);
    AttributesMinimum(later, redemption, user, gross);
  }

  lemma {:induction false} NegativeSum(entries: seq<Entry>)
    requires |entries| > 0
    requires forall i :: 0 <= i < |entries| ==> entries[i].amount < 0
    ensures Sum(entries, Amount) < 0
  {
    if |entries| > 1 {
      NegativeSum(entries[..|entries| - 1]);
    }
  }
}
