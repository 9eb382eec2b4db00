/** What resolving an open debit case sets free (lib/reward-credit.ts). */
module DebitCases {
  import opened Basics
  import opened WalletLedger
  import WalletRuns

  /** Spendable money that resolving case `i` sets free now. */
  function ReleasedByResolving(cases: seq<Case>, user: Id, i: nat, available: int): int
    requires i < |cases|
  {
    var spendable := Max(0, available);
    Min(spendable, HeldByOpenDebitCases(cases, user))
    - Min(spendable, HeldByOpenDebitCases(cases[i := cases[i].(open := false)], user))
  }

  /** Without case `i` the hold falls by what its key loses, and its key loses at most that case. */
  lemma {:induction false} ResolvedHold(cases: seq<Case>, user: Id, i: nat, n: nat)
    requires i < |cases| && n <= |cases| && forall k :: 0 <= k < |cases| ==> cases[k].amount >= 0
    ensures var rest := cases[i := cases[i].(open := false)]; var key := HoldKeyOf(cases, i);
      && HeldByCases(cases, user, n) - HeldByCases(rest, user, n) == LargestHold(cases, user, key, n) - LargestHold(rest, user, key, n)
      && (forall other :: other != key ==> LargestHold(cases, user, other, n) == LargestHold(rest, user, other, n))
      && 0 <= LargestHold(rest, user, key, n) <= LargestHold(cases, user, key, n) <= Max(LargestHold(rest, user, key, n), cases[i].amount)
  {
    if n > 0 {
      ResolvedHold(cases, user, i, n - 1);
      var rest := cases[i := cases[i].(open := false)];
      assert HoldKeyOf(rest, n - 1) == HoldKeyOf(cases, n - 1);
    }
  }

  /** Resolving a case frees at most its own amount, at most what is available, and never less than nothing. */
  lemma ResolvingReleases(cases: seq<Case>, user: Id, i: nat, available: int)
    requires i < |cases| && forall k :: 0 <= k < |cases| ==> cases[k].amount >= 0
    ensures 0 <= ReleasedByResolving(cases, user, i, available) <= Min(cases[i].amount, Max(0, available))
  {
    ResolvedHold(cases, user, i, |cases|);
    WalletRuns.HeldNonNegative(cases[i := cases[i].(open := false)], user, |cases|);
  }
}
