# ReLoop money book and safety protocols, verified in Dafny

ReLoop pays people for returning waste. This project models the parts of it where a mistake costs money or
moves an actuator, and proves what they promise over every run:

- **Reward funding book** (`FundingBook`, `FundingRuns`, `FundingFrames`, `FundingReplay`, `FundingWriters`, `Payout`, `PayoutReplay`): reservations, commits,
  releases, cash entries and payouts, and the denormalised counters that must agree with them.
- **Wallet** (`Wallet`, `WalletRuns`, `WalletService`, `DebitCases`, `ReviewSettlement`, `ReviewExposure`, `ReviewTraffic`,
  `ReviewFunding`, `ReviewPricing`, `FraudReplay`, `SessionPolicy`): the
  append-only ledger, the payout machine, reward effects, reconciliation cases and review settlement.
- **Reconciliation report** (`Reconciliation`): a read model that cannot hide a gap.
- **RVM safety controller** (`RvmController`): the latch, guarded actuator writes and stops that can fail.
- **Deposit sessions and leases** (`Sessions`, `SessionRuns`, `SessionService`).
- **Trash-bag trips** (`Trips`, `TripRuns`, `TripShadow`, `TripService`) on top of the same funding book.
- **Audit chain** (`Json`, `JsonInjective`, `AuditChain`, `AuditWalk`, with `Ordering`).
- **TOTP single use** (`Mfa`), **base32** (`Base32`) and the **global lock order** (`Locks`).

How it is built. A transaction body is one atomic step, written as a function from tables to tables or to an
error; an error carries no new table, because a thrown error rolls the writes back. Lemmas prove what every step
keeps and lift it to runs. Where the program updates rows step by step, a class with those fields has methods whose
contracts equate the new state with the function of the old one (the table below names the main
ones). A table is a sequence of rows in creation order
and a row id is its index. Business keys are datatype constructors, so keys of different sources never collide.
Multipliers are exact basis points.

Five results are worth a maintainer's attention.

- A review may approve a quantity between 1 and 999 (app/api/deposit-reviews/[id]/route.ts:12), but the exposure
  kept for an undecided item is the cap of a single item. `ApprovalOfTwoUncovered` is an approval that leaves half
  its reward uncovered, `SettlementUncovered` says exactly how much any decision leaves uncovered, and
  `ApprovalWithinSessionCap` gives the largest quantity that stays within the cap.
- A payout replay is recognised exactly when the first call found an open commit of its owner (`ReplayRecognised`);
  `ReplayDrawsAgain` is a run in which it is not. The redemption state machine (`FinishedStaysFinished`), not the
  entry table, is what keeps a success from being settled twice.
- A trip return is always covered only under enforcement, where the program guard refuses a raise while bags are
  out; `ShadowRaiseUncovered` shows what shadow mode lets through.
- A stop outside the controller lock can set the fault between another thread's check and its write, so an output
  can be switched on with the fault set. `WriteDuringFailingStop` does so from every state in which the check passes,
  `GuardedWrite` shows that nothing but a stop in flight can, and `FailingStopCatchesUp` that its locked part ends it.
- A fraud hold that cannot move an earning opens its case once per item. Once that case is resolved, a second hold
  that cannot move the earning either withholds nothing (`HeldOrParked`), and `ResolvedHoldWithdrawn` is a run in which the earning is then withdrawn.

`dafny verify dfyconfig.toml` checks everything.

## Model

| member | source | states |
|---|---|---|
| `FundingRuns.ReserveKeeps` | lib/reward-funding.ts:603-688 | A reservation, new, extended or re-activated, keeps every account and campaign counter equal to the rows it summarises; an enforced one keeps the book solvent. |
| `FundingRuns.ResolveKeeps` | lib/reward-funding.ts:713-762 | Resolving an earning source, including the late zero-ceiling reservation, keeps agreement and solvency. |
| `FundingRuns.CommitKeeps` | lib/reward-funding.ts:789-846 | A commit keeps every counter equal to its rows, and solvency. |
| `FundingRuns.SettleKeeps` | lib/reward-funding.ts:852-894 | Settling an obligation up or down, never below what was paid, keeps agreement and solvency. |
| `FundingRuns.SettleOrCommitKeeps` | lib/reward-funding.ts:907-930 | Review settlement keeps agreement and solvency whether it settles an existing commit or creates one. |
| `FundingRuns.MarkPendingKeeps` | lib/reward-funding.ts:938-940 | A fraud hold moves no counter. |
| `FundingRuns.ReleaseKeeps` | lib/reward-funding.ts:950-1015 | A keyed or closing release keeps every counter equal to its rows, and solvency. |
| `FundingRuns.RecordKeeps` | lib/reward-funding.ts:1101-1137 | A cash entry keeps confirmed equal to the recorded entries, and solvency up to reversed cash. |
| `FundingRuns.PayoutKeeps` | lib/reward-funding.ts:1177-1224 | Paying commits and debiting their accounts keeps held, confirmed, campaign held and campaign spent in agreement with the rows. |
| `FundingRuns.StepKeeps` | lib/reward-funding.ts:518-552 | Every transaction of the book keeps agreement; with enforced admissions also solvency. |
| `FundingRuns.RunConserves` | lib/reward-funding.ts:518-552 | Funding conservation: after every run from the empty book, account held = reservation remainders + (commit held - paid), campaign held = remainders, campaign spent = commits held, confirmed = cash entries. |
| `FundingRuns.EnforcedRunSolvent` | lib/reward-funding.ts:566-579 | Enforced solvency: confirmed - held never falls below minus (uncovered + negative corrections), budget - held - spent never below minus the campaign uncovered, a missing, zero or negative budget counting as 0. |
| `FundingRuns.CoveredRunNeverShort` | lib/reward-funding.ts:637-657 | Without over-commits and reversals an account never promises more than its confirmed cash. |
| `FundingReplay.ReserveReplay` | lib/reward-funding.ts:615-622 | Reserving again for the same source returns the same reservation and changes nothing. |
| `FundingReplay.CommitSplits` | lib/reward-funding.ts:815-843 | A new commit holds the whole amount: what the reservation lost plus what is recorded as uncovered, and uncovered only once the reservation has nothing left or is closed. |
| `FundingReplay.CommitReplay` | lib/reward-funding.ts:805-814 | Committing again under the same key returns the recorded commit and changes nothing. |
| `FundingReplay.ReleaseReplay` | lib/reward-funding.ts:950-979 | Releasing again under the same key gives nothing back a second time and reports what was recorded. |
| `FundingReplay.CashReplay` | lib/reward-funding.ts:1101-1137 | Recording the same proof again moves no cash. |
| `FundingFrames.ElsewhereSpares` | lib/reward-funding.ts:603-1224 | Every transaction about another source and another earning leaves a source's reservation and an earning's obligation as they were, but for what a payout pays. |
| `FundingWriters.FundingTables.ReserveRewardBudget` | lib/reward-funding.ts:603-688 | The row-by-row reserve ends in the specified book; an error thrown after a write restores the tables. |
| `FundingWriters.FundingTables.CommitRewardAgainstBudget` | lib/reward-funding.ts:789-846 | The same for a commit: a counter out of range undoes the drawn row. |
| `FundingWriters.FundingTables.SettleCommittedReward` | lib/reward-funding.ts:852-894 | The same for a settlement in either direction. |
| `FundingWriters.FundingTables.ReleaseUnusedRewardBudget` | lib/reward-funding.ts:950-1015 | The same for a release. |
| `FundingWriters.FundingTables.RecordFundingEntry` | lib/reward-funding.ts:1101-1137 | The same for a cash entry: a counter out of range removes the inserted entry. |
| `FundingWriters.FundingTables.DrawCommits` | lib/reward-funding.ts:1194-1203 | The draw loop pays oldest commits first and totals the draws per account. |
| `FundingWriters.FundingTables.DebitSources` | lib/reward-funding.ts:1204-1221 | One debit of confirmed and held, and one entry, per source account in id order. |
| `FundingWriters.FundingTables.SettlePayoutFunding` | lib/reward-funding.ts:1177-1224 | The two loops leave exactly the specified book and result; a recognised replay writes nothing. |
| `PayoutAttribution.AttributesMinimum` | lib/reward-funding.ts:1194-1203 | The attributed amount is min(gross, everything open on the owner's settled commits). |
| `PayoutAttribution.OldestFirst` | lib/reward-funding.ts:1194-1203 | A commit is drawn only when every earlier eligible one is fully paid. |
| `PayoutAttribution.TakenBounds` | lib/reward-funding.ts:1196-1203 | No draw exceeds what its commit has open, so paid never exceeds held. |
| `PayoutAttribution.EntriesWellFormed` | lib/reward-funding.ts:1204-1221 | One negative PAYOUT entry per source account, in account order. |
| `PayoutAttribution.EntriesSumToAttributed` | lib/reward-funding.ts:1204-1223 | The entries of a settlement sum to minus the attributed amount. |
| `PayoutAttribution.CapacityUnchanged` | lib/reward-funding.ts:1204-1223 | confirmed - held of every account is unchanged by a payout. |
| `PayoutAttribution.ReplayRecognised` | lib/reward-funding.ts:1182-1194 | A repeated payout is recognised, and then writes nothing, exactly when the first call found a settled, not fully paid commit of its owner. |
| `PayoutAttribution.UnrecognisedDrawsAgain` | lib/reward-funding.ts:1182-1203 | A payout that found none is attributed anew, for min(gross, open), as soon as its owner has an open commit. |
| `PayoutReplay.ReplayDrawsAgain` | lib/reward-funding.ts:1177-1224 | A run of the book from empty in which the same payout is called twice, attributing 0 and then the whole 500. |
| `PayoutAttribution.SourcesWereLocked` | lib/reward-funding.ts:1149-1155 | Every account a payout draws from is among those locked beforehand. |
| `SessionPolicy.SnapshotMaxItemCap` | lib/session-policy.ts:124-133 | The loop returns the largest per-type cap, none when some type is unbounded, 0 for a session without money. |
| `SessionPolicy.WeighedApprovalWithinCap` | lib/session-policy.ts:83-94 | An approved weighed item within its weight window never pays more than its type's cap. |
| `SessionPolicy.CountedWithinCap` | lib/deposit-review.ts:335-350 | A counted item prices within a cap exactly when its quantity is at most a limit computable from rate, multiplier and cap. |
| `SessionPolicy.OneItemWithinOwnCap` | lib/session-policy.ts:83-94 | Against the cap of its own type, a type that pays at least one rupiah an item admits quantity 1 and no more. |
| `SessionPolicy.ApprovalWithinSessionCap` | lib/deposit-review.ts:290-355 | Weighed within the window, or counted within the limit, an approval is at most the session's largest cap; for a counted type exactly then. |
| `ReviewPricing.AdmissibleApprovalCovered` | lib/deposit-review.ts:508-600 | Such an approval adds zero uncovered rupiah and keeps enough for every other undecided item. |
| `ReviewPricing.ApprovalOfTwoUncovered` | app/api/deposit-reviews/[id]/route.ts:12 | A concrete snapshot, book and session that keeps exactly its exposure, where approving quantity 2 leaves 1000 rupiah uncovered. |
| `ReviewExposure.SettlementUncovered` | lib/reward-funding.ts:852-930 | For any target: uncovered grows by exactly max(0, raise - what the reservation can still give), so by nothing exactly when the raise is covered. |
| `ReviewExposure.DecisionUncovered` | lib/deposit-review.ts:584-600 | The same for a whole decision with its close. |
| `ReviewTraffic.ReviewsCoveredInTraffic` | lib/reward-funding.ts:349-395 | Whatever payouts, cash, fraud holds and other sources do in between, every in-cap decision of the session adds zero uncovered rupiah and leaves enough for the rest. |
| `ReviewFunding.SameDecision` | lib/reward-funding.ts:349-395 | The funding part of the wallet's review decision is the session's own decision, book for book and error for error, when the close is taken exactly at exposure 0. |
| `ReviewFunding.DecisionCoveredInWallet` | lib/deposit-review.ts:583-600 | So a wallet decision within the cap keeps the wallet safe, adds zero uncovered rupiah and leaves enough for the session's other undecided items. |
| `ReviewExposure.DecisionCovered` | lib/reward-funding.ts:852-930 | If a reservation keeps at least the computed exposure, an in-cap decision adds zero uncovered rupiah and the remainder still covers the remaining exposure. |
| `ReviewExposure.ReviewsCovered` | lib/reward-funding.ts:349-395 | Every sequence of in-cap review decisions on a watermarked session adds zero uncovered rupiah and keeps remainder >= exposure. |
| `ReviewExposure.NothingAfterClose` | lib/reward-funding.ts:379-395 | After the close at exposure 0 no in-cap decision draws from the reservation or raises an obligation. |
| `WalletRuns.EffectKeeps` | lib/reward-credit.ts:293-362 | A keyed reward effect keeps the wallet safe: a debit that would overdraw is parked as a case, never forced. |
| `WalletRuns.RequestKeeps` | lib/wallet-service.ts:166-237 | A payout request writes one reserve of minus its amount and never overdraws. |
| `WalletRuns.TransitionKeeps` | lib/wallet-service.ts:490-551 | Moving a request moves its reserve to the status expected for it; a success debits the funded sources. |
| `WalletRuns.FlagKeeps` | lib/wallet-service.ts:598-645 | A reconciliation flag keeps the wallet safe, rewrites no ledger row and moves no finished request. |
| `WalletRuns.FraudHoldKeeps` | lib/machine-events/fraud.ts:85-157 | A fraud hold keeps the wallet safe: an earning is held only while the balance covers it. |
| `WalletRuns.HeldOrParked` | lib/machine-events/fraud.ts:130-156 | An earning the hold could not move is withheld by an open case exactly when no resolved case had taken its key; a fresh case withholds the first such earning in full, a taken key adds nothing. |
| `FraudReplay.ResolvedHoldWithdrawn` | lib/reward-credit.ts:191-201 | A wallet run (hold, resolve, hold again) in which an item under review keeps its earning available, nothing is withheld, and the user withdraws all of it. |
| `WalletRuns.ReviewKeeps` | lib/deposit-review.ts:388-620 | A review decision keeps the wallet safe. |
| `WalletRuns.WalletStepKeeps` | lib/wallet-service.ts:317-323 | Every wallet transaction keeps: one non-rejected reserve per request, of its owner and minus its amount, with the expected status; no negative available balance; payouts backed by entries. |
| `WalletRuns.WalletRunSafe` | lib/ledger.ts:239-309 | The same over every run of requests, transitions, effects, reviews and funding traffic. |
| `WalletRuns.FinishedStaysFinished` | lib/wallet-service.ts:317-323 | A request in a terminal status keeps it for the rest of every run. |
| `WalletRuns.NeverPaysMoreThanCredited` | lib/ledger.ts:72-110 | Paid plus reserved never exceeds what was credited to the user, over every run. |
| `WalletService.ComputeBalance` | lib/ledger.ts:72-110 | The five accumulators equal the sums over the groups they are named for. |
| `WalletService.GroupedBalance` | lib/ledger.ts:116-134 | Grouping rows first and balancing the groups gives the row-wise balance. |
| `WalletService.WalletAvailable` | lib/ledger.ts:116-134 | The service's balance of a user is the sum of the rows that count as available. |
| `WalletService.HeldByDebitCases` | lib/reward-credit.ts:242-249 | The per-item map holds, for each item, its largest open debit case; the result is their sum. |
| `WalletService.HoldStep` | lib/reward-credit.ts:242-249 | One more open case adds at most its own amount to the hold. |
| `DebitCases.ResolvingReleases` | lib/reward-credit.ts:257-262 | Resolving one case frees at most its own amount, at most what is available, and never less than nothing, even when another case holds the same item. |
| `WalletService.HoldIdsAreHolds` | lib/deposit-review.ts:166-192 | The ids a plan settles are exactly the item's pending earnings, in order. |
| `WalletService.WalletTables.SettleReserve` | lib/ledger.ts:283-309 | A pending reserve takes its outcome once; the same outcome again changes nothing, the other one is a mismatch; owner, amount and every other row stay. |
| `WalletService.WalletTables.HoldItemForFraud` | lib/machine-events/fraud.ts:85-157 | The hold loop leaves exactly the specified rows and case. |
| `WalletService.WalletTables.TransitionRedemption` | lib/wallet-service.ts:480-551 | Refines the specified transition and its error cases. |
| `WalletService.WalletTables.ChangeHolds` | lib/deposit-review.ts:549-554 | The hold loops change the status of exactly the planned pending rows. |
| `WalletService.WalletTables.SettleItemLedger` | lib/deposit-review.ts:549-575 | Holds first, then the single correction, as planned. |
| `WalletService.WalletTables.ResolveItemDebitCases` | lib/reward-credit.ts:272-290 | Closes exactly the item's open paid-out cases. |
| `WalletService.WalletTables.DecideDepositReview` | lib/deposit-review.ts:388-620 | Refines the specified decision from the item row to the funding close; an error restores everything. |
| `ReviewSettlement.PlanRespectsSigns` | lib/deposit-review.ts:166-192 | For any rows the planned entry satisfies the sign rules of its writer. |
| `ReviewSettlement.PlanCountsLedger` | lib/deposit-review.ts:166-192 | The plan counts exactly what the item's rows are worth once its holds are settled. |
| `ReviewSettlement.SettlementExact` | lib/deposit-review.ts:538-594 | After a settlement that is not refused the item's available earnings and corrections sum to the target, no hold is pending, and an EARN is added only when none existed. |
| `ReviewSettlement.SettledCommit` | lib/reward-funding.ts:852-894 | An existing funding commit of the item then holds max(target, paid) and is no longer pending. |
| `ReviewSettlement.DecisionExact` | lib/deposit-review.ts:538-594 | Both together for every decision of a safe wallet. |
| `Reconciliation.DifferencesExplainGap` | lib/reconciliation-report.ts:236-286 | For any tables, ledger paid minus successful payouts is the signed sum of the paid differences over all mismatches; the same for reserved. |
| `Reconciliation.GapWithinDiscrepancy` | lib/reconciliation-report.ts:395-469 | Each total gap is at most the reported discrepancy, so gaps cannot cancel out unseen. |
| `Reconciliation.DiscrepancyExact` | lib/reconciliation-report.ts:430-437 | The report shows no discrepancy if and only if every request agrees with its own rows and no orphan row carries money. |
| `Reconciliation.WalletReportsNothing` | lib/reconciliation-report.ts:395-469 | Every state the wallet machine reaches reports no mismatch. |
| `Reconciliation.SummarizeLiabilities` | lib/reconciliation-report.ts:117-134 | What is owed counts positive balances only; overdrawn users and what they are short of are summed apart and never offset it. |
| `Reconciliation.PaidTotalByUser` | lib/reconciliation-report.ts:45-67 | Paid totals grouped by user sum to the ledger's paid total. |
| `RvmController.Controller.StopOutputs` | rvm/controller.py:841-857 | One stop attempt: everything off, or the fault recorded; nothing is switched on. |
| `RvmController.Controller.SetState` | rvm/controller.py:514-532 | A latched SAFE_STATE ends in SAFE_STATE or MAINTENANCE whatever is asked; otherwise the asked state is taken. |
| `RvmController.Controller.BeginUnlockedStop` | rvm/controller.py:541-547 | The stop outside the lock only switches off; a fault it sets leaves its locked part owed. |
| `RvmController.Controller.FinishSafeState` | rvm/controller.py:548-575 | The locked part: latched with a reason, and everything off, unless its stop failed: then the fault is on record or another unlocked stop is in flight. |
| `RvmController.Controller.FinishStopAll` | rvm/remote.py:61-72 | The locked part of STOP_ALL: everything off, or latched and raised. |
| `RvmController.Controller.LatchUnderLock` | rvm/controller.py:548-575 | However the stops fail, the latch is set and the escalation ends. |
| `RvmController.Controller.EnterSafeState` | rvm/controller.py:534-575 | However the stops fail, the escalation terminates in SAFE_STATE with a reason, everything off or the fault recorded. |
| `RvmController.Controller.SafeAllStop` | rvm/controller.py:859-874 | Off and nothing else changed, or latched with OUTPUT_STOP_FAILED. |
| `RvmController.Controller.CloseOutput` | rvm/controller.py:876-893 | A failed close latches and is raised; a done one closes what was asked and leaves the other outputs as they were. |
| `RvmController.Controller.GuardedOutput` | rvm/controller.py:818-839 | An output is switched on only with latch and the sensors read in the same lock section clear, and with no fault but one an unlocked stop in flight had just set; when blocked no write happens, and everything is stopped or the failed stop latched. |
| `RvmController.Controller.GuardedWrite` | rvm/controller.py:818-839 | The same section for given readings and given doings of the other threads: it writes exactly when the check passes, and the fault is on record at the write exactly when a stop in flight set it in between. |
| `RvmController.Controller.WriteDuringFailingStop` | rvm/controller.py:541-547 | From every state in which the check passes, another thread can begin its stop after it and fail, and the output is then switched on with the fault set. |
| `RvmController.Controller.FailingStopCatchesUp` | rvm/controller.py:534-575 | That race ends with the locked part of the stop: latched, and everything off or the fault on record. |
| `RvmController.Controller.TryOpenInputGate` | rvm/controller.py:895-909 | The same for the gate; an exhausted bound changes nothing. |
| `RvmController.Controller.MaintenanceOutput` | rvm/controller.py:911-924 | A jog outside MAINTENANCE touches nothing; inside it obeys the interlock. |
| `RvmController.Controller.ActivateLease` | rvm/controller.py:627-683 | A refused activation saves no lease and changes the state only to latch a failed stop; an accepted one leaves the gate alone running, and only below the bound. |
| `RvmController.Controller.RenewLease` | rvm/controller.py:586-625 | A renewal only extends the running, unexpired lease of the same session; it never revives, shortens or replaces one. |
| `RvmController.Controller.ExpireLease` | rvm/controller.py:926-932 | Without a lease a running session stops everything or latches; other states are untouched. |
| `RvmController.Controller.LatchHazard` | rvm/controller.py:468-481 | An active hazard ends in SAFE_STATE. |
| `RvmController.Controller.ProcessHazards` | rvm/controller.py:285-340 | Any open panel or door, impact or overheating ends latched, whatever else happened before it in the pass. |
| `RvmController.Controller.AcceptItem` | rvm/controller.py:413-461 | An item is credited only right after the conveyor was allowed to move it. |
| `RvmController.Controller.DetectItem` | rvm/controller.py:349-369 | The gate is closed before an item is processed; a failed close latches. |
| `RvmController.Controller.ProcessSensors` | rvm/controller.py:285-466 | A pass that is not aborted ends latched under a hazard, and off or faulted-and-latched whenever latched or hazardous. |
| `RvmController.Controller.Tick` | rvm/controller.py:185-214 | Tick enforcement: every non-aborting tick with a hazard ends latched in SAFE_STATE; one ending latched or hazardous ends off, or with the fault recorded and latched. |
| `RvmController.Controller.RunOnce` | rvm/controller.py:158-183 | An aborted tick ends latched, with everything off or the fault recorded. |
| `RvmController.Controller.StartAfterRestart` | rvm/controller.py:104-150 | A new process stops everything first; a machine caught mid-item or latched comes back latched. |
| `RvmController.Controller.EndServerSession` | rvm/controller.py:227-283 | The end of a server session stops the machine and never clears a latch. |
| `RvmController.Controller.Run` | rvm/controller.py:750-839 | Over any interleaving of lock sections (ticks, activations, renewals, gate requests, jogs, commands) and stops outside the lock: whatever runs was running before, or was switched on with latch and sensors clear and no fault but one an unlocked stop in flight had just set. |
| `Json.StableIsSortedPlain` | lib/audit.ts:97-108 | The canonical text is the plain JSON text of the value with its keys sorted at every depth. |
| `JsonInjective.PlainInjective` | lib/audit.ts:97-108 | Plain JSON text can be read back: equal texts, even followed by more text, mean equal values. |
| `JsonInjective.CanonicalText` | lib/audit.ts:97-108 | Two stored values have the same canonical text if and only if they differ at most in object key order. |
| `AuditChain.PayloadExact` | lib/audit.ts:115-125 | Two rows share the canonical payload if and only if all their columns agree, metadata up to key order. |
| `AuditChain.MessageInjective` | lib/audit.ts:145-149 | Position, previous checksum and payload can be read back from the signed message. |
| `AuditChain.WalkExact` | lib/audit.ts:350-388 | The verification finds no break if and only if every row is linked, and then counts all rows and keeps the last checkpoint. |
| `AuditChain.AppendVerifies` | lib/audit.ts:164-191 | An append to a verifying table verifies with one more row checked. |
| `AuditChain.AppendsVerify` | lib/audit.ts:164-191 | Any sequence of appends over a legacy archive verifies with checkedCount equal to its length. |
| `AuditChain.HeadFixesHistory` | lib/audit.ts:350-388 | With an injective MAC, two verifying tables of the same length have the same last checksum if and only if they hold the same entries in the same order. |
| `AuditWalk.WalkV2Chain` | lib/audit.ts:350-388 | The batched walk gives the one-pass verdict, break point and count for every batch size >= 1. |
| `AuditWalk.LegacyAuditSnapshot` | lib/audit.ts:287-326 | The batched archive reader gives the one-pass count, digest and status for every batch size >= 1. |
| `AuditWalk.DigestFixesArchive` | lib/audit.ts:266-278 | With an injective hash, two archives have the same digest if and only if they hold the same rows in (createdAt, id) order. |
| `AuditWalk.AuditLog.AppendAuditEntry` | lib/audit.ts:164-191 | The in-place append writes the specified row and keeps the table verifying. |
| `Ordering.PageFollows` | lib/audit.ts:351-356 | What a cursor query returns next is the rest of the ordered rows. |
| `Sessions.LeaseExpiry` | lib/deposit-session-deadline.ts:60-63 | A lease ends within 300 s and by the deadline; none is issued exactly when no whole second is left. |
| `Sessions.SessionEnd` | lib/deposit-session-deadline.ts:47-53 | The earlier of the deadline and the recorded end. |
| `SessionRuns.StartOccupancy` | lib/deposit-session-service.ts:254-345 | An admission that creates a session leaves exactly one active on its machine, even when machine events extend deadlines meanwhile; no start adds to a conflict. |
| `SessionRuns.RunExclusive` | lib/deposit-session-service.ts:254-345 | Over every run the active sessions of a machine never exceed max(1, the initial number). |
| `SessionRuns.StepBounded` | lib/deposit-session-deadline.ts:36-63 | Every step keeps each lease and pending poll of a session within its deadline. |
| `SessionRuns.StepSound` | lib/deposit-session-service.ts:528-575 | No step leaves an undecided item in an ended session. |
| `SessionRuns.RunSound` | lib/deposit-session-service.ts:105-148 | Both over every run. |
| `SessionRuns.ReachableSessions` | lib/deposit-session-service.ts:105-148 | From the empty tables: at most one active session per machine; every lease ever issued for a session closed by the timeout policy had expired at its close; no ended session holds an undecided item. |
| `SessionService.SessionTables.ExpireTimedOutSessions` | lib/deposit-session-service.ts:105-148 | The loops close exactly the due sessions among the given ones, hold exactly their undecided items and report both. |
| `SessionService.SessionTables.HoldItems` | lib/deposit-session-service.ts:121-140 | Each undecided item of a closing session goes to review, keeping a reason it already has. |
| `SessionService.SessionTables.Start` | lib/deposit-session-service.ts:254-345 | Refines the specified admission; a created session is the only active one of its machine. |
| `SessionService.SessionTables.EndDepositByOwner` | lib/deposit-session-service.ts:528-575 | Refines the specified end: refused while an item is undecided unless the deadline has passed. |
| `SessionService.SessionTables.CurrentMachineSession` | lib/deposit-session-service.ts:592-631 | The poll closes every due session, returns the one live session, and none when several are live. |
| `SessionService.PollLeaves` | lib/deposit-session-service.ts:592-631 | After a poll the reported live sessions are all active ones of the machine, none past its deadline. |
| `SessionService.SessionTables.SignLease` | app/api/machine-session/[code]/route.ts:111-116 | A lease signed from a row read earlier stays within the deadline that was read. |
| `Trips.Comply` | lib/tourism.ts:22-54 | A score is within 0..100; at check-out it is 100 exactly for a completed app, all bags returned and all GOOD. |
| `Trips.RewardWithinCeiling` | lib/trip.ts:60-75 | A return never earns more than the ceiling of at least as many bags at no lower multiplier. |
| `Trips.EvaluationBounds` | lib/trip.ts:93-129 | rewardable <= returned <= reviewed <= issued, and the reward is within the ceiling of the issued bags. |
| `TripRuns.ReservedRow` | lib/trip-issuance.ts:39-62 | Issuing or reopening leaves an active, untouched reservation that holds at least the ceiling of all issued bags. |
| `TripRuns.ReturnCovered` | lib/reward-funding.ts:230-238 | A return priced within what was reserved is drawn entirely from the reservation. |
| `TripRuns.EarnAndCloseOk` | lib/trip-validation.ts:299-325 | The completing transaction writes one commit of the earning and closes the reservation after it. |
| `TripRuns.StepFine` | lib/trip-validation.ts:250-333 | Every transaction, on trips or elsewhere in the funding book, keeps each trip's reservation and obligation as its status requires. |
| `TripRuns.RunFine` | lib/trip-issuance.ts:71-87 | The same over every run. |
| `TripRuns.TripReturnsBacked` | lib/trip-validation.ts:250-333 | Over every run, whatever terms change: a trip earns at most once and only when completed; its obligation is uncovered by exactly what exceeds its backing; and priced for no more bags at no higher multiplier than were reserved, it holds exactly that one covered obligation. |
| `TripRuns.TermsQuoted` | lib/reward-funding.ts:446-460 | A program change the guard lets through leaves every open trip with bags within what was reserved for it. |
| `TripRuns.TripReturnsCovered` | lib/reward-funding.ts:402-460 | Over every run under enforcement, with the program guard and any other funding traffic: a trip that earned is completed and holds exactly its one, fully covered, commit. |
| `TripShadow.ShadowRaiseUncovered` | lib/reward-funding.ts:451-451 | Without enforcement, a run in which a raised multiplier leaves a completed trip with 2000 rupiah uncovered. |
| `TripService.TripTables.ChangeProgramTerms` | lib/reward-funding.ts:402-460 | The guard refuses exactly the changes that pay more while a trip with bags or a session is open; a refusal writes nothing. |
| `TripService.TripTables.ValidateTripBags` | lib/trip-validation.ts:128-163 | The loop applies exactly the reported conditions; duplicates and foreign bags are refused before any write. |
| `TripService.TripTables.MarkUnreviewedBagsNotReturned` | lib/trip-validation.ts:169-175 | Exactly the unreviewed bags become NOT_RETURNED. |
| `TripService.TripTables.IssueTrashBags` | lib/trip-issuance.ts:128-181 | Refines the specified issuance; a refused reservation inserts nothing. |
| `TripService.TripTables.ChangeTripStatus` | lib/trip-issuance.ts:71-87 | Refines the specified cancel and reopen. |
| `TripService.TripTables.RefreshTripOutcome` | lib/trip-validation.ts:250-333 | Refines the specified outcome: progress, completion with or without an earning, correction. |
| `TripService.TripTables.CheckOutBags` | app/api/manual-validations/route.ts:70-150 | Bag rows and outcome change together or not at all. |
| `Mfa.StepInv` | lib/mfa.ts:108-129 | Every setup, confirmation, removal, cancellation and login half keeps the used steps of each factor strictly increasing. |
| `Mfa.SingleUse` | lib/mfa.ts:278-301 | However concurrent logins interleave with setup, confirm and disable, no (factor, step) is accepted twice (section 5.2 of RFC 6238). |
| `Mfa.SecondClaimFails` | lib/mfa.ts:293-300 | Of two logins that read the same factor and step, the second claim fails. |
| `Mfa.FindTotpStep` | lib/totp.ts:97-119 | The loop returns the latest matching step of the window, or none exactly when the token is malformed or nothing matches. |
| `Mfa.UserRow.BeginMfaSetup` | lib/mfa.ts:149-172 | Refines the specified setup; the active factor and the token version never change. |
| `Mfa.UserRow.EnableMfa` | lib/mfa.ts:186-228 | Refines the specified confirmation; a refusal never touches the active factor. |
| `Mfa.UserRow.DisableMfa` | lib/mfa.ts:236-256 | Refines the specified removal. |
| `Mfa.UserRow.CancelMfaSetup` | lib/mfa.ts:262-270 | Drops the pending setup only. |
| `Mfa.UserRow.ReadForLogin` | lib/mfa.ts:278-291 | The unlocked read writes nothing. |
| `Mfa.UserRow.ClaimStep` | lib/mfa.ts:293-300 | The claim succeeds exactly on the factor that was read and past the last used step. |
| `Base32.Encode` | lib/totp.ts:7-25 | The text spells the bytes' bits in groups of five, zero filled, and has ceil(8n/5) symbols, although the 32-bit accumulator wraps. |
| `Base32.Decode` | lib/totp.ts:27-45 | The bytes are the whole octets of the symbols' bits; letters count in either case as toUpperCase maps them, padding and other characters do not. |
| `Base32.RoundTrip` | lib/totp.ts:7-45 | Any decoding of any encoding of a byte sequence is that byte sequence. |
| `Base32.EncodeThenDecode` | lib/totp.ts:7-45 | decode(encode(b)) = b for every byte sequence. |
| `Base32.PaddingIsSkipped` | lib/totp.ts:28 | Trailing padding never changes the decoded symbols. |
| `Base32.LowPush` | lib/totp.ts:13 | Shifting bits in keeps the pending bits even when the word wraps. |
| `Locks.PathOrdered` | lib/db-locks.ts:7-72 | Every modelled transaction takes its not-yet-held row locks in increasing (class, id) order. |
| `Locks.AgainHeld` | lib/wallet-service.ts:386-391 | A lock taken again by a called service is one the transaction already holds, payout sources included. |
| `Locks.NeverDeadlocks` | lib/db-locks.ts:7-72 | In any system of transactions that follow the order, while one is open some open one can commit or is granted its next lock. |
| `Locks.TransactionsProgress` | lib/db-locks.ts:7-72 | The same in every state any interleaving, with commits and aborts, reaches; and no row is ever held twice, the last one included. |

## Left out

- SQL and Prisma mechanics: isolation, lock timeouts, retries and error mapping are represented only by atomic steps and unique keys.
- 32-bit columns without a check in the program (campaign counters, shortfall and uncovered totals): an overflow aborts the transaction, which changes nothing; the checked account counters are modelled with their bounds.
- Operator text rules: the length and format checks of references and notes are flags of the input.
- Request bodies, roles, notifications, mail, media, pagination and CSV: input and output.
- Machine-event internals (pricing at acceptance, ingest order, fraud scoring; of a fraud signal only the hold is modelled): a machine event is represented by what it may do to session, item, ledger and funding rows.
- Reservation callers: one key names one session or trip, so a repeated reserve carries the same campaign (`SameCampaign`), and a close is called with the full remainder (`FullClose`); both are conditions of the run theorems.
- Organization rows of the reconciliation report and its listing limit: they would only add sums of the same kind.
- Cryptography: the MAC and the archive hash are injective functions with one-line output, dates render injectively, a new TOTP secret is one never drawn before, and a code's match is an arbitrary step.
- JavaScript floating point: multiplier rounding is exact integer arithmetic, so a product that a double would round differently is not represented.
- Text order and case: object keys compare by UTF-16 units as JavaScript does; row ids compare in the same order, whatever the database collation.
- Strings with lone surrogates: PostgreSQL JSON stores none, so a character is a Unicode scalar value.
- Audit metadata redaction and the operator's checkpoint script: data and reporting around the verified walk.
- RVM hardware: a failing write that switches an output on is not represented (a failing stop is); clocks, sensors, camera workers and stop failures are arbitrary, and an unlocked stop in flight may move the fault either way at any point of another section. Maintenance PINs, uploads and kiosk views are out.
- Start retries: the unique-index conflict of a writer that skipped the machine lock, and its one retry, are out.
- SessionService.SessionTables.CurrentMachineSession: its transactions are run one after the other; other commits between them are covered by the run theorems, where each is a separate step.
- TripService.TripTables.CheckOutBags: the gate-stage and invited-agent refusals are out, so it covers more check-outs than the routes let through.
- Trips: legacy count-only check-outs, weights and QR collisions are out; `quote` and `priced` are history the statements refer to, not columns.
- Locks: a lock requested again is listed after the first locks; share locks count as exclusive; pickup dispatch, invitations and account erasure are out.
