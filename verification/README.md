# Verified model of the distribution, issuance, kernel and authority protocols

This project models the hardest behaviour of an investment platform's PostgreSQL backend and proves what its protocols
keep over every run. `dafny verify dfyconfig.toml` checks all of it.

Each `withPostgresTransaction` body (src/db/postgres.ts:45-60) is one atomic step that commits everything or nothing.
Each step is a function from tables to tables or a refusal, and a class method that updates the tables in place and is
proved to do exactly that (`Base.Commits`). The `...Effects` modules state, in terms of the rows before and after,
exactly when each row appears or changes and what it becomes; the other theorems are about every sequence of steps. A
class is `Valid()` when its tables satisfy the invariant of the state machine or, for `DistributionStore` and
`IssuanceStore`, when some run of the state machine reaches them; every method keeps that, so every theorem holds of
the objects.

Transactions run at the default isolation level, so where overlap matters a transaction is two or more steps and the
theorems are about every interleaving: `AuditChain`, `Idempotency`, `Leases`, `AllocationOverlap`, `SessionOverlap`.

- **Distribution money pipeline** - `Allocation` (largest-remainder allocator on an array), `Declarations` (snapshot
  reconciliation, withholding), `Journal` (double-entry ledger), `Distribution` (all commands as one state machine),
  `DistributionEffects` (exactly what each command does), `DistributionInvariant` (what every command keeps),
  `DistributionAccounts` (what each account stands for), `DistributionTheorems` (conservation, fresh keys, one live
  payout), `DistributionDischarge`, `DistributionOutstanding` and `DistributionGuard` (nothing is paid twice, what the
  liability accounts stand for, and the exact guard that needs), `DistributionStore` (the tables in place).
- **Issuance bounds** - `Issuance`, `IssuanceEffects`, `IssuanceTheorems`, `IssuanceStore`, `AllocationOverlap`.
- **Platform kernel** - `AuditChain` (hash chain with interleaved transactions, and its verifier), `AuditHistory`
  (what the chain contains), `Idempotency`, `Leases` (inbox and outbox).
- **Authority** - `Governance`, `GovernanceEffects`, `GovernanceTheorems`, `LegacyProjection`, `Sessions`,
  `SessionOverlap`.

`Sums` holds the facts about sums over tables that the accounting proofs share.

Where a promised property is false of the code, the code is kept. For each such property the lemmas named before the
semicolon give an input or a run that breaks it, and those after it state exactly when it holds:

- A payout can be discharged twice, because a manual settlement may be proposed for an uncertain or confirmed payout
  and a write-off for a confirmed one: `CodeAdmitsDoubleDischarge`; `GuardIsExact`.
- An offering can exceed its capacity when a receipt is processed after the reservation expired but carries an earlier
  provider time: `LateReceiptOversells`; `LateReceiptFitsExactly` for one receipt, `CapacityIsNeverExceeded` for runs.
- Overlapping allocation submissions, which hold the terms row only FOR SHARE, can exceed the maximum supply:
  `OverlapOversells`; `RoomIsExact`, `SupplyHoldsWithRoom`, `NoOverlapLeavesRoom`. What is minted stays paid for and,
  when receipts fit, within the offering's capacity even then (`OverlapMintsOnlyPaidTokens`,
  `OverlapMintsWithinCapacity`).
- A session can survive the detected reuse of its family's token, or the revocation of all sessions of its subject,
  because the UPDATE changes only rows committed before it started: a rotation that is under way then, or begins
  before the UPDATE has ended, inserts a row it does not see. `SessionSurvivesReuse`, `LateRotationSurvivesReuse`,
  `SessionSurvivesRevokeAll`; `OnlyNewerSessionsSurvive` says exactly which sessions survive in every run, and
  `ReuseIsExact` and `RevokeAllIsExact` from which states one can.
- Governance can lose its administrators, or leave a capability with someone who is none, because the projection of an
  account of the older identity authority writes roles and statuses outside it: `ProjectionBreaksGovernance`;
  `ProjectionIsExact`.
- The audit verifier reads rows and head in two statements and rejects a healthy scope when an event commits in
  between: `CommitBetweenReadsIsRejected`; `TwoReadsAgreeExactly`.
- The audit verifier never reads a scope whose key has surrounding white space: `BrokenPaddedScopePasses`;
  `PaddedScopesAreNeverRead`. No caller writes such a key.
- A replay of a command that answered null is told that no completed response exists: `NullAnswerLeavesIncomplete`;
  `IncompleteExactlyAfterNull`, `NullAnswerIsNeverReplayed`. No caller of `runPostgresIdempotentCommand` answers null.
- A journal reversed for another organization does not cancel: `ReversalElsewhereDoesNotCancel`; `ReversalCancels`.
  The only caller of `reverseJournal` (src/platform/postgres-professional-invoices.ts:535) passes the original's own
  organization.

Modelling conventions: a row's id is its position in its table; hashes are injective, so comparing request hashes is
comparing requests; clocks, provider answers, policy look-ups, verified destinations, eligibility and compliance
results are inputs of the step that uses them. Unique indexes of src/db/postgres-migrations are INSERT guards of the
steps they protect: one active funding request per declaration (127-distribution-payout-authority.ts:64), one open
case per payout and one pending hold request (128-distribution-payout-exceptions.ts:54 and 83), one remittance per
declaration and one reversal per remittance (129-distribution-tax-remittance.ts:35 and 84), one reversal per journal
(009), one active set of terms (025), one live allocation per reservation (026), one chain operation of each kind
(028), the pending-request indexes of 058, 059 and 064.

## Model

| member | source | states |
|---|---|---|
| Allocation.Allocate | src/platform/postgres-distributions.ts:71 | The in-place algorithm (floor every quota, sort, bump, sort back) meets `IsAllocation`: shares sum to the gross, every share is its quota rounded down or one more, the extra units follow remainder then id, rows end sorted by investor, and the holdings are a permutation of the input. |
| Allocation.ResidualIsSmall | src/platform/postgres-distributions.ts:71 | The residual after rounding down is at least 0 and less than the number of rows, so the bump loop stays in bounds and terminates. |
| Allocation.BumpRows | src/platform/postgres-distributions.ts:71 | The loop adds exactly one unit to each of the first `units` rows and touches nothing else. |
| Allocation.ShareIsQuotaRounded | src/platform/postgres-distributions.ts:71 | Every share is the floor or the ceiling of gross*balance/total. |
| Allocation.ExactQuotaIsNeverBumped | src/platform/postgres-distributions.ts:71 | A holder whose quota is a whole number gets exactly that quota. |
| Allocation.LargerBalanceNeverGetsLess | src/platform/postgres-distributions.ts:71 | A strictly larger balance never gets a smaller share. |
| Allocation.EqualBalancesDifferByAtMostOne | src/platform/postgres-distributions.ts:71 | Equal balances differ by at most one unit. |
| Allocation.AllocationIsUnique | src/platform/postgres-distributions.ts:71 | Any two results over permutations of the same holdings are identical: the order of the input does not matter. |
| Declarations.GroupingAddsUp | src/platform/postgres-distributions.ts:76 | Grouping wallets by investor lists each investor once, in order, with exactly that investor's units, and keeps the total. |
| Declarations.SnapshotFeedsAllocator | src/platform/postgres-distributions.ts:45-49 | A snapshot that reconciles to its supply always gives the allocator valid holdings that add up to the supply. |
| Declarations.EntitlementsFollowWallets | src/platform/postgres-distributions.ts:76-77 | Whose share an entitlement is: every investor of the wallets is listed once, in order, with the sum of that investor's units. |
| Declarations.WalletsDoNotMatter | src/platform/postgres-distributions.ts:71 | Splitting a holding over other wallets, or listing wallets in another order, changes no one's share. |
| Declarations.TaxSplitConserves | src/platform/postgres-distributions.ts:76-77 | Investor taxes and nets sum to the declared tax and net, tax*10000 <= gross*bps < (tax+holders)*10000, and every net is at least 1 when bps < 10000. |
| Declarations.WithholdingBounds | src/platform/postgres-distributions.ts:76-77 | tax <= floor(gross*bps/10000) < tax + holders, and the net is positive exactly when bps < 10000. |
| DistributionEffects.DeclarationsBegin | src/platform/postgres-distributions.ts:73-77 | Over every command: a declaration is stored exactly when amount, rate and shares are in range, and records the command, its entitlements being the allocated rows investor by investor, each less its own tax rounded down. |
| DistributionEffects.DeclarationsTurn | src/platform/postgres-distributions.ts:85 | Over every command: a declaration is approved or rejected exactly by someone else's decision while it is submitted, and approved only below 10000 bps; nothing else about it ever changes. |
| DistributionInvariant.ApprovalJournalValidates | src/platform/postgres-distributions.ts:85 | The approval journal always balances, and passes validation exactly when bps < 10000. |
| DistributionTheorems.ApprovalSucceedsExactly | src/platform/postgres-distributions.ts:85 | In every reachable state, approval by someone else succeeds exactly when bps < 10000. |
| Journal.ValidateJournal | src/platform/postgres-journal.ts:73-93 | The accumulating loop accepts exactly the journals with at least two postings, amounts in range and equal debits and credits, and otherwise reports the first failing check. |
| Journal.JournalTables.Ensure | src/platform/postgres-journal.ts:96-114 | Makes sure of one account and changes nothing else. |
| Journal.JournalTables.PostInTransaction | src/platform/postgres-journal.ts:116-195 | Posts once per (scope, key): a replay returns the first entry, a different request under the key is refused, and a refusal changes nothing. |
| Journal.JournalTables.ReverseJournal | src/platform/postgres-journal.ts:202-231 | Posts the original's postings with directions swapped, linked to the original. |
| Journal.EveryRunBalances | src/platform/postgres-journal.ts:116-195 | In every reachable ledger each journal balances, debits equal credits in every currency, and each (scope, key) made at most one entry. |
| Journal.PostKeepsSound | src/platform/postgres-journal.ts:116-195 | Posting keeps entries valid, keys unique and reversals unique; a replay leaves the ledger unchanged and names the first entry. |
| Journal.PostsExactly | src/platform/postgres-journal.ts:116-195 | A journal is posted afresh exactly when it is valid, clashes with nothing and its accounts exist; replayed exactly when it is stored to the letter; a conflict exactly when another one holds its key. |
| Journal.ReversalValidates | src/platform/postgres-journal.ts:202-231 | A reversal of any stored journal passes validation, whatever accounts it repeats. |
| Journal.ReversalMirrors | src/platform/postgres-journal.ts:202-231 | A reversal carries the caller's key and organization, the original's currency and id, and the original's lines with only the directions changed. |
| Journal.ReversalCancels | src/platform/postgres-journal.ts:202-231 | A fresh reversal cancels its original on every account if and only if it is posted for the original's organization (or the original moved nothing). |
| Journal.ReversalElsewhereDoesNotCancel | src/platform/postgres-journal.ts:202-231 | A concrete reachable ledger and an accepted reversal, for another organization, after which the original's effect stands. |
| Journal.OnlyFreshPostsMoveBalances | src/platform/postgres-journal.ts:116-195 | Replays and failures move no balance; a fresh post moves each by exactly its own effect. |
| DistributionStore.Tables.EnsureAccountsAndPost | src/platform/postgres-distributions.ts:84-85 | Makes sure of the accounts and posts; a refused post leaves accounts and entries as they were. |
| DistributionStore.Tables.SubmitDistributionDeclaration | src/platform/postgres-distributions.ts:73-77 | Accepts exactly an amount and rate in range with a positive share for everyone; the stored declaration records what was submitted, lists each investor of the wallets once, in order, with all of that investor's units, and gives each the share allocated to that investor less the tax on it rounded down. |
| DistributionStore.Tables.DecideDistributionDeclaration | src/platform/postgres-distributions.ts:85 | Replay, conflict, maker-checker, then the journal and the status, all or nothing. |
| DistributionStore.Tables.SubmitDistributionFundingRequest | src/platform/postgres-distribution-payouts.ts:82-109 | A funding request for the net of an approved NGN declaration covered by the observed balance, one active per declaration. |
| DistributionStore.Tables.DecideDistributionFundingRequest | src/platform/postgres-distribution-payouts.ts:111-151 | Approval checks the live balance against all unsettled amounts and inserts one instruction per entitlement, in order; afterwards all unsettled amounts are within the observed balance and have grown by exactly the funded amount. |
| DistributionStore.Tables.ClaimDistributionPayout | src/services/distribution-payout-worker.ts:12-20 | A worker takes an authorized instruction for dispatch, once. |
| DistributionStore.Tables.MarkDistributionPayoutSubmitted | src/services/distribution-payout-worker.ts:34 | Only a dispatching instruction becomes submitted, with the provider's transfer code. |
| DistributionStore.Tables.MarkDistributionPayoutUncertain | src/services/distribution-payout-worker.ts:22-39 | A dispatch that failed or went stale becomes uncertain and is never sent again by itself. |
| DistributionStore.Tables.RecordDistributionPayoutProviderOutcome | src/platform/postgres-distribution-payouts.ts:158-192 | Success settles with a journal, failure and reversal are final, mismatches are refused, repeats change nothing. |
| DistributionStore.Tables.OpenDistributionPayoutException | src/platform/postgres-distribution-payouts.ts:225-241 | One case per uncertain, failed or reversed payout; opening again changes nothing. |
| DistributionStore.Tables.AddDistributionPayoutExceptionEvidence | src/platform/postgres-distribution-payouts.ts:243-254 | Evidence is taken while the case is open and moves it to evidence submitted. |
| DistributionStore.Tables.ProposeDistributionPayoutExceptionResolution | src/platform/postgres-distribution-payouts.ts:256-266 | Replacement needs a failed or reversed payout, a write-off a payout that is not uncertain; a manual settlement is not checked. |
| DistributionStore.Tables.DecideDistributionPayoutExceptionResolution | src/platform/postgres-distribution-payouts.ts:268-278 | Decided once, by someone other than the proposer. |
| DistributionStore.Tables.ProposeDistributionPayoutExceptionHold | src/platform/postgres-distribution-payouts.ts:280-290 | Only a change of the hold can be asked for, one pending request per case. |
| DistributionStore.Tables.DecideDistributionPayoutExceptionHold | src/platform/postgres-distribution-payouts.ts:292-303 | An approved request sets the hold as asked. |
| DistributionStore.Tables.ExecuteDistributionPayoutException | src/platform/postgres-distribution-payouts.ts:311-341 | Executes an approved, unheld case once: a replacement instruction, a correction journal, or nothing; afterwards no entitlement has two live payouts. |
| DistributionStore.Tables.SubmitDistributionTaxRemittance | src/platform/postgres-distribution-tax.ts:33 | One remittance request per approved declaration with tax, for exactly that tax. |
| DistributionStore.Tables.DecideDistributionTaxFiling | src/platform/postgres-distribution-tax.ts:35 | Decided once, by someone else. |
| DistributionStore.Tables.SubmitDistributionTaxPaymentEvidence | src/platform/postgres-distribution-tax.ts:36 | Evidence follows an approved filing. |
| DistributionStore.Tables.DecideDistributionTaxPayment | src/platform/postgres-distribution-tax.ts:39 | Approval posts the remittance and issues one active statement per entitlement. |
| DistributionStore.Tables.ProposeDistributionTaxRemittanceReversal | src/platform/postgres-distribution-tax.ts:41 | One reversal request, for a confirmed remittance. |
| DistributionStore.Tables.DecideDistributionTaxRemittanceReversal | src/platform/postgres-distribution-tax.ts:43 | Approval posts the reversal, revokes every statement of the remittance and marks it reversed. |
| DistributionStore.Tables.ValidIsConsistent | src/platform/postgres-distribution-payouts.ts:82-341 | The class invariant, which every method above requires and keeps, is that some run reaches the tables; it implies the joint invariant, what every account stands for, at most one pending hold request per case and that stored journal ids name the right journals. |
| DistributionInvariant.PerformKeeps | src/platform/postgres-distribution-payouts.ts:111-341 | Every command of the pipeline keeps the joint invariant of tables and ledger. |
| DistributionInvariant.DispatchKeeps | src/services/distribution-payout-worker.ts:12-43 | The dispatch steps (claim, submitted, uncertain) keep the invariant. |
| DistributionInvariant.EveryRunKeeps | src/platform/postgres-distribution-payouts.ts:111-341 | The joint invariant holds after every run. |
| DistributionTheorems.PayableConservation | src/platform/postgres-distribution-payouts.ts:174-185 | In every run, per organization and currency: payable balance = net of approved declarations - confirmed payouts - executed settlements and write-offs. |
| DistributionTheorems.WithholdingConservation | src/platform/postgres-distribution-tax.ts:39-43 | In every run: withholding liability = approved withholding - amounts currently remitted. |
| DistributionAccounts.AccountsStandForTables | src/platform/postgres-distribution-payouts.ts:168-333 | In every run, per organization and currency: the expense is the gross of approved declarations, payout clearing the confirmed payouts, settlement clearing the executed manual settlements, payable release the executed write-offs, remittance clearing the remittances in force. |
| DistributionTheorems.PipelineLedgerBalances | src/platform/postgres-journal.ts:116-195 | The ledger of every run holds balanced journals, one per key, with equal debits and credits in every currency. |
| DistributionTheorems.GuardsMakeKeysFresh | src/platform/postgres-distribution-payouts.ts:172-185 | In every reachable state the status guards make every declaration, settlement, reversal, exception, remittance and remittance-reversal key absent from the ledger when it is about to be posted. |
| DistributionTheorems.StatementsFollowRemittances | src/platform/postgres-distribution-tax.ts:39-43 | Active statements exist only while the remittance is remitted, and then sum to the amount its own journal took off the withholding account; otherwise to zero. |
| DistributionTheorems.OneLivePayoutPerChain | src/platform/postgres-distribution-payouts.ts:311-336 | In every reachable state, of two instructions of one replacement chain the older is failed or reversed. |
| DistributionTheorems.OneLivePayoutPerEntitlement | src/platform/postgres-distribution-payouts.ts:111-151 | No entitlement ever has two live payouts, across fundings and replacements. |
| DistributionTheorems.DeadStaysDead | src/platform/postgres-distribution-payouts.ts:172 | A failed or reversed payout never changes again, in any continuation. |
| DistributionTheorems.FundingIsCovered | src/platform/postgres-distribution-payouts.ts:132-145 | Right after funding approval all unsettled amounts, the new ones included, total at most the observed balance, and the new ones are exactly the funded amount. |
| DistributionEffects.FundingsBegin | src/platform/postgres-distribution-payouts.ts:82-109 | Over every command: funding is requested exactly for an approved NGN declaration of the organization, covered by the observed balance and without live funding, for its net. |
| DistributionEffects.FundingsTurn | src/platform/postgres-distribution-payouts.ts:111-151 | Over every command: funding is approved exactly by someone else while submitted, with verified destinations and a balance that covers it and everything unsettled; rejected exactly by someone else. |
| DistributionEffects.PayoutsBegin | src/platform/postgres-distribution-payouts.ts:134-145 | Over every command: new payouts come exactly from an approved funding, one per entitlement in order for its net, or from an executed replacement, for the same claim. |
| DistributionEffects.PayoutsAreDispatched | src/services/distribution-payout-worker.ts:12-43 | Over every command: a payout is dispatched, submitted or uncertain exactly by the worker's step on the state before it; submission stores the transfer code. |
| DistributionEffects.PayoutsGetOutcomes | src/platform/postgres-distribution-payouts.ts:158-192 | Over every command: a payout is confirmed or failed exactly by a matching report while under way, and reversed exactly by a matching report while confirmed and its settlement stands. |
| DistributionEffects.CasesBegin | src/platform/postgres-distribution-payouts.ts:225-241 | Over every command: a case is opened exactly for an uncertain, failed or reversed payout that has none. |
| DistributionEffects.CasesAreProposed | src/platform/postgres-distribution-payouts.ts:243-266 | Over every command: evidence and then a proposal are taken exactly while the case waits for them; a replacement needs a dead payout, a write-off one that is not uncertain; the case records the resolution and who prepared it. |
| DistributionEffects.CasesTurn | src/platform/postgres-distribution-payouts.ts:268-278 | Over every command: a proposal is approved or rejected exactly by someone other than who prepared it. |
| DistributionEffects.CasesAreExecuted | src/platform/postgres-distribution-payouts.ts:311-341 | Over every command: a case is executed exactly when approved, not on hold, by someone else, covered by a policy and with the destination or evidence its resolution needs. |
| DistributionEffects.HoldsBegin | src/platform/postgres-distribution-payouts.ts:280-290 | Over every command: a hold or release is asked for exactly when it would change something, the case is open and nothing is pending. |
| DistributionEffects.HoldsTurn | src/platform/postgres-distribution-payouts.ts:292-303 | Over every command: a hold request is decided exactly once by someone else, and approval sets the hold as asked. |
| DistributionEffects.HeldChangesByApprovalOnly | src/platform/postgres-distribution-payouts.ts:292-303 | No other command puts a case on hold or releases it. |
| DistributionEffects.RemittancesBegin | src/platform/postgres-distribution-tax.ts:33 | Over every command: a remittance is filed exactly once for an approved declaration of the organization, for its tax. |
| DistributionEffects.RemittancesTurn | src/platform/postgres-distribution-tax.ts:35-36 | Over every command: a filing is decided exactly by someone else, and payment evidence follows exactly an approved filing and names its submitter. |
| DistributionEffects.RemittancesAreRemitted | src/platform/postgres-distribution-tax.ts:39 | Over every command: tax is remitted exactly by someone else's approval with a receipt, which issues one statement per entitlement naming its investor and its tax. |
| DistributionEffects.ReversalsBegin | src/platform/postgres-distribution-tax.ts:41 | Over every command: a reversal is asked for exactly once, of a remittance in force. |
| DistributionEffects.ReversalsTurn | src/platform/postgres-distribution-tax.ts:43 | Over every command: a reversal is approved exactly by someone else while the remittance is in force and its journal stands, and then exactly its statements are revoked. |
| DistributionEffects.ForbiddenExactly | src/platform/postgres-distribution-payouts.ts:111-341 | A command is told that it is forbidden exactly when it decides or executes what its own actor prepared, or asks for another organization. |
| DistributionDischarge.NothingIsPaidTwice | src/platform/postgres-distribution-payouts.ts:256-266 | If settlements and write-offs are proposed only for failed or reversed payouts, every entitlement is discharged at most once in every run. |
| DistributionOutstanding.PayableIsWhatIsOutstanding | src/platform/postgres-distribution-payouts.ts:311-333 | In every such run the payable balance is the sum of the undischarged entitlements of approved declarations, and never negative. |
| DistributionOutstanding.WithholdingIsWhatIsOwed | src/platform/postgres-distribution-tax.ts:33-43 | In every run the withholding balance is the tax of the approved declarations with no remittance in force, and never negative. |
| DistributionGuard.GuardIsExact | src/platform/postgres-distribution-payouts.ts:256-266 | An accepted settlement or write-off proposal opens a continuation that discharges something twice if and only if the payout was neither failed nor reversed. |
| DistributionGuard.LiftHold | src/platform/postgres-distribution-payouts.ts:280-303 | In every reachable state a hold on an approved case can be lifted. |
| DistributionGuard.CodeAdmitsDoubleDischarge | src/platform/postgres-distribution-payouts.ts:256-333 | A concrete run of the code as it stands discharges one entitlement twice. |
| AuditChain.AuditTables.AppendEvent | src/platform/postgres-audit.ts:34-99 | Locks the scope's head, appends a row of that scope with exactly that event, linked to the head, and overwrites the head; a locked scope waits. |
| AuditChain.AuditTables.CommitTransaction | src/platform/postgres-audit.ts:34-99 | A transaction's rows and heads become visible together. |
| AuditChain.VerifyRows | src/platform/postgres-audit-verification.ts:25-60 | The verifier's loop accepts exactly the lists of rows that chain from the genesis hash, carry their own digests and end at the stored head. |
| AuditChain.AuditTables.VerifyScope | src/platform/postgres-audit-verification.ts:25-60 | Succeeds exactly when the stored rows of the trimmed scope chain and end at its head, and reports their number and the head; on tables only the writer touched it fails exactly for a blank scope. |
| AuditChain.EveryScopeVerifies | src/platform/postgres-audit.ts:34-99 | After any interleaving of appends, commits and rollbacks on any scopes, every scope verifies. |
| AuditHistory.ChainIsTheHistory | src/platform/postgres-audit.ts:34-99 | After any interleaving the rows stored for a scope are, in order, exactly the events appended to it by transactions that committed, as a plain log without hashes or heads keeps them; rolled-back ones leave nothing. |
| AuditChain.HeadPinsHistory | src/platform/postgres-audit-verification.ts:25-60 | Under an injective digest that never yields the genesis hash, two accepted lists with the same head hash have the same length and content. |
| AuditChain.TwoReadsAgreeExactly | src/platform/postgres-audit-verification.ts:28-55 | Reading rows and head in two statements, as the code does, accepts an untampered scope if and only if no event of that scope committed in between. |
| AuditChain.CommitBetweenReadsIsRejected | src/platform/postgres-audit-verification.ts:28-55 | A concrete run: an event that commits between the two reads makes the verifier reject an untampered scope. |
| AuditChain.PaddedScopesAreNeverRead | src/platform/postgres-audit-verification.ts:26-55 | Any two sets of tables that differ only in the rows and head of a scope key verify alike, for every scope asked for, if and only if the key is blank or has white space at an end: only the verifier trims. |
| AuditChain.BrokenPaddedScopePasses | src/platform/postgres-audit-verification.ts:26-55 | Concrete tables with a broken chain under a padded key on which every non-blank scope asked for passes. |
| GovernanceTheorems.GovernanceTables.CreateIdentityAccessChangeRequest | src/platform/postgres-identity-access-governance.ts:168-247 | Proposed by an active administrator about someone else, in a state the change applies to, one pending per target. |
| GovernanceTheorems.GovernanceTables.DecideIdentityAccessChangeRequest | src/platform/postgres-identity-access-governance.ts:249-442 | Maker-checker, staleness, administrator and capability quorums, then roles, status and capabilities change together. |
| GovernanceTheorems.GovernanceTables.CreateAdministratorCapabilityChangeRequest | src/platform/postgres-administrator-capabilities.ts:206-280 | Proposed by one active administrator about another, for a change that applies, one pending per pair; an unknown capability is not found, a retired one an invalid state. |
| GovernanceTheorems.GovernanceTables.DecideAdministratorCapabilityChangeRequest | src/platform/postgres-administrator-capabilities.ts:282-402 | A revocation leaves at least two other capable administrators. |
| GovernanceTheorems.GovernanceTables.BootstrapAdministratorCohort | src/platform/postgres-administrator-operations.ts:198-300 | Three to five new identities become administrators with every active capability, and the path is sealed. |
| GovernanceTheorems.GovernanceTables.CreateAdministratorRecoveryRequest | src/platform/postgres-administrator-operations.ts:302-354 | Stale requests expire first; one pending request per historical administrator. |
| GovernanceTheorems.GovernanceTables.ApproveAdministratorRecoveryRequest | src/platform/postgres-administrator-operations.ts:356-497 | A second operator with another key restores the administrator role and status and cancels pending access changes. |
| GovernanceTheorems.GovernanceStaysOperable | src/platform/postgres-identity-access-governance.ts:302-411 | In every run of governance: at least two active administrators from bootstrap on, exactly one active global role per identity, capabilities only with active administrators. |
| GovernanceEffects.AppliedChangeIsAsAsked | src/platform/postgres-identity-access-governance.ts:361-411 | An applied change gives the target exactly the proposed role, the suspension without capabilities, or the restored status; no other identity changes in status, roles or capabilities. |
| GovernanceEffects.AccessDecidedExactly | src/platform/postgres-identity-access-governance.ts:249-345 | In every reachable state a request is applied exactly when a third administrator decides it, the requester still is one, status and role are as when it was made, and every capability the target loses keeps two other holders. |
| GovernanceEffects.AccessAskedExactly | src/platform/postgres-identity-access-governance.ts:168-247 | A request is stored exactly when an active administrator asks for an applicable change of someone else with none pending; it records who asked and the target's role and status. |
| GovernanceEffects.CapabilityDecidedExactly | src/platform/postgres-administrator-capabilities.ts:282-402 | A capability is granted or taken exactly when a third administrator decides it, nothing changed meanwhile and a revocation leaves two others; exactly that one assignment changes. |
| GovernanceEffects.CapabilityAskedExactly | src/platform/postgres-administrator-capabilities.ts:206-280 | A capability change is stored exactly when one active administrator asks it of another, where it changes something and none is pending. |
| GovernanceEffects.RecoveryAskedExactly | src/platform/postgres-administrator-operations.ts:302-354 | A recovery is stored exactly for a historical administrator with none outstanding, for half an hour; stale ones expire. |
| GovernanceEffects.RecoveryDecidedExactly | src/platform/postgres-administrator-operations.ts:356-497 | A recovery is applied exactly by a second operator with another key in time; the target is then an active administrator and nothing else, its pending access requests are cancelled and nobody else changes. |
| GovernanceEffects.BootstrappedExactly | src/platform/postgres-administrator-operations.ts:198-300 | The bootstrap succeeds exactly for three to five new, different members before any administrator existed; they join in order as active administrators with every active capability and nobody else changes. |
| GovernanceTheorems.ThreeAdministratorsTakePart | src/platform/postgres-identity-access-governance.ts:267-328 | When a change that removes an administrator passes the earlier checks, requester, reviewer and target are three active administrators. |
| GovernanceTheorems.CountCheckNeverFires | src/platform/postgres-identity-access-governance.ts:310-328 | The rejection for two or fewer administrators is unreachable. |
| GovernanceTheorems.QuorumIsNeverLost | src/platform/postgres-administrator-capabilities.ts:334-370 | A capability that two administrators hold never drops below two, in any continuation. |
| GovernanceTheorems.BootstrapGivesLastingQuorum | src/platform/postgres-administrator-operations.ts:241-281 | Every capability defined at bootstrap has two holders then and ever after. |
| GovernanceTheorems.BootstrapHappensOnce | src/platform/postgres-administrator-operations.ts:218-230 | After a bootstrap every further one is refused, in every continuation. |
| LegacyProjection.ProjectionIsExact | src/platform/postgres-identities.ts:260-309 | With projections of older accounts in between, governance stays operable throughout a run if and only if no projection demotes an administrator who holds a capability or is one of the last two. |
| LegacyProjection.QuorumSurvivesProjection | src/platform/postgres-identities.ts:260-309 | In such runs a capability that two administrators hold never drops below two, and only administrators hold it. |
| LegacyProjection.ProjectionBreaksGovernance | src/platform/postgres-identities.ts:292-303 | A concrete run in which an account that is projected again leaves a capability with someone who is no administrator. |
| LegacyProjection.ProjectsExactly | src/platform/postgres-identities.ts:260-303 | A projection is refused exactly when the address belongs to another account; otherwise the account's own identity, new if it has none, gets that address, status and single role, keeps its capabilities, and nobody else changes. |
| Sessions.SessionTable.CreateAuthSession | src/platform/auth-sessions.ts:168-186 | A new family with one unrevoked session, or a refusal. |
| Sessions.SessionTable.RotateAuthSession | src/platform/auth-sessions.ts:196-267 | A live token is replaced by a new session of its family; a rotated one revokes the family, which commits although the caller is refused. |
| Sessions.SessionTable.RevokeAuthSession | src/platform/auth-sessions.ts:284-303 | Revokes one unrevoked session of the subject, and says whether it did. |
| Sessions.SessionTable.RevokeAllAuthSessionsForSubject | src/platform/auth-sessions.ts:362-384 | When nothing overlaps, leaves the subject without an unrevoked session. |
| Sessions.SessionTable.RevokeAllAuthSessionsForIdentity | src/platform/auth-sessions.ts:391-414 | When nothing overlaps, leaves the identity, as identity or as subject, without an unrevoked session. |
| Sessions.OneLiveSessionPerFamily | src/platform/auth-sessions.ts:196-267 | In every reachable state a family has at most one unrevoked session, and every replaced-by chain of the family ends there. |
| Sessions.ReuseEndsTheFamily | src/platform/auth-sessions.ts:207-234 | When nothing overlaps, presenting a rotated token leaves the family without an unrevoked session if and only if the token has not expired or none was left. |
| Sessions.ExtinctionIsForever | src/platform/auth-sessions.ts:196-267 | A family without an unrevoked session never gains one again. |
| Sessions.ReuseLocksEveryoneOut | src/platform/auth-sessions.ts:207-234 | After an unexpired rotated token was presented no session of the family ever validates again. |
| Sessions.SessionsBegin | src/platform/auth-sessions.ts:86-267 | A session begins exactly by signing in, as a family of its own, or by rotating a live token, in its family, for the person the authority names, expiring as asked. |
| Sessions.SessionsChange | src/platform/auth-sessions.ts:196-414 | A session changes exactly by rotation, to its replacement, by reuse of its family's token, or while unrevoked by a revocation that names it, its subject or its identity, with the reason given. |
| SessionOverlap.AloneIsAtomic | src/platform/auth-sessions.ts:196-267 | A rotation, a detected reuse or a revocation of all sessions of a subject or an identity with nothing in between is the whole step of `Sessions`. |
| SessionOverlap.OneLiveSessionUnderOverlap | src/platform/auth-sessions.ts:196-267 | However transactions overlap, a family has at most one unrevoked session, at the end of every replaced-by chain of the family. |
| SessionOverlap.OnlyNewerSessionsSurvive | src/platform/auth-sessions.ts:207-234 | Whatever overlaps, once a revocation has ended a session of its scope is unrevoked if and only if it was committed after the revocation started and no other step has revoked it; in a family it was inserted by a rotation that committed meanwhile. |
| SessionOverlap.ReuseIsExact | src/platform/auth-sessions.ts:207-234 | After any interleaving, presenting an unexpired rotated token can leave its family with an unrevoked session, in some continuation in which no clock runs back, if and only if the family still has an unrevoked and unexpired session or a rotation under way; if no rotation of the family begins later, if and only if one is under way. |
| SessionOverlap.RevokeAllIsExact | src/platform/auth-sessions.ts:362-414 | The same for revoking all sessions of a subject or identity, in continuations without a new login to it. |
| SessionOverlap.QuietExtinctionIsForever | src/platform/auth-sessions.ts:196-267 | Once a family has no unrevoked session and no rotation under way it never has one again, however transactions overlap. |
| SessionOverlap.SessionSurvivesReuse | src/platform/auth-sessions.ts:207-234 | A concrete interleaving in which a session survives the detected reuse of its family's token. |
| SessionOverlap.LateRotationSurvivesReuse | src/platform/auth-sessions.ts:207-234 | A concrete interleaving in which no rotation is under way when the reuse is detected and a session survives all the same. |
| SessionOverlap.SessionSurvivesRevokeAll | src/platform/auth-sessions.ts:362-384 | A concrete interleaving in which a session survives the revocation of all sessions of its subject. |
| IssuanceStore.Tables.PublishOffering | src/platform/postgres-offering-checkout.ts:107-139 | A new published offering with positive capacity and a window that closes after it opens. |
| IssuanceStore.Tables.CreateCheckout | src/platform/postgres-offering-checkout.ts:175-295 | Stores exactly the reservation ordered, at the end of the table, if and only if the offering is published and open, payment falls due within its window, the investor is eligible, agreed and has not used the key, and there is room; otherwise no reservation changes. |
| IssuanceStore.Tables.RecordProviderPaymentReceipt | src/platform/postgres-payments.ts:150-293 | An exact receipt paid before expiry confirms the reservation, any other releases it. |
| IssuanceStore.Tables.ExpirePendingPaymentIntent | src/services/payment-expiry-worker.ts:22-37 | A pending reservation past its time expires; nothing else does. |
| IssuanceStore.Tables.SubmitOfferingIssuanceTerms | src/platform/postgres-offering-issuance-terms.ts:31-68 | Price times supply within capacity, one active set of terms per offering. |
| IssuanceStore.Tables.DecideOfferingIssuanceTerms | src/platform/postgres-offering-issuance-terms.ts:70-85 | Decided once, by someone else. |
| IssuanceStore.Tables.SubmitInvestmentAllocation | src/platform/postgres-investment-allocations.ts:35-85 | Stores at most one live request per reservation; an accepted one has tokens that at the unit price are exactly the confirmed amount, and leaves the reserved tokens within the maximum supply. |
| IssuanceStore.Tables.DecideInvestmentAllocation | src/platform/postgres-investment-allocations.ts:87-102 | Decided once, by someone else. |
| IssuanceStore.Tables.MaterializeAllocationChainOperations | src/platform/postgres-allocation-chain-operations.ts:29-56 | One whitelist operation for each approved, deployed allocation without one, at most the limit. |
| IssuanceStore.Tables.ReleaseMintOperation | src/platform/postgres-allocation-chain-operations.ts:59-76 | A mint only after a confirmed whitelist operation, once per allocation. |
| IssuanceStore.Tables.SettleChainOperation | src/services/postgres-allocation-chain-executor.ts:38-39 | An operation under way ends once, confirmed or failed. |
| IssuanceStore.Tables.ValidIsConsistent | src/platform/postgres-investment-allocations.ts:35-102 | The class invariant, which every method above requires and keeps, is that some run reaches the tables; it implies the joint invariant of reservations, terms, allocations and chain operations. |
| IssuanceTheorems.CapacityIsNeverExceeded | src/platform/postgres-offering-checkout.ts:245-252 | A run never holds more of an offering than its capacity, then or later, at any of its steps if and only if every receipt that confirms finds its reservation still held or the offering with room for it. |
| IssuanceTheorems.LateReceiptFitsExactly | src/platform/postgres-payments.ts:203-237 | A receipt paid in time keeps capacity if and only if the reservation is still held when it is processed or the offering has room again. |
| IssuanceTheorems.LateReceiptOversells | src/platform/postgres-payments.ts:203-237 | A concrete run in which a lagging receipt makes an offering exceed its capacity. |
| IssuanceTheorems.AllocationsAreExact | src/platform/postgres-investment-allocations.ts:64-68 | Allocated tokens at the unit price are exactly the confirmed investment. |
| IssuanceTheorems.MintsFollowWhitelists | src/platform/postgres-allocation-chain-operations.ts:59-76 | Each allocation mints at most once, after a confirmed whitelist operation. |
| IssuanceTheorems.MintingIsBounded | src/platform/postgres-offering-issuance-terms.ts:50 | In every run of whole transactions the tokens minted under some terms stay within max supply and, at the unit price, within the confirmed investments and within the capacity of the offering. |
| IssuanceTheorems.OneSetOfTermsPerOffering | src/platform/postgres-offering-issuance-terms.ts:31-85 | All allocations of an offering are under the same terms. |
| IssuanceEffects.ReservationsBegin | src/platform/postgres-offering-checkout.ts:175-275 | Over every command: a reservation is stored exactly by a checkout inside the window with room, eligibility, agreement and an unused key, and is exactly that order. |
| IssuanceEffects.ReservationsTurn | src/platform/postgres-payments.ts:150-293 | Over every command: a pending reservation is confirmed exactly by a full receipt paid before expiry, released exactly by any other, expired exactly after its time; nothing else about it changes. |
| IssuanceEffects.TermsBegin | src/platform/postgres-offering-issuance-terms.ts:31-68 | Over every command: terms are stored exactly for a published offering without live ones, with evidence, within capacity, under the published version. |
| IssuanceEffects.TermsTurn | src/platform/postgres-offering-issuance-terms.ts:70-85 | Over every command: terms are decided exactly once by someone else and never change otherwise. |
| IssuanceEffects.AllocationsBegin | src/platform/postgres-investment-allocations.ts:35-85 | Over every command: an allocation is stored exactly for a cleared, confirmed reservation of the terms' offering and version that is a whole number of tokens still left and has no live one, for exactly that many. |
| IssuanceEffects.AllocationsTurn | src/platform/postgres-investment-allocations.ts:87-102 | Over every command: an allocation is decided exactly once by someone else and never changes otherwise. |
| IssuanceEffects.OperationsBegin | src/platform/postgres-allocation-chain-operations.ts:29-76 | Over every command: whitelist operations are added exactly for the first wanting allocations up to the limit, a mint exactly after a confirmed whitelist operation without one. |
| IssuanceEffects.OperationsTurn | src/services/postgres-allocation-chain-executor.ts:38-39 | Over every command: an operation ends exactly once, as reported. |
| IssuanceEffects.ForbiddenExactly | src/platform/postgres-offering-issuance-terms.ts:70-85 | A decision is told that it is forbidden exactly when its actor submitted what it decides. |
| AllocationOverlap.AloneIsAtomic | src/platform/postgres-investment-allocations.ts:35-85 | A submission that nothing overlaps is the whole step of `Issuance`. |
| AllocationOverlap.RoomIsExact | src/platform/postgres-investment-allocations.ts:53-73 | A submission the code accepts opens a continuation that exceeds a maximum supply if and only if it leaves no room for the submissions already under way with the same terms. |
| AllocationOverlap.SupplyHoldsWithRoom | src/platform/postgres-investment-allocations.ts:69-73 | In every interleaving whose submissions leave that room, reserved and minted tokens stay within the maximum supply. |
| AllocationOverlap.NoOverlapLeavesRoom | src/platform/postgres-investment-allocations.ts:69-73 | If no other submission under the same terms is under way, the code's own check leaves the room. |
| AllocationOverlap.OverlapMintsOnlyPaidTokens | src/platform/postgres-investment-allocations.ts:64-68 | However submissions overlap, minted tokens at the unit price never exceed the confirmed investments. |
| AllocationOverlap.OverlapMintsWithinCapacity | src/platform/postgres-offering-issuance-terms.ts:50 | If every confirming receipt finds its reservation held or room, they never exceed the offering's capacity either, even in runs that exceed the maximum supply. |
| AllocationOverlap.OverlapOversells | src/platform/postgres-investment-allocations.ts:53-73 | A concrete interleaving of two submissions that exceeds the maximum supply. |
| Idempotency.CommandTable.BeginCommand | src/platform/postgres-idempotency.ts:35-77 | Inserts the record, or waits for the transaction that did, or answers from the stored record without writing. |
| Idempotency.CommandTable.CommitCommand | src/platform/postgres-idempotency.ts:79-89 | Record, response and business write commit together. |
| Idempotency.EffectCommitsAtMostOnce | src/platform/postgres-idempotency.ts:32-89 | Under any interleaving of workers and crashes the write of a key commits at most once, exactly when its attributed record exists, and that record holds the request and the answer of the write. |
| Idempotency.ReplaysReturnTheFirstAnswer | src/platform/postgres-idempotency.ts:53-77 | A stored record never changes: every replay is told what the first command stored. |
| Idempotency.CommittedAnswerIsReplayed | src/platform/postgres-idempotency.ts:74-89 | The committing command's own answer is the one its actor and request are told, unless the body was null. |
| Idempotency.OnlyTheSameCommandIsAnswered | src/platform/postgres-idempotency.ts:53-77 | In every continuation whoever repeats a committed key is given its answer exactly when actor and request are the same and the answer was not null; any other actor or request is refused as reuse. |
| Idempotency.CommandsStart | src/platform/postgres-idempotency.ts:35-52 | A transaction starts exactly on a command without a key, or attributed and with a key that nobody has used or is using, and carries that command. |
| Idempotency.WritesCommitExactly | src/platform/postgres-idempotency.ts:79-89 | A write and its record appear exactly when a transaction that ran its command commits, with its key, actor, request and answer. |
| Idempotency.NoIncompleteAnswers | src/platform/postgres-idempotency.ts:73-75 | The branch for a missing response is unreachable as long as no command answers null. |
| Idempotency.IncompleteExactlyAfterNull | src/platform/postgres-idempotency.ts:73-89 | In every run, some replay of a stored key is told that no completed response exists if and only if the one write that committed under the key answered null. |
| Idempotency.AnswersComeFromCommands | src/platform/postgres-idempotency.ts:79-89 | Every committed write carries an answer that some command of the run gave. |
| Idempotency.NullAnswerIsNeverReplayed | src/platform/postgres-idempotency.ts:73-89 | Seen from the commit, in every continuation: the repeated command is told that no completed response exists if and only if the committed answer is null. |
| Idempotency.NullAnswerLeavesIncomplete | src/platform/postgres-idempotency.ts:73-89 | A concrete run in which a command that answered null is repeated and refused. |
| Leases.EventQueue.ReceiveEvent | src/platform/postgres-inbox.ts:126-174 | Stored once per provider event id; the same id with another payload is refused. |
| Leases.EventQueue.ClaimEvents | src/platform/postgres-inbox.ts:176-221 | Takes the first claimable, unlocked events of the given providers up to the limit and touches no other. |
| Leases.EventQueue.MarkProcessed | src/platform/postgres-inbox.ts:223-231 | Only the current claimant completes, once. |
| Leases.EventQueue.MarkForRetry | src/platform/postgres-inbox.ts:233-254 | Only the current claimant releases or fails the event. |
| Leases.TerminalIsFinal | src/platform/postgres-inbox.ts:176-254 | Processed and terminally failed exclude each other, and such an event never changes again. |
| Leases.CompletionCommitsAtMostOnce | src/platform/postgres-outbox.ts:128-201 | In every run an event's completion commits at most once, exactly once if it is processed. |
| Leases.TakenOverWorkerCannotComplete | src/platform/postgres-inbox.ts:176-254 | A worker whose claim another took over can neither complete nor fail the event until it claims again. |
| Leases.LeaseIsExclusive | src/platform/postgres-inbox.ts:197-199 | Over every run whose claims all come within the lease, the event stays exactly as its holder claimed it, whatever other workers do, until the holder completes or releases it. |
| Leases.ClaimsExactly | src/platform/postgres-inbox.ts:176-221 | A claim takes exactly the first due events of its providers up to its limit, due meaning unfinished, past their next attempt and unclaimed or past the timeout, and changes no other event. |
| Leases.EndsExactly | src/platform/postgres-inbox.ts:223-254 | An event is finished, failed or put back exactly by its holder, and is put back for exactly the time given. |
| Leases.ReceivesExactly | src/platform/postgres-inbox.ts:126-174 | An event is stored exactly when its id is new, as received; the same id with another payload is refused. |
| Leases.EventsAreStoredOnce | src/platform/postgres-inbox.ts:126-174 | No provider event is stored twice. |

## Left out

- Journal.ValidateJournal: the format checks on scope, key, narrative, currency and account code are not modelled;
  they are single-branch tests on strings.
- Journal.JournalTables.Ensure: account name, type and normal balance are not modelled; nothing else reads them here.
- DistributionStore.Tables.SubmitDistributionDeclaration: policy limits, record dates, confirmations, the payment due
  date and the command-key replay are not modelled; the replay protocol is proved once in `Idempotency`.
- DistributionStore.Tables.SubmitDistributionFundingRequest: the command-key replay is not modelled, as above.
- DistributionStore.Tables.RecordDistributionPayoutProviderOutcome: the provider event rows are not modelled; storing
  events once is proved in `Leases`.
- DistributionStore.Tables.SubmitDistributionTaxRemittance: tax-period checks are not modelled and the policy look-up
  is an input.
- GovernanceTheorems.GovernanceTables.ApproveAdministratorRecoveryRequest: the session revocation, second-factor reset
  and delivery that follow are not modelled; revoking sessions is modelled in `Sessions` and `SessionOverlap`.
- Sessions.SessionTable.RevokeAllAuthSessionsForSubject: states the step without overlap; a rotation that is under way
  is covered by SessionOverlap.RevokeAllIsExact.
- Sessions.SessionTable.RevokeAllAuthSessionsForIdentity: states the step without overlap, as above.
- Sessions.ReuseEndsTheFamily: states the step without overlap; a rotation that is under way is covered by
  SessionOverlap.ReuseIsExact.
- Sessions.ReuseLocksEveryoneOut: about runs of whole steps; under overlap SessionOverlap.QuietExtinctionIsForever
  takes over once no rotation of the family is under way.
- SessionOverlap.RevokeAllIsExact: asks of the continuation that nobody logs in to the scope again and that no lookup
  moves a session of someone else into it: such sessions are new ones, not missed ones. ReuseIsExact asks for neither.
- IssuanceStore.Tables.CreateCheckout: eligibility and agreement are inputs, and the snapshot stored on a denial is
  not modelled.
- IssuanceStore.Tables.RecordProviderPaymentReceipt: receipt deduplication, the receipt's journal and the
  reconciliation case are not modelled; the first two protocols are proved in `Leases` and `Journal`.
- IssuanceStore.Tables.ExpirePendingPaymentIntent: one reservation of the batch at a time; the provider instruction is
  not modelled.
- IssuanceStore.Tables.SubmitInvestmentAllocation: wallet, compliance and matched receipt are one input.
- IssuanceTheorems.MintingIsBounded: about runs of whole steps; overlapping submissions are covered by
  AllocationOverlap.RoomIsExact, AllocationOverlap.SupplyHoldsWithRoom and
  AllocationOverlap.OverlapMintsOnlyPaidTokens.
- Leases.EventQueue.ReceiveEvent: the privacy attribution check is not modelled.
- Leases.EventQueue.ClaimEvents: events are taken in id order; the received-at order is not modelled.
- `Issuance`: payment intents, commitments and reservations change status together and are one row.
- GovernanceTheorems.GovernanceStaysOperable: about runs without projections of older accounts, as QuorumIsNeverLost;
  LegacyProjection.ProjectionIsExact and LegacyProjection.QuorumSurvivesProjection cover them.
- IssuanceStore.Tables.PublishOffering: public reference, currency, eligibility policy and document hashes are not
  modelled.
- IssuanceStore.Tables.SettleChainOperation: an operation that is approved and one that is submitted are one status,
  and the dispatch claims are not modelled.
- Database triggers and CHECK constraints beyond the unique indexes: a trigger also refuses dispatching -> confirmed,
  and a CHECK refuses a declaration whose net is zero; the model follows the code and so has more runs.
- Interleavings inside the other transactions: funding, provider outcomes and the execution of cases take one advisory
  lock (src/platform/postgres-distribution-payouts.ts:18-23), snapshots and declarations another
  (src/platform/postgres-distributions.ts:20-21), access and capability decisions a third
  (src/platform/postgres-identity-access-governance.ts:266, src/platform/postgres-administrator-capabilities.ts:297);
  checkout locks the offering; the other steps lock the rows they decide on and rely on the unique indexes above.
- Policy creation and approval, payout profiles, provider reconciliation workers, evidence files, reasons and
  narratives.
- Outbox rows and audit rows written by the pipeline steps: the two mechanisms are modelled on their own.
- HTTP routes, rate limits, tokens, e-mail, chain execution, read models and list queries.
- Ownership transfer, legal holds, document disposition, privacy packages.
