# Verified model of the wagering service

The service moves money between wallets exactly once although its requests arrive duplicated, out of
order and concurrently, over HTTP and from a queue. This project models its financial core in Dafny and
proves what the code, its schema and its documentation promise about it. `dafny verify dfyconfig.toml`
checks everything.

The model has four layers.

1. **The financial state machine.** `Domain` holds the rules of wagers, references and wallets, `Store`
   the tables and the schema's CHECKs, keys and triggers as predicates, `Decisions` what each transaction
   decides from the rows it has read, and `Machine` the use cases as atomic steps: create a wallet, submit,
   consume a message, tick the pending worker, record a failure. `Invariants` states what every committed
   state satisfies; `Preservation`, `Conservation`, `Commits` and `Runs` prove it for every run. `Rulebook`
   states the rules on the fields of the rows, apart from the code, and `Answers` proves for every class of
   input that each operation does and answers what they say.
   `Interleaving` splits the use cases at their statements (reserve, lock the wallet, read the reference,
   read the reversal slot, commit) and lets any number of transactions interleave at READ COMMITTED, with a
   blind wallet update; `Serialization` proves that layer safe, `Staleness` says exactly when a commit is the
   atomic operation, `SerialOrder` when a whole interleaving is a serial run, and `Histories` what holds of
   every interleaving's history. `Entities`, `Persistence` and `UseCases` are
   the imperative form: objects updated in place, one statement after the other, rollback on failure, each
   use case proved equal to its atomic step. `Theorems`, `Idempotency`, `OutOfOrder`, `Settling`, `Schema`
   and `Reconciliation` draw the conclusions; `StaleCommits` and `LateCommits` are two races the service can run.
2. **The outbox lease protocol.** `Outbox` is the claim repository and the publisher's completion, `Leases`
   any number of publishers with crashes, expired leases and arriving messages.
3. **The queue consumer.** `Consumer` is the protocol of receive, commit, delete and dead-letter with
   crashes, lost replies and redelivery; `Worker` the polling loop over it.
4. **Self-contained pieces.** `Canonical` and `Payload` (canonical JSON and the payload hash), `Moneys`
   (decimal amounts), `Backoff` (the retry clock), `Paging` (keyset pages), `Causes` (failure classification).

Assumptions: generated ids are fresh, which the model expresses by numbering operations and deriving ids
from the number; SHA-256 is injective, so a hash is represented by the text it is taken of; each publisher
process has an INSTANCE_ID of its own and is sequential; jitter lies in [0, 1); commands have passed
`parseSubmitWager`. Clocks are inputs: no theorem assumes that instants grow or that instances agree,
except where a lemma says so. Amounts are whole hundredths.

Where documentation and code disagree the model follows the code:

- README.md:57-64 says BET, REFUND of it, ROLLBACK of the same BET is accepted and credits twice. The trigger of
  Migration20260906000002 and `hasActiveReversal` forbid it; `Theorems.SlotDecidesReversal` states the rule.
- ARCHITECTURE.md:443 says an outbox event has no terminal limit. The code abandons it when a send fails with
  599 reschedules behind it; `Leases.AccountsBalance` states it.
- ARCHITECTURE.md:210 gives the inbox key without `provider_id`. Migration20260906000003 adds it.

Two properties are false as one might first expect them. A run of the service shows it, and the exact condition
is proved instead:

- A commit need not be the atomic operation on the state it commits to: in `StaleCommits.StaleCommitHappens` a REFUND
  reads its reference as absent, a BET with that external id commits on another wallet, and the REFUND then waits
  although it could have been decided. A submission's commit is the atomic submission if and only if its wallet is
  still missing, or its reference was not needed, did not settle in between, or would not have changed the refusal
  (`Staleness.SubmissionCommitsAtomicallyIff`; `Staleness.TickCommitsAtomicallyIff` for ticks). The wallet's lock
  confines this to references that settled on another wallet or found none (`Staleness.StaleMeansAbroad`), so
  references to operations of the own wallet are never stale (`Staleness.HomeReferencesCommitAtomically`).
- The outbox need not send a group in order. An arrival leaves its group in order, however the publishers go on, if
  and only if no row of the group that sorts after it is settled, claimed or has attempts
  (`Leases.ArrivalIsSafeIff`). `occurredAt` is read before the wallet lock is taken, and in
  `LateCommits.LateCommitBreaksOrder` two payouts to one wallet commit in the opposite order.

## Model

| member | source | states |
|---|---|---|
| Backoff.DelayBounds | src/application/use-cases/resolve-pending-reference.ts:20-23 | the n-th delay is at least 0.8 of the capped exponential step and at most six minutes, for every jitter |
| Backoff.DelayIs | src/application/use-cases/resolve-pending-reference.ts:20-23 | the delay is 5, 10, 20, 40, 80, 160, then 300 seconds, spread by the jitter and rounded |
| Backoff.RescheduleKeepsValid | src/application/use-cases/resolve-pending-reference.ts:162-179 | a reschedule is at most the 95th and leaves the next attempt below the expiry plus 360 s |
| Backoff.TtlAlwaysFiresFirst | src/application/use-cases/resolve-pending-reference.ts:16-23 | for every jitter sequence and any clocks, at most 95 reschedules, so the cap of 100 attempts never decides |
| Backoff.StartIsValid | src/application/use-cases/submit-wager-transaction.ts:240-245 | the clock a submission starts satisfies the bounds |
| Backoff.ExhaustedMeansExpired | src/application/use-cases/resolve-pending-reference.ts:259-264 | a pending is exhausted exactly when its six hours are over |
| Backoff.NinetyFiveIsReached | src/application/use-cases/resolve-pending-reference.ts:20-23 | the bound is exact: some run has 95 reschedules |
| Settling.TickMoves | src/application/use-cases/resolve-pending-reference.ts:56-78 | a due tick settles the row or adds exactly one attempt, and the latter only before the expiry |
| Settling.LateTickSettles | src/application/use-cases/resolve-pending-reference.ts:73-77 | a due tick after the lifetime settles the row whatever it finds |
| Settling.OthersLeaveRow | src/infrastructure/persistence/wager-transaction.repository.ts:97-108 | no other operation touches a waiting row except to end it |
| Settling.EveryPendingSettles | src/application/use-cases/resolve-pending-reference.ts:56-97 | in every run a pending takes at most 96 due ticks and is settled once it has taken them |
| Preservation.KeepsSlots | src/infrastructure/persistence/migrations/Migration20260906000002_reversal_slot_per_reference.ts:15-47 | no commit gives a reference two active reversals |
| Preservation.SlotAfter | src/infrastructure/persistence/wager-transaction.repository.ts:61-84 | exactly how a commit fills, reopens or leaves a reversal slot |
| Preservation.KeepsLinks | src/domain/reference.ts:33-63 | no commit stores a link except to a processed row of the same provider, player, wallet, round and currency that its kind may refer to |
| Preservation.KeepsChains | src/domain/wallet-ledger-entry.ts:34-71 | entries of a wallet chain from zero to its balance |
| Preservation.KeepsLedger | src/infrastructure/persistence/migrations/Migration20260904000001_initial.ts:185-216 | every entry belongs to one processed operation, with its amount, wallet and direction |
| Preservation.KeepsVersions | src/domain/wallet.ts:132-155 | the version counts the movements after the opening |
| Conservation.SlotFlips | src/infrastructure/persistence/wager-transaction.repository.ts:62-84 | a reversal flips the slot of the BET or WIN at the root of its tree and of no other |
| Conservation.RootMoves | src/domain/wager-transaction.ts:351-370 | the root's contribution moves by exactly the money the reversal moves |
| Conservation.KeepsNet | src/application/use-cases/submit-wager-transaction.ts:259-341 | every commit keeps balance equal to opening plus unreversed WINs minus unreversed BETs |
| Conservation.KeepsTrees | src/domain/wager-transaction.ts:65-72 | every BET or WIN with its whole reversal tree nets to its amount or to nothing |
| Commits.SubmissionAdmissible | src/application/use-cases/submit-wager-transaction.ts:158-293 | whatever a submission decides from coherent reads may be committed |
| Commits.TickAdmissible | src/application/use-cases/resolve-pending-reference.ts:56-78 | so may whatever a worker tick decides |
| Commits.FailureAdmissible | src/application/use-cases/resolve-pending-reference.ts:126-148 | so may the recorded failure of a pending |
| Commits.AdmissibleKeepsInv | src/application/use-cases/submit-wager-transaction.ts:311-355 | an admissible commit takes good states to good states |
| Runs.OpeningNeverLoses | src/domain/wager-transaction.ts:49-63 | the reservation of an OPENING never loses |
| Runs.CreateKeepsInv | src/application/use-cases/create-wallet.ts:29-105 | creating a wallet, with or without money, keeps the invariant |
| Runs.SubmitKeepsInv | src/application/use-cases/submit-wager-transaction.ts:91-117 | so does every submission, refused, duplicate or new |
| Runs.ConsumeKeepsInv | src/application/use-cases/consume-wager-message.ts:50-75 | so does every delivery from the queue |
| Runs.StepKeepsInv | src/application/use-cases/resolve-pending-reference.ts:56-148 | no operation leaves the invariant |
| Runs.RunKeepsInv | src/application/use-cases/submit-wager-transaction.ts:91-117 | every state of every run satisfies it |
| Rulebook.SubmissionFollows | src/application/use-cases/submit-wager-transaction.ts:158-341 | whatever a submission reads, its decision is the ruling that the fields of the rows call for, and it writes the row, movement and events of that ruling |
| Rulebook.SettlementFollows | src/application/use-cases/resolve-pending-reference.ts:181-232 | so is the settlement of a pending |
| Answers.UnacceptableIsRefused | src/application/use-cases/submit-wager-transaction.ts:91-117 | each command that may not be reserved writes nothing and is answered with the first thing wrong with it |
| Answers.UsedIsAnswered | src/application/use-cases/submit-wager-transaction.ts:119-156 | a taken key is replayed from the stored row or conflicts, a taken external id alone is reused, and nothing is written |
| Answers.SubmissionFollowsRulebook | src/application/use-cases/submit-wager-transaction.ts:158-341 | each new submission, by what the tables hold: the row, the wallet, the entry, the events and the answer, field by field |
| Answers.AnswerCarriesBalance | src/application/use-cases/submit-wager-transaction.ts:311-325 | the answer carries the balance the wallet is left with, and none exactly for an unknown or foreign wallet |
| Answers.ReversalCodes | src/domain/reference.ts:33-51 | a reversal of a settled reference is rejected with each code exactly when that condition is the first to fail |
| Answers.WinCodes | src/domain/reference.ts:54-63 | so is a WIN, whose amount is free |
| Answers.TickFollowsRulebook | src/application/use-cases/resolve-pending-reference.ts:56-97 | each due tick puts the row off while it may wait, or settles it by the same rulings |
| Answers.TickStoresBalance | src/application/use-cases/resolve-pending-reference.ts:181-232 | a settled pending stores the balance the wallet is left with |
| Answers.FailureFollowsRulebook | src/application/use-cases/resolve-pending-reference.ts:126-148 | a recorded failure ends the wait with the untouched balance, and leaves any other row alone |
| Answers.CreationIsRefused | src/application/use-cases/create-wallet.ts:29-60 | money that is none is refused, a player with a wallet in the currency is pointed to it |
| Answers.CreationFollowsRulebook | src/application/use-cases/create-wallet.ts:40-105 | a new wallet, its OPENING, its entry and its two events, field by field |
| Answers.RedeliveryIsAnswered | src/application/use-cases/consume-wager-message.ts:97-116 | a delivery with an inbox row is told from that row and writes nothing |
| Answers.DeliveryIsAnswered | src/application/use-cases/consume-wager-message.ts:50-75 | any other delivery is its submission: permanent when it can never succeed, transient otherwise, or committed with its inbox row |
| States.CommittedIsGood | src/infrastructure/persistence/unit-of-work.ts:1-57 | so does every state an interleaving of transactions commits |
| Theorems.BalanceIsNet | src/application/use-cases/submit-wager-transaction.ts:259-341 | balance is opening plus WINs minus BETs without an active reversal, within 0 and 999999999999999999.99 |
| Theorems.EveryTreeNets | src/domain/wager-transaction.ts:351-370 | each BET with its reversal tree nets to minus its amount or 0, each WIN to plus its amount or 0 |
| Theorems.OneActiveReversal | src/infrastructure/persistence/migrations/Migration20260906000002_reversal_slot_per_reference.ts:3-5 | at most one active reversal per reference, of any kind |
| Theorems.NoSelfReference | src/infrastructure/persistence/migrations/Migration20260904000001_initial.ts:101 | no committed row refers to itself |
| Theorems.LinksObeyTheRules | src/domain/reference.ts:33-63 | every stored link leads to a processed row of the same provider, player, wallet, round and currency, of a kind that may be linked, with the same amount for reversals |
| Theorems.EntriesAreAnswered | src/application/use-cases/submit-wager-transaction.ts:311-341 | the operation behind every entry is processed and stores the balance the entry left |
| Theorems.SlotDecidesReversal | src/application/use-cases/submit-wager-transaction.ts:259-293 | a sound reversal is processed exactly when its slot is free and the wallet can take it; else the code is REFERENCE_ALREADY_REVERSED or the one of the movement |
| Theorems.VersionCountsMovements | src/domain/wallet.ts:148-152 | version is 1 plus the movements after the opening |
| Theorems.NothingHalfDone | src/infrastructure/persistence/inbox.repository.ts:12-40 | no committed row is PENDING, no committed inbox row unprocessed |
| Theorems.HashTellsBusiness | src/application/idempotency/payload-hash.ts:18-36 | two commands have the same stored hash if and only if provider, external id, player, wallet, round, game, kind, money and reference are the same |
| Theorems.OneKeyOneOperation | src/application/use-cases/submit-wager-transaction.ts:119-156 | after a key is won, every later use in any run writes nothing: replay iff the business payload is the same, else conflict |
| Theorems.EachOutcomeAnnouncedOnce | src/application/use-cases/submit-wager-transaction.ts:311-355 | one Processed or Rejected event per terminal wager, one PendingReference event per wager that waited |
| Theorems.EventsTellTheRow | src/application/events/wager-events.ts:13-84 | what is announced about a wager carries its fields, one by one: the wait first, what it became last, and nothing else |
| Theorems.EventsReplayTheWallet | src/application/events/wager-events.ts:86-108 | WalletBalanceChanged events carry the fields of the entries one to one with consecutive versions, and following them ends at the stored row |
| Idempotency.HistoryIsAppendOnly | src/infrastructure/persistence/migrations/Migration20260904000001_initial.ts:291-313 | in every run rows stay, keep their order fields, and never change once terminal |
| Idempotency.ReplayIsStable | src/application/use-cases/submit-wager-transaction.ts:119-138 | a settled operation answers every later replay with the same id, status, failure and historical balance |
| Idempotency.SubmitTracks | src/infrastructure/persistence/wager-transaction.repository.ts:12-30 | whether a submission is new, a replay or a conflict is told from the earlier operations alone |
| Idempotency.ConsumeStep | src/application/use-cases/consume-wager-message.ts:50-75 | a delivery moves money as one submission, or not at all |
| Idempotency.DuplicatesChangeNothing | src/application/use-cases/submit-wager-transaction.ts:91-156 | any run leaves the wallets, wagers, ledger and outbox of the run with only the submissions whose identities were fresh |
| Idempotency.DuplicatesChangeNothingFromEmpty | src/application/use-cases/consume-wager-message.ts:50-116 | the same from empty tables |
| Serialization.CommitAdmissible | src/application/use-cases/submit-wager-transaction.ts:158-203 | what an interleaved transaction commits is admissible although its reads may be stale |
| Serialization.NextKeepsOk | src/infrastructure/persistence/wallet.repository.ts:38-75 | no statement of any transaction leaves the interleaving invariant |
| Serialization.InterleavingKeepsOk | src/infrastructure/persistence/wallet.repository.ts:38-75 | nor does any interleaving of any number of transactions |
| Serialization.NoLostUpdate | src/infrastructure/persistence/wallet.repository.ts:38-75 | the wallet held in memory is the committed row until the commit, although the update compares no version |
| Serialization.OneActiveReversal | src/infrastructure/persistence/wager-transaction.repository.ts:61-84 | no interleaving gives a reference two active reversals |
| Serialization.CommitWritesAllowed | src/infrastructure/persistence/migrations/Migration20260906000002_reversal_slot_per_reference.ts:15-53 | in every interleaving each write passes every CHECK, key, foreign key and guard |
| Staleness.SubmissionCommitsAtomicallyIff | src/application/use-cases/submit-wager-transaction.ts:158-293 | the commit of a submission of any kind is the atomic submission if and only if what it missed does not matter: wallet still missing, reference not needed, not settled since, or the same refusal |
| Staleness.TickCommitsAtomicallyIff | src/application/use-cases/resolve-pending-reference.ts:56-78 | the commit of a tick is the atomic tick if and only if it reschedules and the reference is still unresolved, settles on a resolved one, or refuses for the reason it would have now |
| Staleness.FailureCommitsAtomically | src/application/use-cases/resolve-pending-reference.ts:126-148 | a recorded failure always commits as the atomic one |
| Staleness.StaleMeansAbroad | src/infrastructure/persistence/wallet.repository.ts:38-75 | in every interleaving, a transaction that holds its wallet has missed at most a reference that settled on another wallet or with WALLET_NOT_FOUND |
| Staleness.HomeReferencesCommitAtomically | src/application/use-cases/submit-wager-transaction.ts:228-255 | in every interleaving, a submission that refers to operations of its own wallet commits as the atomic submission |
| StaleCommits.StaleCommitHappens | src/application/use-cases/submit-wager-transaction.ts:228-255 | the service reaches a commit that is not the atomic submission: a REFUND whose BET commits on another wallet after the lookup |
| SerialOrder.SerialIff | src/infrastructure/persistence/unit-of-work.ts:1-57 | an interleaving goes through the tables of the serial run of its commits, in commit order, if and only if no commit missed anything that matters |
| SerialOrder.HomeTrafficIsSerializable | src/infrastructure/persistence/wallet.repository.ts:38-75 | while references stay on their wallets and ticks miss nothing, every interleaving ends in the tables of that serial run |
| Histories.InterleavingIsAppendOnly | src/infrastructure/persistence/migrations/Migration20260904000001_initial.ts:291-313 | in every interleaving rows stay, keep their order fields, and never change once terminal |
| Histories.OneKeyOneOperation | src/application/use-cases/submit-wager-transaction.ts:119-156 | after a key is won, in every interleaving, each later submission under it writes nothing: replay iff the business payload is the same, else conflict, and its reservation ends it |
| Histories.EveryPendingSettles | src/application/use-cases/resolve-pending-reference.ts:56-97 | in every interleaving a pending takes at most 96 committed ticks and is settled once it has taken them |
| Histories.LosersLeaveNoTrace | src/infrastructure/persistence/wager-transaction.repository.ts:12-30 | without the transactions that never commit, the same commits reach the same tables |
| Histories.CommitsAreNew | src/infrastructure/persistence/wager-transaction.repository.ts:12-30 | a duplicate never commits: a submission commits only while its identities are free, and takes them |
| Schema.ReservationChecks | src/infrastructure/persistence/migrations/Migration20260904000001_initial.ts:132-139 | the reservation insert can only be refused for a reference on a kind that takes none |
| Schema.ReversalGuardSilent | src/infrastructure/persistence/migrations/Migration20260906000002_reversal_slot_per_reference.ts:15-47 | wager_reversal_guard never fires on an admissible row |
| Schema.WagerUpdateAllowed | src/infrastructure/persistence/migrations/Migration20260906000001_failure_code_and_rejection_snapshot.ts:40-60 | the update passes the lifecycle and snapshot CHECKs, both foreign keys and both guards |
| Schema.LedgerInsertAllowed | src/infrastructure/persistence/migrations/Migration20260904000001_initial.ts:185-216 | the entry passes the arithmetic CHECKs, its foreign keys and its unique keys |
| Schema.EnqueueAllowed | src/infrastructure/persistence/migrations/Migration20260904000001_initial.ts:255-256 | event ids never collide |
| Lookups.KeyIsUnique | src/infrastructure/persistence/wager-transaction.repository.ts:32-42 | a lookup by key finds the only row that carries it |
| Lookups.ExternalIsUnique | src/infrastructure/persistence/wager-transaction.repository.ts:44-54 | likewise by external id |
| Lookups.SlotNeedsWallet | src/application/use-cases/submit-wager-transaction.ts:272-293 | a slot only changes under the lock of its wallet |
| OutOfOrder.ReversalGoesThrough | src/application/use-cases/submit-wager-transaction.ts:259-293 | REFUND and ROLLBACK of the REFUND always go through once their target is processed and free |
| OutOfOrder.StepKeepsTrio | src/application/use-cases/submit-wager-transaction.ts:228-255 | every delivery, tick or operation on another wallet keeps the three operations on track |
| OutOfOrder.AnyOrderSettlesAlike | src/application/use-cases/resolve-pending-reference.ts:181-232 | BET, REFUND, ROLLBACK of the REFUND in any order, over HTTP or the queue, repeated, with ticks and other wallets' traffic in between: all PROCESSED, the BET paid once, its slot open |
| OutOfOrder.TwoTicksDrain | src/application/use-cases/resolve-pending-reference.ts:199-221 | one due tick on each reversal drains them, even after the lifetime |
| OutOfOrder.DeliveredThenDrained | src/application/use-cases/consume-wager-message.ts:50-75 | from the delivery of the three, by either channel, in any order, with anything allowed in between, two due ticks lead to that end |
| Entities.WagerTransaction.MarkProcessed | src/domain/wager-transaction.ts:252-263 | succeeds exactly on a row that is not terminal, and changes nothing otherwise |
| Entities.WagerTransaction.MarkPendingReference | src/domain/wager-transaction.ts:265-281 | succeeds exactly on a PENDING reversal |
| Entities.WagerTransaction.Reject | src/domain/wager-transaction.ts:283-305 | succeeds exactly when the code fits the presence of a balance |
| Entities.WagerTransaction.MarkFailed | src/domain/wager-transaction.ts:307-314 | FAILED is reached from PENDING_REFERENCE only |
| Entities.WagerTransaction.ScheduleRetry | src/domain/wager-transaction.ts:316-323 | counts an attempt on a waiting row only |
| Entities.CreateEntry | src/domain/wallet-ledger-entry.ts:34-71 | accepts exactly positive amounts between non-negative balances that add up within range |
| Entities.Wallet.Debit | src/domain/wallet.ts:118-125 | succeeds exactly when the wallet covers a positive amount in its currency; failures leave no trace |
| Entities.Wallet.Credit | src/domain/wallet.ts:127-130 | succeeds exactly within Money's range; failures leave no trace |
| Entities.Wallet.Move | src/domain/wallet.ts:132-155 | balance, version and a monotone updatedAt move together with the entry or not at all |
| Persistence.Database.ReserveWager | src/infrastructure/persistence/wager-transaction.repository.ts:12-30 | inserts exactly when neither identity is taken |
| Persistence.Database.FindByIdempotencyKey | src/infrastructure/persistence/wager-transaction.repository.ts:32-42 | the search finds the row the unique key determines, or none |
| Persistence.Database.FindByExternalId | src/infrastructure/persistence/wager-transaction.repository.ts:44-54 | the same by external id |
| Persistence.Database.LockDuePendingReference | src/infrastructure/persistence/wager-transaction.repository.ts:95-108 | the due row with the least (next_attempt_at, id) that nobody holds, or nothing when there is none |
| Persistence.Database.InsertWalletIfAbsent | src/infrastructure/persistence/wallet.repository.ts:16-26 | inserts exactly when the player has no wallet in the currency |
| Persistence.Database.FindByPlayerAndCurrency | src/infrastructure/persistence/wallet.repository.ts:33-36 | the one wallet of a player and currency |
| Persistence.Database.MarkMessageProcessed | src/infrastructure/persistence/inbox.repository.ts:29-40 | refused exactly when the clock ran backwards |
| UseCases.Write | src/application/use-cases/submit-wager-transaction.ts:311-341 | the writes of a decision, in order, pass the schema and add up to its commit |
| UseCases.MoveOrReject | src/application/use-cases/submit-wager-transaction.ts:285-309 | movement or rejection exactly as decided |
| UseCases.ApplyResolvedReversal | src/application/use-cases/submit-wager-transaction.ts:257-293 | the shared reversal rules, on objects, are the decision on values |
| UseCases.ApplySubmission | src/application/use-cases/submit-wager-transaction.ts:158-203 | so is everything decided under the wallet's lock |
| UseCases.ResolveExisting | src/application/use-cases/submit-wager-transaction.ts:119-156 | replay, key conflict, reused external id or unavailable, in that order |
| UseCases.ExecuteWithin | src/application/use-cases/submit-wager-transaction.ts:91-117 | the submission as it runs is the atomic submission, answer included |
| UseCases.Create | src/domain/wager-transaction.ts:128-191 | refuses exactly OPENING, the internal provider, and a reversal without reference |
| UseCases.Consume | src/application/use-cases/consume-wager-message.ts:50-75 | inbox row and effect commit together or roll back together, as the atomic step does |
| UseCases.CreateWallet | src/application/use-cases/create-wallet.ts:29-105 | wallet, OPENING, entry and events together, or the wallet that already exists |
| UseCases.Settle | src/application/use-cases/resolve-pending-reference.ts:181-232 | the settlement under the wallet's lock is the decision |
| UseCases.Reschedule | src/application/use-cases/resolve-pending-reference.ts:160-179 | one attempt more and nothing else |
| UseCases.RunTick | src/application/use-cases/resolve-pending-reference.ts:56-78 | a tick is the atomic tick on the row it locked, and idle only when no unlocked row is due |
| UseCases.RecordFailure | src/application/use-cases/resolve-pending-reference.ts:126-148 | a waiting row fails with the wallet's balance, any other is left alone |
| Reconciliation.ReconstructBalance | src/infrastructure/persistence/ledger.repository.ts:58-80 | the loop sums exactly the signed entries of the wallet, and counts them |
| Reconciliation.Reconcile | src/application/use-cases/reconcile-wallet.ts:22-43 | the report compares the stored balance with that sum, on any state |
| Reconciliation.ChainNets | src/domain/wallet-ledger-entry.ts:64-71 | a chain of balanced entries from zero nets to its end |
| Reconciliation.AlwaysConsistent | src/application/use-cases/reconcile-wallet.ts:22-43 | in every committed state the difference is zero and within Money's range |
| Reconciliation.EveryDriftIsReported | src/application/use-cases/reconcile-wallet.ts:29-39 | a balance off by any amount would be reported with that amount |
| Outbox.OutboxClaimRepository.Enqueue | src/infrastructure/persistence/outbox.repository.ts:10-33 | every event becomes one unclaimed message, and no other row changes |
| Outbox.OutboxClaimRepository.Claim | src/infrastructure/persistence/outbox-claim.repository.ts:18-69 | the oldest claimable row that nobody has locked gets the lease; none exactly when there is none |
| Outbox.OutboxClaimRepository.MarkPublished | src/infrastructure/persistence/outbox-claim.repository.ts:71-81 | takes effect exactly while the claim is the publisher's own |
| Outbox.OutboxClaimRepository.Abandon | src/infrastructure/persistence/outbox-claim.repository.ts:83-98 | likewise |
| Outbox.OutboxClaimRepository.Reschedule | src/infrastructure/persistence/outbox-claim.repository.ts:100-119 | likewise, counting the attempt in the row |
| Outbox.Complete | src/application/use-cases/publish-outbox-message.ts:53-114 | after a send: published, rescheduled, abandoned or lease lost, each exactly when |
| Outbox.BackoffIs | src/application/use-cases/publish-outbox-message.ts:14-17 | the delay is 1, 2, 4, 8, 16, 32, then 60 seconds, spread by the jitter and rounded |
| Leases.NextAccounts | src/infrastructure/persistence/outbox-claim.repository.ts:41-119 | no step of any publisher upsets the accounts |
| Leases.AccountsBalance | src/application/use-cases/publish-outbox-message.ts:9-12 | attempts is the number of effective reschedules, at most 599; published means sent, abandoned means refused at 599, never both |
| Leases.CompletionExact | src/application/use-cases/publish-outbox-message.ts:53-114 | an owned completion publishes, abandons exactly at 599, or reschedules; a lost lease changes nothing |
| Leases.SettledIsFinal | src/infrastructure/persistence/outbox-claim.repository.ts:71-98 | a published or abandoned message never changes again |
| Leases.LeaseIsExclusive | src/infrastructure/persistence/outbox-claim.repository.ts:18-69 | until its holder completes, nobody else claims a message before the lease is over, whatever else runs |
| Leases.BackoffIsRespected | src/infrastructure/persistence/outbox-claim.repository.ts:100-119 | a refused message is not claimed again before its backoff is over |
| Leases.ArrivalIsSafeIff | src/infrastructure/persistence/outbox-claim.repository.ts:18-36 | an arrival leaves its group in order in every continuation if and only if no row that sorts after it was ever claimed |
| Leases.GroupsStayInOrder | src/infrastructure/persistence/outbox-claim.repository.ts:14-36 | settled messages form a prefix, one claim per group, nothing sent before everything older was sent or given up |
| Leases.OrderedArrivalsStayInOrder | src/infrastructure/persistence/outbox-claim.repository.ts:14-36 | the same when messages of a group are enqueued in (occurred_at, id) order |
| LateCommits.LateCommitBreaksOrder | src/application/use-cases/submit-wager-transaction.ts:101 | two payouts race for a wallet, commit in the opposite order of their instants, and a publisher sends the later balance first |
| Leases.EveryGroupProgresses | src/infrastructure/persistence/outbox-claim.repository.ts:18-36 | the oldest unsettled message of a group always becomes claimable |
| Consumer.ConsumeGrows | src/application/use-cases/consume-wager-message.ts:50-116 | a delivery commits its processed inbox row exactly when it is consumed, and otherwise writes nothing |
| Consumer.NextKeepsGood | src/interface/sqs/wager-consumer.worker.ts:169-211 | no step of worker, broker or crash loses a message |
| Consumer.NothingIsLost | src/interface/sqs/wager-consumer.worker.ts:251-271 | every message ever sent is queued, dead-lettered, or has its processed inbox row |
| Consumer.EffectsAtMostOnce | src/infrastructure/persistence/inbox.repository.ts:10-22 | no inbox key takes effect twice, however often it is redelivered |
| Consumer.RedeliveryIsDecided | src/application/use-cases/consume-wager-message.ts:97-116 | a redelivery is a duplicate or a conflict by its payload; the two transient answers are unreachable |
| Consumer.DeletedOnlyWhenSafe | src/interface/sqs/wager-consumer.worker.ts:257-271 | a message is deleted only after its effect is committed or it is dead-lettered |
| Consumer.HandlingRemoves | src/interface/sqs/wager-consumer.worker.ts:169-211 | a message handled without a fault leaves the queue, unless its failure may pass |
| Worker.WagerConsumerWorker.OutcomeOf | src/interface/sqs/wager-consumer.worker.ts:213-249 | exactly the use case's outcome, except that unreadable bodies and whatever escapes are told apart; processed and duplicate only with the inbox row committed |
| Worker.WagerConsumerWorker.Decide | src/interface/sqs/wager-consumer.worker.ts:169-211 | which messages are deleted, dead-lettered or kept, whichever call fails; the message is still queued, dead-lettered or committed |
| Worker.WagerConsumerWorker.PollOnce | src/interface/sqs/wager-consumer.worker.ts:108-134 | the same for a whole batch in order, stopped or broken off anywhere, and nothing stays in flight |
| Worker.CleanPollEmptiesBatch | src/interface/sqs/wager-consumer.worker.ts:108-134 | a poll without faults leaves on the queue only what was found worth retrying, and dead-letters what can never be read |
| Canonical.CanonicalizeIsPrintNorm | src/application/idempotency/payload-hash.ts:38-51 | canonicalize prints its argument with the members of every object sorted |
| Canonical.ReadsBack | src/application/idempotency/payload-hash.ts:38-51 | a reader undoes the printer, whatever text follows |
| Canonical.KeyLessIsUnitOrder | src/application/idempotency/payload-hash.ts:47-48 | the model's key order is the order of UTF-16 code units |
| Canonical.SortedUnique | src/application/idempotency/payload-hash.ts:47-48 | sorting leaves no choice: same members, same sequence |
| Canonical.SameMeansNorm | src/application/idempotency/payload-hash.ts:46-50 | equality up to member order, at any depth, is equality of normal forms |
| Canonical.CanonicalizeIsCanonical | src/application/idempotency/payload-hash.ts:38-51 | two values canonicalize alike if and only if they are equal up to member order |
| Payload.PayloadHashInjective | src/application/idempotency/payload-hash.ts:18-36 | payload hashes are equal if and only if every business field is |
| Moneys.ParseAcceptsFormat | src/domain/money.ts:13 | the parser accepts exactly the documented format |
| Moneys.FromSucceedsIff | src/domain/money.ts:26-46 | a text is accepted exactly on a currency, in the format, within range and not below zero |
| Moneys.FromIsExact | src/domain/money.ts:37 | the value is the decimal the text spells, with none, one or two decimals |
| Moneys.FromOfToString | src/domain/money.ts:26-46 | parsing undoes printing on the non-negative range |
| Moneys.ReconstructedMoneyUndoesToString | src/infrastructure/persistence/ledger.repository.ts:20-24 | and on the whole signed range through reconstructedMoney |
| Moneys.SameAmountIffSamePrint | src/domain/money.ts:117-119 | two accepted strings denote one amount if and only if they print alike |
| Moneys.ZeroPrintsNoSign | src/domain/money.ts:117-119 | zero, of either sign, prints 0.00 |
| Moneys.NothingIsRounded | src/domain/money.ts:10 | sums and differences stay far below 34 digits, so the context never rounds them |
| Moneys.ArithmeticIsExact | src/domain/money.ts:67-80 | add and subtract are exact and fail only outside the range; canAdd holds if and only if add succeeds |
| Moneys.WalletChecksAreMoneyChecks | src/domain/wallet.ts:108-116 | canDebit and canCredit on hundredths are the checks on Money |
| Paging.FetchPage | src/infrastructure/persistence/ledger.repository.ts:33-56 | the first rows below the cursor in order, and whether there are more |
| Paging.WalksAreComplete | src/interface/http/wagering.controller.ts:150-163 | a finished walk returned every entry present at its start exactly once and none twice, with inserts in between and ties |
| Paging.WalksGoBack | src/infrastructure/persistence/ledger.repository.ts:33-56 | a walk returns its entries newest first, ties by falling id |
| Causes.FindInCauseChain | src/infrastructure/persistence/postgres-errors.ts:68-91 | ends on every cause graph with the first pick along it, and none only when nothing reachable is picked |
| Causes.SqlStateIsFirst | src/infrastructure/persistence/postgres-errors.ts:54-66 | the state of an error is the first of code, errno and sqlState that has the form of one |
| Causes.PhraseIsFound | src/infrastructure/persistence/postgres-errors.ts:45-52 | a listed phrase is found anywhere in a message, whatever its capitals |
| Causes.IsTransientConnectionLoss | src/infrastructure/persistence/postgres-errors.ts:104-127 | true if and only if a reachable error has a socket code or message of the lists |
| Causes.IsTransientDatabaseFailure | src/infrastructure/persistence/postgres-errors.ts:93-102 | true if and only if some error along previous or cause is transient |
| Causes.LockConflictReason | src/infrastructure/persistence/postgres-errors.ts:131-133 | names the first lock conflict of the chain |
| Causes.ConflictsAreTransient | src/infrastructure/persistence/postgres-errors.ts:14-17 | every conflict it names is also transient |

## Left out

- Serialization.NextKeepsOk: a queue delivery is interleaved as the submission it carries; the insert of its inbox row, on which a second delivery of the same message blocks, is atomic with the commit in `Machine.Consume` and `Consumer`.
- Leases.GroupsStayInOrder: supposes that arrivals sort behind what was ever claimed in their group, which the service does not enforce; `Leases.ArrivalIsSafeIff` shows that nothing weaker will do.
- OutOfOrder.AnyOrderSettlesAlike: supposes that no other operation acts on the wallet and no deterministic failure is recorded for its pending rows.
- UseCases.RunTick: the deterministic failure path enters as a separate step, `RecordFailure`, at any time; which error caused it is not modelled.
- SerialOrder.HomeTrafficIsSerializable: across wallets a reference is not covered by the held lock; there only the exact conditions of `Staleness` are claimed.
- Lock timeouts and deadlocks appear only as transactions that abort at any step.
- NestJS modules, controllers apart from the cursor rule, guards, error filters, health, logging and metrics: plumbing.
- MikroORM mapping and row schemas: tables are maps and sequences.
- The AWS client, long polling, visibility arithmetic and retry delays: the queue is nondeterministic receive, delete, send and redelivery; message retention never expires.
- Parsing of envelopes and commands, field lengths, UUID syntax and the ISO 4217 list: inputs are already parsed, a currency is three capital letters.
- JSON numbers that are not integers, and strings with lone surrogates: `canonicalize` is modelled on the rest.
- The hash function itself, and the text encodings of ids.
- Migration down paths, grants and roles; the immutability triggers appear as the absence of such writes.
