# XRPL machine payments: protocol models and proofs

This project models the parts of the XRPL MPP packages on which the safety of payments rests, and proves what they
promise. `dafny verify dfyconfig.toml` checks all of it.

Protocols are transition systems: a function `Next` takes a state and one event (a step of one request or worker between
two awaits, a ledger or clock event, a crash), and the theorems speak about every state that any sequence of events
reaches. The stores, the worker, the header parser and the number renderer, which the program writes as loops and
assignments, are classes and methods proved against functions, and the theorems are about those functions.

* **PayChannel ledger** (`HighWater`, `PayChannelRecords`, `PayChannelProtocol`, `PayChannelSafety`, `PayChannelAlone`,
  `PayChannelOpening`, `PayChannelClosing`, `LedgerConsulted`, `StaleSettlements`, `RedemptionWorker`).
  Open, voucher and close requests and worker sweeps, any number of each, share one record per channel, a redemption
  lease, the XRP Ledger and a clock. Every request carries a program counter and the stale snapshots it holds, and may
  stop for good at any await. Beside what holds over all runs stands what each operation does to its channel when
  nobody else takes a step.
* **Stores** (`OptimisticTransactions`, `PayChannelStores`, `StoreLinearizability`, `ChannelScan`). The lock-based store,
  the WATCH / MULTI retry loop against rivals, any number of interleaved clients, and cursor scans.
* **Single use** (`ChallengeClaims`, `ChargeReplay`, `ChargeReplayBounds`, `ChargeOutcomes`). Session challenges and charge reservations,
  with lifetimes.
* **Funding journal** (`FundingJournal`, `FundingOutcomes`). Sign, persist, submit, crash, reconcile.
* **Client** (`ClientSession`, `Pathfinding`). The session mark against the server's amount, and source-side spend bounds.
* **Codecs** (`ChallengeHeader`, `ChallengeRoundTrip`, `ChallengeAstray`, `ChallengeSamples`, `ChallengeParameters`,
  `ChallengeNeighbours`, `Base64Url`, `EcmascriptNumbers`, `JsonText`, `JsonGrammar`, `CanonicalJson`).

What the environment is taken to do: a channel's ledger amount only grows; a claim enters the ledger only if it was
submitted here, and then only raises the balance; the wallet's RLUSD grows only by its own conversions; no clock runs
backwards, except that the timestamps given to the stores are arbitrary; SHA-256 and SHA-512 digests do not collide;
identifiers made with `uuid4` are new; a claim signature holds only for what the payer signed.

Where the code does less than one might expect:

* A worker settles the record it scanned, without reading it again under the lease, so it may submit an amount that the
  store already marks redeemed (`StaleSettlements.StaleSweepResubmits` is a run). As long as settlements are recorded
  before their leases expire, that happens exactly when the record showed the scanned claim redeemed as the worker took
  its lease (`StaleSettlements.SweepResubmitsExactly`), and a close, which reads again, never does it; with any later
  recording a close may too (`StaleSettlements.ClosesNeverResubmitExactly`). The accounting holds in every case
  (`PayChannelSafety.AccountingHolds`), and finalization closes over no voucher its process has not seen
  (`PayChannelSafety.FinalizerSawTheClaim`).
* A funding string longer than twenty digits passes the store's first check and is then rejected by revalidation;
  `PayChannelRecords.RevalidationRejectsExactly` says exactly when.
* A session challenge is single-use exactly when no request takes longer than the 60 second margin from its envelope
  check to its claim (`ChallengeClaims.ClaimedAtMostOnceExactly`; beyond it, `ChallengeClaims.SlowClaimRepeats` is a
  run that claims twice).
* A charge challenge yields at most one receipt exactly when runs keep two time bounds
  (`ChargeReplayBounds.PaysAtMostOnceExactly`). The second one matters only where challenges share an invoice through
  `methodDetails.invoiceId`, because marking overwrites a key without looking at it.
* The header parser searches a lowered copy of the header with positions of the header itself, and lowering U+0130
  makes the copy longer. A list of challenges reads back if and only if the lowered header has the scheme's name at every
  position where a challenge starts (`ChallengeAstray.RoundTripExactly`). One U+0130 in the first of two challenges
  can lose the second (`ChallengeSamples.OneDottedLosesTheNext`); fewer than seven lose everything after the first
  challenge that has one (`ChallengeRoundTrip.FewDottedLoseTheRest`); ten of them followed by a look-alike name lose nothing
  (`ChallengeSamples.TenDottedReadBack`).

## Model

| member | source | states |
|---|---|---|
| HighWater.EvaluateSpecification | packages/core/src/xrpl_mpp_core/paychannel.py:163-201 | a claim advances exactly when it exceeds the stored mark and pays for the whole request on top; equal, lower and short claims are told apart; the reported previous amount denotes the stored mark; only an advance carries a state, and it is the caller's claim |
| HighWater.EvaluateRefuses | packages/core/src/xrpl_mpp_core/paychannel.py:177-201 | amounts that are no drops are refused before anything else; a signature or a time that the mark cannot hold is refused exactly where the claim would advance |
| PayChannelRecords.MutateKeepsRecords | packages/facilitator/src/xrpl_mpp_facilitator/paychannel_store.py:275-465 | whatever the arguments and the clock, a mutation that stores a record stores a valid one under the same key that is a possible later state of the old one: no amount or time falls, the claim changes only when its number strictly rises, finalization freezes claim and funding |
| PayChannelRecords.ValidatesAsItIs | packages/facilitator/src/xrpl_mpp_facilitator/paychannel_store.py:26-85 | which records pass validation as they are, character by character: identifier, signature, amounts, accounting and dates |
| PayChannelRecords.AdvanceSucceeds | packages/facilitator/src/xrpl_mpp_facilitator/paychannel_store.py:304-370 | an advance succeeds if and only if the channel is open, the funding has not shrunk and fits the drops format, and the claim is within the funding, above the stored claim and pays for the request; and then exactly the claim, the funding and the clock change |
| PayChannelRecords.RejectedAdvanceKeepsClaim | packages/facilitator/src/xrpl_mpp_facilitator/paychannel_store.py:313-353 | an advance that is not accepted leaves claim, signature and clock alone; at most it stores the newly validated funding |
| PayChannelRecords.RevalidationRejectsExactly | packages/facilitator/src/xrpl_mpp_facilitator/paychannel_store.py:54-85 | validating what a mutation built fails if and only if the caller supplied a funding over twenty digits, an overlong reference or an overlong reason in a call that would otherwise store it |
| PayChannelRecords.AdvanceRefusals | packages/facilitator/src/xrpl_mpp_facilitator/paychannel_store.py:304-370 | each refusal of an advance has its own error or status, and they are tried in one order |
| PayChannelRecords.RedeemSucceeds | packages/facilitator/src/xrpl_mpp_facilitator/paychannel_store.py:392-421 | a settlement is recorded if and only if its amount is between the redeemed and the claimed one and its reference fits, with exactly the redeemed amount, its time and its reference changed; an amount already redeemed changes nothing; each refusal has its error |
| PayChannelRecords.FinalizeSucceeds | packages/facilitator/src/xrpl_mpp_facilitator/paychannel_store.py:441-465 | a channel is finalized if and only if it still has the expected claim and the reason fits, with exactly the finalization fields changed; finalizing it again changes nothing |
| PayChannelRecords.CreateSucceeds | packages/facilitator/src/xrpl_mpp_facilitator/paychannel_store.py:477-489 | a new channel is stored as given, the same record again changes nothing, and any other conflicts; without a record of that channel no other operation works |
| PayChannelRecords.ArgumentsMatter | packages/facilitator/src/xrpl_mpp_facilitator/paychannel_store.py:275-303 | an operation gets as far as the record if and only if its arguments are well formed |
| PayChannelRecords.UpperIgnoresCase | packages/facilitator/src/xrpl_mpp_facilitator/paychannel_store.py:44-53 | two channel identifiers or signatures are the same after normalization if and only if they differ at most in the case of ASCII letters |
| OptimisticTransactions.Serializable | packages/facilitator/src/xrpl_mpp_facilitator/paychannel_store.py:665-684 | any interleaving of WATCH, read and EXEC-or-retry by any number of clients gives the database and the answers of running the logged transactions one at a time; each finished call is one of them, within the call's duration, and it retried at most as often as others wrote its keys |
| OptimisticTransactions.StepKeepsInv | packages/facilitator/src/xrpl_mpp_facilitator/paychannel_store.py:665-684 | every step of every client keeps the log explaining the database and every pending watch either current or doomed by a logged conflict |
| OptimisticTransactions.AloneCommits | packages/facilitator/src/xrpl_mpp_facilitator/paychannel_store.py:665-684 | a call that no rival interrupts commits at its first attempt: it answers and writes what its transaction makes of what it found, touches no other key or client, and exactly the keys it wrote look changed to those who watch them |
| StoreLinearizability.StoreTxnServes | packages/facilitator/src/xrpl_mpp_facilitator/paychannel_store.py:643-684 | on sound records the Redis transaction, which validates what it reads again, answers and writes exactly what the lock-based store does |
| StoreLinearizability.RedisMatchesInMemory | packages/facilitator/src/xrpl_mpp_facilitator/paychannel_store.py:628-771 | however clients interleave there is one sequence of operations that a single in-memory store answers with the same results and final records; every finished call is an element of it, after its begin, that belongs to that client alone, and it retries at most as often as elements in between wrote its channel |
| PayChannelStores.ServeSound | packages/facilitator/src/xrpl_mpp_facilitator/paychannel_store.py:501-567 | an operation keeps every record valid and under its own key, lets every record only evolve, and touches no other key |
| PayChannelStores.RecordsOnlyEvolve | packages/facilitator/src/xrpl_mpp_facilitator/paychannel_store.py:468-567 | over any sequence of operations, with any clocks, no record disappears and each one only evolves |
| PayChannelStores.InMemoryPayChannelStore.Execute | packages/facilitator/src/xrpl_mpp_facilitator/paychannel_store.py:477-567 | create, get, advance, mark_redeemed and finalize answer and update the dictionary as the sequential store function says |
| PayChannelStores.InMemoryPayChannelStore.ClaimRedemption | packages/facilitator/src/xrpl_mpp_facilitator/paychannel_store.py:593-612 | an unexpired lease refuses a new one; otherwise a fresh lease with its expiry replaces whatever was there |
| PayChannelStores.InMemoryPayChannelStore.ReleaseRedemption | packages/facilitator/src/xrpl_mpp_facilitator/paychannel_store.py:614-625 | only the lease with the given identifier is removed; a newer holder's lease survives a delayed release |
| PayChannelStores.LeaseStandsExactly | packages/facilitator/src/xrpl_mpp_facilitator/paychannel_store.py:593-625 | a granted lease refuses every other claim of its channel exactly until its seconds are over or its own identifier releases it, and never stands in another channel's way |
| PayChannelStores.RedisEffectIsMutate | packages/facilitator/src/xrpl_mpp_facilitator/paychannel_store.py:643-655 | reading a sound record back through validation changes nothing about the mutation's effect |
| PayChannelStores.RedisPayChannelStore.Attempt | packages/facilitator/src/xrpl_mpp_facilitator/paychannel_store.py:667-681 | one pass of the loop either takes effect at one point among the rivals' commits, with the sequential answer at that point, or sees a watch error that a rival's commit caused |
| PayChannelStores.RedisPayChannelStore.Execute | packages/facilitator/src/xrpl_mpp_facilitator/paychannel_store.py:665-684 | the retry loop ends; its answer is the in-memory store's at one point between call and return; every retry is paid for by a rival that committed before |
| ChannelScan.Scan | packages/facilitator/src/xrpl_mpp_facilitator/paychannel_store.py:569-591 | a page is cut out of the sorted listing of the network's channels, with their current records; a bad cursor or limit is refused |
| ChannelScan.PageExactly | packages/facilitator/src/xrpl_mpp_facilitator/paychannel_store.py:569-591 | a page starts at its cursor, is as long as the limit and the listing allow, and its next cursor is the position after it, or zero exactly when nothing is left |
| ChannelScan.SweepReturnsAll | packages/facilitator/src/xrpl_mpp_facilitator/paychannel_worker.py:85-91 | following cursors from 0 back to 0 returns every channel present at the start, even when channels are created between pages |
| ChannelScan.QuietSweepIsTheListing | packages/facilitator/src/xrpl_mpp_facilitator/paychannel_worker.py:85-91 | without creations the pages of a sweep together are the listing, each channel once and in order |
| ChannelScan.SweepEnds | packages/facilitator/src/xrpl_mpp_facilitator/paychannel_store.py:569-591 | a sweep ends after as many pages as the largest listing it meets fills |
| RedemptionWorker.PayChannelRedemptionWorker.RunOnce | packages/facilitator/src/xrpl_mpp_facilitator/paychannel_worker.py:85-171 | a sweep moves the cursor to the next page, gives every record of the page its fate exactly once, and changes no other record; a record of the page becomes finalized if and only if it was open, idling is on, its last update is at least the idle time ago, and it owed nothing or nobody held its lease and its settlement was recorded; the counters are the numbers of channels whose record became finalized and whose redeemed amount rose |
| RedemptionWorker.PayChannelRedemptionWorker.SweepRecord | packages/facilitator/src/xrpl_mpp_facilitator/paychannel_worker.py:95-163 | one record is finalized, and its redeemed amount raised, exactly under those conditions; a failed settlement keeps its lease and every other outcome leaves no lease of its own |
| RedemptionWorker.RedeemAlone | packages/facilitator/src/xrpl_mpp_facilitator/paychannel_worker.py:126-134 | alone, recording a settlement fails only for an overlong reference and otherwise marks the whole claim redeemed |
| RedemptionWorker.SweptRecordEvolves | packages/facilitator/src/xrpl_mpp_facilitator/paychannel_worker.py:95-163 | a swept record is a possible later state of itself; one that was paid out or closed owes nothing, and only an idle one is closed |
| PayChannelSafety.AccountingHolds | packages/facilitator/src/xrpl_mpp_facilitator/paychannel_service.py:668-1055 | in every reachable state of any interleaving each registered channel has redeemed <= ledger balance <= cumulative <= funded <= ledger amount |
| PayChannelSafety.FinalizedIsRedeemed | packages/facilitator/src/xrpl_mpp_facilitator/paychannel_service.py:926-1040 | with a settler configured every finalized channel is fully redeemed, in every reachable state |
| PayChannelSafety.FinalizerSawTheClaim | packages/facilitator/src/xrpl_mpp_facilitator/paychannel_store.py:441-463 | the step that finalizes a channel belongs to a process whose snapshot holds exactly the stored claim and signature, so no unseen voucher is closed over |
| PayChannelSafety.OnlyFinalizeFinalizes | packages/facilitator/src/xrpl_mpp_facilitator/paychannel_worker.py:95-145 | no step but a finalize call finalizes, and that one only on the cumulative amount it expects |
| PayChannelSafety.RecordsEvolveOverRuns | packages/facilitator/src/xrpl_mpp_facilitator/paychannel_store.py:275-465 | what a record says at any moment of a run bounds it for ever after: later states only evolve from it, and a finalized claim never changes |
| PayChannelSafety.SettlementsDoNotOverlap | packages/facilitator/src/xrpl_mpp_facilitator/paychannel_service.py:928-1021 | two processes between lease and release on one channel, both with unexpired leases, are the same process |
| PayChannelSafety.LeaseOutlivesOthers | packages/facilitator/src/xrpl_mpp_facilitator/paychannel_store.py:593-625 | a step takes away a lease only if it is the stepping process's own or has expired |
| PayChannelSafety.SettlementsAreSigned | packages/facilitator/src/xrpl_mpp_facilitator/xrpl_service.py:729-796 | every claim about to be submitted was signed by the payer for exactly its amount and is covered by the stored claim and the ledger amount |
| StaleSettlements.ClosesNeverResubmitExactly | packages/facilitator/src/xrpl_mpp_facilitator/paychannel_service.py:950-1010 | over all runs, no close is about to submit under its lease an amount already marked redeemed if and only if every settlement is recorded before its lease expires |
| StaleSettlements.SweepResubmitsExactly | packages/facilitator/src/xrpl_mpp_facilitator/paychannel_worker.py:117-134 | under that bound a worker about to submit under its lease resubmits if and only if the record already showed the scanned claim redeemed when the lease was taken |
| StaleSettlements.LeaseFreezesRedeemed | packages/facilitator/src/xrpl_mpp_facilitator/paychannel_store.py:593-625 | under that bound the redeemed amount of a channel does not change from a process's lease until its holder's next step, whatever the others do, while the lease lasts |
| StaleSettlements.OnlyRedeemRedeems | packages/facilitator/src/xrpl_mpp_facilitator/paychannel_store.py:275-465 | no step but recording a settlement changes what an existing record says is redeemed |
| StaleSettlements.StaleSweepResubmits | packages/facilitator/src/xrpl_mpp_facilitator/paychannel_worker.py:117-134 | a run within the bound in which a second worker, under its own lease, is about to submit the claim the first one has settled and recorded |
| StaleSettlements.LateRecordResubmits | packages/facilitator/src/xrpl_mpp_facilitator/paychannel_service.py:950-1010 | if settlements may be recorded after their leases expire there is a run in which a close that has just read the record submits an amount already marked redeemed |
| PayChannelSafety.ChainPays | packages/core/src/xrpl_mpp_core/paychannel.py:185-200 | a chain of advances is strictly increasing and its requested amounts sum to at most what the claim has grown |
| PayChannelSafety.AcceptedRequestsArePaid | packages/facilitator/src/xrpl_mpp_facilitator/paychannel_store.py:304-370 | in every reachable state the accepted cumulative amounts strictly increase and all accepted requests together cost at most final minus initial cumulative, hence at most the funding |
| PayChannelSafety.ProcessesCanStep | packages/facilitator/src/xrpl_mpp_facilitator/paychannel_service.py:811-1055 | no reachable process is stuck on a malformed record or local value |
| PayChannelSafety.NextKeepsInv | packages/facilitator/src/xrpl_mpp_facilitator/paychannel_service.py:668-1055 | every event keeps the invariant: the accounting, each process's knowledge of a past record, and the coverage of every pending finalization |
| PayChannelAlone.LedgerBackedClaim | packages/facilitator/src/xrpl_mpp_facilitator/paychannel_service.py:811-924 | with a ledger verifier, a claim alone on a registered open channel is stored with the ledger's amount as its funding if and only if the payer signed it, it lies between what the ledger paid out and what it holds, the funding has not shrunk and fits the drops format, and the claim exceeds the stored one and pays for the request; otherwise the stored claim stays |
| PayChannelAlone.VerifiedClaim | packages/facilitator/src/xrpl_mpp_facilitator/xrpl_service.py:602-644 | what the ledger read says decides first: an unsigned or uncovered claim changes nothing, every other one is decided with the ledger's amount as the funding, down to replays and refusals that refresh the funding |
| PayChannelAlone.UnverifiedClaim | packages/facilitator/src/xrpl_mpp_facilitator/paychannel_service.py:877-924 | without a ledger verifier the stored funding decides, and it is never changed by a claim |
| PayChannelAlone.BadAnswerStops | packages/facilitator/src/xrpl_mpp_facilitator/xrpl_service.py:602-644 | a ledger answer that is no amount, or that has more paid out than it holds, stops the claim |
| LedgerConsulted.LedgerIsConsulted | packages/facilitator/src/xrpl_mpp_facilitator/paychannel_service.py:877-906 | over all runs with a ledger verifier, every voucher or close about to advance carries as its funding what the ledger held at an earlier moment of that same request, when the claim was within it and not below what the ledger had paid out |
| LedgerConsulted.OnlyVerifiedAdvance | packages/facilitator/src/xrpl_mpp_facilitator/paychannel_service.py:877-906 | with a verifier only a request that has just read the ledger is sent on to advance |
| PayChannelOpening.OpenAlone | packages/facilitator/src/xrpl_mpp_facilitator/paychannel_service.py:668-800 | an opening of an unregistered channel registers a record of the deployment's parties with the funding of its PaymentChannelCreate, and stores its initial claim exactly when it has one |
| PayChannelOpening.OpensOnRecord | packages/facilitator/src/xrpl_mpp_facilitator/paychannel_service.py:740-800 | an opening that finds a record goes on with it exactly when it is the deployment's own, has the funding of this PaymentChannelCreate and there is a claim to store |
| PayChannelOpening.ConflictRereads | packages/facilitator/src/xrpl_mpp_facilitator/paychannel_service.py:738-752 | an opening that loses the race to register changes nothing and reads the stored record again |
| PayChannelOpening.ImportAlone | packages/facilitator/src/xrpl_mpp_facilitator/xrpl_service.py:646-727 | the first claim on an unregistered channel imports it from the ledger: its amount is the funding, what it has paid out is both claimed and redeemed, and the claim goes on as on any other channel |
| PayChannelClosing.CloseAlone | packages/facilitator/src/xrpl_mpp_facilitator/paychannel_service.py:926-1040 | a close whose claim is signed and pays, with the lease free and a settlement that validates, ends with the channel finalized, its whole claim redeemed and no lease left |
| PayChannelClosing.CloseWithoutSettler | packages/facilitator/src/xrpl_mpp_facilitator/paychannel_service.py:926-1040 | without a settler a close that pays finalizes at once and leaves what is redeemed as it was |
| PayChannelClosing.CloseGivesWay | packages/facilitator/src/xrpl_mpp_facilitator/paychannel_service.py:950-1010 | a close whose claim was overtaken before its lease lets the lease go, submits nothing and finalizes nothing |
| PayChannelClosing.ForeignRecordStops | packages/facilitator/src/xrpl_mpp_facilitator/paychannel_service.py:649-666 | a close that finds another party's record under its lease stops there, with its lease kept |
| PayChannelClosing.CloseAfterOthers | packages/facilitator/src/xrpl_mpp_facilitator/paychannel_service.py:950-1010 | a close whose claim somebody else settled meanwhile submits nothing and finalizes |
| PayChannelClosing.WaitsForLease | packages/facilitator/src/xrpl_mpp_facilitator/paychannel_service.py:926-950 | somebody else's lease makes a close on an unpaid claim wait, with nothing submitted or closed |
| PayChannelClosing.SweepAlone | packages/facilitator/src/xrpl_mpp_facilitator/paychannel_worker.py:95-163 | a sweep over an unpaid claim, with the lease free and a settlement that validates, leaves the whole claim redeemed and no lease, and finalizes the channel exactly when it found it idle |
| PayChannelClosing.SweepClosesIdle | packages/facilitator/src/xrpl_mpp_facilitator/paychannel_worker.py:95-115 | a sweep finalizes an idle channel that owes nothing and leaves every other one that owes nothing alone |
| PayChannelProtocol.ProcessStable | packages/facilitator/src/xrpl_mpp_facilitator/paychannel_service.py:811-1055 | what a process knows survives every step of the others, the passing of time and new signatures |
| PayChannelProtocol.AdvancedOk | packages/facilitator/src/xrpl_mpp_facilitator/paychannel_service.py:897-924 | what a request does with the outcome of its advance, accepted, replayed or refused, keeps the channel sound and hands the next step what it needs |
| PayChannelProtocol.ReloadOk | packages/facilitator/src/xrpl_mpp_facilitator/paychannel_service.py:950-1010 | a close that reads the record again under its lease settles, releases, discards or finalizes only on a record that allows it |
| PayChannelProtocol.FinalizedOk | packages/facilitator/src/xrpl_mpp_facilitator/paychannel_store.py:441-463 | a finalize that finds the expected amount closes a channel whose redemption covers that amount |
| ChallengeClaims.InMemoryChallengeReplayStore.ClaimChallenge | packages/facilitator/src/xrpl_mpp_facilitator/replay_store.py:135-157 | a blank identifier or a lifetime that is not positive is refused; otherwise lapsed entries are purged and the claim succeeds exactly when none for its key is left |
| ChallengeClaims.RetentionSeconds | packages/facilitator/src/xrpl_mpp_facilitator/paychannel_service.py:237-244 | a claim's lifetime, counted from any later moment, reaches 60 seconds past the challenge's expiry, by less than one second more, and lasts for ever when there is none |
| ChallengeClaims.FreshClaimWins | packages/facilitator/src/xrpl_mpp_facilitator/paychannel_service.py:237-262 | a request alone with an unexpired challenge that nobody holds claims it; from then on nobody can until 60 seconds after its expiry, or ever if it has none |
| ChallengeClaims.HeldClaimLoses | packages/facilitator/src/xrpl_mpp_facilitator/replay_store.py:142-157 | a claim of a challenge that is held fails and changes no entry |
| ChallengeClaims.PurgingIsUnobservable | packages/facilitator/src/xrpl_mpp_facilitator/replay_store.py:142-157 | while the clock does not fall back, purging at each claim gives exactly the answers of entries that simply lapse, as in Redis |
| ChallengeClaims.ClaimedAtMostOnceExactly | packages/facilitator/src/xrpl_mpp_facilitator/paychannel_service.py:246-262 | over all runs and expiries no challenge is ever claimed twice, if and only if no request may take longer than 60 seconds from its envelope check to its claim |
| ChallengeClaims.SlowClaimRepeats | packages/facilitator/src/xrpl_mpp_facilitator/paychannel_service.py:237-262 | with any more time than that there is a run in which one challenge is claimed twice |
| ChargeReplay.RedisReplayStore.Reserve | packages/facilitator/src/xrpl_mpp_facilitator/replay_store.py:235-281 | both keys are set to the reservation's pending marker with the longer of the two lifetimes, unless one of them is taken; then nothing changes |
| ChargeReplay.RedisReplayStore.MarkProcessed | packages/facilitator/src/xrpl_mpp_facilitator/replay_store.py:283-303 | both keys are overwritten whatever they hold |
| ChargeReplay.RedisReplayStore.ReleasePending | packages/facilitator/src/xrpl_mpp_facilitator/replay_store.py:305-332 | each key is deleted if and only if it still carries this reservation |
| ChargeReplay.RetentionSeconds | packages/facilitator/src/xrpl_mpp_facilitator/replay_store.py:84-124 | a marker's lifetime is positive and reaches the validation timeout and 60 seconds past the challenge's expiry |
| ChargeReplay.OneReceiptPerChallenge | packages/facilitator/src/xrpl_mpp_facilitator/xrpl_service.py:1079-1125 | over all interleavings of pull and push runs, crashes, clock advances and expiries, one challenge yields at most one receipt, given that a run reserves within timeout + 60 s of its expiry check and marks while its reservation stands or its invoice is shared with no other challenge |
| ChargeReplayBounds.PaysAtMostOnceExactly | packages/facilitator/src/xrpl_mpp_facilitator/replay_store.py:84-124 | for any settings, over all challenges and runs, at most one receipt per challenge holds if and only if no run may reserve later than that margin after its check and, on a shared invoice, none may mark any time after its reservation has lapsed |
| ChargeReplayBounds.SlowReservationPaysTwice | packages/facilitator/src/xrpl_mpp_facilitator/replay_store.py:84-124 | with any more time from expiry check to reservation there is a run in which a challenge is paid out twice |
| ChargeReplayBounds.LateMarkPaysTwice | packages/facilitator/src/xrpl_mpp_facilitator/replay_store.py:283-303 | if marks may come after the reservation lapsed there is a run in which the unconditional mark of another challenge with the same invoice cuts a paid challenge's marker short and it is paid out twice |
| ChargeReplay.NoSecondSubmission | packages/facilitator/src/xrpl_mpp_facilitator/xrpl_service.py:924-969 | a run about to submit finds every earlier submission for its challenge rejected or validated as failed; after an accepted or ambiguous one nothing more is submitted |
| ChargeReplay.LiveReservationsAreDisjoint | packages/facilitator/src/xrpl_mpp_facilitator/replay_store.py:263-281 | standing reservations share neither invoice nor transaction and each sees its own marker |
| ChargeReplay.MarkersChangeOnlyByTheirHolder | packages/facilitator/src/xrpl_mpp_facilitator/replay_store.py:283-332 | a standing reservation's marker changes only when its own run marks or releases, and becomes free only by that release or by lapsing |
| ChargeReplay.NextKeepsInv | packages/facilitator/src/xrpl_mpp_facilitator/xrpl_service.py:831-1125 | every event keeps each held reservation's markers in place past the last moment at which its challenge could be reserved again |
| ChargeOutcomes.ReceiptsArePaid | packages/facilitator/src/xrpl_mpp_facilitator/xrpl_service.py:924-969 | over all runs a pull charge has a receipt only if its transaction matched, its submission was accepted and a poll found it validated and paid; one that heard of a wrong amount, a failed validation, a rejected submission or a mismatch never has one; a push charge has one only if it matched |
| ChargeOutcomes.ReservesExactly | packages/facilitator/src/xrpl_mpp_facilitator/xrpl_service.py:1079-1125 | a charge reserves if and only if its challenge has not expired, its transaction carries the challenge's invoice, and neither key is claimed; otherwise the store is left alone |
| ChargeOutcomes.PullOutcome | packages/facilitator/src/xrpl_mpp_facilitator/xrpl_service.py:924-969 | an undisturbed pull charge has its receipt exactly when it matched, was accepted, validated and paid, and was marked; its keys are used up whenever it validated and was marked, free again when it cannot have taken effect, and held on to otherwise |
| ChargeOutcomes.PushOutcome | packages/facilitator/src/xrpl_mpp_facilitator/xrpl_service.py:971-1075 | an undisturbed push charge has its receipt exactly when it matched and was marked; its keys are free again when it did not match or its mark did not take effect, and used up otherwise |
| ChargeOutcomes.LateMark | packages/facilitator/src/xrpl_mpp_facilitator/replay_store.py:283-303 | a charge marks while its reservation stands or less than the lateness after, and at any later time if its invoice is its own; its keys are then used up and it has its receipt exactly if what validated paid |
| FundingJournal.LiveIsJournaled | devtools/rlusd_fund.py:691-763 | across any history of crashes, retries and reconciliations every broadcast transaction that can still validate is the journaled one |
| FundingJournal.BalanceStaysWithinCap | devtools/rlusd_fund.py:893-963 | the validated RLUSD balance plus a conversion that can still validate never exceeds the larger of the starting balance and the targets |
| FundingJournal.ClearingIsSound | devtools/rlusd_fund.py:602-688 | a step that empties the journal leaves a transaction that keeps its outcome for ever, or that has none, is past its last ledger and never validates in any continuation |
| FundingJournal.CompletedValidated | devtools/rlusd_fund.py:591-599 | everything recorded as completed validated successfully |
| FundingJournal.NextKeepsInv | devtools/rlusd_fund.py:602-763 | every step, crash, ledger close and spend keeps the journal ahead of the network |
| FundingOutcomes.OneConversion | devtools/rlusd_fund.py:893-963 | from any reachable idle state with an empty journal and a balance below the target, however ledgers close in between, an invocation on a wallet with its trust line journals at most one transaction, which delivers exactly what is missing; once the journal is empty again it validated, the balance is the target and it is recorded, or it failed and nothing has changed |
| FundingOutcomes.Funds | devtools/rlusd_fund.py:869-963 | an invocation that nothing interrupts, on a wallet with its trust line, brings the balance to the target by exactly one transaction, which it records |
| FundingOutcomes.TrustsFirst | devtools/rlusd_fund.py:766-800 | without a trust line a transaction that delivers nothing is journaled and recorded first, and the conversion follows |
| FundingOutcomes.NothingToDo | devtools/rlusd_fund.py:893-903 | a wallet that has its target is left alone |
| FundingOutcomes.SettlesKnown | devtools/rlusd_fund.py:618-646 | a journaled transaction that the ledger knows is recorded or dropped by its result; after a success the invocation goes on to plan, after a failure it ends |
| FundingOutcomes.SendsAgain | devtools/rlusd_fund.py:662-688 | one that is not found and can still validate is sent again, the same, and nothing else is journaled |
| FundingOutcomes.RecordsResent | devtools/rlusd_fund.py:662-688 | once a ledger includes the transaction that was sent again it is recorded like any other, and the invocation goes on to plan |
| FundingOutcomes.DropsAbsent | devtools/rlusd_fund.py:648-660 | one whose last ledger has passed is dropped exactly if it was not found in a full search; otherwise it stays journaled and the invocation ends |
| ClientSession.MarksStayOrdered | packages/client/src/xrpl_mpp_client/httpx.py:280-309 | from agreement, any exchanges, lost responses, changed prices and rejections keep client mark <= server amount <= highest amount signed <= mark + max_amount, and the server has gained exactly the prices it charged |
| ClientSession.AcceptanceCostsThePrice | packages/client/src/xrpl_mpp_client/httpx.py:530-562 | the server moves only for an exchange signed from the mark on which both sides agree, and by exactly its price |
| ClientSession.CaptureReestablishesAgreement | packages/client/src/xrpl_mpp_client/httpx.py:394-407 | capturing a voucher's success makes both sides equal again |
| ClientSession.NothingMoreAtStake | packages/client/src/xrpl_mpp_client/policy.py:98-105 | while the marks differ no further payment is accepted |
| ClientSession.SignsExactly | packages/client/src/xrpl_mpp_client/httpx.py:280-309 | a price is signed on top of the mark exactly when the session is registered, the challenge echoes the mark and the price is within the policy |
| ClientSession.ExchangeAlone | packages/client/src/xrpl_mpp_client/httpx.py:394-407 | between agreeing sides an exchange that is taken moves both marks by the price, and a close ends the session; a refused one moves neither |
| ClientSession.UnfinishedClose | packages/client/src/xrpl_mpp_client/httpx.py:202-258 | a close whose claim was stored but not finished is charged, finalizes nothing and leaves the session registered |
| ClientSession.FinalizedStands | packages/client/src/xrpl_mpp_client/httpx.py:202-258 | once the channel is finalized nothing is charged any more |
| Pathfinding.SendMaxDropsIsLeast | devtools/rlusd_fund.py:139-150 | a number of drops covers the quote with its slippage if and only if it is at least the computed SendMax |
| Pathfinding.RoundUpIsClose | packages/client/src/xrpl_mpp_client/pathfinding.py:346-356 | the rounded value is never below the exact one and exceeds it by less than one unit in its sixteenth significant digit |
| Pathfinding.RoundUpFits | packages/client/src/xrpl_mpp_client/pathfinding.py:346-356 | the rounded value needs at most sixteen significant digits, also when rounding carries |
| Pathfinding.RoundUpIsLeast | packages/client/src/xrpl_mpp_client/pathfinding.py:346-356 | no number of sixteen significant digits lies between the exact value and the rounded one |
| Pathfinding.ResolveIsBounded | packages/client/src/xrpl_mpp_client/pathfinding.py:129-175 | resolution succeeds if and only if there are alternatives and every one is well formed with its own SendMax within the ceiling; it answers the SendMax of the first cheapest quote, the least expressible amount covering that quote with slippage |
| Pathfinding.DirectIsBounded | packages/client/src/xrpl_mpp_client/pathfinding.py:129-155 | the direct route is bounded in the same way by the transfer-rated amount |
| DecimalText.FixedReads | packages/client/src/xrpl_mpp_client/pathfinding.py:353-356 | the fixed-point text with its zeros stripped denotes the number it was made from |
| DecimalText.FixedIsShortest | packages/client/src/xrpl_mpp_client/pathfinding.py:353-356 | the text has no superfluous zero or point |
| Base64Url.DecodeTextInvertsEncode | packages/core/src/xrpl_mpp_core/helpers.py:91-135 | a text decodes to given bytes if and only if it is their encoding and within the limit; the JSON variant refuses the empty text |
| Base64Url.DecodeIsInjective | packages/core/src/xrpl_mpp_core/helpers.py:102-117 | no two accepted texts decode to the same bytes |
| Base64Url.AcceptedExactly | packages/core/src/xrpl_mpp_core/helpers.py:102-117 | a text is accepted if and only if it is within the limit, in the alphabet, of a possible length and without stray bits at its end |
| Base64Url.EncodeSpells | packages/core/src/xrpl_mpp_core/helpers.py:91-101 | the letters carry the bits of the bytes in order, six to a letter and the highest first, in as few letters as hold them, with zero bits at the end |
| Base64Url.AlphabetAscends | packages/core/src/xrpl_mpp_core/helpers.py:91-101 | the alphabet is that of RFC 4648, section 5: upper case, lower case, digits, minus, underscore |
| ChallengeHeader.ParseChallenges | packages/core/src/xrpl_mpp_core/helpers.py:424-441 | the outer loop ends on every input and collects the challenges that the specification reads |
| ChallengeHeader.ParseAuthParams | packages/core/src/xrpl_mpp_core/helpers.py:471-513 | the parameter loop reads what the specification reads: `ChallengeParameters` and `ChallengeNeighbours` say which parameters those are |
| ChallengeHeader.ParseQuotedString | packages/core/src/xrpl_mpp_core/helpers.py:557-577 | the quoted string is unescaped up to its own closing quote, and unterminated ones fail |
| ChallengeHeader.FindNextPaymentScheme | packages/core/src/xrpl_mpp_core/helpers.py:444-453 | the search in the lowered text returns the first place from the start that also begins a scheme in the text itself |
| ChallengeHeader.StartsPaymentScheme | packages/core/src/xrpl_mpp_core/helpers.py:456-466 | a scheme is its name in any case, a space after it, and nothing but space back to the start or a comma |
| ChallengeHeader.StartsSchemeExactly | packages/core/src/xrpl_mpp_core/helpers.py:456-466 | a scheme starts exactly where its name stands in any case, a space or tab after it, and nothing but those back to the start or a comma |
| ChallengeHeader.LowerIgnoresCase | packages/core/src/xrpl_mpp_core/helpers.py:456-457 | lowering tells two characters apart unless they are one ASCII letter in its two cases |
| ChallengeParameters.StartsOtherExactly | packages/core/src/xrpl_mpp_core/helpers.py:520-529 | another scheme starts exactly where a token stands with space after it that no equals sign follows |
| ChallengeHeader.TokensHoldNoDelimiter | packages/core/src/xrpl_mpp_core/helpers.py:532-534 | a token holds every visible ASCII character but the delimiters of RFC 9110, section 5.6.2 |
| ChallengeParameters.NamesOccurOnce | packages/core/src/xrpl_mpp_core/helpers.py:471-513 | parameters are accepted if and only if there is one at least, every one is well formed and no name occurs twice, in either case; then each name has its value |
| ChallengeParameters.ParamInAnyNotation | packages/core/src/xrpl_mpp_core/helpers.py:471-483 | a parameter reads the same whether its value is a token or a quoted string, whatever space stands around the equals sign and after the value, and its name counts in lower case |
| ChallengeParameters.RepeatedFieldIsRefused | packages/core/src/xrpl_mpp_core/helpers.py:484-485 | a field that a rendered challenge shows, given once more with any value, refuses the whole header |
| ChallengeParameters.LooseReads | packages/core/src/xrpl_mpp_core/helpers.py:424-441 | a challenge of any fields is refused when a name occurs twice; otherwise it is collected if it has what is required and the model accepts it, and passed over if not |
| ChallengeParameters.UnknownIsIgnored | packages/core/src/xrpl_mpp_core/helpers.py:424-441 | a parameter of a name that the model does not know changes nothing |
| ChallengeParameters.RejectedArePassedOver | packages/core/src/xrpl_mpp_core/helpers.py:436-440 | challenges that the model rejects are passed over and the others are read as if those were not there |
| ChallengeNeighbours.OtherSchemeBefore | packages/core/src/xrpl_mpp_core/helpers.py:444-466 | a challenge after another scheme's reads as if it stood alone |
| ChallengeNeighbours.OtherSchemeAfter | packages/core/src/xrpl_mpp_core/helpers.py:500-509 | a challenge before another scheme's reads as if it stood alone |
| ChallengeNeighbours.JunkOnlyAfterDescription | packages/core/src/xrpl_mpp_core/helpers.py:489-499 | text right after a closing quote is let pass behind a description, whose parameters end there; behind any other field it refuses the header |
| ChallengeNeighbours.NextAfterJunk | packages/core/src/xrpl_mpp_core/helpers.py:489-499 | the challenge after such text is found and read |
| ChallengeRoundTrip.QuotedReads | packages/core/src/xrpl_mpp_core/helpers.py:420-421 | a quoted string reads back as the value that was escaped, whatever it contains and whatever follows it |
| ChallengeRoundTrip.RenderSpells | packages/core/src/xrpl_mpp_core/helpers.py:154-166 | the rendered text from end to end: the five required fields in order, then each optional one in order that has a value that is not empty |
| ChallengeRoundTrip.FieldsBuildChallenge | packages/core/src/xrpl_mpp_core/helpers.py:154-166 | the parameters written for a challenge build that challenge again, empty optional fields counting as absent |
| ChallengeRoundTrip.FindsHereExactly | packages/core/src/xrpl_mpp_core/helpers.py:444-453 | at a true start of a scheme the search finds it if and only if the lowered text has the name at that very position |
| ChallengeRoundTrip.ParseInvertsRender | packages/core/src/xrpl_mpp_core/helpers.py:154-166 | parsing the comma-joined rendering of any list of valid challenges returns exactly that list, whatever quotes, backslashes, commas or look-alike schemes the values contain, when no challenge but the last contains U+0130 |
| ChallengeRoundTrip.SingleReadsBack | packages/core/src/xrpl_mpp_core/helpers.py:169-175 | a single challenge always reads back |
| ChallengeRoundTrip.FewDottedLoseTheRest | packages/core/src/xrpl_mpp_core/helpers.py:444-453 | with fewer than seven U+0130 in the header what is read is the list up to and including the first challenge that has one, so the list reads back if and only if none precedes the last challenge |
| ChallengeAstray.RoundTripExactly | packages/core/src/xrpl_mpp_core/helpers.py:424-453 | for every list of valid challenges the comma-joined rendering reads back as that list if and only if the lowered header has the scheme's name at each position where a challenge starts |
| ChallengeAstray.ClearIsInPlace | packages/core/src/xrpl_mpp_core/helpers.py:444-453 | a header without U+0130 before its last challenge has every name in place |
| ChallengeAstray.AstrayNeverReads | packages/core/src/xrpl_mpp_core/helpers.py:456-513 | once the search lands past the start of a challenge, whatever is read from there on is never the challenges that were rendered |
| ChallengeSamples.OneDottedLosesTheNext | packages/core/src/xrpl_mpp_core/helpers.py:444-453 | two valid challenges, the first with one U+0130 in its description: only the first is read |
| ChallengeSamples.TenDottedReadBack | packages/core/src/xrpl_mpp_core/helpers.py:444-453 | two valid challenges, the first with ten U+0130 and a look-alike name in its description: both are read, though a U+0130 precedes the last challenge |
| EcmascriptNumbers.EcmascriptNumber | packages/mcp/src/xrpl_mpp_mcp/binding.py:90-124 | the loop renders the normal form of the digits and exponent it was given |
| EcmascriptNumbers.NormalizeKeepsValue | packages/mcp/src/xrpl_mpp_mcp/binding.py:97-107 | dropping zeros at both ends keeps digits * 10^exponent |
| EcmascriptNumbers.LayoutReads | packages/mcp/src/xrpl_mpp_mcp/binding.py:109-123 | each of the four layouts reads back as the digits and the exponent it was made from |
| EcmascriptNumbers.LayoutExactly | packages/mcp/src/xrpl_mpp_mcp/binding.py:109-123 | which layout is used and where its point, its zeros, its `e` and the sign of its exponent stand, by the number of digits and the position of the decimal point |
| EcmascriptNumbers.SignExactly | packages/mcp/src/xrpl_mpp_mcp/binding.py:94-124 | a minus sign comes first exactly for a negative number, and zero is written as the lone digit |
| EcmascriptNumbers.EqualTextsExactly | packages/mcp/src/xrpl_mpp_mcp/binding.py:90-124 | two numbers are rendered alike if and only if they are the same number |
| JsonText.BytesOrderUnits | packages/mcp/src/xrpl_mpp_mcp/binding.py:83-87 | ordering UTF-16 big-endian bytes is ordering UTF-16 code units |
| JsonText.QuoteIsPrefixFree | packages/mcp/src/xrpl_mpp_mcp/binding.py:63-65 | a quoted string determines its value and where it ends, whatever follows |
| JsonText.UnitsSpell | packages/mcp/src/xrpl_mpp_mcp/binding.py:84-88 | a character outside the basic plane becomes a high and a low surrogate carrying ten bits each; any other is its own code unit |
| JsonText.BytesSpell | packages/mcp/src/xrpl_mpp_mcp/binding.py:84-88 | every code unit takes two bytes, the high one first |
| Ordering.LessExactly | packages/mcp/src/xrpl_mpp_mcp/binding.py:77-77 | the first position where two keys differ decides their order, and a proper beginning comes first |
| JsonGrammar.EscapeIsShortest | packages/mcp/src/xrpl_mpp_mcp/binding.py:63-65 | every other JSON notation of a character is longer, or differs only in the case of hexadecimal digits |
| JsonGrammar.CanonicalIsText | packages/mcp/src/xrpl_mpp_mcp/binding.py:56-80 | a canonical text is one of the value's texts in the grammar of RFC 8259, without any space |
| CanonicalJson.CanonicalExactly | packages/mcp/src/xrpl_mpp_mcp/binding.py:56-80 | a value is rendered if and only if every number inside it is finite and every integer in the safe range |
| CanonicalJson.MembersAreInCodeUnitOrder | packages/mcp/src/xrpl_mpp_mcp/binding.py:72-79 | an object's members are written each once, in ascending order of their names' UTF-16 code units |
| CanonicalJson.TextDeterminesMeaning | packages/mcp/src/xrpl_mpp_mcp/binding.py:56-80 | two canonical texts that agree up to what may follow a value mean the same and end at the same place |
| CanonicalJson.CanonicalIdentifiesValues | packages/mcp/src/xrpl_mpp_mcp/binding.py:42-80 | two values have the same canonical text if and only if they are the same value up to equality of numbers and order of members |
| CanonicalJson.InsertionOrderIsIgnored | packages/mcp/src/xrpl_mpp_mcp/binding.py:71-79 | inserting the same members in another order changes nothing, not even a failure |

## Left out

- Cryptography and the XRPL binary codec: signatures, hashes and transaction decoding are predicates, parameters or identifiers, and a signature holds only for what was signed.
- Real Redis, asyncio, httpx and rippled: awaits are the points between events and network outcomes are inputs of events.
- ChargeReplay.RedisReplayStore.Reserve: the WATCH loop is one atomic step here, as `OptimisticTransactions.Serializable` justifies for any loop of that shape, and a lifetime of `None` is not modelled because every charge has an expiry.
- Lagging balance answers in the funding journal: a balance is read as of the newest validated ledger, while journal lookups may lag; an older balance from another node is not modelled.
- RedemptionWorker.PayChannelRedemptionWorker.RunOnce: is a sweep with nobody else at work; interleaved sweeps are processes of `PayChannelProtocol`.
- Which challenge claim a voucher makes before its advance: `ChallengeClaims` models it on its own, because it can only stop a request.
- Removal of a channel from the ledger, its expiration, settle delay and the public-key checks: they only make a request fail.
- The Redis SCAN order: `ChannelScan` models the in-memory store's cursor.
- Pydantic checks beyond accounting, timestamps, drops, hexadecimal and length rules; whitespace stripping of references and reasons.
- Lone surrogates and UTF-8 validity: strings are sequences of Unicode scalar values and base64url works on bytes.
- The digits of a float's shortest `repr`, which enter `EcmascriptNumbers` as given.
- Decimal exponent limits in path finding, path shapes and retries, and `_amm_source_amount_drops`, whose default-precision division has no exact bound.
- A client that uses one channel for several resources, `register_channel` with a wrong amount, and the opening exchange.
- Seller middleware, relay, discovery, gateway, proxy, configuration, command lines and demos.
- Liveness after an ambiguous charge or a lost voucher response.
