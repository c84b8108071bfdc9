# Verified model of the demand-response settlement service and its contracts

This project models the demand-response agent in Dafny and proves what its parts promise, alone and together.

* **On the chain.** `Tokens`, `Contracts` and `ContractObjects` model the DRT token, EventManager, ProofRegistry and
  Settlement as one transactional machine: a call yields the next state, or reverts and leaves everything as it was.
  `ChainRuns` and `Ledger` prove what every run of it keeps. `Payout` sets the checked 256-bit arithmetic against the
  service's unbounded integers.
* **Off the chain.** `Database`, `Submitter` and `Reconcile` give the service's tables and calls as functions.
  `SubmitterObject` is the service as an object with its loops: reconciliation passes, confirmation waits, settlement.
  `DbRuns` proves what every run of calls keeps and `Origins` that every stored column goes back to a request of the
  run; `SharedHashes` adds what rows with one transaction hash share; `ServiceRuns` proves that each method call of the
  object is a stretch of such runs, from the raw answers of chain actions on.
* **Together.** `SyncSimulation` proves that in sync mode every row is on the chain with the same content, whatever
  other accounts do there. `HybridGating` lets the chain confirm or fail each transaction at any moment and proves that
  no phase of the lifecycle starts before the previous transaction is confirmed, under every interleaving.
* **Progress.** `Lifecycle` describes one event with any number of sites, any settlement request and any order of
  claims. `SyncLifecycle` and `HybridLifecycle` (with the steps of `HybridSteps`) prove that from a funded start the
  whole of it goes through on both sides and the claimed rewards are paid. `Completion` decides for every database
  which events can still be completed. `DivergentPayouts` shows where hybrid payouts can part, and why.
* **The bridge.** `Bridge` models the lock/unlock and burn/mint contract, `BridgePeg` both chains with the messages
  between them.
* **Around it.** `TxPipeline`, `JudgeSummary` and `RunDriver` relate the web page to the service; `TaskQueue` and
  `LoadSpikes` model the task queue and the outlier detector. `Tracking` proves once what `BridgeTracking` and
  `IcmTracking` need for their tables. `TimeOrder` relates timestamp strings to seconds; `ChainReplies` reads a chain
  action's answer.

Code that updates fields is a class whose methods are held to functions on values; the theorems are about those
functions and about runs, that is, sequences of calls.

## Assumptions

Each is a hypothesis of the theorems that need it.

* Hashes and ids that the code takes from uuid or the chain are new when they are made (`HybridGating.Enabled`,
  `SharedHashes.FreshReply`, `TaskQueue.Legal`, `Tracking.Legal`). The keccak labels of event and site ids are
  injective: ids stand for their labels.
* In sync mode a chain step is finished when it returns: it either raised, and the chain is unchanged, or it was
  executed. The service's wallet calls the contracts through the service only; every other account may call anything
  at any time (`SyncSimulation.WellFormedTurn`).
* In hybrid mode every account may call anything at any time, the operator's own wallet included
  (`HybridGating.Enabled`). A raw look-up answer that says confirmed or failed is about a transaction that stands so
  (`ServiceRuns.Honest`); a chain step's own answer is still pending, under a new hash (`ServiceRuns.StillPending`).
* One wallet signs all service calls and operates both contracts (`SyncSimulation.Operates`); the Settlement contract
  itself originates no transaction.
* `targetKw * rewardRate` and `targetKw * penaltyRate` stay below 2^255 where `Payout.BoundedRates` is required.
* The relayer delivers each bridge message at most once, with its own amount, as the contract's comments ask of it
  (`BridgePeg.Permitted`); the contract stores no received nonces.
* One Settlement contract stays configured, the remote token's bridge stays fixed, and runs start from empty tables.

## Findings

Properties that one might expect and that do not hold, each with the exact condition or a concrete run.

* A penalty product of 2^255 or more is cast to a negative number and becomes a reward. A run from deployment records
  and pays one (`ChainRuns.WrappedPenaltyIsPaid`). A record is the service's number exactly when no product of its
  formula wraps, or both do (`ChainRuns.RecordIsServiceNumberIff`, `Payout.ContractPayoutAgreesIff`).
* On the chain, unlike in the tables, a settled event need not have records. Over runs from deployment it has none
  exactly when a markEventSettled of it was accepted, and some exactly when a settleEvent was
  (`ChainRuns.SettledBareIffMarked`). The operator can do the former (`ChainRuns.OperatorCanSkipSettlement`).
* In hybrid mode the chain can pay something else than the row says. With the settlement on the chain, payouts agree
  when the row's own proof transaction is confirmed there (`DivergentPayouts.StandingPayoutsAgree`). When it is not,
  the chain's reading came from another confirmed transaction of the service or from another caller
  (`DivergentPayouts.StrayReadingHasASource`). Through either source, for any two readings of the sites, a run from the
  start ends settled and confirmed with the one reading paid in the rows and the other on the chain
  (`DivergentPayouts.ReadingsDiverge`); one kilowatt hour is enough (`DivergentPayouts.OneKwhDiverges`).
* submitProof is open to every account. In sync mode the service's first proof for a site passes its checks and still
  reverts exactly when another account posted one before, or a number does not fit
  (`SyncSimulation.FirstProofRevertsIff`); anyone can do so while the event is active (`SyncSimulation.AnyoneCanPost`),
  and the site stays blocked (`SyncSimulation.StrayProofBlocks`).
* Not every event can be completed. It can exactly when it is active, or has all required proofs and site-a's and, once
  settled, a row for site-a; in hybrid mode the awaited create, close or settle transaction must also be confirmed or
  still be looked up (`Completion.CompletableIff`, `Completion.UngatedCanComplete`). An event closed too early stays at
  the proofs step (`JudgeSummary.ClosedTooEarlyNeverCompletes`).
* The service and the page count a pending transaction that carries a fee differently (`TxPipeline.ReadingsDifferIff`);
  no reachable row is of that kind (`TxPipeline.ReachableRowsCountAlike`).
* A recorded destination hash can be replaced, by receiving or relaying again (`BridgeTracking.DestHashReplacedIff`,
  `IcmTracking.DestHashReplacedIff`). Only the source hash is written once (`Tracking.SourceWrittenOnce`).

## Model

| member | source | states |
|---|---|---|
| Payout.ContractPayoutAgreesIff | contracts/Settlement.sol:219-232 | the checked 256-bit formula gives the service's number exactly when no product wraps, or both do; otherwise it panics or differs |
| Payout.WrappedDifference | contracts/Settlement.sol:229-231 | the subtraction of two cast words is the true difference exactly when neither or both are 2^255 or more |
| Payout.PenaltyCanWrapIntoReward | contracts/Settlement.sol:229-231 | concrete input where a site that delivered nothing is paid 2^255 - 1 |
| Payout.BoundedRatesAgree | contracts/Settlement.sol:146-168 | with both products below 2^255 the contract neither panics nor wraps and computes calculate_payout |
| Payout.PayoutRange | services/scorer.py:6-22 | a payout lies between minus the full penalty and the full reward of its share |
| Payout.PayoutEnds | services/scorer.py:6-22 | nothing delivered costs share times penalty rate, the share or more earns share times reward rate |
| Payout.EachUnitCounts | services/scorer.py:6-22 | below the share each further kilowatt hour is worth the reward rate and the penalty rate together |
| Payout.ContractPanicsIff | contracts/Settlement.sol:219-232 | the contract panics exactly on a product beyond the word or a difference of the cast words beyond theirs |
| Payout.SettlementTotals | contracts/Settlement.sol:146-180 | for n distinct sites, all payouts and the positive payouts together stay within what the event promised, despite floor division |
| TimeOrder.WindowTestsAgree | services/submitter.py:540-545 | comparing the formatted strings decides exactly start < end in Unix seconds, for all four-digit years |
| TimeOrder.ParseInvertsText | scripts/fuji_chain_action.js:43-49 | reading a formatted timestamp back gives its Unix second |
| TimeOrder.SecondOrder | services/submitter.py:1311-1316 | Unix seconds order instants by date and then time of day |
| TimeOrder.NextDayIsADayLater | scripts/fuji_chain_action.js:43-49 | the same clock on the next calendar day is 86400 seconds later, over month ends, leap days and new years |
| TimeOrder.ClockDifference | scripts/fuji_chain_action.js:43-49 | within a day an hour counts 3600 seconds and a minute 60 |
| TimeOrder.EpochTime | scripts/fuji_chain_action.js:43-49 | seconds count from the first of January 1970 |
| TimeOrder.TextOrder | services/submitter.py:1311-1316 | the formatted text orders instants by date and then time of day |
| Tokens.TransferConserves | contracts/Settlement.sol:199-202 | a transfer moves exactly the amount between two accounts and keeps all others and the supply |
| Tokens.MintConserves | contracts/DRTokenRemote.sol:41-43 | a mint credits one account and the supply alike |
| Tokens.BurnConserves | contracts/DRTokenRemote.sol:45-47 | a burn succeeds exactly for a sufficient balance and debits account and supply alike |
| Tokens.ApprovalMovesNothing | test/DRTBridge.test.ts:105-113 | an approval sets exactly one allowance and moves no balance |
| Tokens.TransferFromConserves | contracts/DRTBridge.sol:126 | a delegated transfer needs the allowance, spends it unless it is infinite, moves like a transfer, and changes no other allowance |
| Tokens.RefusedIff | contracts/Settlement.sol:199-202 | transfers, approvals and mints go through exactly without a zero account, a short balance or allowance, or an overflow; which of these gives which error |
| Tokens.DRToken.constructor | contracts/DRToken.sol:10-17 | the whole supply is minted to the owner at deployment |
| Tokens.DRTokenRemote.SetBridge | contracts/DRTokenRemote.sol:34-39 | only the owner changes the bridge, and not to zero |
| Tokens.DRTokenRemote.MintRemote | contracts/DRTokenRemote.sol:41-43 | only the bridge mints |
| Tokens.DRTokenRemote.BurnRemote | contracts/DRTokenRemote.sol:45-47 | only the bridge burns |
| Tokens.Erc20.TransferTokens | contracts/Settlement.sol:199-202 | the in-place ledger update is the functional transfer, or reverts |
| Contracts.SettleSitesAdds | contracts/Settlement.sol:148-180 | a settlement loop that goes through had a repeat-free list and added exactly one due record per site at the common share |
| Contracts.SettleSitesSucceedsIff | contracts/Settlement.sol:148-180 | on payable sites the loop succeeds exactly for repeat-free lists without earlier records, and fails only with "Already settled" |
| Contracts.DuplicateSitesRejected | contracts/Settlement.sol:154-157 | for an event without records the per-site check fails exactly when an id repeats |
| ContractObjects.EventManager.Create | contracts/EventManager.sol:65-88 | only the operator creates, once per id, with start before end; a revert changes nothing |
| ContractObjects.EventManager.Close | contracts/EventManager.sol:90-96 | only the operator closes an active event |
| ContractObjects.EventManager.MarkEventSettled | contracts/EventManager.sol:98-104 | the Settlement contract or the operator settles a closed event |
| ContractObjects.EventManager.SetSettlementContract | contracts/EventManager.sol:56-63 | only the operator sets a non-zero Settlement address |
| ContractObjects.ProofRegistry.Submit | contracts/ProofRegistry.sol:56-98 | one proof per site of an active event, with the reduction clamped at zero |
| ContractObjects.Settlement.SettleSiteList | contracts/Settlement.sol:129-183 | the storage loop equals the settlement machine: all records and the settled mark, or nothing |
| ContractObjects.Settlement.Claim | contracts/Settlement.sol:185-205 | a due record is claimed once by its proof's submitter, whose balance grows by exactly the positive payout; a failed transfer undoes all |
| ChainRuns.RunKeepsInv | contracts/Settlement.sol:129-205 | in every reachable state records belong to settled events and proved sites, replay from stored data, and the token is sound with a constant supply |
| ChainRuns.ReplayInServiceTerms | contracts/Settlement.sol:146-168 | under the product bounds a record's payout is the service formula over the stored proof, rates and target divided by the number of records |
| ChainRuns.StoredAsSent | contracts/ProofRegistry.sol:64-98 | over every run from deployment stored events and proofs are what accepted calls sent, with sender, time and clamped reduction |
| ChainRuns.StepRights | contracts/EventManager.sol:65-104 | every transaction moves only what its sender has the right to move: events and their phases, proofs of active events, claims of own proofs, grants |
| ChainRuns.ClosedHasNoRecords | contracts/Settlement.sol:137-144 | an event that is not settled has no records |
| ChainRuns.SiteAlreadySettledMeansRepeat | contracts/Settlement.sol:129-157 | in every reachable state "Already settled" means a repeated id, for any caller and list; with an authorised caller, a closed event and payable sites a settlement succeeds exactly on repeat-free lists |
| ChainRuns.SettledBareIffMarked | contracts/EventManager.sol:98-104 | over runs from deployment an event is settled without records exactly when a markEventSettled of it was accepted, and with records exactly when a settleEvent was |
| ChainRuns.OperatorCanSkipSettlement | contracts/EventManager.sol:98-104 | create, close and mark by the operator is a run that ends settled without records |
| ChainRuns.GrantedSettlesAsOperator | contracts/Settlement.sol:95-127 | after any run an account settles as the settlement operator does exactly when the last accepted setAuthorizedService for it allowed it; others are refused, and only that operator grants |
| ChainRuns.RecordIsServiceNumberIff | contracts/Settlement.sol:159-232 | in every reachable state a record is the service's number exactly when the products of its formula wrap alike |
| ChainRuns.WrappedPenaltyIsPaid | contracts/Settlement.sol:129-231 | a run from deployment in which a site that delivered nothing is recorded and paid 2^255 - 1 |
| ChainRuns.RunEvolves | contracts/ProofRegistry.sol:64-89 | over any run parameters never change, proofs freeze at closing, records freeze at settling, and a claimed record is final |
| ChainRuns.FreshSatisfiesInv | contracts/DRToken.sol:10-17 | deployment satisfies the invariant |
| Ledger.LedgerBalances | contracts/Settlement.sol:185-205 | over any run the Settlement account holds its start plus deposits minus the positive payouts of claimed records |
| Ledger.ClaimPaysSubmitter | contracts/Settlement.sol:185-205 | an accepted claim raises its sender's balance by exactly the positive payout, takes it from the Settlement account, and touches no third account; the sender submitted the proof |
| Ledger.ReceivedIsPaidTo | contracts/Settlement.sol:185-205 | over any run what claims added to an account's balance is the sum of positive payouts of the claimed records whose proof it submitted |
| Ledger.EveryClaimReachesItsSubmitter | contracts/Settlement.sol:198-202 | from deployment that is all it has received from claims |
| Ledger.ClaimPaysOnce | contracts/Settlement.sol:185-205 | a claim moves its payout from the account to the paid total, or changes neither |
| Ledger.PayoutsUnderBudget | contracts/Settlement.sol:146-180 | all positive payouts together stay below the sum of target times reward rate over settled events |
| Ledger.CoveredClaimSucceeds | contracts/Settlement.sol:198-202 | when funds and paid claims cover the budgets, any due claim by its submitter succeeds and leaves the account covered |
| Ledger.CoveredClaimsSucceedInAnyOrder | contracts/Settlement.sol:185-205 | any set of due claims then succeeds in any order |
| Ledger.DepositsCoverEveryClaim | contracts/Settlement.sol:185-205 | from deployment, deposits covering the budgets are enough for every claim |
| Bridge.SendNamesWhoPaid | contracts/DRTBridge.sol:121-139 | an accepted send takes exactly the amount from its caller, whom the message names, and addresses it to the configured chain and bridge under the next nonce; nobody else's balance moves |
| Bridge.ReceivePaysRecipient | contracts/DRTBridge.sol:147-167 | an accepted receive, by the relayer only, gives exactly the amount to the named recipient |
| Bridge.AdministerIff | contracts/DRTBridge.sol:95-112 | only the operator administers, names no zero account, and changes nothing but what it names |
| Bridge.DRTBridge.SendTokens | contracts/DRTBridge.sol:121-139 | locks at home or burns remotely, counts nonce and total, and emits the message with caller, amount, nonce and destination; or reverts with nothing changed |
| Bridge.DRTBridge.ReceiveTokens | contracts/DRTBridge.sol:147-167 | only the relayer unlocks or mints, for a non-zero amount and recipient, while not paused |
| BridgePeg.RunKeepsPeg | contracts/DRTBridge.sol:121-167 | in every reachable two-chain state the locked DRT is outside deposits plus DRT.r supply plus both in-flight sums plus unlocks to the bridge itself |
| BridgePeg.StartSatisfiesInv | contracts/DRToken.sol:10-17 | deployment satisfies the peg |
| BridgePeg.UnlockAlwaysFunded | contracts/DRTBridge.sol:156-157 | an unlock for an undelivered burn never lacks balance |
| BridgePeg.MintAlwaysFits | contracts/DRTBridge.sol:158-164 | a mint for an undelivered lock never overflows the remote supply, which stays within the DRT supply |
| BridgePeg.MessagesNameTheirPayers | contracts/DRTBridge.sol:121-139 | over any run every message under way was there before, or names the account whose tokens its send took, under its own nonce |
| BridgePeg.NonceIsNew | contracts/DRTBridge.sol:135-138 | a message's nonce is above those of all earlier messages of its bridge, delivered or not |
| BridgePeg.RoundTripRestores | test/DRTBridge.test.ts:225-248 | lock, mint, burn and unlock of one amount, each message delivered to the account that it names, restore every balance on both chains and both message bags |
| BridgePeg.PausedNetIsFrozen | contracts/DRTBridge.sol:72-105 | while no operator unpauses either bridge, no run changes the messages under way or the DRT.r supply, and only outside deposits reach the home bridge |
| ChainReplies.StateIsWhatIsSaid | services/submitter.py:1361-1365 | a state is read as confirmed or failed exactly where the text is that word, in any case and between blanks, and otherwise as submitted |
| ChainReplies.ReadTxSays | services/submitter.py:127-166 | a live chain step raises, or lacks a hash, or records under the reply's hash the state its text says, its fee, its times where it gives them, and its error |
| ChainReplies.ReadTxShape | services/submitter.py:127-166 | an accepted chain reply has a hash, and a confirmation time exactly when confirmed; off a live chain it is confirmed under the given hash |
| ChainReplies.ReadCheckSays | services/submitter.py:177-191 | a live look-up gives nothing only when it raises, and else the state its text says with the reply's fee, time and error |
| ChainReplies.ReadCheckShape | services/submitter.py:168-191 | a look-up raises only when a live action raises, and says when exactly for confirmed transactions; off a live chain all are |
| Submitter.DedupSameIds | services/submitter.py:828-830 | the service's list of sites has the request's ids without repeats |
| Submitter.DedupOrderStable | services/submitter.py:828-830 | and keeps the order of first occurrence |
| Submitter.SettleListMembers | services/submitter.py:821-832 | an empty request settles exactly the proved sites, another request exactly its ids, each once |
| Submitter.SortedSitesAscend | services/submitter.py:821-827 | the proved sites are listed in ascending id order |
| Submitter.HashAcceptedIff | services/submitter.py:722-731 | a supplied proof hash is compared letter by letter without regard to case, an empty one not at all |
| Submitter.CreateRefusedIff | services/submitter.py:540-556 | creating is refused exactly for a window that does not end after it starts in whole seconds, and else for a known id |
| Submitter.ProofRefusedIff | services/submitter.py:479-537 | a proof is refused for an unknown or inactive event and, in hybrid mode, exactly for a failed or pending create transaction |
| Submitter.SettleRefusedIff | services/submitter.py:417-477 | a settlement goes through only for a closed event and, in hybrid mode, after its close transaction is confirmed; which state gives which error |
| Submitter.ClaimRefusedIff | services/submitter.py:975-1002 | a claim passes exactly for an unclaimed row, confirmed in hybrid mode, by its proof's submitter; which state gives which error |
| Submitter.SettleRowsOkIff | services/submitter.py:838-872 | the rows are refused exactly when a listed site lacks a proof or already has a record |
| Submitter.SettleRowsPriced | services/submitter.py:866-872 | each row pays its site the formula over the stored reduction and the common share |
| Submitter.InsertRowsAdds | services/submitter.py:900-939 | the inserts of distinct rows add exactly those rows and keep the others |
| Submitter.GuardedRowsInsert | services/submitter.py:838-939 | a settlement that passed its checks never meets an existing key, so its inserts never fail |
| Reconcile.PassFrame | services/submitter.py:226-347 | a pass changes no confirmed or failed transaction, no business column and no row of another event |
| Reconcile.PassShowsAnswers | services/submitter.py:193-224 | a pass writes exactly the visited waiting slots with a final answer: its state, fee and time where given, and error if failed |
| Reconcile.PassIdempotent | services/submitter.py:226-347 | a second pass over the same answers changes nothing |
| Reconcile.OneMoreSlot | services/submitter.py:193-224 | handling slots one by one is the same as updating all of them from one snapshot |
| Reconcile.SnapshotGrows | services/submitter.py:230-237 | answers cached later do not affect slots handled earlier |
| Reconcile.PassKeepsAgreement | services/submitter.py:226-347 | a pass that handles all rows of each hash keeps rows with one hash in agreement |
| Reconcile.PassesKeepBusiness | services/submitter.py:427-428 | a wait loop's passes change transaction columns only |
| DbRuns.RunKeepsDbInv | services/submitter.py:539-1072 | in every reachable database settled means having rows, each payout replays from the stored proof and parameters, and hashes match payloads |
| DbRuns.AuditsMatchAfterEveryRun | services/submitter.py:1091-1123 | an audit always finds the stored hash equal to the recomputed one, and reductions are clamped |
| DbRuns.AlreadySettledNeverFires | services/submitter.py:854-864 | the per-site ALREADY_SETTLED check never fires, and the settled list has no repeats |
| DbRuns.SettleCommitSettles | services/submitter.py:905-939 | a settlement writes exactly the listed rows at the common share and marks the event settled |
| DbRuns.RunGrows | services/submitter.py:539-1123 | over any run rows are never deleted and statuses and claims never step back |
| Origins.StoredAsRequested | services/submitter.py:539-1123 | after any run every column of events, proofs, settlement rows and audits is what a request of the run asked for under its clock, payloads included, and a row is claimed by its proof's submitter |
| SubmitterObject.SubmitterService.UpdateTxFields | services/submitter.py:193-224 | one answer updates one slot as the functional update does, and a submitted answer writes nothing |
| SubmitterObject.SubmitterService.CachedCheck | services/submitter.py:230-237 | each hash is looked up at most once per pass |
| SubmitterObject.SubmitterService.ReconcilePending | services/submitter.py:226-347 | a pass is the old tables with every visited slot updated from one snapshot; it visits all slots of the event or stops at a look-up that raised |
| SubmitterObject.SubmitterService.EnsureCreateConfirmed | services/submitter.py:479-537 | ends within ceil(timeout/poll) + 1 polls and returns normally only if the create transaction is confirmed (or has no hash) |
| SubmitterObject.SubmitterService.EnsureCloseConfirmed | services/submitter.py:417-477 | ends within ceil(timeout/poll) + 1 polls and returns normally only if the close transaction is confirmed |
| SubmitterObject.AnotherPollFits | services/submitter.py:463-477 | a poll that neither decided nor timed out leaves room for one more within the bound |
| SubmitterObject.PollsBounded | services/submitter.py:417-430 | unset, the settings allow nine polls; however set, at most five for each second and one more |
| SubmitterObject.SubmitterService.CreateEvent | services/submitter.py:539-610 | window and duplicate checks, then the chain step, then one new row; any failure writes nothing |
| SubmitterObject.SubmitterService.CloseEvent | services/submitter.py:628-705 | only an active event is closed, after its chain step; any failure writes nothing |
| SubmitterObject.SubmitterService.SubmitProof | services/submitter.py:707-798 | local checks, the wait, the hash check, the chain step, then one new row; a second row for the site is refused |
| SubmitterObject.SubmitterService.PriceSites | services/submitter.py:836-872 | the loop over sites gives the rows, or the error of the first site that cannot be settled |
| SubmitterObject.SubmitterService.WriteSettlement | services/submitter.py:900-953 | writes all rows and the settled status exactly when every key is new; otherwise rolls everything back |
| SubmitterObject.SubmitterService.SettleEvent | services/submitter.py:800-955 | succeeds exactly when all checks pass after the wait and the chain step returns, and writes the settlement; otherwise the precise error, with a late pass after a "must be closed" revert |
| SubmitterObject.SubmitterService.ClaimReward | services/submitter.py:957-1072 | after a pass, a settled unclaimed row is claimed by its proof's submitter; any failure writes nothing more |
| SubmitterObject.SubmitterService.GetAudit | services/submitter.py:1091-1123 | records the audit and compares the stored hash with the payload's, letter by letter in either case |
| ServiceRuns.CreateServes | services/submitter.py:539-610 | what create_event comes to is one turn of a run |
| ServiceRuns.CloseServes | services/submitter.py:628-705 | so is what close_event comes to |
| ServiceRuns.ProofServes | services/submitter.py:707-798 | what submit_proof comes to is its waiting passes and one turn |
| ServiceRuns.SettleServes | services/submitter.py:800-955 | what settle_event comes to is its passes, the late one included, and one turn |
| ServiceRuns.ClaimServes | services/submitter.py:957-1072 | what claim_reward comes to is its pass and one turn |
| ServiceRuns.AuditServes | services/submitter.py:1091-1123 | what get_audit comes to is one turn, and never more |
| ServiceRuns.ServedIsRun | services/submitter.py:539-1123 | passes and turn of any call are a run on the tables, in either mode |
| ServiceRuns.ServedIsHybridRun | services/submitter.py:539-1123 | with truthful look-ups and a new submitted reply they are a legal stretch of Reconcile and Serve actions of the hybrid world |
| ServiceRuns.HonestAnswersAreTruthful | services/submitter.py:168-191 | raw answers that are true about the chain, as the look-ups read them, are the answers the gating theorem asks for |
| ServiceRuns.RawAnswersKeepGates | services/submitter.py:127-347 | so from raw answers on a call leaves the tables of a legal stretch, and the gating invariant holds there |
| SyncSimulation.SyncRunsStayRelated | services/submitter.py:539-1072 | from empty tables and fresh contracts, whatever other accounts do, every sync run keeps events, payouts and claims equal and every proof row on the chain with its content |
| SyncSimulation.WritesNeedAcceptance | services/submitter.py:127-166 | tables and chain change together on an accepted call and not at all otherwise |
| SyncSimulation.CreateAcceptedIff | contracts/EventManager.sol:65-88 | a create that passes the local checks reverts only for numbers that do not fit the contract's words |
| SyncSimulation.CloseAccepted | contracts/EventManager.sol:90-96 | a close that passes the local checks never reverts |
| SyncSimulation.SettleAccepted | contracts/Settlement.sol:129-183 | a settlement that passes the local checks never reverts |
| SyncSimulation.ProofAcceptedIff | contracts/ProofRegistry.sol:56-98 | a proof that passes the local checks is accepted exactly when the chain has none for the site and its numbers fit |
| SyncSimulation.StrayIffForeign | contracts/ProofRegistry.sol:56-63 | after any run the chain has a proof that the tables lack exactly when another account posted it |
| SyncSimulation.FirstProofRevertsIff | services/submitter.py:733-781 | after any run from the start a site's first proof that passes its checks reverts exactly when another account posted one or a number does not fit |
| SyncSimulation.StrayProofBlocks | contracts/ProofRegistry.sol:64-70 | once another account has posted, the service's proof for the site reverts after any further run |
| SyncSimulation.AnyoneCanPost | contracts/ProofRegistry.sol:56-63 | on an active event any account can post a proof for a site that has none |
| SyncSimulation.ClaimAcceptedIff | contracts/Settlement.sol:185-205 | a claim that passes the local checks reverts only when the account cannot pay |
| HybridGating.RunKeepsInv | services/submitter.py:226-537 | the gating invariant holds under every interleaving of calls, passes as the service makes them, confirmations, failures and calls of any account, the operator's own included |
| HybridGating.StartSatisfiesInv | services/submitter.py:49-61 | the start satisfies the invariant |
| HybridGating.ConfirmedIsOnChain | services/submitter.py:168-191 | confirmed in the tables means confirmed on the chain, with the row's own content there |
| HybridGating.ProofRowGated | services/submitter.py:479-537 | a proof row implies its event's create transaction is confirmed with the row's parameters |
| HybridGating.SettlementRowGated | services/submitter.py:417-477 | a settlement row implies its event's close transaction is confirmed |
| HybridGating.SettledRowsOnChain | services/submitter.py:874-955 | once a row's settle transaction is confirmed the chain has records for exactly the event's rows |
| HybridGating.ClaimedRowGated | services/submitter.py:957-1002 | a claimed row implies its settle transaction is confirmed and its record is on the chain |
| DivergentPayouts.StandingPayoutsAgree | contracts/Settlement.sol:159-168 | with the settlement and the row's own proof confirmed on the chain the chain's payout is the row's |
| DivergentPayouts.PayoutsFromReadings | contracts/Settlement.sol:146-168 | once the settlement is on the chain, row and record are one formula over the two readings |
| DivergentPayouts.RunSources | contracts/ProofRegistry.sol:56-98 | every proof on the chain was put there by a confirmed transaction of the service or by another caller's accepted call in the run |
| DivergentPayouts.StrayReadingHasASource | services/submitter.py:733-781 | after any run from the start, a settled row whose own proof is not on the chain has its reading from another confirmed transaction of the service or another caller |
| DivergentPayouts.ReadingsDiverge | services/submitter.py:733-781 | for any two readings of each site, by a second proof call or another account's submitProof, a run from the start ends settled and confirmed with rows paying by the one and records by the other |
| DivergentPayouts.OneKwhDiverges | services/submitter.py:733-781 | in particular a delivered kilowatt hour that the row rewards and the chain does not |
| SyncLifecycle.LifecycleFinishes | services/submitter.py:539-1123 | in sync mode every call of a new event's lifecycle is accepted, for any sites, settlement request, order of claims and encodable numbers with enough funds, and exactly the claimed payouts move on the chain |
| SyncLifecycle.FundedStartIsReady | contracts/DRToken.sol:10-17 | fresh contracts and empty tables are such a start |
| Lifecycle.FinishedReadsCompleted | services/submitter.py:1183-1213 | with site-a claimed and audited the summary of a finished event reads completed at 100 percent, for every required list among its sites |
| Lifecycle.CallGoes | services/submitter.py:539-1072 | at every stage the next call passes its checks, is written, and is executed, with tables and chain at the next stage |
| Lifecycle.PaidWithinBudget | contracts/Settlement.sol:146-202 | any repeat-free list of settled sites costs at most what the event promised |
| HybridSteps.CallConfirms | services/submitter.py:226-347 | a call that is served, mined and reconciled ends confirmed in the tables and executed on the chain, with nothing of its event pending |
| HybridLifecycle.LifecycleFinishes | services/submitter.py:539-1123 | in hybrid mode a legal run of served, mined and reconciled calls takes a new event with any sites, request and order of claims to paid rewards and an audit |
| HybridLifecycle.FundedStartIsReady | contracts/DRToken.sol:10-17 | fresh contracts and empty tables are a start for it |
| SharedHashes.RunKeepsShared | services/submitter.py:874-939 | over any run of calls, and of passes as the service makes them, in either mode, rows with one hash agree and only final rows carry a fee |
| SharedHashes.HybridRunKeepsShared | services/submitter.py:226-347 | the same under every interleaving with the chain, with finished and cut passes |
| SharedHashes.FullPassClosed | services/submitter.py:241-344 | a finished pass handles all rows of each hash it meets |
| SharedHashes.CutPassClosed | services/submitter.py:314-344 | so does a pass cut short by a failed look-up, because claims follow confirmed settlements |
| SharedHashes.PassesKeepShared | services/submitter.py:427-477 | a whole wait loop keeps the tables' invariants |
| TxPipeline.CountRows | services/submitter.py:349-415 | the registering loop computes the order-free join per hash and its counts |
| TxPipeline.EventRows | services/submitter.py:372-405 | the walk over the event's row, its proofs and its settlements yields exactly the recorded transactions |
| TxPipeline.ServiceCounts | services/submitter.py:349-415 | the service's counts for an event are those of its recorded transactions in any order, and on reachable tables the page's too |
| TxPipeline.CollectTxPipeline | frontend/app.js:1648-1704 | the page takes the summary's counts if it has them and otherwise runs the same join on its own reading |
| TxPipeline.OrderDoesNotMatter | services/submitter.py:349-415 | the counts do not depend on row order or repetition |
| TxPipeline.CountsPartition | services/submitter.py:407-415 | submitted, confirmed and failed add up to the number of distinct non-empty hashes |
| TxPipeline.CountsMean | services/submitter.py:349-415 | a hash counts as failed if one of its rows is read so, as confirmed if all are, and as submitted otherwise |
| TxPipeline.ServiceReadsIff | services/submitter.py:349-371 | the service reads the trimmed word, and a row with a fee that is not failed as confirmed |
| TxPipeline.PageReadsIff | frontend/app.js:1639-1646 | the page reads the word itself, and what is none of the three words by its fee |
| TxPipeline.ReadingsDifferIff | frontend/app.js:1639-1646 | exactly which rows the service and the page read differently |
| TxPipeline.SameReadingSameCounts | frontend/app.js:1648-1704 | without such a row both count alike |
| TxPipeline.OneRowCountsDiffer | frontend/app.js:1648-1704 | each such row on its own is counted differently |
| TxPipeline.ReachableRowsCountAlike | services/submitter.py:349-415 | after every run from empty tables, in either mode, both count alike, each hash in the state all its rows show |
| TxPipeline.HybridRowsCountAlike | frontend/app.js:1648-1704 | and so they do under every interleaving with the chain |
| JudgeSummary.UiAgreesWithService | frontend/app.js:1711-1758 | a page that mirrors the tables derives the service's step, count, percentage and health |
| JudgeSummary.ProgressNeverDrops | services/submitter.py:1165-1213 | step rank, completed count and percentage never decrease over any run of service calls |
| JudgeSummary.FullProgressIffCompleted | services/submitter.py:1183-1213 | the percentage is 100 exactly in the last step |
| JudgeSummary.SummaryCounts | services/submitter.py:1183-1205 | the step is the first unfinished one, the count the number of finished ones, and the percentage 0, 17, 33, 50, 67, 83 or 100 |
| JudgeSummary.UiHealthIff | frontend/app.js:1711-1758 | the page shows an error exactly after a failed call, and otherwise nothing yet exactly without, and done exactly with all, of the six steps |
| JudgeSummary.ClosedTooEarlyNeverCompletes | services/submitter.py:1183-1195 | an event closed without a required proof stays at the proofs step for good |
| Completion.CompletableIff | services/submitter.py:1141-1195 | from any database that a run can keep some run of calls completes the event exactly when its proofs, settlement and claim can still come |
| Completion.UngatedCanComplete | services/submitter.py:1141-1195 | where nothing is waited for: exactly when it is active, or has the required proofs and site-a's and, once settled, a row for site-a |
| Completion.WhenCompletable | services/submitter.py:539-1123 | the calls that do it, with passes as the service makes them |
| Completion.OnlyThenCompleted | services/submitter.py:1183-1195 | no run completes an event otherwise |
| JudgeSummary.GreatestTextIsLatest | services/submitter.py:1236-1246 | the greatest timestamp string is the latest transition |
| RunDriver.RunDriver.RunFullFlow | frontend/app.js:3389-3468 | the run performs each step once and in order, with 110, 30 or 50 kWh recorded for its sites, and finishes exactly when site-a and the audited site are required and n + 6 + deferrals is at most 18 |
| RunDriver.DerivedStep | frontend/app.js:1711-1758 | after k steps of the run the page derives exactly the next one |
| RunDriver.NextMissing | frontend/app.js:3403-3425 | the first required site without a proof is the next one in order of first occurrence |
| RunDriver.RunDriver.ClaimSiteA | frontend/app.js:3319-3344 | the claim is refused exactly when site-a has no settlement row |
| RunDriver.RunDriver.GetAudit | frontend/app.js:3373-3387 | the audit is refused exactly when the audited site has no proof |
| TaskQueue.RunKeepsSound | services/task_queue.py:74-119 | in every reachable state each pending task's id is in the deque and retries stay within the limit |
| TaskQueue.DequeueServesPending | services/task_queue.py:86-93 | nothing is returned exactly when nothing is pending; otherwise one pending task starts running and the pending count drops by one |
| TaskQueue.DequeueTakesEarliest | services/task_queue.py:86-93 | the task served is the pending one with the earliest entry, stale and repeated entries being skipped |
| TaskQueue.ServedAtMostOncePerTry | services/task_queue.py:86-119 | over any run a task is handed out at most 1 + retries times, and retries stay within the limit |
| TaskQueue.TaskShowsLastEffect | services/task_queue.py:74-119 | after every run a task shows the last operation that took effect on it: completed with its result, failed with its error, running since served, pending after its enqueue or a retry; with its own kind and payload and the count of accepted retries |
| TaskQueue.InMemoryTaskQueue.EnqueueTask | services/task_queue.py:74-84 | a new pending task enters the table and the back of the deque |
| TaskQueue.InMemoryTaskQueue.DequeueTask | services/task_queue.py:86-93 | the popping loop over task objects is the functional dequeue |
| TaskQueue.InMemoryTaskQueue.CompleteTask | services/task_queue.py:95-101 | leaves one task completed with the given result, or reports it missing |
| TaskQueue.InMemoryTaskQueue.FailTask | services/task_queue.py:103-107 | leaves one task failed with the given error, or reports it missing |
| TaskQueue.InMemoryTaskQueue.RetryTask | services/task_queue.py:109-119 | requeues a task within its retry limit, pending without an error and counted |
| TaskQueue.InMemoryTaskQueue.PendingCount | services/task_queue.py:124-127 | counts the pending tasks |
| LoadSpikes.FewerThanHalfFlagged | services/agent.py:359-394 | of n >= 3 proofs at most n - (n/2 + 1) are flagged, also through the zero-deviation fallback |
| LoadSpikes.MiddleIsMedian | services/agent.py:370-373 | the centre is one of the readings, with more than half at most it and at least half at least it; MedianIsUnique says there is no other |
| LoadSpikes.StatisticsFit | services/agent.py:370-377 | the spread is the median of the distances from it, or when that is zero a tenth of the median, at least one |
| LoadSpikes.StatisticsAreUnique | services/agent.py:370-377 | these properties determine centre and spread |
| LoadSpikes.SpikesReportOutliers | services/agent.py:379-394 | exactly the readings farther than three such spreads from the centre are reported, in order, with site, reading and distance, critically beyond five |
| LoadSpikes.BoundIsReached | services/agent.py:359-394 | for every n >= 3 some input reaches that bound |
| LoadSpikes.SpikesPermute | services/agent.py:359-394 | the flagged sites, readings and scores do not depend on the order of the proofs |
| LoadSpikes.SpikeIff | services/agent.py:378-381 | a reading is flagged beyond three spreads from the median, critical beyond five, and scores its distance in spreads |
| LoadSpikes.MismatchIff | services/agent.py:396-416 | a mismatch is a use above a positive baseline |
| LoadSpikes.DriftIff | services/agent.py:418-444 | a baseline drifts beyond three tenths of a positive expectation, critically from a half on |
| LoadSpikes.OthersListed | services/agent.py:396-444 | every mismatch among two proofs or more and every drift is reported, in order, and nothing else |
| LoadSpikes.SortSorts | services/agent.py:370-373 | the sort is ascending and a permutation |
| LoadSpikes.VerdictPermutes | services/agent.py:224-249 | the severity of the reported anomaly does not depend on the order of the proofs |
| LoadSpikes.AgentProvider.DetectLoadSpikes | services/agent.py:359-394 | the loops report exactly the outliers by the sample's own median and spread |
| LoadSpikes.AgentProvider.DetectAnomaly | services/agent.py:224-249 | returns the first report of greatest severity, and counts an anomaly exactly when there is one |
| Tracking.RunAdvances | services/api.py:364-725 | over any endpoint calls of either service ranks never decrease, final statuses stay, bodies and keys never change, and a recorded source hash is never rewritten |
| Tracking.SourceWrittenOnce | services/api.py:400-451 | a row's source hash is written at most once over any run, and is on record exactly when a call of the run wrote it |
| Tracking.RankIsReached | services/api.py:400-725 | for either service a row's rank is the highest that accepted calls of the run named |
| Tracking.CreateReplays | services/api.py:364-391 | repeating a create with its key returns the same row after any calls, and another body is refused |
| BridgeTracking.BridgeIsSound | services/api.py:400-546 | no bridge endpoint pushes a transfer back, or a source hash onto one that has left the first status |
| BridgeTracking.TransfersAdvance | services/api.py:364-546 | so transfers only advance over any run, and at most one send is recorded |
| BridgeTracking.WritesSourceIff | services/api.py:400-451 | a call writes a source hash exactly when it marks, or sends with a usable answer, a transfer not yet sent |
| BridgeTracking.StatusIsReached | services/api.py:400-546 | over any run a transfer has reached a status exactly when it had, or an accepted call named it or a later one |
| BridgeTracking.RefusedIff | services/api.py:400-546 | a call about a transfer is refused exactly for another hash than the recorded one, or for a chain action without a usable answer where one is taken |
| BridgeTracking.DestHashReplacedIff | services/api.py:496-528 | a recorded destination hash changes exactly on receiving again while dest-submitted |
| BridgeTracking.BridgeService.CreateTransfer | services/bridge.py:82-101 | inserts an initiated row under its key, or answers from the row of the same key with the same body; nothing recorded changes |
| BridgeTracking.BridgeService.SourceSubmittedCall | services/api.py:400-423 | the endpoint's guards and answer; the table only advances, an unsent row gets the given source hash, destination hashes stay |
| BridgeTracking.BridgeService.SendTokensCall | services/api.py:425-451 | the table only advances; the source hash changes exactly for an unsent row and a usable answer, destination hashes stay |
| BridgeTracking.BridgeService.SourceConfirmedCall | services/api.py:453-469 | an accepted call leaves the row at least source-confirmed; no hash changes and nothing steps back |
| BridgeTracking.BridgeService.DestSubmittedCall | services/api.py:471-494 | the table only advances; a row before dest-submitted gets the given destination hash, source hashes stay |
| BridgeTracking.BridgeService.ReceiveTokensCall | services/api.py:496-528 | the table only advances; the destination hash changes exactly between source-confirmed and completion on a usable answer, source hashes stay |
| BridgeTracking.BridgeService.CompletedCall | services/api.py:530-546 | an accepted call leaves the row completed; no hash changes |
| IcmTracking.IcmIsSound | services/api.py:599-725 | no message endpoint pushes a message back or out of processed or failed |
| IcmTracking.MessagesAdvance | services/api.py:559-725 | so messages only advance over any run, and a source hash is written at most once |
| IcmTracking.StatusIsReached | services/api.py:599-725 | over any run a message has reached a status exactly when it had, or an accepted call named it or a later one |
| IcmTracking.RefusedIff | services/api.py:599-725 | a call about a message is refused exactly for another hash than the recorded one, across the final statuses, or without a usable answer where one is taken |
| IcmTracking.DestHashReplacedIff | services/api.py:682-702 | a recorded destination hash changes exactly on relaying a delivered message again |
| IcmTracking.ICMService.CreateMessage | services/icm.py:98-121 | inserts a pending row under its key, or answers from the row of the same key with the same body; nothing recorded changes |
| IcmTracking.ICMService.SentCall | services/api.py:599-621 | the endpoint's guards and answer; the table only advances, a pending row gets the given source hash, destination hashes stay |
| IcmTracking.ICMService.DeliveredCall | services/api.py:623-645 | the table only advances; a row before delivered gets the given destination hash, source hashes stay |
| IcmTracking.ICMService.ProcessedCall | services/api.py:647-662 | an accepted call leaves the row processed, never from failed; no hash changes |
| IcmTracking.ICMService.FailedCall | services/api.py:664-680 | an accepted call leaves the row failed with an error, never from processed; no hash changes |
| IcmTracking.ICMService.RelayCall | services/api.py:682-702 | the table only advances; the destination hash changes exactly for a message that is not final and a usable answer, source hashes stay |
| IcmTracking.ICMService.ProcessOnchainCall | services/api.py:704-725 | an accepted call leaves the row processed or, as it was, failed; no hash changes |

## Left out

* The node processes behind chain actions: RPC, ABI loading, fees and nonce retries. Only the shapes of their answers are
  modelled (`ChainReplies.RawReply`). An action that raises after its transaction was sent is not modelled: a raise
  leaves the chain as it was.
* The OpenZeppelin ERC-20 sources that the token contracts inherit: their transfer, allowance, mint and burn rules are
  written out in `Tokens`.
* SQLite itself: integers beyond 64 bits, driver errors other than an existing key, schema migration and backfill.
* Canonical JSON and keccak: the proof hash is an arbitrary function of the payload (`Submitter.Hasher`), and the raw
  payload is text. Lower-casing and trimming cover ASCII letters and blanks.
* Several clock readings inside one call are one reading, and the seconds of a wait are exact reals.
* Reconciliation without an event filter, which no caller uses, and the read-only calls get_event and list_settlements,
  which are a pass followed by a query.
* The summary's texts, totals and hints; insight templates, confidence and the baseline engine; routing, authentication
  and validation; rendering and translation in the page.
* The page's own wait for pending confirmations (waitForPendingConfirmationsBefore), which off a live chain returns at
  once. `RunDriver` models a put-off pass as an arbitrary pending answer; the service beneath it runs in simulated mode.
* ICMRelayer.sol and the bridge's relayer as programs: the relayer is an assumption about which messages are delivered.
* Task objects handed out by the queue are changed only through the queue.
* In hybrid mode a chain step that answers confirmed at once; `ServiceRuns.ServedIsHybridRun` and the hybrid runs take it
  as submitted and confirmed later.
* In `ServiceRuns` a call's own passes see one standing of the chain; what is confirmed between two passes of a wait is
  covered by the hybrid runs, where passes are actions of their own.
* In sync mode direct contract calls from the service's own wallet; a markEventSettled from it is the finding about
  settled events above.
* In the outlier detector numbers are exact reals, so rounding of scores is not modelled; report texts are left out.
* Progress after a failed close or settlement: the service has no retry path for it, and `Completion.CompletableIff`
  says that such an event stays incomplete.
- SubmitterObject.SubmitterService.EnsureCreateConfirmed: a create row without a hash also passes the wait, as in the
  code; no row written by the service lacks a hash.
