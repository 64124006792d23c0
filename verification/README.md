# Creator First governance, funding and credentials

This project models four parts of the Creator First testnet and proves what they promise over every run.

- **Verifiable sortition** draws the members of two Houses from an eligibility snapshot with a
  partial Fisher-Yates shuffle. The contract keeps the shuffled array lazily in a sparse mapping and anybody may
  advance it one rank at a time. `FisherYates` is the textbook shuffle on a dense array,
  `SparseShuffle` relates the stored cells to it, `SortitionRules` states the contract on draws alone,
  `SortitionInvariants` proves what every call keeps, and `Sortition` is the contract with its mappings;
  `SortitionExamples` runs it to any list one may wish for.
- **The bicameral quadratic governor** takes replaceable ballots that cost the square of their
  intensity from one budget per member and session, keeps a tally per House, and moves a proposal from
  review and deliberation through voting, finalization, test evidence, review, queue and timelock to
  execution. `GovernorRules` states it by recounting ballots from scratch, `Recounts` says how recounts move and
  bounds influence, `GovernorInvariants` and `GovernorHistory` prove what calls keep and never undo, and
  `Governor` is the contract with its incremental counters.
- `System` composes both contracts: any interleaving of calls, with `executeProposal` split at its
  external call, so that the target may re-enter with any calls before it returns or fails.
- **Participant funding** spans the distributor (`DistributorRules` over one log of transfers, `Distributor` with its
  totals), the registry (`RegistryRules`, `Registry`), the gateway's rows (`EnrollmentStore`) and the operator
  that keeps them in step. `Enrollment` is that operator as a state machine with a step per `await`, lost answers, late
  transactions, crashes and wallets that move meanwhile; `EnrollmentInvariants`, `EnrollmentRuns` and
  `EnrollmentProgress` prove its safety and when it succeeds, `EnrollmentRecords` what its rows' hashes are worth,
  and `EnrollmentExamples` runs it into two surprises; `EnrollmentOperator` is its body run against the stored objects.
- **The supporter token** (`SupporterRules`, `SupporterSbt`) and the **invitation resend limiter**
  (`ResendLimiter`, `Invitations`).

In each contract a function over values says what a call does, a class with the contract's mappings is
proved to do exactly that call by call, and lemmas about the function say what follows over all runs. `Valid` of a
class holds what those lemmas keep as well, so every method of `Governor` and `Sortition` starts and ends with the
whole lifecycle in order. What a call needs and what it changes is stated a second time, independently of those
functions: as one equivalence and one effect per call in the contracts' own fields and plain numbers
(`GovernorEffects`, `SortitionEffects`, `FundingEffects`, `SupporterEffects`). A revert leaves the state unchanged. Time is a nondecreasing parameter. Fields the contracts do not store but the statements need (when
something happened, which calls were executed) are marked as history.

Six findings differ from what documentation or names suggest.

- `docs/adr/ADR-0020-wallet-agnostic-participant-invitations.md:46` limits resends to three within 24 hours. The code
  limits each fixed window, so up to five fit into 24 hours (`FiveADayIsReached`), never six (`FiveADay`), and
  `WhenThreeInAnyDayIsKept` says exactly when the stronger limit holds.
- The `availableAt` reported for a used-up window can be up to ten minutes early (`ReportedTimeCanBeTooEarly`, and
  exactly when: `ReportedTimeIsEarliest`).
- A positive `previewTopUp` does not mean that `topUp` succeeds (`PositivePreviewIsNoPromise`, and exactly when:
  `WhenTopUpSucceeds`).
- Neither `finalizeProposal` nor `executeProposal` checks the pre-vote review or the deliberations: that an executed
  proposal had them follows only because quorums are at least one (`ExecutedProposalEarnedIt`).
- The recorded initial amount is a difference of two balance reads. A retry after a lost receipt records zero although
  the distributor paid (`LostReceiptRecordsZero`), and any other movement of the wallet between the reads is recorded too
  (`WhenRecordedAmountIsPaid` says exactly when the recorded amount is right).
- The operator records a foreign approval of its participant id as APPROVED before it compares wallets
  (`ForeignApprovalIsReached`, and exactly when: `WhenApprovalIsForeign`); the row can then never become FUNDED
  (`ForeignApprovalStrands`).

## Model

| member | source | states |
|---|---|---|
| `FisherYates.PositionInverts` | contracts/governance/CreatorFirstVerifiableSortition.sol:243-255 | after any draws the array is a permutation, with an explicit inverse |
| `FisherYates.SelectionIsDistinct` | contracts/governance/CreatorFirstVerifiableSortition.sol:252-254 | selected indices are distinct and below the population |
| `FisherYates.SelectionPrefix` | contracts/governance/CreatorFirstVerifiableSortition.sol:252-255 | later draws never change earlier ranks |
| `FisherYates.SelectionTraces` | contracts/governance/CreatorFirstVerifiableSortition.sol:250-255 | the candidate at each rank is who stood at its drawn position, found by following the draws back |
| `FisherYates.DrawsRecovered` | contracts/governance/CreatorFirstVerifiableSortition.sol:243-255 | the position vector can be recovered from the selection |
| `FisherYates.DrawingIsBijective` | contracts/governance/CreatorFirstVerifiableSortition.sol:243-255 | every ordered selection comes from exactly one position vector, so uniform positions select uniformly |
| `SparseShuffle.CellsDecode` | contracts/governance/CreatorFirstVerifiableSortition.sol:330-333 | a decoded cell is the dense array's entry and leaves room for the plus-one encoding |
| `SparseShuffle.DrawRepresented` | contracts/governance/CreatorFirstVerifiableSortition.sol:251-255 | two sparse writes and one table entry do what the dense swap does |
| `SortitionRules.RankingPrefix` | contracts/governance/CreatorFirstVerifiableSortition.sol:248-250 | the ranking for fewer ranks is a prefix of the ranking for more |
| `SortitionInvariants.ApplyKeeps` | contracts/governance/CreatorFirstVerifiableSortition.sol:131-320 | every accepted call keeps rounds on their timeline, lists equal to their ranking, limits in bounds, seats earned and distinct |
| `SortitionInvariants.ApplyMovesOn` | contracts/governance/CreatorFirstVerifiableSortition.sol:131-320 | configurations, randomness, drawn ranks and seats are never rewritten |
| `SortitionInvariants.WorldMovesOn` | contracts/governance/CreatorFirstVerifiableSortition.sol:153-158 | governor activity and time never invalidate a round, list or seat |
| `SortitionInvariants.ListIsRanking` | contracts/governance/CreatorFirstVerifiableSortition.sol:234-257 | a House's list is the ranking of its random word, session, house and population |
| `SortitionInvariants.HouseNeverOverfull` | contracts/governance/CreatorFirstVerifiableSortition.sol:278-279 | seats taken are at most the active limit, at most primary plus alternate seats, at most the population |
| `SortitionInvariants.OneSeatPerPerson` | contracts/governance/CreatorFirstVerifiableSortition.sol:282-293 | two seats of a session differ in identity and wallet, and within a House in candidate |
| `SortitionEffects.WhenRoundOpens` | contracts/governance/CreatorFirstVerifiableSortition.sol:131-190 | exactly when a round opens, each House with its own configuration |
| `SortitionEffects.WhenRandomnessArrives` | contracts/governance/CreatorFirstVerifiableSortition.sol:218-232 | exactly when randomness is taken, and that the stored word is the delivered one |
| `SortitionEffects.WhenRankIsDrawn` | contracts/governance/CreatorFirstVerifiableSortition.sol:234-257 | exactly when a rank can be drawn; its position is the rank plus keccak(word, session, house, rank) modulo the candidates left |
| `SortitionEffects.WhenSeatIsClaimed` | contracts/governance/CreatorFirstVerifiableSortition.sol:259-302 | exactly who gets a seat, and that house 1 makes a Creator member and house 2 a User member |
| `SortitionEffects.WhenAlternateIsActivated` | contracts/governance/CreatorFirstVerifiableSortition.sol:304-320 | exactly when the next rank is activated, and that only that limit rises by one |
| `Sortition.Sortition.GovernorMovedOn` | contracts/governance/CreatorFirstVerifiableSortition.sol:153-158 | the contract stays in order whatever others call the governor for between its own calls |
| `Sortition.Sortition.CreateRound` | contracts/governance/CreatorFirstVerifiableSortition.sol:131-190 | commits both House configurations or reverts with the first failing check |
| `Sortition.Sortition.FulfillRandomness` | contracts/governance/CreatorFirstVerifiableSortition.sol:218-232 | sets the random word once, between close and claim deadline |
| `Sortition.Sortition.FinalizeNextSelection` | contracts/governance/CreatorFirstVerifiableSortition.sol:234-257 | in uint32 arithmetic appends to the dense list exactly its next entry and returns it |
| `Sortition.Sortition.ClaimSeat` | contracts/governance/CreatorFirstVerifiableSortition.sol:259-302 | seats the caller and registers the member, or changes neither contract |
| `Sortition.Sortition.ActivateNextAlternate` | contracts/governance/CreatorFirstVerifiableSortition.sol:304-320 | raises the limit by one only after the deadline and only onto a drawn rank |
| `Recounts.ScoreAfterVote` | contracts/testnet/CreatorFirstBicameralGovernor.sol:514-520 | a vote moves only the voter's House, by new minus old intensity |
| `Recounts.SpentAfterVote` | contracts/testnet/CreatorFirstBicameralGovernor.sol:509-510 | a vote moves only the voter's ledger, by new minus old cost |
| `Recounts.ScoreBound` | contracts/testnet/CreatorFirstBicameralGovernor.sol:514-520 | a score is at most nine times its participants, so int64 cannot overflow |
| `Recounts.ScoreSquaredBound` | contracts/testnet/CreatorFirstBicameralGovernor.sol:506-520 | on one proposal a squared score is at most participants times total cost |
| `Recounts.SessionInfluenceBound` | contracts/testnet/CreatorFirstBicameralGovernor.sol:506-525 | over a session the squared scores of a House add up to at most distinct voters squared times budget |
| `GovernorInvariants.WhenVoteCounts` | contracts/testnet/CreatorFirstBicameralGovernor.sol:484-525 | exactly which ballots are accepted: open, in time, deliberated, member, within budget |
| `GovernorEffects.WhenBallotIsStored` | contracts/testnet/CreatorFirstBicameralGovernor.sol:484-525 | an accepted ballot is stored under its member with its square as cost, and nothing else of the rules' state moves |
| `GovernorEffects.WhenCfpVoteCounts` | contracts/testnet/CreatorFirstBicameralGovernor.sol:443-446 | a vote on a CFP proposal counts exactly if the proposal is bound to a CFP and the ballot counts |
| `GovernorEffects.WhenSignedVoteCounts` | contracts/testnet/CreatorFirstBicameralGovernor.sol:450-482 | a relayed ballot counts exactly if its member signed it, in time, with the stored nonce, for its session and House, on a CFP proposal, and it counts; it is stored as that member's and spends the nonce |
| `GovernorEffects.WhenSessionOpens` | contracts/testnet/CreatorFirstBicameralGovernor.sol:276-307 | exactly when a session opens, with what was handed in |
| `GovernorEffects.WhenMemberJoins` | contracts/testnet/CreatorFirstBicameralGovernor.sol:309-318 | exactly when a member joins, and in the House that was named |
| `GovernorEffects.WhenProposalIsRegistered` | contracts/testnet/CreatorFirstBicameralGovernor.sol:386-421 | exactly when terms are accepted; they are stored as handed in under the next number with nothing decided yet |
| `GovernorEffects.WhenCfpProposalIsRegistered` | contracts/testnet/CreatorFirstBicameralGovernor.sol:348-384 | the same, with an unused CFP revision bound to the new number both ways |
| `GovernorEffects.WhenReviewIsRecorded` | contracts/testnet/CreatorFirstBicameralGovernor.sol:529-548 | exactly when a review is recorded, and that it is the one handed in |
| `GovernorEffects.WhenHouseDeliberates` | contracts/testnet/CreatorFirstBicameralGovernor.sol:558-572 | exactly when deliberation evidence is recorded, and that it is stored for the House it came from |
| `GovernorEffects.WhenFinalized` | contracts/testnet/CreatorFirstBicameralGovernor.sol:576-584 | exactly when a proposal is finalized; a House approves exactly with its own quorum of voters and a positive sum of their intensities |
| `GovernorEffects.WhenTestIsRecorded` | contracts/testnet/CreatorFirstBicameralGovernor.sol:616-645 | exactly when test evidence is recorded, as handed in |
| `GovernorEffects.WhenConstitutionalEvidenceCounts` | contracts/testnet/CreatorFirstBicameralGovernor.sol:657-668 | exactly when constitutional evidence is recorded, as handed in |
| `GovernorEffects.WhenReviewed` | contracts/testnet/CreatorFirstBicameralGovernor.sol:597-612 | exactly when a review passes, and its evidence |
| `GovernorEffects.WhenQueued` | contracts/testnet/CreatorFirstBicameralGovernor.sol:672-683 | exactly when a proposal is queued; it matures after its own class's delay and expires a window later |
| `GovernorEffects.WhenExecutionBegins` | contracts/testnet/CreatorFirstBicameralGovernor.sol:687-702 | exactly when execution begins; it calls the registered target with the registered value and payload |
| `GovernorEffects.WhenCancelled` | contracts/testnet/CreatorFirstBicameralGovernor.sol:708-713 | exactly when a queued proposal is cancelled |
| `GovernorEffects.WhatStateIsReported` | contracts/testnet/CreatorFirstBicameralGovernor.sol:751-763 | what each of the ten reported states says about the proposal |
| `GovernorInvariants.PanicOnlyBeyondLimits` | contracts/testnet/CreatorFirstBicameralGovernor.sol:510-519 | arithmetic fails only where the budget is exceeded anyway or a House has 2^32 - 1 voters; the subtraction never underflows |
| `GovernorInvariants.ApplyKeeps` | contracts/testnet/CreatorFirstBicameralGovernor.sol:276-715 | every accepted call keeps budgets, ballots, approvals equal to recounts, stage requirements, CFP bindings and single executions |
| `GovernorHistory.ApplyMovesOn` | contracts/testnet/CreatorFirstBicameralGovernor.sol:276-715 | registrations, memberships, approvals, queue times and executions are never rewritten, ballots of finalized proposals never change |
| `GovernorHistory.ApplyFreezes` | contracts/testnet/CreatorFirstBicameralGovernor.sol:311-487 | no call changes the electorate of a started session, a review once voting started, or a ballot once it ended |
| `GovernorHistory.StateSaysWhatIsPossible` | contracts/testnet/CreatorFirstBicameralGovernor.sol:751-763 | each reported state is exactly the state in which its call is accepted |
| `GovernorHistory.StatesMoveForward` | contracts/testnet/CreatorFirstBicameralGovernor.sol:751-763 | reported states only move forward; rejected is final and expired can only become cancelled |
| `GovernorHistory.ExecutedProposalEarnedIt` | contracts/testnet/CreatorFirstBicameralGovernor.sol:687-701 | an executed proposal had its review, deliberations, approvals by recount, matching passed test, review and constitutional evidence, and ran once in its window |
| `Governor.Governor.CreateSession` | contracts/testnet/CreatorFirstBicameralGovernor.sol:276-307 | opens a new session number with a positive budget and quorums |
| `Governor.Governor.RegisterMember` | contracts/testnet/CreatorFirstBicameralGovernor.sol:309-318 | assigns a House once, before the session starts |
| `Governor.Governor.RegisterProposal` | contracts/testnet/CreatorFirstBicameralGovernor.sol:386-421 | fixes the terms of the next proposal number |
| `Governor.Governor.RegisterCfpProposal` | contracts/testnet/CreatorFirstBicameralGovernor.sol:348-384 | binds a CFP revision to the new proposal, once |
| `Governor.Governor.CastVote` | contracts/testnet/CreatorFirstBicameralGovernor.sol:484-525 | stores the replacement ballot while tally and ledger stay equal to a recount in their machine words |
| `Governor.Governor.CastCfpApprovalVoteBySig` | contracts/testnet/CreatorFirstBicameralGovernor.sol:450-482 | spends the nonce and votes, or does neither |
| `Governor.Governor.FinalizeProposal` | contracts/testnet/CreatorFirstBicameralGovernor.sol:576-584 | the stored approvals are those of a recount |
| `Governor.Governor.RecordPreVoteReview` | contracts/testnet/CreatorFirstBicameralGovernor.sol:529-548 | records the review once, before voting |
| `Governor.Governor.RecordHouseDeliberation` | contracts/testnet/CreatorFirstBicameralGovernor.sol:558-572 | records each House once, before voting, after a passed review |
| `Governor.Governor.RecordContractTestEvidence` | contracts/testnet/CreatorFirstBicameralGovernor.sol:616-645 | records evidence for the registered payload once |
| `Governor.Governor.RecordConstitutionalEvidence` | contracts/testnet/CreatorFirstBicameralGovernor.sol:657-668 | records evidence for constitutional changes until reviewed |
| `Governor.Governor.RecordReview` | contracts/testnet/CreatorFirstBicameralGovernor.sol:597-612 | reviews only jointly approved, tested and, if constitutional, evidenced proposals |
| `Governor.Governor.QueueProposal` | contracts/testnet/CreatorFirstBicameralGovernor.sol:672-683 | sets the window from the class's delay, or fails on uint64 overflow |
| `Governor.Governor.BeginExecution` | contracts/testnet/CreatorFirstBicameralGovernor.sol:687-702 | marks executed and calls the registered target with the registered payload, under the reentrancy guard |
| `Governor.Governor.CancelQueuedProposal` | contracts/testnet/CreatorFirstBicameralGovernor.sol:708-713 | cancels a queued proposal that was not executed |
| `Governor.Governor.RemainingVoiceCredits` | contracts/testnet/CreatorFirstBicameralGovernor.sol:724-727 | is budget minus the recounted spending and never underflows |
| `System.RunKeeps` | contracts/testnet/CreatorFirstBicameralGovernor.sol:687-706 | in every run, including re-entering targets, both contracts keep all invariants |
| `System.RunBuilds` | contracts/testnet/CreatorFirstBicameralGovernor.sol:687-706 | no run rewrites registrations, ranks, seats, approvals or executions, rollbacks included |
| `System.RunFixes` | contracts/testnet/CreatorFirstBicameralGovernor.sol:484-487 | over every run electorate, review and ballots are fixed from their time on |
| `System.SignedBallotNeverReplays` | contracts/testnet/CreatorFirstBicameralGovernor.sol:461-480 | after an accepted signed ballot no later state accepts its nonce again |
| `System.ProposalStatesMoveForward` | contracts/testnet/CreatorFirstBicameralGovernor.sol:751-763 | over every run a proposal's state only moves forward |
| `System.RankedListIsReproducible` | contracts/governance/CreatorFirstVerifiableSortition.sol:218-257 | two runs with the same word and population agree on every rank, however calls were interleaved |
| `System.EveryPositionIsDrawn` | contracts/governance/CreatorFirstVerifiableSortition.sol:248-255 | in every reachable state every position of a list is the rank plus keccak(word, session, house, rank) modulo the candidates left, and the list names who stood there |
| `System.EveryListIsPossible` | contracts/governance/CreatorFirstVerifiableSortition.sol:248-255 | for every ordered selection there are keccak values under which every run ranks these candidates |
| `SortitionExamples.EveryListIsReached` | contracts/governance/CreatorFirstVerifiableSortition.sol:131-257 | and under which some run from the beginning ends with exactly that list |
| `System.EveryExecutionEarnedIt` | contracts/testnet/CreatorFirstBicameralGovernor.sol:687-701 | in every reachable state an executed proposal had everything it needs and ran once in its window |
| `System.EveryExecutionHadBothHouses` | contracts/testnet/CreatorFirstBicameralGovernor.sol:576-584 | every executed proposal has in each House that House's quorum of voters and a positive sum of intensities |
| `System.ExecutesWhatWasRegistered` | contracts/testnet/CreatorFirstBicameralGovernor.sol:386-421 | after an accepted registration, whatever follows, every call made for that number goes to the handed-in target with the handed-in value and payload |
| `System.EveryExecutionWaited` | contracts/testnet/CreatorFirstBicameralGovernor.sol:259-267 | in every run of a configured governor an execution came after voting ended by at least the positive parameter delay, for upgrades the upgrade delay, for constitutional changes the constitutional delay |
| `System.InfluenceIsBounded` | contracts/testnet/CreatorFirstBicameralGovernor.sol:506-525 | in every reachable state nobody is over budget and a House's influence is bounded |
| `System.EverySeatIsOnTime` | contracts/governance/CreatorFirstVerifiableSortition.sol:153-158 | every seat went to the caller who owns the drawn, proven leaf and joined that House, with roots, randomness, primary and alternate claims in their times |
| `System.SeatsAreEarnedOnce` | contracts/governance/CreatorFirstVerifiableSortition.sol:282-294 | in every reachable state seats of a session have different people |
| `System.HousesNeverOverfull` | contracts/governance/CreatorFirstVerifiableSortition.sol:315-318 | in every reachable state a House seats at most its active limit |
| `System.FailedExecutionLeavesNoTrace` | contracts/testnet/CreatorFirstBicameralGovernor.sol:702-703 | whatever a target did before failing, both contracts are as before |
| `DistributorRules.ApplyKeeps` | contracts/testnet/CreatorFirstTestnetPolDistributor.sol:82-235 | every call keeps the double entry and every limit of the log |
| `DistributorRules.AnyWindow` | contracts/testnet/CreatorFirstTestnetPolDistributor.sol:204-215 | any stretch of n days pays at most n + 1 daily budgets |
| `DistributorRules.CooldownHolds` | contracts/testnet/CreatorFirstTestnetPolDistributor.sol:193-198 | a top-up comes at least ten minutes after any earlier payment to the participant, unless that was at time 0 |
| `DistributorRules.BothTotalsAddUp` | contracts/testnet/CreatorFirstTestnetPolDistributor.sol:212-215 | participant totals and daily totals both add up to the log |
| `DistributorRules.WalletCap` | contracts/testnet/CreatorFirstTestnetPolDistributor.sol:91-104 | the lifetime cap holds per wallet too |
| `DistributorRules.TopUpPaysPreview` | contracts/testnet/CreatorFirstTestnetPolDistributor.sol:133-148 | a successful top-up pays exactly the preview |
| `DistributorRules.WhenTopUpSucceeds` | contracts/testnet/CreatorFirstTestnetPolDistributor.sol:175-211 | the exact condition under which a top-up succeeds, given its preview |
| `FundingEffects.WhenToppedUp` | contracts/testnet/CreatorFirstTestnetPolDistributor.sol:116-227 | exactly when a top-up goes through, in numbers, and exactly what it pays and records |
| `FundingEffects.WhenRegistered` | contracts/testnet/CreatorFirstTestnetPolDistributor.sol:82-112 | exactly when a registration goes through, and that it pays what is missing to 0.02 ether |
| `FundingEffects.PreviewIsLargest` | contracts/testnet/CreatorFirstTestnetPolDistributor.sol:133-148 | for an eligible wallet the preview is the largest amount within target, 0.05 ether, the lifetime, the day and the balance; otherwise it is zero |
| `FundingEffects.WhenWithdrawn` | contracts/testnet/CreatorFirstTestnetPolDistributor.sol:150-173 | exactly when a withdrawal succeeds, and that receiving always does |
| `FundingEffects.WhenSwitched` | contracts/testnet/CreatorFirstTestnetPolDistributor.sol:126-131 | exactly what the switches of distributor and registry change |
| `DistributorRules.PositivePreviewIsNoPromise` | contracts/testnet/CreatorFirstTestnetPolDistributor.sol:133-148 | a reached book with a positive preview where the same top-up fails on the cooldown, and later on the balance |
| `DistributorRules.InitialPaymentOnce` | contracts/testnet/CreatorFirstTestnetPolDistributor.sol:91-108 | whoever registers a participant, it gets at most the initial target, once |
| `DistributorRules.OperationPaysOnce` | contracts/testnet/CreatorFirstTestnetPolDistributor.sol:182-183 | an operation id pays at most once |
| `DistributorRules.PreviewWithinCaps` | contracts/testnet/CreatorFirstTestnetPolDistributor.sol:142-147 | a preview fits every cap and its subtractions never underflow |
| `DistributorRules.WithdrawalsNeedPause` | contracts/testnet/CreatorFirstTestnetPolDistributor.sol:158-173 | nothing is withdrawn while running and nothing distributed while paused |
| `DistributorRules.EveryRunIsBounded` | contracts/testnet/CreatorFirstTestnetPolDistributor.sol:20-25 | in every run: balance is inflow minus distributed minus withdrawn, and the initial, lifetime, daily and 24-hour bounds hold |
| `Distributor.Distributor.RegisterAndTopUp` | contracts/testnet/CreatorFirstTestnetPolDistributor.sol:82-112 | registers and pays the initial target, or undoes the registration |
| `Distributor.Distributor.TopUp` | contracts/testnet/CreatorFirstTestnetPolDistributor.sol:116-124 | pays exactly the preview while the stored totals stay equal to the log |
| `Distributor.Distributor.PayUp` | contracts/testnet/CreatorFirstTestnetPolDistributor.sol:175-227 | the shared payment: error order, amount, no underflow, no uint128 truncation |
| `Distributor.Distributor.PreviewTopUp` | contracts/testnet/CreatorFirstTestnetPolDistributor.sol:133-148 | computes the rule's preview from stored totals |
| `Distributor.Distributor.EmergencyWithdraw` | contracts/testnet/CreatorFirstTestnetPolDistributor.sol:160-173 | pays out of a paused contract only |
| `RegistryRules.ApplyKeeps` | contracts/testnet/CreatorFirstTestnetParticipantRegistry.sol:98-163 | approvals and fundings happen once per participant, wallets and ids are inverse, only approved roles register, and whom the registry funded the distributor knows with the same wallet |
| `RegistryRules.DistributorCallKeeps` | contracts/testnet/CreatorFirstTestnetPolDistributor.sol:82-131 | no distributor call, registrations by other registrars included, disturbs this |
| `FundingEffects.WhenClaimIsApproved` | contracts/testnet/CreatorFirstTestnetParticipantRegistry.sol:98-123 | exactly when a claim is approved, and the participant that is then stored |
| `FundingEffects.WhenInitiallyFunded` | contracts/testnet/CreatorFirstTestnetParticipantRegistry.sol:127-141 | exactly when an approved participant is funded, and that both contracts then record it for its wallet |
| `FundingEffects.WhenRoleIsRegistered` | contracts/testnet/CreatorFirstTestnetParticipantRegistry.sol:144-156 | exactly when a wallet registers a role, and the role and consent that are then stored |
| `Registry.Registry.ApproveClaimedInvitation` | contracts/testnet/CreatorFirstTestnetParticipantRegistry.sol:98-123 | approves a new participant and wallet or reverts |
| `Registry.Registry.FundInitial` | contracts/testnet/CreatorFirstTestnetParticipantRegistry.sol:127-141 | funds through the distributor, both contracts or neither |
| `Registry.Registry.RegisterSelf` | contracts/testnet/CreatorFirstTestnetParticipantRegistry.sol:144-156 | adds one approved role for the bound wallet |
| `Registry.Registry.IsClaimApproved` | contracts/testnet/CreatorFirstTestnetParticipantRegistry.sol:165-172 | true exactly if some live approval of that wallet covers the role |
| `EnrollmentStore.UpdatesGoOnward` | apps/gateway/src/GatewayStore.js:457-492 | no confirmation or submission sends a row back a phase |
| `EnrollmentStore.FailureGoesOnward` | apps/gateway/src/GatewayStore.js:494-501 | a failure report keeps the phase order exactly if it does not name the approval phase after funding began |
| `EnrollmentStore.Store.CreateParticipantEnrollment` | apps/gateway/src/GatewayStore.js:434-452 | an invitation's ids are stored once |
| `EnrollmentStore.Store.MarkApproved` | apps/gateway/src/GatewayStore.js:466-473 | changes every row that is not funded |
| `EnrollmentStore.Store.MarkFundingSubmitted` | apps/gateway/src/GatewayStore.js:475-482 | changes approved and failed fundings only |
| `EnrollmentInvariants.StepKeeps` | apps/gateway/src/ParticipantEnrollmentOperator.js:171-266 | after every step, crash, late transaction or lost answer, rows never run ahead of the chain and the queue is in order |
| `EnrollmentRuns.RunKeeps` | apps/gateway/src/ParticipantEnrollmentOperator.js:171-266 | every run keeps this and takes back no row, approval, funding or receipt |
| `EnrollmentRuns.OncePerInvitation` | apps/gateway/src/ParticipantEnrollmentOperator.js:183-254 | at most one approval and one initial funding per invitation; all its transactions name one participant, and what the operator got approved, asked to fund or recorded as funded is for the claimed wallet and roles |
| `EnrollmentRuns.DatabaseTellsTheTruth` | apps/gateway/src/ParticipantEnrollmentOperator.js:210-254 | funding-phase rows are approved on chain, FUNDED rows are funded there exactly once |
| `EnrollmentRuns.ForeignApprovalStrands` | apps/gateway/src/ParticipantEnrollmentOperator.js:235-237 | if another approver took the stored id for another wallet or other roles, the row is never FUNDED, no funding is ever signed and no approval of the operator succeeds |
| `EnrollmentRuns.WhenApprovalIsForeign` | apps/gateway/src/ParticipantEnrollmentOperator.js:231-237 | over every run, a row in the funding phase carries an approval that is not its own exactly if another approver's call took its id for another wallet or other roles and a process acted on that approval |
| `EnrollmentExamples.ForeignApprovalIsReached` | apps/gateway/src/ParticipantEnrollmentOperator.js:231-237 | a run from the beginning that ends in such an APPROVED row |
| `EnrollmentRuns.PhasesNeverGoBack` | apps/gateway/src/GatewayStore.js:457-501 | over every run a row keeps its identity and phase order, and FUNDED is final |
| `EnrollmentRuns.OneBodyAtATime` | apps/gateway/src/ParticipantEnrollmentOperator.js:175-180 | at most one process body runs and each invitation has at most one open promise |
| `EnrollmentRuns.FailureNeverBlocks` | apps/gateway/src/ParticipantEnrollmentOperator.js:176-178 | in front of every open promise one can begin or end, and ending in failure passes the turn on |
| `EnrollmentRuns.WhatAFailureRecords` | apps/gateway/src/ParticipantEnrollmentOperator.js:256-264 | a run that breaks off records the failure in the phase its row is in and leaves FUNDED and all other rows alone |
| `EnrollmentRecords.RecordedHashesAreTheRowsOwn` | apps/gateway/src/ParticipantEnrollmentOperator.js:215-254 | over every run, the hashes in a row are transactions signed for it that succeeded, and exactly the FUNDED rows show an amount |
| `EnrollmentProgress.WhenFundingSucceeds` | contracts/testnet/CreatorFirstTestnetParticipantRegistry.sol:127-141 | exactly when an initial funding succeeds at a given time, for a given balance and willingness of the wallet, and what it pays |
| `EnrollmentProgress.UndisturbedProcess` | apps/gateway/src/ParticipantEnrollmentOperator.js:183-255 | from every consistent state a process whose calls nobody disturbs, while its wallet spends and receives, settles within seventeen steps at any nondecreasing times, and in FUNDED exactly if the row is FUNDED already or approval and funding are possible when they land |
| `EnrollmentProgress.WhenRecordedAmountIsPaid` | apps/gateway/src/ParticipantEnrollmentOperator.js:133-151 | for every schedule and balance, the recorded amount is what was paid exactly if a chain funded before had paid nothing, or else nothing else moved the wallet between the two balance reads, or spending alone did and the wallet was paid nothing |
| `EnrollmentExamples.LostReceiptRecordsZero` | apps/gateway/src/ParticipantEnrollmentOperator.js:239-254 | a run from the beginning, with a lost receipt and a retry, that records zero for 0.02 paid |
| `EnrollmentOperator.ParticipantEnrollmentOperator.Process` | apps/gateway/src/ParticipantEnrollmentOperator.js:183-265 | the body in one go, approval and funding landing at their own times, funds exactly what they then allow, records the gain between its two balance reads and never lets rows run ahead of the chain |
| `SupporterRules.ApplyKeeps` | contracts/testnet/SupporterSBTUpgradeable.sol:123-207 | active tokens are live and unique per creator and holder; each token was signed for in time and is early exactly if its policy version granted it |
| `SupporterRules.ActiveIsUnique` | contracts/testnet/SupporterSBTUpgradeable.sol:153-176 | a nonzero index entry is exactly the one active token of its pair |
| `SupporterRules.OldTokensClearNothing` | contracts/testnet/SupporterSBTUpgradeable.sol:183-202 | revoking or burning a token clears only its own standing |
| `SupporterRules.NoncesAddUp` | contracts/testnet/SupporterSBTUpgradeable.sol:161-168 | all nonces add up to the tokens ever minted |
| `SupporterRules.EarlyWithinPolicy` | contracts/testnet/SupporterSBTUpgradeable.sol:163-166 | early tokens never exceed the largest limit any active policy had |
| `SupporterRules.TokensAreFinal` | contracts/testnet/SupporterSBTUpgradeable.sol:237-245 | in every run a token keeps its holder, and an inactive or burned one stays so |
| `SupporterEffects.WhenPolicyIsSet` | contracts/testnet/SupporterSBTUpgradeable.sol:123-138 | exactly when a policy is set, as the creator's next version |
| `SupporterEffects.WhenSupporterRegisters` | contracts/testnet/SupporterSBTUpgradeable.sol:140-181 | exactly who gets a token, of which policy version, and when it is early |
| `SupporterEffects.WhenRevoked` | contracts/testnet/SupporterSBTUpgradeable.sol:183-190 | exactly the active credentials can be revoked |
| `SupporterEffects.WhenBurned` | contracts/testnet/SupporterSBTUpgradeable.sol:192-202 | a live token is burned exactly by its holder or a revoker |
| `SupporterEffects.NeverTransferred` | contracts/testnet/SupporterSBTUpgradeable.sol:237-245 | no transfer is accepted |
| `SupporterSbt.SupporterSbt.SetEarlyPolicy` | contracts/testnet/SupporterSBTUpgradeable.sol:123-138 | adds the next policy version and keeps the early count |
| `SupporterSbt.SupporterSbt.RegisterSupporterWithSignature` | contracts/testnet/SupporterSBTUpgradeable.sol:140-181 | mints the next token; index, nonce and early count stay equal to their recounts |
| `SupporterSbt.SupporterSbt.Revoke` | contracts/testnet/SupporterSBTUpgradeable.sol:183-190 | deactivates the credential and keeps the index exact |
| `SupporterSbt.SupporterSbt.Burn` | contracts/testnet/SupporterSBTUpgradeable.sol:192-202 | removes the token and touches the index only if it was active |
| `SupporterSbt.SupporterSbt.GetSupporterTier` | contracts/testnet/SupporterSBTUpgradeable.sol:204-207 | none exactly without an active token, else that token's tier |
| `ResendLimiter.WhenAvailable` | apps/gateway/src/ParticipantInvitationService.js:66-91 | in terms of the attempts so far, exactly when the next one is granted |
| `ResendLimiter.RemainingAttemptsAreReported` | apps/gateway/src/ParticipantInvitationService.js:72-91 | the reported rest is three less the attempts of the window still running |
| `ResendLimiter.GrantIsStored` | apps/gateway/src/ParticipantInvitationService.js:202-220 | a granted attempt counts in the running window or opens a new one |
| `ResendLimiter.ReportedTimeIsEarliest` | apps/gateway/src/ParticipantInvitationService.js:74-86 | the reported time is never too late, and right exactly unless a used-up window ends within the cooldown of its last attempt |
| `ResendLimiter.ReportedTimeCanBeTooEarly` | apps/gateway/src/ParticipantInvitationService.js:74-80 | three granted attempts lead to a row whose reported time comes before the resend is granted |
| `ResendLimiter.GrantKeeps` | apps/gateway/src/ParticipantInvitationService.js:66-91 | every granted attempt extends the history by cooldown and window rules |
| `ResendLimiter.AttemptsApart` | apps/gateway/src/ParticipantInvitationService.js:81-85 | attempts are at least ten minutes apart |
| `ResendLimiter.FirstResendWaits` | apps/gateway/src/ParticipantInvitationService.js:81-83 | the first attempt waits five minutes after the mail before it, and no attempt comes within five minutes of the invitation's creation |
| `ResendLimiter.FiveADay` | apps/gateway/src/ParticipantInvitationService.js:70-80 | any half-open 24 hours hold at most five attempts |
| `ResendLimiter.ThreeFromAWindowStart` | apps/gateway/src/ParticipantInvitationService.js:70-80 | 24 hours that start with a window hold at most three |
| `ResendLimiter.FiveADayIsReached` | apps/gateway/src/ParticipantInvitationService.js:70-80 | five attempts within 24 hours do occur |
| `ResendLimiter.WhenThreeInAnyDayIsKept` | apps/gateway/src/ParticipantInvitationService.js:70-80 | an attempt keeps three in any 24 hours exactly if the third-last attempt before it is a day old |
| `ResendLimiter.LifetimeLimit` | apps/gateway/src/ParticipantInvitationService.js:66-69 | an invitation valid for H hours gets at most 3 * ceil(H / 24) attempts |
| `Invitations.Desk.RequestResend` | apps/gateway/src/ParticipantInvitationService.js:202-220 | grants exactly the available requests as one more attempt; a recorded key replays and adds none |
| `Invitations.Desk.FinishResend` | apps/gateway/src/ParticipantInvitationService.js:222-238 | records a delivery under its key once and changes nothing else |
| `Invitations.Desk.Claim` | apps/gateway/src/GatewayStore.js:399-405 | claims an open invitation before it expires, once |
| `Invitations.Desk.LimitsHold` | apps/gateway/src/ParticipantInvitationService.js:202-239 | in every state the desk reaches both limits hold |

## Left out

- System.RunKeeps: a target that catches a revert inside its own call is covered, because a reverted inner call equals no call; a partly rolled-back group of inner calls is not a separate event.
- Governor.Governor.EndExecution: models only the successful return; a failing target is rolled back in `System.ReturnStep`, since one object cannot undo the other contract.
- Governor.Governor.BeginExecution: the payload is represented by its hash, the target's return data is not kept and no native currency moves.
- EnrollmentInvariants.StepKeeps: the operator's queue and interleaved runs are modelled on values, because a step per `await` with crashes in between is a state machine; update in place is shown for the stored rows and for one uninterrupted body.
- EnrollmentRuns.OncePerInvitation: assumes that randomly drawn identifiers are nonzero and not in use when they are drawn.
- EnrollmentProgress.UndisturbedProcess: the success condition is for a process during which only time passes and its wallet spends and receives; calls by others in between are covered by the safety results.
- EnrollmentStore.Store.MarkApproved: timestamps, error codes and error texts of a row are not kept.
- EnrollmentStore.Store.MarkFundingSubmitted: timestamps, error codes and error texts of a row are not kept.
- SupporterSbt.SupporterSbt.RegisterSupporterWithSignature: the receiver callback is an accept flag; calls it makes count as later calls.
- Distributor.Distributor.RegisterAndTopUp: the wallet's balance and willingness to accept are inputs; calls back from the wallet count as later calls.
- Invitations.Desk.RequestResend: token digests, mail contents and audit events are not kept; the clock reading at the decision and the later one stored are two inputs.
- Roles of callers (AccessControl), constructor checks of addresses and delays, events and the arguments of errors.
- Signatures, keccak and Merkle proofs: recovered signers, draws and proof verdicts are inputs or functions that are not interpreted; leaves and keys are injective constructors.
- Machine words beyond uint8 to uint128 where they matter: uint256 values, session, proposal and token numbers are unbounded.
- Clocks: block time is below 2^64 and nondecreasing; chain reorganisations and stale reads of a lagging node are not modelled.
- Grouping: a proposal's review, deliberation, evidence and lifecycle mappings are one record per proposal, its counters another; enumeration, metadata and views that only read one field have no member.
- The relayers, playback sessions, account and application services, creator registry, subscription, treasury, policy adapters, mock token and documentation validators: workflows of single guarded updates that would add only easy members.
