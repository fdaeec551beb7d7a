# PlayStake: the money protocol and its workers

PlayStake holds two players' stakes in a per-bet escrow account, settles the bet from a
reported result, and lets a set of background workers settle, refund, void, audit and
tidy up while players, referees and dispute staff act on the same rows. This project
models that protocol and the loops around it, and proves what they are for.

Money is whole pence (`DECIMAL(_, 2)`), percentages are ten-thousandths (`DECIMAL(5, 4)`),
times are milliseconds. A transaction is one atomic step: almost all of them run serializable,
and the dispute route, which does not, locks the bet's row before it reads it again. Whether
an advisory lock was free is an input. A scan is a list of ids that may
be stale or repeat by the time it is used. A thrown exception is an `Error` value and
rolls the whole transaction back.

## How it is laid out

- `Tables`, `Ledger`, `Escrow`, `Fees`: the rows, the class `Database` that holds them, the
  transfer primitive, the escrow operations and the fee arithmetic.
- `Settlement`, `BetExpiry`, `ConsentExpiry`, `DisputeEscalation`: the workers, as methods on
  the database proved equal to functions on its value. `Lifecycle`: every other place that
  writes a bet, an assignment, a dispute or a balance. `Protocol`: all of them as one step
  function and runs of it.
- `Invariant`, `RowSteps`, `MoneySteps`, `VoidSteps`, `SettlementStages`, `SettlementEffect`,
  `Payments`, `VoidConditions`, `Safety`: the invariant `Sound` and each step's proof.
  `History`, `Staffing`, `BetTerms`: what the ledger, the assignments and the bets' terms keep.
  `Transitions`: the edges along which each step may take a bet, an assignment or a dispute.
  `Runs`, `Exits`, `Caps`, `Outcomes`: what follows for every run, for the money going in and
  out, for the developers' caps and for a result from its report to its payout.
- `IdempotencyKeys`, `KeyColumn`: the texts of all keys, and the one column they share with the
  texts that customers' deposit and withdrawal requests bring along.
- `Reopening`: the one request `Sound` does not survive. `Stranded`: bets that can never
  settle. `LateDispute`: a race between a dispute and a settlement. `Scenario`: the concrete
  runs they use.
- `SettlementScan`, `BetExpiryScan`, `LedgerAudit`, `Referees`: whole scans.
- `DepositLimits`, `LimitActivation`, `LimitRefinement`, `UnverifiedResults`,
  `AnomalyDetection`, `WebhookDelivery`, `Recorder`, `DisputeEvidence`: the smaller machines.

`Sound` says: each escrow holds nothing, one stake or two, by phase; each developer's
`currentEscrow` is the sum of what those escrows hold; no account but the inbound payments
account is overdrawn; every balance is the sum of its entries, every entry's running balance is
right, every transaction and the whole ledger sum to zero; a bet with a result has its outcome
and a paid one was verified and took exactly its fee; every used idempotency key belongs to the one way the bet left.
`Legal` adds that every transaction ran between the accounts its key stands for, that a
refereed result still has its referee, and that no text is both a customer's and the code's.

## What turned out false, and exactly when it holds

- **A finished bet can be reopened.** A ruling that names an outcome on a refereed bet
  writes `RESULT_REPORTED` without looking at the bet's status
  (`src/lib/disputes/review.ts:349-353`), and a dispute can still be open when its bet is
  voided (an account closed as under age) or, by the race below, be filed on a settled one.
  The result is a bet that reads as reported with an empty escrow, which no later run can settle
  (`Stranded.ReopenedNeverSettles`). Everything about whole runs is therefore stated for runs
  in which no such ruling happens; for the workers alone there is no proviso.
  `Reopening.RulingSafeIff` gives the exact condition, `Reopening.ReopeningIsReachable` a run
  that gets there, and `LedgerAudit.ReopeningIsInvisible` shows that the nightly audit stays
  healthy.
- **A movement's key can be taken before the movement is made.** The code's keys and the keys
  that deposit and withdrawal requests bring along share one unique column
  (`prisma/schema.prisma:637`), and a request may bring any text of 1 to 255 characters
  (`src/lib/validation/schemas.ts:158-161` and `169-172`). `transfer` refuses a key that a
  customer's row has (`src/lib/ledger/transfer.ts:92-126`), whatever has become of that row, so
  a movement whose text was brought along first is never made, in any later run
  (`KeyColumn.ClaimedNeverMoves`): a bet whose fee's text is taken never settles, one whose
  expiry refund's is never expires (`KeyColumn.ClaimedBlocks`). `KeyColumn.ConflictIff` is the
  exact condition: after any run, a settlement that nothing else stops is refused for its keys
  if and only if an earlier request was sent with the text of a key it needs.
  `KeyColumn.TakenTextIsReachable` is a concrete run. Among the code's own movements no two
  texts are ever equal (`IdempotencyKeys.KeysNeverCollide`).
- **A withdrawal's text can be too long to be put back.** The reversal's key is nine characters
  longer and the column no wider than what a request may bring, so a withdrawal sent with 247
  or more cannot be put back (`Payments.ReversalExact`).
- **Settlement can refuse to pay.** A payout of zero is refused, so a bet whose fee is the
  whole pot never settles in any run (`Stranded.WholePotNeverSettles`), though a void can
  still take it out; `Stranded.WholePotIsReachable` reaches one with a stake of 100 at 100%. A
  draw that leaves less than two pence is refused in the same way until a ruling names another
  outcome or the bet is voided. `SettlementEffect.SettlementExact` has the exact condition.
- **The countdown and the scan part after a ruling.** `settlementDueAt` says a refereed bet is
  due when its dispute window ends; the scan also wants two minutes since the report.
  They agree on every other bet (`SettlementScan.ScanFollowsCountdown`).
- **Cancelling a staged limit change reads the stored row.** If the change has matured and the
  worker has not tidied it, cancelling still undoes it; a moment later it would not.
  `DepositLimits.CancelSeesStored` is the exact condition. It only ever tightens.
- **A late dispute parts a referee's assignment from its bet**, but only by a race. The route
  checks the dispute deadline on a reading made before its transaction and the transaction
  re-reads only the bet's status; the scan settles a refereed bet only after the deadline. So
  every reading made once the scan could pick the bet is turned away, whatever runs meanwhile
  (`LateDispute.OnlyAnEarlierReadingIsLate`), while one made just before lets the filing
  mark the completed assignment as disputed (`LateDispute.LateFilingIsReachable`).
  `Referees.OfficiatedIff` shows that nothing else does.
- **A reduced deposit limit can be lost to a request that read the limit before.** Setting and
  removing write what they made of their own earlier reading, without a guard. The reduction
  survives such a write if and only if the other request puts no more than the reduced amount
  in force at once, or does not write (`DepositLimits.ReductionSurvivesIff`);
  `DepositLimits.ReductionLost` has 50 and 300 asked for at a limit of 100.
- **A request whose clock reading is a day older than the scan's can be overwritten** by the
  limit worker's guarded write (`LimitActivation.RequestADayOldIsOverwritten`); anything
  younger cannot.
- **Segment names sort as numbers only up to a thousand.** From then on the newest segment is
  not the last in the listing and is uploaded while it is being written
  (`Recorder.NewestIsUploadedLate`, shown up to 9990 segments).
- **Three-digit hours do not survive** printing and parsing a time
  (`DisputeEvidence.RelativeReadsBack`).

Where a comment and the code disagree the code is followed: unverified results are never
settled, whatever `src/workers/unverified-result.worker.ts:159-161` says; and an event before
the start prints as a negative distance, not as the clock time promised at
`src/components/disputes/DisputeEvidence.tsx:176`.

## Model

| member | source | states |
|---|---|---|
| Ledger.Transfer | src/lib/ledger/transfer.ts:77-234 | the imperative transfer does what its specification says, refusals in the code's order: amount, same account, replay or key conflict, a text that a customer's pending, failed or completed row has, frozen account, short balance |
| Ledger.Enter | src/lib/ledger/transfer.ts:211-228 | one side of a posting: the balance moves by the amount and the entry records the balance after it |
| Ledger.AfterTransfer | src/lib/ledger/transfer.ts:91-126 | a transfer writes nothing but the ledger, keeps the books balanced, and with a used key changes nothing at all |
| Ledger.PostKeepsBooks | src/lib/ledger/transfer.ts:196-228 | one posting keeps every account equal to its entries, every entry's recorded balance right, every transaction and the whole ledger at zero |
| Fees.FeeWaterfall | src/workers/settlement.worker.ts:124-228 | for all stakes and percentages in [0, 1]: the fee is its percentage of the pot, the referee's reward the assignment's percentage of the fee and the developer's share their percentage of the rest, each to the nearest penny, halves upwards, and nothing where there is no referee, no fee or no share; together the two parts are at most the fee, payouts and fee are the pot, a draw's odd penny goes to player A |
| Fees.ShareIsPart | src/workers/settlement.worker.ts:148-180 | a rounded share of an amount is between nothing and all of it |
| Escrows.AfterHold | src/lib/ledger/escrow.ts:89-166 | a hold moves a stake into escrow, raises the counter within its caps, keeps the books and writes no other row |
| Invariant.HoldEffect | src/lib/ledger/escrow.ts:89-166 | a hold under a fresh key moves exactly the stake into the bet's escrow and raises exactly its developer's counter by it |
| Invariant.RefundEffect | src/lib/ledger/escrow.ts:235-312 | a refund under a fresh key moves exactly the stake back and lowers exactly its developer's counter by it |
| Escrows.ReleaseEscrow | src/lib/ledger/escrow.ts:177-223 | the imperative release is its specification, every refusal included |
| Escrows.RefundEscrow | src/lib/ledger/escrow.ts:235-312 | the imperative refund is its specification; a replayed refund does not lower the counter again |
| Escrows.DecrementEscrow | src/lib/ledger/escrow.ts:300-309 | the counter goes down by the amount but not below zero, and no other counter moves |
| Escrows.CollectFee | src/lib/ledger/escrow.ts:323-392 | the imperative fee collection is its specification, with its own replay check first |
| Escrows.DistributeDevShare | src/lib/ledger/escrow.ts:405-440 | the developer's share comes out of platform revenue, or is refused if revenue is short |
| Escrows.DistributeRefereeFee | src/lib/ledger/escrow.ts:447-470 | the referee's reward comes out of platform revenue |
| Settlement.SettleBet | src/workers/settlement.worker.ts:44-302 | the transaction skips, commits or fails exactly as specified, and a failure leaves the database as it was |
| Settlement.MoveMoney | src/workers/settlement.worker.ts:130-228 | fee, referee reward, developer share and payouts run in this order and stop at the first refusal |
| Settlement.PayPlayers | src/workers/settlement.worker.ts:191-228 | the winner gets what the fee leaves, or on a draw each player a half under a key of their own |
| Settlement.Close | src/workers/settlement.worker.ts:238-282 | the bet is SETTLED with its fee, its assignment COMPLETED with the reward, the counter lowered by the pot; an assignment nobody holds throws |
| SettlementEffect.SettlementExact | src/workers/settlement.worker.ts:108-282 | in a sound database a settlement goes through exactly when the pot leaves something to pay, every account it needs is usable, no customer has the text of a key it needs and a refereed bet has its referee; then it does exactly what its terms say, each amount its own percentage to the nearest penny, and otherwise the error names which of these failed; the balance-mismatch and escrow-not-empty errors cannot happen |
| SettlementEffect.TermsSplit | src/workers/settlement.worker.ts:124-228 | the terms of every settlement in a sound database: fee, reward, share and payouts are each within a penny's rounding of their own percentage, none is negative and they add up to the pot |
| SettlementEffect.PayoutsIgnoreShares | src/workers/settlement.worker.ts:139-228 | fee and player payouts do not depend on the referee's or the developer's percentage |
| SettlementEffect.SettlementKeepsSound | src/workers/settlement.worker.ts:44-302 | settling keeps the whole invariant |
| SettlementStages.EscrowReplaysAreInert | src/lib/ledger/escrow.ts:112-392 | a hold, release or refund repeated under a used key changes nothing, the counter included, or throws; a repeated fee collection answers as the first did even from an empty escrow |
| SettlementStages.DevShareFromRevenue | src/lib/ledger/escrow.ts:405-440 | a developer's share is paid only out of revenue that is there |
| SettlementScan.ScanFollowsCountdown | src/lib/jobs/settlement-timing.ts:27-37 | the scan picks an unrefereed bet exactly when its countdown has passed, a refereed one exactly when it has and the report is two minutes old |
| SettlementScan.RulingOutrunsCountdown | src/workers/settlement.worker.ts:352-375 | after a ruling on a refereed bet the countdown reads zero at once while the scan waits two more minutes |
| SettlementScan.ProcessSettlementScan | src/workers/settlement.worker.ts:383-394 | the loop settles the listed bets in turn and reports exactly those that threw |
| SettlementScan.PassSettlesEachOnce | src/workers/settlement.worker.ts:383-394 | batch confluence: for any list of ids, with duplicates, stale ids, busy locks and failures, in any order, a pass settles each eligible payable bet, taken keys counted, once on its own terms and touches nothing else |
| SettlementScan.OrderDoesNotMatter | src/workers/settlement.worker.ts:383-394 | passes that settle the same bets leave equal balances, bets, assignments and counters |
| SettlementScan.FailuresAreIsolated | src/workers/settlement.worker.ts:384-393 | which bets throw does not depend on what the pass did before them |
| BetExpiry.ExpireBet | src/workers/bet-expiry.worker.ts:44-128 | the expiry skips, commits or fails as specified, and a webhook is attempted exactly when it committed |
| BetExpiry.RefundBoth | src/lib/lobby/match-lifecycle.ts:97-108 | both stakes go back one after the other, the second only if the first did |
| MoneySteps.RefundBothEffect | src/workers/dispute-escalation.worker.ts:211-228 | two refunds under fresh keys move one stake to each player out of the escrow and lower the counter by two |
| BetExpiry.CancelActiveRefereeAssignment | src/lib/lobby/match-lifecycle.ts:121-150 | a live assignment is cancelled, any other left alone |
| BetExpiry.VoidNoShowMatch | src/lib/lobby/match-lifecycle.ts:50-111 | a match still MATCHED is voided, refunded exactly if it had an escrow account; movements without one throw |
| BetExpiry.VoidStaleMatch | src/workers/bet-expiry.worker.ts:134-163 | the sweep's transaction round the void, rolled back whole on a throw; the players are told exactly when it committed a void with an escrow to refund |
| BetExpiry.SweepStaleAssignment | src/lib/referees/service.ts:648-735 | the three time limits, checked again under the lock: unclaimed and overrun matches are voided, a stalled referee's match goes back to the pool |
| BetExpiryScan.ExpiryExact | src/workers/bet-expiry.worker.ts:78-101 | in a sound database an OPEN bet's expiry is stopped by a frozen account or by a customer who has the text of its refund's key, and by nothing else; the error says which |
| BetExpiryScan.ProcessExpiries | src/workers/bet-expiry.worker.ts:187-199 | the expiry loop is one expiry step per listed bet, failures notwithstanding |
| BetExpiryScan.ProcessBetExpiryScan | src/workers/bet-expiry.worker.ts:169-293 | the job is the run of its expiry, no-show and referee steps, in that order |
| BetExpiryScan.WindowIsAhead | src/workers/bet-expiry.worker.ts:174-185 | a candidate with no room in the oldest-first window is behind at least 100 - f working ones |
| BetExpiryScan.TurnSomewhereCloses | src/workers/bet-expiry.worker.ts:187-199 | a bet that nothing stops from expiring by the end of a run has left OPEN by then if its turn comes anywhere in it |
| BetExpiryScan.ExpiredBetLeaves | src/workers/bet-expiry.worker.ts:174-199 | bounded waiting: with at most f < 100 bets that fail and later bets expiring later, an expired bet with r working candidates ahead has left OPEN after ceil((r + 1) / (100 - f)) scans, whatever runs before, between and after each scan's own transactions |
| BetExpiryScan.OwnPassIsFair | src/workers/bet-expiry.worker.ts:174-199 | a pass of the job over its own window, its locks free and its bets expirable except for `stuck`, is a round of the kind the bound asks for |
| BetExpiryScan.JobAloneCloses | src/workers/bet-expiry.worker.ts:169-199 | so the job by itself, with f < 100 bets it cannot expire, closes an expired bet with r candidates ahead within ceil((r + 1) / (100 - f)) passes |
| ConsentExpiry.ExpireConsent | src/workers/consent-expiry.worker.ts:31-65 | a bet still PENDING_CONSENT becomes CANCELLED, no money moves, and a webhook is attempted exactly then |
| DisputeEscalation.EscalateOpenDisputes | src/workers/dispute-escalation.worker.ts:46-87 | each listed dispute still OPEN becomes UNDER_REVIEW |
| DisputeEscalation.EscalatesExactlyOpen | src/workers/dispute-escalation.worker.ts:62-73 | whatever the list repeats, the pass moves exactly the OPEN disputes on it to UNDER_REVIEW and touches nothing else |
| DisputeEscalation.AutoVoidDispute | src/workers/dispute-escalation.worker.ts:135-260 | void, two refunds, assignment closed, dispute resolved, in one transaction; players are told exactly when stakes came back |
| DisputeEscalation.AutoVoidResolves | src/workers/dispute-escalation.worker.ts:190-250 | a visit that commits leaves its dispute RESOLVED_VOID and every other as it was, and a second visit passes over it; a bet that held stakes is VOIDED with its assignment closed, and for any other nothing else changes |
| DisputeEscalation.EscalatedThenVoided | src/workers/dispute-escalation.worker.ts:150-176 | a dispute nobody has escalated is not voided, and one just escalated is |
| Invariant.CounterCovers | src/workers/settlement.worker.ts:274-282 | a developer's counter is at least what any one of their bets holds, so lowering it never clamps at zero |
| MoneySteps.ConsentKeepsSound | README.md:111-112 | consent holds one stake and keeps the invariant |
| MoneySteps.AcceptKeepsSound | README.md:113-113 | acceptance holds the second stake and keeps the invariant |
| MoneySteps.ExpiryKeepsSound | src/workers/bet-expiry.worker.ts:85-101 | refunding one stake and cancelling keeps the invariant |
| VoidSteps.NoShowKeepsSound | src/lib/lobby/match-lifecycle.ts:50-111 | the no-show void keeps the invariant |
| VoidSteps.AutoVoidKeepsSound | src/workers/dispute-escalation.worker.ts:178-250 | the automatic dispute void keeps the invariant |
| VoidSteps.UnderageKeepsSound | src/lib/compliance/account-actions.ts:147-188 | voiding an under-age account's bet keeps the invariant |
| VoidSteps.VoidRulingKeepsSound | src/lib/disputes/review.ts:337-394 | a ruling for a void keeps the invariant, refereed or not |
| VoidConditions.NoShowExact | src/lib/lobby/match-lifecycle.ts:92-110 | a no-show void leaves the match VOIDED if and only if the escrow and both players' accounts are usable and no customer has the text of either refund; its error says which |
| VoidConditions.AutoVoidExact | src/workers/dispute-escalation.worker.ts:204-230 | the same for the automatic dispute void |
| VoidConditions.VoidRulingExact | src/lib/disputes/review.ts:313-336 | the same for a ruling for a void, refereed or not |
| VoidConditions.UnderageExact | src/lib/compliance/account-actions.ts:175-187 | the same for the void of an under-age account's bet |
| VoidConditions.WithdrawalExact | src/lib/matches/withdraw.ts:67-120 | a player can pull out of a matched bet exactly until the referee has started it and both refunds can be made |
| VoidConditions.NoShowSparesTheRest | src/lib/lobby/match-lifecycle.ts:50-68 | the no-show void leaves every bet that is not MATCHED exactly as it is |
| VoidConditions.MovedWithoutEscrowThrows | src/lib/lobby/match-lifecycle.ts:68-92 | a match with movements but no escrow account is refused, not voided |
| RowSteps.PaymentKeepsSound | src/app/api/webhooks/stripe/route.ts:262-282 | a deposit's credit, a withdrawal or a reversal keeps the invariant, whatever text a customer sent |
| Payments.SinkCovers | src/app/api/wallet/withdraw/route.ts:117-134 | the outbound payments account holds at least any withdrawal that has not been put back |
| Payments.ReversalKeepsSound | src/app/api/wallet/withdraw/route.ts:160-206 | putting back a withdrawal that Stripe refused keeps the invariant, so that account is never overdrawn |
| Payments.ReversalExact | src/app/api/wallet/withdraw/route.ts:160-206 | a withdrawal not yet put back can be put back if and only if neither account is frozen, no customer has the reversal's text and its own text is at most 246 characters |
| Payments.DepositExact | src/app/api/webhooks/stripe/route.ts:262-290 | a deposit is credited in full to its own player exactly when neither account is frozen and no customer has the credit's text, and a second notice of it changes nothing |
| Payments.CashOutTakesExactly | src/app/api/wallet/withdraw/route.ts:107-134 | a withdrawal takes exactly its amount, which the player has, and gives it to the outbound account alone |
| Payments.PutBackRestores | src/app/api/wallet/withdraw/route.ts:160-206 | round trip: a withdrawal that is put back leaves every balance what it was, cannot be repeated, and is put back once |
| Safety.ProposalKeepsSound | prisma/migrations/20260309215236_check_constraints/migration.sql:18-32 | a new row that meets the table constraints keeps the invariant |
| Safety.LobbyKeepsSound | src/lib/lobby/service.ts:603-704 | creating, holding both stakes and opening the assignment in one transaction keeps the invariant |
| Safety.DecisionKeepsSound | src/lib/referees/service.ts:484-557 | a referee's decision keeps the invariant |
| Safety.AssignmentKeepsSound | src/lib/referees/service.ts:289-482 | an assignment changing hands or stage keeps the invariant |
| Safety.FilingKeepsSound | src/app/api/bets/[id]/dispute/route.ts:112-159 | filing a dispute on a reported or settled bet keeps the invariant |
| Safety.DisputeStatusKeepsSound | src/lib/disputes/review.ts:168-196 | taking or resolving a dispute keeps the invariant |
| Safety.RulingKeepsSound | src/lib/disputes/review.ts:295-401 | a ruling keeps the invariant unless it reopens a finished bet |
| Safety.WorkerKeepsSound | src/workers/settlement.worker.ts:44-302 | every step of every worker keeps the invariant, with no proviso |
| Safety.StepKeepsSound | README.md:107-118 | every step of the protocol that reopens nothing keeps the invariant |
| Runs.RunKeepsLegal | README.md:107-118 | so does every run, in any interleaving, together with the transactions' accounts, the referees behind results and the separation of customers' texts from the code's |
| Runs.StepKeepsRouted | src/lib/ledger/escrow.ts:139-470 | every step, with no proviso, keeps each transaction between the accounts its key stands for |
| Staffing.StepStaffs | src/lib/referees/service.ts:289-557 | an assignment somebody took has a referee until it is put back or cancelled, and for good behind a result, so a settlement always finds one |
| Runs.EscrowFollowsPhase | src/workers/settlement.worker.ts:108-122 | in every reachable state a bet's escrow holds nothing, one stake or two by its phase; a settlement commits exactly when the money can move, and can fail only for a zero payout, a frozen account or a key whose text a customer has, each error naming its own reason |
| Runs.MoneyIsConserved | src/lib/ledger/audit.ts:112-138 | in every reachable state balances sum to zero, each is the sum of its entries, each entry's recorded balance is what its account came to, each transaction sums to zero, and only the inbound payments account can be negative, withdrawals put back included |
| Runs.RunAppends | src/lib/ledger/transfer.ts:196-228 | no run changes or removes an entry or a transaction |
| Runs.ReplayMovesNothing | src/lib/ledger/transfer.ts:91-113 | whatever ran in between, repeating a movement under its key changes nothing, and another movement under that key is refused, as is a withdrawal that was put back |
| Runs.LeavesOnce | src/workers/settlement.worker.ts:88-91 | SETTLED, CANCELLED and VOIDED are final: the row is frozen and its escrow never posted to again |
| Runs.OneWayOut | src/workers/dispute-escalation.worker.ts:150-228 | every transaction that debits a bet's escrow, whatever its key, is filed under the one way that bet left; every one that credits it is one of its two holds; a bet that has left paid out exactly what was paid in |
| Exits.LeavingPaysExactly | src/lib/lobby/match-lifecycle.ts:92-110 | whatever step takes a bet out pays exactly what that way owes, account by account: one stake, both stakes, or the settlement's terms |
| Exits.StayingPaysExactly | README.md:111-114 | while a bet stays in, whatever step is aimed at it moves exactly the stakes of the players who join by it, each once, and nothing else, account by account |
| Exits.VoidPays | src/lib/compliance/account-actions.ts:175-186 | every kind of void gives each player their own stake and nobody else anything |
| History.StepAppends | src/lib/ledger/transfer.ts:211-228 | a step adds entries to no escrow but its own bet's |
| History.OthersStay | src/workers/settlement.worker.ts:72-80 | a step writes no bet row but its own |
| BetTerms.StepGoesOn | src/lib/lobby/service.ts:613-666 | no step changes a bet's stake, fee, game, player A or expiry, and none brings it back to OPEN or PENDING_CONSENT |
| Transitions.StepMoves | README.md:107-118 | in every state, every step takes each bet, assignment and dispute along one of that step's own edges or leaves it alone; only a report, a decision or a ruling writes an outcome, its own; only a claim puts a referee in and only the sweep takes one out |
| Transitions.RowActs | src/workers/consent-expiry.worker.ts:31-65 | a lapse, a report, a confirmation and a decision change their bet exactly in the phase they are for, and otherwise nothing |
| Transitions.StageActs | src/lib/referees/service.ts:289-482 | a claim and each of the referee's stages act exactly from the stage before, and otherwise change nothing |
| Transitions.DisputeActs | src/lib/disputes/review.ts:168-196 | escalating and claiming change exactly a dispute that is still OPEN |
| Transitions.FilingActs | src/app/api/bets/[id]/dispute/route.ts:112-151 | filing adds an OPEN dispute exactly on a reported or settled bet, and otherwise changes nothing |
| Transitions.LockedOutDoesNothing | src/workers/settlement.worker.ts:53-60 | a worker that finds the bet's lock taken changes nothing at all |
| Outcomes.ResultPays | src/workers/settlement.worker.ts:191-228 | whoever a report, the referee or a dispute's ruling names is paid all that the fee leaves when that result settles, or on a draw both a half; every other account gains exactly what the terms say |
| Outcomes.ReportIsDue | src/workers/settlement.worker.ts:352-375 | a report is picked up by the scan two minutes later if it was confirmed and never if not, and can be disputed for a day |
| Outcomes.VerificationMakesDue | src/workers/settlement.worker.ts:352-375 | confirming an unrefereed report makes it due by the time it was made, unless a dispute is open; before, it was not due |
| Outcomes.DecisionHandsOver | src/lib/referees/service.ts:509-510 | at every moment after a referee's decision either the route still takes a dispute or the scan picks the bet, never both and never neither |
| Outcomes.RulingIsFinal | src/lib/disputes/review.ts:349-366 | from a ruling on a refereed bet on, the route takes no further dispute of it |
| Outcomes.PaidWasVerified | src/workers/settlement.worker.ts:88-106 | in every reachable state a settled bet was verified, had an outcome and gave up exactly its fee, and the missing-outcome and missing-opponent skips never happen |
| Outcomes.LapseIsFinal | src/workers/consent-expiry.worker.ts:31-65 | an offer that lapses is cancelled in every later state and nobody ever pays into its escrow |
| Caps.ConsentExact | src/lib/ledger/escrow.ts:89-166 | in a sound database consent makes a bet OPEN if and only if the player has the stake, both accounts are usable, no customer has the key's text and the developer's two caps leave room |
| Caps.AcceptExact | src/lib/ledger/escrow.ts:89-166 | and acceptance makes it MATCHED, with that player on it, under the same condition, for a player who is not its maker and is the invited one if there is one |
| Caps.CapChangeGoverns | src/workers/anomaly-detection.worker.ts:428-435 | a changed cap is the one the next stake is held against, and no counter moves with it |
| Caps.StepRespects | src/lib/ledger/escrow.ts:145-163 | no step but a change of caps touches a cap, and none takes a counter up past its own |
| Caps.RunStaysUnderCaps | src/lib/ledger/escrow.ts:145-163 | through every run that changes no cap, what a developer's bets hold in escrow together never passes the cap |
| Reopening.RulingSafeIff | src/lib/disputes/review.ts:337-373 | on a refereed bet a ruling that names an outcome keeps the invariant if and only if the bet has not already left |
| Reopening.ReopenedIsUnsound | src/workers/settlement.worker.ts:108-122 | such a ruling on a finished bet breaks the invariant, and a settlement attempted then fails on the empty escrow |
| Reopening.ReopeningIsReachable | src/lib/disputes/review.ts:349-366 | a concrete run from an empty database reaches that state, and no later run settles the bet |
| Stranded.DrainedForGood | src/lib/ledger/escrow.ts:89-312 | a bet past OPEN with nothing in escrow keeps nothing in escrow and never settles, whatever runs |
| Stranded.ReopenedNeverSettles | src/workers/settlement.worker.ts:108-122 | so a reopened bet never settles in any later run |
| Stranded.WholePotNeverSettles | src/workers/settlement.worker.ts:191-228 | a bet whose fee is the whole pot never settles in any run |
| Stranded.WholePotError | src/workers/settlement.worker.ts:191-228 | with no account frozen it is the zero payout that is refused, unless a customer has the text of an earlier key, which is then refused first |
| Stranded.WholePotIsReachable | src/workers/settlement.worker.ts:124-228 | a stake of 100 at 100% gets there from an empty database |
| LateDispute.OnlyAnEarlierReadingIsLate | src/app/api/bets/[id]/dispute/route.ts:80-96 | once the scan could pick a refereed bet, whatever runs from there on, the route turns away every reading of the bet made then or later |
| LateDispute.LateFilingIsReachable | src/app/api/bets/[id]/dispute/route.ts:112-151 | a concrete run: asked before the deadline, settled, then filed, and the completed assignment is disputed |
| LedgerAudit.SumEscrow | src/workers/ledger-audit.worker.ts:76-87 | the query's sum over a developer's active bets |
| LedgerAudit.VerifyDeveloperEscrowLimits | src/workers/ledger-audit.worker.ts:42-101 | the loop reports each developer whose counter differs from the ledger once, with the figures, and no other, the no-games branch included |
| LedgerAudit.RunFullAudit | src/lib/ledger/audit.ts:154-225 | the report lists exactly the accounts and transactions out of balance and the sum of all entries |
| LedgerAudit.ProcessLedgerAudit | src/workers/ledger-audit.worker.ts:107-146 | healthy is logged exactly when all four checks find nothing |
| LedgerAudit.ActualIsExposure | src/workers/ledger-audit.worker.ts:76-85 | when each escrow holds what its phase says, the sum over active bets is what the counter must read |
| LedgerAudit.AuditPasses | src/workers/ledger-audit.worker.ts:140-146 | after every run the audit is healthy |
| LedgerAudit.HealthyIff | src/lib/ledger/audit.ts:154-225 | the audit is healthy if and only if every account, every transaction and every counter agrees, for all of them and not only the ones it lists |
| LedgerAudit.DriftIsCaught | src/workers/ledger-audit.worker.ts:86-97 | a balance or a counter of a sound database that is off by anything makes the next audit unhealthy |
| LedgerAudit.ReopeningIsInvisible | src/workers/ledger-audit.worker.ts:76-97 | the audit stays healthy after a finished bet is reopened |
| Referees.OfficiatedIff | src/app/api/bets/[id]/dispute/route.ts:129-151 | each step keeps every assignment in the status its bet's phase calls for, if and only if it does not file a dispute on a settled refereed bet |
| Referees.RefereeIsReleased | src/workers/settlement.worker.ts:248-257 | once a refereed bet is settled or voided its assignment is COMPLETED or CANCELLED in every later state |
| Referees.SweepsAreDisjoint | src/workers/bet-expiry.worker.ts:206-277 | no match is picked by both the no-show and the referee sweep of one snapshot: the first has exactly the unrefereed ones untouched for ten minutes |
| Referees.SweepActsOnPicked | src/lib/referees/service.ts:664-734 | unless it throws, the sweep of a picked assignment nobody touched voids the match or puts the assignment back, and then neither sweep picks it again |
| Referees.SweepExact | src/lib/referees/service.ts:664-734 | and it throws only on a void, exactly when the bet's escrow or a player's account is frozen or a customer has the text of one of the two refunds |
| Referees.SweepLeavesUnpicked | src/lib/referees/service.ts:664-734 | for every state and moment the sweep changes nothing that the scan would not pick then |
| Referees.SweepActsIffPicked | src/lib/referees/service.ts:664-734 | and a sweep that commits changes something if and only if the scan would pick the assignment then |
| Referees.RacingStageWins | src/workers/bet-expiry.worker.ts:250-290 | a referee who claims, is ready or starts between the scan and its sweep is left alone for that stage's whole time limit |
| Referees.RacingDecisionWins | src/workers/bet-expiry.worker.ts:250-290 | and a match decided in between is never swept |
| IdempotencyKeys.KeysNeverCollide | src/workers/settlement.worker.ts:131-227 | the texts of any two different movements' keys differ, deposits' credits and withdrawals' reversals included, for ids and customers' texts of any length and spelling |
| KeyColumn.OneRowPerText | prisma/schema.prisma:637-637 | no two transactions have the same text, customers' withdrawals included, while the two sides' texts are apart |
| KeyColumn.LookupIsExact | src/lib/ledger/transfer.ts:92-95 | for a movement not yet made, a row has its text exactly when a customer's request brought it |
| KeyColumn.ClaimedNeverMoves | src/lib/ledger/transfer.ts:97-126 | a movement whose text a customer has is refused in every later state of every run |
| KeyColumn.ClaimedBlocks | src/workers/settlement.worker.ts:131-227 | so no later run settles a bet with a fee whose fee text is taken, or whose release texts are, and none expires one whose refund text is |
| KeyColumn.TextsAreBrought | src/app/api/wallet/deposit/route.ts:103-119 | after any run the customers' texts are exactly those that their accepted deposit and withdrawal requests brought |
| KeyColumn.ConflictIff | src/lib/ledger/transfer.ts:92-126 | after any run from an empty database, a settlement that nothing else stops fails with a key conflict if an earlier request brought the text of a key it needs, and otherwise commits |
| KeyColumn.TakenTextIsReachable | src/lib/validation/schemas.ts:158-161 | a concrete run: a decided bet whose fee text a deposit request took, refused then and after any later run |
| DepositLimits.SetTakesEffect | src/lib/responsible-play/service.ts:144-217 | a lower limit holds at once, a higher one from exactly 24 hours on and the old one until then |
| DepositLimits.RemoveTakesEffect | src/lib/responsible-play/service.ts:237-269 | a removal keeps the limit for exactly 24 hours and then there is none; asked for again it keeps the moment first staged |
| DepositLimits.CancelTakesEffect | src/lib/responsible-play/service.ts:223-231 | a cancellation leaves the stored amount in force at every time |
| DepositLimits.ChangesOnlyTightenAtFirst | src/lib/responsible-play/service.ts:223-269 | no change, read and written in one go, loosens the limit within 24 hours, beyond what was staged already |
| DepositLimits.RacedOnlyTightensAtFirst | src/lib/responsible-play/service.ts:158-216 | a change written over whatever came between loosens nothing within 24 hours beyond what was staged and what its own request had read |
| DepositLimits.ReductionSurvivesIff | src/lib/responsible-play/service.ts:182-216 | a reduction written between another request's reading and its write survives it if and only if the other cancels, writes nothing, read no row or puts no more than the reduced amount in force |
| DepositLimits.ReductionLost | src/lib/responsible-play/service.ts:158-216 | 50 and 300 asked for at a limit of 100, both read first: the later write decides |
| DepositLimits.TidyIsInvisible | src/lib/responsible-play/service.ts:52-72 | a tidied row resolves to the same limit at every later time |
| DepositLimits.ChangesSeeResolved | src/lib/responsible-play/service.ts:168-216 | setting and removing cannot tell a tidied row from an untidied one |
| DepositLimits.CancelSeesStored | src/lib/responsible-play/service.ts:223-231 | cancelling agrees on the two exactly when there was nothing to tidy |
| DepositLimits.CancelAfterMaturity | src/lib/responsible-play/service.ts:223-231 | 100 or 200, depending on whether the worker came first |
| LimitActivation.LimitTable.Change | src/lib/responsible-play/service.ts:144-269 | the customer's three requests, with the refusal of an invalid amount |
| LimitActivation.LimitTable.ReadMatured | src/workers/deposit-limit-activation.worker.ts:44-51 | at most 200 matured rows, all of them if there are fewer |
| LimitActivation.LimitTable.ProcessActivationScan | src/workers/deposit-limit-activation.worker.ts:30-85 | delete, read, then one guarded write a row, with customers' requests in between and writes failing anywhere |
| LimitActivation.RequestKeepsFresh | src/workers/deposit-limit-activation.worker.ts:57-64 | whenever it is written, a request whose clock reading is less than a day older than the scan's never leaves the guard matching a row whose staged amount changed |
| LimitActivation.RequestADayOldIsOverwritten | src/workers/deposit-limit-activation.worker.ts:57-64 | at exactly a day it does: the staged increase is lost |
| LimitActivation.FoldsWriteWhatIsStaged | src/workers/deposit-limit-activation.worker.ts:55-70 | in any interleaving each write puts in the amount staged in the row at that moment |
| LimitActivation.ScanTidiesAll | src/workers/deposit-limit-activation.worker.ts:30-85 | a scan that reads every matured row and meets no failure or request leaves each slot exactly what it resolves to: matured removals gone, matured increases in, nothing due left staged |
| LimitRefinement.ChangeRelates | src/lib/responsible-play/service.ts:144-269 | one request keeps the stalled row no looser than the worker's, and equal to it up to tidying unless it cancels something matured |
| LimitRefinement.StalledIsNeverLooser | src/workers/deposit-limit-activation.worker.ts:7-11 | through any number of scans racing with any requests in any order, a worker that never runs leaves no limit looser at any time |
| LimitRefinement.WorkerIsInvisible | src/workers/deposit-limit-activation.worker.ts:7-11 | with clock readings in the order of the writes and each cancellation in time, all limits are equal at all later times |
| UnverifiedResults.AlertDesk.EscalateUnverifiedResult | src/workers/unverified-result.worker.ts:34-174 | one visit: an alert a bet, from the third recent alert a HIGH one and half the cap, and the bet flagged |
| UnverifiedResults.CapCutCompounds | src/workers/unverified-result.worker.ts:108-157 | n different bets of a developer within a day leave n + max(0, n - 2) alerts and the cap divided by 2^max(0, n - 2), rounded up |
| UnverifiedResults.HighFromTheThird | src/workers/unverified-result.worker.ts:86-132 | within a day each of n bets has one alert naming it, none of them HIGH, and the HIGH ones are max(0, n - 2) |
| UnverifiedResults.OnlyUnconfirmedCounts | src/workers/unverified-result.worker.ts:50-67 | a confirmed result or a bet not waiting on one raises no alert and cuts no cap |
| UnverifiedResults.RescanChangesNothing | src/workers/unverified-result.worker.ts:69-84 | visiting bets again changes nothing |
| AnomalyDetection.FindStreak | src/workers/anomaly-detection.worker.ts:201-226 | the one-pass loop finds the longest run of one winner, draws and unmatched bets left out, and the winner of the first run that long |
| AnomalyDetection.DetectSingleWinnerPattern | src/workers/anomaly-detection.worker.ts:177-259 | an alert exactly when there are 11 bets, no recent alert and some run of 11; critical above 20 |
| AnomalyDetection.CountWins | src/workers/anomaly-detection.worker.ts:98-115 | every player's wins and bets are exact, and the bet counts add up to two for each counted bet |
| AnomalyDetection.WinsAreBets | src/workers/anomaly-detection.worker.ts:102-115 | nobody wins more bets than they play |
| AnomalyDetection.FewAreSkewed | src/workers/anomaly-detection.worker.ts:117-123 | nine times the players over the thresholds is at most the decisive bets, so at most 11 in a sample of 100 |
| AnomalyDetection.DetectWinRateSkew | src/workers/anomaly-detection.worker.ts:73-171 | one alert for each player over the thresholds and not flagged recently, with the figures |
| AnomalyDetection.ScannedDeveloper.ReduceEscrowCap | src/workers/anomaly-detection.worker.ts:419-442 | the stored cap becomes half the cap the scan loaded; the platform's own developer is left alone |
| AnomalyDetection.ScannedDeveloper.Scan | src/workers/anomaly-detection.worker.ts:525-537 | the cuts of one scan are one for each HIGH skew, one for a streak below critical and one for each other detector that cuts; a freeze exactly for a critical streak of a third-party developer |
| AnomalyDetection.CutsOnce | src/workers/anomaly-detection.worker.ts:428-435 | any positive number of cuts in one scan halves the cap once |
| AnomalyDetection.NothingLoadedNothingCut | src/workers/anomaly-detection.worker.ts:419-427 | the platform's own developer, or one without a limit row, keeps the cap however many detectors cut |
| AnomalyDetection.WinnerIsPaidAll | src/workers/anomaly-detection.worker.ts:206-212 | the winner the detectors count is whoever a settlement pays all that the fee leaves |
| WebhookDelivery.DeliveryLog.DeliverWebhook | src/workers/webhook-delivery.worker.ts:50-196 | one visit: delivered if the request was answered well, failed if the webhook was switched off or this was the fifth attempt, or put back with the next wait |
| WebhookDelivery.DeliveryLog.ProcessWebhookDeliveryScan | src/workers/webhook-delivery.worker.ts:202-238 | the batches cover the list in order, five at a time, and each row found is visited once |
| WebhookDelivery.RetriesAreBounded | src/workers/webhook-delivery.worker.ts:133-195 | every run ends within five attempts; giving up on an active webhook takes all five and at least 156 minutes; no wait exceeds two hours |
| WebhookDelivery.DeliveredIffAnswered | src/workers/webhook-delivery.worker.ts:119-195 | over every run: delivered if and only if the last request was answered well, with every one before it failed; failed if and only if the webhook was switched off or the fifth request failed; else due again after this attempt's wait; the attempts counted are the requests sent |
| WebhookDelivery.BackoffGrows | src/workers/webhook-delivery.worker.ts:164-168 | the first retry comes a minute later and no wait is shorter than the one before |
| Recorder.SlotPool.Start | src/recorder/index.ts:88-89 | the first free slot, or the thrown error if there is none |
| Recorder.SlotPool.Finish | src/recorder/index.ts:193-193 | the job's slot goes back to the end of the queue |
| Recorder.SlotsNeverRunOut | src/recorder/index.ts:85-89 | free and used slots partition the range through any run, so a job within the limit always gets one |
| Recorder.ListingIsRecordingOrder | src/recorder/index.ts:144-145 | up to a thousand segments the sorted listing is the recording order |
| Recorder.NewestIsLeftOut | src/recorder/index.ts:145-145 | so the listing without its last file leaves out the segment being written |
| Recorder.NewestIsUploadedLate | src/recorder/index.ts:136-145 | from the thousand-and-first on it does not |
| Recorder.MatchRecorder.UploadFinished | src/recorder/index.ts:143-152 | with a failure at any upload, segments are stored in order without a gap, exactly up to the failed one, none while it is the newest of a running capture |
| Recorder.MatchRecorder.RecordMatch | src/recorder/index.ts:154-178 | a recording is sealed exactly when the grace time after the match runs out with the capture alive, the last upload is not interrupted, there is a segment and the join succeeds; it then has every segment stored once and joined in recording order; failed uploads before the end do not matter |
| DisputeEvidence.ClockReadsBack | src/components/disputes/DisputeEvidence.tsx:74-79 | a printed time followed by any text parses back to its seconds modulo a hundred hours, the one exception being text that goes on with a colon and two digits |
| DisputeEvidence.MatchesLastTwo | src/components/disputes/DisputeEvidence.tsx:75-78 | the leftmost match takes the last one or two digits before the first colon |
| DisputeEvidence.RelativeReadsBack | src/components/disputes/DisputeEvidence.tsx:177-188 | an event's printed time reads back as its distance, to the nearest second, exactly when that is under a hundred hours |
| DisputeEvidence.SignTellsBefore | src/components/disputes/DisputeEvidence.tsx:177-180 | the printed sign is minus exactly for events more than half a second before the start |
| DisputeEvidence.SignedReadsBack | src/components/disputes/DisputeEvidence.tsx:177-188 | sign and time read back as the signed distance, under a hundred hours |

## Left out

- Emails, webhook bodies and signatures, alerts to staff, logging, queues and health checks: input and output around the protocol. In particular the message that follows a skipped settlement is not modelled.
- The database engine: a serializable transaction is one step, an advisory lock a boolean, a guarded update a compare-and-set. Serialization retries are further steps.
- The request handlers are functions on the database's value rather than methods; what they check before the transaction (sessions, limits, KYC, withdrawal cooldowns, who may rule on a dispute) is left out, which only allows more runs. The dispute route's deadline check is stated in `LateDispute` and is not part of the step, since it is made on an earlier reading.
- Consent, acceptance, result reports and verification outside the lobby and the referee flow follow the lifecycle table in the repository's own README, since only their tables remain in the code.
- Which accounts are frozen, which developer owns a game and which developers have a limit row do not change during a run.
- The payout-failed webhook, which looks for a withdrawal still pending while the ledger records withdrawals as completed. Fees on payments, recordings' retention, referees' tallies and reputation, audit events and the bets the seed script inserts without escrow.
- A replayed transfer's type and bet id are compared in the code; here the key names the movement, which fixes both.
- What has become of a customer's row, pending, completed or failed, since its text refuses another movement in each case: only the message differs, and where `collectFee` asks, its place among the other refusals. That a deposit is credited to the request it was made for is not modelled. Lengths of texts are in characters.
- `LimitActivation` and `LimitRefinement` take a customer's request as one step; a write that rests on an earlier reading is stated in `DepositLimits`.
- Rapid-settlement and volume-spike detection: their queries are not modelled, only that they may cut the cap. Rates are compared as fractions, which the code's floating point agrees with for samples of this size.
- Writes of the unverified-result worker are one step a visit; a crash between them is not modelled.
- Capturing video, hashing, joining and sealing: only the file list, the uploads and the slots are modelled.
- Player-risk and money-laundering scans, lobby expiry, streams, voice rooms, the API, the widget and all pages but the two time functions.
