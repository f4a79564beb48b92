# Affiliate platform: verified model

This project models the back end of an affiliate platform for betting houses and proves what its parts
promise each other.  It is plain Dafny 4.11; `dafny verify dfyconfig.toml` checks all of it.

| file | part of the system |
|---|---|
| Basics.dfy, Decimals.dfy | optional values, text trimming, decimal digits |
| LinkPool.dfy, LinkProtocol.dfy, LinkDelivery.dfy, LinkResults.dfy, LinkRaces.dfy | handing out campaign links: tables, the transaction, the interleaved protocol of lock, checks, commit and release for the Betano and Esportiva families, and what its results mean |
| Backfill.dfy | the per-minute scheduler over one shared, mutated row array |
| PrizeLedger.dfy, PrizeEngine.dfy | CPA prizes: counters, awards, bonus balances, races and life cycle |
| PrizeTotals.dfy, PrizeVersions.dfy | batch and live totals; rule versions and day cut-offs |
| Referral.dfy, NetworkMembers.dfy | the referral graph and the two searches that collect a head's network |
| Balance.dfy, BalanceTerms.dfy, BalanceScope.dfy, Commission.dfy | the balance kept globally and per house; its amounts and what counts towards it, in plain terms; what one campaign costs along the referral chain |
| RefreshTokens.dfy, SessionSurvival.dfy | refresh-token families: rotation, duplicate window, revocation; login lockout; which sessions survive a block |
| RefreshRaces.dfy, LoginRaces.dfy | refreshes and logins that overlap |
| PoolSheet.dfy, Money.dfy | sheet columns, marking and reading again; money text |
| SyncHistory.dfy, MetricsRollup.dfy | metric syncs with their change log; the report with five accounts |

Runs are sequences of steps chosen freely by an environment; an invariant is proved for every state of every
run.  Code that updates things step by step is a method proved against a function, and the results are proved
about the function.  JavaScript numbers are exact integers or reals.  Instants and days are integers.

Where the program departs from its own text, the model follows the program:

- The comment on the change log (backend-vexxa/prisma/schema.prisma:480-484) lists seven fields that are logged;
  the comparison also covers net result, withdrawals and volume.
- A user who no longer exists makes a link assignment report `all_conflicts`
  (backend-vexxa/src/modules/betano-link-pool/application/betano-assignment.service.ts:105-112).
- A Betano call looks for some active link of the user with both rates, but its transaction updates any active link
  of the user in the house, so it can report success on a link without rates; `LinkPool.RatesCanBeMissing` is such a
  case and `LinkDelivery.SuccessIsRatedExactlyWhen` the exact condition.
- Life-cycle calls on an award check its status before the transaction and do not check it again, so the promise that
  an award is credited once holds exactly under the condition of `PrizeEngine.BonusIsConserved`.
- The comment on `revokeAllUserTokens` (backend-vexxa/src/modules/auth/application/auth.service.ts:441) says that a block
  calls it.  Nothing does: a block writes the status only, and `SessionSurvival.BlockedSessionSurvivesExactlyWhen` says
  which sessions come back with the unblock.
- A same-day edit is announced as a risk of overlap; `PrizeVersions.StepIsNeverTwiceExactlyWhen` says when it is one.
- The balance's network search does not mark the head as seen, so a head on a referral cycle of at most ten users
  is a member of its own network; `NetworkMembers.MembersAreTheNetwork` covers that case.
- A second sync of an unchanged sheet is meant to log nothing.  It logs a row again when the deposit has
  fractions of a cent, because the column rounds, and when the stored row has figures that the update leaves alone;
  the exact condition is proved.
- Expiry is tested in two ways: a live token still works at the very instant it expires, a successor must outlive it.

## Model

| member | source | states |
|---|---|---|
| LinkPool.TransactKeepsHouseUnique | backend-vexxa/src/modules/betano-link-pool/application/betano-assignment.service.ts:149-204 | a committed assignment keeps the campaigns of a house's active links distinct, whatever was read before it |
| LinkPool.TransactKeepsFamilyUnique | backend-vexxa/src/modules/betano-diario-link-pool/application/betano-diario-assignment.service.ts:128-200 | a committed assignment whose campaign is free in the other house keeps campaigns distinct across both houses |
| LinkPool.NoConflictFreesOtherHouse | backend-vexxa/src/modules/betano-link-pool/application/betano-assignment.service.ts:132-147 | the conflict check clears the other house although it leaves out the user's own link |
| LinkPool.TransactKeepsOneLinkPerUser | backend-vexxa/src/modules/betano-link-pool/application/betano-assignment.service.ts:151-181 | update-or-create leaves each user with one active link per house |
| LinkPool.TransactKeepsCommission | backend-vexxa/src/modules/betano-link-pool/application/betano-assignment.service.ts:155-171 | no transaction loses a commission that some link had stored |
| LinkPool.TransactDelivers | backend-vexxa/src/modules/betano-link-pool/application/betano-assignment.service.ts:149-192 | after every commit, whichever of the user's active links the database chose, that link has the row's campaign and affiliate id, the request is fulfilled with the row's URL, and nothing else changed; its rates are the default's CPA and revenue share where the default is applied (Esportiva: whenever the job has a commission), otherwise those the link had, none on a new link |
| LinkPool.OutcomeMeans | backend-vexxa/src/modules/betano-link-pool/application/betano-assignment.service.ts:149-204 | when a transaction commits, collides with the index, or finds the request no longer pending: each exactly for its condition on the tables |
| LinkPool.CandidatesMean | backend-vexxa/src/modules/betano-link-pool/application/betano-assignment.service.ts:100-103 | the candidates are exactly the unused rows |
| LinkPool.HasCommissionMeans | backend-vexxa/src/modules/betano-link-pool/application/betano-assignment.service.ts:69-78 | a commission counts as set exactly if some link of the user in the house has both rates |
| LinkPool.RatedForEveryChoice | backend-vexxa/src/modules/betano-link-pool/application/betano-assignment.service.ts:69-78 | without the default, the written link has both rates for every choice of the database if and only if every active link of the user it can choose has them; having found one with rates is not enough |
| LinkPool.FreeCampaignAllRated | backend-vexxa/src/modules/betano-link-pool/application/betano-assignment.service.ts:149-154 | for a campaign free in the house, every active link of the user there can be chosen |
| LinkPool.RatesCanBeMissing | backend-vexxa/src/modules/betano-link-pool/application/betano-assignment.service.ts:151-171 | two links of one user, one without rates: the commission check passes, the transaction picks the other one and commits |
| LinkProtocol.MutualExclusion | backend-vexxa/src/modules/betano-link-pool/application/betano-assignment.service.ts:268-302 | in every interleaving, crashes and lost lock replies included, in which no section outlives the 30 s lock, at most one worker is inside, and the lock is its own |
| LinkProtocol.ReleaseFreesOnlyOwnLock | backend-vexxa/src/modules/betano-link-pool/application/betano-assignment.service.ts:293-302 | with distinct tokens a release frees only the releaser's lock, even in runs where locks lapse |
| LinkProtocol.HouseUniqueAlways | backend-vexxa/src/modules/betano-link-pool/application/betano-assignment.service.ts:149-204 | active links stay unique per campaign and house in every run, lapsed locks and lost replies to commits included |
| LinkProtocol.OneLinkPerUserAlways | backend-vexxa/src/modules/betano-link-pool/application/betano-assignment.service.ts:151-181 | one active link per user and house is kept in every run from a start state that has it |
| LinkProtocol.FamilyInvariants | backend-vexxa/src/modules/betano-diario-link-pool/application/betano-diario-assignment.service.ts:113-200 | in every timely run a campaign that passed the check is still free in the other house at the commit |
| LinkProtocol.NoCampaignInBothHouses | backend-vexxa/src/modules/betano-diario-link-pool/application/betano-diario-assignment.service.ts:128-200 | no two active links of the two houses carry one campaign, in every timely run, whatever row arrays the workers use |
| LinkDelivery.SuccessComesFromCommit | backend-vexxa/src/modules/betano-link-pool/application/betano-assignment.service.ts:206-258 | `assigned: true` is only ever returned after the caller's own commit, with that row's data |
| LinkDelivery.SuccessIsDelivered | backend-vexxa/src/modules/betano-link-pool/application/betano-assignment.service.ts:66-258 | whenever a Betano call returns `assigned: true`, in every run, the link written at its commit carries the campaign and the affiliate id, has the default's CPA and revenue share if the default was applied and otherwise the rates it had, and the request was fulfilled with the URL; both rates are set exactly if the default was applied or the link had them |
| LinkDelivery.SuccessIsRatedExactlyWhen | backend-vexxa/src/modules/betano-link-pool/application/betano-assignment.service.ts:66-171 | in every run, a Betano call about to commit ends with rates set for every choice of the database if and only if it applies the default, its request is gone, or every active link of the user it can choose has both rates |
| LinkDelivery.UserRatedStays | backend-vexxa/src/modules/betano-link-pool/application/betano-assignment.service.ts:149-171 | once all active links of a user in a house have rates, no later call takes them away, as long as Esportiva calls carry a commission |
| LinkDelivery.OneLinkIsRated | backend-vexxa/src/modules/betano-link-pool/application/betano-assignment.service.ts:69-171 | with one active link per user and house at the start, success always has rates |
| LinkDelivery.EsportivaSuccess | backend-vexxa/src/modules/esportiva-link-pool/application/esportiva-assignment.service.ts:125-244 | an Esportiva success wrote something exactly when its request was still pending at the commit; then the link carries the campaign and the job's commission, if it has one |
| LinkDelivery.FulfilledAtMostOnce | backend-vexxa/src/modules/betano-link-pool/application/betano-assignment.service.ts:51-64 | a request is fulfilled once at most: in timely runs, and with the in-transaction re-check in all runs |
| LinkDelivery.FulfilledAgainExactlyWhen | backend-vexxa/src/modules/betano-link-pool/application/betano-assignment.service.ts:149-204 | in every run, a commit for a request that is fulfilled already fulfils it again if and only if it is a Betano commit that meets no index collision |
| LinkRaces.RequestCanBeFulfilledTwice | backend-vexxa/src/modules/betano-link-pool/application/betano-assignment.service.ts:41-258 | a run from an empty link table: the second call starts when the lock of the first has lapsed, and both commit with a row of their own |
| LinkDelivery.CollisionMovesOn | backend-vexxa/src/modules/betano-link-pool/application/betano-assignment.service.ts:193-204 | a worker's next transaction follows only an index collision, changed nothing before, and tries a strictly later candidate |
| LinkResults.RowBehindSuccess | backend-vexxa/src/modules/betano-link-pool/application/betano-assignment.service.ts:87-258 | every success stands for an unused row that the call was given, and answers with its link, number and campaign |
| LinkResults.DefaultOnlyWithoutRates | backend-vexxa/src/modules/betano-link-pool/application/betano-assignment.service.ts:69-85 | in every run the default is applied exactly where the check found no link with both rates |
| LinkResults.RefusalMeans | backend-vexxa/src/modules/betano-link-pool/application/betano-assignment.service.ts:47-115 | every refusal is given for its own reason, at the step that finds it |
| LinkResults.SkippedMeans | backend-vexxa/src/modules/betano-link-pool/application/betano-assignment.service.ts:123-147 | a candidate is passed over exactly for a malformed link or a campaign active on another link of the family |
| LinkResults.SixAttempts | backend-vexxa/src/modules/betano-link-pool/application/betano-assignment.service.ts:268-291 | in every run a call gives up on the lock after exactly six attempts with the five waits in between |
| LinkResults.GrantMeans | backend-vexxa/src/modules/betano-link-pool/application/betano-assignment.service.ts:269-283 | an attempt writes the token for thirty seconds unless a lock is still held |
| Backfill.TryCandidate | backend-vexxa/src/modules/betano-link-pool/application/betano-assignment.service.ts:122-219 | one candidate on the shared row objects: the outcome, and the row overwritten exactly on success |
| Backfill.TryCandidates | backend-vexxa/src/modules/betano-link-pool/application/betano-assignment.service.ts:122-260 | the candidate loop in place equals the scan on values, and changes one row at most |
| Backfill.TryAssign | backend-vexxa/src/modules/betano-link-pool/application/betano-assignment.service.ts:50-260 | a whole call on the shared array equals its specification on values |
| Backfill.AnyFree | backend-vexxa/src/modules/betano-link-pool/application/betano-assignment.service.ts:100-103 | a candidate exists exactly if some row is free |
| Backfill.TryAssignTakesFreeRow | backend-vexxa/src/modules/betano-link-pool/application/betano-assignment.service.ts:100-260 | a call succeeds exactly if it consumes a row that was free, and reports an empty pool only if none was |
| Backfill.ScanTakesFirst | backend-vexxa/src/modules/betano-link-pool/application/betano-assignment.service.ts:122-260 | the scan takes the first unused row that is neither malformed nor in use |
| Backfill.CallAnswers | backend-vexxa/src/modules/betano-link-pool/application/betano-assignment.service.ts:47-260 | every answer of a call, whatever other processes write meanwhile, is given for its reason; a success takes the first row of use |
| Backfill.BackfillPending | backend-vexxa/src/modules/betano-link-pool/application/betano-scheduler.service.ts:86-129 | the batch loop: rows in memory, rows to mark, counters and reasons, with the early stop |
| Backfill.CycleMarksExactlyTheFlippedRows | backend-vexxa/src/modules/betano-link-pool/application/betano-scheduler.service.ts:90-137 | a cycle's marks have distinct rows and requests, each row had a link but neither status nor e-mail before and now shows `marcado` and its e-mail, and no other row is flipped |
| Backfill.EarlyStopLosesNothing | backend-vexxa/src/modules/betano-link-pool/application/betano-scheduler.service.ts:116-121 | stopping at the first empty pool assigns the same rows to the same requests as running to the end |
| Backfill.CountersAddUp | backend-vexxa/src/modules/betano-link-pool/application/betano-scheduler.service.ts:106-128 | assigned and skipped add up to the calls made |
| Backfill.MarksAreTheSuccesses | backend-vexxa/src/modules/betano-link-pool/application/betano-scheduler.service.ts:106-109 | the marks for the sheet are those of the successful calls, with the row and e-mail each answered |
| Backfill.ReasonsAreCounted | backend-vexxa/src/modules/betano-link-pool/application/betano-scheduler.service.ts:110-112 | the statistics hold, reason by reason, how often it was given |
| Backfill.CycleRates | backend-vexxa/src/modules/betano-link-pool/application/betano-scheduler.service.ts:94-105 | a call that writes a default writes its own request's CPA, and its revenue share or zero |
| PrizeLedger.StaleCommitCollides | backend-vexxa/src/modules/cpa-prize/application/cpa-prize-engine.service.ts:330-388 | a committer with a stale progress value collides and writes nothing; a current one brings the stored count to what was earned |
| PrizeLedger.CommitKeepsContiguous | backend-vexxa/src/modules/cpa-prize/application/cpa-prize-engine.service.ts:297-395 | generation keeps cycles 1..n per version and user, and never lowers a count |
| PrizeLedger.CommitCounts | backend-vexxa/src/modules/cpa-prize/application/cpa-prize-engine.service.ts:330-370 | as many awards appear as the stored count grows |
| PrizeLedger.EarnedAtLeast | backend-vexxa/src/modules/cpa-prize/application/cpa-prize-engine.service.ts:302 | a total earns n prizes or more if and only if it pays for n in full |
| PrizeLedger.CommitAppends | backend-vexxa/src/modules/cpa-prize/application/cpa-prize-engine.service.ts:297-395 | an evaluation appends available awards with its version's prize type and value in consecutive cycles, as many as the total pays for in full and one more would not be, and changes nothing else but its key's progress |
| PrizeLedger.GoesOnExactlyWhen | backend-vexxa/src/modules/cpa-prize/application/cpa-prize-admin.service.ts:410-571 | which calls get through: the owner with an available award, an administrator with a requested or unfinished one |
| PrizeLedger.WriteMeans | backend-vexxa/src/modules/cpa-prize/application/cpa-prize-admin.service.ts:417-571 | a write sets one award's status; an approval credits a balance prize to its owner, and nothing else moves money |
| PrizeEngine.PrizeStore.GenerateForUser | backend-vexxa/src/modules/cpa-prize/application/cpa-prize-engine.service.ts:297-395 | one evaluation of one user against the stored tables; `CommitAppends` says what it appends |
| PrizeEngine.PrizeStore.EvaluateTotals | backend-vexxa/src/modules/cpa-prize/application/cpa-prize-engine.service.ts:127-139 | the loop over all totals |
| PrizeEngine.PrizeStore.RequestRedemption | backend-vexxa/src/modules/cpa-prize/application/cpa-prize.service.ts:138-168 | redemption with its three error cases, decided on an earlier read and written unconditionally |
| PrizeEngine.PrizeStore.ApproveRedemption | backend-vexxa/src/modules/cpa-prize/application/cpa-prize-admin.service.ts:410-470 | approval, decided on an earlier read: balance prizes are credited and the award is set to paid whatever its status is by then |
| PrizeEngine.PrizeStore.RejectRedemption | backend-vexxa/src/modules/cpa-prize/application/cpa-prize-admin.service.ts:475-528 | rejection of an award that an earlier read found requested |
| PrizeEngine.PrizeStore.CancelAward | backend-vexxa/src/modules/cpa-prize/application/cpa-prize-admin.service.ts:533-571 | cancellation of an award that an earlier read found neither paid nor cancelled |
| PrizeEngine.CyclesAreNumberedAlways | backend-vexxa/src/modules/cpa-prize/application/cpa-prize-engine.service.ts:297-395 | under arbitrary interleaving of evaluators, without any lock, the unique constraint alone keeps cycles equal to 1..awardsGenerated |
| PrizeEngine.LosersWriteNothing | backend-vexxa/src/modules/cpa-prize/application/cpa-prize-engine.service.ts:375-388 | in such runs the loser of a race changes nothing at all |
| PrizeEngine.BonusIsConserved | backend-vexxa/src/modules/cpa-prize/application/cpa-prize-admin.service.ts:410-571 | over every run of overlapping calls a user's bonus grows by exactly the value of the paid balance awards, each once, if and only if no call writes to one of them after it was paid |
| PrizeEngine.BonusGrowsBy | backend-vexxa/src/modules/cpa-prize/application/cpa-prize-admin.service.ts:410-571 | in every run the bonus exceeds the value of the paid balance awards by the values of the awards that were written again after being paid |
| PrizeEngine.OverlappingApprovalsCreditTwice | backend-vexxa/src/modules/cpa-prize/application/cpa-prize-admin.service.ts:417-441 | two approvals that both read before either writes credit an award twice |
| PrizeEngine.AloneIsSafe | backend-vexxa/src/modules/cpa-prize/application/cpa-prize-admin.service.ts:410-571 | while no two calls on one award overlap, no write hits a paid award and none overrules a status |
| PrizeEngine.LifeCycleIsKeptExactlyWhen | backend-vexxa/src/modules/cpa-prize/application/cpa-prize-admin.service.ts:410-571 | every step of a run takes an allowed status step if and only if no write overrules a status set since its read |
| PrizeEngine.AwardsOnlyAdvance | backend-vexxa/src/modules/cpa-prize/application/cpa-prize-admin.service.ts:410-571 | unless a write overrules a status set since its read, PAID and CANCELLED are final and REJECTED can only become CANCELLED |
| PrizeEngine.CancelledIsNotReissued | backend-vexxa/src/modules/cpa-prize/application/cpa-prize-admin.service.ts:533-571 | no other award ever has the version, user and cycle of a cancelled one |
| PrizeEngine.GeneratedIsRunningMax | backend-vexxa/src/modules/cpa-prize/application/cpa-prize-engine.service.ts:302-365 | awards ever generated equal the running maximum of what the totals earned, over totals that rise and fall |
| PrizeEngine.AwardsAreTheGreatestPaidFor | backend-vexxa/src/modules/cpa-prize/application/cpa-prize-engine.service.ts:302-365 | the number of awards of a version and user is the greatest n such that n is 0 or some evaluation had total >= n * cpaPerPrize |
| PrizeEngine.AwardsCarryTheirPrize | backend-vexxa/src/modules/cpa-prize/application/cpa-prize-engine.service.ts:330-348 | in every interleaved run each new award carries the prize of the version that was evaluated, and the total read had paid for its cycle |
| Referral.DownlineIsByAncestors | backend-vexxa/src/modules/cpa-prize/application/cpa-prize-engine.service.ts:246-270 | the downline are the users other than the head whose chain meets the head within ten hops |
| Referral.SearchComplete | backend-vexxa/src/modules/cpa-prize/application/cpa-prize.service.ts:221-246 | a layered search that ran out of users or levels has found the downline |
| Referral.DepthIsFirstMeeting | backend-vexxa/src/modules/dashboard/application/dashboard-balance.service.ts:913-936 | depth is the first hop at which the chain meets the head |
| Referral.AnchorIsDepthOne | backend-vexxa/src/modules/dashboard/application/dashboard-balance.service.ts:899-936 | the anchor is the ancestor one hop below the head |
| PrizeTotals.ComputeOwnTotals | backend-vexxa/src/modules/cpa-prize/application/cpa-prize-engine.service.ts:165-231 | own totals per user are the sums over the campaigns mapped to them |
| PrizeTotals.BuildChildren | backend-vexxa/src/modules/cpa-prize/application/cpa-prize-engine.service.ts:233-244 | the adjacency map lists exactly each parent's children |
| PrizeTotals.VisitLayer | backend-vexxa/src/modules/cpa-prize/application/cpa-prize-engine.service.ts:252-266 | one layer counts every unseen user once and queues exactly their children |
| PrizeTotals.SumDownline | backend-vexxa/src/modules/cpa-prize/application/cpa-prize-engine.service.ts:248-267 | the search below a head sums the own totals of the downline, the head's left out, on any graph |
| PrizeTotals.ComputeNetworkTotals | backend-vexxa/src/modules/cpa-prize/application/cpa-prize-engine.service.ts:203-270 | the batch holds exactly the heads with a positive total, each with that total |
| PrizeTotals.CollectLayer | backend-vexxa/src/modules/cpa-prize/application/cpa-prize.service.ts:231-245 | one layer of the live search |
| PrizeTotals.NetworkTotal | backend-vexxa/src/modules/cpa-prize/application/cpa-prize.service.ts:215-278 | the live total is the sum over the campaigns of the downline, on any graph |
| PrizeTotals.BatchAgreesWithLive | backend-vexxa/src/modules/cpa-prize/application/cpa-prize.service.ts:192-278 | batch and live network totals agree on every graph when a campaign has one owner |
| PrizeTotals.IndividualAgreesWithLive | backend-vexxa/src/modules/cpa-prize/application/cpa-prize.service.ts:192-213 | the same for the individual totals |
| PrizeTotals.DownlineMeans | backend-vexxa/src/modules/cpa-prize/application/cpa-prize-engine.service.ts:233-270 | the downline are the users who are linked to the head by at most ten referrals |
| PrizeTotals.TotalsAreOfTheDays | backend-vexxa/src/modules/cpa-prize/application/cpa-prize.service.ts:192-278 | the live total, and the engine's with one owner per campaign, is the sum over the days of data that lie in the window and house of the version and belong to a campaign of the downline |
| NetworkMembers.DirectMembers | backend-vexxa/src/modules/dashboard/application/dashboard-balance.service.ts:899-915 | the direct referrals, each with the rates of its own links |
| NetworkMembers.SearchDown | backend-vexxa/src/modules/dashboard/application/dashboard-balance.service.ts:913-936 | after the search exactly the users within ten referrals are met, with level and anchor entry |
| NetworkMembers.LoadNetworkMembers | backend-vexxa/src/modules/dashboard/application/dashboard-balance.service.ts:848-978 | the members in table order, with level and anchor rates |
| NetworkMembers.CpaRatesMean | backend-vexxa/src/modules/dashboard/application/dashboard-balance.service.ts:899-907 | an anchor's CPA rate under a key is that of its last link there with a positive one |
| NetworkMembers.RevRatesMean | backend-vexxa/src/modules/dashboard/application/dashboard-balance.service.ts:899-907 | the same for revenue shares |
| NetworkMembers.MembersAreTheNetwork | backend-vexxa/src/modules/dashboard/application/dashboard-balance.service.ts:848-978 | on any graph: exactly the users with a link at distance 1..10, each once, with level equal to the distance and the rates of the ancestor one hop below the head |
| NetworkMembers.DistanceIsUnique | backend-vexxa/src/modules/dashboard/application/dashboard-balance.service.ts:913-936 | without cycles there is one distance only, and the head is no member |
| NetworkMembers.LoadNetworkMembersFraud | backend-vexxa/src/modules/dashboard/infrastructure/dashboard.controller.ts:363-445 | the fraud view's search and its house-keyed anchors |
| NetworkMembers.FraudViewAgrees | backend-vexxa/src/modules/dashboard/infrastructure/dashboard.controller.ts:363-445 | outside Pinbet both views give a member the same anchor rate |
| NetworkMembers.AnchorsAgreeOutsidePinbet | backend-vexxa/src/modules/dashboard/infrastructure/dashboard.controller.ts:394-397 | house keys and rate keys record the same positive rates there |
| Balance.OwnCommission | backend-vexxa/src/modules/dashboard/application/dashboard-balance.service.ts:303-346 | step 1, as postings to house accounts and global sums at once |
| Balance.LinkEarnings | backend-vexxa/src/modules/dashboard/application/dashboard-balance.service.ts:417-454 | one member link: margin or full rate, both skips, revenue share not below zero |
| Balance.MemberEarnings | backend-vexxa/src/modules/dashboard/application/dashboard-balance.service.ts:416-455 | all links of one member |
| Balance.NetworkEarnings | backend-vexxa/src/modules/dashboard/application/dashboard-balance.service.ts:385-455 | step 2 over all members |
| Balance.DirectFraudDeduction | backend-vexxa/src/modules/dashboard/application/dashboard-balance.service.ts:457-479 | step 3 |
| Balance.MemberFraudDeduction | backend-vexxa/src/modules/dashboard/application/dashboard-balance.service.ts:484-514 | step 4 for one member; `ClawedBackAsPaid` says at what rate |
| Balance.NetworkFraudDeduction | backend-vexxa/src/modules/dashboard/application/dashboard-balance.service.ts:481-514 | step 4 over all members; `NetworkFraudIsCovered` compares it with step 2 |
| Balance.ApplyAdjustments | backend-vexxa/src/modules/dashboard/application/dashboard-balance.service.ts:565-585 | adjustments, other houses left out when a house is asked for |
| Balance.SetTotals | backend-vexxa/src/modules/dashboard/application/dashboard-balance.service.ts:587-597 | house totals from seven columns |
| Balance.DeductWithdrawals | backend-vexxa/src/modules/dashboard/application/dashboard-balance.service.ts:612-683 | counted withdrawals by bucket and by house, with status, house and cutover rules |
| Balance.HousesHoldThePostings | backend-vexxa/src/modules/dashboard/application/dashboard-balance.service.ts:251-266 | column by column all houses together hold what was posted |
| Balance.HouseHoldsItsPostings | backend-vexxa/src/modules/dashboard/application/dashboard-balance.service.ts:251-266 | house by house the columns hold what was posted there, and houses appear exactly when mentioned |
| Balance.GetBalance | backend-vexxa/src/modules/dashboard/application/dashboard-balance.service.ts:291-697 | every house total is its postings less its withdrawals; house totals and bonus equal baseGross less fraud and withdrawals for every input, and equal `balance` if and only if baseGross is not negative |
| BalanceTerms.OwnerIsFirst | backend-vexxa/src/modules/dashboard/application/dashboard-balance.service.ts:316-322 | a row's owner is the first link with its campaign that reads data of its house |
| BalanceTerms.OwnRowTerms | backend-vexxa/src/modules/dashboard/application/dashboard-balance.service.ts:322-336 | a row pays its owner's house the CPA rate per CPA and the percentage of its revenue |
| BalanceTerms.LinkTerms | backend-vexxa/src/modules/dashboard/application/dashboard-balance.service.ts:417-454 | a member's link pays per CPA the head's rate, less the anchor's unless the member is external, and its percentage of the revenue if positive; it pays nothing where neither rate is left |
| BalanceTerms.NoFigures | backend-vexxa/src/modules/dashboard/application/dashboard-balance.service.ts:417-424 | a member's link without figures pays nothing |
| BalanceTerms.DirectFraudTerms | backend-vexxa/src/modules/dashboard/application/dashboard-balance.service.ts:457-479 | one's own fraud costs the rate of one's first link in the house, per case |
| BalanceTerms.FraudTerms | backend-vexxa/src/modules/dashboard/application/dashboard-balance.service.ts:484-512 | a member's fraud costs per case what a CPA of the member's first link in the house is worth, if that is positive |
| BalanceTerms.ClawedBackAsPaid | backend-vexxa/src/modules/dashboard/application/dashboard-balance.service.ts:417-512 | one rate for both: step 4 takes it per case of fraud, step 2 pays it per CPA of the member's link there, whatever the figures |
| BalanceTerms.MemberFraudIsCovered | backend-vexxa/src/modules/dashboard/application/dashboard-balance.service.ts:417-512 | with no more fraud in a house than CPAs of the member's first link there, step 4 never takes more from the member than step 2 paid |
| BalanceTerms.NetworkFraudIsCovered | backend-vexxa/src/modules/dashboard/application/dashboard-balance.service.ts:385-514 | the same for all members together |
| BalanceTerms.ColumnsComeFrom | backend-vexxa/src/modules/dashboard/application/dashboard-balance.service.ts:291-597 | each column of a house holds what its own step posts there |
| BalanceTerms.FraudNeverExceedsEarnings | backend-vexxa/src/modules/dashboard/application/dashboard-balance.service.ts:291-697 | in no house of a report does covered network fraud exceed the network's CPA commission |
| BalanceScope.SelectedMeans | backend-vexxa/src/modules/dashboard/infrastructure/persistence/dashboard.prisma-repository.ts:317-389 | the grouped query takes exactly the days that count for a link: its campaign and source house, from the latest of start, cutover and the house's own cutover, to the end, outside the audit span |
| BalanceScope.CountIsOfTheDays | backend-vexxa/src/modules/dashboard/infrastructure/persistence/dashboard.prisma-repository.ts:317-389 | the CPA count that is paid is that of those days |
| BalanceScope.GroupsHoldTheRevenue | backend-vexxa/src/modules/dashboard/infrastructure/persistence/dashboard.prisma-repository.ts:317-389 | grouping loses and doubles no revenue |
| BalanceScope.AggMapHoldsTheRows | backend-vexxa/src/modules/dashboard/application/dashboard-balance.service.ts:385-394 | looking groups up by key text finds every group as it is |
| BalanceScope.AdjustmentsCount | backend-vexxa/src/modules/dashboard/application/dashboard-balance.service.ts:565-585 | each adjustment counts in its own house, if all houses or that one are asked for |
| BalanceScope.OpenedExactlyWhen | backend-vexxa/src/modules/dashboard/application/dashboard-balance.service.ts:298-302 | a Pinbet house appears as soon as a link there is in scope |
| BalanceScope.WithdrawalsCount | backend-vexxa/src/modules/dashboard/application/dashboard-balance.service.ts:606-681 | houses and sums lose the gross amount, less what came back, of exactly the withdrawals that are pending, approved, processing or completed, of the house asked for or any real one, and not before either cutover |
| BalanceScope.FailedChangeNothing | backend-vexxa/src/modules/dashboard/application/dashboard-balance.service.ts:606-681 | failed and rejected withdrawals change nothing |
| Commission.GroupsHoldTheData | backend-vexxa/src/modules/dashboard/infrastructure/persistence/dashboard.prisma-repository.ts:317-389 | the grouped query loses and doubles no CPA |
| Commission.AggKeyIsInjective | backend-vexxa/src/modules/dashboard/application/dashboard-balance.service.ts:385-394 | the joined lookup key tells campaign and house apart when slugs have no underscore |
| Commission.SameCount | backend-vexxa/src/modules/dashboard/application/dashboard-balance.service.ts:281-313 | own and network queries of different users count the same rows for one campaign, cutovers included, whether all houses or the link's own house are asked for |
| Commission.OwnPays | backend-vexxa/src/modules/dashboard/application/dashboard-balance.service.ts:316-334 | the owner is paid the rate on the campaign's whole count |
| Commission.NetworkPays | backend-vexxa/src/modules/dashboard/application/dashboard-balance.service.ts:416-455 | a user above is paid by the campaign exactly once, through the member who owns it |
| Commission.UserIsPaid | backend-vexxa/src/modules/dashboard/application/dashboard-balance.service.ts:291-456 | what steps 1 and 2 of the balance, for all houses or for the link's own, give one user for one campaign: own rate, margin over the user one hop below, or nothing |
| Commission.ChainTelescopes | backend-vexxa/src/modules/dashboard/application/dashboard-balance.service.ts:426-435 | the margins along the chain add up to the top rate and whatever rates lose on the way up |
| Commission.CommissionTelescopes | backend-vexxa/src/modules/dashboard/application/dashboard-balance.service.ts:291-456 | all users together are paid count times (rate of the highest ancestor within ten hops, plus losses); the losses vanish if and only if rates never fall towards the root, and the rate paid covers every rate on the path |
| RefreshTokens.AuthService.Login | backend-vexxa/src/modules/auth/application/auth.service.ts:61-98 | accepted exactly for the right password of an account that is not locked and whose user is known, approved, active and not external; a locked account is refused before anything is compared, a wrong password is counted, and who gets a new family also gets a clean counter |
| RefreshTokens.LoginAcceptedExactlyWhen | backend-vexxa/src/modules/auth/application/auth.service.ts:61-98 | that condition as an equivalence, on the accounts alone |
| RefreshTokens.AuthService.RecordFailedLogin | backend-vexxa/src/modules/auth/application/auth.service.ts:617-624 | one failure more; only the first of a period sets the expiry |
| RefreshTokens.FiveGuessesPerPeriod | backend-vexxa/src/modules/auth/application/auth.service.ts:606-624 | while logins do not overlap and none succeeds, and no reset or change of the password clears the counter, at most five wrong passwords are compared per 15 minutes begun |
| RefreshTokens.LockLasts | backend-vexxa/src/modules/auth/application/auth.service.ts:608-624 | a lock holds, unextended, until its expiry unless it is cleared |
| LoginRaces.GuessesPerPeriod | backend-vexxa/src/modules/auth/application/auth.service.ts:61-75 | with check, comparison and count as separate steps and at most k logins of an account under way at a time, at most 4 + k wrong passwords are compared per 15 minutes begun |
| LoginRaces.LimitIsReached | backend-vexxa/src/modules/auth/application/auth.service.ts:606-624 | no smaller limit holds for any k |
| RefreshTokens.AuthService.Refresh | backend-vexxa/src/modules/auth/application/auth.service.ts:239-342 | rotation, recovery or revoking refusal, in the order of the checks |
| RefreshTokens.AuthService.RecoverRecentDuplicateRefresh | backend-vexxa/src/modules/auth/application/auth.service.ts:344-420 | a recent duplicate is recovered exactly when a live successor exists and the user is in good standing |
| RefreshTokens.AuthService.Logout | backend-vexxa/src/modules/auth/application/auth.service.ts:424-438 | logout revokes the family of a known token |
| RefreshTokens.AuthService.RevokeAllUserTokens | backend-vexxa/src/modules/auth/application/auth.service.ts:443-448 | afterwards no token of the user is live at any time, and tokens of other users are untouched; nothing in the program calls it |
| RefreshTokens.AuthService.AdminSetPassword | backend-vexxa/src/modules/user/application/user.service.ts:199-256 | an administrator's change of a password revokes the user's tokens and clears the lock |
| RefreshTokens.AuthService.BlockUser | backend-vexxa/src/modules/user/application/user.service.ts:1246-1249 | a block sets the user's status to BLOCKED and leaves every token as it is |
| RefreshTokens.AuthService.UnblockUser | backend-vexxa/src/modules/user/application/user.service.ts:1313-1322 | an unblock approves and activates a blocked user, and changes nothing for anyone else |
| RefreshTokens.AuthService.ForgotPassword | backend-vexxa/src/modules/auth/application/auth.service.ts:141-181 | who gets a reset token, valid 30 minutes |
| RefreshTokens.AuthService.ResetPassword | backend-vexxa/src/modules/auth/application/auth.service.ts:184-235 | a valid reset token is used up and revokes the user's tokens; otherwise nothing changes |
| RefreshTokens.ResetWorksExactlyWhen | backend-vexxa/src/modules/auth/application/auth.service.ts:184-235 | a reset token works exactly if it is unused, not expired, and its user may reset |
| RefreshTokens.AuthService.BuildTokens | backend-vexxa/src/modules/auth/application/auth.service.ts:479-510 | the database finds a token of the user and family under the new hash, live until exactly seven days later, and every other lookup is as before |
| RefreshTokens.AtMostOneLiveToken | backend-vexxa/src/modules/auth/application/auth.service.ts:308-328 | in every run of calls that do not overlap, a family has at most one live token, the newest, and one user |
| RefreshTokens.DeadFamilyStaysDead | backend-vexxa/src/modules/auth/application/auth.service.ts:239-448 | in such a run a family without live tokens never gets one again |
| RefreshTokens.AcceptedExactlyWhen | backend-vexxa/src/modules/auth/application/auth.service.ts:239-372 | a live token is accepted until it expires, a revoked one only while the newest of its family is live, unexpired, younger and at most 15 s old |
| RefreshTokens.AcceptedLeavesOneLive | backend-vexxa/src/modules/auth/application/auth.service.ts:308-407 | acceptance leaves the new token as the family's only live one |
| RefreshTokens.RefusalKillsForGood | backend-vexxa/src/modules/auth/application/auth.service.ts:268-306 | a refused token ends its family for every later run |
| RefreshTokens.LogoutKillsForGood | backend-vexxa/src/modules/auth/application/auth.service.ts:424-438 | so does logging out with any token of the family |
| RefreshTokens.UserSessionsEndForGood | backend-vexxa/src/modules/auth/application/auth.service.ts:216-232 | a password reset and an administrator's change of the password end every family of the user for good |
| RefreshTokens.ResetWorksOnce | backend-vexxa/src/modules/auth/application/auth.service.ts:200-227 | a reset token works once |
| SessionSurvival.SessionSurvivesExactlyWhen | backend-vexxa/src/modules/auth/application/auth.service.ts:239-448 | over any further events a live session is accepted at the end if and only if none of them ended its family (named event by event), its user is in good standing, and its token, renewed or not, has not expired |
| SessionSurvival.BlockedSessionSurvivesExactlyWhen | backend-vexxa/src/modules/user/application/user.service.ts:1246-1322 | while a block lasts no session is accepted; after the unblock a session that was live at the block is accepted again if and only if nothing in between ended its family and its token has not expired |
| SessionSurvival.BlockKeepsSessions | backend-vexxa/src/modules/user/application/user.service.ts:1246-1322 | so whoever does nothing while blocked keeps every unexpired session |
| SessionSurvival.BlockedGetsNothing | backend-vexxa/src/modules/auth/application/auth.service.ts:61-342 | from any state in which the user is blocked, no event issues a token to the user as long as nothing else writes the status |
| SessionSurvival.NoSessionAfterBlock | backend-vexxa/src/modules/user/application/user.service.ts:1246-1249 | so from a block on, over any events without an unblock, login, refresh, reset and registration bring the user no session |
| RefreshRaces.AloneIsRefresh | backend-vexxa/src/modules/auth/application/auth.service.ts:239-407 | reading, looking for a successor and writing with nothing in between are the refresh as one step |
| RefreshRaces.OneLiveExactlyWhen | backend-vexxa/src/modules/auth/application/auth.service.ts:308-407 | in every interleaving of such steps every family has at most one live token if and only if no call replaces a token that was revoked since it was read while the family has a live one |
| RefreshRaces.DeadStaysExactlyWhen | backend-vexxa/src/modules/auth/application/auth.service.ts:308-407 | a dead family lives again exactly when a refresh that read it earlier issues its token |
| RefreshRaces.AloneIsSafe | backend-vexxa/src/modules/auth/application/auth.service.ts:239-448 | as long as nothing else writes to a user's tokens during a refresh, neither happens |
| RefreshRaces.OverlapLeavesTwo | backend-vexxa/src/modules/auth/application/auth.service.ts:240-328 | two refreshes of one token that both read before either writes leave two live tokens |
| PoolSheet.ColumnLetter | backend-vexxa/src/modules/betano-diario-link-pool/domain/betano-diario-sheet.parser.ts:16-25 | the letter loop terminates with the base-26 letters |
| PoolSheet.ColumnLettersAreABijection | backend-vexxa/src/modules/betano-diario-link-pool/domain/betano-diario-sheet.parser.ts:16-25 | numbers from one and non-empty letter texts are in bijection |
| PoolSheet.AddressResolves | backend-vexxa/src/modules/betano-diario-link-pool/application/betano-diario-sheet.service.ts:78-88 | a composed cell address names that cell and no other |
| PoolSheet.ScanHeaders | backend-vexxa/src/modules/betano-diario-link-pool/domain/betano-diario-sheet.parser.ts:31-38 | the header scan records exactly the positions of every header |
| PoolSheet.ParseBetanoDiarioPoolSheet | backend-vexxa/src/modules/betano-diario-link-pool/domain/betano-diario-sheet.parser.ts:27-65 | headers must occur exactly once, in this order of errors; rows are read at the found columns |
| PoolSheet.ColumnOfMeans | backend-vexxa/src/modules/betano-diario-link-pool/domain/betano-diario-sheet.parser.ts:27-50 | a header has a column exactly if that column alone reads its title, once trimmed and in upper case |
| PoolSheet.ParseMeans | backend-vexxa/src/modules/betano-diario-link-pool/domain/betano-diario-sheet.parser.ts:27-65 | a sheet parses exactly if each title heads one column, the first that does not is reported, and link, status and e-mail of a row are the trimmed cells of those columns |
| PoolSheet.SheetService.ReadPool | backend-vexxa/src/modules/betano-diario-link-pool/application/betano-diario-sheet.service.ts:57-66 | a successful read remembers the columns, a failed one does not |
| PoolSheet.SheetService.MarkRowUsed | backend-vexxa/src/modules/betano-diario-link-pool/application/betano-diario-sheet.service.ts:77-95 | two cells, or an error before the first read |
| PoolSheet.SheetService.MarkRowsUsed | backend-vexxa/src/modules/betano-diario-link-pool/application/betano-diario-sheet.service.ts:98-119 | nothing for no entries, else all cells in order, or an error before the first read |
| PoolSheet.MarksAreReadBack | backend-vexxa/src/modules/betano-diario-link-pool/application/betano-diario-sheet.service.ts:57-119 | mark and read again: same columns, exactly the named rows changed, only in status, which reads `marcado`, and e-mail |
| Money.MoneyTextReadsBack | backend-vexxa/scripts/lib/reset-betano-diario.ts:119-137 | every signed amount in cents survives printing and reading, -0.05 included |
| Money.SummaryReadsBack | backend-vexxa/scripts/lib/reset-betano-diario.ts:126-137 | a summary reads back as the sum, missing values as zero |
| Money.SummariesCompose | backend-vexxa/scripts/lib/reset-betano-diario.ts:126-137 | summarising two parts and their summaries gives the text of the whole |
| Money.FailsExactlyWhen | backend-vexxa/scripts/lib/reset-betano-diario.ts:119-131 | a summary fails exactly when a present value is unreadable |
| Money.SpelledIsRead | backend-vexxa/scripts/lib/reset-betano-diario.ts:119-125 | every text of sign, digits and up to two decimals, blanks around it aside, is read as the amount it spells |
| Money.ReadIsSpelled | backend-vexxa/scripts/lib/reset-betano-diario.ts:119-125 | and nothing else is read |
| SyncHistory.AggregateByCampaignAndDay | backend-vexxa/src/modules/betnacional-link-pool/application/betnacional-metrics-sync.service.ts:244-260 | one row per campaign and day that occurs, holding all column sums |
| SyncHistory.MetricsStore.WriteRow | backend-vexxa/src/modules/betnacional-link-pool/application/betnacional-metrics-sync.service.ts:77-180 | read, upsert, compare, log, with the two failures |
| SyncHistory.MetricsStore.SyncBetnacional | backend-vexxa/src/modules/betnacional-link-pool/application/betnacional-metrics-sync.service.ts:77-184 | the loop and its counters: they add up, and inserted is the growth of the table |
| SyncHistory.MetricsStore.SyncBetanoDiario | backend-vexxa/src/modules/betano-diario-link-pool/application/betano-diario-metrics-sync.service.ts:118-198 | the second loop: skips without a rate, counters, and written dates equal to the days logged |
| SyncHistory.SyncsKeepTheChain | backend-vexxa/src/modules/betnacional-link-pool/application/betnacional-metrics-sync.service.ts:77-178 | over any history of Betnacional and Betano Diário syncs, each log row starts where the previous one of its key ended and the last one shows the stored row, if and only if no Betnacional sync writes to a row that held net result, withdrawals or volume at the start |
| SyncHistory.OldFiguresBreakTheChain | backend-vexxa/src/modules/betnacional-link-pool/application/betnacional-metrics-sync.service.ts:114-178 | a stored net result is enough for the first sync of its row to break the chain |
| SyncHistory.RowKeepsChain | backend-vexxa/src/modules/betnacional-link-pool/application/betnacional-metrics-sync.service.ts:99-178 | writing one row keeps the chain if and only if it leaves no figures in the table that the log denies |
| SyncHistory.BrokenStaysBroken | backend-vexxa/src/modules/betnacional-link-pool/application/betnacional-metrics-sync.service.ts:99-178 | a broken chain is never mended |
| SyncHistory.ResyncIsSilentExactlyWhen | backend-vexxa/src/modules/betnacional-link-pool/application/betnacional-metrics-sync.service.ts:77-184 | a second Betnacional sync of the same aggregated rows keeps the table, and logs nothing if and only if every accepted row has a deposit in whole cents and met no net result, withdrawals or volume in the table |
| SyncHistory.SheetResyncIsSilentExactlyWhen | backend-vexxa/src/modules/betnacional-link-pool/application/betnacional-metrics-sync.service.ts:77-260 | the same for a raw sheet that is aggregated anew each time: silence if and only if the sums per campaign and day allow it |
| SyncHistory.HalfACentIsLoggedAgain | backend-vexxa/src/modules/betnacional-link-pool/application/betnacional-metrics-sync.service.ts:99-166 | a deposit of 0.005 is logged by every sync |
| SyncHistory.Round2Twice | backend-vexxa/prisma/schema.prisma:453-460 | rounding to cents is idempotent and changes exactly the amounts without whole cents |
| SyncHistory.RoundsToNearest | backend-vexxa/prisma/schema.prisma:453-460 | rounding goes to the nearest cent, from halves away from zero |
| SyncHistory.MattersExactlyWhen | backend-vexxa/src/common/persistence/affiliate-data-change.helper.ts:48-66 | a change is logged exactly if it is not only one of clicks and registrations |
| SyncHistory.DailyRowIsPaidByCount | backend-vexxa/src/modules/betano-diario-link-pool/application/betano-diario-metrics-sync.service.ts:118-148 | a Betano Diário row's CPA value and commission are its count times the campaign's rate; a row without a rate is left out |
| SyncHistory.BetnacionalRowIsPaidByValue | backend-vexxa/src/modules/betnacional-link-pool/application/betnacional-metrics-sync.service.ts:85-167 | a Betnacional row counts its CPA value as count, value and commission alike |
| SyncHistory.JobStores | backend-vexxa/src/modules/betnacional-link-pool/application/betnacional-metrics-sync.service.ts:94-178 | a written row leaves its figures in the table, amounts to the cent, logs the old and the new ones exactly if the change matters, and touches no other row or log |
| MetricsRollup.LoadAllowedAffiliates | backend-vexxa/src/modules/affiliate-api/application/affiliate-api.service.ts:636-667 | every user with every level up to ten at which the owner is above, on any graph |
| MetricsRollup.Accumulate | backend-vexxa/src/modules/affiliate-api/application/affiliate-api.service.ts:308-344 | one pass feeds five accounts with the same contributions |
| MetricsRollup.AccountsHoldTheSummary | backend-vexxa/src/modules/affiliate-api/application/affiliate-api.service.ts:308-344 | each account sums to the summary in all nine components |
| MetricsRollup.AccountHolds | backend-vexxa/src/modules/affiliate-api/application/affiliate-api.service.ts:861-879 | key by key an account holds exactly its contributions, each key once |
| MetricsRollup.RecordsAreDistinct | backend-vexxa/src/modules/affiliate-api/application/affiliate-api.service.ts:328-343 | no two records share date, house and affiliate |
| MetricsRollup.RecordsHoldTheirOwn | backend-vexxa/src/modules/affiliate-api/application/affiliate-api.service.ts:328-343 | with plain keys a record holds its own contributions only |
| MetricsRollup.CountedAreTargets | backend-vexxa/src/modules/affiliate-api/application/affiliate-api.service.ts:314-318 | records and groups speak of targets only |
| MetricsRollup.GetMetrics | backend-vexxa/src/modules/affiliate-api/application/affiliate-api.service.ts:221-409 | refused exactly for an affiliate outside the network; the report is of the one affiliate asked for, of the owner for `me`, of exactly the network without a request; it is zero without campaigns, accounts otherwise for the rows of the targets' links, and is balanced; the later scope check never throws |
| MetricsRollup.RefsMean | backend-vexxa/src/modules/affiliate-api/application/affiliate-api.service.ts:649-664 | a user is below exactly who referred it, if it is an active affiliate and not deleted |
| MetricsRollup.OwnerIsOfTheLastLink | backend-vexxa/src/modules/affiliate-api/application/affiliate-api.service.ts:250-256 | a row belongs to the user of the last link with its campaign and house, or to nobody |
| MetricsRollup.RowCounts | backend-vexxa/src/modules/affiliate-api/application/affiliate-api.service.ts:314-326 | a row counts once, with its own figures, day and house, if its owner is a target, else not at all; deposits without a qualified count are the first deposits |
| MetricsRollup.SummariesAdd | backend-vexxa/src/modules/affiliate-api/application/affiliate-api.service.ts:869-879 | summaries add up figure by figure |
| MetricsRollup.GroupsAreByField | backend-vexxa/src/modules/affiliate-api/application/affiliate-api.service.ts:323-326 | what is shown for a house, a day or an affiliate is the sum of the contributions there |
| PrizeVersions.RuleStore.CreateRule | backend-vexxa/src/modules/cpa-prize/application/cpa-prize-admin.service.ts:82-152 | a fresh rule gets exactly one version, in force, counting the days of the rule's own window; older rules and versions are unchanged and still have one version in force each |
| PrizeVersions.RuleStore.ReadCurrent | backend-vexxa/src/modules/cpa-prize/application/cpa-prize-admin.service.ts:163-169 | the version in force, or none |
| PrizeVersions.CountedExactlyWhen | backend-vexxa/src/modules/cpa-prize/application/cpa-prize-engine.service.ts:155-162 | a version counts the days from the later of its two starts to its end, or to today, in its house or in all |
| PrizeVersions.RuleStore.UpdateRule | backend-vexxa/src/modules/cpa-prize/application/cpa-prize-admin.service.ts:173-268 | the edit's transaction, rolled back as a whole when the next number is taken |
| PrizeVersions.EditMeans | backend-vexxa/src/modules/cpa-prize/application/cpa-prize-admin.service.ts:173-268 | a committed edit's fields reach the next version, what it leaves out stays as in the version read, an empty house means all, counting starts today or tomorrow as asked; an edit of nothing structural makes no version |
| PrizeVersions.EditFailsExactlyWhen | backend-vexxa/src/modules/cpa-prize/application/cpa-prize-admin.service.ts:173-210 | an edit fails, and then changes nothing, exactly if the rule is gone or it needs a version whose number is taken |
| PrizeVersions.RemoveMeans | backend-vexxa/src/modules/cpa-prize/application/cpa-prize-admin.service.ts:285-337 | a removed rule is gone, or archived and inactive, and everything else stays |
| PrizeVersions.RuleStore.RemoveRule | backend-vexxa/src/modules/cpa-prize/application/cpa-prize-admin.service.ts:285-337 | archived if some award or progress row refers to it, deleted otherwise |
| PrizeVersions.OnlyTheCurrentIsSuperseded | backend-vexxa/src/modules/cpa-prize/application/cpa-prize-admin.service.ts:163-210 | an edit that read a superseded version fails |
| PrizeVersions.AlwaysOneInForce | backend-vexxa/src/modules/cpa-prize/application/cpa-prize-admin.service.ts:155-268 | however edits overlap, each rule has exactly one version in force, its current one |
| PrizeVersions.NoDayIsCountedTwice | backend-vexxa/src/modules/cpa-prize/application/cpa-prize-admin.service.ts:194-202 | no house's day is counted by two versions of a rule in any history without same-day edits, nor in one whose same-day edits take effect where nothing of the day was counted yet for the new version's house, or outside its dates |
| PrizeVersions.StepIsNeverTwiceExactlyWhen | backend-vexxa/src/modules/cpa-prize/application/cpa-prize-admin.service.ts:194-237 | after an edit some later evaluation can count a house's day twice if and only if the edit takes effect the same day, its rule has counted that day for a house that the new version covers, and the new version's dates contain it |
| PrizeVersions.SafeExactlyWhenNeverTwice | backend-vexxa/src/modules/cpa-prize/application/cpa-prize-admin.service.ts:194-237 | for whole histories: no state of it leads to a house's day counted twice if and only if no edit of it is of that kind |
| PrizeVersions.SameDayCanCountTwice | backend-vexxa/src/modules/cpa-prize/application/cpa-prize-admin.service.ts:194-202 | a same-day edit can count a day twice |

## Left out

- LinkProtocol.MutualExclusion: the database transaction is one step; statements of two transactions do not interleave, the unique index decides at the commit.  Other writers of the link table are not steps; `LinkDelivery.SuccessIsRatedExactlyWhen` speaks of any links a start state may hold.
- Backfill.BackfillPending: what a call sees of the database is a parameter, since other processes write meanwhile; the batch write to the sheet is in PoolSheet.dfy.
- LinkPool.TransactDelivers: parsing a link's URL into site and campaign is a field of the row; URL text is not modelled.
- PrizeEngine.GeneratedIsRunningMax: evaluations and life-cycle calls follow one another, as under the advisory lock; interleaved ones are covered by CyclesAreNumberedAlways, LosersWriteNothing and BonusIsConserved.
- PrizeVersions.NoDayIsCountedTwice: the figures of a house on a day are one cell, whoever's campaigns they come from; an evaluation is one step, so one that overlaps an edit or midnight is not covered; data is never dated after its evaluation.
- Balance.GetBalance: Pinbet withdrawal limits, deposit compliance, fees and display rounding are not modelled; settings are given as valid instants; the Pinbet dimension of a link is a parameter.
- Commission.CommissionTelescopes: one campaign on one link, houses outside Pinbet, no external members; slugs have neither colon nor underscore.
- NetworkMembers.SearchDown: one method stands for the two copies of the search below the direct referrals; the copies differ only in what the first level records.
- RefreshTokens.AuthService.Login: the lookup by e-mail and the password comparison are a parameter, and e-mails differing in case only are not identified; tokens are known by their hash, fresh ones do not repeat.
- PoolSheet.MarksAreReadBack: upper-casing is a parameter; the service's omission of blank cells at the end and its limit to columns A to ZZ are not modelled.
- SyncHistory.MetricsStore.SyncBetnacional: a row counts as inserted when there was none before, instead of by comparing its two time stamps; overflow of the columns is one of the failures of a write.
- SyncHistory.SyncsKeepTheChain: one writer per row, and no failed log writes; the key's campaign name repeats the campaign and its utm value is constant, so both are left out.
- RefreshRaces.OneLiveExactlyWhen: the two tables that one read joins, and the two writes of one transaction, are one step each.
- MetricsRollup.Accumulate: summaries are values in ordered lists instead of shared objects in maps; names, e-mails and the final sorting are left out.
- All input and output: SQL, Redis, Google Sheets, HTTP, e-mail, notifications, webhooks and storage appear only through their effect on the modelled state.
- Hashing, signatures, randomness, clocks and time zones are parameters or fresh values.
- Other houses' assignment services, sandbox withdrawals, admin roles, pagination, controllers that delegate and the user interface would only add easy members.
