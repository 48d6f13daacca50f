# Weave money engine: verification

A Dafny model of the part of Weave that moves and guards money: the wallet ledger, the sourcing of a
transfer over wallet and linked banks, the transfer protocol, deposits and top-ups, the transaction
table with its filter compiler, and the guards around them (rate limiter, PIN lockout, HTTP idempotency
replay, the chat's two-phase confirmation).

`dafny verify dfyconfig.toml` checks the whole project.

## How it is built

One SQL statement or one provider call is one atomic step.  What the outside answers (whether a
statement reaches the database, what a provider says, the clock) is a parameter of the call, so every
outcome is covered.

| file | content |
|---|---|
| Sums | options, sums, and tallies of a measure over a list |
| Ledger | wallets, their four guarded statements, their CHECK constraints |
| Sourcing, SourcingLaws | listing order, parallel balance refresh, debit plans and what they are worth |
| Transactions, TransactionFilter | the transaction table, and filters compiled to numbered placeholders |
| Transfer | `InitiateTransfer` as a machine: `Step` takes one step, `Finish` runs a transfer alone |
| TransferService | the same as imperative code, proved to do what `Finish` does |
| TransferLaws | what a step does to wallets, and what is held at every point |
| TransferSerial | transfers one after the other: exits, settlement, idempotency |
| TransferTree | the rows, pulls and payouts of a transfer at every point, beside other transfers |
| TransferAnswers, TransferSuccess | what decides how a transfer ends, and that nothing else does |
| TransferRows | the rows of a transfer field by field, and references |
| MoneyIn, WalletService | deposits and top-ups as tasks of single statements, and as imperative code |
| MoneyAnswers | what each answer of a deposit, request or top-up says |
| MoneyLaws, MoneySerial, MoneyRaces | overlapping calls, serial runs, and where the guarantees end |
| Engine, EngineLaws | everything at once in any order: the invariant, and what it says |
| TopUpLimit | how much a user can top up in a day |
| Backing | no money moves without its row |
| Interleaving | idempotency when transfers overlap; a call alone is one of the interleavings |
| RateLimiter, PinLockout, Replay, ReplayOverlap, Chat, ChatAnswers | the guards |

Imperative parts of the source are classes and loops whose contracts equate the new state with a
function of the old one (`TransferService`, `WalletService`, the repositories, the guards); the theorems
are about these functions.  Fields that the program does not have (`held`, `settled`, `credits`,
`slips`, the limiter's log) are histories that nothing reads.

## What the code does where its comments or callers expect something else

- An error return of `InitiateTransfer` rolls nothing back: the deferred closures watch another `err`.
  Compensation is what the explicit releases do, and that is what is proved
  (internal/service/transfer_service.go:116-135).
- Settlement debits after the hold and nothing releases the hold, so a completed transfer keeps its
  wallet leg on hold; the balance falls only if twice the leg was available (`CompletedSettlement`).
- Debit-leg children stay PENDING; only the parent and the payout row change status.
- The listing query does not select provider tokens, so the refresh before planning never fetches
  (`ListedAccountsAreNeverFetched`).
- Nothing in the schema makes idempotency keys unique: they stay unique while no two transfers look one
  up at the same time (`KeysStayUnique`), and if two do, both insert it (`LookupRace`).  The middleware
  has the same gap between its lookup and its store (`OneSuccessForEntry`, `OverlapRunsBoth`).
- Neither idempotency keys nor recorded responses are tied to a user: whoever uses the key gets the
  answer (`KeysAreShared`, `EntriesAreShared`).
- The listing orders by creation time alone, which rows made in one database transaction share: a row
  can be missing from all pages and another one come twice (`TiesCanHideRows`); without such ties pages
  tile (`SeparatePagesTile`).
- A deposit is recorded before it is credited, and its reference is unique: if the credit fails, the
  money is never credited, however often the delivery is repeated (`DepositsCarried`, if and only if;
  `LostForEver`; `FailedCreditLosesDeposit` gives the run).
- A top-up is credited once unless a mark is lost, two deliveries overlap, or the webhook beats the
  last status write of `FundFromBank` (`ExactlyOnce`, if and only if; `MoneyRaces` gives the runs).
- The check for the daily limit looks at completed requests only, so with k requests pending at a time a
  user can complete 100,000,000 + (k - 1) * 50,000,000 kobo in a day and never more: `DailyLimit` is the
  bound, for every k and every interleaving, and `DailyLimitIsPassed` attains it.  One at a time keeps
  the daily limit itself.
- Counting also uncompleted requests older than a day, the bound could be passed by a late status write
  of `FundFromBank` (`ReopeningPassesLimit`).  That needs a call which waits a whole day between its row
  and its last write; the provider client gives up after 30 seconds
  (internal/provider/mono/client.go:26), and while no call takes a day this bound holds as well
  (`PromptExposureLimit`).
- The rate limiter refills after a pause of a whole window only (`Starves`).
- The recorder keeps the last status a handler sets, the client sees the first: replay is faithful if
  and only if the two agree (`NextIsReplayed`; `SecondStatusRunsAgain`, `SecondStatusIsReplayed`).
- A failed write to Redis when staging or cancelling is not noticed, and the older action is executed
  (`SlotIsLive`, if and only if; `LostStoreKeepsOld`, `LostCancelKeepsOld`).  Confirming a key that is
  recorded is answered as a success whatever became of the first attempt (`ReconfirmIsAnsweredAsSuccess`).
- What banks were asked for before a transfer failed is never asked back (`MoneyAtEveryExit`,
  `FailedPayoutKeepsPulls`).
- The reference of a bank leg has eight characters of the account id only, and references are unique: two banks
  that agree in them cannot both be drawn on, and the first has been asked by then (`SharedPrefixIsRefused`).
  Apart from that, a transfer with nothing in its way completes (`UnhinderedCompletes`).
- The lockout by address never locks: no address is ever passed (`AddressNeverLocks`).

## Model

| member | source | states |
|---|---|---|
| Ledger.WalletRepo.Credit | internal/repository/wallet_repo.go:76-85 | adds to balance and available; a missing row is no error |
| Ledger.WalletRepo.Debit | internal/repository/wallet_repo.go:87-99 | takes from both if both cover the amount, else fails and changes nothing |
| Ledger.WalletRepo.Hold | internal/repository/wallet_repo.go:101-113 | takes from what is available if it covers the amount, else fails and changes nothing |
| Ledger.WalletRepo.ReleaseHold | internal/repository/wallet_repo.go:115-124 | gives back to what is available; the CHECK constraints are its only guard |
| Ledger.GuardsProtectChecks | internal/db/migrations/000001_initial.up.sql:69-71 | with the constraints true before, a statement violates one if and only if it releases more than is held; whatever happens they are true after, and other wallets are untouched |
| Ledger.ReleaseUndoesHold | internal/repository/wallet_repo.go:101-124 | a hold the wallet can take, then a release of the same amount, is the identity |
| Ledger.StatementsMean | internal/repository/wallet_repo.go:76-124 | when each of the four statements goes through, and the row it leaves |
| Sourcing.GetByUserID | internal/repository/bank_account_repo.go:45-75 | for any answer the query allows: the accounts of the user by priority and creation, at most the limit, none left out that sorts earlier, without the provider tokens, which the query does not select |
| Sourcing.RefreshBankBalances | internal/service/wallet_service.go:495-558 | for every schedule of the fetch tasks: exactly the given accounts, each with the fetched balance if the fetch succeeded and the stored one otherwise |
| Sourcing.RefreshIsUnique | internal/service/wallet_service.go:504-557 | two schedules cannot produce different maps |
| Sourcing.ListedAccountsAreNeverFetched | internal/service/wallet_service.go:510-513 | accounts that come from the listing query carry no token, so planning uses stored balances |
| Sourcing.BuildDebitPlan | internal/service/wallet_service.go:560-637 | the loop computes the closed form of greedy filling, error cases and non-positive amounts included, whatever the schedule of the refresh |
| Sourcing.DrawOnWallet | internal/service/wallet_service.go:564-583 | the wallet comes first and gives the smaller of what it has available and the amount |
| Sourcing.DrawOnBanks | internal/service/wallet_service.go:599-636 | the loop over the accounts extends the closed form source by source and reports the exact shortfall |
| SourcingLaws.PrefixSupply | internal/service/wallet_service.go:571-629 | the legs on the first k sources add up to min(amount, capacity of these sources) |
| SourcingLaws.GreedyIsBest | internal/service/wallet_service.go:563-629 | no other plan within the capacities draws more on any priority prefix, and none draws less on banks |
| SourcingLaws.PlanSucceedsIffCovered | internal/service/wallet_service.go:560-637 | a plan exists if and only if the capacities cover the amount; otherwise the reported shortfall is the exact difference |
| SourcingLaws.PlanTheorem | internal/service/wallet_service.go:576-636 | legs add up to the amount, are positive, have distinct sources, all but the last are drained; the fee is 3500 kobo for each bank leg and at most 350,000 |
| SourcingLaws.PlanShape | internal/service/wallet_service.go:571-636 | what transfers rely on for any non-negative amount: legs add up, and the wallet leg, if any, is first and free |
| SourcingLaws.EarlierSourcesAreDrained | internal/service/wallet_service.go:604-628 | a source before one that gives something gives all it has |
| SourcingLaws.FlatFees | internal/service/wallet_service.go:615-624 | 3500 kobo for each bank leg |
| SourcingLaws.PriorityIsRespected | internal/repository/bank_account_repo.go:51-53 | a bank is drawn on only if every usable bank that sorts strictly before it is drawn down to its cushion |
| SourcingLaws.CushionIsKept | internal/service/wallet_service.go:604-613 | debiting what the plan draws leaves each bank at or above its minimum balance |
| SourcingLaws.CapacitiesAre | internal/service/wallet_service.go:571-607 | a wallet can give what it has available, an active and verified account what it holds above its minimum, fetched if there is a fetch, and any other account nothing |
| SourcingLaws.RefreshedBalances | internal/service/wallet_service.go:495-558 | in the refreshed map a Mono account with a token has its fetched balance if the fetch succeeds, and every other account its stored one |
| SourcingLaws.OnlyUsableBanks | internal/service/wallet_service.go:600-613 | a bank that a plan draws on is active and verified, and gives something within its capacity |
| SourcingLaws.OnlyOwnUsableBanks | internal/service/wallet_service.go:599-624 | of the rows the listing answers for a user, a plan draws only on active and verified accounts of that user, within stored balance minus minimum, at 3500 kobo each |
| SourcingLaws.WalletLegExactly | internal/service/wallet_service.go:571-583 | a plan has a wallet leg if and only if the wallet has something available, and then it is min(amount, available), first and free |
| SourcingLaws.PlanFailsExactly | internal/service/wallet_service.go:560-637 | planning fails if and only if the wallet cannot be read, or it does not cover the amount and the accounts cannot be listed or do not cover the rest |
| Transactions.FindKey | internal/repository/transaction_repo.go:165-179 | the first row with the key, and None if and only if no row has it |
| Transactions.TransactionRepo.Create | internal/repository/transaction_repo.go:24-57 | appends the row unless its reference is taken |
| Transactions.TransactionRepo.UpdateStatus | internal/repository/transaction_repo.go:136-153 | writes the status, and the completion time if the status is COMPLETED or FAILED |
| Transactions.TransactionRepo.GetByIdempotencyKey | internal/repository/transaction_repo.go:165-179 | the first row with the key |
| TransactionFilter.BuildFilterWhere | internal/repository/transaction_repo.go:188-227 | the builder with its counter computes the compiled condition |
| TransactionFilter.Placeholders | internal/repository/transaction_repo.go:194-199 | the values of an IN list are numbered consecutively from the counter |
| TransactionFilter.CompileIsSound | internal/repository/transaction_repo.go:188-227 | placeholders are $1..$n once each, in argument order, and the compiled condition holds of exactly the rows that match the filter |
| TransactionFilter.ExtraHoles | internal/repository/transaction_repo.go:231-233 | the user, the limit and the offset take the next three numbers and are bound to them |
| TransactionFilter.QuerySelectsWanted | internal/repository/transaction_repo.go:229-250 | the listing selects exactly the matching rows of the user, in table order |
| TransactionFilter.CountIsLength | internal/repository/transaction_repo.go:252-262 | the count is the length of the whole listing |
| TransactionFilter.PageOf | internal/handler/response.go:59-63 | a positive page number is used as given, anything else is page 1 |
| TransactionFilter.PerPageOf | internal/handler/response.go:64-69 | a size from 1 to 100 is used as given, a larger one is 100, anything else is 20 |
| TransactionFilter.PagesArePrefixes | internal/repository/transaction_repo.go:229-250 | in a fixed order of the rows, the first pages in a row are a prefix of the listing |
| TransactionFilter.PagesTile | internal/repository/transaction_repo.go:229-262 | in a fixed order of the rows, as many pages as the count needs make up the listing, and the next one is empty |
| TransactionFilter.OneOrder | internal/repository/transaction_repo.go:231 | if no two wanted rows share their creation time, newest first leaves one order only |
| TransactionFilter.SeparatePagesTile | internal/repository/transaction_repo.go:229-262 | then pages cut from separate answers of the database make up the listing |
| TransactionFilter.TiesCanHideRows | internal/repository/transaction_repo.go:231 | two rows of the same time can show one of them on both pages and the other on none |
| TransferService.TransferService.InitiateTransfer | internal/service/transfer_service.go:78-316 | whatever the outside answers, the call leaves the tables and the result of the step machine run alone to its exit |
| TransferService.TransferService.DebitLegs | internal/service/transfer_service.go:157-226 | the loop over the legs takes the steps of the machine and stops where it exits |
| TransferService.TransferService.WalletLeg | internal/service/transfer_service.go:160-190 | hold, then child row of a wallet leg |
| TransferService.TransferService.HoldWalletLeg | internal/service/transfer_service.go:160-173 | the wallet read and the hold of a wallet leg |
| TransferService.TransferService.RecordWalletLeg | internal/service/transfer_service.go:175-190 | the child row of a wallet leg; if it is refused the hold is released |
| TransferService.TransferService.BankLeg | internal/service/transfer_service.go:192-225 | the child row of a bank leg, then the request to the bank |
| TransferService.TransferService.PayOut | internal/service/transfer_service.go:228-283 | the PROCESSING mark, the payout row and the payout |
| TransferService.TransferService.Fail | internal/service/transfer_service.go:258-275 | both rows marked FAILED and every wallet leg released |
| TransferService.TransferService.ReleaseHolds | internal/service/transfer_service.go:264-272 | the releases after a failed payout, whose errors are only logged |
| TransferService.TransferService.Complete | internal/service/transfer_service.go:285-315 | settlement, then both rows marked COMPLETED |
| TransferService.TransferService.DebitHolds | internal/service/transfer_service.go:285-293 | the settlement debits, whose errors are dropped |
| TransferAnswers.StepAnswers | internal/service/transfer_service.go:78-316 | every step keeps the point or exit of a transfer in agreement with what it was answered: each leg before the current one was granted, nothing after sending unless the provider did not refuse, each error exit with the answer that caused it |
| TransferAnswers.AlwaysAnswers | internal/service/transfer_service.go:78-316 | the same for every transfer in every interleaving |
| TransferAnswers.PayoutDecides | internal/service/transfer_service.go:252-301 | in every interleaving a transfer with a payout row that has ended failed its payout if and only if payouts are enabled and the provider refused, and is done if and only if the provider did not refuse and both completion marks got through |
| TransferAnswers.CallAnswers | internal/service/transfer_service.go:78-316 | for a transfer alone: each exit with the answers that lead there, and a completed one names its own parent row and reference |
| TransferAnswers.AsksUsableBanks | internal/service/transfer_service.go:94-96 | each bank leg of a transfer is an active and verified account of the listing it was given |
| TransferSuccess.UnhinderedCompletes | internal/service/transfer_service.go:78-316 | a transfer with a plan and an unused key and references, whose reads, rows and marks get through, whose banks agree and whose payout is not refused, completes |
| TransferRows.AlwaysWritten | internal/service/transfer_service.go:141-247 | in every interleaving the parent row, the payout row and the row of each leg reached hold exactly user, parent, type, amount, fee, provider, recipient, reference, key and time as the code gives them, and the rows of legs stay PENDING |
| TransferRows.RefsStayUnique | internal/repository/transaction_repo.go:24-57 | in every interleaving no two rows share a reference |
| TransferRows.SharedPrefixIsRefused | internal/service/transfer_service.go:206-220 | a bank leg whose id shares its first eight characters with an earlier bank of the transfer is refused its row |
| TransferRows.CallRows | internal/service/transfer_service.go:141-247 | a transfer alone: the same rows, all of them new |
| Transfer.Finish | internal/service/transfer_service.go:78-316 | a transfer alone ends at one of the exits |
| TransferLaws.StepMoves | internal/service/transfer_service.go:157-293 | one step changes the balance and the hold of its own wallet by exactly what the counters of the transfer say, and no other wallet |
| TransferLaws.NextOpIsIssued | internal/service/transfer_service.go:171-290 | the wallet statement named for a step is all that the step does to wallets |
| TransferLaws.NextOpIsSafe | internal/service/transfer_service.go:186-267 | a transfer whose hold is covered never violates a constraint |
| TransferLaws.StepKeepsAccounts | internal/service/transfer_service.go:157-293 | every step keeps what the transfer holds equal to what its point in the protocol says |
| TransferLaws.StepDescends | internal/service/transfer_service.go:78-316 | every step but the last makes progress: a transfer ends |
| TransferSerial.ExitAccounting | internal/service/transfer_service.go:78-316 | a transfer alone: on each exit it holds exactly what that exit says, the balance fell by what was settled, which is the wallet leg or nothing, and the wallet leg is min(amount, available) |
| TransferSerial.FailedPayoutIsUndone | internal/service/transfer_service.go:258-275 | after a failed payout whose release gets through, every wallet is as it was |
| TransferSerial.CompletedSettlement | internal/service/transfer_service.go:285-293 | a completed transfer keeps its wallet leg L on hold, and takes L off the balance if and only if at least 2L was available before |
| TransferSerial.CompletedRun | internal/service/transfer_service_test.go:53-60 | over any run of completed transfers the hold grows by all wallet legs, the balance falls by those legs that were covered twice |
| TransferSerial.SerialKeysUnique | internal/service/transfer_service.go:79-92 | in every serial run a non-empty key labels at most one row |
| TransferSerial.RecordedKeyStutters | internal/service/transfer_service.go:80-92 | a call with a recorded key changes nothing and answers with the id, reference and status of the row |
| TransferSerial.KeysAreShared | internal/repository/transaction_repo.go:173 | whichever user calls with the key: the lookup asks for no user |
| TransferSerial.RepeatsDoNotMatter | internal/service/transfer_service.go:79-92 | deleting the calls with recorded keys from a serial run leaves the same tables |
| TransferTree.StepTouches | internal/service/transfer_service.go:140-301 | a step changes only rows and movements that belong to its transfer, never a finished row, and adds at most one row |
| TransferTree.OthersUndisturbed | internal/service/transfer_service.go:140-301 | the rows, pulls and payouts of a transfer are left alone by the steps of others |
| TransferTree.StepStaysInTree | internal/service/transfer_service.go:140-301 | every step keeps statuses, child totals, pulls and payouts of its transfer equal to what its point in the protocol, or its exit, says |
| TransferTree.WalletAndBanks | internal/service/wallet_service.go:571-629 | the wallet leg and the bank legs make up the amount |
| TransferTree.PayoutStaysInTime | internal/service/transfer_service.go:235-250 | the payout row exists from the step that makes it, and no earlier |
| WalletService.BankFundRepo.Create | internal/repository/bank_fund_repo.go:24-31 | appends the request unless its reference is taken |
| WalletService.BankFundRepo.GetByReference | internal/repository/bank_fund_repo.go:33-57 | the request with the reference, if any |
| WalletService.BankFundRepo.UpdateStatus | internal/repository/bank_fund_repo.go:59-71 | writes the status over whatever is there, setting or clearing the completion time |
| WalletService.BankFundRepo.SumCompletedToday | internal/repository/bank_fund_repo.go:73-86 | the amount of the completed requests of the user created less than 24 hours ago |
| WalletService.WalletService.CreditWallet | internal/service/wallet_service.go:92-119 | refuses amounts that are not positive, otherwise credits the wallet just read |
| WalletService.WalletService.ProcessDepositWebhook | internal/service/wallet_service.go:261-309 | the call leaves tables and result of the deposit task run alone |
| WalletService.WalletService.RefuseFund | internal/service/wallet_service.go:315-343 | the checks before a request is written, in order, with the limit over the last 24 hours |
| WalletService.WalletService.FundFromBank | internal/service/wallet_service.go:314-407 | the call leaves tables and result of the request task run alone |
| WalletService.WalletService.CloseFund | internal/service/wallet_service.go:370-406 | whatever the initiation says, a status is written over the row unconditionally at the end |
| WalletService.WalletService.CompleteFundFromBank | internal/service/wallet_service.go:411-447 | the call leaves tables and result of the top-up task run alone |
| WalletService.WalletService.MarkCompleted | internal/service/wallet_service.go:437-439 | the mark after the credit; losing it is only logged |
| MoneyAnswers.DepositAnswers | internal/service/wallet_service.go:261-309 | a delivery alone: what each answer says about its cause, the row made, the credit and the wallet |
| MoneyAnswers.CreditedMeansPaid | internal/service/wallet_service.go:280-308 | a delivery is answered without error if and only if the table grew by one row that has its net amount credited |
| MoneyAnswers.FundAnswers | internal/service/wallet_service.go:314-407 | a request alone: what each answer says about its cause and about the row, the final status after a failed initiation included |
| MoneyAnswers.RequestsExactly | internal/service/wallet_service.go:315-354 | a request gets its row if and only if the amount is within the bounds, the bank is the own, active and verified one of the user, the sum of the day leaves room and the insert gets through |
| MoneyAnswers.WaitingMeansRequested | internal/service/wallet_service.go:392-406 | a request answers that it waits if and only if it has its row and the initiation got through |
| MoneyAnswers.TopUpAnswers | internal/service/wallet_service.go:411-447 | a delivery for a top-up alone: what each answer says about its cause, the request, the credit and the wallet |
| MoneyAnswers.ToppedUpMeansPaid | internal/service/wallet_service.go:429-446 | it reports a credit if and only if a request gained that credit |
| MoneyAnswers.OnlyOwnBanks | internal/service/wallet_service.go:322-332 | in every interleaving, a request that has passed the checks or has its row is for an active and verified bank of its user and within the bounds |
| MoneyIn.FindFund | internal/repository/bank_fund_repo.go:33-57 | the first request with the reference, and None if and only if there is none |
| MoneyLaws.StepKeepsMoneyOk | internal/service/wallet_service.go:261-447 | whichever deposit or top-up call moves next: references stay unique, a deposit is credited at most once with its net amount, and credits of a top-up equal its completion plus marks to come plus slips |
| MoneyLaws.StepBanks | internal/service/wallet_service.go:290-447 | whichever call moves, balances rise by exactly the credits it records, and nothing is held or released |
| MoneyLaws.StepKeepsLimit | internal/service/wallet_service.go:336-343 | one step of any call keeps the exposure, requests of any age counted, within the limit for k requests in flight plus what late status writes have reopened |
| MoneyLaws.ReopeningAdds | internal/service/wallet_service.go:403 | a late status write over a request completed more than a day before adds exactly its amount to the exposure |
| MoneyLaws.CarriedExactly | internal/service/wallet_service.go:280-298 | a step leaves a recorded deposit without its money if and only if it is the step in which the credit fails |
| MoneyLaws.SlipsExactly | internal/service/wallet_service.go:403-439 | a step slips if and only if it is one of the three: told from the row and the call before the step |
| MoneyLaws.OutstandingBound | internal/service/wallet_service.go:315-320 | requests not completed are worth at most the maximum each |
| MoneyLaws.TickKeepsLimit | internal/repository/bank_fund_repo.go:77-79 | the passing of time only lowers the exposure |
| MoneySerial.FailsHalfWay | internal/service/wallet_service.go:261-447 | which calls fail half-way, told before they start: a deposit that will be recorded and not credited, a top-up that will be credited and not marked |
| MoneySerial.TaskStaysInOrder | internal/service/wallet_service.go:261-447 | a call alone, whatever fails: what was recorded or completed before stays; everything is exactly credited after it if and only if it was before and the call does not fail half-way |
| MoneySerial.JobsMove | internal/service/wallet_service.go:261-447 | a serial mix of calls, whatever fails, moves each balance by the credits the rows record less the settlements |
| MoneySerial.SerialConservation | internal/service/wallet_service.go:261-447 | any serial mix of deposits, top-ups and transfers, failures included: balance = initial + recorded credits - settled debits; every deposit is paid and every completed top-up credited once if and only if no call failed half-way, and then the credits are the net of new deposits plus the accepted amounts of newly completed top-ups |
| MoneySerial.RedeliveryIsNothing | internal/service/wallet_service.go:420-422 | a delivery of a recorded deposit, a completed top-up or an unknown reference changes nothing |
| MoneyRaces.FailedCreditLosesDeposit | internal/service/wallet_service.go:280-298 | a deposit that is recorded and whose credit fails keeps a row without a credit, and a second delivery is refused and changes nothing |
| MoneyRaces.LateWriteCreditsTwice | internal/service/wallet_service.go:403 | a webhook that beats the last status write of FundFromBank: the write reopens the request and the next delivery is credited again |
| MoneyRaces.LostMarkCreditsTwice | internal/service/wallet_service.go:437-439 | a lost completion mark: the next delivery is credited again |
| MoneyRaces.OverlapCreditsTwice | internal/service/wallet_service.go:412-437 | two deliveries that both read the request first are both credited |
| MoneyRaces.LimitIsAttained | internal/service/wallet_service.go:336-343 | for every k, k open requests bring the exposure to exactly the limit for k |
| MoneyRaces.DailyLimitIsPassed | internal/service/wallet_service.go:336-343 | k requests open at a time, completed in one day, add up to exactly the limit for k: the bound is attained, and for k of two or more it is above the daily limit |
| MoneyRaces.ReopeningPassesLimit | internal/service/wallet_service.go:403 | why ExposureLimit needs its slack: if a FundFromBank stalled for a day, its last write would reopen a completed request and lift the exposure a largest top-up above the limit |
| Engine.AlwaysInv | internal/service/transfer_service.go:78-316 | the invariant of any number of transfers, deposits and top-ups holds after any events in any order |
| EngineLaws.ConstraintsNeverFire | internal/db/migrations/000001_initial.up.sql:69-71 | in every interleaving wallets change only by the named statements, and none of these violates a CHECK constraint |
| EngineLaws.WalletsAddUp | internal/repository/wallet_repo.go:76-124 | in every interleaving 0 <= available <= balance; the hold grew by what transfers hold, the balance by recorded credits less settlements; ended transfers hold what their result says |
| EngineLaws.CompletedFamilies | internal/service/transfer_service.go:140-315 | in every interleaving a completed transfer has debit legs adding up to its amount and fee, exactly one payout of the same amount and recipient, and hold plus pulls equal to what was paid out |
| EngineLaws.MoneyAtEveryExit | internal/service/transfer_service.go:158-301 | in every interleaving, at every point and every exit: child totals are those of the legs reached, pulls those of the banks that accepted, and nothing but the amount is paid out |
| EngineLaws.PullsOnlyGrow | internal/service/transfer_service.go:340-363 | requests to banks are never taken back |
| EngineLaws.FailedPayoutKeepsPulls | internal/service/transfer_service.go:258-275 | after a failed payout the hold is released if the release gets through, and everything drawn on banks stays drawn |
| EngineLaws.StatusesAreSafe | internal/repository/transaction_repo.go:136-153 | in every interleaving no row leaves COMPLETED or FAILED, and the completion time is set exactly on these |
| EngineLaws.StatusesAgree | internal/service/transfer_service.go:260-301 | a COMPLETED payout has a COMPLETED parent; under a FAILED parent the payout is FAILED if and only if its own status write got through |
| EngineLaws.ExitStatuses | internal/service/transfer_service.go:228-301 | in every interleaving: the statuses of parent and payout row that each result leaves behind |
| EngineLaws.DepositsOnce | internal/service/wallet_service.go:261-309 | in every interleaving deposit references are unique and each deposit is credited at most once, with its net amount |
| EngineLaws.DepositsCarried | internal/service/wallet_service.go:280-298 | after any events every recorded deposit is paid or about to be paid by the call that recorded it, if and only if no credit of a recorded deposit worth something has failed |
| EngineLaws.LostForEver | internal/db/migrations/000001_initial.up.sql:122 | a recorded deposit that nobody is about to pay stays unpaid whatever happens afterwards |
| EngineLaws.ExactlyOnce | internal/service/wallet_service.go:411-447 | after any events with no mark outstanding: completed top-ups have been credited once and others never, if and only if no mark was lost, no mark hit a completed request, and no late status write of FundFromBank did |
| TopUpLimit.RollingLimit | internal/service/wallet_service.go:336-343 | in every interleaving with at most k pending requests: everything requested in the last 24 hours, completed or not, is at most 100,000,000 + (k-1) * 50,000,000 kobo, late status writes included |
| TopUpLimit.DailyLimit | internal/service/wallet_service.go:33-37 | what was completed in the last 24 hours is within that limit at every instant; with one request at a time within the daily limit of 100,000,000 kobo |
| TopUpLimit.RequestedSplits | internal/repository/bank_fund_repo.go:73-80 | what was requested in the last 24 hours is what the check sums plus what is pending, which is worth at most the maximum each |
| TopUpLimit.StepKeepsDay | internal/service/wallet_service.go:336-343 | no step of any call, whatever status it writes, passes the limit for what was requested in a day |
| TopUpLimit.PendingIsInFlight | internal/service/wallet_service.go:351-358 | a bound on the requests in flight is a bound on the pending ones |
| TopUpLimit.ExposureLimit | internal/service/wallet_service.go:336-403 | with requests older than a day that are not completed counted as well, the limit holds up to what late status writes have reopened |
| TopUpLimit.PromptExposureLimit | internal/service/wallet_service.go:388-403 | and without that while no FundFromBank waits a day between its row and its last write |
| Backing.MoneyMovesOnRecord | internal/service/transfer_service.go:206-261 | in every interleaving each request to a bank has its debit leg in the table first, and each payout its payout row, with equal amount, reference and recipient |
| Interleaving.KeysStayUnique | internal/service/transfer_service.go:79-152 | if no transfer looks its key up while another with the same key is between lookup and insert, keys stay unique in every interleaving |
| Interleaving.LookupRace | internal/service/transfer_service.go:79-152 | otherwise both transfers get a parent row with the same key |
| Interleaving.KeysBreakExactlyThere | internal/db/migrations/000001_initial.up.sql:176-177 | a step makes a key label two rows if and only if it inserts a parent whose key is recorded |
| Interleaving.KeysUniqueExactlyWithout | internal/db/migrations/000001_initial.up.sql:176-177 | over a whole interleaving keys are unique if and only if no such insert has happened |
| Interleaving.AloneIsAnInterleaving | internal/service/transfer_service.go:78-316 | a transfer run alone is the interleaving that takes only its steps |
| Interleaving.TaskAloneIsAnInterleaving | internal/service/wallet_service.go:261-447 | so is a deposit or top-up call run alone |
| RateLimiter.RateLimiter.Allow | internal/middleware/auth.go:134-159 | allows a call if and only if it is the first of its key or fewer than rate calls were allowed since the last gap of a whole window |
| RateLimiter.RefillIsAllOrNothing | internal/middleware/auth.go:146-151 | whole windows fill the bucket, less than one adds nothing |
| RateLimiter.KeysAreIndependent | internal/middleware/auth.go:138-144 | deleting the calls of other keys changes nothing for a key |
| RateLimiter.SpanBound | internal/middleware/auth.go:134-159 | calls over a span of length T allow at most rate * (1 + T / window) |
| RateLimiter.Starves | internal/middleware/auth.go:146-156 | a key that used its rate up and never pauses for a whole window is refused for ever |
| RateLimiter.NoRateAllowsFirstOnly | internal/middleware/auth.go:141-144 | with a rate of zero or less exactly the first call of a key is allowed |
| RateLimiter.PausesReset | internal/middleware/auth.go:141-151 | the first call of a key, and with a positive rate each call a window or more after the one before, is allowed |
| RateLimiter.AllowedExactly | internal/middleware/auth.go:134-159 | any other call is allowed if and only if fewer than rate calls were allowed since the last such pause |
| PinLockout.UserRepo.RecordPINAttempt | internal/repository/user_repo.go:97-107 | appends the attempt, with no address if it is empty |
| PinLockout.UserRepo.RecentFailedPINAttempts | internal/repository/user_repo.go:109-119 | counts the failures of the user later than the lockout ago |
| PinLockout.UserRepo.RecentFailedPINAttemptsByIP | internal/repository/user_repo.go:121-134 | zero for the empty address, otherwise the failures from the address later than the lockout ago |
| PinLockout.AddressNeverLocks | internal/service/auth_service.go:271-273 | since every caller passes the empty address, no address is ever recorded and every count by address is zero |
| PinLockout.AuthService.CheckPin | internal/service/auth_service.go:126-201 | the lockout half of Login and VerifyPIN: counts, comparison, record |
| PinLockout.LockoutWindow | internal/service/auth_service.go:135-155 | from any log within the bound: however calls overlap, with at most k of a user between count and record, no window of the lockout length holds more than max - 1 + k failures |
| PinLockout.OverlapAttainsBound | internal/service/auth_service.go:135-155 | for every k, k wrong PINs counted before any is recorded are all let through and make max - 1 + k failures |
| PinLockout.LockedRecordsNothing | internal/service/auth_service.go:140-142 | a locked call leaves the log alone; only compared PINs are recorded |
| PinLockout.PinAnswers | internal/service/auth_service.go:135-155 | a PIN is compared for a user with fewer than max recent failures and for no other; accepted if and only if it is right; recorded either way |
| PinLockout.UncountedAnswers | internal/service/auth_service.go:126-142 | an unknown user or a failed read ends the call with its error, and nothing is compared or recorded |
| PinLockout.LocksEnd | internal/repository/user_repo.go:112-113 | once the last failure is as old as the lockout the user is let through |
| PinLockout.SuccessesDoNotCount | internal/repository/user_repo.go:112-113 | successes neither lock nor unlock |
| Replay.InMemoryIDKeyStore.Get | internal/middleware/idempotency.go:101-109 | looks up path, colon, key |
| Replay.InMemoryIDKeyStore.Set | internal/middleware/idempotency.go:111-116 | stores under path, colon, key |
| Replay.IdempotencyResponseWriter.Apply | internal/middleware/idempotency.go:72-80 | notes the last status and every byte, and passes both on |
| Replay.Idempotency.RunRecorded | internal/middleware/idempotency.go:53-56 | while a handler runs on the recording writer, the client gets what it would get without it |
| Replay.Idempotency.ServeHTTP | internal/middleware/idempotency.go:22-64 | the middleware with its recording writer serves a request as specified |
| Replay.SteadyKeepsWhatIsSent | internal/middleware/idempotency.go:72-80 | the client gets the first final header a handler sets, or 200 if a body comes first; the recorder keeps the last header |
| Replay.ReplayIsFaithful | internal/middleware/idempotency.go:50-59 | an answer of 2xx is recorded and replayed byte for byte if and only if the last header the handler set is the first final one |
| Replay.WellBehavedIsSteady | internal/middleware/idempotency.go:53-59 | so it is for every handler that sets at most one header, before it writes |
| Replay.PassedThrough | internal/middleware/idempotency.go:25-34 | GET, HEAD, OPTIONS and requests without a key run the handler, answer what it answers, and leave the store alone |
| Replay.LongKeysAreRefused | internal/middleware/idempotency.go:36-39 | a key of more than 255 bytes is answered 400 and runs nothing |
| Replay.FirstIsRecorded | internal/middleware/idempotency.go:52-59 | a keyed request without an entry runs the handler and answers what it answers; the entry made under path, colon, key has its last status and all its bytes, if and only if that status is 2xx |
| Replay.KnownIsReplayed | internal/middleware/idempotency.go:44-49 | with an entry the handler does not run, and the recorded status and bytes are the answer |
| Replay.EntriesStay | internal/middleware/idempotency.go:44-50 | stored entries are never changed or removed |
| Replay.EntriesAreSuccesses | internal/middleware/idempotency.go:56-58 | only 2xx responses are stored |
| Replay.NextIsReplayed | internal/middleware/idempotency.go:44-59 | after a request that ran and was answered 2xx, the next one for the entry runs no handler and gets the identical answer if and only if the first handler was steady |
| Replay.SuccessIsReplayed | internal/middleware/idempotency.go:44-59 | after a steady handler answered 2xx, every later request for the entry gets that answer and runs no handler |
| Replay.SuccessAtMostOnce | internal/middleware/idempotency.go:44-59 | in a run of well-behaved handlers 2xx is reached at most once for an entry |
| Replay.EntriesAreShared | internal/middleware/idempotency.go:104 | whoever uses the path and the key gets the recorded answer: the entry names no user |
| ReplayOverlap.AloneIsServed | internal/middleware/idempotency.go:44-59 | a request that nobody overlaps is served as the middleware serves it |
| ReplayOverlap.OneSuccessForEntry | internal/middleware/idempotency.go:44-59 | in every interleaving in which no request is looked up while another one runs for its entry, at most one handler reaches 2xx for an entry |
| ReplayOverlap.OverlapRunsBoth | internal/middleware/idempotency.go:44-59 | two requests looked up first both run their handlers, and the later recording stands |
| Replay.SecondStatusRunsAgain | internal/middleware/idempotency.go:56-58 | a handler that sends 200 and then sets 500: nothing is recorded and a retry runs it again |
| Replay.SecondStatusIsReplayed | internal/middleware/idempotency.go:50-51 | a handler that sends 201 and then sets 202: the retry is answered 202 |
| Replay.ReplaysAgree | internal/middleware/idempotency.go:44-50 | replays of one key are the same for ever |
| Replay.CompositeTellsApart | internal/middleware/idempotency.go:104 | paths without a colon: requests share an entry if and only if path and key agree |
| Replay.CompositeCollides | internal/middleware/idempotency.go:104 | with a colon in the path different requests can share one |
| Chat.ChatHandler.StorePending | internal/handler/chat_support.go:130-136 | overwrites the slot of the user |
| Chat.ChatHandler.LoadPending | internal/handler/chat_support.go:138-151 | reads the slot of the user |
| Chat.ChatHandler.ClearPending | internal/handler/chat_support.go:153-157 | empties the slot of the user |
| Chat.ChatHandler.ToolInitiateTransfer | internal/handler/chat_tools.go:202-253 | checks the arguments and stages the transfer with its key |
| Chat.ChatHandler.ToolInitiateUnlink | internal/handler/chat_tools.go:402-431 | stages the unlinking of a bank that was found |
| Chat.ChatHandler.ToolConfirmTransfer | internal/handler/chat_tools.go:255-311 | runs the staged transfer and clears the slot only if that reports no error |
| Chat.ChatHandler.ToolConfirmUnlink | internal/handler/chat_tools.go:433-456 | unlinks the staged bank and clears the slot only if that worked |
| Chat.ChatHandler.ToolCancelAction | internal/handler/chat_tools.go:313-316 | clears the slot |
| Chat.ChatHandler.ShortcutConfirm | internal/handler/chat.go:205-226 | the keyword reaches the confirmation of whatever kind is staged |
| Chat.LastEffectIsLast | internal/handler/chat_tools.go:202-456 | the turn that decides what is live is the last one of the user whose reply staged or ended something |
| Chat.SlotSince | internal/handler/chat_support.go:130-157 | the slot is what that turn wanted if its write got through, and otherwise what it was before |
| Chat.SlotIsLive | internal/handler/chat_support.go:130-157 | the slot holds exactly the live action, told from commands and replies, if and only if the last write for the user got through or the slot held the same already |
| Chat.OnlyLiveActionsExecute | internal/handler/chat_tools.go:255-456 | a turn moves money or unlinks a bank only as a confirmation, and if the last write for its user got through it executes exactly the live action |
| Chat.OlderActionsExecute | internal/handler/chat_tools.go:255-456 | if it did not, it executes at most what the slot held before that write |
| Chat.OneParentPerKey | internal/handler/chat_tools.go:238 | all confirmations together make at most one parent row for each key |
| Chat.LostStoreKeepsOld | internal/handler/chat_support.go:130-136 | a staging whose write to Redis is lost still answers pending, and the confirmation runs the older transfer |
| Chat.LostCancelKeepsOld | internal/handler/chat_support.go:153-157 | a cancellation whose delete is lost is answered as one, and the confirmation still runs the transfer |
| Chat.ReconfirmIsAnsweredAsSuccess | internal/handler/chat_tools.go:263-280 | confirming an action whose key is recorded moves nothing and is answered as a success |
| Chat.AmountsAreCutOff | internal/handler/chat_tools.go:218 | kobo are whole naira cut off; exactly amounts below one naira pass the check and stage zero |
| ChatAnswers.StagingAnswers | internal/handler/chat_tools.go:202-253 | each reply to a staging, exactly; after the one that asks for confirmation the slot holds account, bank and name as given (or the resolved name), whole naira as kobo, and the key of user, colon and digest |
| ChatAnswers.UnlinkStagingAnswers | internal/handler/chat_tools.go:402-431 | the unlinking staged is that of the bank found; otherwise nothing is staged |
| ChatAnswers.KeysTellUsersApart | internal/handler/chat_tools.go:238 | keys agree if and only if user and digest do, for user names without a colon |
| ChatAnswers.ConfirmAnswers | internal/handler/chat_tools.go:255-283 | each reply to a confirmation, exactly, and when the slot is cleared |
| ChatAnswers.UnlinkAnswers | internal/handler/chat_tools.go:433-456 | each reply to the confirmation of an unlinking, exactly |
| ChatAnswers.ShortcutAnswers | internal/handler/chat.go:205-226 | the keyword does what the tool for the staged kind does |
| ChatAnswers.StagedIsPaidOut | internal/handler/chat_tools.go:202-283 | over any run of turns of all users: if a staged transfer is confirmed, its user having staged and ended nothing else, and the reply is a completed transfer, the tables have a new completed parent row and a completed payout row with account, bank, name, amount and key of the arguments staged |
| ChatAnswers.StagedIsUnlinked | internal/handler/chat_tools.go:402-456 | likewise the bank unlinked is the one that was staged |

## Left out

- 64-bit wrap-around of amounts: amounts are integers without bound.
- Floating-point conversions and display formatting: amounts are kobo throughout, except that the naira
  amount of the chat tool is a real number.
- Isolation levels, transactions of the database driver, and partial failure inside one statement.
- The clock within one transfer: all its rows carry the same creation and completion time.
- Provider clients, signatures, JWT, bcrypt, HTTP routing, audit and wallet_transactions rows, logging.
- failure_reason and provider_ref columns, and the audit rows written on failures.
- The unsynchronised map write of the refresh loop beside its tasks (internal/service/wallet_service.go:511):
  each write is taken as atomic.
- UpdateBalance in the background after a refresh: it does not take part in the plan.
- Sourcing.BuildDebitPlan: asks for accounts with distinct ids, which the primary key of the table gives.
- Transactions.TransactionRepo.GetByIdempotencyKey: answers the oldest row; with several rows of one key the
  database may answer any of them, which matters only after the race of LookupRace.
- Engine.AlwaysInv: a transfer for a negative amount does not start, because both handlers refuse it.
- The nil wallet in CompleteFundFromBank (internal/service/wallet_service.go:424-429): the crash is a result
  that changes nothing.
- TransactionFilter.PagesTile: one order of the rows for all pages; the query leaves rows of the same creation time in
  any order, which SeparatePagesTile and TiesCanHideRows are about.
- PinLockout.AuthService.CheckPin: Login and VerifyPIN differ in how they find the user and in the session that
  follows, and only their common half is modelled.
- Replay.Idempotency.ServeHTTP: the body of the refusal of a long key, response headers, handlers that panic,
  invalid status codes, and the Redis store with its expiry.
- Chat.ChatHandler.ToolInitiateTransfer: the look-up of a missing recipient name is a parameter, and the digest of
  the arguments is an opaque string.
- Chat.OnlyLiveActionsExecute: the turns of all users are taken one at a time; what happens when a write to Redis is
  lost is OlderActionsExecute.
- Ten-minute expiry of staged actions as time: an expiry may come at any moment.
- The agent loop and its prompt, chat history and caches, account issuing and bank linking: easy members or I/O.
- ChangePIN, Register and RefreshToken: they take no part in the lockout or the ledger.
