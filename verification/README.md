# VRP payment platform: a verified model

This project models the money-moving core of the variable-recurring-payment platform and proves what it keeps:
the payment saga with its compensations and crash recovery, consent limits, the double-entry ledger, the bank's
records, the idempotency protocol, the transactional outbox, risk velocity windows, and the error codec. The command
`dafny verify dfyconfig.toml` covers all of it.

## How the model is built

* **Stores.** `Ledger.dfy`, `Consent.dfy`, `Bank.dfy` and `Payments.dfy` each hold one store: its tables as values,
  its transactions as functions, and a class whose methods update the fields as the service does and are proved
  equal to the functions. `LedgerLaws.dfy` and `ConsentLaws.dfy` prove what every history of calls keeps.
* **The saga.** `Saga.dfy` is a machine that makes one downstream call per step over a `World` of the four stores;
  an `Answer` says what becomes of that call. `Orchestrator.dfy` is the orchestrator as a class driving the four
  store objects; each of its methods is proved to do exactly what the machine does, for every script of answers.
* **The platform.** `Platform.dfy` lets any number of payments interleave call by call, with crashes at any point,
  the reconciler, retries and consent administration. A run is any finite sequence of labels. `Slice` is all that
  the stores hold about one payment; a call for one payment leaves the slices of the others alone (`AdvanceFrame`).
* **Every run.** `AllRuns.dfy` and `Audit.dfy` prove what holds of all runs whatsoever, torn writes and crashes
  in the wrong place included.
* **Clean runs.** The code cannot repair four accidents: the write of the bank reference failing after the bank
  took the money; the ledger not answering a resumed payment whose entry it already has; a crash, or a lost final
  mark, over half-undone stores; and a retry of a payment that already had a reservation. `CleanRuns.dfy` defines
  these (`Safe`) and proves that without them the saga is all-or-nothing; `Conservation.dfy` derives the balances.
  `OrdinaryRuns.dfy` shows that runs whose key writes succeed, which crash only at checkpoints and have no retries
  are clean. `Recovery.dfy`, `Attempts.dfy` and `Retries.dfy` show for each accident exactly when it happens and
  what it leaves behind; `Accidents.dfy` reaches each of them by a run.
* **Terms.** `Terms.dfy` proves that a payment's amount, consent and consumer reach every store unchanged;
  `BankBooks.dfy` that bank and ledger agree on the money; `Endings.dfy` how refusals end and when the idempotency key
  is completed.
* **Consent.** `ConsentRules.dfy` has the exact conditions of each operation and what revocation and expiry are for;
  `ConsentRuns.dfy` carries the limits and these over to runs of the platform.
* **Beside it.** `Compensation.dfy`, `Reconciliation.dfy`, `Idempotency.dfy`, `Outbox.dfy`, `Velocity.dfy`,
  `ErrorCodec.dfy`, `Fee.dfy` and `Split.dfy`.

## Assumptions

* A remote call or a transaction either errs with no effect or takes full effect. A status write is two statements
  without a transaction, so it may also be torn: the row written, its event not, and an error returned.
* At most one actor works on a payment at a time: the reconciler takes up only payments nobody works on.
* Payment ids are strings of 36 characters; reservation ids and bank references are new and not empty when generated.
* Retries, crashes in unrecorded places and lost key writes are part of the model; theorems about clean runs name
  them as the accidents they exclude.

## Where a promise does not hold

* A one-penny payment never settles: the whole penny is the fee, and the ledger refuses the zero merchant line
  (`Split.SplitAcceptedIff`, `Attempts.SettledIsPostable`).
* If the bank reference cannot be written, the payment ends FAILED with the money taken (`Attempts.LostReferenceIff`).
* If the ledger does not answer the reconciler after it had posted the entry, the payment ends FAILED with the entry
  standing (`Attempts.StandingEntryIff`).
* A crash between the reservation and its recording leaves a hold that recovery does not release
  (`Recovery.UnrecordedHoldStays`; exactly what recovery can mend: `Recovery.RecoveryIsCleanIff`).
* A retry of a payment that had a reservation settles on a RELEASED one, without usage (`Retries.RetryIsCleanIff`), and
  after a reversal with no money in the ledger either (`Retries.RetryAfterReversal`).
* With a monthly maximum close to 2^63 the sum in the limit check wraps and the limit is exceeded
  (`ConsentLaws.OverflowBreaksLimit`; exactly when: `ConsentLaws.LimitKeptIffNoOverflow`).
* The validation loop of the ledger compares 64-bit sums that may have wrapped; only the constraint trigger keeps
  such an entry out (`LedgerLaws.TriggerIsNeeded`).
* `platformFee` is one percent only while `amount * 100` fits 64 bits (`Fee.FeeIsOnePercent`).
* DUPLICATE_IDEMPOTENCY_KEY does not survive the wire (`ErrorCodec.RoundTripIff`).

## Model

| member | source | states |
|---|---|---|
| Fee.FeeBounds | services/payment-svc/internal/saga.go:489-498 | for every positive int64 amount, wrap-around included, 1 <= fee <= amount, and the merchant gets something iff the amount is at least 2 |
| Fee.FeeIsOnePercent | services/payment-svc/internal/saga.go:489-498 | the fee is max(1, amount/100) iff amount*100 fits 64 bits |
| Basics.UpperIs | services/payment-svc/internal/saga.go:199 | upper-casing touches the letters a to z and nothing else |
| Basics.TrimIs | services/payment-svc/internal/saga.go:199 | trimming cuts white space, and only that, off both ends |
| Split.RowsMoveShares | services/payment-svc/internal/saga.go:299-326 | the three journal rows of a payment balance and move each account by its share: consumer -amount, merchant amount-fee, platform fee |
| Split.SplitAcceptedIff | services/ledger-svc/internal/store.go:44-78 | the saga's three lines pass the validation loop iff owners and currency are present and the amount is at least 2 |
| Split.PostSucceedsIff | services/ledger-svc/internal/store.go:36-150 | posting a payment succeeds iff it is postable, whether or not it was posted before |
| Split.PostedAs | services/payment-svc/internal/saga.go:303-306 | a new entry has the payment's rows and the text of who posted it |
| Ledgers.AcceptedMeans | services/ledger-svc/internal/store.go:44-78 | the loop accepts iff every line names a type, an owner, DR or CR, a positive amount and a three-letter currency, all currencies agree, and the sides differ by a multiple of 2^64 |
| Ledgers.ValidateLines | services/ledger-svc/internal/store.go:44-78 | the loop in place: accepts exactly those postings and leaves the currencies normalised |
| Ledgers.WithSerializable | services/ledger-svc/internal/store.go:400-414 | at most five attempts, at most one commit, after serialization failures only; gives up iff all five fail so |
| Ledgers.LedgerStore.EnsureAccount | services/ledger-svc/internal/store.go:385-398 | an account is added once |
| Ledgers.LedgerStore.InsertEntry | services/ledger-svc/internal/store.go:91-140 | entry, lines and missing accounts are added, nothing else changes |
| Ledgers.LedgerStore.PostDoubleEntry | services/ledger-svc/internal/store.go:36-150 | full effect and answer of a posting under every transaction verdict, errors leaving the books alone |
| Ledgers.LedgerStore.ReverseEntry | services/ledger-svc/internal/store.go:152-264 | full effect and answer of a reversal under every transaction verdict |
| Ledgers.LedgerStore.GetBalance | services/ledger-svc/internal/store.go:266-301 | credits minus debits over all journal lines of the account, GBP by default; refused iff an argument is invalid, an error iff the sum does not fit 64 bits |
| Ledgers.PostIff | services/ledger-svc/internal/store.go:36-150 | when a posting succeeds and with which error it fails; a new one stores exactly its lines, a known one changes nothing |
| Ledgers.ReverseIff | services/ledger-svc/internal/store.go:152-264 | when a reversal succeeds and with which error it fails; the mirror entry has every line flipped |
| LedgerLaws.PostKeepsBooks | services/ledger-svc/internal/store.go:81-145 | a posting keeps the books: keys unique, every entry balanced in one currency over known accounts |
| LedgerLaws.ReverseKeepsBooks | services/ledger-svc/internal/store.go:152-264 | so does a reversal, and reversing a posted entry never fails |
| LedgerLaws.TrialBalance | services/ledger-svc/internal/store.go:36-301 | after any sequence of postings and reversals every entry balances in one currency and the balances of each currency sum to zero |
| LedgerLaws.TriggerIsNeeded | migrations/ledger/000001_init.up.sql:28-59 | a posting that passes the wrapped loop unbalanced, and is refused by the trigger only |
| LedgerLaws.ReversalCancels | services/ledger-svc/internal/store.go:173-256 | reversing a posted entry flags it, cancels it on every account, and repeating it changes nothing |
| LedgerLaws.ExactReversal | services/ledger-svc/internal/store.go:81-264 | for any history over client ids: flagged iff the "-rev" entry exists, no reversal of a reversal, pairs cancel, repeats and re-posts change nothing |
| LedgerLaws.ReservedSuffixIsNeeded | services/ledger-svc/internal/store.go:173-184 | post an id, post another entry under its "-rev", reverse the id: it is flagged and both postings stand, whatever the amounts |
| Consents.ConsentService.ReadRollingUsage | services/consent-svc/internal/repo.go:175-209 | the two rolling sums: usage of the last 30 days and unexpired holds |
| Consents.ConsentService.ValidateAndReserve | services/consent-svc/internal/service.go:185-300 | full effect and answer of a reservation, every error branch included |
| Consents.ConsentService.ConfirmReservation | services/consent-svc/internal/service.go:302-341 | full effect and answer of a confirmation |
| Consents.ConsentService.ReleaseReservation | services/consent-svc/internal/service.go:343-375 | full effect and answer of a release |
| Consents.ConsentService.GetRollingUsage | services/consent-svc/internal/service.go:377-406 | used plus held, the remaining allowance and the number of transactions, every error branch included |
| Consents.ConsentService.CountTransactions | services/consent-svc/internal/repo.go:211-218 | the usage rows of the last 30 days, an error iff the count does not fit 32 bits |
| Consents.ConsentService.CreateConsent | services/consent-svc/internal/service.go:59-105 | limits are validated and the bank reference is unique |
| Consents.ConsentService.RevokeConsent | services/consent-svc/internal/service.go:132-166 | revocation by the owning merchant, idempotent |
| ConsentLaws.UsageIsExactlyConfirmed | services/consent-svc/internal/repo.go:244-268 | after any history a usage row exists iff the payment's reservation is CONFIRMED, with the same consent and amount |
| ConsentLaws.FinalRowsStay | services/consent-svc/internal/service.go:302-375 | no operation changes a CONFIRMED or RELEASED reservation |
| ConsentRules.ReserveIff | services/consent-svc/internal/service.go:185-300 | a first reservation is granted iff the arguments are present, the consent exists, is active and not expired, the currency agrees, and the amount is within both limits; it then holds that amount for 600 seconds |
| ConsentRules.RefusalReason | services/consent-svc/internal/service.go:227-258 | which error a refusal answers, in the order of the checks |
| ConsentRules.ConfirmIff | services/consent-svc/internal/service.go:302-341 | succeeds iff it names an unreleased reservation of that payment, which is then CONFIRMED and counted once; every error code |
| ConsentRules.ReleaseIff | services/consent-svc/internal/service.go:343-375 | succeeds iff it names an unconfirmed reservation, which is then RELEASED and nothing else changes; every error code |
| ConsentRules.CreateIff | services/consent-svc/internal/service.go:59-105 | created iff parties and limits are in order and id and bank reference are new; active at once, in pounds by default |
| ConsentRules.RevokeIff | services/consent-svc/internal/service.go:132-166 | revoked iff it exists, belongs to the merchant who asks and is active or revoked already; nobody else changes anything |
| ConsentRules.ReportIff | services/consent-svc/internal/service.go:377-406 | when the usage report is made, and which error it answers otherwise |
| ConsentRules.CountsFor | services/consent-svc/internal/repo.go:175-218 | a hold counts until its expiry, a usage for exactly thirty days |
| ConsentRules.HoldLifetime | services/consent-svc/internal/repo.go:220-234 | a granted reservation raises what is held by its amount for 600 seconds and by nothing after |
| ConsentRules.UsageLifetime | services/consent-svc/internal/repo.go:244-268 | a confirmed hold raises what is used by its amount for thirty days and is no longer held |
| ConsentRules.ClosedForGood | services/consent-svc/internal/service.go:235-242 | once a consent is revoked, or from its expiry on, no continuation puts another hold on it |
| ConsentLaws.RollingLimit | services/consent-svc/internal/service.go:251-258 | over every history with a monotone clock, at every instant, timely usage in the window plus unexpired holds is within the monthly maximum |
| ConsentLaws.LimitKeptIffNoOverflow | services/consent-svc/internal/service.go:251-258 | an accepted reservation keeps used plus held within the maximum iff the checked sum fits 64 bits |
| ConsentLaws.OverflowBreaksLimit | services/consent-svc/internal/service.go:251-258 | a reachable history in which two holds of the whole maximum are accepted |
| ConsentLaws.TimelyLimit | services/consent-svc/internal/service.go:185-341 | with timely confirmations and maxima that leave room for one more payment, no addition overflows and used plus held is always within the maximum |
| ConsentLaws.RemainingAgrees | services/consent-svc/internal/service.go:280-293 | then the remaining allowance answered, fresh or repeated, needs no clamp and equals what GetRollingUsage reports, if that report can be made at all |
| ConsentRuns.RunIsHistory | services/payment-svc/internal/saga.go:206-487 | after every run of the platform the consent tables are those of the history of its consent calls |
| ConsentRuns.PlatformLimit | services/consent-svc/internal/service.go:251-258 | so in every run with a monotone clock, whatever interleaves, crashes or is retried, timely usage plus unexpired holds is within every monthly maximum unless an addition overflowed |
| ConsentRuns.PlatformTimelyLimit | services/consent-svc/internal/service.go:185-341 | with timely confirmations and roomy maxima nothing overflows and used plus held is within every monthly maximum |
| ConsentRuns.ClosedOnThePlatform | services/consent-svc/internal/service.go:235-242 | the same over runs of the platform: no saga, retry or reconciliation gets a hold on a revoked or expired consent |
| Banks.ReverseOnce | services/bank-adapter/internal/mockbank/server.go:182-227 | a reversal succeeds iff the record exists and is not rejected, gives exactly that money back, and is idempotent |
| Banks.InitiateIff | services/bank-adapter/internal/mockbank/server.go:111-154 | a request is taken iff it names a payment, a consent and a positive amount; exactly that amount, payment, consumer and consent are recorded, in pounds by default, and no other record changes |
| Banks.BankServer.HandleInitiate | services/bank-adapter/internal/mockbank/server.go:111-154 | a well-formed request is settled under a new reference, others refused |
| Banks.BankServer.RecordRejection | services/bank-adapter/internal/mockbank/server.go:240-259 | a rejection is recorded without a payment |
| Banks.BankServer.HandleStatus | services/bank-adapter/internal/mockbank/server.go:156-180 | the recorded status, or none |
| Banks.BankServer.HandleReverse | services/bank-adapter/internal/mockbank/server.go:182-227 | full effect and answer of a reversal |
| Payments.PaymentRepo.Create | services/payment-svc/internal/repo.go:67-95 | one row per idempotency key, then its first event; lost and torn inserts |
| Payments.PaymentRepo.InsertEvent | services/payment-svc/internal/repo.go:401-424 | the event is appended to the payment's own trail |
| Payments.PaymentRepo.UpdateStatus | services/payment-svc/internal/repo.go:184-327 | row, then event, then the copy in memory; lost and torn writes |
| Payments.PaymentRepo.SettleWithOutbox | services/payment-svc/internal/repo.go:252-288 | row, event and outbox row together, or nothing |
| Payments.PaymentRepo.Reset | services/payment-svc/internal/repo.go:329-365 | only a FAILED row restarts, with its references cleared |
| Orchestration.Orchestrator.RunSaga | services/payment-svc/internal/saga.go:206-361 | for every script of answers the saga leaves the four stores as the step machine does, and reports the same verdict |
| Orchestration.Orchestrator.Retry | services/payment-svc/internal/saga.go:83-100 | a FAILED row is reset and the saga runs again as the machine does; otherwise nothing happens |
| Orchestration.Orchestrator.AfterConsent | services/payment-svc/internal/saga.go:246-271 | the same from the risk step on |
| Orchestration.Orchestrator.FromBank | services/payment-svc/internal/saga.go:273-297 | the same from the bank step on |
| Orchestration.Orchestrator.FromSaveBank | services/payment-svc/internal/saga.go:294-297 | the same from the recording of the bank reference on |
| Orchestration.Orchestrator.FinishFromLedger | services/payment-svc/internal/saga.go:299-361 | the same from the ledger step on |
| Orchestration.Orchestrator.SettleAndConfirm | services/payment-svc/internal/saga.go:332-361 | the same from the settlement on, with the full compensation when it fails |
| Orchestration.Orchestrator.UndoSettlement | services/payment-svc/internal/saga.go:334-342 | the same for a settlement that failed |
| Orchestration.Orchestrator.FromSaveConsent | services/payment-svc/internal/saga.go:235-244 | the same from the recording of the reservation on |
| Orchestration.Orchestrator.PostLines | services/payment-svc/internal/saga.go:299-330 | the three lines are posted, or the ledger is left alone |
| Orchestration.Orchestrator.ConfirmAndConclude | services/payment-svc/internal/saga.go:344-361 | the same from the confirmation on: its error does not fail the payment |
| Orchestration.Orchestrator.MarkAndConclude | services/payment-svc/internal/saga.go:427-440 | FAILED or MANUAL_REVIEW is recorded, then on a first attempt the idempotency key |
| Orchestration.Orchestrator.Conclude | services/payment-svc/internal/saga.go:173-176 | the key names the payment unless the call fails |
| Orchestration.Orchestrator.ResumeFromLedger | services/payment-svc/internal/saga.go:365-418 | the same for a resumed payment |
| Orchestration.Orchestrator.CompensateStale | services/payment-svc/internal/saga.go:421-440 | the same for a stale payment that is rolled back |
| Orchestration.Orchestrator.FailAndCompensate | services/payment-svc/internal/saga.go:427-440 | the same for a failed step |
| Orchestration.Orchestrator.Compensate | services/payment-svc/internal/saga.go:442-468 | bank and consent are both attempted, whichever fails |
| Orchestration.Orchestrator.CompensateFull | services/payment-svc/internal/saga.go:470-487 | ledger, bank and consent are all attempted, whichever fail |
| Orchestration.UndoAllIsTheMachine | services/payment-svc/internal/saga.go:470-487 | the three undos as one call are three steps of the machine |
| Platform.AdvanceFrame | services/payment-svc/internal/saga.go:206-487 | a call made for one payment changes nothing stored about another |
| AllRuns.RunKeepsInv | services/payment-svc/internal/saga.go:206-487 | in every run the stores and whoever works on a payment fit together |
| AllRuns.OneEventPerSettlement | services/payment-svc/internal/repo.go:252-288 | in every run, retries included, the outbox insertions of a payment number 1 if it is SETTLED and 0 otherwise |
| AllRuns.UsageOnlyIfSettled | services/payment-svc/internal/saga.go:332-357 | in every run a usage row belongs to a SETTLED payment with a CONFIRMED reservation |
| AllRuns.OneRowPerKey | services/payment-svc/internal/repo.go:67-95 | in every run at most one payment is stored under an idempotency key |
| Terms.RunKeepsTerms | services/payment-svc/internal/saga.go:206-361 | in every run holds, bank records, rows and actors carry the terms of their payment |
| Terms.BankIsAskedForThePayment | services/payment-svc/internal/saga.go:273-284 | in every run whatever the bank records for a payment is for its amount and currency, on behalf of its consent's consumer under that consent's reference |
| Terms.HoldIsForThePayment | services/payment-svc/internal/saga.go:210-216 | in every run a payment's reservation and usage are for its amount under its consent |
| Terms.OnlyScreenedProceed | services/payment-svc/internal/saga.go:246-271 | in every run a payment past the risk check was not declined, and one past the reservation names the consent's consumer |
| Endings.DeclinedNeverSettles | services/payment-svc/internal/saga.go:257-267 | in any world, an attempt whose risk check declines or does not answer fails, leaves bank and ledger as they were and the payment unsettled |
| Endings.DeclinedIsUndone | services/payment-svc/internal/saga.go:257-267 | in a clean run, every other call succeeding, a declined payment ends FAILED with its hold released and nothing left anywhere |
| Endings.RejectedNeverSettles | services/payment-svc/internal/saga.go:283-293 | a bank that rejects or does not answer moves no payment's money, and the attempt fails |
| Endings.ScoreIsRecorded | services/payment-svc/internal/saga.go:268-271 | a score that passes is recorded as it was answered, and the payment goes on to the bank |
| Endings.KeyIsCompletedIff | services/payment-svc/internal/saga.go:172-176 | in any world the idempotency key is completed iff the call gets through and the attempt is a first one, or a resumed one that settled |
| Audit.StatusMachine | services/payment-svc/internal/repo.go:184-365 | in every run each row moves only along the edges of the status machine; SETTLED and MANUAL_REVIEW are for good, only a retry restarts FAILED, a recorded bank reference is kept until a retry, AUTHORISING and SETTLED have one |
| Audit.ReferenceStays | services/payment-svc/internal/repo.go:230-250 | a row that reached AUTHORISING keeps its bank reference until a retry, so a row without one never reached it in this attempt |
| Audit.AuditTrail | services/payment-svc/internal/repo.go:401-424 | in every run without torn writes the events of a payment are one unbroken chain of legal moves from its creation to its status |
| CleanRuns.AllOrNothing | services/payment-svc/internal/saga.go:206-487 | at every moment of every clean run: SETTLED means taken by the bank, an unreversed entry moving each account by its share, and no release; FAILED means not with the bank, no net ledger effect, no hold |
| CleanRuns.CheckpointCrashIsSafe | services/payment-svc/internal/reconciliation.go:54-93 | a crash where the last step has been recorded leaves the payment recoverable |
| Conservation.BalanceIsSumOfNets | services/ledger-svc/internal/store.go:281-289 | every balance is the sum of the net effects of the payments |
| Conservation.Conserved | services/payment-svc/internal/saga.go:206-361 | in every clean run with nothing in flight or in manual review, each balance is the sum of that account's shares of the SETTLED payments |
| Conservation.ConservedByOwner | services/payment-svc/internal/saga.go:299-326 | per currency: consumer = -sum of amounts, merchant = sum of amounts less fees, platform = sum of fees |
| BankBooks.BankMeetsLedger | services/payment-svc/internal/saga.go:273-326 | in every quiet state of a clean run, per currency, the amounts of the bank's settled records of a consumer add up to what the ledger has debited that consumer |
| OrdinaryRuns.OrdinaryRunsAreClean | services/payment-svc/internal/saga.go:275-297 | runs whose key writes succeed, which crash only at checkpoints and have no retries, are clean |
| Attempts.AttemptIsAllOrNothing | services/payment-svc/internal/saga.go:206-361 | under every combination of step and compensation outcomes, key writes succeeding, an attempt ends SETTLED, FAILED or MANUAL_REVIEW, reports success iff SETTLED, and the stores agree |
| Attempts.SettledIsPostable | services/payment-svc/internal/saga.go:299-330 | in a clean run only postable payments settle |
| Attempts.LostReferenceIff | services/payment-svc/internal/saga.go:294-297 | with every other call succeeding the stores agree with the ending iff the bank reference was written; otherwise FAILED with the money taken |
| Attempts.StandingEntryIff | services/payment-svc/internal/saga.go:365-396 | with every other call succeeding the stores agree with the ending iff the ledger answers or has no entry yet; otherwise FAILED with the entry standing |
| Recovery.ResumeRefines | services/payment-svc/internal/saga.go:299-418 | for attempts of every kind: going on, crashing before the ledger step and being resumed, or crashing after it and being resumed all end with the same rows, events, outbox, bank, balances, reservation and usage, up to text and time; the idempotency key names the payment, except that a retry that goes on leaves it alone |
| Recovery.RecoveryIsCleanIff | services/payment-svc/internal/reconciliation.go:54-93 | in every run, any stale payment taken up with every call succeeding ends SETTLED or FAILED, and the stores agree iff they were mendable: the money known and nothing undone, or nothing out but a hold the row knows, or, if the ledger refuses the payment, the money known and nothing posted |
| Recovery.UnrecordedHoldStays | services/payment-svc/internal/saga.go:206-243 | a stale INITIATED payment whose reservation was not recorded ends FAILED with the hold standing |
| Retries.AttemptIsFrozen | services/consent-svc/internal/service.go:203-224 | once the hold is RELEASED and the entry reversed, no attempt changes consent or ledger, whatever it is answered |
| Retries.ConsentIsFrozen | services/consent-svc/internal/service.go:203-224 | once the hold is RELEASED no attempt changes the consent tables, whatever it is answered |
| Retries.SagaRun | services/payment-svc/internal/saga.go:206-361 | an attempt whose every call succeeds settles |
| Retries.RetryAfterReversal | services/ledger-svc/internal/store.go:81-86 | so a retry after a reversal, every call succeeding, settles with the money taken, zero ledger effect, no usage and a RELEASED reservation |
| Retries.RetryIsCleanIff | services/consent-svc/internal/service.go:203-224 | a retry whose every call succeeds settles, and the stores agree with that iff the earlier attempt got no reservation; otherwise it settles on a RELEASED one, without usage |
| Retries.RetrySettles | services/payment-svc/internal/saga.go:83-100 | a retry whose every call succeeds is SETTLED with the money taken |
| Retries.RetryEffect | services/payment-svc/internal/repo.go:329-365 | a reset forgets reservation, bank reference and score and keeps the rest |
| Retries.RetryingIsNext | services/payment-svc/internal/saga.go:83-100 | the retry these lemmas speak of is the platform's own |
| Accidents.LostReferenceHappens | services/payment-svc/internal/saga.go:294-297 | a concrete clean run reaches the write of the bank reference, and losing it ends FAILED with the money taken |
| Accidents.StandingEntryHappens | services/payment-svc/internal/saga.go:365-396 | a concrete clean run reaches a resumed attempt whose entry is posted, and a silent ledger ends it FAILED with the entry standing |
| Accidents.RetryAfterReversalHappens | services/payment-svc/internal/saga.go:83-100 | a concrete clean run reaches a payment whose retry settles with no ledger effect and no usage |
| Accidents.UnrecordedHoldHappens | services/payment-svc/internal/saga.go:206-243 | a concrete run crashes between the reservation and its recording, and recovery ends FAILED with the hold standing |
| Compensation.OutcomeOfRepeatedCalls | services/payment-svc/internal/saga.go:442-487 | from any state, any number of partially failing compensations amount to undoing once each participant that some call reached |
| Compensation.CompensationConverges | services/payment-svc/internal/saga.go:442-487 | after a failed settlement each participant is undone iff some call reached it, and once all are a further call succeeds and changes nothing |
| Reconciliation.ReconciliationWorker.List | services/payment-svc/internal/repo.go:129-164 | the oldest stale in-flight payments, at most fifty |
| Reconciliation.ReconciliationWorker.Reconcile | services/payment-svc/internal/reconciliation.go:61-92 | resume if the bank says SETTLED, skip if it does not answer, roll back otherwise |
| Reconciliation.ReconciliationWorker.ReconcileStalePayments | services/payment-svc/internal/reconciliation.go:54-93 | the pass over the listing, in order |
| Reconciliation.TakeUpEffect | services/payment-svc/internal/reconciliation.go:68-91 | a stale payment reaches a terminal status whatever ledger, consent and bank reversals answer, and the others are left alone |
| Reconciliation.TakeUpDecides | services/payment-svc/internal/reconciliation.go:68-91 | left alone while the bank does not answer, rolled back if it was never asked, resumed iff it says SETTLED |
| Reconciliation.PassDrains | services/payment-svc/internal/reconciliation.go:54-93 | a pass removes exactly the listed payments from the stale ones |
| Reconciliation.ReconciliationDrains | services/payment-svc/internal/reconciliation.go:54-93 | from any state of any run, k passes leave max(0, N - 50k) of N stale payments |
| Idempotency.Agreement | services/payment-svc/internal/saga.go:102-187 | over every interleaving, expiry, error and crash: at most one row and one first-attempt saga per key, and every call that returns a payment returns that id (that calls do return it: StoredIsReturned and FreshIsStored) |
| Idempotency.RowStays | services/payment-svc/internal/repo.go:67-95 | the row once stored is the row for good |
| Idempotency.StoredIsReturned | services/payment-svc/internal/saga.go:110-137 | from any state of any run in which the payment is stored, whatever Redis shows, a new call whose own calls are answered returns it and stores nothing |
| Idempotency.FreshIsStored | services/payment-svc/internal/saga.go:139-187 | on a free key the payment is stored, its saga runs once, the key names it and it is returned |
| Idempotency.BusyIsConflict | services/payment-svc/internal/saga.go:122-136 | behind an unfinished claim with nothing stored a call ends in a conflict and changes nothing |
| Idempotency.MalformedGivesBack | services/payment-svc/internal/saga.go:139-148 | a malformed request gives its claim back |
| Idempotency.KeepsWaiting | pkg/shared/idempotency/redis.go:70-90 | a waiting call waits as long as the key shows PROCESSING and its patience lasts |
| Idempotency.WaiterIsServed | services/payment-svc/internal/saga.go:122-132 | when the payment it waits for is completed it returns that |
| Idempotency.ClaimIsNotExclusive | pkg/shared/idempotency/redis.go:29-59 | after an expiry two callers own the Redis claim at once |
| Idempotency.BeginDecides | pkg/shared/idempotency/redis.go:29-59 | with no call failing, the claim goes to a caller iff the key was absent; otherwise it waits or learns the result |
| Idempotency.BeginFails | pkg/shared/idempotency/redis.go:29-59 | a claim not obtained and a key that cannot be read are an error |
| Idempotency.Store.Claim | pkg/shared/idempotency/redis.go:30-36 | set if absent, under every fate of the call |
| Idempotency.Store.Begin | pkg/shared/idempotency/redis.go:29-59 | claim, look, claim again, look again, under every fate of the four calls; other keys untouched |
| Idempotency.BeginIsTheMachine | pkg/shared/idempotency/redis.go:29-59 | Begin is the protocol machine undisturbed: its steps from the first claim on, nobody else moving |
| Idempotency.Store.Complete | pkg/shared/idempotency/redis.go:61-63 | the key holds the value unless the call was refused |
| Idempotency.Store.Release | pkg/shared/idempotency/redis.go:65-67 | the key is gone unless the call was refused |
| Idempotency.WaitForCompletion | pkg/shared/idempotency/redis.go:70-90 | the first answer other than PROCESSING decides: its value, giving up on a missing key, an error; PROCESSING throughout is giving up |
| Outbox.OutboxRelay.InsertRow | services/payment-svc/internal/repo.go:275-278 | a settlement appends its row |
| Outbox.OutboxRelay.DeleteRow | services/payment-svc/internal/repo.go:393-399 | exactly that row is removed |
| Outbox.OutboxRelay.FlushOnce | services/payment-svc/internal/outbox.go:52-76 | a tick is a run of publications and deletions that stops at the first error; with nothing failing the oldest min(100, n) of n rows are published and gone, and the rest stay |
| Outbox.OutboxRelay.FlushBatch | services/payment-svc/internal/outbox.go:58-75 | the loop over the listed rows |
| Outbox.TickDelivers | services/payment-svc/internal/outbox.go:52-76 | the same tick of the machine |
| Outbox.TicksDrain | services/payment-svc/internal/outbox.go:37-50 | k ticks with nothing failing leave max(0, n - 100k) of n rows |
| Outbox.FlushKeepsGood | services/payment-svc/internal/outbox.go:52-76 | a flush keeps the order: the rows gone are the oldest, all published |
| Outbox.FlushEmptiesBatch | services/payment-svc/internal/outbox.go:52-76 | with nothing failing a flush publishes and deletes its whole batch and leaves the rest alone |
| Outbox.PublishedInOrder | services/payment-svc/internal/outbox.go:52-76 | in every run the collapsed log is a prefix of the insertions, and no row is deleted before it is published |
| Outbox.SettlementEvents | services/payment-svc/internal/outbox.go:52-76 | fed by any run of the platform, the collapsed log shows SETTLED payments only, each once, in order of settlement |
| Velocity.MergeResults | services/risk-svc/internal/rules.go:223-255 | capped sum, worst decision, names in order |
| Velocity.WorstIsWorst | services/risk-svc/internal/rules.go:257-268 | the merged decision is the most severe one given |
| Velocity.EvaluateBlocklist | services/risk-svc/internal/rules.go:80-106 | declines only if a party is listed, passes only if none is, errs at the first failing lookup |
| Velocity.Engine.EvaluateVelocity | services/risk-svc/internal/rules.go:111-130 | the counter with its expiry under every fate of the two calls |
| Velocity.Engine.ScorePayment | services/risk-svc/internal/rules.go:175-220 | the counters and the answer of a score |
| Velocity.DeclinedIsNotCounted | services/risk-svc/internal/rules.go:197-213 | declined iff a party is blocklisted, then no counter moves; the score is between 0 and 100 |
| Velocity.BlockedIff | services/risk-svc/internal/rules.go:80-106 | with lookups answered, blocked iff the consumer, the merchant or the address is named and listed |
| Velocity.VelocityIff | services/risk-svc/internal/rules.go:111-130 | a counted call is flagged from the sixth of its window on; the window closes sixty seconds after the first |
| Velocity.VelocityErrsIff | services/risk-svc/internal/rules.go:111-130 | when the rule errs, and what it has counted then |
| Velocity.WindowCloses | services/risk-svc/internal/rules.go:111-130 | a count is forgotten at its expiry and not before |
| Velocity.ScoreIs | services/risk-svc/internal/rules.go:175-220 | the answer in full: 100 if blocked, 30 above 50,000 pence, 40 from the sixth call on, capped at 100, with the worst decision and the names in order |
| Velocity.VelocityBound | services/risk-svc/internal/rules.go:111-130 | of one consumer's scores in any sixty seconds at most ten escape VELOCITY_EXCEEDED, nine if an end is left out |
| ErrorCodec.FindInfo | pkg/shared/domainerr/errors.go:152-157 | the first detail of the platform's domain, or none iff there is none |
| ErrorCodec.BusinessRoundTrip | pkg/shared/domainerr/errors.go:106-130 | business errors survive the trip with any message, with the detail or in the legacy form |
| ErrorCodec.OtherTrip | pkg/shared/domainerr/errors.go:159-181 | what arrives for any other code |
| ErrorCodec.RoundTripIff | pkg/shared/domainerr/errors.go:96-193 | for every code and message the error comes back iff it is a business error, or standard with a message that does not begin with a known code |
| ErrorCodec.CodesOnTheWire | pkg/shared/domainerr/errors.go:117-132 | the gRPC status of each standard code |
| ErrorCodec.BusinessOnTheWire | pkg/shared/domainerr/errors.go:106-130 | the eight business codes travel as a failed precondition that names them |
| ErrorCodec.KnownIff | pkg/shared/domainerr/errors.go:183-193 | exactly the fourteen codes are recognised |
| ErrorCodec.LegacyForm | pkg/shared/domainerr/errors.go:159-167 | a status in the legacy form gives back its code and message |

## Left out

- Failure-reason texts, timestamps of payment rows, and the error values Initiate returns beside the payment.
- Bank records keep no description, times or reversal reference.
- The reason text of a ledger reversal: the same text is used for a first attempt and for a resumed one.
- The listing of stale payments takes the ids older than the threshold, oldest first, as a parameter; rows carry no time.
- Strings are sequences of single-byte characters: trimming and upper-casing are modelled for ASCII only.
- Account rows are identified by type, owner and currency; generated account, entry and line ids do not appear.
- Consents.ConsentService.ValidateAndReserve: does not model a concurrent insert for the same payment, since the transaction is one step.
- Orchestration.Orchestrator.RunSaga: calls the ledger as a single committed transaction; the retry loop is stated of the ledger store itself.
- Idempotency.Agreement: Initiate is a machine over values, one key at a time, so that callers interleave inside Begin; the saga it starts is one step.
- Outbox.SettlementEvents: the relay is one process, and rows are listed in the order of insertion.
- Velocity.VelocityBound: a score is one step, so two calls do not interleave between INCR and EXPIRE; extra rules of the engine are absent.
- Reasons and their joining in risk results.
- A reservation id from the consent service that does not parse: those ids always do.
- Database internals (row locks, isolation): each transaction body is one atomic step.
- The mock bank's random faults, except a rejection of an initiation; the HTTP client with its circuit breaker and retries.
- The consent read cache and consent listing; journal lookup for display.
- The gateway, merchant and notification services, authentication, webhooks, configuration, logging and process start-up.
