# The money kernel of the Meridian inclusion suite, in Dafny

This project models the code that moves money in the suite and three data
structures it leans on, and proves what that code keeps over whole runs.

| area | files | source |
|---|---|---|
| Two-phase ledger | `Ledger`, `LedgerLaws`, `LedgerOutcomes`, `DevClient` | internal/platform/ledger/ledger.go |
| Levy payment saga, disputes, recovery | `Payments`, `PaymentLaws`, `PaymentRuns`, `PaymentTheorems`, `PaymentRecovery`, `PaymentRevival`, `PaymentOutcomes`, `PaymentEvents`, `PaymentRefunds`, `PaymentService` | services/presumptive/payments.go, recovery.go, disputes.go |
| Concurrent intents on one key | `Intents` | services/presumptive/payments.go |
| Agent float | `Float`, `FloatLaws`, `FloatOutcomes`, `FloatService` | services/presumptive/float.go |
| Commission engine | `Commission`, `CommissionLaws`, `CommissionFunding`, `CommissionDrift`, `CommissionOutcomes`, `CommissionService` | services/onboarding/commission_engine.go |
| Agent forest | `Hierarchy`, `AgentRegistry` | services/onboarding/hierarchy.go, agents.go |
| NIP payouts and refunds | `Nip`, `NipLaws`, `NipOutcomes`, `NipAnswers`, `NipWindow`, `NipReuse`, `NipService` | services/presumptive/nip_recon.go, nip.go |
| All four services on one ledger | `SharedLedger`, `Footprints`, `Suite`, `SuiteRuns` | the same files |
| Hybrid clock and OR-Set | `Hlc`, `Clocks`, `OrSet` | internal/platform/crdtx/crdtx.go |
| Secondary-index store | `Store` | internal/platform/store/store.go |
| Token bucket | `RateLimiter` | services/presumptive/certificates.go |

`dafny verify dfyconfig.toml` checks everything.

## How the model is built

* Each service has two forms. Functions on a value (`Payments.World`,
  `Nip.World`, ...) say where an operation takes the durable state; a class
  (`PaymentService`, `NipService`, ...) updates its fields in place as the source
  does; every method is proved to arrive at the function's result, and the public
  operations to keep the invariant of the laws. The laws are proved about the functions, over
  arbitrary sequences of operations.
* The specification functions do not vouch for themselves. The outcome modules
  (`LedgerOutcomes`, `PaymentOutcomes`, `PaymentEvents`, `FloatOutcomes`,
  `CommissionOutcomes`, `NipAnswers`, `NipOutcomes`) say of every operation, in amounts,
  accounts, statuses and provider answers alone, when it is accepted, what it leaves
  stored and on the ledger, and what it answers, for every input and every failing write.
* Crashes: a world carries `life`, the number of durable calls its process still
  makes; later calls have no effect. An operation run with `For(k)` is that
  operation cut off after its k-th call, so a law over all lives is a law over
  every crash point. The classes are the case `Forever`.
* Provider and rail answers, clock readings, random ids, rule-pack evaluation and
  failing store writes are parameters and may be anything, within what each
  `Admissible` predicate states: fresh ids are fresh, a listing lists the store, and
  a call is not one of those the next section describes, each excluded by its exact
  condition. The NIP rail alone is constrained: an answer that is final is repeated.
* All services share one ledger. The laws of one service allow any ledger traffic of
  others (`DoElsewhere`) that does not use this service's ids; `Suites` discharges
  that assumption by running all four services interleaved on one ledger, next to
  deposits, settlements and other traffic of no service.
* Ids derived by hashing tagged strings are constructors (`Ids`), so distinct seeds
  give distinct ids. The ledger keeps a ghost journal of what moved, because a void
  record and a reversal look alike in the transfer map; every journal entry that moved
  money is tied to the settled record under its id.
* Where 64-bit arithmetic decides something it is written out: the capture fee,
  the commission product and total, the refund cap sum, the 32-bit clock counter.

## What the code does not keep, and when it does

Each of these is a law one would expect. The project gives the exact condition under
which it holds and, where it takes calls to break it, a run from the start state.

* `PostPendingAs` may be given the id of another pending hold and overwrites it; the
  pending columns then count a hold that no longer exists (`LedgerLaws.PostOverHold`).
  The ledger stays right exactly when the id names no other pending hold and no money
  moved under it before (`LedgerLaws.PostKeepsIff`), the columns exactly when it names
  no other pending hold (`LedgerLaws.PostKeepsColumnsIff`).
* An immediate `Transfer` ignores pending debits, so it can spend money an accepted
  hold has reserved (`LedgerLaws.DirectIgnoresHolds`, `LedgerLaws.DirectKeepsCapIff`).
* `compensateCapture` ignores a failed write of the payment. If the certificate store
  fails after the post landed, the reversal is made and that write is lost, the next
  sweep issues a certificate and marks the reversed payment captured
  (`PaymentRecovery.CapturedButPaidBack`). The invariant survives a compensation, a
  resumed capture, a capture and a swept payment exactly when this does not happen
  (`PaymentLaws.CompensateKeepsIff`, `PaymentLaws.FinishKeepsIff`,
  `PaymentRuns.CaptureKeepsIff`, `PaymentRuns.SweepOneKeepsIff`). A crash inside
  `compensateCapture`, after the reversal, is the same as losing that write.
* A compensation does not reverse a fee leg that was posted: the payer is made whole,
  and collections is out exactly the fee and any chargeback
  (`PaymentTheorems.StatusMeansLedger`).
* `OpenDispute` stores the dispute and then marks the payment. If the mark is lost the
  payment goes on by itself, and when it was compensated in the meantime winning the
  dispute sets it back to awaiting its post; the next sweep marks the reversed payment
  captured (`PaymentRevival.WonDisputeRevives`). Resolving a dispute keeps the laws
  exactly when it does not rewrite a compensated payment
  (`PaymentTheorems.ResolveDisputeKeepsIff`).
* `Accrue` funds the pool before it looks for a conflict: replaying a reference with
  another amount moves a second funding out of the treasury
  (`CommissionDrift.ReferenceFundedTwice`), while the levels that landed are left
  alone: a replay does to the ledger exactly what its funding transfer does
  (`CommissionLaws.ReplayOnlyFunds`). Whatever has landed, an accrual adds a funding
  exactly when it is accepted and its total is new for its reference
  (`CommissionDrift.FundsIff`). Its comment says that a replay never
  double-funds, which is so for an equal total.
* A commission record can be rewritten, after expiry, deletion or a crash, by an
  accrual with another payload, and `Clawback` then reverses the record's amount and
  not the posted one (`CommissionDrift.ClawbackCanTakeMore`). A clawback is the inverse
  of the post exactly when the post credited the record's agent with the record's
  amount (`CommissionDrift.ClawbackReturnsIff`), and a record written by the saga
  satisfies that exactly when the level had no post or one with the same agent and
  amount (`CommissionDrift.RecordMatchesIff`).
* When an idempotency key of a NIP payout is used again after its window, the purge,
  a reversal or a sweep of the older transfer can remove or overwrite the live record,
  and the key is dispatched twice in one window (`NipReuse.ReusedKeyDispatchedTwice`,
  `NipReuse.ReversedKeyDispatchedTwice`). The live record survives a reversal, a sweep
  row and a purge exactly under the guards of `NipWindow.ReverseHoldsIff`,
  `NipWindow.RowHoldsIff` and `NipWindow.MaintenanceWindowIff`, a whole run exactly when
  none of its calls is such a one (`NipWindow.GuardedIff`), and the second dispatch
  happens exactly when the slot was emptied or given to an expired transfer
  (`NipReuse.DispatchedAgainIff`).
* The refund cap is checked in wrapping 64-bit arithmetic: after a payout of one and its
  refund, a second refund of 2^64 - 1 passes (`NipReuse.WrappedRefundExceedsPayout`).
  The check is right exactly when the sum fits in 64 bits (`NipLaws.CapCheckExactIff`).
* `Payout` accepts the purpose "refund" from its caller and checks no cap then
  (`NipReuse.UncheckedRefundExceedsPayout`). Such a transfer keeps the bound exactly when
  it fits (`NipReuse.UncheckedRefundIff`). The other NIP laws hold over runs with such
  transfers and wrapping sums as well.
* The commission product wraps at 64 bits (`CommissionFunding.ComputeKoboExactIff`).
* A timestamp's printed form is read back exactly when its node id has no white
  space (`Hlc.ReparseIff`), and a clock moves forward exactly when its 32-bit counter
  does not wrap (`Clocks.NowForwardIff`, `Clocks.UpdateForwardIff`).
* The header of commission_engine.go speaks of a 7-day record lifetime; the constant in
  force, and in the model, is 35 days.

## Model

| member | source | states |
|---|---|---|
| `Ledger.RefusedBy` | internal/platform/ledger/ledger.go:173-190 | a batch of accounts is accepted if and only if every id is given and none exists yet |
| `DevLedger.DevClient.CreateAccounts` | internal/platform/ledger/ledger.go:173-190 | the two loops over the batch leave the state and error of the ledger function: all accounts opened, or none |
| `DevLedger.DevClient.Transfer` | internal/platform/ledger/ledger.go:225-256 | the in-place immediate transfer refines `Direct`, errors and idempotent replay included |
| `DevLedger.DevClient.PendingTransfer` | internal/platform/ledger/ledger.go:258-290 | the in-place hold refines `Hold`; pending amounts count against the flags |
| `DevLedger.DevClient.PostPendingAs` | internal/platform/ledger/ledger.go:300-359 | the in-place post refines `Post`: full, partial, replayed and refused posts |
| `DevLedger.DevClient.VoidPending` | internal/platform/ledger/ledger.go:362-390 | the in-place void refines `Void` |
| `LedgerLaws.RunKeeps` | internal/platform/ledger/ledger.go:225-390 | in every run whose posts are given harmless ids (the exact condition of `LedgerLaws.PostKeepsIff`): total debits equal total credits, posted and pending; pending columns are the sums of the pending transfers; posted columns replay the journal; a hold is consumed at most once; an id moves money at most once, as the settled record under it says; posted debits, or credits, of a capped account stay within the other side |
| `LedgerLaws.PostKeeps` | internal/platform/ledger/ledger.go:300-359 | one post keeps all of that under any harmless id |
| `LedgerLaws.PostKeepsIff` | internal/platform/ledger/ledger.go:334-359 | an accepted post keeps all of that if and only if its id names no other pending hold and no money moved under it |
| `LedgerLaws.VoidKeeps` | internal/platform/ledger/ledger.go:362-390 | one void keeps all of that |
| `LedgerLaws.HoldKeeps` | internal/platform/ledger/ledger.go:258-290 | one hold keeps all of that |
| `LedgerLaws.DirectKeeps` | internal/platform/ledger/ledger.go:225-256 | one immediate transfer keeps all of that |
| `LedgerLaws.CreateKeeps` | internal/platform/ledger/ledger.go:173-190 | opening accounts keeps all of that |
| `LedgerLaws.PostKeepsColumnsIff` | internal/platform/ledger/ledger.go:334-359 | the pending columns survive a post if and only if its id names no other pending hold |
| `LedgerLaws.PostLosesHold` | internal/platform/ledger/ledger.go:353-353 | a post written over another pending hold leaves that hold's account with a wrong pending column |
| `LedgerLaws.PostOverHold` | internal/platform/ledger/ledger.go:334-359 | a concrete run in which one hold is posted under the id of another and a pending column is wrong |
| `LedgerLaws.MovedAsRecorded` | internal/platform/ledger/ledger.go:225-359 | what moved under an id moved once, between the accounts and in the amount of the settled record under it |
| `LedgerLaws.PendingNeverUnderflows` | internal/platform/ledger/ledger.go:334-375 | a pending hold is covered by both pending columns, so the subtractions of post and void never go below zero |
| `LedgerLaws.RunFrozen` | internal/platform/ledger/ledger.go:225-390 | a record that is no longer pending never changes again, in any run that posts no pending hold under its id |
| `LedgerLaws.PostRetryReplays` | internal/platform/ledger/ledger.go:300-330 | after any further run that posts no pending hold under the two ids, repeating an accepted post answers the same id and changes nothing |
| `LedgerLaws.RunKeepsCap` | internal/platform/ledger/ledger.go:192-204 | on a capped account debited only through holds, posted plus pending debits never exceed posted credits, in any run whose posts are given harmless ids |
| `LedgerLaws.RunKeepsCreditCap` | internal/platform/ledger/ledger.go:192-204 | on an account whose credits are capped and that is credited only through holds, posted plus pending credits never exceed posted debits, in any run whose posts are given harmless ids |
| `LedgerLaws.HoldCanPost` | internal/platform/ledger/ledger.go:300-359 | between accounts that keep these bounds an accepted hold can always be posted in full, whatever their flags |
| `LedgerLaws.DirectKeepsCapIff` | internal/platform/ledger/ledger.go:240-244 | an accepted immediate transfer keeps that bound if and only if the pending debits fit as well |
| `LedgerLaws.DirectIgnoresHolds` | internal/platform/ledger/ledger.go:240-244 | a concrete run in which an immediate transfer breaks the bound |
| `LedgerOutcomes.DirectOutcome` | internal/platform/ledger/ledger.go:225-256 | an immediate transfer is accepted exactly for a positive amount between open accounts of one ledger under an unused id within both flags, repeats only an identical settled record, and then moves the amount in the posted columns of its two accounts and changes no other column, record or account |
| `LedgerOutcomes.HoldOutcome` | internal/platform/ledger/ledger.go:258-290 | the same for a hold: what is pending already counts against the flags, an identical pending record is repeated, and only pending columns change |
| `LedgerOutcomes.PostOutcome` | internal/platform/ledger/ledger.go:300-360 | posting a hold releases all of it and moves what was asked for, an amount of zero meaning the whole hold; the hold is consumed, and zeroed by a partial post, and the post is recorded under the caller's id |
| `LedgerOutcomes.PostRefused` | internal/platform/ledger/ledger.go:300-360 | every other post changes nothing: it is refused, as exceeding the hold exactly when it asks for more, or repeats an earlier post of the same accounts and amount |
| `LedgerOutcomes.VoidOutcome` | internal/platform/ledger/ledger.go:362-391 | a void releases exactly a pending hold, moves nothing and records itself under a new id |
| `LedgerOutcomes.CreateOutcome` | internal/platform/ledger/ledger.go:173-190 | a batch opens every account it names, empty and as its last entry says, and no other; with one bad entry it opens none |
| `LedgerOutcomes.CreateRefusedFor` | internal/platform/ledger/ledger.go:173-190 | the error names the first bad entry |
| `PaymentTheorems.StatusMeansLedger` | services/presumptive/payments.go:529-729 | over every run, with crashes between any two calls: captured or settled means the full amount moved exactly once from the payer to collections, was not reversed, the payer is out exactly that amount over all transfers of the payment, and fee leg and certificate are in place; voided, failed or expired means nothing moved and no hold is left; compensated means the payer's net effect is zero, the post and its reversal moved the same amount between the same two accounts, collections is out exactly the fee and any chargeback, and no hold is left; charged back means the amount moved once from collections to the dispute account; no certificate without a landed post |
| `PaymentTheorems.OneLiveLevy` | services/presumptive/payments.go:216-242 | over every run, with webhooks in any order and number, two live payments of one (tin, period, class) are the same payment |
| `PaymentTheorems.RunAgrees` | services/presumptive/payments.go:529-978 | every run of intents, authorisations, captures, voids, webhooks, sweeps and foreign ledger traffic keeps the invariant behind both, except through the calls that `PaymentRuns.CaptureKeepsIff`, `PaymentRuns.SweepOneKeepsIff` and `PaymentTheorems.ResolveDisputeKeepsIff` describe exactly |
| `PaymentTheorems.RunEvolves` | services/presumptive/payments.go:838-978 | over every run failed, voided, expired, compensated and charged back are absorbing, a payment past the point of no return never shows a pre-capture status again, and its identity never changes |
| `PaymentTheorems.StepEvolves` | services/presumptive/payments.go:881-978 | the same for one operation with any crash point |
| `PaymentTheorems.SweepKeeps` | services/presumptive/recovery.go:53-112 | one sweep over its listing keeps the invariant, evolves lawfully and leaves unlisted payments alone, unless one of its rows loses a compensation |
| `PaymentRuns.IntentKeeps` | services/presumptive/payments.go:318-443 | creating an intent keeps the invariant, including a hold whose payment row was never written |
| `PaymentRuns.AuthoriseKeeps` | services/presumptive/payments.go:455-487 | authorising, or being declined, keeps the invariant |
| `PaymentRuns.VoidKeeps` | services/presumptive/payments.go:774-814 | voiding before capture keeps the invariant |
| `PaymentRuns.CaptureKeeps` | services/presumptive/payments.go:529-616 | capturing keeps the invariant at every crash point and for every provider answer, unless it loses a compensation |
| `PaymentRuns.CaptureKeepsIff` | services/presumptive/payments.go:529-729 | a capture, cut off anywhere, keeps the invariant if and only if it does not charge, land its post, fail to certify it, live to reverse it and lose the record of the reversal |
| `PaymentLaws.FinishKeeps` | services/presumptive/recovery.go:140-177 | post, fee leg, certificate, mark: resuming a charged payment keeps the invariant at every crash point, unless it loses a compensation |
| `PaymentLaws.FinishKeepsIff` | services/presumptive/recovery.go:140-177 | resuming, cut off anywhere, keeps the invariant if and only if it does not land its post, fail to certify it, live to reverse it and lose the record of the reversal |
| `PaymentLaws.CompensateKeepsIff` | services/presumptive/payments.go:657-729 | a compensation keeps the invariant if and only if it does not lose its status write after reversing a landed post |
| `PaymentRuns.OpenDisputeKeeps` | services/presumptive/disputes.go:70-132 | opening a dispute holds the amount against collections and keeps the invariant at every crash point, also between the dispute record and the payment's mark and when either write fails |
| `PaymentRuns.ResolveDisputeKeeps` | services/presumptive/disputes.go:142-183 | winning restores the prior status and releases the hold, losing posts it; both keep the invariant, at every crash point and when either write fails, unless a compensated payment is rewritten |
| `PaymentTheorems.ResolveDisputeKeepsIff` | services/presumptive/disputes.go:142-183 | a resolution, cut off anywhere, keeps the invariant and final statuses final if and only if it does not rewrite a compensated payment |
| `PaymentRuns.WebhookKeeps` | services/presumptive/payments.go:881-978 | any webhook, duplicated or out of order, with independent answers to its value check and to Capture's own query, keeps the invariant unless it loses or undoes a compensation |
| `PaymentRuns.SweepOneKeeps` | services/presumptive/recovery.go:53-310 | sweeping one payment of any status keeps the invariant unless it loses a compensation |
| `PaymentRuns.SweepOneKeepsIff` | services/presumptive/recovery.go:53-310 | a swept row, cut off anywhere, keeps the invariant if and only if it does not lose a compensation |
| `PaymentRecovery.RecoveryConverges` | services/presumptive/recovery.go:53-310 | with a provider that answers and no faults, from any reachable state one sweep leaves nothing awaiting its post or in flight, the second nothing captured, and the third, at the second's clock reading, changes no payment, balance or certificate |
| `PaymentRecovery.CaptureSucceeds` | services/presumptive/payments.go:529-616 | with nothing failing an authorised payment ends captured with the settled fee |
| `PaymentRecovery.CaptureAnswersIff` | services/presumptive/payments.go:529-616 | a capture that runs to its end answers without an error if and only if it leaves the payment captured |
| `PaymentRecovery.IntentSucceeds` | services/presumptive/payments.go:318-443 | with nothing failing a first payment of a levy is stored as requested with its hold pending, and nothing else changes |
| `PaymentRecovery.LostCompensationResurrects` | services/presumptive/payments.go:715-729 | a compensation that reversed the post but lost its status write is followed by a sweep that marks the payment captured |
| `PaymentRecovery.CapturedButPaidBack` | services/presumptive/payments.go:529-729 | a concrete run of four calls that ends with a captured payment whose money was paid back |
| `PaymentRevival.RevivedResurrects` | services/presumptive/disputes.go:142-183 | winning the half-recorded dispute of a payment whose post was reversed sets it back to awaiting its post, and the next sweep marks it captured |
| `PaymentRevival.HalfOpened` | services/presumptive/disputes.go:104-130 | a dispute whose record is stored while the payment's mark is lost leaves an open dispute and an unmarked payment |
| `PaymentRevival.WonDisputeRevives` | services/presumptive/disputes.go:70-183 | a concrete run of seven calls that ends there |
| `PaymentOutcomes.IntentOutcome` | services/presumptive/payments.go:318-443 | an intent is accepted exactly when the gate is open, tin, state and provider are given, no payment in one of the eight live statuses covers the levy, and the assessed levy, monthly or annual with the fee, is due; it then stores exactly that payment over a hold of that levy, or with a lost write releases the hold; any other intent changes nothing |
| `PaymentOutcomes.AuthoriseOutcome` | services/presumptive/payments.go:455-487 | an approval stores the provider's reference, a decline also fails the payment and releases its hold, anything else changes nothing |
| `PaymentOutcomes.VoidOutcome` | services/presumptive/payments.go:774-814 | a payment not yet captured whose hold stands is voided and its hold released; a voided one is answered again; any other is refused unchanged |
| `PaymentOutcomes.CaptureDeclined` | services/presumptive/payments.go:537-575 | a capture the provider declines, at once or when asked after a transport error, ends failed: the hold is released, nothing is posted, no balance moves, no certificate is issued, and the answer is an error |
| `PaymentOutcomes.CaptureParked` | services/presumptive/payments.go:500-569 | a capture under a changed rule pack, or with no answer from the provider, is parked in flight with its hold standing and nothing else changed |
| `PaymentOutcomes.ChargedOnlyIfTaken` | services/presumptive/payments.go:529-616 | whatever fails and wherever the process dies, no authorised payment reaches a charged status, a certificate, a compensation or a positive answer unless the provider said it took the money under the pinned terms |
| `PaymentOutcomes.CaptureTaken` | services/presumptive/payments.go:576-616 | a capture the provider took ends captured, posted in full, its fee the amount less the settlement and its certificate issued, or, exactly when a write failed or the hold was gone, compensated with a record of the refund; the answer is positive exactly in the first case |
| `PaymentOutcomes.CompensationRecords` | services/presumptive/payments.go:657-729 | a compensation appends one record: refunded exactly when there is a reference and the provider refunded or voided, failed exactly when there is one and it did neither, skipped exactly when there is none, and reversed exactly when the post had landed |
| `PaymentOutcomes.FinishSettles` | services/presumptive/recovery.go:140-177 | a resumed capture whose post lands, now or before, ends captured and certified when the stores work |
| `PaymentOutcomes.FinishCompensates` | services/presumptive/recovery.go:140-177 | one whose post cannot land, or whose certificate cannot be stored, ends compensated with its refund recorded |
| `PaymentOutcomes.RefusedFeeCompensates` | services/presumptive/payments.go:595-601 | a capture whose fee leg the ledger refuses is compensated |
| `PaymentOutcomes.LegsRecorded` | services/presumptive/payments.go:354-443 | wherever records and ledger agree, each of a payment's six transfers is between the accounts, on the ledger, of the code and of the amount its name says |
| `PaymentRefunds.RunAccounted` | services/presumptive/payments.go:657-729 | every run keeps a record of the refund beside every compensated payment |
| `PaymentRefunds.CompensatedIsAccounted` | services/presumptive/payments.go:704-729 | in every reachable world a compensated payment has a record that its refund succeeded, was retried or failed when the provider gave a reference, and that it was skipped when it gave none |
| `PaymentRefunds.RefundsConverge` | services/presumptive/recovery.go:240-282 | one quiet sweep while the provider refunds or voids leaves no failed refund on any payment that was compensated with a reference, and each of them refunded or retried |
| `PaymentEvents.OpenDisputeOutcome` | services/presumptive/disputes.go:70-132 | a dispute opens exactly on a captured, awaiting or settled payment whose hold can be placed: the amount is held out of collections, the prior status is kept, the payment is marked; each lost write is told apart |
| `PaymentEvents.ResolveDisputeOutcome` | services/presumptive/disputes.go:142-183 | a won dispute releases the hold and restores the prior status, a lost one debits collections in full and charges back; refused exactly when the hold can no longer be consumed so |
| `PaymentEvents.ResolvedAlready` | services/presumptive/disputes.go:142-156 | a resolved dispute is answered again only for the same outcome; an unknown one is refused |
| `PaymentEvents.HookIgnored` | services/presumptive/payments.go:881-918 | a webhook about no stored payment, of an unknown kind or processed before changes nothing |
| `PaymentEvents.ChargeHookOutcome` | services/presumptive/payments.go:924-940 | a charge webhook on a payment already collected is only noted; otherwise it does nothing unless amount, currency and the provider's own answer agree with the stored payment, and then captures and is noted exactly when the payment ends captured |
| `PaymentEvents.ForgedHookRejected` | services/presumptive/payments.go:986-1022 | a charge webhook with another amount or currency, or that the provider fails, does not confirm or confirms with another amount or currency, changes nothing |
| `PaymentEvents.HookChargesOnlyIfTaken` | services/presumptive/payments.go:924-940 | a charge webhook charges an authorised payment or is noted only if its value agrees and the provider took the money |
| `PaymentEvents.HookDeclined` | services/presumptive/payments.go:924-940 | a charge webhook whose capture is declined fails the payment, releases its hold and is not noted |
| `PaymentEvents.VoidHookOutcome` | services/presumptive/payments.go:941-947 | a failed or voided charge does what a void does and is noted exactly when that succeeds |
| `PaymentEvents.AuthorisedHookOutcome` | services/presumptive/payments.go:948-965 | a late authorisation moves only an intent or a pending payment; any other is left as it is and the event noted |
| `PaymentEvents.DisputeHookOutcome` | services/presumptive/payments.go:966-978 | dispute webhooks open or resolve the dispute and are noted exactly when that succeeds |
| `PaymentEvents.SettleOutcome` | services/presumptive/recovery.go:119-135 | a captured row is settled |
| `PaymentEvents.ExpireOutcome` | services/presumptive/recovery.go:287-310 | an intent is expired, and its hold released, exactly once it is 1800 seconds old |
| `PaymentEvents.FailedHoldOutcome` | services/presumptive/recovery.go:215-282 | a failed or compensated row ends with no pending hold; only a compensated row has its refunds retried |
| `PaymentEvents.RetriesEach` | services/presumptive/recovery.go:240-282 | exactly the failed refunds of the payment are marked retried, exactly when the provider refunds or voids |
| `PaymentEvents.InFlightDeclined` | services/presumptive/recovery.go:184-211 | a capture in flight is left while the provider does not answer, and failed with its hold released when it says the money was not taken |
| `PaymentEvents.InFlightTaken` | services/presumptive/recovery.go:184-211 | one the provider took is finished with the settled fee: captured and certified, or compensated exactly when the certificate fails or the hold is gone |
| `PaymentEvents.AwaitingOutcome` | services/presumptive/recovery.go:140-177 | a capture found at its point of no return, its post landed or not, is captured and certified or compensated, each exactly in its case |
| `PaymentServices.PaymentService.CreateIntent` | services/presumptive/payments.go:318-443 | the in-place method refines the specification function, the default period included, and keeps the invariant; it answers with the stored payment, or changes no payment |
| `PaymentServices.PaymentService.FindDuplicateLevy` | services/presumptive/payments.go:231-242 | the scan answers true if and only if a live payment covers the same (tin, period, class) |
| `PaymentServices.PaymentService.Authorise` | services/presumptive/payments.go:455-487 | refines the specification function, answer included, and keeps the invariant |
| `PaymentServices.PaymentService.Void` | services/presumptive/payments.go:774-814 | refines the specification function, answer included, and keeps the invariant |
| `PaymentServices.PaymentService.Capture` | services/presumptive/payments.go:529-616 | refines the specification function, answer included, and keeps the invariant unless it loses a compensation; it answers positively only if the provider took the money, and a capture the provider declined posts and certifies nothing and ends failed |
| `PaymentServices.PaymentService.FailCaptureConfirmed` | services/presumptive/payments.go:640-655 | refines the specification function |
| `PaymentServices.PaymentService.CompensateCapture` | services/presumptive/payments.go:657-729 | refines the specification function and appends one record that says refunded, failed or skipped exactly as the provider answered |
| `PaymentServices.PaymentService.PostFeeLeg` | services/presumptive/payments.go:749-771 | refines the specification function |
| `PaymentServices.PaymentService.IssueCertificate` | services/presumptive/certificates.go:57-79 | an existing certificate is returned unchanged, a new one is stored; the answer says which writes failed |
| `PaymentServices.PaymentService.OpenDispute` | services/presumptive/disputes.go:70-132 | refines the specification function, answer and both writes included, and keeps the invariant |
| `PaymentServices.PaymentService.ResolveDispute` | services/presumptive/disputes.go:142-183 | refines the specification function, answer included, and keeps the invariant unless it revives a compensated payment |
| `PaymentServices.PaymentService.HandleWebhook` | services/presumptive/payments.go:881-978 | finds the payment the webhook names, or one with its reference and provider, and does to it what the specification function does; a webhook that matches none, or a charge its own value or the provider does not vouch for, changes nothing; the invariant is kept under the condition of `PaymentRuns.WebhookKeeps` |
| `PaymentServices.PaymentService.ResumeCapture` | services/presumptive/recovery.go:140-177 | refines the specification function, answer included |
| `PaymentServices.PaymentService.ResolveCaptureInFlight` | services/presumptive/recovery.go:184-211 | refines the specification function |
| `PaymentServices.PaymentService.VoidFailedHold` | services/presumptive/recovery.go:215-233 | refines the specification function |
| `PaymentServices.PaymentService.RetryFailedRefund` | services/presumptive/recovery.go:240-282 | refines the specification function |
| `PaymentServices.PaymentService.ExpireIntent` | services/presumptive/recovery.go:287-310 | refines the specification function |
| `PaymentServices.PaymentService.SweepOnce` | services/presumptive/recovery.go:53-112 | the loop over the listing refines the specification of a sweep and keeps the invariant unless a row loses a compensation |
| `Intents.RunKeeps` | services/presumptive/payments.go:259-318 | every interleaving of claim, lookup, create, complete and release steps keeps the claim protocol, and no payment disappears |
| `Intents.OnePaymentPerKey` | services/presumptive/payments.go:259-443 | in every interleaving at most one payment is persisted and at most one hold stands for the key, and at quiescence they are the same |
| `Intents.RepliesAgree` | services/presumptive/payments.go:259-443 | any two successful replies, at any two times, name the same payment |
| `Intents.FirstRequestReplays` | services/presumptive/payments.go:259-318 | an undisturbed request succeeds and a retry is answered with its payment |
| `Intents.RepliesSameRequest` | services/presumptive/payments.go:268-306 | in every interleaving all requests answered under the key carried the same payload |
| `Intents.LostClaimOutcome` | services/presumptive/payments.go:268-306 | a request that lost the claim is refused when its payload differs or the first request is in progress, fetches the recorded payment when it agrees, and claims once more, and only once, when claim or payment is gone |
| `Intents.FailedRequestFrees` | services/presumptive/payments.go:259-443 | a request that is refused, or whose payment cannot be stored, leaves no hold and no claim behind |
| `FloatLaws.StatusMeansMoney` | services/presumptive/float.go:125-204 | over every run with crashes, sweeps and other ledger traffic: a posted movement moved exactly its amount, once, a top-up from the treasury to the agent and a debit from the agent to the treasury; a voided one, and one without a record, moved nothing |
| `FloatLaws.NothingVoided` | services/presumptive/float.go:125-204 | where float accounts are debited only through holds no movement is ever voided |
| `FloatLaws.SweepPostsAll` | services/presumptive/float.go:180-204 | after any run on such a ledger one undisturbed sweep leaves every movement posted and landed |
| `FloatLaws.MoveReply` | services/presumptive/float.go:125-176 | a reply to a new reference is the requested movement, stored as posted, its journal entry between treasury and agent in the direction of its kind; a known reference is answered with the stored movement and nothing changes |
| `FloatLaws.PlacePosts` | services/presumptive/float.go:149-176 | on a ledger debited only through holds, with nothing failing, a new movement is refused only where its hold is |
| `FloatLaws.MoveKeeps` | services/presumptive/float.go:125-176 | a movement keeps the invariant at every crash point |
| `FloatLaws.SweepKeeps` | services/presumptive/float.go:180-204 | a sweep over a listing, even a stale one, keeps the invariant |
| `FloatLaws.StandingPosts` | services/presumptive/float.go:160-167 | a hold that stands is always accepted for posting |
| `FloatOutcomes.MoveOutcome` | services/presumptive/float.go:125-176 | for every fault: a movement whose accounts cannot be opened or whose hold is not covered changes no record and no balance, one that cannot be recorded releases its hold, a posted top-up takes the amount from the treasury to the agent and a posted debit from the agent to the treasury, no other posted balance changes, and on a ledger debited only through holds every recorded movement is posted |
| `FloatOutcomes.AgentBalanceMoves` | services/presumptive/float.go:125-176 | a debit that answers has lowered the agent's posted balance by its amount, a top-up has raised it |
| `FloatOutcomes.HoldThenPost` | services/presumptive/float.go:149-176 | a new movement leaves nothing held: every pending column is as before |
| `FloatOutcomes.SweepRowOutcome` | services/presumptive/float.go:180-204 | a swept pending movement whose hold stands is posted between the same accounts, or released when the ledger refuses; any other row is left |
| `FloatServices.FloatService.OpenFloat` | services/presumptive/float.go:40-68 | refines the specification function and keeps the invariant |
| `FloatServices.FloatService.MoveFloat` | services/presumptive/float.go:125-176 | refines the specification function, reply included, and keeps the invariant; a new debit that answers has lowered the agent's posted balance by its amount, a new top-up has raised it |
| `FloatServices.FloatService.SweepFloatMovements` | services/presumptive/float.go:180-204 | the loop refines the specification of a sweep and keeps the invariant |
| `CommissionLaws.OncePerLevel` | services/onboarding/commission_engine.go:258-464 | per (tenant, reference, level), over every run with arbitrary payloads, expiry, deletion and crashes: at most one post and at most one reversal ever; a reversal or a record exists only where the post landed |
| `CommissionLaws.NeverCreditedAgain` | services/onboarding/commission_engine.go:334-464 | once a level was paid, clawed back or not, no later run credits it again or changes the amount |
| `CommissionLaws.ClawbackUndoesPost` | services/onboarding/commission_engine.go:419-464 | over every run in which all accruals of a level agree on agent and amount, a reversal returns exactly what was paid, from the agent it was paid to |
| `CommissionLaws.CompletedReplays` | services/onboarding/commission_engine.go:258-329 | a completed accrual replayed at the same rates at any later time leaves the whole ledger unchanged |
| `CommissionLaws.ReplayOnlyFunds` | services/onboarding/commission_engine.go:258-329 | replaying a landed reference with any amount, rates, pack and clock does to the ledger exactly what its funding transfer does |
| `CommissionDrift.FundsIff` | services/onboarding/commission_engine.go:258-329 | wherever the levels of its reference stand, an accrual on plain accounts adds one funding transfer under an id, and none under any other, if and only if it is accepted and its total was not funded under its reference before |
| `CommissionLaws.OtherTotalFundsAgain` | services/onboarding/commission_engine.go:304-315 | a replay with a new total moves that total from the treasury into the pool |
| `CommissionDrift.ReferenceFundedTwice` | services/onboarding/commission_engine.go:258-329 | a concrete run of two accruals of one reference: one payment of one hundred, fundings of one hundred and of two hundred |
| `CommissionFunding.FundingEqualsPayments` | services/onboarding/commission_engine.go:258-329 | an accrual under a new reference that completes pays each level its share, to its agent, and funds the pool with exactly the sum of those payments, up to wrap-around |
| `CommissionFunding.OnePaysDue` | services/onboarding/commission_engine.go:336-409 | a level under a new reference that answers was paid exactly the computed amount |
| `CommissionFunding.ComputeKoboExactIff` | services/onboarding/commission_engine.go:186-186 | the commission is the exact share of the base if and only if the product fits in 64 bits |
| `CommissionOutcomes.LevelOutcome` | services/onboarding/commission_engine.go:336-409 | a standing record, of thirty-five days, repeats its own payload and refuses any other; otherwise a level already paid is only marked again, one whose hold is free or stands for this payment is paid out of the pool to its agent, and any other, or one with nothing due, is refused unchanged; the answer tells whether the mark was stored |
| `CommissionOutcomes.LevelsInOrder` | services/onboarding/commission_engine.go:317-329 | levels run nearest earner first, each with its agent, rate and base over ten thousand; one without a rate is skipped, and the first failure ends the accrual |
| `CommissionOutcomes.ClawedBackIsTerminal` | services/onboarding/commission_engine.go:340-358 | a standing record that was clawed back is answered again and pays nothing whatever the ledger holds; one that says posted is answered again only while its post is there |
| `CommissionOutcomes.RefusedPost` | services/onboarding/commission_engine.go:386-391 | a post the ledger refuses releases the hold and drops the level's record |
| `CommissionOutcomes.AccrueRefused` | services/onboarding/commission_engine.go:258-296 | an accrual without agent, reference or base, or with nothing due, changes nothing |
| `CommissionOutcomes.AccrueFunds` | services/onboarding/commission_engine.go:288-315 | any other brings its total from the treasury to the pool, moved once under an id of its own total |
| `CommissionOutcomes.ReversalOutcome` | services/onboarding/commission_engine.go:442-461 | reversing a record takes its amount from its agent back to the pool under one id, once; a reversal in place counts as done |
| `CommissionOutcomes.ClawbackOutcome` | services/onboarding/commission_engine.go:419-464 | a clawback over all records in any order answers exactly when none of the records of the reference, and of the tenant if one is named, fails to be written; then all of those are clawed back with their reversals on the ledger and no other record changed |
| `CommissionLaws.AccrueKeeps` | services/onboarding/commission_engine.go:258-329 | an accrual keeps the invariant and every settled record, at every crash point |
| `CommissionLaws.AccrueOneKeeps` | services/onboarding/commission_engine.go:336-409 | one level's hold, post, mark saga keeps them |
| `CommissionLaws.ClawOneKeeps` | services/onboarding/commission_engine.go:419-464 | reversing one record keeps them |
| `CommissionDrift.RecordMatchesIff` | services/onboarding/commission_engine.go:365-409 | a record written by the saga describes the post if and only if the level had none or one with the same agent and amount |
| `CommissionDrift.ClawbackTakesRecord` | services/onboarding/commission_engine.go:445-461 | a first reversal of a stored record takes the record's amount from the record's agent, whatever the post paid |
| `CommissionDrift.ClawbackReturnsIff` | services/onboarding/commission_engine.go:419-464 | clawing back a stored record with no reversal yet returns what was paid, from the agent it was paid to, if and only if the post credited the record's agent with the record's amount |
| `CommissionDrift.ReturnedForGood` | services/onboarding/commission_engine.go:419-464 | whether a clawback returned what was paid never changes in any later run |
| `CommissionDrift.ClawbackCanTakeMore` | services/onboarding/commission_engine.go:365-461 | a concrete run in which one hundred is paid and two hundred clawed back |
| `CommissionServices.CommissionEngine.TotalDue` | services/onboarding/commission_engine.go:287-292 | the loop sums the commission of every level with a rate, in 64 bits |
| `CommissionServices.CommissionEngine.AccrueAll` | services/onboarding/commission_engine.go:258-329 | refines the specification function, answer included, and keeps the invariant |
| `CommissionServices.CommissionEngine.AccrueLevel` | services/onboarding/commission_engine.go:336-409 | refines the specification function |
| `CommissionServices.CommissionEngine.ClawbackAll` | services/onboarding/commission_engine.go:419-464 | the loop refines the specification function, answer included, and keeps the invariant |
| `Hierarchy.SubtreeOf` | services/onboarding/hierarchy.go:147-179 | for every parent map, cycles included, terminates with exactly the reachable descendants, the root first, each once |
| `Hierarchy.DepthOf` | services/onboarding/hierarchy.go:94-116 | on every parent map: the number of links to the end of the walk, a root or a dangling link, if that is at most one past the cap; a suspected cycle if there is no such end; an error for an unknown agent |
| `Hierarchy.EndsAtRoot` | services/onboarding/hierarchy.go:94-116 | on a forest every walk ends at a root, at one depth, within the cap |
| `Hierarchy.Ancestors` | services/onboarding/hierarchy.go:121-142 | on every parent map: the upline, nearest first, up to the end of the walk or the cap; an error if and only if the agent is unknown or the walk meets an agent twice within the cap; on a forest the whole upline |
| `Hierarchy.Walk` | services/onboarding/hierarchy.go:336-368 | terminates on every parent map; without a cycle below the agent the answer is the exact height |
| `Hierarchy.InSubtree` | services/onboarding/hierarchy.go:372-386 | true if and only if the candidate is the agent or below it |
| `Hierarchy.ChildrenOf` | services/onboarding/agents.go:85-92 | exactly the agents whose parent is this one, each once |
| `Hierarchy.SubtreeIffAncestor` | services/onboarding/hierarchy.go:121-179 | on a forest b is below a if and only if a is b or one of the ancestors of b |
| `Hierarchy.NoCycle` | services/onboarding/hierarchy.go:198-254 | an agent that reaches a root meets itself only at distance zero |
| `Hierarchy.ForestAntisymmetric` | services/onboarding/hierarchy.go:198-254 | on a forest two agents below each other are the same agent |
| `Hierarchy.OneTenant` | services/onboarding/hierarchy.go:212-254 | in a forest every agent has the tenant of all its ancestors |
| `AgentRegistries.RunForest` | services/onboarding/hierarchy.go:198-254 | every run of register, vetting, attach, move and detach keeps the agents a forest: no cycle, no dangling parent, at most three links to the root, one tenant per tree |
| `AgentRegistries.AttachExact` | services/onboarding/hierarchy.go:212-254 | the checks of Attach accept a link if and only if the result is a forest |
| `AgentRegistries.AttachKeepsForest` | services/onboarding/hierarchy.go:212-254 | an accepted link, move or detachment keeps the forest |
| `AgentRegistries.AgentRegistry.Attach` | services/onboarding/hierarchy.go:198-254 | the in-place method attaches if and only if the link is attachable, keeps the forest, and gives each error exactly in its case: unknown agent, other tenant, cycle, depth cap |
| `AgentRegistries.AgentRegistry.Register` | services/onboarding/agents.go:54-67 | a new agent starts unlinked; the forest is kept |
| `AgentRegistries.AgentRegistry.SetVetting` | services/onboarding/agents.go:94-118 | succeeds exactly on an allowed transition and leaves every link alone |
| `AgentRegistries.RegisterOutcome` | services/onboarding/agents.go:54-67 | a new agent is pending and unlinked, in its own tenant or the default one, and no other agent changes |
| `AgentRegistries.VettingMoves` | services/onboarding/agents.go:36-118 | the six vetting moves and no other are made |
| `AgentRegistries.ThreeLevelsAtMost` | services/onboarding/hierarchy.go:52-52 | over every run no agent is more than three links below a root |
| `AgentRegistries.LeafAttachableIff` | services/onboarding/hierarchy.go:212-254 | an agent nobody links to may be attached below another if and only if that one has the same tenant and is at most two links below its root |
| `NipLaws.RefundsWithinPayout` | services/presumptive/nip_recon.go:410-465 | over every run with crashes, lost writes, expiry and purge: the refunds of a payout that the rail executed or may still execute sum to at most the payout, unless a refund was accepted by a wrapping sum or sent unchecked through Payout |
| `NipLaws.RecordedRefundsWithinPayout` | services/presumptive/nip_recon.go:410-465 | without crashes and lost writes the same holds of the refunds recorded as successful or in flight |
| `NipLaws.DispatchAndLeg` | services/presumptive/nip_recon.go:275-390 | in every reachable state a session is dispatched at most once, only with its record stored and its leg on the ledger; the leg is posted only after the rail reported success, once, for the recorded amount |
| `NipLaws.OutstandingCounted` | services/presumptive/nip_recon.go:441-456 | whichever copy of a refund the history loop meets first, it never counts less than what is outstanding |
| `NipLaws.CapCheckExactIff` | services/presumptive/nip_recon.go:457-460 | where the refunds so far are within the payout the cap check decides correctly if and only if the sum fits in 64 bits |
| `NipReuse.WrappedRefundExceedsPayout` | services/presumptive/nip_recon.go:410-465 | a concrete run of a payout of one and two refunds, the second of 2^64 - 1: executed refunds exceed the payout |
| `NipReuse.UncheckedRefundExceedsPayout` | services/presumptive/nip_recon.go:206-334 | a concrete run of a payout of one and a refund of two sent through Payout: executed refunds exceed the payout |
| `NipReuse.UncheckedRefundIff` | services/presumptive/nip_recon.go:206-334 | an executed refund sent through Payout keeps the bound of its payout if and only if it fits |
| `NipLaws.PayoutKeeps` | services/presumptive/nip_recon.go:215-334 | a payout keeps the invariant at every crash point and for every rail answer |
| `NipLaws.RefundKeeps` | services/presumptive/nip_recon.go:410-465 | so does a refund that is not accepted by a wrapping sum |
| `NipLaws.ReverseKeeps` | services/presumptive/nip_recon.go:469-490 | so does a reversal |
| `NipLaws.SweepKeeps` | services/presumptive/nip_recon.go:509-552 | so does the status sweep |
| `NipLaws.PurgeKeeps` | services/presumptive/nip_recon.go:559-581 | so does the purge |
| `NipOutcomes.PayoutSettles` | services/presumptive/nip_recon.go:275-334 | an undisturbed payout makes one dispatch, stores the rail's answer under both slots and answers with it, and posts, releases or keeps its leg accordingly |
| `NipOutcomes.ResolveSucceeds` | services/presumptive/nip_recon.go:524-537 | a sweep row the rail reports successful ends successful in both records with its leg posted |
| `NipOutcomes.ResolveFails` | services/presumptive/nip_recon.go:538-547 | a sweep row the rail reports failed takes the rail's final word and its leg is released |
| `NipAnswers.PayoutIdle` | services/presumptive/nip_recon.go:215-274 | a malformed payout, one whose name enquiry fails, and one whose key is in its window move nothing; only the last is answered, with the stored transfer, and only if the request is the same |
| `NipAnswers.PayoutStarts` | services/presumptive/nip_recon.go:275-334 | every other payout is recorded under both slots with seven days to live, writes no other record and dispatches nothing but itself; a lost first write ends it before anything else happens |
| `NipAnswers.OutcomeStored` | services/presumptive/nip_recon.go:315-334 | the outcome is written to the key's record first and to the session's only if that succeeds; a lost write or a refused post is answered with an error |
| `NipAnswers.UnheardStaysInFlight` | services/presumptive/nip_recon.go:306-314 | a dispatch whose answer is not heard stays in flight in both records with its leg standing |
| `NipAnswers.AnswerIsForRequest` | services/presumptive/nip_recon.go:215-334 | whatever a payout answers carries the request it was given |
| `NipAnswers.RefundOutcome` | services/presumptive/nip_recon.go:410-465 | a refund is refused unchanged unless it names a stored, successful payout, no other destination than that payout's, and an amount within the cap; then it runs, and stores, dispatches and answers, exactly the account and bank of that payout |
| `NipAnswers.OtherDestinationRefused` | services/presumptive/nip_recon.go:434-444 | a refund that names another account or bank than the payout's changes nothing and answers with an error |
| `NipAnswers.RefundsReturnToSource` | services/presumptive/nip_recon.go:410-465 | over every run with crashes and lost writes: a session stored by a call of Refund is, then and ever after, a refund of the requested amount to exactly the account and bank of its stored payout |
| `NipAnswers.RefundedGrows` | services/presumptive/nip_recon.go:445-456 | the history adds a listed refund of the payout exactly when it is in flight or successful and no earlier copy of its session was listed |
| `NipAnswers.ReversalOutcome` | services/presumptive/nip_recon.go:469-490 | an unsettled transfer is put to the rail and both records take the answer, which an undecided session gives now and a decided one repeats; a settled, unknown or unheard one is refused unchanged |
| `NipAnswers.SweepGrows` | services/presumptive/nip_recon.go:509-552 | a sweep asks about each session once, at its first copy in flight, and about no other |
| `NipAnswers.PurgeOutcome` | services/presumptive/nip_recon.go:559-581 | the purge drops exactly the key records of listed transfers that ended and expired, and nothing else |
| `NipAnswers.LegsRecorded` | services/presumptive/nip_recon.go:345-380 | in every reachable state a transfer's leg and its post move the recorded amount from collections to clearing |
| `NipWindow.OneDispatchPerWindow` | services/presumptive/nip_recon.go:215-334 | over every run with crashes and lost writes in which no call takes a live record away, each key is dispatched at most once per window |
| `NipWindow.GuardedIff` | services/presumptive/nip_recon.go:215-581 | over every run a key's live record stays in its slot after every call if and only if no reversal, sweep or purge of the run meets its guard |
| `NipWindow.PayoutWindow` | services/presumptive/nip_recon.go:230-260 | a payout or refund dispatches a key only after the window of its last dispatch has closed |
| `NipWindow.MaintenanceWindowIff` | services/presumptive/nip_recon.go:469-581 | one reversal, sweep or purge, cut off anywhere, keeps the live record of a key if and only if it does not write the key's slot for another session, or end up doing so, and reaches no expired final transfer under the key |
| `NipWindow.ReverseHoldsIff` | services/presumptive/nip_recon.go:469-503 | a reversal takes the live record away if and only if it writes the slot, heard, not lost and not reversed or settled before, for another session |
| `NipWindow.RowHoldsIff` | services/presumptive/nip_recon.go:520-552 | a sweep row takes the live record away if and only if it writes the slot for another session |
| `NipWindow.SweepHoldsIff` | services/presumptive/nip_recon.go:509-552 | a sweep leaves the slot to the last of its rows that writes it |
| `NipWindow.FreesIff` | services/presumptive/nip_recon.go:469-581 | maintenance leaves a live key's slot empty or expired if and only if it purges the key or last writes it for an expired transfer |
| `NipReuse.SecondDispatchIff` | services/presumptive/nip_recon.go:230-260 | within a key's window an undisturbed payout is a second dispatch if and only if the slot is empty or holds an expired transfer |
| `NipReuse.DispatchedAgainIff` | services/presumptive/nip_recon.go:215-581 | a payout after a maintenance call is a second dispatch in the window if and only if that call emptied the slot or put an expired transfer there |
| `NipWindow.PurgeRemovesIff` | services/presumptive/nip_recon.go:559-581 | the purge removes a key's record if and only if some stored transfer under the key is expired and final |
| `NipReuse.ReusedKeyDispatchedTwice` | services/presumptive/nip_recon.go:559-581 | a concrete run of four calls, a purge among them, that dispatches one key twice within a window |
| `NipReuse.ReversedKeyDispatchedTwice` | services/presumptive/nip_recon.go:469-503 | a concrete run of four calls, a reversal among them, that does the same |
| `NipServices.NipService.PayoutLocked` | services/presumptive/nip_recon.go:215-334 | refines the specification function and keeps the invariant; a key in its window is answered with the stored transfer or a conflict, a new transfer with its outcome, and any refused or lost step with an error |
| `NipServices.NipService.FundsTransfer` | services/presumptive/nip.go:175-196 | the rail executes a session once and repeats the recorded outcome |
| `NipServices.NipService.AskRail` | services/presumptive/nip.go:198-236 | a status query or reversal of an unsettled session commits its answer, a final answer is repeated, an unknown session counts as not received |
| `NipServices.NipService.PostLedgerLeg` | services/presumptive/nip_recon.go:372-379 | refines the specification function |
| `NipServices.NipService.VoidLedgerLeg` | services/presumptive/nip_recon.go:383-390 | refines the specification function |
| `NipServices.NipService.RefundedSoFar` | services/presumptive/nip_recon.go:445-456 | the history loop counts the first copy of each refund session |
| `NipServices.NipService.Refund` | services/presumptive/nip_recon.go:410-465 | refines the specification function and keeps the invariant; a refund that is not of a successful payout, names another destination or exceeds the cap changes nothing and answers with an error, and one that answers carries the payout's own account and bank |
| `NipServices.NipService.Reversal` | services/presumptive/nip_recon.go:469-490 | refines the specification function and keeps the invariant; it succeeds if and only if the transfer was reversed before, or is stored unsettled and the rail answers |
| `NipServices.NipService.SweepTSQ` | services/presumptive/nip_recon.go:509-552 | the loop refines the specification of a sweep and keeps the invariant |
| `NipServices.NipService.PurgeExpiredIdempotency` | services/presumptive/nip_recon.go:559-581 | the loop refines the specification of a purge and keeps the invariant |
| `SharedLedger.StepSpares` | internal/platform/ledger/ledger.go:173-390 | a ledger call of one service changes no record, journal entry or account of another, and no float balance unless it is the float service's |
| `Suites.PaymentsSpare` | services/presumptive/payments.go:318-978 | every payment operation, cut off anywhere, leaves the other services' ledger data alone |
| `Suites.FloatsSpare` | services/presumptive/float.go:40-204 | so does every float operation |
| `Suites.CommissionsSpare` | services/onboarding/commission_engine.go:258-464 | so does every commission operation |
| `Suites.NipSpares` | services/presumptive/nip_recon.go:206-581 | so does every NIP operation |
| `Suites.RunKeeps` | internal/platform/ledger/ledger.go:173-390 | every interleaving of the four services and of outside traffic on one ledger, each call cut off anywhere, keeps all four invariants, with no assumption about one service in another |
| `Suites.PromisesHoldTogether` | internal/platform/ledger/ledger.go:173-390 | in every state of such a run each payment's status means what it says about the shared journal, every float movement is landed or standing and none voided, each commission level is paid at most once, and refunds stay within their payouts |
| `SuiteRuns.FundedMovementLands` | services/presumptive/float.go:125-176 | a float movement whose source covers it lands, posted once and in full, a top-up to the agent and a debit from the agent, after any calls of the other three services, cut off anywhere |
| `SuiteRuns.DepositedTopupLands` | services/presumptive/float.go:125-176 | a concrete run from the empty ledger: a deposit, a levy intent, a NIP payout and a top-up that is posted and has landed |
| `SuiteRuns.TopupFundsDebit` | services/presumptive/float.go:206-218 | what a top-up brings to a new agent can be debited again |
| `SuiteRuns.ToppedUpThenDebited` | services/presumptive/float.go:206-218 | a concrete run: of a hundred deposited and forty topped up fifteen are debited; the agent keeps twenty-five, the treasury seventy-five |
| `Hlc.LessStrictTotal` | internal/platform/crdtx/crdtx.go:23-31 | the order on timestamps is strict and total |
| `Hlc.LessDecides` | internal/platform/crdtx/crdtx.go:23-31 | the wall decides, then the counter, then the first character in which the nodes differ |
| `Hlc.PrintInjective` | internal/platform/crdtx/crdtx.go:33-33 | printed timestamps are equal only for equal timestamps |
| `Hlc.ReparseIff` | internal/platform/crdtx/crdtx.go:127-141 | re-parsing a printed timestamp gives it back if and only if its node id has no white space |
| `Clocks.Clock.Now` | internal/platform/crdtx/crdtx.go:45-58 | the in-place method refines the specification function |
| `Clocks.Clock.Update` | internal/platform/crdtx/crdtx.go:61-82 | the in-place method refines the specification function |
| `Clocks.NowForwardIff` | internal/platform/crdtx/crdtx.go:45-58 | a local timestamp is later than the last if and only if the counter does not wrap |
| `Clocks.UpdateForwardIff` | internal/platform/crdtx/crdtx.go:61-82 | a merged timestamp is later than the last and the received one if and only if the counter does not wrap |
| `Clocks.NowFollowsWall` | internal/platform/crdtx/crdtx.go:45-58 | a later wall reading is taken over with counter zero; otherwise the wall stands and the counter goes up by one, wrapping at 32 bits |
| `Clocks.UpdateFollowsWall` | internal/platform/crdtx/crdtx.go:61-82 | the merged wall is the latest of the three readings, and the counter zero where the local reading alone is latest, else one more than the highest seen with that wall |
| `Clocks.StampsFollowWall` | internal/platform/crdtx/crdtx.go:45-82 | in any run of any nodes, a local event whose reading is ahead of all earlier ones is stamped with exactly that reading |
| `Clocks.HappenedBeforeImpliesLess` | internal/platform/crdtx/crdtx.go:23-82 | for any clocks and any wall readings, happened-before implies the timestamp order |
| `Clocks.StampsUnique` | internal/platform/crdtx/crdtx.go:45-82 | no two events of clocks with distinct nodes share a timestamp |
| `OrSets.LiveMeetsSpec` | internal/platform/crdtx/crdtx.go:143-187 | after any merges an element is present if and only if some delivered add has a tag no delivered remove names |
| `OrSets.LiveConverges` | internal/platform/crdtx/crdtx.go:143-187 | presence depends only on the set of delivered operations |
| `OrSets.MergeInParts` | internal/platform/crdtx/crdtx.go:168-176 | batching does not matter |
| `OrSets.ElementsConverge` | internal/platform/crdtx/crdtx.go:189-198 | replicas with the same operations list the same elements in the same order |
| `OrSets.RemoveOpExactIff` | internal/platform/crdtx/crdtx.go:127-141 | a remove names the observed tag if and only if its node id has no white space |
| `OrSets.RemoveExact` | internal/platform/crdtx/crdtx.go:127-141 | a remove tombstones exactly the tags observed and touches no other element |
| `OrSets.ConcurrentAddSurvives` | internal/platform/crdtx/crdtx.go:127-164 | a concurrent add survives at every replica, in any delivery order |
| `OrSets.ORSet.ApplyOp` | internal/platform/crdtx/crdtx.go:143-164 | the in-place method refines the specification function |
| `OrSets.ORSet.MergeOps` | internal/platform/crdtx/crdtx.go:168-176 | the loop refines the specification function and counts the new operations |
| `OrSets.ORSet.Contains` | internal/platform/crdtx/crdtx.go:179-187 | the loop answers whether the element is present |
| `OrSets.ORSet.Elements` | internal/platform/crdtx/crdtx.go:189-198 | exactly the present elements, strictly ascending |
| `OrSets.ORSet.RemoveElement` | internal/platform/crdtx/crdtx.go:127-141 | issues a remove for each observed tag and applies them |
| `Stores.Collection.Put` | internal/platform/store/store.go:178-203 | writes the document and keeps every index equal to the documents, in both directions |
| `Stores.Collection.PutIfAbsent` | internal/platform/store/store.go:205-229 | wins if and only if the id was absent; keeps the indexes |
| `Stores.Collection.Delete` | internal/platform/store/store.go:248-263 | removes the document and all its index entries |
| `Stores.Collection.RegisterIndex` | internal/platform/store/store.go:329-348 | backfills from documents that exist; keeps the indexes |
| `Stores.Collection.Deindex` | internal/platform/store/store.go:392-411 | removes exactly the entries of one id, from both maps |
| `Stores.Collection.Reindex` | internal/platform/store/store.go:381-390 | replaces exactly the entries of one id |
| `Stores.Collection.ListWhere` | internal/platform/store/store.go:413-446 | for every non-empty value exactly the documents a full scan finds, no duplicates, no dangling ids; the empty value is answered as the code does |
| `RateLimiters.TokenBucketBound` | services/presumptive/certificates.go:106-130 | for every key and every window of length T the accepted calls number at most capacity + perSec * T |
| `RateLimiters.BurstAccepted` | services/presumptive/certificates.go:111-130 | a new key's first calls, up to the capacity, are all accepted |
| `RateLimiters.AllowOutcome` | services/presumptive/certificates.go:111-130 | a call is accepted exactly when its bucket, refilled up to capacity, holds a whole token, takes one then, and touches no other bucket |
| `RateLimiters.WaitingAccepted` | services/presumptive/certificates.go:111-130 | a key that waits is served: its next calls are all accepted, as many as the bucket can hold and as were left or earned |
| `RateLimiters.FullAgain` | services/presumptive/certificates.go:111-130 | after any run, once the time to earn the capacity has passed, a full burst is accepted |
| `RateLimiters.RateLimiter.Allow` | services/presumptive/certificates.go:111-130 | the in-place method refines the specification step |

## Left out

- HTTP handlers, roles, telemetry, Kafka, Redis, Postgres and file persistence: input and output around the kernel.
- `attachPostgres`: it locks only child and parent; the forest theorem is about the path serialised by the mutex.
- `commissionSettlement` in services/onboarding/workflows.go: a second payout saga beside Accrue.
- The provider simulator and fee schedule of services/presumptive/pssp.go: provider answers are arbitrary here, so its particular answers add nothing.
- Hash and signature internals: hashes are injective constructors, certificates carry no signature.
- uint64 wrap-around of ledger balances and of the agent serial hash: amounts are unbounded and serials distinct.
- Event publishing, the outbox relay, log text, detail strings and timestamp formatting.
- The expiry of intent idempotency keys: `Intents` is about one key inside its window.
- Interleavings inside one operation other than those of CreateIntent: operations are atomic up to crashes, so a status sweep racing a payout before its dispatch is not modelled.
- compensateCapture is one call with respect to crashes: a crash inside it, after the reversal, is the lost write of the payment.
- PaymentServices.PaymentService.CreateIntent: the claim on the idempotency key is in `Intents`; here the call starts below it, with the payment id as a parameter.
- NipServices.NipService.AskRail: a rail whose final answers do not change; the simulator also reverses a session that succeeded and does not record an unknown one.
- PaymentServices.PaymentService.SweepOnce: takes the listing as a parameter, as the methods of the other services do; the store's listing order is arbitrary.
- PaymentTheorems.RunAgrees: leaves out exactly the calls that lose or undo a compensation, because the laws are then lost (`PaymentRuns.CaptureKeepsIff`, `PaymentRuns.SweepOneKeepsIff`, `PaymentTheorems.ResolveDisputeKeepsIff`).
- NipLaws.RefundsWithinPayout: leaves out refunds accepted although their cap sum wraps, and refunds sent through Payout that do not fit, because the bound is then lost (`NipReuse.WrappedRefundExceedsPayout`, `NipReuse.UncheckedRefundIff`).
- RateLimiters.TokenBucketBound: real numbers instead of floating point, without rounding.
