# Verification of the payment-resolution control plane

A payment intent reaches this service with an outcome nobody is sure of. Webhooks, checkout callbacks
and operators write about it; a durable outbox hands it to workers; a worker's `resolve` run takes a
lock, gathers evidence from the provider, hears an AI detective's proposal, lets a deterministic policy
decide, moves money if the policy approves, and records what it did. This project models that control
plane in Dafny and proves what all of its runs keep.

The detective may propose any action with any confidence and the provider may answer anything: both are
arbitrary inputs. The theorems are about the policy and the protocol, not about the advice.

`dafny verify dfyconfig.toml` checks the project.

## How the model is laid out

| files | content |
|---|---|
| `Domain`, `Counting` | shared vocabulary; counting and summing over logs |
| `StateMachine`, `Money`, `Policy`, `Negotiator`, `Executor`, `Reconciliation` | the decision and arithmetic functions; the executor and the reconciliation engine are methods proved against their specifications |
| `EndToEnd` | evidence, ruling, command and provider call composed: the units sent, and the two amount checks against each other |
| `Intents` | the statements that write the intents table outside the resolver |
| `Protocol` | the tables, and any number of runs interleaved statement by statement with the other writers, exceptions, crashes and lock expiry |
| `ProtocolSafety`, `ProtocolTheorems`, `ProtocolMoney` | the invariant and its preservation by every step; the theorems over all behaviours; the money that the evidence shows |
| `ProtocolExpiry`, `ExpiryBounds`, `ProtocolWitnesses` | the protocol when lock keys may expire under living runs, and what is bounded then; behaviours that show which bounds are reached |
| `Resolver` | `resolve` as it is written, over a class of tables, proved to be one of the protocol's behaviours |
| `Outbox`, `Worker` | the leased queue as a transition system, and the polling step as it is written |
| `DedupCache`, `Webhook`, `IntentRows` | the cache and its in-memory fallback; webhook ingestion, and its behaviour over all delivery sequences and evictions; what becomes of amount, payment and currency |
| `RateLimiter`, `Ledger`, `ApiClient`, `Token` | the sliding-window limiter, the financial summaries, the provider client's retry loop, and access tokens |

The protocol carries a `journal`, which no statement reads: it notes what happened (captures made in a
call, reported or not, a completed run, an update that was lost) so that theorems can count it. Lock keys carry the
run that set them, also unread. The books of an intent (`ProtocolSafety.Books`) relate its table
rows, the phase of the run that holds its lock and its journal; the main invariant says that they
balance for every intent.

A clock, a provider, a database that may fail, fresh identifiers and keyed hashes are parameters.
Decimals are exact reals together with the explicit limits that `quantize` enforces.

## What was learned about the code

Where the code and its documentation or comments disagree, the model follows the code.

* **At most one recorded capture** holds over all interleavings, crashes included, as long as no lock
  expires under a living run (`AtMostOneCapture`). Locks have a 30 second time to live. With expiries under
  living runs there are at most that many captures more (`CapturesWithinExpiries`), and one suffices for
  two captures (`ExpiryUnderLivingRun`).
* **At the provider** a second capture is possible. A crash between the provider's answer and the insert
  of its row leaves nothing for the next run to count (`CaptureTwiceAtProvider`). So does, without any
  crash, an answer that cannot be parsed: the exception is no API error, the run ends with ERROR, and the
  next one captures again (`CaptureTwiceUnreported`). A capture behind a timeout is recorded as a failure.
  `ProviderCapturesAccounted` accounts for all of them.
* **The evidence can show more than the amount.** The ledger sums attempts, failed ones included, although
  a comment in `ledger/financial_effects.py:44` speaks of approved captures. Two failed attempts
  separated by a crash both count (`EvidenceExceedsAmount`). The total is exactly the amount times the
  number of runs that attempted to move money (`EvidencedMoneyIsExact`), so it stays within the amount if
  and only if there is at most one (`EvidencedMoneyWithinExactlyWhen`).
* **Checkout verification reopens terminal intents**, and each reopening allows one more approved run
  (`ApprovedTwiceAfterCheckout`, `ApprovedCompletionsBounded`).
* **So does the final update of a stale run.** It writes the state it has chosen with no look at the version
  or at the state it overwrites. If a failure report, a webhook or an operator has made the intent terminal
  in the meantime, an unapproved run takes it back (`StaleUpdateReopens`). `TerminalLeftExactlyWhen` names
  all the steps that leave a terminal state; no approved run is undone (`RevertingUndoesNoApproval`).
* **CAPTURED is not proof of a capture.** The success of an approved NO_ACTION, even on FAILED evidence,
  writes it (`CapturedWithoutCapture`), while a real capture out of PENDING_RAIL or AUTHORIZED is not in the
  transition table and ends in MANUAL_REVIEW (`FinalStateMeans`).
* **A webhook with no amount loses its outbox row for good.** `schema.sql:36` demands a positive amount of
  the row proposed for insertion, so the upsert fails after the event has been stored, and every
  redelivery is then a duplicate (`OutboxExactlyFor`).
* **Events of unsupported kinds do write the intent**, although the response says that they are recorded
  without state mutation (`api/webhook_receiver.py:168-190`).
* **A row reclaimed after its last attempt stays PENDING for ever**: it is neither claimed nor
  dead-lettered, although the documentation lists dead-lettering among the strengths
  (`StrandedOnlyByReclaim`, `StrandedForever`). A worker that writes after its lease can undo PROCESSED
  (`StaleWriteUndoesProcessed`).
* **A redelivery with another body can take the place of the persisted hash in the cache**: after an
  eviction (`EvictionLosesTheHash`), and without any eviction for an event whose first delivery carried no
  amount, since that one is stored but not marked (`UnpaidEventLosesTheHash`; `CacheFaithfulExactlyWhen`
  gives the exact condition).
* **Webhooks that share an order reference need not commute** when one of them names another intent
  (`PairCommutesExactlyWhen`).
* **A webhook in another currency changes the amount of an intent but not its currency**
  (`AmountIsTheLastWritten`, `CurrencyIsTheFirstWritten`, `AmountWithoutItsCurrency`).
* **Reconciliation reads integers up to 100 as major units**, so its amount check and Policy Rule 3 can
  disagree; `AmountCheckAgainstRuleThree` says exactly when.
* **Provider echoes of zero-decimal currencies never pass Rule 3** (`OwnEchoPassesRuleThree`), because the
  negotiator divides by 100 whatever the currency.
* **The test for reconciliation status AMBIGUOUS in the resolver is redundant**
  (`AmbiguityIsAlreadyUnknown`).
* **`get_pool` is called before the `try`** that releases the lock, so its failure leaves the lock behind
  and is the one exception that `resolve` raises (`Resolver.Resolve`, answer `PoolFailure`).
* **An unreadable Retry-After header**, such as a date, escapes the client as an exception of another kind
  (`UnreadableRetryAfter`).
* **The two rate-limiter paths differ on simultaneous calls** (`SimultaneousCallsDiffer`).

## Model

| member | source | states |
|---|---|---|
| ProtocolTheorems.AtMostOneCapture | core/resolver.py:51-187 | in every reachable world, whatever the detective and the provider answer and however runs, writers and crashes interleave, an intent has at most one successful CAPTURE row |
| ProtocolTheorems.MutualExclusion | core/idempotency.py:46-74 | no two living runs work on the same intent |
| ProtocolTheorems.ProviderCapturesAccounted | core/resolver.py:165-187 | captures really made are the recorded one, those whose row was lost, those that a call hid behind an error, a timeout, an unreadable answer or a crash, and the one still to be recorded; so at most one more than were lost or hidden |
| ProtocolTheorems.UnreportedOnlyIfHidden | razorpay/client.py:59-108 | captures go unreported only in calls that hide one |
| ProtocolTheorems.KeysAreDistinct | core/resolver.py:97 | each version below the current one was the idempotency key of exactly one completed run, so the keys of completed runs are pairwise distinct |
| ProtocolTheorems.EvidenceAgainstVersion | core/resolver.py:224-259 | the evidence rows of an intent number its version increments, plus the runs that ended between evidence and update, plus the run now between the two |
| ProtocolTheorems.CasesAccounted | core/resolver.py:201-212 | the cases of an intent number its completed runs that took the ambiguity branch, plus runs that opened one and ended early or have yet to complete |
| ProtocolTheorems.CompletionsAreFinal | core/resolver.py:156-212 | a completed run that was approved has written a terminal state; one that opened a case has written MANUAL_REVIEW |
| ProtocolTheorems.ApprovedCompletionsBounded | core/resolver.py:85-259 | an intent has at most one approved completed run for each time it was opened |
| ProtocolTheorems.AtMostOneApproval | core/resolver.py:85-259 | with every writer except checkout verification, at most one completed run of an intent is approved |
| ProtocolTheorems.ReopenedOnlyByCheckout | api/orders_routes.py:255-270 | reopenings, that is terminal intents authorized again, are added to the history by checkout verification only |
| Intents.WhatWritersChange | api/orders_routes.py:254-363 | checkout, failure report and operator change nothing but state, active payment and resolution of one existing intent, each to exactly what is listed |
| ProtocolSafety.ClosingSettles | api/reconciliation_routes.py:92-108 | resolving a case closes it and makes its intent RECONCILED, or MANUAL_REVIEW for any other action, and resolved |
| Intents.WhoCreates | api/orders_routes.py:99-114 | of the writers other than webhooks only an order creates an intent: CREATED, version 1, for a positive amount |
| ProtocolTheorems.TerminalLeftExactlyWhen | core/resolver.py:250-259 | exactly which steps make a terminal intent resolvable again: a checkout that has not read that it was verified before, or the final update of a run whose chosen state is not terminal |
| ProtocolTheorems.TerminalUnlessLeft | core/resolver.py:250-259 | through every behaviour without such a step a terminal intent stays terminal |
| ProtocolTheorems.RevertingUndoesNoApproval | core/resolver.py:152-259 | a final update that makes a terminal intent resolvable again is that of an unapproved run, and undoes no approved one |
| ProtocolTheorems.ApprovedAndClosed | core/resolver.py:85-259 | once there are more approved completed runs than reopenings, the intent is terminal and no run has loaded it |
| ProtocolMoney.EvidencedMoneyIsExact | core/resolver.py:214-259 | for an intent of fixed amount, captured + refunded + voided evidence is exactly the amount times the runs that attempted to move money: completed, lost before their update, or between the two |
| ProtocolMoney.EvidencedMoneyWithinExactlyWhen | core/resolver.py:214-259 | so that total stays within the amount if and only if there is at most one such run |
| ProtocolMoney.EvidencedMoneyBounded | core/resolver.py:85-259 | it is at most the amount times 1 + reopenings + attempts lost before their update |
| ProtocolMoney.EvidencedMoneyWithinAmount | core/resolver.py:214-259 | it never exceeds the amount if checkout does not reopen the intent and no failure hits one of its runs between the evidence of a movement of money and the update |
| ProtocolMoney.StepLosesMoney | core/resolver.py:224-272 | exactly the failures between such evidence and the update lose an attempt |
| ProtocolMoney.LostMoneyIsLosings | core/resolver.py:224-272 | the attempts lost along a behaviour are counted by those failures |
| ProtocolTheorems.UpdatesLostOnlyByFailure | core/resolver.py:224-272 | only an exception or a crash loses an update after its evidence, approved or not |
| ProtocolTheorems.StepNotes | core/resolver.py:51-274 | every step adds at most one entry to the history, and its kind tells which step it was: a Reopened entry comes only from checkout, a lost update only from a failure between evidence and update |
| ProtocolTheorems.ApprovalsBounded | core/resolver.py:160-259 | approvals on record are at most 1 + reopenings + lost approvals |
| ProtocolSafety.BehaviourKeepsInv | core/resolver.py:33-274 | any interleaving of steps keeps the books of every intent balanced and every lock with the run that set it |
| ProtocolSafety.NextKeepsInv | core/resolver.py:33-274 | so does each single step of a run or of another writer |
| ProtocolSafety.ApprovedEndsTerminal | core/resolver.py:155-194 | the state chosen by an approved run is terminal for every non-terminal state, action and executor outcome; a run that opens a case chooses MANUAL_REVIEW |
| ProtocolSafety.FinalStateMeans | core/resolver.py:155-212 | the exact conditions under which a run writes CAPTURED or FAILED; every other success of an approved action goes to MANUAL_REVIEW |
| ProtocolSafety.RefusedStateMeans | core/resolver.py:195-212 | the state that an unapproved run writes, in terms of the loaded state and the evidence, for every evidence |
| ProtocolSafety.ApprovedStateMeans | core/resolver.py:155-194 | the state that an approved run writes: CAPTURED for a successful capture or NO_ACTION out of UNCERTAIN or VERIFYING, FAILED for an unsuccessful action out of PENDING_RAIL, UNCERTAIN or VERIFYING, MANUAL_REVIEW otherwise |
| ProtocolSafety.CapturedWithoutCapture | core/policy_engine.py:154-155 | an approved NO_ACTION on FAILED evidence takes an UNCERTAIN intent to CAPTURED |
| ProtocolSafety.CaptureMeansFirst | core/policy_engine.py:68-107 | a run whose capture succeeded had counted no earlier capture |
| ProtocolSafety.EvidenceIsApproved | core/resolver.py:224-238 | evidence that names a money-moving action carries the decision APPROVE |
| ProtocolSafety.OutcomeIsConsistent | core/resolver.py:164-194 | what the executor answers to an approved job names the job's action, and only captures, refunds, voids and NO_ACTION succeed |
| ProtocolSafety.CheckoutKeepsInv | api/orders_routes.py:254-270 | checkout verification, even of a terminal intent and with a stale read, keeps the books |
| ProtocolSafety.CloseCaseKeepsInv | api/reconciliation_routes.py:91-107 | an operator's resolution of a case keeps the books |
| ProtocolSafety.OtherWriterKeepsInv | api/orders_routes.py:354-362 | failure reports, order creation and webhook upserts keep the books |
| ProtocolSafety.FailureKeepsInv | core/resolver.py:270-274 | an exception or a crash at any statement, also in the executor's call, keeps the books, its losses being noted |
| ProtocolWitnesses.CaptureTwiceAtProvider | core/resolver.py:165-187 | a behaviour with two captures at the provider, one of them unrecorded, and no reopening |
| ProtocolWitnesses.CaptureTwiceUnreported | razorpay/client.py:72-73 | a behaviour without crash or lost row with two captures at the provider, the first behind an answer that cannot be parsed |
| ProtocolWitnesses.EvidenceExceedsAmount | core/resolver.py:224-259 | a behaviour without checkout or amount change whose evidence shows 200.00 for an intent of 100.00, with nothing captured |
| ProtocolWitnesses.ApprovedTwiceAfterCheckout | api/orders_routes.py:254-270 | a behaviour with one reopening and two approved completed runs |
| ProtocolWitnesses.StaleUpdateReopens | core/resolver.py:250-259 | a behaviour without any checkout: a failure report, then the final update of an undecided run takes the intent from FAILED back to PENDING_RAIL, and the next run captures it |
| ProtocolExpiry.CapturesWithinExpiries | core/idempotency.py:46-74 | whatever key expires when, and whoever deletes it, an intent has at most one successful CAPTURE row more than expiries of its key under the run that set it |
| ProtocolExpiry.StepStaysWithin | core/idempotency.py:46-74 | each step keeps living runs, and captures with runs that may still add one, within one more than the expiries |
| ProtocolExpiry.LiftRuns | core/resolver.py:33-274 | the protocol's behaviours are those without such expiries |
| ProtocolWitnesses.ExpiryUnderLivingRun | core/idempotency.py:46-61 | a behaviour with one such expiry and two successful CAPTURE rows |
| ExpiryBounds.KeysWithinExpiries | core/resolver.py:97 | with such expiries an idempotency key is that of at most one completed run more than there are expiries |
| ExpiryBounds.ApprovalsWithinExpiries | core/resolver.py:85-259 | with such expiries the approved completed runs are at most 1 + expiries, once and again for each time that a terminal intent becomes resolvable |
| ExpiryBounds.MoneyWithinExpiries | core/resolver.py:214-259 | and the evidence of an intent of fixed amount shows at most the amount for each of them and for each attempt lost before its update |
| Resolver.Resolve | core/resolver.py:33-274 | one run changes the tables exactly as the protocol's steps do one after the other, and, outright: which answer it gives; the decision; for an unapproved run the state that the evidence asks for (DUPLICATE: DUPLICATE_SUSPECTED from UNCERTAIN, else MANUAL_REVIEW; FAILED: FAILED from the five states it can follow, else MANUAL_REVIEW; UNKNOWN or ambiguous: MANUAL_REVIEW with one open case; any other: the loaded state), for an approved one the state after the confirmed or unconfirmed action; the next version; the execution and evidence rows; a held lock skips it; the lock is released except when the pool fails; money moves by at most one call, only on approval, for exactly the sub-units of the evidence |
| Resolver.SoloIsABehaviour | core/resolver.py:33-274 | such a run is one of the protocol's behaviours, so the theorems hold after it |
| Resolver.SettleOutcome | core/resolver.py:155-212 | the execution row, the case and the final state of a settled outcome, for an unapproved run in terms of the evidence alone |
| Resolver.DecideAndAct | core/resolver.py:148-167 | the outcome is that of the freshly signed command; the provider is called only on approval, for the evidence's sub-units and payment |
| Resolver.Decide | core/resolver.py:88-212 | from the loaded row to the settled outcome, or to the exception that leaves the executor; exactly when it is the latter, the decision, the rows logged and the state chosen |
| Resolver.WriteEvidence | core/resolver.py:214-248 | exactly one evidence row is appended, for the attempted action and the loaded amount; SUCCESS and REFUNDED, not VOIDED, mark the intent as resolved and change nothing else |
| Resolver.UpdateIntent | core/resolver.py:250-259 | the intent gets the final state and the next version, resolved exactly if that state is terminal; amount, currency, payment and all other intents stay |
| Resolver.Record | core/resolver.py:214-274 | the statements from evidence to update, for each place where one of them may raise |
| Resolver.Tables.AcquireIntentLock | core/idempotency.py:46-61 | succeeds exactly when the key is free, and then sets it |
| Resolver.Tables.ReleaseIntentLock | core/idempotency.py:64-74 | deletes the key, whoever set it |
| Resolver.Tables.CountSuccessfulCaptures | core/resolver.py:88-94 | the number of rows of the intent with operation CAPTURE and status SUCCESS or CAPTURED; positive exactly if there is such a row |
| Resolver.Tables.InsertExecution | core/resolver.py:132-146 | appends unless the key is taken or a check of the table refuses the row |
| Resolver.InsertsExactlyWhen | schema.sql:71-80 | a row enters the table if and only if its key is free and its status and operation are admitted, so AUTHORIZED evidence leaves no row |
| Policy.CaptureApprovedExactlyWhen | core/policy_engine.py:30-115 | a capture is approved if and only if the intent is ordinary and uncaptured, the evidence positive and about the same money, and the confidence at least 0.85 |
| Policy.MoneyBackApprovedExactlyWhen | core/policy_engine.py:30-115 | a refund or void is approved if and only if the state is DUPLICATE_SUSPECTED, the evidence shows a payment of the same money, the confidence suffices, and a refund is at most 1000.00 |
| Policy.OtherActionApprovedExactlyWhen | core/policy_engine.py:30-161 | the exact condition for every other proposal; VERIFY is never approved |
| Policy.EscalatedExactlyWhen | core/policy_engine.py:30-96 | the ruling is MANUAL_REVIEW if and only if the first four rules pass and the confidence is below 0.85 or a refund above 1000.00 |
| Policy.FirstRuleIsNamed | core/policy_engine.py:30-115 | the rule that a ruling names is the first that speaks against the proposal, for each rule with its exact condition; exactly the guardrail and the cap escalate |
| Policy.ConfidenceOnlyWithholds | core/policy_engine.py:78-85 | a lower confidence can only turn a ruling into the guardrail's manual review |
| Policy.ExistingCaptureOnlyRestricts | core/policy_engine.py:68-76 | what is approved despite an existing capture is approved without one, and is no capture |
| StateMachine.TerminalWithinSeven | core/state_machine.py:32-113 | every event sequence with at least rank (at most 7) progressing events visits a terminal state |
| StateMachine.RankDecreases | core/state_machine.py:94-113 | every event other than TIMEOUT in UNCERTAIN lowers the rank of a non-terminal state |
| StateMachine.SevenIsTight | core/state_machine.py:32-91 | six progressing events from CREATED need not reach a terminal state |
| StateMachine.AbsorbingStates | core/state_machine.py:94-108 | FAILED and RECONCILED are never left |
| StateMachine.ManualReviewNeedsOperator | core/state_machine.py:88-108 | MANUAL_REVIEW is held throughout a sequence if and only if no operator event occurs in it |
| StateMachine.FailedOnlyByFailureEvent | core/state_machine.py:32-113 | a run enters FAILED only through an explicit failure event |
| StateMachine.CapturedOnlyBySuccessEvent | core/state_machine.py:32-113 | a run enters CAPTURED only through an explicit success event |
| StateMachine.OnlyFirstVerdictCounts | core/state_machine.py:94-113 | of any sequence of captured, failed, verified-success and verified-failed events only the first can change the state |
| StateMachine.VerdictsSettle | core/state_machine.py:94-113 | a verdict leads to a terminal state that no later verdict changes |
| StateMachine.EventsHaveOneDestination | core/state_machine.py:32-113 | the table read by events: wherever an event is expected it leads to one and the same state; elsewhere to MANUAL_REVIEW, terminal states excepted |
| Money.MinorUnitsRoundTrip | domain/money.py:62-89 | minor units to decimal and back is the identity whenever the first conversion succeeds, and the exact condition for that |
| Money.MinorUnitsAreNearest | domain/money.py:77-89 | the result is n if and only if n is the nearest unit, ties up; for zero-decimal currencies the whole units |
| Money.ToDecimalAmountRounds | domain/money.py:43-59 | within half a cent, at most two decimals, identity on those, idempotent |
| Money.ToDecimalAmountIsMonotone | domain/money.py:43-59 | monotone |
| Money.TruncationAgainstRounding | razorpay/payments.py:27 | the truncating sub-units are at most one below the rounded ones, equal exactly below half a unit, and exact on two-decimal amounts |
| Money.RoundHalfUpIsNearest | domain/money.py:59 | ROUND_HALF_UP of a non-negative value is the one integer within half a unit, ties up |
| Money.RoundHalfUpIsMonotone | domain/money.py:59 | rounding is monotone |
| Money.ValidationNormalizes | domain/money.py:32-40 | validation returns a listed code and accepts it unchanged |
| Money.SpaceAndCaseDoNotMatter | domain/money.py:25-40 | white space around a code and its letter case do not matter; it is one of the nine or refused |
| Money.SameInCapitals | domain/money.py:37 | two texts are equal in capitals if and only if they differ in letter case only |
| Money.MinorUnitsExactlyFor | domain/money.py:28-29 | which of the supported currencies have minor units |
| Money.ErrorsOfConversions | domain/money.py:43-89 | which error each conversion reports, exactly |
| EndToEnd.Dispatch | core/resolver.py:148-167 | rule, authorize, sign, execute: at most one call, exactly when an approved money movement is timely, signed, addressed and in a currency that can be sent; the call's kind, payment, units and currency |
| EndToEnd.Act | core/resolver.py:96-167 | from the provider's record to action: exactly when the provider is called and with what; when it reported n > 0 minor units the call is for exactly n |
| EndToEnd.CaptureRestsOnTheProvider | agents/negotiator.py:35-106 | a capture is approved if and only if the intent allows it and the provider's record says captured or authorized, in any letter case, of the same money, or a synthetic rail says SUCCESS |
| EndToEnd.MoneyBackRestsOnTheProvider | agents/negotiator.py:35-106 | a refund or void is approved if and only if the intent allows it and the record says captured, or a synthetic rail SUCCESS or DUPLICATE |
| EndToEnd.OtherActionsRestOnTheProvider | agents/negotiator.py:35-106 | REROUTE, NO_ACTION and MANUAL_REVIEW are approved if and only if the intent allows it and the record's word, or the rail's, is one of those listed for the action and the kind of state; VERIFY never |
| EndToEnd.ApprovedUnits | agents/negotiator.py:56 | division by 100, the equality of Rule 3 and truncating multiplication by 100 lose nothing |
| EndToEnd.OwnEchoPassesRuleThree | agents/negotiator.py:56 | the provider's echo of an order's own amount passes Rule 3 exactly for the currencies with minor units |
| EndToEnd.AmountCheckAgainstRuleThree | core/reconciliation.py:69-88 | the exact condition on the provider's integer under which the amount check of reconciliation agrees with Rule 3; it holds for every integer above 100 |
| EndToEnd.SmallIntegersAreMisread | core/reconciliation.py:69-74 | 100 minor units for an intent of 1.00 satisfy Rule 3 and are reported as an amount mismatch |
| EndToEnd.AmbiguityIsAlreadyUnknown | core/resolver.py:116-201 | whenever reconciliation answers AMBIGUOUS, the negotiator's status is UNKNOWN, be the evidence a record, a read error or a synthetic rail's answer |
| Negotiator.UnknownIsUnknown | agents/negotiator.py:46-115 | the status UNKNOWN is passed to reconciliation only if the negotiator's own is UNKNOWN |
| Negotiator.RecordCountsAs | agents/negotiator.py:46-54 | an API record counts as SUCCESS, AUTHORIZED, FAILED or REFUNDED if and only if its status in capitals is CAPTURED, AUTHORIZED, FAILED or REFUNDED, and as UNKNOWN otherwise |
| Negotiator.ProvidersWords | agents/negotiator.py:46-54 | so for the provider's own lower-case words; "created" is UNKNOWN |
| Negotiator.RailCountsAs | agents/negotiator.py:87-96 | a rail's answer counts as the status it literally names, and as UNKNOWN otherwise |
| Negotiator.EvidenceOfReading | agents/negotiator.py:56-115 | the amount is the record's in hundredths unless absent or zero; currency and payment are the record's; what is not said is the intent's own |
| Negotiator.NamesAreWords | domain/enums.py:40-48 | the names of the statuses are the words of the rails |
| Executor.Execute | agents/finops_executor.py:24-235 | the provider is called if and only if the command is unexpired, not from the future, authentic, positive, addressed to the API and moves money; by the one call of its action, for its own payment and amount; an API error becomes a failure, any other error escapes |
| Executor.ReportedCapturesAreMade | agents/finops_executor.py:106-196 | a reported capture was made; what is not reported may have been made all the same, but only by a signed capture command of positive amount |
| Executor.OnlyListedActionsSucceed | agents/finops_executor.py:106-232 | only captures, refunds, voids and NO_ACTION report success; money-moving ones only when signed and positive |
| Executor.ReportedExactlyWhen | agents/finops_executor.py:34-235 | exactly when SUCCESS, REFUNDED, VOIDED or FAILED is reported and when an exception leaves the executor, in terms of the command and the outside's answer |
| Executor.SucceedsExactlyWhen | agents/finops_executor.py:34-235 | a fresh signed command that leads to an answer succeeds if and only if it is timely and the client or the rail confirms it |
| Executor.FreshCommandRuns | agents/schemas.py:81-86 | a command runs from 5 seconds before to 300 seconds after its issue, both included |
| Executor.OwnSignatureIsAuthentic | agents/schemas.py:107-117 | a command signed with the executor's key is authentic unless the code is empty |
| Reconciliation.Reconcile | core/reconciliation.py:37-185 | the status, divergence, anomalies and reconciled flag of every input, or None where a conversion raises; outright: CONSISTENT and reconciled exactly when the record agrees and its word is one of the six, or of the four that are settled |
| Reconciliation.ConsistentIsSound | core/reconciliation.py:110-147 | CONSISTENT implies equal amount, equal given currency, at most one capture, and no divergence but a lost webhook |
| Reconciliation.ConsistentExactlyWhen | core/reconciliation.py:37-147 | the status is CONSISTENT if and only if nothing speaks against the record (at most one capture, same amount, same given currency, no other order, no FAILED intent against a capture) and its word is captured, SUCCESS, authorized, PENDING, failed or FAILED |
| Reconciliation.DivergenceExactlyWhen | core/reconciliation.py:76-185 | what each of the nine divergences stands for, exactly |
| Reconciliation.AnomaliesExactlyWhen | core/reconciliation.py:56-167 | each anomaly is listed if and only if its finding holds |
| Reconciliation.ReadableExactlyWhen | core/reconciliation.py:48-76 | the engine raises if and only if the intent's currency is not supported or an amount cannot be read |
| Reconciliation.DuplicateExactlyWhen | core/reconciliation.py:90-96 | a duplicate is found if and only if two executions are captures that succeeded |
| Reconciliation.Inspect | core/reconciliation.py:76-108 | the anomalies in order, and the priority among the divergences |
| Reconciliation.Resolution | core/reconciliation.py:110-185 | the verdict from the findings and the provider's word |
| Reconciliation.VerdictsAreInformative | core/reconciliation.py:149-185 | INCONSISTENT names a divergence; AMBIGUOUS holds if and only if the status is UNKNOWN with at most one capture |
| Reconciliation.VerdictIgnoresOrder | core/reconciliation.py:90-108 | status and divergence do not change under reordering or repeating events or reordering executions |
| Reconciliation.CapturesOfPermutation | core/reconciliation.py:90-96 | the capture count is the same for every permutation of the executions |
| Outbox.AttemptsAreClaims | worker.py:78-94 | in every reachable queue, late writes or not, attempts are the claims and never exceed the limit; a dead letter has used all |
| Outbox.ClaimsUseUpAttempts | worker.py:78-94 | the remaining attempts are a termination measure: a claim lowers their sum by one, only an arrival raises it |
| Outbox.TotalClaimsBounded | worker.py:78-94 | N rows are claimed at most N times the limit |
| Outbox.AtMostOneLiveHolder | worker.py:44-163 | if no worker writes after its lease, a row has at most one live holder |
| Outbox.FinalRowsStay | worker.py:48-56 | under the same assumption PROCESSED and DEAD_LETTER rows never change |
| Outbox.FinalRowChangesExactlyWhen | worker.py:121-158 | with no assumption, exactly which writes change the status or the kind of error of a final row: a completion of a dead letter, and a failure that does not find its own dead letter |
| Outbox.FinalUnlessOverwritten | worker.py:121-158 | a final row stays as it is as long as no worker that still holds it writes |
| Outbox.StrandedOnlyByReclaim | worker.py:48-56 | under the same assumption the only PENDING rows without attempts left are those reclaimed after the last one |
| Outbox.StrandedForever | worker.py:83-91 | and these stay PENDING for ever |
| Outbox.BackoffBound | worker.py:148-158 | the n-th claim of a never-reclaimed row comes at least 2^n - 2 seconds after the first |
| Outbox.BackoffIsExact | worker.py:83-91 | a row whose n-th claim fails with attempts left and no other holder can be claimed, until it is claimed again and whatever happens in between, exactly from 2^n seconds after the failure on; an idle worker's claim takes effect exactly then |
| Domain.PowersOfTwo | worker.py:149-150 | the waits after the first five claims are 2, 4, 8, 16 and 32 seconds, each the double of the one before |
| Outbox.LastFailureIsFinal | worker.py:136-145 | with no attempt left the failure makes a dead letter instead |
| Outbox.LeaseIsAMinute | worker.py:44-57 | a claimed row is reclaimed exactly from 60 seconds after its claim on, and can be claimed at once if attempts are left |
| Outbox.ArrivalsAreClaimable | worker.py:83-91 | a new row can be claimed at once |
| Outbox.StaleWriteUndoesProcessed | worker.py:136-158 | a write after the lease can move a processed row back to PENDING with no attempts left |
| Worker.OutboxTable.ReclaimStuckTasks | worker.py:44-65 | exactly the rows whose lease has run out become PENDING; it returns their number |
| Worker.OutboxTable.ClaimOldest | worker.py:76-99 | takes the oldest claimable row, if there is one |
| Worker.OutboxTable.Settle | worker.py:121-163 | completes or fails the claimed row: PROCESSED, a dead letter after the last attempt, or else claimable again exactly from 2^attempts seconds later on |
| Worker.OutboxTable.ClaimAndProcess | worker.py:68-163 | reclaim, claim, then complete or fail: what the queue's steps do for the oldest claimable row |
| DedupCache.FallbackAgreesExactlyWhenClean | core/idempotency.py:92-131 | after any marks the fallback answers every check of a key as Redis would, if and only if the key's last hash is not "1" and, if absent, never was present |
| DedupCache.HashedMarksAreClean | core/idempotency.py:92-105 | marks that all carry a hash other than "1" satisfy that condition |
| DedupCache.ContentsAfter | core/idempotency.py:92-105 | what both representations hold after any marks |
| DedupCache.VerdictAfter | core/idempotency.py:114-124 | the verdict after any marks: NEW, duplicate or mismatch by the hash of the last mark |
| DedupCache.MemoryCache.MarkEventProcessed | core/idempotency.py:103-105 | the new contents of set and dictionary |
| DedupCache.MemoryCache.VerifyIdempotencyPayload | core/idempotency.py:126-131 | the verdict of the in-memory path |
| Webhook.Receiver.HandleDelivery | api/webhook_receiver.py:27-224 | the whole new state and the response for every delivery, the uncaught conversion errors included; each response stands for exactly what has happened to the tables |
| Webhook.Receiver.UpsertIntent | api/webhook_receiver.py:168-181 | the upsert, refused for a non-positive amount: the delivery's amount, its payment if it has one, FAILED for a failure, and everything else as it was or as in a new intent |
| Webhook.EventTypesAreNormal | api/webhook_receiver.py:71-87 | normalization keeps support and failure of an event kind and is stable; it changes only payment.refunded and the kinds not supported |
| Webhook.CacheIsTransparent | api/webhook_receiver.py:133-163 | the effect of a delivery on the tables does not depend on a cache that holds only persisted events |
| Webhook.ExactlyOnce | api/webhook_receiver.py:133-216 | for all deliveries and evictions the tables end as if each event had been delivered once, at its first acceptable delivery |
| Webhook.RepeatsChangeNothing | api/webhook_receiver.py:154-163 | removing repeats of an event id leaves the tables the same |
| Webhook.OutboxExactlyFor | api/webhook_receiver.py:168-210 | an event has exactly one outbox row, if its first acceptable delivery is of a supported kind and of positive amount, and none otherwise |
| Webhook.StateAfterDeliveries | api/webhook_receiver.py:144-181 | for deliveries whose target is fixed, the state is FAILED exactly if it was before or an event that wrote the intent was payment.failed; a target is fixed by a name, by an order reference that a row carries, or by one from which it is derived, if no row or delivery uses the reference for another intent |
| Webhook.TargetFits | api/webhook_receiver.py:103-152 | such a delivery reaches the intent it is meant for, whatever is derived from its order |
| Webhook.RowsStayFit | api/webhook_receiver.py:170-181 | no such delivery makes a row use a reference for another intent, or takes away the row that carries one |
| Webhook.OrderDoesNotMatter | api/webhook_receiver.py:144-181 | for such deliveries of distinct new events, every order gives every intent the same state |
| Webhook.NamedDeliveriesCommute | api/webhook_receiver.py:104-109 | so it does for deliveries that all name their intents |
| Webhook.DeliveriesOfAnOrderCommute | api/webhook_receiver.py:144-152 | and for deliveries without names of one order created before, which reach its intent and no other |
| Webhook.PairCommutesExactlyWhen | api/webhook_receiver.py:144-181 | beyond that: exactly when a delivery that names an intent and one matched by a new reference commute |
| Webhook.OrderMattersWithoutName | api/webhook_receiver.py:144-152 | two deliveries that do not |
| IntentRows.AmountIsTheLastWritten | api/webhook_receiver.py:168-181 | for every sequence of deliveries with fixed targets, the amount of an intent is that of the last delivery that wrote it |
| IntentRows.PaymentIsTheLastNamed | api/webhook_receiver.py:168-181 | and its active payment the last payment id that a delivery carried to it |
| IntentRows.PaymentStaysUnlessNamed | api/webhook_receiver.py:168-181 | or what it was, if none did |
| IntentRows.RowStaysUnlessWritten | api/webhook_receiver.py:168-181 | the row of an intent that none of them writes stays as it is |
| IntentRows.RowStays | api/webhook_receiver.py:168-181 | no delivery removes an intent or changes its currency, version or resolution |
| IntentRows.CurrencyIsTheFirstWritten | api/webhook_receiver.py:168-181 | the currency of an intent that they create is that of the first delivery that wrote it |
| IntentRows.AmountWithoutItsCurrency | api/webhook_receiver.py:174-181 | 150.00 USD for an intent of 100.00 INR make it one of 150.00 INR |
| IntentRows.WritersAreFiled | api/webhook_receiver.py:154-210 | every delivery that wrote an intent leaves under its event id the intent, the normalized kind and the hash, and a task exactly if its kind is supported |
| Webhook.CacheFaithfulExactlyWhen | api/webhook_receiver.py:130-216 | while nothing is evicted, the cached hash is that of the persisted event if and only if, in case the first acceptable delivery carried no amount, the next one carried the same body |
| Webhook.UnpaidEventLosesTheHash | api/webhook_receiver.py:154-181 | without any eviction, two bodies of an event without amount: the second is cached and the persisted one refused |
| Webhook.CacheStaysFaithful | api/webhook_receiver.py:130-216 | from any store whose cache holds the persisted hashes, deliveries that carry amounts keep it so |
| Webhook.RedeliveriesAreRecognized | api/webhook_receiver.py:133-138 | and every later delivery of a persisted event is answered as a duplicate or as a conflict, by its body |
| Webhook.EvictionLosesTheHash | api/webhook_receiver.py:161-163 | after an eviction another body can take over the cached hash |
| RateLimiter.Limiter.IsRateLimited | core/rate_limiter.py:52-56 | the new bucket and the verdict; along a history of calls they are those of the whole history |
| RateLimiter.Limiter.IsRateLimitedSorted | core/rate_limiter.py:40-49 | the same for the sorted set and its key's expiry |
| RateLimiter.BucketIsWindow | core/rate_limiter.py:52-55 | the pruned bucket equals the full request history filtered to the window |
| RateLimiter.LimitedExactlyWhen | core/rate_limiter.py:53-56 | a call is refused if and only if the earlier calls in its window reach the limit |
| RateLimiter.AtMostLimitPerWindow | core/rate_limiter.py:33-56 | with a clock that does not go back, every half-open window holds at most the limit of allowed calls |
| RateLimiter.SortedHoldsWindow | core/rate_limiter.py:40-48 | expired key or not, the sorted set holds the distinct times of the window |
| RateLimiter.PathsAgree | core/rate_limiter.py:40-56 | the list counts calls and the sorted set distinct times; equal verdicts for strictly increasing times, otherwise the sorted set is never the stricter |
| RateLimiter.SimultaneousCallsDiffer | core/rate_limiter.py:45 | of three or more simultaneous calls, the one over the limit is refused in memory and allowed by the sorted set |
| Ledger.GetFinancialSummary | ledger/financial_effects.py:28-58 | the loop computes the sums over the intent's rows of the log |
| Ledger.SummariesAddUp | ledger/financial_effects.py:61-79 | over distinct intents that cover the log, the summaries add up to the system totals, net effect and row count |
| Ledger.StepChangesOneSummary | core/resolver.py:224-238 | of all protocol steps only a run's evidence step changes a summary: that of its intent, by exactly the row it writes |
| Ledger.SummaryIsExact | ledger/financial_effects.py:28-58 | captured + refunded + voided of an intent of fixed amount is exactly the amount times the runs that attempted to move money, and within the amount if and only if there is at most one |
| Ledger.SummaryWithinAmount | ledger/financial_effects.py:28-58 | it stays within the amount without reopening and without a failure between the evidence of a movement of money and its update |
| ApiClient.Client.Request | razorpay/client.py:37-108 | the request ends with the first attempt that is not retried, with its outcome, after the pauses before it; the final raise is never reached |
| ApiClient.OutcomeExactlyWhen | razorpay/client.py:72-106 | exactly which body, status or other error the last attempt gives: 504 for a timeout, 503 for a network error, otherwise the provider's own status |
| ApiClient.RetryAfterIsObeyed | razorpay/client.py:76-82 | the pause is Retry-After's seconds where they are given, never negative, and backoff * 2^(k-1) otherwise |
| ApiClient.EndsExactlyOnce | razorpay/client.py:59-106 | whatever the replies, exactly one attempt, at most the configured number, is the last |
| ApiClient.TransientFaultsAreMasked | razorpay/client.py:72-106 | a good answer that only transient faults precede is what the caller gets |
| ApiClient.PausesAreGeometric | razorpay/client.py:78-96 | without Retry-After, k attempts sleep exactly backoff * (2^(k-1) - 1) |
| ApiClient.OwnErrorsAreNotInternal | razorpay/client.py:98-108 | status 500 is seen only when the provider answered with it |
| ApiClient.UnreadableRetryAfter | razorpay/client.py:76-81 | an error of another kind escapes if and only if a transient status with attempts left carries an unreadable Retry-After |
| Token.DecodeUndoesEncode | core/auth.py:34-42 | unpadded base64url decoding undoes encoding for every byte string |
| Token.BothAlphabetsAreRead | core/auth.py:38-42 | exactly which characters are read, and as which sextets: those of both alphabets |
| Token.KnownTexts | core/auth.py:34-35 | test vectors of section 10 of RFC 4648, without padding |
| Token.UrlSafeText | core/auth.py:34-35 | the two characters of the URL-safe alphabet |
| Token.PaddingIsRestored | core/auth.py:34-42 | decoding puts back exactly the padding that encoding stripped |
| Token.EncodeStrips | core/auth.py:34-35 | an encoded text has only characters of the alphabet, so no dot and no padding |
| Token.SignedHasThreeParts | core/auth.py:60-65 | a created token splits into exactly its three parts |
| Token.CreatedTokenDecodes | core/auth.py:45-87 | a created token decodes to its original payload at any time not after exp, and to nothing later; an exp of zero never expires |
| Token.RefusedExactlyWhen | core/auth.py:68-87 | a signed payload is refused if and only if it is no object or its expiry has passed or is no number; an absent, null, false, zero or empty expiry is none |
| Token.CreatedTokenSays | core/auth.py:45-59 | the header and every claim of a created token; none is created for a role that is not configured |
| Token.SignatureBindsContent | core/auth.py:68-79 | an accepted text with a created token's signature is that token, or its signed part is another text with the same keyed hash |
| Token.AcceptedIsSigned | core/auth.py:71-79 | an accepted text has three parts, the last of which decodes to the keyed hash of the first two |

## Left out

- Resolver.Resolve: models an exception at the pool, the load, the gathering, the evidence or the update, and the two inserts whose failure is ignored; exceptions and crashes at every other statement are in the protocol's steps.
- Resolver.Resolve: asks that the keyed hash of a command is never the empty string, as a hexadecimal digest never is.
- ProtocolTheorems.AtMostOneCapture: assumes a single lock backend and that a lock expires only when its run has died; CapturesWithinExpiries, KeysWithinExpiries, ApprovalsWithinExpiries and MoneyWithinExpiries drop the second assumption.
- ProtocolTheorems.ProviderCapturesAccounted: how many captures a call hides is an arbitrary input; whether the provider refuses a second capture of the same payment is not part of this model.
- ProtocolMoney.EvidencedMoneyIsExact: assumes that neither the order nor a webhook changes the intent's amount.
- Webhook.OrderDoesNotMatter: concerns the state only; amount and active payment do depend on the order, as AmountIsTheLastWritten and PaymentIsTheLastNamed of IntentRows say.
- Webhook.ExactlyOnce: a handler runs to completion; concurrent deliveries of one event are decided by the unique constraint and are not interleaved. Deliveries carry an event id; the random one given to a delivery without any never repeats.
- Outbox.AtMostOneLiveHolder: assumes that a worker whose lease has run out does not write; StaleWriteUndoesProcessed shows what happens otherwise.
- Webhook.Receiver.HandleDelivery: the lookup by order has no ordering in the source; the model takes the first row inserted.
- Outbox.FinalRowChangesExactlyWhen: of a row's columns `processed_at` and the text of the error are left out; further late writes rewrite them.
- Worker.OutboxTable.ClaimAndProcess: `resolve` is one step that answers or raises; the row lock of `FOR UPDATE SKIP LOCKED` is the atomicity of the claim.
- RateLimiter.PathsAgree: asks for times that are not negative, because the sorted set is pruned from score 0.
- RateLimiter.AtMostLimitPerWindow: the limit and the window of a key are fixed; a key that changes them is not followed.
- DedupCache.FallbackAgreesExactlyWhenClean: Redis entries do not expire by time; forgetting them is the eviction step of Webhook.
- Money.MinorUnitsRoundTrip: of Decimal's 28-digit context only the limit that `quantize` enforces is modelled; inexact products and quotients beyond 28 digits are not.
- Money.ValidationNormalizes: strip and upper are those of ASCII.
- Token.CreatedTokenDecodes: the keyed hash is an arbitrary function and JSON an assumed inverse pair on the payload; characters are not encoded in UTF-8.
- Token.SignatureBindsContent: says nothing about how hard it is to find another text with the same keyed hash.
- Reconciliation.Reconcile: provider records with values of unexpected types, and the free-text notes.
- StateMachine.TerminalWithinSeven: unknown state strings, which raise, are not values of the model's state type.
- HTTP, SQL, Redis and FastAPI plumbing: tables are maps and logs with the constraints of `schema.sql`; column widths are left out.
- Signature checks of webhooks and checkouts: a flag on the delivery; merchant access and RBAC tables are left out.
- Floats: confidence, times and pauses are reals.
- The detective's rules and the AI providers: its answer is an arbitrary input.
- Audit rows, trace identifiers, logging and the policy's reason texts.
- `core/replay.py`, `chaos_lab/`, `core/ai_test_lab/`, `scripts/`, `ui/`, `frontend/` and the dashboard routes, including the dashboard's own insert into the outbox.
- `core/reconciliation_poller.py` and `api/payment_routes.py`: they are further callers of `resolve`, which the protocol admits in any number.
- Checkout verification and failure reports also enqueue outbox rows: in the outbox model every arrival is the same step.
