# Verified model of the payment saga

This project models how money moves between Bank A, the Hub and Bank B, and proves what that movement keeps.

- **Bank A** (`src/`) debits a payer into a suspense account, sends a request through a transactional outbox, and confirms or compensates on the outcome. A reconciliation sweep stands in when messages are lost.
- **The Hub** (`hub/`) moves reserves between banks, notifies the payee bank, and confirms, reverses or rejects.
- **The transport** loses, duplicates and reorders messages. A relay on each side publishes outbox rows at least once.
- **Bank B** (`bank-b/`) credits a payee once per transfer id. Its code still speaks the older bilateral protocol, so it is modelled on its own; the payee bank of the Hub is an arbitrary environment that may send any reply at any time.

## Files

| file | content |
|---|---|
| `Prelude.dfy`, `Totals.dfy`, `Ledger.dfy`, `Outbox.dfy`, `Deliveries.dfy` | identifiers and limits, order-free sums over maps, the append-only ledger, the outbox table, deduplication |
| `HubModel.dfy`, `HubRuns.dfy`, `HubService.dfy` | the Hub's transactions and invariant, the Hub as a concurrent machine, its service as a class |
| `BankAModel.dfy`, `BankARuns.dfy`, `BankAService.dfy` | the same three views of Bank A, with the sweep |
| `TransferConcurrency.dfy`, `CallsAlone.dfy` | Bank A's transactions statement by statement: locks, unique key, check, entries, commit; what a call answers when it runs alone, and when it is repeated |
| `Relay.dfy` | concurrent relay ticks that may fail anywhere |
| `Saga.dfy`, `SagaTheorems.dfy`, `Reconciliation.dfy` | Bank A, the Hub and the transport together; the sweep of the service as saga steps |
| `Deployment.dfy`, `Settling.dfy` | statements, ticks, handlers and transport in one machine, whose every run is a saga run; payments in it can settle with either answer |
| `BankB.dfy` | the inbound consumer |

`dafny verify dfyconfig.toml` checks everything.

## How the model is built

The tables of a service are a value (`HubDb`, `BankDb`). A transaction is a function on that value. A service is a class whose fields are the tables and whose methods take the steps of the source, rollback included; each method's postcondition equates the new tables with the transaction function and says when the call throws. A concurrent machine has those transactions as its steps. A run is any legal sequence of actions from the empty tables.

The machines are stacked by simulation: service calls are runs of their machine (`ServiceRunIsSerial`, `ExecuteIsAStep`, `HandleIsTwoSteps`, `TickIsARun`, `HandleIsARun`), Bank A's interleaved statements are a run of its transactions (`RunRefinesBank`), and statements, both relays, the Hub and the transport together are a run of the saga (`EveryRunIsASagaRun`). The sweep's `ReconcileOne` with the Hub's true view is a saga run (`ReconcilingIsASagaRun`).

The other direction says that the runs the theorems speak about exist. A call run alone, statement by statement, ends with exactly the service's answer and tables (`ClientCallAnswers`, `AffordableCallBooks`, `UnaffordableCallFails`). Calls, handlers, ticks and the transport overlap and fail freely (`CallsOverlapFreely`, `HandlersOverlapFreely`, `RelaysAndTransportActFreely`, `TransportIsFree`). From every idle state of the deployment a valid payment can reach either answer (`PaymentCanSettle`), from the empty one too (`FirstPaymentCanSettle`).

Where a contract names a function of the model, the same contract or a lemma beside it states the result again in literal values: rows, entries, events, statuses and errors.

A status read outside a transaction is its own step, separate from the commit, in both `handle` and `handleReply`. The status change of a confirmation is one guarded statement, so `TransferConcurrency` takes it as one step.

## Assumptions, and where they appear

`AssumptionsMean`, in each machine, and `Saga.CarefulMeans` spell the assumptions out over the run itself. Each invariant is split by what it needs: `RowsOk` (Bank A's rows) and `TermsInv` (the terms the parties exchanged) hold in every run, whatever accounts and keys callers name; `RefundsOk` (compensated transfers are refunded, confirmed ones are not) holds exactly in the runs whose steps are all `Sound`; `BankOk` exactly in those that leave suspense alone as well.

- **Replies of one settlement do not contradict each other when they commit** (`HubRuns.Consistent`, in `Saga.Careful`). Overlapping copies of one reply meet this. Without it the two databases can disagree: `CommittingReplyIsSoundIff` says exactly when, `OverlappingAnswersDisagree` shows it from every state with a PENDING settlement, and `OutcomesAreTrueIff` says that the Hub's outcome rows are true if and only if it holds.
- **One `handleReply` at a time per settlement** (`HubRuns.Serial`), for event counts and per-settlement entries only; reserves need no more than that no reversal commits late (`ReversalsOnPending`). The code ensures neither: the reversal entries and the outcome row are written whether or not the guarded status change took effect. `RunKeepsHubOkIff` gives the exact condition, `OverlappingRepliesReverseAConfirmedSettlement` the failure. Zero-sum entries and final statuses need no assumption (`AnyRunIsZeroSumAndFinal`).
- **A 404 is acted on only when it stays one** (`Saga.StaysAbsent`, in `Saga.Careful`): every outbox row of the transfer is published and no copy of its request is left in the transport or replayed from a dead-letter queue, or the request is one the Hub can never accept. `STALE_AFTER_MS` is sized for this; the code does not check it, and the step itself is enabled on any 404. `ActingOnNoRecordIsSoundIff` proves that acting on a 404 is sound exactly then, with `EarlyReconciliationDisagrees` as the failure: Bank A compensates what the Hub confirms.
- **Outcomes of one id agree** (`BankARuns.Agreeing`). Assumed only for Bank A on its own; in the saga it is proved from the Hub.
- **Key space** (`SparesKeys`): no client sends a text that spells a compensation key. The column is one text column and only its length is checked, so clients may send any key in every machine here (`Key` tells texts apart by what they spell). A client who learns a transfer's id can take its compensation key: the compensation then marks the transfer and refunds nobody (`TakenKeyLosesRefund`). `RunKeepsRefundsIff` is exact without the assumption: every step must be `Sound`, that is, no compensation of a DEBITED transfer finds its key held by a row that is not its refund, none of a CONFIRMED one finds it free, no confirmation finds the transfer already refunded, and no caller books the reversal of a confirmed one. The hypothesis appears only where exactly-once refunds are concluded from agreeing outcomes or a careful saga run. Overdraft, idempotency of client calls, deadlock freedom, the agreement of the databases and the accounting of suspense do not use it.
- **Suspense account** (`LeavesSuspenseAlone`, `SparesSuspense`, `SuspenseLeftAlone`): no local transfer or dev seed names it. The code does not forbid it; a dev seed of one cent breaks the identity (`SeedingSuspenseBreaksIdentity`). Without the assumption suspense is accounted for with two more terms, what was compensated and never refunded and the net of everybody else (`SuspenseIdentity`, `TwoLedgersConserveMoney`); `RunKeepsBankInvIff` puts it inside the condition. That iff alone needs that nobody forges a reversal (`Forges`): one that is later compensated cannot be told from the refund it replaces (`ForgedRefundIsAbsorbed`).
- **Generated ids are fresh**: a new transfer id is unknown to Bank A, the Hub and the transport, and other banks do not reuse Bank A's ids.
- **The database**: atomic commit and rollback, read-committed reads, exclusive row locks, unique keys that make a conflicting insert wait, skip-locked claims.

The repository's README describes the earlier bilateral design; the model follows the code, which routes through the Hub.

## Model

| member | source | states |
|---|---|---|
| SagaTheorems.DatabasesAgree | src/interbank-transfers/interbank-reply.service.ts:28-85 | In every state a careful run reaches, CONFIRMED at Bank A means CONFIRMED at the Hub, and COMPENSATED means REVERSED, REJECTED, or no record in any continuation at all |
| SagaTheorems.TwoLedgersConserveMoney | src/interbank-transfers/interbank-transfers.service.ts:71-93 | In every careful run, whoever names suspense and whatever keys clients send, suspense minus the Hub's PENDING and CONFIRMED settlements for Bank A is exactly the debited transfers the Hub does not hold, plus what is stranded, plus what others moved; with the conditions under which each term is zero |
| SagaTheorems.SuspenseAndReserveConserveMoney | hub/src/ledger/ledger.repository.ts:11-26 | Ledger against ledger: folded suspense plus Bank A's folded reserve is incoming plus in transit plus stranded plus others, if no reversal commits late |
| SagaTheorems.BankBooksAreExact | src/interbank-transfers/interbank-reply.service.ts:53-85 | In a careful run refunds and statuses stay together if and only if every step of Bank A is sound; if clients spare the compensation keys each transfer is refunded once exactly when COMPENSATED; no checked account is ever overdrawn |
| SagaTheorems.NoRecordIsFinalIff | src/interbank-transfers/reconciliation.service.ts:44-57 | A 404 stays true under every continuation if and only if all copies of the request are gone or the Hub can never accept it |
| SagaTheorems.ActingOnNoRecordIsSoundIff | src/interbank-transfers/reconciliation.service.ts:48-57 | Compensating on a 404 is never contradicted by the Hub if and only if the record stays absent |
| SagaTheorems.EarlyReconciliationDisagrees | src/interbank-transfers/reconciliation.service.ts:48-57 | Otherwise, from any such state, Bank A ends COMPENSATED and the Hub CONFIRMED |
| SagaTheorems.CommittingReplyIsSoundIff | hub/src/settlements/settlements.service.ts:119-152 | Committing a reply any handler holds never leads to contradiction if and only if its settlement is PENDING or was settled with the same answer, or Bank A has settled the transfer already |
| SagaTheorems.OverlappingAnswersDisagree | hub/src/settlements/settlements.service.ts:118-152 | From any state with a PENDING settlement, two overlapping handlers with different answers lead Bank A and the Hub to contradict each other |
| Saga.CarefulMeans | src/interbank-transfers/reconciliation.service.ts:44-57 | All that care rules out: a 404 acted on while a request the Hub could accept is in the outbox or in transit, and a reply committed against the other answer |
| Saga.TransportIsFree | src/interbank-transfers/reconciliation.service.ts:44-81 | Any message may be duplicated or dropped, other banks may request anything of their own, and the sweep may act on whatever the Hub answers |
| Settling.PaymentCanSettle | src/interbank-transfers/interbank-transfers.service.ts:46-113 | From every idle state a valid payment can be booked statement by statement, relayed, accepted, answered and applied: CONFIRMED at both, or REVERSED there and COMPENSATED here, and the state is idle again |
| Settling.FirstPaymentCanSettle | src/interbank-transfers/interbank-reply.service.ts:28-85 | From the empty deployment a careful run funds an account and settles a payment of any valid amount with either answer |
| Settling.RelaysAndTransportActFreely | src/outbox/outbox-relay.service.ts:27-47 | Ticks on both sides may overlap and fail anywhere, and the transport does in the deployment what it does in the saga |
| Reconciliation.ReconcilingIsASagaRun | src/interbank-transfers/reconciliation.service.ts:44-81 | Reconciling with the Hub's true view is the saga's reconciliation step, a read, a commit and an acknowledgement, ends in the service's tables, and gives CONFIRMED for a confirmed settlement and COMPENSATED for a reversed, rejected or missing one |
| Deployment.EveryRunIsASagaRun | src/outbox/outbox-relay.service.ts:27-47 | Bank A's statements, concurrent failing ticks on both sides, Hub handlers and transport, in any interleaving, are a saga run with the same databases and messages |
| Deployment.DatabasesAgreeAlways | src/interbank-transfers/interbank-transfers.service.ts:60-105 | The agreement of the two databases holds, in careful runs, in the middle of any transaction, tick or handler |
| Deployment.RefundsHappenOnceAlways | src/interbank-transfers/interbank-reply.service.ts:53-85 | In careful runs nobody is overdrawn and, when clients spare the compensation keys, refunds happen exactly once, in the middle of any transaction, tick or handler |
| Deployment.LedgersConserveMoneyAlways | src/interbank-transfers/interbank-transfers.service.ts:60-105 | So does conservation between suspense and the Hub, with its stranded and other terms and when they vanish |
| Deployment.HubRelayIsSagaRun | hub/src/outbox/outbox-relay.service.ts:20-40 | A tick of the Hub's relay is a run of saga steps: Bank A's outcomes reach its queue, claimed rows are marked |
| Saga.RunKeepsInv | hub/src/settlements/settlements.service.ts:46-159 | Every careful step of either party or the transport keeps the joint invariant: settlements, outcomes in flight, handlers and statuses tell the truth about each other |
| Saga.AnyRunKeepsTerms | hub/src/settlements/settlements.service.ts:46-115 | With no assumption on accounts, keys or outcomes, both parties' books stay in order and every request and settlement carries the terms Bank A recorded |
| Saga.StepKeepsGone | src/interbank-transfers/reconciliation.service.ts:11-15 | Once every copy of a request is gone, no step can bring the settlement into existence |
| Saga.OutcomeEventIsTrue | hub/src/settlements/settlements.service.ts:146-151 | Every outcome row the Hub's relay can send to Bank A names the settlement's terminal status |
| HubModel.RequestedKeepsHubOk | hub/src/settlements/settlements.service.ts:46-115 | Handling any request, valid or not, first or repeated, keeps settlements, reserve entries, reserves and events in agreement; a new row carries the request's terms |
| HubModel.ReplyOnPendingKeepsHubOk | hub/src/settlements/settlements.service.ts:126-152 | A reply committed on a PENDING row settles it as answered, stores the reply's own reject reason or the default one, and keeps that agreement |
| HubModel.ReplyKeepsHubOkIff | hub/src/settlements/settlements.service.ts:119-144 | A stale reply handler is harmless exactly when the row is still PENDING at commit; reserves alone also survive a late CONFIRMED |
| HubRuns.ReservesAreNet | hub/src/ledger/ledger.repository.ts:11-26 | In every run that is serial or reverses only PENDING rows, each bank's folded reserve is incoming minus outgoing PENDING and CONFIRMED settlements |
| HubRuns.EventsMatchStatuses | hub/src/settlements/settlements.service.ts:93-152 | One notification exactly for an accepted settlement, with its terms; one outcome exactly for a terminal one, naming its status and the reject reason it stored, whatever was delivered how often |
| HubRuns.SerialRunKeepsHubInv | hub/src/settlements/settlement.repository.ts:38-100 | The whole Hub invariant holds after every serial run, per-settlement entries included |
| HubRuns.AnyRunIsZeroSumAndFinal | hub/src/domain/settlement.ts:43-57 | Even with interleaved handlers, entries per settlement sum to zero, ledger and outbox only grow, terms never change, and a terminal row is final |
| HubRuns.RunKeepsHubOkIff | hub/src/settlements/settlements.service.ts:117-159 | A run keeps the Hub exact if and only if every reply commits on a PENDING row |
| HubRuns.OutcomesAreTrueIff | hub/src/settlements/settlements.service.ts:146-151 | Every outcome row the Hub ever writes names the final status if and only if no reply commits against the other answer |
| HubRuns.HandlersOverlapFreely | hub/src/settlements/settlements.service.ts:118-128 | Any reply to a PENDING settlement may be read whoever handles it already, and any handler may commit or be cut off at any time |
| HubRuns.OverlappingRepliesReverseAConfirmedSettlement | hub/src/settlements/settlements.service.ts:130-144 | From any state with a PENDING settlement, two overlapping handlers confirm it and still take the payee bank's reserve back |
| HubRuns.OnlyFirstValidRequestsMatter | hub/src/settlements/settlement.repository.ts:38-71 | Any delivery sequence leaves the same tables as its first valid request per id |
| HubRuns.OrderOfRequestsDoesNotMatter | hub/src/settlements/settlements.service.ts:75-107 | Permuting valid requests with distinct ids changes no settlement and no reserve |
| HubRuns.DeliveryIsInsensitive | hub/src/settlements/settlements.service.ts:46-115 | Delivery sequences with the same first valid requests, in whatever order, give the same settlements and reserves |
| HubService.SettlementsService.HandleRequested | hub/src/settlements/settlements.service.ts:46-115 | Which requests throw, over banks, amount bounds and text lengths, and with which error; a new one leaves one row, its two reserve entries or none, and one event, given literally; a failed or repeated one changes nothing; the invariant is kept |
| HubService.SettlementsService.HandleReply | hub/src/settlements/settlements.service.ts:118-159 | A reply is applied exactly when the settlement exists, is PENDING and can be reversed if it must: status, stored reason, entries and event are given literally; every other case throws or changes nothing, and the invariant is kept |
| HubService.SettlementsService.CommitReply | hub/src/settlements/settlements.service.ts:126-152 | The transaction with a row read earlier: entries and event are written whatever the status has become, the reason is the reply's or the default, and a row the domain refuses rolls back |
| HubModel.AcceptableMeans | hub/src/settlements/settlements.service.ts:46-90 | The requests that do not throw: two different banks, a positive amount within the bound, texts the columns take, a registered payer or an existing settlement |
| HubService.SettlementsService.InsertSettlement | hub/src/settlements/settlement.repository.ts:43-71 | Inserts only a new id that satisfies the constraints; a taken id is not an error |
| HubService.SettlementsService.MarkConfirmed | hub/src/settlements/settlement.repository.ts:82-88 | Changes the row only from PENDING |
| HubService.SettlementsService.MarkReversed | hub/src/settlements/settlement.repository.ts:90-100 | Changes the row only from PENDING, with its reason |
| HubService.SettlementsService.AppendEntries | hub/src/ledger/ledger.repository.ts:19-26 | The loop appends all entries in order and rewrites none |
| HubService.HandleReplyIsTwoSteps | hub/src/settlements/settlements.service.ts:118-126 | An uninterrupted reply is the machine's read followed by its commit |
| HubService.ServiceRunIsSerial | hub/src/settlements/settlements.service.ts:46-159 | Any messages handled one at a time, failures and redeliveries included, are a serial run of the machine, so the whole invariant holds afterwards |
| BankAModel.BookedKeepsBankOk | src/transfers/transfers.service.ts:43-49 | A booked local transfer or seed that leaves suspense alone, under any free key, keeps ledger, keys, refunds, saga rows, outbox and suspense in agreement |
| BankAModel.DebitedKeepsBankOk | src/interbank-transfers/interbank-transfers.service.ts:71-96 | The interbank debit adds its transfer, two entries, saga row and outbox row together and its amount to suspense |
| BankAModel.CompensatedKeepsBankOkIff | src/interbank-transfers/interbank-reply.service.ts:66-80 | A stale compensation keeps the whole invariant exactly when it is sound: not CONFIRMED with the key free, not DEBITED with the key taken by another row |
| BankAModel.CompensatedKeepsRowsOk | src/interbank-transfers/interbank-reply.service.ts:53-80 | A compensation keeps transfers, keys, entries and events in order whatever became of the transfer |
| BankAModel.CompensatedKeepsRefundsOkIff | src/interbank-transfers/interbank-reply.service.ts:66-80 | The same condition is exact for refunds and statuses alone, whoever uses suspense |
| BankAModel.BookedKeepsRefundsOkIff | src/transfers/transfer.repository.ts:27-46 | A caller's transfer keeps refunds and statuses together exactly when it is not itself the reversal of a confirmed transfer |
| BankAModel.ConfirmedKeepsRefundsOkIff | src/interbank-transfers/interbank-transfer.repository.ts:58-64 | A confirmation does exactly when nobody has refunded the transfer already |
| BankAModel.TakenKeyStrandsRefund | src/interbank-transfers/interbank-reply.service.ts:66-80 | With the compensation key held by a client's transfer, the compensation marks COMPENSATED, appends nothing and leaves no refund |
| BankAModel.SuspenseAccounting | src/ledger/ledger.repository.ts:17-32 | In every state the folded suspense balance is what is not compensated, plus what was compensated and never refunded, plus the net of all other transfers through it |
| BankAModel.CompensatedExactlyOnce | src/interbank-transfers/interbank-reply.service.ts:59-77 | COMPENSATED exactly when one reversal row exists, found by its key; debit and refund leave payer and suspense where they were |
| BankAModel.KeysAreUnique | src/transfers/transfer.repository.ts:26-46 | A key names at most one committed transfer |
| BankAModel.BookedKeepsNoOverdraft | src/domain/transfer.ts:36-40 | A covered booking leaves no checked account negative |
| BankARuns.AgreeingRunCompensatesExactlyOnce | src/interbank-transfers/interbank-reply.service.ts:28-85 | Any number of stale concurrent handlers with agreeing outcomes and spared keys make a sound run and compensate each transfer exactly once, whoever else uses suspense |
| BankARuns.SoundRunCompensatesExactlyOnce | src/interbank-transfers/interbank-reply.service.ts:53-85 | So does any sound run in which nobody forges a reversal |
| BankARuns.TakenKeyLosesRefund | src/interbank-transfers/interbank-reply.service.ts:66-80 | From any state with a DEBITED transfer, a client transfer under its compensation key, then one REVERSED outcome, end in COMPENSATED with no refund |
| BankARuns.SuspenseIdentity | src/ledger/ledger.repository.ts:17-32 | In every run suspense is parked plus stranded plus others; a sound run strands nothing, and with suspense left alone it is the sum of interbank transfers not COMPENSATED, never negative |
| BankARuns.StepKeepsSuspenseOkIff | src/accounts/accounts.service.ts:44-68 | A sound step keeps suspense exact if and only if it does not name it |
| BankARuns.SeedingSuspenseBreaksIdentity | src/accounts/accounts.service.ts:49-60 | From any exact state a dev seed of one cent to suspense is accepted and leaves the balance one cent off |
| BankARuns.ForgedRefundIsAbsorbed | src/interbank-transfers/interbank-reply.service.ts:66-80 | A forged reversal followed by the compensation it displaces leaves the tables of the compensation alone |
| BankARuns.RunKeepsBankInvIff | src/interbank-transfers/interbank-reply.service.ts:35-48 | Rows, refunds and suspense stay in agreement if and only if every step is sound and leaves suspense alone, unless somebody forges a reversal |
| BankARuns.RunKeepsRefundsIff | src/interbank-transfers/interbank-reply.service.ts:35-80 | In every legal run, whatever accounts and keys callers name, compensated transfers are refunded and confirmed ones are not if and only if every step is sound |
| BankARuns.AnyRunKeepsBooks | src/interbank-transfers/interbank-transfer.repository.ts:53-72 | Whatever callers name and whatever outcomes arrive, rows, keys, entries and events stay complete, nothing is rewritten, a terminal status is final, and no checked account is overdrawn |
| BankARuns.NoOverdraftInAnyRun | src/domain/transfer.ts:36-40 | No run of whole transactions overdraws an account other than suspense and the treasury |
| BankAService.Bank.ExecuteLocal | src/transfers/transfers.service.ts:31-66 | The result is the check-by-check answer; tables change only by the booked transfer, its key and its two entries, given literally |
| BankAService.Bank.BookLocal | src/transfers/transfers.service.ts:37-65 | The transaction, including the lost race on the key, rolls back completely unless it books |
| BankAService.Bank.LockAccounts | src/transfers/transfers.service.ts:75-81 | Stops at the first missing account of the sorted order |
| BankAService.Bank.ExecuteInterbank | src/interbank-transfers/interbank-transfers.service.ts:46-113 | The result is the check-by-check answer; tables change only by the transfer, its key, two entries, saga row and request, given literally |
| BankAService.Bank.BookInterbank | src/interbank-transfers/interbank-transfers.service.ts:60-112 | Transfer, entries, saga row and outbox row are all written or none |
| BankAService.Bank.InsertTransfer | src/transfers/transfer.repository.ts:27-46 | Inserts only under a free key, after the CHECK constraints and before the foreign keys; a taken key is reported, not an error |
| BankAService.Bank.MarkInterbank | src/interbank-transfers/interbank-transfer.repository.ts:58-72 | Changes the status only from DEBITED |
| BankAService.Bank.AppendEntries | src/ledger/ledger.repository.ts:25-32 | The loop appends all entries in order and rewrites none |
| BankAService.Bank.DevSeed | src/accounts/accounts.service.ts:44-68 | Commits the seed or nothing, and says which error each failure gives; a new balance that is not a safe integer fails after the commit |
| BankAService.Bank.Handle | src/interbank-transfers/interbank-reply.service.ts:28-49 | Every way it can throw, and what it then leaves; otherwise settles or refunds a DEBITED transfer and nothing else; keeps the whole invariant if and only if it does not compensate under a taken key |
| BankAService.Bank.Compensate | src/interbank-transfers/interbank-reply.service.ts:53-85 | The refund is booked unless its key is taken, and the guarded status update runs either way; a missing original, an invalid reversal or a rejected row changes nothing |
| BankAService.Bank.ReconcileOne | src/interbank-transfers/reconciliation.service.ts:44-81 | A missing or error response and PENDING change nothing; a confirmed settlement marks CONFIRMED, a 404, a reversed or a rejected one refunds and marks COMPENSATED, given literally by view |
| BankAService.Bank.Sweep | src/interbank-transfers/reconciliation.service.ts:34-41 | The loop applies each answer in turn and counts the resolved ones; only a missing response ends it early, and then what was reconciled stays |
| BankAService.SweepIsExact | src/interbank-transfers/reconciliation.service.ts:33-81 | After a full sweep each stale transfer has the status its Hub view calls for: CONFIRMED for confirmed, COMPENSATED for reversed, rejected and 404, DEBITED for PENDING and unavailable; no other row changed, the count is of the settled ones, and repeating it changes nothing |
| BankAService.SweptRowIs | src/interbank-transfers/reconciliation.service.ts:44-81 | The same for one row of any sweep, over the view literally |
| BankAService.InterruptedSweepIsResumed | src/interbank-transfers/reconciliation.service.ts:34-46 | A sweep cut short by a failed request followed by a full one leaves every saga row as the full one alone would |
| BankAService.StaleDebited | src/interbank-transfers/interbank-transfer.repository.ts:74-83 | Exactly the aged DEBITED transfers, each once |
| BankAService.HandledKeepsRowsOk | src/interbank-transfers/interbank-reply.service.ts:28-57 | `handle` throws on no known transfer and keeps the rows; refunds and suspense stay exact if and only if it confirms or the compensation key is free |
| BankAService.SeedIsAStep | src/accounts/accounts.service.ts:51-61 | A seed is booked exactly for a positive amount, an existing account other than the treasury and a key nobody took, and is one step of the machine |
| BankAService.AnswerMeans | src/transfers/transfers.service.ts:31-92 | Each answer if and only if its cause: booked, replayed, conflicting, and every error; "vanished" does not occur |
| BankAService.ReplayedIff | src/interbank-transfers/interbank-transfers.service.ts:123-145 | With a taken key the answer is its holder if and only if payer, payee, amount and, between banks, bank and reference are equal, whatever the status; otherwise a conflict |
| BankAService.RepeatedExecuteReplays | src/interbank-transfers/interbank-transfers.service.ts:123-145 | Repeating a call answers with the first transfer; the same key with anything different conflicts |
| BankAService.ExecuteIsAStep | src/transfers/transfers.service.ts:37-59 | A booking by the service is one step of the concurrent machine |
| BankAService.HandleIsTwoSteps | src/interbank-transfers/interbank-reply.service.ts:28-49 | An uninterrupted `handle` is the machine's read followed by its commit |
| TransferConcurrency.StepRefinesBank | src/transfers/transfers.service.ts:37-58 | A statement is a run of whole transactions: a commit is enabled as one at that instant, because locks still guarantee key, accounts and cover |
| TransferConcurrency.RunRefinesBank | src/transfers/transfers.service.ts:37-58 | Every interleaving of statements and rollbacks is one run of whole transactions with the same tables and one open handler per unfinished refund |
| TransferConcurrency.MergeIsTransaction | src/interbank-transfers/interbank-transfers.service.ts:60-96 | The rows written one statement at a time are exactly those of the one-step transaction |
| TransferConcurrency.NoOverdraftUnderConcurrency | src/transfers/transfers.service.ts:40-49 | Over any interleaving of local, interbank, refund, confirmation and seed statements, whatever accounts they name, no account but suspense and treasury goes negative |
| TransferConcurrency.InterbankRowsCommitTogether | src/interbank-transfers/interbank-transfers.service.ts:71-96 | Saga row, transfer to suspense, two entries and one matching outbox row all exist or none does; no other transfer pays into suspense if callers leave it alone |
| TransferConcurrency.InterleavedRefundsHappenOnce | src/interbank-transfers/interbank-reply.service.ts:28-85 | Statement by statement, refunds with agreeing outcomes and spared keys happen once, and with suspense left alone its balance is what is not compensated |
| TransferConcurrency.InterleavedRefundsIff | src/interbank-transfers/interbank-reply.service.ts:53-85 | In any interleaving, refunds and statuses stay together if and only if the run of whole transactions it amounts to is sound, and suspense is accounted for |
| TransferConcurrency.IdempotentExecution | src/transfers/transfers.service.ts:31-92 | A successful call's answer is the one transfer of its key, for a client call with its own parameters, whatever the key spells; a failed call left nothing; "vanished" is unreachable |
| CallsAlone.RepeatedCallReplays | src/transfers/transfers.service.ts:84-92 | After a success, in any later state, a lookup of the key answers with the same transfer if the parameters are equal, even once it is settled, and with a conflict otherwise |
| CallsAlone.ClientCallAnswers | src/interbank-transfers/interbank-transfers.service.ts:46-113 | A client call run alone, statement by statement, ends with exactly the service's answer and tables |
| CallsAlone.AffordableCallBooks | src/transfers/transfers.service.ts:37-58 | A valid, unused, affordable call run alone ends in success with its transfer, key, two entries and, between banks, saga row and request |
| CallsAlone.UnaffordableCallFails | src/transfers/transfers.service.ts:43-49 | With a balance below the amount it ends in insufficient funds and nothing is written |
| CallsAlone.RefundAlone | src/interbank-transfers/interbank-reply.service.ts:53-85 | A refund run alone statement by statement ends in the tables of the compensation |
| CallsAlone.SeedAlone | src/accounts/accounts.service.ts:51-61 | A dev seed run alone is booked under a free key |
| TransferConcurrency.CallsOverlapFreely | src/transfers/transfers.service.ts:31-37 | A client may start a valid call, and a handler a refund, at any moment of any other call, and any unfinished call may fail where it is |
| TransferConcurrency.WaitsOnlyForHolders | src/transfers/transfers.service.ts:74-81 | A call waits only for an account another has locked or a key another has inserted and not committed |
| TransferConcurrency.FailureLeavesNoTrace | src/transfers/transfers.service.ts:50-58 | In any run a failed call has left no row, entry, event or key behind and holds no lock |
| TransferConcurrency.HolderIsAhead | src/transfers/transfers.service.ts:74-81 | Whoever holds an awaited account waits, if at all, for a larger one |
| TransferConcurrency.SomeCallCanMove | src/transfers/transfers.service.ts:74-81 | While any call is unfinished some call can execute its next statement |
| TransferConcurrency.EveryCallCanFinish | src/interbank-transfers/interbank-transfers.service.ts:65-71 | From every reachable state all calls can run to their end without breaking a wait by rollback |
| Relay.AtLeastOnceWithBound | src/outbox/outbox-relay.service.ts:27-47 | Open ticks hold disjoint unpublished rows, a published row was sent, and a row is sent at most once plus once per rolled-back tick that claimed it |
| Relay.NextRowIsUnsent | src/outbox/outbox.repository.ts:24-35 | What a tick sends next is visible, unpublished and sent by no open tick, even when ids appear out of order |
| Relay.DrainBound | src/outbox/outbox-relay.service.ts:9-47 | With n rows visible and unpublished, k ticks leave max(0, n - 100k), send in increasing id order, and are productive exactly ceil(n / 100) times |
| Relay.OutboxRelay.Tick | hub/src/outbox/outbox-relay.service.ts:23-43 | The loop publishes and marks the claimed batch in order; a failure at any iteration keeps the sends and undoes every mark |
| Relay.TickIsARun | src/outbox/outbox-relay.service.ts:27-47 | A tick, failing or not, beside any other open ticks, is a claim, that many publishes, and a commit or rollback of the table machine |
| Relay.InsertedRowIsSent | src/outbox/outbox.repository.ts:15-35 | A row inserted while nothing else waits is exactly what the next tick sends and marks |
| BankB.ExactlyOnceCrediting | bank-b/app/transfers/service.py:49-127 | Over any interleaving the tables are those of the first valid event per id; an answer is `Accepted` exactly for a CREDITED row, whose suspense debit and payee credit are in the ledger, and otherwise `Rejected` with `ACCOUNT_NOT_FOUND`; suspense is minus what was credited to other accounts, however a reference spells them |
| BankB.WinnerIsFound | bank-b/app/transfers/service.py:105-111 | The loser of a race always finds the winner's row |
| BankB.LoserAnswersWithWinner | bank-b/app/transfers/service.py:64-111 | A delivery that loses the race changes nothing and answers with the verdict recorded by the winner |
| BankB.ReceivedMeans | bank-b/app/transfers/service.py:55-100 | A new valid event is CREDITED, with both entries and its amount added to the payee, exactly when its reference names an account; otherwise REJECTED with nothing in the ledger; any other event changes nothing |
| BankB.RowMeans | bank-b/app/transfers/service.py:64-127 | In every reachable state the row of an id decides its entries and its answer |
| BankB.OnlyFirstValidEventsMatter | bank-b/app/transfers/repository.py:31-55 | Redeliveries and invalid events change nothing |
| BankB.ReceivedKeepsBankOk | bank-b/app/transfers/service.py:64-100 | A delivery keeps rows, entries and suspense in agreement |
| BankB.InboundTransfersService.Handle | bank-b/app/transfers/service.py:49-111 | Fails exactly on a new id with an amount or reference the table refuses; a new event writes one row with its payee and amount, CREDITED with both entries exactly when the reference names an account; answers `Accepted` exactly for CREDITED and `Rejected` with `ACCOUNT_NOT_FOUND` otherwise |
| BankB.HandleIsARun | bank-b/app/transfers/service.py:49-111 | A delivery handled without interruption is a run of the machine with the same tables and answer |
| BankB.InboundTransfersService.Decide | bank-b/app/transfers/service.py:55-111 | The transaction and the second lookup after a lost race, with row, entries and answer given literally |
| BankB.InboundTransfersService.TryInsert | bank-b/app/transfers/repository.py:31-55 | Inserts only a new id with an amount the table takes; a taken id is reported, not an error |
| Ledger.AppendMovement | src/domain/transfer.ts:28-34 | A double entry extends its own group and moves exactly its two owners |

## Left out

- Eventual settlement: nothing calls `findStalePending`, so a PENDING settlement whose reply is lost stays PENDING.
- An end-to-end statement joining Bank B to the Hub: the code has no such connection.
- Controllers, validators, health checks, the frontend, bank registration and account creation beyond set growth, statement paging.
- Message encoding, topic matching and connection handling; a failed message is dropped to a dead-letter queue and not replayed.
- Row ids drawn by an insert before it commits: `Relay` has them appear out of order or never; elsewhere a row's id is its commit position.
- Clocks: which transfers are older than the cutoff is a parameter, and their order decides nothing that is proved.
- Shared locks taken by foreign-key checks, ambiguous commits, and the row lock of the saga-row UPDATE, which the compensation key already serialises.
- UUID syntax: what a payee reference at Bank B comes to (no UUID, refused by the database, or the account it names) is part of the event.
- `Money` arithmetic beyond the safe-integer bound checked where balances and amounts are read.
- BankAService.Bank.Sweep: promises `BankOk` only when the aged transfers' compensation keys are free, because a client can take them; runs without interference from other handlers; the interleaved form of each of its steps is in `Saga` and `Deployment` (`ReconcileSettled`, `ReconcileAbsent`).
- BankAService.Bank.Handle: runs its status read and its commit without interference; the interleaved forms are `BankARuns` and `TransferConcurrency`.
