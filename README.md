# debio-background-worker: chain-event handlers

A Dafny model of four command handlers of the DeBio background worker. Each
takes one decoded chain event and applies effects to a small set of stores:

- the transaction ledger, append-only, looked up by `(ref_number, transaction_status)`;
- the notification store;
- the mailer's outbox;
- the `labs` search index, keyed by document id;
- the `services` search index, whose documents carry an `owner_id`.

The handlers are:

| event | effects |
|---|---|
| ServiceRequestCreated | a staking entry `(hash, 7)` and an email to the operators, on the first delivery only; a customer notification on every delivery that gets past the ledger and email steps |
| GeneticAnalysisOrderPaid | a payment entry `(order id, 14)` on the first delivery; an analyst notification on every delivery that gets past the ledger step |
| DnaSampleResultReady | a customer notification only |
| LabDeregistered | delete the lab's document from `labs`, then every `services` document it owns |

## Layout

- `wrappers.dfy`: `Option`, which stands for `null` and `undefined`.
- `text.dfy`: the JavaScript string operations the handlers use. `split(',')` is proved against its inverse, a join, in both directions. `toUpperCase()` has a character-by-character contract and an idempotence lemma. `toString()` on block numbers has a parse round trip and an injectivity lemma.
- `records.dfy`: ledger entries, notifications, emails and index documents; the ledger lookup `FindEntry`; per-key counting and the "one entry per key" invariant.
- `sinks.dfy`: the class `Stores`, which holds the five stores as fields. Each of its methods is one store call. Also here: the index deletions, the value type `State` of all stores, and the fault model.
- One module per handler. Each has a pure `Apply(state, command, [inputs,] fault)` that specifies one `execute`. Each also has a method `Execute(sinks, ...)` that performs the steps in the source's order on a `Stores` object. Its `ensures` ties the new `Snapshot()` and the returned error to `Apply`. The lemmas state the handler's properties about `Apply`.

**Faults.** The parameter `fault: Option<Step>` names the store call that throws, if that call is made. Four property reads on `undefined` throw too:

- the `.name` of a missing country record;
- the `.name` of a missing state record;
- `.value` of `prices[0]`, which is `undefined` for an order with no prices;
- `.id` of a missing history record. The `?? 0` covers only an absent id, not an absent record.

The two handlers with a try/catch return the error their catch logs, and `execute` returns normally. The two without one return the error that reaches their caller.

**A failed email skips the notification.** One might expect a mailer failure not to stop the notification. But in the code, the email and the notification insert share one try block. So a failing email step keeps the ledger entry but skips the notification. The model follows the code (`ServiceRequestCreated.FailuresSwallowed`). Because the entry is already written, every later delivery also skips the email step. So such an email is never sent (`ServiceRequestCreated.LostEmailNotResent`).

## Model

| member | source | states |
|---|---|---|
| ServiceRequestCreated.Execute | src/listeners/substrate-listener/commands/service-request/service-request-created/service-request-created.handler.ts:35-83 | the stores afterwards and the logged error are those of `Apply` for the same command, inputs and fault |
| ServiceRequestCreated.Apply | src/listeners/substrate-listener/commands/service-request/service-request-created/service-request-created.handler.ts:35-83 | the search indices are untouched; the ledger, outbox and notifications only grow, by at most one record each |
| ServiceRequestCreated.SendEmailNotification | src/listeners/substrate-listener/commands/service-request/service-request-created/service-request-created.handler.ts:85-113 | the outbox afterwards and the raised error are those of `SendEmailStep` |
| ServiceRequestCreated.SendEmailStep | src/listeners/substrate-listener/commands/service-request/service-request-created/service-request-created.handler.ts:85-113 | no error exactly when both lookups give a record and no call throws; then exactly the staking email is added, otherwise nothing changes |
| ServiceRequestCreated.Recipients | src/listeners/substrate-listener/commands/service-request/service-request-created/service-request-created.handler.ts:110 | at least one recipient; no recipient contains a comma |
| ServiceRequestCreated.RecipientsRoundTrip | src/listeners/substrate-listener/commands/service-request/service-request-created/service-request-created.handler.ts:110 | joining the recipients with ',' gives the `EMAILS` secret back; splitting a joined comma-free list gives the list back |
| ServiceRequestCreated.StakingLogging | src/listeners/substrate-listener/commands/service-request/service-request-created/service-request-created.handler.ts:41-50 | the staking entry literal; its fields are stated by `StakingEntryWritten` |
| ServiceRequestCreated.RequestNotification | src/listeners/substrate-listener/commands/service-request/service-request-created/service-request-created.handler.ts:65-77 | the customer notification literal; its fields are stated by `NotificationUnlessFailed` |
| ServiceRequestCreated.OrElse | src/listeners/substrate-listener/commands/service-request/service-request-created/service-request-created.handler.ts:102-103 | the `||` fallback on a falsy name; its effect on the context is stated by `EmailContents` |
| ServiceRequestCreated.StakingContext | src/listeners/substrate-listener/commands/service-request/service-request-created/service-request-created.handler.ts:99-107 | the email's template context; its fields are stated by `EmailContents` |
| ServiceRequestCreated.StakingEmail | src/listeners/substrate-listener/commands/service-request/service-request-created/service-request-created.handler.ts:109-111 | the recipients and context handed to the mailer; stated by `EmailContents` and `EmailOnlyAfterCreate` |
| GeneticAnalysisOrderPaid.ParentId | src/listeners/substrate-listener/commands/genetic-analysis-order/genetic-analysis-order-paid/genetic-analysis-order-paid.handler.ts:48 | the `?? 0` fallback; its effect on the entry is stated by `PaymentEntryWritten` |
| GeneticAnalysisOrderPaid.OrderLogging | src/listeners/substrate-listener/commands/genetic-analysis-order/genetic-analysis-order-paid/genetic-analysis-order-paid.handler.ts:43-52 | the payment entry literal; its fields are stated by `PaymentEntryWritten` |
| GeneticAnalysisOrderPaid.NewOrderNotification | src/listeners/substrate-listener/commands/genetic-analysis-order/genetic-analysis-order-paid/genetic-analysis-order-paid.handler.ts:59-71 | the analyst notification literal; its fields are stated by `NotificationUnlessFailed` |
| DnaSampleResultReady.ResultNotification | src/listeners/substrate-listener/commands/genetic-testing/dna-sample-result-ready/dna-sample-result-ready.handler.ts:22-34 | the customer notification literal; its fields are stated by `OneNotification` |
| ServiceRequestCreated.LedgerGate | src/listeners/substrate-listener/commands/service-request/service-request-created/service-request-created.handler.ts:53-59 | the ledger gains the staking entry exactly when the lookup succeeds, finds no `(hash, 7)` entry and the create does not throw; otherwise it is unchanged |
| ServiceRequestCreated.StakingEntryWritten | src/listeners/substrate-listener/commands/service-request/service-request-created/service-request-created.handler.ts:41-50 | a written entry has ref_number = hash, address = requesterAddress, amount = stakingAmount, created_at = createdAt, currency "DBIO", parent_id 0, status 7, type 2 |
| ServiceRequestCreated.EmailOnlyAfterCreate | src/listeners/substrate-listener/commands/service-request/service-request-created/service-request-created.handler.ts:58-61 | an email is sent if and only if the entry was just created and the email step does not fail; when sent, the ledger gained the entry and the outbox exactly that email |
| ServiceRequestCreated.EmailContents | src/listeners/substrate-listener/commands/service-request/service-request-created/service-request-created.handler.ts:99-111 | recipients are the `EMAILS` secret split on ','; amount = stakingAmount, currency "DBIO"; country and state are the looked-up names, else the raw country and region codes when the name is empty; service, address and city from the request |
| ServiceRequestCreated.NotificationUnlessFailed | src/listeners/substrate-listener/commands/service-request/service-request-created/service-request-created.handler.ts:63-79 | with no error exactly one notification is appended: role "Customer", description naming the staking hash, to = requesterAddress, block_number = the block number's decimal string (parses back to it), unread, deleted_at null, created_at = updated_at = the clock; with an error none is appended; nothing failing and the lookups resolving means no error, whether or not the ledger branch ran |
| ServiceRequestCreated.FailuresSwallowed | src/listeners/substrate-listener/commands/service-request/service-request-created/service-request-created.handler.ts:52-82 | a throw in the lookup or the create leaves every store unchanged; a throw in the email step (country lookup, missing country, state lookup, missing state, mailer) leaves only the new ledger entry; a throw in the insert adds no notification; each time the error is reported |
| ServiceRequestCreated.KeepsKeysUnique | src/listeners/substrate-listener/commands/service-request/service-request-created/service-request-created.handler.ts:53-59 | a ledger with at most one entry per key keeps that property |
| ServiceRequestCreated.AlreadyLoggedOnlyNotifies | src/listeners/substrate-listener/commands/service-request/service-request-created/service-request-created.handler.ts:53-79 | when the `(hash, 7)` entry exists, a fault-free delivery only appends the notification |
| ServiceRequestCreated.FirstDelivery | src/listeners/substrate-listener/commands/service-request/service-request-created/service-request-created.handler.ts:52-79 | a fault-free first delivery adds exactly the entry, the email and the notification |
| ServiceRequestCreated.AlreadyLoggedRedelivery | src/listeners/substrate-listener/commands/service-request/service-request-created/service-request-created.handler.ts:52-79 | once the entry exists, `n` deliveries leave ledger and outbox alone and add `n` notifications |
| ServiceRequestCreated.RedeliveryIdempotent | src/listeners/substrate-listener/commands/service-request/service-request-created/service-request-created.handler.ts:52-79 | `n >= 1` deliveries to a ledger without the key append exactly the staking entry (the one `(hash, 7)` entry) and exactly the staking email, and add `n` notifications |
| ServiceRequestCreated.LostEmailNotResent | src/listeners/substrate-listener/commands/service-request/service-request-created/service-request-created.handler.ts:58-61 | an email lost after the entry was written is not sent by any number of later deliveries |
| GeneticAnalysisOrderPaid.Execute | src/listeners/substrate-listener/commands/genetic-analysis-order/genetic-analysis-order-paid/genetic-analysis-order-paid.handler.ts:26-77 | the stores afterwards and the logged error are those of `Apply` |
| GeneticAnalysisOrderPaid.Apply | src/listeners/substrate-listener/commands/genetic-analysis-order/genetic-analysis-order-paid/genetic-analysis-order-paid.handler.ts:26-77 | outbox and indices untouched; ledger and notifications only grow, by at most one record each |
| GeneticAnalysisOrderPaid.LedgerGate | src/listeners/substrate-listener/commands/genetic-analysis-order/genetic-analysis-order-paid/genetic-analysis-order-paid.handler.ts:34-55 | the ledger changes if and only if both lookups succeed, no `(id, 14)` entry exists, the entry can be built and the create does not throw; then exactly the payment entry is appended |
| GeneticAnalysisOrderPaid.PaymentEntryWritten | src/listeners/substrate-listener/commands/genetic-analysis-order/genetic-analysis-order-paid/genetic-analysis-order-paid.handler.ts:39-52 | a written entry has address = customerId, amount = prices[0].value, created_at = updatedAt, currency = the order currency upper-cased (no lower-case letters left), parent_id = the history record's id or 0 when absent, ref_number = id, status 14, type 3 |
| GeneticAnalysisOrderPaid.NotificationUnlessFailed | src/listeners/substrate-listener/commands/genetic-analysis-order/genetic-analysis-order-paid/genetic-analysis-order-paid.handler.ts:57-73 | without an error exactly one notification: role "GA", entity_type "Genetic Analyst", entity "New Order", description naming the tracking id, to = sellerId, block_number = block number string, unread, deleted_at null, created_at = updated_at; with an error none; no error if and only if nothing on the path throws |
| GeneticAnalysisOrderPaid.FailuresSwallowed | src/listeners/substrate-listener/commands/genetic-analysis-order/genetic-analysis-order-paid/genetic-analysis-order-paid.handler.ts:33-76 | a throw in either lookup, a missing first price, a missing history record or a failing create leaves every store unchanged and is reported |
| GeneticAnalysisOrderPaid.KeepsKeysUnique | src/listeners/substrate-listener/commands/genetic-analysis-order/genetic-analysis-order-paid/genetic-analysis-order-paid.handler.ts:34-55 | a ledger with at most one entry per key keeps that property |
| GeneticAnalysisOrderPaid.AlreadyLoggedOnlyNotifies | src/listeners/substrate-listener/commands/genetic-analysis-order/genetic-analysis-order-paid/genetic-analysis-order-paid.handler.ts:34-73 | when the `(id, 14)` entry exists, a fault-free delivery only appends the notification |
| GeneticAnalysisOrderPaid.FirstDelivery | src/listeners/substrate-listener/commands/genetic-analysis-order/genetic-analysis-order-paid/genetic-analysis-order-paid.handler.ts:33-73 | a fault-free first delivery adds exactly the payment entry and the notification |
| GeneticAnalysisOrderPaid.AlreadyLoggedRedelivery | src/listeners/substrate-listener/commands/genetic-analysis-order/genetic-analysis-order-paid/genetic-analysis-order-paid.handler.ts:34-73 | once the entry exists, `n` deliveries leave the ledger alone and add `n` notifications |
| GeneticAnalysisOrderPaid.RedeliveryIdempotent | src/listeners/substrate-listener/commands/genetic-analysis-order/genetic-analysis-order-paid/genetic-analysis-order-paid.handler.ts:34-73 | `n >= 1` successful deliveries of the same order append exactly the payment entry (the one `(id, 14)` entry) and add `n` notifications |
| DnaSampleResultReady.Execute | src/listeners/substrate-listener/commands/genetic-testing/dna-sample-result-ready/dna-sample-result-ready.handler.ts:17-37 | the stores afterwards and the raised error are those of `Apply` |
| DnaSampleResultReady.Apply | src/listeners/substrate-listener/commands/genetic-testing/dna-sample-result-ready/dna-sample-result-ready.handler.ts:12-15 | ledger, outbox and both indices are untouched |
| DnaSampleResultReady.OneNotification | src/listeners/substrate-listener/commands/genetic-testing/dna-sample-result-ready/dna-sample-result-ready.handler.ts:20-36 | exactly one notification appended, description naming the order id, to = ownerId, role "Customer", entity_type "Genetic Testing Tracking", entity "Order Fulfilled", from "Debio Network", block_number "", unread, deleted_at null, created_at = updated_at = the one clock reading; a failing insert changes nothing and is raised to the caller |
| LabDeregistered.Execute | src/substrate/labs/commands/lab-deregistered/lab-deregistered.handler.ts:13-32 | the stores afterwards and the raised error are those of `Apply` |
| LabDeregistered.Apply | src/substrate/labs/commands/lab-deregistered/lab-deregistered.handler.ts:11 | ledger, notifications and outbox are untouched |
| LabDeregistered.Deregisters | src/substrate/labs/commands/lab-deregistered/lab-deregistered.handler.ts:15-31 | with no delete failing: no lab document has id = accountId and no service has owner_id = accountId; the other documents of both indices are kept, unchanged |
| LabDeregistered.DeletionOrder | src/substrate/labs/commands/lab-deregistered/lab-deregistered.handler.ts:15-21 | a failing lab delete changes nothing; a failing services delete leaves `services` untouched after the lab document is gone; the error is raised |
| LabDeregistered.Idempotent | src/substrate/labs/commands/lab-deregistered/lab-deregistered.handler.ts:15-31 | deregistering again leaves both indices as the first run left them |
| Sinks.DeleteById | src/substrate/labs/commands/lab-deregistered/lab-deregistered.handler.ts:15-19 | the id is absent afterwards; every other document is kept unchanged; nothing is added |
| Sinks.DeleteByOwner | src/substrate/labs/commands/lab-deregistered/lab-deregistered.handler.ts:21-31 | no remaining document has that owner; every document of another owner is kept unchanged |
| Sinks.Stores.Create | src/listeners/substrate-listener/commands/service-request/service-request-created/service-request-created.handler.ts:59 | the ledger is the old ledger with the entry appended; no other store changes |
| Sinks.Stores.Insert | src/listeners/substrate-listener/commands/service-request/service-request-created/service-request-created.handler.ts:79 | the notification is appended; no other store changes |
| Sinks.Stores.Send | src/listeners/substrate-listener/commands/service-request/service-request-created/service-request-created.handler.ts:109-112 | the email is appended to the outbox; no other store changes |
| Sinks.Stores.DeleteLab | src/substrate/labs/commands/lab-deregistered/lab-deregistered.handler.ts:15-19 | `labs` becomes `DeleteById` of its old value; no other store changes |
| Sinks.Stores.DeleteServicesByOwner | src/substrate/labs/commands/lab-deregistered/lab-deregistered.handler.ts:21-31 | `services` becomes `DeleteByOwner` of its old value; no other store changes |
| Records.FindEntry | src/listeners/substrate-listener/commands/service-request/service-request-created/service-request-created.handler.ts:53-57 | finds an entry if and only if the ledger has one with the key; what it finds is in the ledger and carries the key |
| Records.UniqueCountAtMostOne | src/listeners/substrate-listener/commands/service-request/service-request-created/service-request-created.handler.ts:53-59 | in a ledger with at most one entry per key (kept by both `KeepsKeysUnique` lemmas) each key is counted at most once |
| Text.Split | src/listeners/substrate-listener/commands/service-request/service-request-created/service-request-created.handler.ts:110 | at least one piece; no piece contains the separator |
| Text.JoinSplit | src/listeners/substrate-listener/commands/service-request/service-request-created/service-request-created.handler.ts:110 | joining the pieces of a split gives the input back |
| Text.SplitJoin | src/listeners/substrate-listener/commands/service-request/service-request-created/service-request-created.handler.ts:110 | splitting a join of separator-free pieces gives the pieces back |
| Text.UpperCase | src/listeners/substrate-listener/commands/genetic-analysis-order/genetic-analysis-order-paid/genetic-analysis-order-paid.handler.ts:47 | same length; no lower-case letter remains; lower-case letters become their capitals, everything else is kept |
| Text.UpperCaseIdempotent | src/listeners/substrate-listener/commands/genetic-analysis-order/genetic-analysis-order-paid/genetic-analysis-order-paid.handler.ts:47 | upper-casing twice is upper-casing once |
| Text.NatToString | src/listeners/substrate-listener/commands/genetic-analysis-order/genetic-analysis-order-paid/genetic-analysis-order-paid.handler.ts:28 | non-empty, decimal digits only, a leading '0' only for zero |
| Text.ParseNatToString | src/listeners/substrate-listener/commands/service-request/service-request-created/service-request-created.handler.ts:37 | the block-number string parses back to the block number |
| Text.NatToStringInjective | src/listeners/substrate-listener/commands/service-request/service-request-created/service-request-created.handler.ts:37 | different block numbers give different strings |

## Left out

- Logging, the clock, the secret manager and the country and state lookups are I/O. The clock reading, the `EMAILS` secret and the lookup results are inputs. A lookup result is either no record or a record with a possibly empty name. The empty string stands for every falsy name. The `EMAILS` secret is always a string: the error that `getSecret('EMAILS').split(',')` throws when the secret is missing (line 110) is not modelled.
- `getLoggingByOrderId` is part of a transaction-logging service that is not part of this model. Its result is an input to the order-paid handler, and the model does not tie it to the ledger.
- `normalize()` is not part of this model. The normalized request and order are given records. The service-request command carries both the delivered request and its normalized form, because the email step reads `command.request` (line 88) and `execute` reads the normalized one. Both have the same fields.
- GeneticAnalysisOrderPaid.Execute: the insert at line 73 is not awaited. In the program, its failure escapes the catch as an unhandled rejection. The model treats the insert as sequential and reports its failure as logged. In both cases no notification is added and `execute` returns normally.
- Concurrency is left out. This includes the atomicity of the read-then-write ledger gate under concurrent delivery. The model is sequential, one `execute` at a time.
- Elasticsearch `refresh` behaviour and `match` query analysis are left out. The match is exact equality on `owner_id`. A delete of a missing document succeeds. Whether the real client raises on it belongs to that client.
- Text.UpperCase: only the letters a–z are upper-cased. JavaScript's full Unicode case mapping is not modelled; it can change a string's length.
- Text.NatToString: block numbers are unbounded naturals. JavaScript's `number` is exact only below 2^53 and prints in exponential notation from 1e21 up; real block heights stay far below both.
- Amounts are integers. The `+value` coercion to a floating-point number and the `BigInt` conversion of the parent id are not modelled. Timestamps are abstract integers.
- The redelivery lemmas use fault-free deliveries with fixed inputs (lookups, history, clock).
- DI and module wiring carry no logic and are left out: `app.module.ts`, `schedulers.module.ts`, `ethereum.module.ts`, `caches/index.ts`. The HTTP call in `debio-conversion.service.ts` is I/O and is also left out.
- The chain subscribers, the event decoder, the dispatcher and the checkpoint store are not part of this model. Their source is not among the handler files.
