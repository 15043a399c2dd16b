# PAY.NL transaction reconciliation for Shopware 6, in Dafny

This project models `ProcessingHelper`, the part of the PAY.NL payment plugin
that keeps a local PAY.NL transaction record consistent with the status PAY.NL
reports. It covers:

- recording a payment attempt (`storePaynlTransactionData`);
- looking a record up by order id (`findTransactionByOrderId`);
- reconciling one record (`updateTransaction`): fetch the snapshot, map it to
  a local status and at most one order-transaction transition (pay, refund,
  refundPartially, cancel), apply that transition through the state handler,
  write the status, and return a result text, with every caught `Exception`
  reduced to one of two texts;
- the status write (`setPaynlStatus`);
- the notification entry point (`processNotify`), and what repeated
  deliveries of one notification do when the order's state, and so what the
  state handler refuses, changes between deliveries.

Files and modules:

- `wrappers.dfy` (`Wrappers`): `Option`.
- `entity.dfy` (`Entity`): the `paynl_transactions` row. It also holds the
  local status codes, kept as symbols with `Unset` for the literal 0, and the
  status update on the repository map.
- `paynl_api.dfy` (`PaynlApi`): what the PAY.NL client returns. That is a
  snapshot of seven predicates plus the `paymentDetails` payload, or an
  exception with a code and a message.
- `status_mapping.dfy` (`StatusMapping`): the if/elseif chain as a function.
  It also gives an independent priority-list definition of the same decision
  and the lemmas that connect the two.
- `order_transaction_state.dfy` (`OrderTransactionState`): the state handler.
  It keeps an append-only log of `(orderTransactionId, transition)` pairs, and
  it throws for the transitions it has been told to refuse. What it refuses
  can change between calls.
- `processing_helper.dfy` (`Helper`): `UpdatePlan` is the pure statement of
  what one `updateTransaction` run does. It is paired with the class
  `ProcessingHelper`, whose repository is a map from internal id to record
  and whose methods are proved against `UpdatePlan`.

The model follows the code in these places, where one might expect otherwise:

- The chain checks being-verified and pending before refunded. So a refunded
  snapshot that is also pending maps to PENDING, not REFUND.
- A transition that throws skips the status write. Control jumps to the catch
  block, so the stored `stateId` is unchanged.
- `processNotify` returns early only on `isPending()`. A snapshot that is
  only being verified goes on to the lookup and the update.
- In `processNotify`, the fetch is outside any `try`. Its exception reaches
  the caller.
- When no record matches the PAY.NL id, `null` is passed to a typed
  parameter. That raises a `TypeError`, which `catch (Exception)` does not
  catch. The model gives an error outcome, not a no-op.

## Model

| member | source | states |
|---|---|---|
| `StatusMapping.MapStatus` | src/Helper/ProcessingHelper.php:89-108 | The status stays 0 (unset) exactly when none of the seven predicates holds. Any transition comes with its own status (pay→PAID, refund and refundPartially→REFUND, cancel→CANCEL). PENDING and AUTHORIZED never carry a transition. |
| `StatusMapping.MapIsFirstMatch` | src/Helper/ProcessingHelper.php:89-108 | The chain equals a scan of the priority list being-verified, pending, refunded, partially-refunded, authorized, paid, canceled. The scan returns the outcome of the first rule that holds, or 0 with no transition. |
| `StatusMapping.FirstTrueWins` | src/Helper/ProcessingHelper.php:89-108 | Mapping order: if rule i is the first rule in the priority list that holds, its outcome decides the status and the transition, whatever the later rules say. |
| `StatusMapping.NoneHoldsIsUnset` | src/Helper/ProcessingHelper.php:89-108 | No predicate holds if and only if the status is 0 and no transition is made. |
| `StatusMapping.TransitionRules` | src/Helper/ProcessingHelper.php:90-107 | Only refunded, partially-refunded, paid and canceled carry a transition: refund, refundPartially, pay and cancel, one each. Being-verified, pending and authorized carry none. |
| `StatusMapping.RefundBeatsPaidAndAuthorized` | src/Helper/ProcessingHelper.php:94-104 | When neither being-verified nor pending holds, a refunded snapshot maps to REFUND with a full refund, whatever paid and authorized say. It never maps to `pay`. |
| `StatusMapping.AuthorizedBeatsPaid` | src/Helper/ProcessingHelper.php:100-104 | A snapshot that is authorized and paid (and not verified, pending, refunded or partially refunded) maps to AUTHORIZED with no transition. So `pay` is not called. |
| `Entity.WithStatus` | src/Helper/ProcessingHelper.php:132-143 | The update sets `stateId` on the record with the given internal id. No other field of that record changes, no other record changes, and the key set stays the same. |
| `Helper.NewRecord` | src/Helper/ProcessingHelper.php:49-60 | A new row copies the order, order-transaction and customer ids, the PAY.NL id, the payment id, the order total as `amount`, the currency code and the shipping method. It leaves `stateId`, `comment` and `orderStateId` unset. Its `exception` is the throwable's text, or "" when none is passed. |
| `Helper.ExceptionText` | src/Helper/ProcessingHelper.php:59 | The stored `exception` text is "" when no throwable is passed, and the throwable's text otherwise. |
| `Helper.StatusUpdatedMessageParts` | src/Helper/ProcessingHelper.php:113-118 | The success text is "Status updated to: ", then `stateName`, " (", `state`, ") orderNumber: " and `orderNumber`. Its length is the sum of those parts. It starts with the prefix followed by the state name, and ends with the order number. It is never the no-action text. |
| `Helper.Caught` | src/Helper/ProcessingHelper.php:119-124 | A caught exception yields its own message when the run is a notification and the code is 999. In every other case it yields "No action, order was not created". |
| `Helper.Raised` | src/Helper/ProcessingHelper.php:86-108 | The model covers two sources of an exception inside the try block. A failed fetch raises its exception. On a fetched snapshot, an exception is raised if and only if a transition is mapped and the state handler refuses it, and it is that refusal's exception. So a refused transition goes to the catch block and skips the status write. |
| `Helper.UpdatePlan` | src/Helper/ProcessingHelper.php:84-125 | The status is written exactly when no exception was raised, and then it is the mapped status. On success the result is the "Status updated to: …" text from `paymentDetails`, even when no transition was applied. A transition is applied only on success and only to the record's `orderTransactionId`. A caught exception yields its message if the run is a notification and the code is 999, and "No action, order was not created" otherwise. |
| `Helper.PlanIgnoresStateId` | src/Helper/ProcessingHelper.php:84-125 | An update run does not read the record's stored `stateId`. A run after a status write on the same record computes the same transition, write and text. |
| `Helper.ProcessingHelper.constructor` | src/Helper/ProcessingHelper.php:30-38 | The helper starts from a repository keyed by internal id and a given state handler. |
| `Helper.ProcessingHelper.StorePaynlTransactionData` | src/Helper/ProcessingHelper.php:40-62 | It adds exactly one record, the `NewRecord` row, under a fresh id. It does not check for an existing record of the same order. |
| `Helper.ProcessingHelper.SearchFirst` | src/Helper/ProcessingHelper.php:155-158 | It returns a stored record whose searched field equals the value. It returns none only when no stored record matches. |
| `Helper.ProcessingHelper.FindTransactionByOrderId` | src/Helper/ProcessingHelper.php:67-71 | It returns a stored record with the given order id, or none when no record has it. |
| `Helper.ProcessingHelper.SetPaynlStatus` | src/Helper/ProcessingHelper.php:132-143 | The new repository is `WithStatus` of the old one: only `stateId` of the given internal id changes. |
| `Helper.ProcessingHelper.UpdateTransaction` | src/Helper/ProcessingHelper.php:84-125 | The result, the new repository (written on the record's internal id, not its PAY.NL id) and the state handler's new log are exactly what `UpdatePlan` says for the snapshot fetched by the record's PAY.NL id. |
| `Helper.ProcessingHelper.ProcessNotify` | src/Helper/ProcessingHelper.php:149-161 | A fetch exception escapes, and a pending snapshot returns null; both leave everything unchanged. Otherwise a record with that PAY.NL id is looked up. If there is none, a `TypeError` results and nothing changes. If there is one, the update runs on it as a notification (`isExchange` true) and its text is returned. |
| `Helper.ProcessingHelper.ProcessNotifyRepeatedly` | src/Helper/ProcessingHelper.php:149-161 | The same notification is delivered once per entry of `refusals`. PAY.NL gives the same answer each time, exactly one record carries the PAY.NL id, and before delivery i the order's state makes the handler refuse `refusals[i]`. If the fetch throws or the snapshot is pending, nothing changes and every delivery ends the same way. Otherwise delivery i runs `UpdatePlan` with its own refusals on the record as first found. The repository ends as it was when no delivery writes, and with the mapped status on that record once any delivery writes. The log gains each delivery's applied transition in order, and delivery i returns its own plan's text. |
| `Helper.ProcessingHelper.DeliverNotification` | src/Helper/ProcessingHelper.php:149-161 | One delivery, after the handler is set to refuse `refusals[i]`, for the only record carrying the PAY.NL id. A thrown fetch or a pending snapshot changes nothing. Otherwise the repository, the log and the returned text are those of delivery i's plan. The record still carries the id and differs from the first-found one only in `stateId`. |
| `Helper.ProcessingHelper.RedeliverFetched` | src/Helper/ProcessingHelper.php:149-161 | On a snapshot that is not pending, the deliveries in order leave the repository with every plan's write applied in turn. The log gains every plan's entries, and delivery i returns plan i's text. |
| `Helper.DeliveryPlanAt` | src/Helper/ProcessingHelper.php:84-125 | Delivery i's plan is the update of the first-found record under the refusals in force at delivery i. |
| `Helper.DeliveryOutcome` | src/Helper/ProcessingHelper.php:96-124 | On a fetched snapshot, delivery i writes the status if and only if its transition was not refused. Then the status is the mapped one and the text is the success text. A refused delivery writes nothing and returns the caught text. That text differs from the success text unless the exception's code is 999. |
| `Helper.DeliveriesSettle` | src/Helper/ProcessingHelper.php:96-110 | Whatever the handler refuses at each delivery, every write carries the mapped status. So the repository after all deliveries is either the old one or the old one with the mapped status on the record. It is the old one when no delivery writes, and the old one with the mapped status once any delivery writes. The two coincide when the record already carries that status. |
| `Helper.WritesSettle` | src/Helper/ProcessingHelper.php:110 | A sequence of status writes on one record that all carry the same status leaves the repository as it was or with that status on the record. |
| `Helper.WriteSettles` | src/Helper/ProcessingHelper.php:110 | If one write in such a sequence happens, the repository ends with that status on the record. Writes of the same status before or after it change nothing more. |
| `Helper.NoWriteKeeps` | src/Helper/ProcessingHelper.php:110 | A sequence of runs that all skip the status write leaves the repository unchanged. |
| `OrderTransactionState.TransactionStateHandler.Apply` | src/Helper/ProcessingHelper.php:96-107 | A transition the handler refuses throws the configured exception and logs nothing. Any other transition is appended to the log with its order-transaction id. |

## Left out

- The PAY.NL client (`getApiTransaction`, `getTransaction`) makes network calls. It is the parameter `api`, which gives the fetch outcome for each PAY.NL id. The two fetches in one `processNotify` call therefore see the same answer, though PAY.NL's state could change between them.
- `getPaynlPaymentMethodId` is the client's configuration lookup. It is the parameter `paymentIdOf`.
- The repository generates the id of a new record. That id is the parameter `newId`, required to be fresh.
- `Context`, `Context::createDefaultContext()` and the parts of `SalesChannelContext` other than the copied ids are framework plumbing. A missing customer or payment method in the context is not modelled.
- Criteria and EqualsFilter search semantics are abstracted: `first()` is any stored record whose field matches. Which record the database returns first when several match is not modelled.
- Repository reads leave no trace in the state. That a pending notification does no lookup shows only as its outcome and an unchanged state.
- `(string)$exception` is PHP's own formatting of a throwable. The model receives that text rather than the throwable.
- `amount` is a PHP float. It is carried as an opaque `real`, and no arithmetic is done on it.
- `sprintf` is modelled as concatenation. The payload `state` is carried as the text it prints as.
- The exception code is compared as an integer. PHP's loose `==` on non-integer codes is not modelled.
- Exceptions from the status write (`setPaynlStatus`, inside the try block) are not modelled, nor from `getData()`. A failing write would be caught after the transition had run, leave `stateId` unchanged, and yield the no-action or code-999 text. In the model the map write cannot fail.
- PHP `Error`s inside the try block are not modelled, such as a null PAY.NL id reaching the typed fetch. The one exception is the `TypeError` for a missing record in `processNotify`.
- Warnings from reading the payload are not modelled. An absent `paymentDetails` key gives a warning and an empty field in the text, after the status is written. The model assumes the three fields are present.
- Helper.ProcessingHelper.ProcessNotifyRepeatedly: states repeated deliveries only for a PAY.NL id that exactly one record carries, and for PAY.NL giving the same answer at each delivery. With several matching records, each delivery may pick a different one, and `storePaynlTransactionData` does not prevent that. What the order's state makes the handler refuse at each delivery is a parameter (`refusals`), not derived from the transitions earlier deliveries applied.
- The state machine's legality rules are abstracted. The handler refuses a transition according to its `refusals` map, not according to the order's current state.
- Framework validation of required columns at insert is not modelled (`orderStateId` is required but never set here).
- Helper.ProcessingHelper.SetPaynlStatus: requires the id to be stored. The framework's behaviour on an update of an unknown id is not modelled, and records are never deleted.
- Helper.ProcessingHelper.UpdateTransaction: requires the record's internal id to be stored. Its one visible caller, `processNotify`, passes a record the repository just returned.
- The entity definition's field wiring and the admin order-list override are not part of this model. The first has no behaviour and the second is presentation.
- Concurrent notifications are not modelled. The helper itself has no concurrency.
