# Payment gateway routing and ledger, in Dafny

This project models the core of a payment gateway written in TypeScript for Node.
The gateway accepts payments into a shared Redis list. Workers forward each payment to one of two upstream processors, "default" or "fallback". Every payment that is accepted is recorded in a ledger, and a summary of that ledger is served per processor.

Two Redis string keys act as routing flags:
- `should_call_fallback` says to send payments to the fallback processor.
- `should_timeout_all_calls` says to stop dequeuing.

A health monitor sets both flags from the two processors' health endpoints.

The repository holds two generations of this engine, and both are modelled.

The current one:
- a LIFO queue (`src/services/queueService.ts`);
- a worker pool whose count `activeProcessing` is meant to stay within a concurrency bound (`src/workers/paymentWorker.ts`);
- `processPayment` and `checkServiceHealth` (`src/services/paymentService.ts`);
- a ledger kept in the sorted set `payments_by_date` (`src/repositories/paymentRepository.ts`).

The earlier one:
- a FIFO queue (`src/paymentQueue.ts`);
- an interval consumer meant to keep at most 25 payments in flight;
- an error counter that switches processors after more than five refusals;
- a document collection as the ledger (`src/paymentProcessor.ts`).

Modules, one per concern:

| file | module | what it holds |
|---|---|---|
| `types.dfy` | `Types` | payment requests, logs, summaries, health responses, the JS number subset the summary adds |
| `sorted_set.dfy` | `SortedSet` | the Redis sorted set: ZADD, ZSCORE, ZRANGEBYSCORE over entries kept in (score, member) order |
| `redis_store.dfy` | `Redis` | the `Store` class: the list, the string keys and the sorted set, one method per Redis command |
| `routing.dfy` | `Routing` | the flag keys, their text encoding and the monitor's decision table |
| `queue_service.dfy` | `QueueService` | the current queue and flag primitives (LPUSH/LPOP) |
| `payment_queue.dfy` | `PaymentQueue` | the earlier queue and flag primitives (LPUSH/RPOP) |
| `member_codec.dfy` | `MemberCodec` | the ledger member `amount\|processor\|correlationId`, `split("\|")` and `parseFloat` |
| `payment_repository.dfy` | `PaymentRepository` | savePayment, getSummary, resetDatabaseData and the summary fold |
| `payment_service.dfy` | `PaymentService` | processPayment and checkServiceHealth |
| `payment_worker.dfy` | `PaymentWorker` | the `Worker` class (processQueue, completions) and one health-monitor cycle |
| `payment_processor.dfy` | `PaymentProcessor` | the earlier processPayment, the consumer tick and the earlier monitor |

Conventions used throughout:
- Amounts are integer cents and timestamps are integer milliseconds.
- A parameter `fault` (or `readFault`, `writeFault`, `popFault`, `failingPop`) says that the Redis client call throws.
- A processor's answer is a `Delivery`: `Accepted` for an ok response, `Refused` for a response that is not ok, `Failed` for a `fetch` that threw.
- A health probe's answer is an `HttpReply`.
- The clock is the parameter `now`.
- A payment a worker has started waits in the field `inFlight` until its completion method is called.
- The current worker is modelled one `await` at a time. The suspended processQueue calls are the field `passes`, and each resumption is one method call: the return of a flag read, the return of a pop, or a completion. `PaymentWorker.Next` is the same step as a function of the pool, and `PaymentWorker.Run` folds it over a schedule of events.
- One legacy tick, one processPayment call and one monitor cycle are each one method call.

## Model

| member | source | states |
|---|---|---|
| SortedSet.Add | src/repositories/paymentRepository.ts:13-16 | ZADD keeps the set ordered with one entry per member; afterwards the member has exactly the given score, every other member keeps its score, and the size grows by one only for a new member |
| SortedSet.RangeByScore | src/repositories/paymentRepository.ts:26 | ZRANGEBYSCORE answers at most one member per entry, and one per entry when both bounds are absent |
| SortedSet.UnboundedRange | src/repositories/paymentRepository.ts:23-26 | with both bounds absent ZRANGEBYSCORE answers every member, in set order |
| SortedSet.RangeMembers | src/repositories/paymentRepository.ts:23-26 | a member is in the range answer iff it is stored and its score lies in [from, to], an absent bound being -inf/+inf |
| SortedSet.EmptyRange | src/repositories/paymentRepository.ts:23-26 | a range whose upper bound is below its lower bound selects nothing |
| SortedSet.AddNewInRange | src/repositories/paymentRepository.ts:13-26 | adding a new member inserts it at one place in a range's answer when its score is in range, and leaves the answer unchanged otherwise |
| SortedSet.AddExistingUnbounded | src/repositories/paymentRepository.ts:13-16 | re-adding a stored member keeps one entry for it: the unbounded answer lists the same other members in the same order |
| SortedSet.AddIdempotent | src/repositories/paymentRepository.ts:13-16 | ZADD of the same member and score twice equals doing it once |
| Redis.Store.LPush | src/services/queueService.ts:9 | LPUSH puts the payment at the head of the list and changes nothing else |
| Redis.Store.LPop | src/services/queueService.ts:15 | LPOP returns and removes the head, or nil on an empty list with nothing changed |
| Redis.Store.RPop | src/paymentQueue.ts:42 | RPOP returns and removes the tail, or nil on an empty list with nothing changed |
| Redis.Store.LLen | src/services/queueService.ts:31 | LLEN is the length of the list |
| Redis.Store.Get | src/services/queueService.ts:41 | GET returns a value iff the key is present, and then the stored string |
| Redis.Store.Set | src/services/queueService.ts:52 | SET stores the value under its key and changes nothing else |
| Redis.Store.ZAdd | src/repositories/paymentRepository.ts:13 | ZADD changes only the ledger, as `SortedSet.Add` says, and keeps it a valid sorted set |
| Redis.Store.ZRangeByScore | src/repositories/paymentRepository.ts:26 | ZRANGEBYSCORE answers `SortedSet.RangeByScore` of the stored ledger and changes nothing |
| Redis.Store.FlushDb | src/repositories/paymentRepository.ts:47 | FLUSHDB leaves the list, the flags and the ledger empty |
| Routing.GetFlag | src/services/queueService.ts:38-47 | a flag reads true iff its key holds exactly "true"; a missing key or a store error reads false |
| Routing.SetFlag | src/services/queueService.ts:49-56 | a flag write stores "true"/"false" under its key only, and a store error is swallowed with nothing changed |
| Routing.FlagRoundTrip | src/services/queueService.ts:38-56 | reading a flag after writing v gives v, and writing one key leaves the other flag's reading alone |
| Routing.ApplyHealth | src/workers/paymentWorker.ts:70-87 | the decision table: both failing sets halt and leaves the fallback flag as it was; a healthy default clears both; otherwise fallback on and halt off; no other key changes |
| QueueService.AddPaymentToQueue | src/services/queueService.ts:7-10 | LPUSH puts the payment at the head; a store error rejects the call and changes nothing |
| QueueService.GetNextPaymentFromQueue | src/services/queueService.ts:12-26 | returns the head and removes it; null on an empty list with nothing changed; a store error is rethrown |
| QueueService.GetQueueLength | src/services/queueService.ts:28-35 | the list length, or 0 on a store error |
| QueueService.GetShouldCallFallback | src/services/queueService.ts:38-47 | true iff the fallback key holds "true" and the read did not fail |
| QueueService.SetShouldCallFallback | src/services/queueService.ts:49-56 | writes the fallback flag only; the halt flag reads as before; errors are swallowed |
| QueueService.GetShouldTimeoutAllCalls | src/services/queueService.ts:58-67 | true iff the halt key holds "true" and the read did not fail |
| QueueService.SetShouldTimeoutAllCalls | src/services/queueService.ts:69-76 | writes the halt flag only; the fallback flag reads as before; errors are swallowed |
| QueueService.AddThenNext | src/services/queueService.ts:7-26 | a payment pushed and popped at once comes straight back and the database is as before |
| QueueService.Drain | src/services/queueService.ts:12-26 | popping until null returns the payments in `DrainOrder` of the list and leaves the list empty and everything else as it was |
| QueueService.DrainOrderIsList | src/services/queueService.ts:12-26 | head-first pops drain the list in its stored order |
| QueueService.LastInFirstOut | src/services/queueService.ts:7-26 | after pushing xs in turn, draining the list returns xs newest first, ahead of what was queued before |
| PaymentQueue.AddProcessToQueue | src/paymentQueue.ts:27-36 | LPUSH at the head; a store error is rethrown and changes nothing |
| PaymentQueue.GetNextPaymentFromQueue | src/paymentQueue.ts:38-53 | returns the tail and removes it; null on an empty list with nothing changed; a store error is rethrown |
| PaymentQueue.GetQueueLength | src/paymentQueue.ts:55-63 | the list length, or 0 on a store error |
| PaymentQueue.GetShouldCallFallback | src/paymentQueue.ts:65-74 | true iff the fallback key holds "true" and the read did not fail |
| PaymentQueue.SetShouldCallFallback | src/paymentQueue.ts:76-83 | writes the fallback flag only; errors are swallowed |
| PaymentQueue.GetShouldTimeoutAllCalls | src/paymentQueue.ts:85-94 | true iff the halt key holds "true" and the read did not fail |
| PaymentQueue.SetShouldTimeoutAllCalls | src/paymentQueue.ts:96-103 | writes the halt flag only; errors are swallowed |
| PaymentQueue.AddThenNext | src/paymentQueue.ts:27-53 | on an empty list the payment comes straight back and the database is as before; on a non-empty list the oldest payment is returned instead, and the list is the new payment followed by the rest, with nothing else changed |
| PaymentQueue.Drain | src/paymentQueue.ts:38-53 | popping until null returns the payments in `DrainOrder` of the list, tail first, and leaves the list empty and everything else as it was |
| PaymentQueue.FirstInFirstOut | src/paymentQueue.ts:27-53 | after pushing xs in turn, draining the list returns what was queued before, then xs oldest first |
| Types.Num.Plus | src/repositories/paymentRepository.ts:39 | `totalAmount += amount`: the sum is a number iff both sides are, and then it is the exact sum of the cents; NaN absorbs everything added to it |
| MemberCodec.NatText | src/repositories/paymentRepository.ts:11 | the decimal text of an amount is non-empty, all digits and free of the separator |
| MemberCodec.ParseAmount | src/repositories/paymentRepository.ts:35 | parseFloat gives NaN on empty text and on text that starts with neither a sign nor a digit, a number on text that starts with a digit, and a number that is non-negative unless the text starts with '-' and non-positive when it does |
| MemberCodec.AmountText | src/repositories/paymentRepository.ts:11 | `${payment.amount}` holds no '\|', so the amount is always the member's whole first field |
| MemberCodec.LeadingDigits | src/repositories/paymentRepository.ts:35 | parseFloat's digit run is a prefix of the text, all digits, and as long as possible |
| MemberCodec.AmountRoundTrip | src/repositories/paymentRepository.ts:11-35 | parsing the text written for an amount gives the amount back |
| MemberCodec.Split | src/repositories/paymentRepository.ts:34 | `split("\|")` yields at least one field, more than one iff the text holds a '\|', and the first field is a prefix of the text |
| MemberCodec.SplitFieldsFree | src/repositories/paymentRepository.ts:34 | no field of a split holds a '\|' |
| MemberCodec.Encode | src/repositories/paymentRepository.ts:11 | the member starts with the amount text and a '\|', ends with a '\|' and the correlation id, and is exactly its three fields and two separators long |
| MemberCodec.Read | src/repositories/paymentRepository.ts:34-35 | a member has a processor field iff it holds a '\|', and that field holds none; a member without '\|' is parsed whole as the amount |
| MemberCodec.SplitEncode | src/repositories/paymentRepository.ts:11-34 | splitting a member gives back its amount text, processor and correlation id when neither of the last two contains '\|' |
| MemberCodec.ReadEncode | src/repositories/paymentRepository.ts:11-35 | reading a stored member recovers the amount and processor written, whatever the correlation id holds |
| MemberCodec.EncodeInjective | src/repositories/paymentRepository.ts:11 | two logs with '\|'-free processor labels share a member iff they agree on amount, processor and correlation id, whatever the correlation ids hold; the timestamp is not part of it |
| PaymentRepository.Bucketed | src/repositories/paymentRepository.ts:37-40 | a member counts only in the bucket its processor field names: that bucket gains one request and the amount; a bucket the field does not name is unchanged, so any other field, or none, adds nothing |
| PaymentRepository.Count | src/repositories/paymentRepository.ts:33-41 | one loop step adds at most one request, and a member without '\|' adds nothing |
| PaymentRepository.Tally | src/repositories/paymentRepository.ts:33-41 | the summary counts at most one request per member |
| PaymentRepository.TallyOfPlainMembers | src/repositories/paymentRepository.ts:33-41 | members without '\|' give the all-zero summary |
| PaymentRepository.TallyConcat | src/repositories/paymentRepository.ts:33-41 | the summary of two lists back to back is the bucket-wise sum of their summaries |
| PaymentRepository.TallyInsert | src/repositories/paymentRepository.ts:33-41 | where a member stands in the range does not change what it adds to the summary |
| PaymentRepository.CountEncoded | src/repositories/paymentRepository.ts:33-41 | a stored member adds one request and its amount to its processor's bucket and nothing to the other; other labels add nothing |
| PaymentRepository.TallyCountsLabels | src/repositories/paymentRepository.ts:26-42 | each bucket's totalRequests equals the number of members whose processor field names it |
| PaymentRepository.EmptyRangeSummary | src/repositories/paymentRepository.ts:23-31 | an empty score range gives the all-zero summary |
| PaymentRepository.SaveNewPaymentSummary | src/repositories/paymentRepository.ts:5-43 | saving a new member changes the summary of a range by exactly that member's contribution when its time is in range, and not at all otherwise |
| PaymentRepository.SavedLogCounted | src/repositories/paymentRepository.ts:5-43 | saving a log with a new member adds one request and its amount to its processor's bucket in every range holding its time, and changes no other bucket and no range that misses its time |
| PaymentRepository.ResavePaymentSummary | src/repositories/paymentRepository.ts:5-43 | saving a member already stored leaves the unbounded summary as it was |
| PaymentRepository.SaveLast | src/repositories/paymentRepository.ts:5-43 | saving one more log with a new member raises its processor's bucket by one request and the amount, and leaves the other bucket |
| PaymentRepository.LedgerSummary | src/repositories/paymentRepository.ts:5-43 | for a ledger written by savePayment with distinct members, the unbounded summary is, per processor, the count and exact total of the payments saved under that label |
| PaymentRepository.SavePayment | src/repositories/paymentRepository.ts:5-17 | ZADD of `amount\|processor\|correlationId` scored by the request time and nothing else; a store error rejects and changes nothing |
| PaymentRepository.GetSummary | src/repositories/paymentRepository.ts:19-43 | the loop's result is the fold of the range's members, and the database is not changed; a store error is rethrown |
| PaymentRepository.ResetDatabaseData | src/repositories/paymentRepository.ts:45-48 | FLUSHDB empties the queue, the flags and the ledger; a store error rejects and changes nothing |
| PaymentRepository.ResetTwiceThenSummary | src/repositories/paymentRepository.ts:45-48 | resetting twice leaves the empty database and a following summary is all-zero |
| PaymentService.UseFallback | src/services/paymentService.ts:29-31 | the payment goes to the fallback processor iff the flag key holds exactly "true" and was read without an error; a failed read or a missing key sends it to the default processor |
| PaymentService.DeliveryLog | src/services/paymentService.ts:49-54 | the saved log carries the payment's amount and id, the time of the request and "fallback" iff the fallback was used |
| PaymentService.Process | src/services/paymentService.ts:28-67 | on ok: the queue is untouched, halt is cleared, the fallback flag keeps the routing just used, exactly one member gets score `now`, and that member is labelled "fallback" iff the flag read "true" without an error and "default" otherwise and no other member moves; not ok or thrown: the payment goes back to the head and nothing else changes; store errors after the answer change nothing, and only a failed re-enqueue rejects |
| PaymentService.ProcessPayment | src/services/paymentService.ts:28-67 | the method's effect on the database and its settlement are those of `Process` |
| PaymentService.DeliveredPaymentCounted | src/services/paymentService.ts:46-54 | after a delivery, every range holding `now` reports one more request and the payment's amount in the bucket of the processor used, and the other bucket is unchanged |
| PaymentService.RefusedGoesFirst | src/services/paymentService.ts:56-66 | a refused payment is pushed back at the head, so the next pop returns it and leaves the database as it was before the payment was taken |
| PaymentService.FirstDeliveryCounted | src/services/paymentService.ts:46-54 | the first delivery into an empty ledger leaves the queue alone and makes the summary one request of its amount in the bucket of the processor used |
| PaymentService.RedeliveredPaymentCountedOnce | src/services/paymentService.ts:28-67 | a payment refused once and delivered on redelivery is counted once, in the bucket of the processor the flag names |
| PaymentService.CheckServiceHealth | src/services/paymentService.ts:68-91 | succeeds iff both probes answered ok, and then returns both bodies; otherwise it throws |
| PaymentWorker.Next | src/workers/paymentWorker.ts:16-42 | one resumption of a suspended processQueue call, or one completion: the counter keeps matching the payments in flight, it rises exactly when a waiting pop returns a payment, then by one and with that payment added, and otherwise it does not rise; a completion of a started payment lowers the counter by one, removes exactly that payment and schedules one new call |
| PaymentWorker.NextPopCount | src/workers/paymentWorker.ts:24-25 | a step adds at most one call waiting on a pop, and only a flag read that saw a free slot adds one |
| PaymentWorker.GuardedNext | src/workers/paymentWorker.ts:24-40 | from a pool within the bound, with at most one call waiting on a pop and that one holding a free slot, a step keeps all three facts iff it is not a flag read that sends a second call to a pop |
| PaymentWorker.RunGuarded | src/workers/paymentWorker.ts:16-42 | the bound that holds: along a schedule in which no step sends a second call to a pop, activeProcessing never exceeds concurrency |
| PaymentWorker.PassFills | src/workers/paymentWorker.ts:24-31 | a call that keeps getting payments from its pops fills every slot and ends |
| PaymentWorker.OverlappingPopsOvershoot | src/workers/paymentWorker.ts:24-40 | the bound does not hold in general: from startWorkers, once the first call fills every slot, two completions whose new calls both pass the `while` test before either pop returns leave activeProcessing at concurrency + 1, for every concurrency >= 2 |
| PaymentWorker.Admitted | src/workers/paymentWorker.ts:24-31 | a call alone starts no more payments than there are free slots or queued payments, and stops only when slots run out, the queue is empty or a pop throws |
| PaymentWorker.Worker.constructor | src/workers/paymentWorker.ts:10-45 | workers start with nothing in flight, one processQueue call on its way to the flag read, and a concurrency of 10 unless one is given |
| PaymentWorker.Worker.ResumeAfterFlagRead | src/workers/paymentWorker.ts:17-24 | halted iff the halt flag reads true without an error, and then the call waits to read it again; otherwise a free slot sends the call to a pop and a full pool ends it; the new state is `Next` of this event |
| PaymentWorker.Worker.ResumeAfterPop | src/workers/paymentWorker.ts:25-31 | the pop returns the head of the list and removes it, or null on an empty list, or throws; a payment is started and the call pops again while a slot is free; an empty pop sends the call back to the flag read; a thrown pop ends it; the new state is `Next` of this event |
| PaymentWorker.Worker.Complete | src/workers/paymentWorker.ts:33-40 | a finished payment frees exactly its own slot, whatever the outcome, a new call is scheduled, the new state is `Next` of this event, and the database changes as `Process` says |
| PaymentWorker.Worker.PopWhileFree | src/workers/paymentWorker.ts:24-31 | a call's `while` loop when nothing interleaves: the first n payments of the list move into flight, n = `Admitted(...)`, activeProcessing never exceeds concurrency, and an empty or a thrown pop ends the loop with a slot still free |
| PaymentWorker.Worker.RunPassAlone | src/workers/paymentWorker.ts:16-42 | processQueue from its flag read to its end when nothing interleaves: halted means nothing is popped; otherwise the effect of `PopWhileFree`; a pool within the bound stays within it |
| PaymentWorker.Worker.StartServiceHealthMonitor | src/workers/paymentWorker.ts:47-52 | instance "01" starts no monitor; every other instance starts one |
| PaymentWorker.MonitorCycle | src/workers/paymentWorker.ts:52-91 | when both probes answer ok the flags become `ApplyHealth` of them; when the probe throws or the store fails, nothing changes |
| PaymentProcessor.Collection.InsertOne | src/paymentProcessor.ts:50-57 | insertOne appends one document |
| PaymentProcessor.ServiceLabel | src/paymentProcessor.ts:39 | the label is "fallback" iff the fallback URL was used, and "default" otherwise |
| PaymentProcessor.Process | src/paymentProcessor.ts:23-75 | ok: counter 0, halt cleared, routing kept, one document with the label used; not ok: re-enqueued, counter + 1, and past 5 the fallback flag is set to the other processor than the one just tried; thrown: re-enqueued only; a failed re-enqueue rejects and changes nothing |
| PaymentProcessor.RefusalsCounted | src/paymentProcessor.ts:58-69 | a run of refusals re-enqueues every payment and adds one each to the counter, and the flags stay as they were while the counter is at most 5 |
| PaymentProcessor.SixthRefusalSwitches | src/paymentProcessor.ts:58-69 | after a success, five refusals leave the routing alone and the sixth switches to the other processor |
| PaymentProcessor.Processor.constructor | src/paymentProcessor.ts:17-21 | the consumer starts stopped, with nothing in flight and no errors counted |
| PaymentProcessor.Processor.ConsumePaymentsFromQueueWithInterval | src/paymentProcessor.ts:77-107 | the consumer interval is started only if it is not running, so at most one runs |
| PaymentProcessor.Processor.ConsumerTick | src/paymentProcessor.ts:84-104 | below 25 in flight and not halted: at most one payment, the oldest, is popped and started; otherwise or on an empty or failing pop nothing changes; the counter stays at most 25 |
| PaymentProcessor.Processor.ConsumerComplete | src/paymentProcessor.ts:94-99 | a finished payment frees its slot whatever the outcome, and the database, the counter and the collection change as `Process` says |
| PaymentProcessor.Processor.MonitorCycle | src/paymentProcessor.ts:114-174 | skipped while 25 are in flight or when either probe failed or was not ok; otherwise the flags become `ApplyHealth` of the two statuses |
| PaymentProcessor.Processor.VerifyServiceAvailabilityWithInterval | src/paymentProcessor.ts:109-113 | instance "01" starts no monitor; every other instance starts one |

## Left out

- Timers and scheduling are not modelled: `setInterval`, `setImmediate` and `setTimeout`. The caller decides when a pass, tick, completion or monitor cycle happens. The halt back-off of 500 ms and the intervals of 100 ms, 2100 ms and 2500 ms are not represented.
- Interleaving is modelled only for the current worker's processQueue, at its two `await`s. Each of the following runs as one atomic step, although in the source other work can interleave at every `await`:
  - a processPayment call, between its flag read and its writes;
  - a legacy consumer tick;
  - a monitor cycle.
- PaymentProcessor.Processor.ConsumerTick: its bound of at most 25 payments in flight holds only because a tick is one step. In the source a tick awaits its pop between its test and its increment (its flag read comes before the test). A tick that fires while an earlier one is suspended can pass the same test, so the count can exceed 25 as the current worker's can exceed its bound.
- Cross-instance races on the shared keys are left out for the same reason.
- HTTP and JSON are left out, and so is the request body. The following become inputs: the processor's answer, the probes' answers and the parsed health bodies. A health body that fails to parse is not modelled.
- Store errors are modelled per call group, not per command:
  - `writeFault` covers every store call made after the processor answered.
  - `fault` covers every store call of a monitor cycle.
  - A failure that hits only some of those commands is not modelled.
- The Mongo `insertOne` is modelled as always succeeding. Its unawaited promise is not modelled.
- Unhandled promise rejections are not modelled, so their effect on the Node process is not either. Three cases are affected:
  - a savePayment rejected after an ok response;
  - a processQueue call whose pop threw;
  - a legacy processPayment that settles `Rejected`: its `.finally` has no `.catch`.
- PaymentWorker.Worker.constructor: takes the concurrency as a natural number, so a negative or fractional concurrency, which JS would accept, is not covered.
- `stopWorkers` and `stopPaymentConsumer` are not modelled.
  - `stopWorkers` resets `activeProcessing` to 0 and clears the health-monitor interval.
  - `stopPaymentConsumer` resets only the boolean `isProcessing` and clears the interval stored under the consumer's global name. It does not reset `processingCount`.
  - The earlier monitor stores its interval under the consumer's global name, so stopping clears the wrong interval. This is not modelled either.
- Number formatting and parsing is narrower than in JS:
  - An amount is written as its integer decimal text.
  - parseFloat is modelled as an optional sign followed by the leading digits, or NaN when there are none.
  - Decimal fractions, exponents, leading whitespace and float rounding are not modelled.
  - The controller's `Math.round` of the totals is not modelled.
- Dates are integer milliseconds. `toISOString` and the parsing of `from` and `to` are not modelled.
- Members are ordered by code point. Redis compares the bytes of their UTF-8 encoding, which agrees for ASCII ids.
- A processor field that names an `Object.prototype` property (for example `toString`) is not modelled. The source then writes onto that property; the model ignores such a member. Either way the two buckets are not affected.
- The following are not part of this model:
  - the HTTP layer: `src/index.ts`, `src/config/express.ts` and `src/controllers/paymentController.ts`;
  - `src/config/redis.ts` and its client pool;
  - `src/workers/enqueueWorker.ts`;
  - `mongo-init.js`;
  - `initializeRedisClient` and `closeRedisClient`;
  - logging.
- Two imports do not resolve, and the model follows their evident intent:
  - `savePayment` is imported from the repository, which only exports `PaymentRepository.savePayment`.
  - `db` and `INSTANCE_ID` are imported from `src/index.ts`, which does not export them.

### Behaviour of the code worth noting

The model follows the code in each case.

- Only the earlier processPayment keeps an error counter and switches processors after more than five refusals. The current one only re-enqueues a refused or failed payment.
- Past the threshold, the earlier code sets the fallback flag to the opposite of the processor just tried, on every further refusal. The routing therefore alternates until a success resets the counter.
- Every instance whose id is not "01" runs the health monitor (`src/workers/paymentWorker.ts:48`, `src/paymentProcessor.ts:110`), so several instances can write the flags.
- A failed payment is pushed at the head of the list. For the current LIFO queue, that makes it the next payment popped.
- FLUSHDB also empties the queue, not only the ledger and the flags.
- The ledger write after an ok response is not awaited. A failed write is lost and the payment still counts as processed.
- The worker pool's bound is not kept. processQueue tests `activeProcessing < concurrency` before it awaits the pop, and it increments only after the pop returns. Every completion schedules a new call. Two calls can therefore both pass the test with one slot free and both start a payment. `OverlappingPopsOvershoot` shows the counter reaching concurrency + 1. `RunGuarded` states the bound that does hold: it is kept as long as no call is sent to a pop while another call is already waiting on one.
