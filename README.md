# Allocation service: a Dafny model

This project models the core of a small order-allocation service built in the
ports-and-adapters / event-driven style:

- the **allocation aggregate** (`allocation/domain/model.py`). An order line is
  a value. A batch of stock is an entity, identified by its reference. It has
  a purchased quantity and a set of allocated lines. A product owns its
  batches. It allocates a line to the most preferred batch that can take it,
  bumps its version number and records an `Allocated` or `OutOfStock` event.
  When a batch's quantity changes, it pops allocations until the batch is no
  longer over-committed and queues an `Allocate` command for each popped line;
- the **earlier domain service** (`model.py`): the same batch rules and a free
  `allocate(line, batches)` that raises `OutOfStock`;
- the **message bus** (`allocation/service_layer/messagebus.py`). It drains a
  first-in, first-out queue. A command has one handler, and that handler's
  exception aborts `handle`. An event has an ordered list of handlers, and
  the `Exception`s they raise are swallowed. The messages the unit of work collects after
  a handler returns are appended to the queue;
- the **unit of work** (`AbstractUnitOfWork` in
  `allocation/service_layer/unit_of_work.py`). It collects the events of the
  products it has seen, rolls back on exit and commits on request.

Modules, one per file:

| file | module | models |
|---|---|---|
| `common.dfy` | `Common` | `Option` (a missing eta, `None`, StopIteration) and a pass/fail `Outcome` |
| `order_lines.dfy` | `OrderLines` | `OrderLine` and the total quantity of a set of lines |
| `preference.dfy` | `Preference` | `Batch.__gt__`, the stable `sorted(...)` and `next(...)` over it |
| `messages.dfy` | `Messages` | the commands and events, and their types as handler-table keys |
| `allocation.dfy` | `Allocation` | `Batch` and `Product` of `allocation/domain/model.py`, as classes |
| `domain_service.dfy` | `DomainService` | `Batch` and `allocate` of `model.py` |
| `message_bus.dfy` | `MessageBus` | `handle`, `handle_event`, `handle_command`, the handler tables |
| `unit_of_work.dfy` | `UnitOfWork` | `AbstractUnitOfWork` as a class |

Batches and products are classes whose methods update their fields in place.
`allocated_quantity` sums over the allocation set in a loop, specified by a
ghost sum `SumQty`; that sum is proved independent of iteration order.

The preference order is kept exactly as the source writes it. Python's
`sorted` asks `a < b`, which for a Batch falls back to `b.__gt__(a)`. So the
sort is a stable sort on etas in which a missing eta comes first.
`Preference.Sort` is a stable insertion sort. It is proved to be:

- a permutation;
- ordered;
- stable.

Taking the first batch that can allocate from the sorted list is proved to
pick the most preferred candidate. Among equally preferred candidates it picks
the one listed first.

The message bus is modelled over an arbitrary unit-of-work state `S` and an
arbitrary handler type `H`. `invoke(h, m, s)` stands for one handler call
followed, when the handler returns, by `uow.collect_new_events()`. It gives
either the handler's result, the collected messages and the new state, or the
raised exception and the state it left behind. `handle` returns a ghost
`trace` of every processed message. It is proved that:

- each step dispatched its message in the state the previous step left;
- the processed messages are, in order, the initial message followed by
  everything that was appended (breadth-first, first in, first out);
- the results are the command results in processing order;
- an abort happens exactly at the first failed step.

Dates are integers: an eta is `Option<int>`, and `None` means warehouse
stock.

Both `allocate`s, as written, can give one order line to two batches when it
is allocated twice. The model keeps them as written, exhibits the double
allocation, and adds an idempotent `AllocateOnce` beside each (see Findings).

## Model

| member | source | states |
|---|---|---|
| OrderLines.SumQtyRemove | allocation/domain/model.py:110-112 | the total quantity of a set of lines is any one line's quantity plus the total of the rest, so the sum does not depend on iteration order |
| OrderLines.SumQtyAdd | allocation/domain/model.py:99-101 | adding a line not yet in the set adds exactly its quantity to the total |
| OrderLines.SumQty | allocation/domain/model.py:110-112 | `sum(line.qty for line in lines)` over a set, as a definition that picks any line first; its properties are those of SumQtyRemove, SumQtyAdd and SumQtyBounds |
| OrderLines.SumQtyBounds | allocation/domain/model.py:110-116 | when every line has a non-negative quantity, the total is non-negative and at least the quantity of each line |
| Preference.LaterIsStrictWeakOrder | allocation/domain/model.py:89-94 | `__gt__` on etas is irreflexive, asymmetric and transitive, and its incomparability is transitive, so `sorted` by it is well defined |
| Preference.Later | allocation/domain/model.py:89-94 | `__gt__` on etas: warehouse stock (no eta) is never later, a shipment is later than warehouse stock, and two shipments compare by eta; its order properties are those of LaterIsStrictWeakOrder |
| Preference.Insert | allocation/domain/model.py:21 | inserting into the sorted list keeps every element: the result is the old list plus the new element, as multisets |
| Preference.Sort | allocation/domain/model.py:21 | `sorted(batches)` is a permutation of the batches |
| Preference.InsertOrdered | allocation/domain/model.py:89-94 | inserting into an ordered list gives an ordered list |
| Preference.SortIsOrdered | allocation/domain/model.py:21 | after the sort, no batch is preferred less than one after it: warehouse stock first, then shipments by ascending eta |
| Preference.InsertStable | allocation/domain/model.py:89-94 | insertion keeps the relative order of elements with equal etas |
| Preference.SortIsStable | allocation/domain/model.py:21 | the sort is stable: batches with the same eta keep their list order |
| Preference.FirstIn | allocation/domain/model.py:21 | `next(...)` gives None (StopIteration) exactly when no element qualifies, and otherwise the first qualifying element |
| Preference.InsertFirst | allocation/domain/model.py:21 | the first candidate after inserting `x` is `x` when it is a candidate not later than the previous first candidate, and otherwise unchanged |
| Preference.PreferredFront | allocation/domain/model.py:89-94 | a candidate in front that is not later than the best candidate behind it is the most preferred |
| Preference.PreferredBehind | allocation/domain/model.py:89-94 | the best candidate behind stays the most preferred when the front element is a strictly later candidate or not a candidate |
| Preference.SortedChoice | allocation/domain/model.py:21 | the first candidate of the sorted batches is None exactly when there is no candidate, and otherwise the most preferred candidate, the earliest listed among ties |
| Preference.WarehouseFirst | model.py:62-67 | when a warehouse batch can allocate, a warehouse batch is chosen |
| Preference.EarliestShipmentFirst | model.py:14 | with only shipments able to allocate, the chosen one has the smallest eta |
| Allocation.EqualsIsByReference | allocation/domain/model.py:81-84 | Batch equality compares references only; it is an equivalence, and a non-Batch is never equal |
| Allocation.Batch.Equals | allocation/domain/model.py:81-84 | every batch equals itself, and a batch equals only a Batch with the same reference |
| Allocation.Batch.constructor | allocation/domain/model.py:71-76 | a new batch has the given reference, sku, eta and quantity and no allocations |
| Allocation.Batch.AllocatedQuantity | allocation/domain/model.py:110-112 | the loop's sum equals the total quantity of the allocation set |
| Allocation.Batch.AvailableQuantity | allocation/domain/model.py:114-116 | available quantity is purchased quantity minus the total allocated quantity |
| Allocation.Batch.CanAllocate | allocation/domain/model.py:96-97 | true exactly when the skus agree and the available quantity is at least the line's quantity |
| Allocation.Batch.Allocate | allocation/domain/model.py:99-101 | the line is added exactly when it can be allocated, and nothing changes otherwise; re-allocating a present line changes nothing; a new line lowers availability by its quantity |
| Allocation.Batch.Deallocate | allocation/domain/model.py:103-105 | the line is removed if present, and nothing changes otherwise; a removed line raises availability by its quantity |
| Allocation.Batch.DeallocateOne | allocation/domain/model.py:107-108 | an empty batch raises KeyError and stays empty; otherwise one allocated line is removed and returned |
| Allocation.Reallocations | allocation/domain/model.py:42-44 | one `Allocate(orderid, sku, qty)` command per removed line, in removal order |
| Allocation.FirstAllocatable | allocation/domain/model.py:21 | the loop finds the first batch in the list that can allocate the line, or none |
| Allocation.FindNamed | allocation/domain/model.py:38 | the loop finds the first batch in the list whose reference is `ref`, or none (StopIteration) |
| Allocation.ReorderedCandidates | allocation/domain/model.py:21 | sorting the batches does not change which of them can take a line |
| Allocation.PopOneMore | allocation/domain/model.py:40-44 | popping one more line of an over-committed batch removes just that line, keeps every pop justified by over-commitment, and adds one `Allocate` command |
| Allocation.Product.constructor | allocation/domain/model.py:13-17 | a new product has the given sku, batches and version and no events |
| Allocation.Product.Choice | allocation/domain/model.py:21 | the batch `allocate` picks is None exactly when no batch can take the line, and otherwise the most preferred batch that can |
| Allocation.Product.Allocate | allocation/domain/model.py:19-35 | on success: the line goes to the most preferred batch that can take it and to no other, the reference of that batch is returned, the version rises by exactly 1, and exactly one `Allocated` event is recorded. With no such batch: None is returned, one `OutOfStock(sku)` event is recorded, and the version and every batch are unchanged |
| Allocation.Product.AllocateOnce | allocation/domain/model.py:19-35 | the idempotent `allocate` (see Findings): a line some batch already holds returns that batch's reference and changes no batch, version or event; any other line is allocated exactly as by Allocate; afterwards the batch the line went to is the first one holding it, and after an out-of-stock answer no batch holds the line or can take it |
| Allocation.AllocateOnceTwice | allocation/domain/model.py:19-35 | with the idempotent `allocate`, a second call with the same line returns what the first returned, the line is added to at most one batch, and the version rises at most once |
| Allocation.AllocateTwiceTakesTwoBatches | allocation/domain/model.py:19-23 | `allocate` as written, called twice with one line of 5 on a warehouse batch and a shipment of 5 each: the line ends in both batches, both have nothing left, and the version is 2 |
| Allocation.Product.ChangeBatchQuantity | allocation/domain/model.py:37-44 | an unknown reference fails with StopIteration and changes nothing. Otherwise the first batch with that reference gets the new quantity and previously allocated lines are popped while it is over-committed, never one more; one `Allocate` command is queued per popped line; with a non-negative quantity it ends with non-negative availability; a KeyError happens only for a negative quantity and then leaves the batch empty, and a negative quantity over lines of non-negative quantity always ends in KeyError. Other batches and the version are unchanged |
| Allocation.Product.ReleaseExcess | allocation/domain/model.py:40-44 | pops previously allocated lines only while the batch is over-committed, each once, queueing one `Allocate` command per line in popping order; ends with non-negative availability, or with KeyError and an empty batch, which happens only for a negative quantity and always does when every held line has a non-negative quantity |
| DomainService.EqualsIsByReference | model.py:54-57 | Batch equality compares references only, and is an equivalence |
| DomainService.Batch.constructor | model.py:47-52 | a new batch has the given reference, sku, eta and quantity and no allocations |
| DomainService.Batch.Equals | model.py:54-57 | every batch equals itself, and a batch equals only a Batch with the same reference |
| DomainService.Batch.AllocatedQuantity | model.py:80-82 | the loop's sum equals the total quantity of the allocation set |
| DomainService.Batch.AvailableQuantity | model.py:84-86 | purchased quantity minus the total allocated quantity |
| DomainService.Batch.CanAllocate | model.py:69-70 | true exactly when the skus agree and enough is available |
| DomainService.Batch.Allocate | model.py:72-74 | adds the line exactly when it can be allocated, and nothing changes otherwise |
| DomainService.Batch.Deallocate | model.py:76-78 | removes a present line; a no-op for an absent one |
| DomainService.FirstAllocatable | model.py:13-15 | the first batch in the list that can allocate the line, or none |
| DomainService.ReorderedCandidates | model.py:14 | sorting the batches does not change which of them can take a line |
| DomainService.Choice | model.py:13-15 | the batch `allocate` picks is None exactly when no batch can take the line, and otherwise the most preferred batch that can |
| DomainService.Allocate | model.py:11-19 | returns the reference of the most preferred batch that can take the line, and that batch now holds it; with no such batch, raises `OutOfStock` with the message `Out of stock for sku <sku>` and no batch changes |
| DomainService.AllocateOnce | model.py:11-19 | the idempotent `allocate` (see Findings): a line some batch already holds returns that batch's reference and changes no batch; any other line is allocated exactly as by Allocate; afterwards the batch the line went to is the first one holding it, and after an out-of-stock answer no batch holds the line or can take it |
| DomainService.AllocateOnceTwice | model.py:11-19 | with the idempotent `allocate`, a second call with the same line returns what the first returned and the line is added to at most one batch |
| DomainService.AllocateTwiceTakesTwoBatches | model.py:13-17 | `allocate(line, batches)` as written, called twice with one line of 5 on a warehouse batch and a shipment of 5 each: the line ends in both batches and both have nothing left |
| MessageBus.HandleEvent | allocation/service_layer/messagebus.py:35-47 | runs every registered handler in list order; the messages of those that return are appended to the queue; handlers that raise an `Exception` are skipped; a missing table entry is the only failure |
| MessageBus.RunEventHandlers | allocation/service_layer/messagebus.py:40-47 | the handler loop of `handle_event` as a definition: each handler runs on the state the previous one left, the messages of those that return are collected in order, and those that raise add nothing; its properties are those of RunEventHandlersConcat and RaisingEventHandlerIsSkipped |
| MessageBus.Dispatch | allocation/service_layer/messagebus.py:20-27 | one pass of `handle`'s loop body as a definition: an event goes through its handler list, a command to its handler, and anything else fails; its properties are those of HandleEvent, HandleCommand, Process and RegisteredTablesAreComplete |
| MessageBus.HandleCommand | allocation/service_layer/messagebus.py:53-66 | runs the one registered handler; on return, appends what was collected and yields its result; a raised exception or missing entry is a failure |
| MessageBus.Process | allocation/service_layer/messagebus.py:20-27 | an event goes to handle_event, a command to handle_command, anything else fails; the queue grows only by what the handlers collected |
| MessageBus.Handle | allocation/service_layer/messagebus.py:13-28 | returns exactly the outcome and state of the Drain reference definition. Every step dispatches its message in the state the previous one left. Messages are processed first in, first out: the initial message, then all appended messages in order. When the queue empties there was no failure and the results are the command results in processing order. An abort happens at the first failed step and processes nothing after it |
| MessageBus.Drain | allocation/service_layer/messagebus.py:13-28 | the reference definition of `handle`: an empty queue completes with the results so far, spent fuel stops, a failed dispatch aborts with its failure, and otherwise the head is dispatched and the rest of the queue followed by what it appended is drained; Handle is proved to return exactly its outcome and state |
| MessageBus.DrainResultsGrow | allocation/service_layer/messagebus.py:13-28 | when a drain completes, the results it started with are a prefix of those it returns, and each processed message adds at most one |
| MessageBus.DrainStep | allocation/service_layer/messagebus.py:19-27 | draining a non-empty queue is one dispatch of its head followed by draining the rest plus what that dispatch appended, or an abort with the dispatch's failure |
| MessageBus.AbortedAt | allocation/service_layer/messagebus.py:19-27 | a run whose last step, and only it, failed is reported as aborted with that failure, its processed messages a prefix of those queued |
| MessageBus.ProgressStep | allocation/service_layer/messagebus.py:19-25 | taking the queue's head and appending the collected messages preserves the loop's first-in, first-out invariant |
| MessageBus.Stopped | allocation/service_layer/messagebus.py:19 | when the loop stops with an empty queue every queued message was processed without failure and the results are the command results; when the fuel runs out some queued message was not processed |
| MessageBus.Extend | allocation/service_layer/messagebus.py:19-25 | one more processed message extends the processed, appended and result sequences by exactly that step's part |
| MessageBus.RunEventHandlersConcat | allocation/service_layer/messagebus.py:40-47 | running a concatenation of handler lists runs the first list, then the second from the state the first left |
| MessageBus.RaisingEventHandlerIsSkipped | allocation/service_layer/messagebus.py:45-47 | an event handler that raises an `Exception` contributes no messages, and the handlers after it still run |
| MessageBus.EventsNeverAbort | allocation/service_layer/messagebus.py:40-47 | an event with a registered type never fails, whatever `Exception` its handlers raise |
| MessageBus.RegisteredTablesAreComplete | allocation/service_layer/messagebus.py:69-85 | with the registered tables, only a raising command handler or a non-message makes dispatch fail |
| MessageBus.Handlers | allocation/service_layer/messagebus.py:69-85 | the registered tables: every event has handlers registered for its type and every command has a handler |
| UnitOfWork.PendingIsEmpty | allocation/service_layer/unit_of_work.py:33-35 | nothing is pending exactly when every seen product's event list is empty |
| UnitOfWork.AbstractUnitOfWork.Enter | allocation/service_layer/unit_of_work.py:18-19 | entering the context gives the unit of work itself |
| UnitOfWork.AbstractUnitOfWork.Rollback | allocation/service_layer/unit_of_work.py:41-47 | uncommitted work is discarded and committed work stays |
| UnitOfWork.AbstractUnitOfWork.Commit | allocation/service_layer/unit_of_work.py:25-26 | the work becomes what is committed |
| UnitOfWork.AbstractUnitOfWork.Exit | allocation/service_layer/unit_of_work.py:22-23 | exiting rolls back whether or not the block raised: committed work is kept, uncommitted work is lost |
| UnitOfWork.AbstractUnitOfWork.CommitAndExit | allocation/service_layer/unit_of_work.py:41-43 | a rollback after commit has no effect |
| UnitOfWork.AbstractUnitOfWork.CollectNewEvents | allocation/service_layer/unit_of_work.py:32-35 | yields each seen product's events in `seen` order, each list front to back, each event exactly once; afterwards no event is pending, so a second collection yields nothing; batches and versions are untouched |

## Left out

- MessageBus.Handle: takes a `fuel` bound and stops with `OutOfFuel` after that many messages. A cascade of handlers can go on forever, and the source loop has no bound. Within the bound, every property above holds.
- Handlers are abstract. The `handlers` module is not part of this model, so each handler is an uninterpreted `invoke` function over an abstract state.
- In the message bus, the unit of work `uow` is abstract. `collect_new_events` is folded into `invoke`; it is modelled on its own in `UnitOfWork`.
- Logging in the message bus is left out; it has no effect on the outcome.
- MessageBus.EventsNeverAbort: holds only for handlers that raise an `Exception`. A handler's exception type `E` stands for the subclasses of `Exception`, the ones `except Exception` catches. A `BaseException` that is not an `Exception` (`KeyboardInterrupt`, `SystemExit`) escapes `handle_event` and `handle` in the source. The model has no such exit, so `HandleEvent` and `RaisingEventHandlerIsSkipped` also describe only `Exception`s.
- In `handle_event`, a missing table entry raises `KeyError` outside the `try`; in `handle_command` it is raised inside the `try` and raised again. Both are the single failure `NoHandler`.
- Exceptions are values. The exception object and its message are kept only where the source fixes them (`OutOfStock` in `model.py`, StopIteration and KeyError in `change_batch_quantity`).
- Python passes the same `queue` list to `handle_event` and `handle_command`. The model passes the queue in and gets the extended queue back.
- `collect_new_events` is a generator. It is modelled as an eager drain, because `queue.extend` consumes it completely.
- The repository is reduced to `products.seen`: a list without repetitions, in iteration order. The source's repository has no `seen` attribute (allocation/adapters/repository.py). Its `add` and `get` are not part of this model.
- `_commit` and `rollback` are abstract in the source. Their store is a pair of states of an arbitrary type: committed and working.
- `SqlAlchemyUnitOfWork`, the session factory, the ORM mapping, the Flask entry point and configuration are persistence and web plumbing, and are left out.
- `__repr__` and `__hash__` are not modelled; hashing only serves the Python sets and dicts.
- `datetime.date` is an integer, and the order of dates is the order of integers.
- `commands.py` and `events.py` are not part of this model. Their message fields follow the way the domain constructs them.
- `DeallocateOne`: `set.pop()` returns an arbitrary line, so the model makes a nondeterministic choice. The order in which `change_batch_quantity` pops lines is therefore unspecified.

## Findings

| source | as written | input that shows it | evidently intended | confidence | as-written member | corrected member |
|---|---|---|---|---|---|---|
| allocation/domain/model.py:19-32 | `Product.allocate` picks the first sorted batch whose `can_allocate` holds and never asks whether a batch already holds the line. `can_allocate` (lines 96-97) counts the line's own earlier allocation against its batch. A repeated call can therefore give the same line to a second batch. Even when it picks the same batch again, it bumps the version and records another `Allocated` event | warehouse batch `a` and shipment `b` (eta 1) of 5 units each, line `o1` of 5 units, `allocate` called twice: the line is in both `a` and `b`, 10 units are taken for a line of 5, and the version is 2 | allocating the same line twice is a no-op: the second call returns the reference of the batch that already holds the line and changes nothing | not executed | Allocation.AllocateTwiceTakesTwoBatches | Allocation.Product.AllocateOnce |
| model.py:11-19 | the free `allocate(line, batches)` picks the first sorted batch whose `can_allocate` holds and never asks whether a batch already holds the line, so a repeated call can give the same line to a second batch | the same two batches and line, `allocate` called twice: the line is in both `a` and `b` | the second call returns the reference of the batch that already holds the line and changes nothing | not executed | DomainService.AllocateTwiceTakesTwoBatches | DomainService.AllocateOnce |
