# Batch span processor: a verified model

This project models the batching engine of the OpenTelemetry Java SDK's
`BatchSpanProcessor` and its inner `Worker`. Producers end spans, and sampled
spans go into a bounded FIFO queue that drops on full. A single worker drains
the queue into a batch. It exports the batch when the batch is full or the
export deadline has passed. A force-flush pushes everything queued to the
exporter. Shutdown flushes, stops the worker and shuts the exporter down.

The model treats the engine as a sequential state machine. Each method is one
atomic step of the thread that runs it:

- producers call `OnEnd`, `ForceFlush` and `Shutdown` on the processor;
- the worker thread runs `RunWorker` (`Worker.RunIteration`), which is one pass
  of its `run` loop.

The lock, the condition variable and the clock are abstracted away. A clock
reading is a plain integer parameter: `now` is the reading compared with the
deadline, and `later` is the reading used to re-arm it.

Files:

- `collaborators.dfy` (module `Collaborators`): the outside parties the engine
  talks to. `ResultCode` stands for `CompletableResultCode`: a handle with
  identity that is resolved once. `Exporter` stands for the span exporter. It
  records every batch handed to it and answers the n-th export call with
  `respond(n)`, which is one of `Success`, `Failure` (also covering a timeout)
  or `Threw`. It answers its shutdown with `shutdownSucceeds`. These answers
  are inputs to the model, so every exporter behaviour is one choice of them.
- `batching.dfy` (module `Batching`): the value-level rules the worker is proved
  against:
  - `Admit` / `AdmitAll`: the drop-on-full admission;
  - `FlushExports`: the batches a flush hands to the exporter;
  - `Flatten`: the records of a sequence of batches;
  - `Delivered`: what the exported counter counts.
- `processor.dfy` (module `Processor`): the classes `Worker` and
  `BatchSpanProcessor`. Their fields are the source's fields, and their methods
  update those fields in place.
- `scenarios.dfy` (module `Scenarios`): callers proved from the contracts
  alone. One is a burst into a queue of capacity 5 with batch size 2: the sixth
  span is dropped, and a forced flush exports `[1, 2]`, `[3, 4]`, `[5]`. The
  other calls shutdown twice.

The worker's invariant `Worker.Valid` holds between all steps, and
`Worker.Consistent` holds at every exporter call. Together they give:

- `queueSize == |queue|`, and `queueSize <= maxQueueSize` whenever the
  capacity is not negative;
- the batch stays below `maxExportBatchSize` between steps, and never goes
  above it;
- FIFO: the exported batches flattened, then the batch, then the queue, form
  exactly the spans ever accepted, in arrival order;
- every exported batch is non-empty and holds at most `maxExportBatchSize`
  spans;
- the exported counter equals the total size of the batches whose export
  succeeded;
- accepted plus dropped equals the number of `addSpan` calls;
- the flush slot holds a pending handle or nothing;
- `continueWork` is false exactly when the exporter has been shut down, and
  that happens at most once.

`BatchSpanProcessor.Valid` adds one fact: the `isShutdown` guard is set exactly
when the worker's shutdown has started.

Consequences of the code that the model keeps:

- Repeated `shutdown` calls do not share one outcome. Only the first returns
  the combined result, and every later call gets a fresh success handle
  (lines 106-107), even if the first one fails (`Scenarios.ShutdownTwice`
  shows exactly that).
- `forceFlush` always returns a pending handle, which the worker resolves on
  its next pass (lines 205-206, 240). With an empty queue and an empty batch
  that pass makes no export call; a partial batch held by the worker is
  exported by it (line 239).
- Once the worker's loop has stopped, a new force-flush handle is never
  resolved.
- A capacity of 0 is accepted and drops every sampled span
  (`Scenarios.ZeroCapacityDropsAll`).

## Model

| member | source | states |
|---|---|---|
| `Processor.BatchSpanProcessor.constructor` | sdk/trace/src/main/java/io/opentelemetry/sdk/trace/export/BatchSpanProcessor.java:65-81 | builds the worker with the given limits (any queue capacity, 0 and negative included; a positive batch size) and starts its loop: queue and batch empty, slot empty, counters zero, loop running, deadline armed at `now + scheduleDelayNanos`, guard clear |
| `Processor.BatchSpanProcessor.OnEnd` | sdk/trace/src/main/java/io/opentelemetry/sdk/trace/export/BatchSpanProcessor.java:92-97 | an unsampled span changes nothing and wakes no one; a sampled span goes through `addSpan`'s drop-on-full admission |
| `Processor.BatchSpanProcessor.Shutdown` | sdk/trace/src/main/java/io/opentelemetry/sdk/trace/export/BatchSpanProcessor.java:105-110 | the first call sets the guard and starts the worker's shutdown (pending result, completion registered on the flush handle, and a flush already pending in the slot kept there, so its handle is resolved by the same pass as the shutdown: `Scenarios.ShutdownJoinsPendingFlush`); every later call returns a fresh succeeded handle and leaves the worker untouched; the exporter is never touched here |
| `Processor.BatchSpanProcessor.ForceFlush` | sdk/trace/src/main/java/io/opentelemetry/sdk/trace/export/BatchSpanProcessor.java:113-115 | returns the one pending flush handle: the existing one if the slot is occupied, otherwise a fresh one now in the slot |
| `Processor.BatchSpanProcessor.RunWorker` | sdk/trace/src/main/java/io/opentelemetry/sdk/trace/export/BatchSpanProcessor.java:204-228 | a pass of the worker thread keeps the processor invariant; a requested flush is resolved to success after all queued spans were handed over in `FlushExports` order; a registered shutdown completes, stopping the loop and shutting the exporter down exactly once |
| `Processor.Worker.constructor` | sdk/trace/src/main/java/io/opentelemetry/sdk/trace/export/BatchSpanProcessor.java:139-182 | for any queue capacity: empty queue and batch, zero counters, empty slot, `continueWork` set, and (the first statement of `run`, line 203) deadline at `now + scheduleDelayNanos` |
| `Processor.Worker.AddSpan` | sdk/trace/src/main/java/io/opentelemetry/sdk/trace/export/BatchSpanProcessor.java:184-199 | at `queueSize == maxQueueSize` the span is dropped, the drop count rises by one, and queue and size are unchanged; otherwise the span is appended at the tail and the size rises by one; the early wake fires exactly when the new size is at least `maxExportBatchSize`; the invariant (size within capacity, accepted + dropped = attempts) is kept |
| `Processor.Worker.MoveHead` | sdk/trace/src/main/java/io/opentelemetry/sdk/trace/export/BatchSpanProcessor.java:221-222 | the queue head moves to the batch tail and `queueSize` follows the queue |
| `Processor.Worker.Drain` | sdk/trace/src/main/java/io/opentelemetry/sdk/trace/export/BatchSpanProcessor.java:220-223 | batch ++ queue is unchanged; it stops with the queue empty or the batch exactly full; the batch is the first `min(total, maxExportBatchSize)` spans of old batch ++ old queue |
| `Processor.Worker.DrainAndExport` | sdk/trace/src/main/java/io/opentelemetry/sdk/trace/export/BatchSpanProcessor.java:220-227 | after draining, an export happens if and only if the batch is full or `now >= nextExportTime`; then the drained batch (if non-empty) is the one export call, the batch is cleared and the deadline becomes `later + scheduleDelayNanos`; otherwise batch, exporter and deadline are untouched |
| `Processor.Worker.ExportIfDue` | sdk/trace/src/main/java/io/opentelemetry/sdk/trace/export/BatchSpanProcessor.java:224-227 | with the batch drained, an export happens if and only if the batch is exactly full or `now >= nextExportTime`; then the batch (if non-empty) is the one export call, the batch is cleared and the deadline becomes `later + scheduleDelayNanos`, which leaves the batch below the limit; otherwise batch, exporter and deadline are untouched |
| `Processor.Worker.RunIteration` | sdk/trace/src/main/java/io/opentelemetry/sdk/trace/export/BatchSpanProcessor.java:204-228 | with no flush requested: the drain and export decision above; with one requested: everything is flushed first, the handle succeeds, the slot is cleared, and the deadline is re-armed only if it had passed; a registered shutdown completes; the invariant is kept |
| `Processor.Worker.FlushStep` | sdk/trace/src/main/java/io/opentelemetry/sdk/trace/export/BatchSpanProcessor.java:232-238 | one pass of the flush loop removes one queued span and keeps "exported so far ++ still to export" equal to the flush's `FlushExports` |
| `Processor.Worker.ExportAllQueued` | sdk/trace/src/main/java/io/opentelemetry/sdk/trace/export/BatchSpanProcessor.java:232-239 | on exit the queue and batch are empty and `queueSize` is 0, and the exporter received exactly `FlushExports(old batch, old queue)` |
| `Processor.Worker.Flush` | sdk/trace/src/main/java/io/opentelemetry/sdk/trace/export/BatchSpanProcessor.java:231-242 | the same, and the requested handle is resolved to success and the slot emptied whatever the export outcomes; a shutdown registered on the handle completes (loop stopped, exporter shut down once, shutdown result = exporter shutdown outcome) |
| `Processor.Worker.UpdateNextExportTime` | sdk/trace/src/main/java/io/opentelemetry/sdk/trace/export/BatchSpanProcessor.java:244-246 | the deadline becomes the clock reading plus `scheduleDelayNanos` |
| `Processor.Worker.CompleteShutdown` | sdk/trace/src/main/java/io/opentelemetry/sdk/trace/export/BatchSpanProcessor.java:253-263 | sets `continueWork` to false, calls the exporter's shutdown once, and resolves the shutdown result to success if and only if the flush result and the exporter shutdown both succeeded |
| `Processor.Worker.Shutdown` | sdk/trace/src/main/java/io/opentelemetry/sdk/trace/export/BatchSpanProcessor.java:248-267 | requests a flush (joining a pending one) and registers the completion on that flush handle; returns a fresh pending result; the exporter is not called yet |
| `Processor.Worker.RequestFlush` | sdk/trace/src/main/java/io/opentelemetry/sdk/trace/export/BatchSpanProcessor.java:270-279 | compare-and-set: a fresh pending handle is installed and the worker signalled only if the slot was empty; an occupied slot is left unchanged |
| `Processor.Worker.PendingFlushResult` | sdk/trace/src/main/java/io/opentelemetry/sdk/trace/export/BatchSpanProcessor.java:280-284 | returns the handle in the slot, or a fresh succeeded handle when the slot is empty |
| `Processor.Worker.ForceFlush` | sdk/trace/src/main/java/io/opentelemetry/sdk/trace/export/BatchSpanProcessor.java:269-285 | the result is the pending handle in the slot: the existing one if there was one, otherwise a fresh one; at most one flush is ever pending |
| `Processor.Worker.ForceFlushRacedByWorker` | sdk/trace/src/main/java/io/opentelemetry/sdk/trace/export/BatchSpanProcessor.java:280-284 | the benign race: if the worker completes the flush between the compare-and-set and the read, the caller gets a fresh succeeded handle, and by then every queued span has been handed to the exporter in `FlushExports` order |
| `Processor.Worker.ExportCurrentBatch` | sdk/trace/src/main/java/io/opentelemetry/sdk/trace/export/BatchSpanProcessor.java:287-305 | an empty batch changes nothing and calls nothing; a non-empty batch is handed to the exporter whole, exactly once; the exported counter rises by the batch size only on `Success`; the batch is empty afterwards on success, failure and exception alike |
| `Processor.Worker.HandBatchToExporter` | sdk/trace/src/main/java/io/opentelemetry/sdk/trace/export/BatchSpanProcessor.java:292-304 | a non-empty batch is appended to the exporter's log as one call; the exported counter rises by its size only when that call's outcome is `Success`; the batch is cleared for every outcome, a thrown exception included; FIFO order, batch sizes and the counter's accounting are kept |
| `Processor.ExportedAtMostAccepted` | sdk/trace/src/main/java/io/opentelemetry/sdk/trace/export/BatchSpanProcessor.java:295-297 | the exported counter never exceeds the number of accepted spans, and stays 0 with an exporter that never succeeds |
| `Batching.AdmitAllFillsThenDrops` | sdk/trace/src/main/java/io/opentelemetry/sdk/trace/export/BatchSpanProcessor.java:184-189 | a burst of `addSpan` calls appends the first `min(burst, free capacity)` spans in order and drops all the others, counting each drop |
| `Batching.AdmitAllAccounting` | sdk/trace/src/main/java/io/opentelemetry/sdk/trace/export/BatchSpanProcessor.java:184-189 | over any burst the queue never exceeds capacity, keeps its earlier spans at the front, and enqueued plus dropped equals the number of attempts |
| `Batching.AdmitPastCapacity` | sdk/trace/src/main/java/io/opentelemetry/sdk/trace/export/BatchSpanProcessor.java:185-188 | a queue already longer than the capacity never matches the `==` test and takes the span, counting no drop |
| `Batching.AdmitAllPastCapacity` | sdk/trace/src/main/java/io/opentelemetry/sdk/trace/export/BatchSpanProcessor.java:184-189 | a queue longer than the capacity takes a whole burst in order and drops nothing |
| `Batching.FlushExportsInOrder` | sdk/trace/src/main/java/io/opentelemetry/sdk/trace/export/BatchSpanProcessor.java:231-239 | the batches a flush exports, concatenated, are exactly old batch ++ old queue: FIFO, with nothing lost or repeated |
| `Batching.FlushExportsChunked` | sdk/trace/src/main/java/io/opentelemetry/sdk/trace/export/BatchSpanProcessor.java:231-239 | every batch a flush exports is non-empty and has at most `maxExportBatchSize` spans |
| `Batching.FlushExportsFull` | sdk/trace/src/main/java/io/opentelemetry/sdk/trace/export/BatchSpanProcessor.java:232-238 | every batch of a flush except the last is exactly full |
| `Batching.DeliveredAtMostSent` | sdk/trace/src/main/java/io/opentelemetry/sdk/trace/export/BatchSpanProcessor.java:295-297 | the successful-export count never exceeds the number of spans handed to the exporter |
| `Batching.DeliveredWhenAllFail` | sdk/trace/src/main/java/io/opentelemetry/sdk/trace/export/BatchSpanProcessor.java:295-301 | failures and exceptions never count: an exporter that never succeeds leaves the count at 0 |
| `Batching.DeliveredWhenAllSucceed` | sdk/trace/src/main/java/io/opentelemetry/sdk/trace/export/BatchSpanProcessor.java:295-297 | an exporter that always succeeds has every span it received counted |
| `Scenarios.FlushOfFive` | sdk/trace/src/main/java/io/opentelemetry/sdk/trace/export/BatchSpanProcessor.java:231-239 | five queued spans with batch size 2 are flushed as `[1, 2]`, `[3, 4]`, `[5]` |

## Left out

- Threads, `ReentrantLock`/`Condition`, `awaitNanos` and the atomic and `volatile` fields: each method is one atomic step. Races inside a step are not modelled, such as two producers passing the capacity check at once. The one documented race (slot emptied between the compare-and-set and the read) is modelled as `Worker.ForceFlushRacedByWorker`.
- The wait in `run` (lines 208-219), including the return on `InterruptedException`. `Worker.RunIteration` is one atomic step from the flush check (lines 205-207) through the drain and the export decision (lines 220-227), with the wait collapsed in between, so no producer call lands between a flush and the drain that follows it. The flush branch ending with an empty queue and batch relies on that. The halves `Worker.Flush` and `Worker.DrainAndExport` are separate methods with the same invariant, so a caller can put `OnEnd` calls between them.
- `System.nanoTime()`: replaced by the `now`/`later` parameters.
- 64-bit wrap-around of `nextExportTime` and of the counters: integers are unbounded.
- Metrics registration (lines 155-179): the dropped and exported counts are plain fields, and the queue-size observer is not modelled.
- Logging of export failures and exceptions: not behaviour.
- `CompletableResultCode` internals: the timed `join` is folded into the exporter's outcome (a timeout is `Failure`). Of `whenComplete`, only the one completion action that the worker's shutdown registers is modelled. That action runs when the flush handle is resolved. Running it at once on an already-resolved handle is not modelled, because sequentially the handle that forceFlush returns to the shutdown is always pending.
- An exporter `shutdown` that throws: its effect depends on how `CompletableResultCode` runs callbacks, which is not part of this model. The exporter shutdown answers success or failure.
- Spans and sampling: spans are opaque values of a type parameter, `toSpanData()` is the identity, and `isSampled()` is the `sampled` argument.
- The builder and `DaemonThreadFactory` are not part of this model.
- A negative `maxExportBatchSize`: the worker's constructor builds its batch with `new ArrayList<>(maxExportBatchSize)` (line 181), which throws for a negative capacity, so no processor is built (lines 71-78). The constructors' `requires 0 < maxExportBatchSize` stands in for that exception.
- A `maxExportBatchSize` of 0: the constructors require it to be positive, so this case is not modelled. With 0, the drain at line 220 never moves a span, the queue fills and then drops, and a flush exports batches of one span, which is above the limit (line 235). The invariant that the batch stays below the limit between steps cannot hold then.
- The constructors require an exporter that has not been used yet, so that the exporter's log is this processor's.
- `Processor.Worker.AddSpan`: the capacity test at line 185 is `==`, so a queue whose size is past `maxQueueSize` accepts every span until the worker drains it back (`Batching.AdmitPastCapacity`, `Batching.AdmitAllPastCapacity`). With a negative capacity this always happens, and the worker invariant then keeps only `queueSize == |queue|`. With a capacity of 0 or more the size stays within it only because each `addSpan` is one atomic step; the race in which two producers both pass the test is not modelled.
- The batch list shared with the exporter: the source passes its one reused `ArrayList` to `export` (line 293) and clears it in the `finally` (line 303), even after a timed-out `join`, so an exporter still reading it may see it emptied or refilled. The model's exporter records a copy of each batch, so "the exporter received exactly these batches" is about the values at the call.
- `onStart`, `isStartRequired` and `isEndRequired`: they only return constants and have no behaviour to model.
- `Processor.BatchSpanProcessor.RunWorker`: states the processor invariant and the flush and shutdown outcomes. The drain and deadline detail of the pass is stated on `Processor.Worker.RunIteration`.
- api/src/test/java/openconsensus/stats/NoopStatsTest.java: a test of a no-op stats recorder, with no logic of this engine.
