/** The batch span processor and its worker as a sequential state machine.
    Every method is one atomic step of the thread that runs it: producers call
    OnEnd, ForceFlush and Shutdown on the processor, and the worker thread runs
    Worker.RunIteration, one pass of its loop. The lock, the condition variable
    and the clock are gone; a clock reading is a parameter. */
module Processor {
  import opened Collaborators
  import opened Batching

  /** The completion action that Worker.shutdown registers on the flush result
      it obtained: once `flushResult` completes, the worker stops, the exporter
      is shut down and `result` is resolved. */
  datatype ShutdownContinuation = NotRegistered | AwaitingFlush(flushResult: ResultCode, result: ResultCode)

  class Worker<T> {
    const exporter: Exporter<T>
    const scheduleDelayNanos: int
    const maxExportBatchSize: int
    /** The exporter timeout. The model never reads it: an export that does
        not complete within it is a `Failure` outcome of the exporter. */
    const exporterTimeoutNanos: int
    const maxQueueSize: int

    var queue: seq<T>
    var queueSize: int
    var continueWork: bool
    var batch: seq<T>
    var flushRequested: ResultCode?
    var nextExportTime: int
    var dropped: nat
    var exported: nat
    var continuation: ShutdownContinuation

    /** Every span `addSpan` ever accepted, in arrival order. */
    ghost var accepted: seq<T>
    /** The number of `addSpan` calls so far. */
    ghost var attempts: nat

    /** The result handles the worker may resolve. */
    ghost function Codes(): set<ResultCode>
      reads this`flushRequested, this`continuation
    {
      (if flushRequested == null then {} else {flushRequested})
      + (if continuation.AwaitingFlush? then {continuation.result} else {})
    }

    /** The queue agrees with its counter and its capacity, the batch is within
        the limit, and every `addSpan` call was either accepted or dropped. */
    ghost predicate Bounded()
      reads this`queue, this`queueSize, this`batch,
            this`accepted, this`dropped, this`attempts
    {
      && 0 < maxExportBatchSize
      && queueSize == |queue|
      && (0 <= maxQueueSize ==> queueSize <= maxQueueSize)
      && |batch| <= maxExportBatchSize
      && |accepted| + dropped == attempts
    }

    /** FIFO: the batches handed to the exporter, then the batch, then the
        queue, are exactly the accepted spans in arrival order; every exported
        batch is non-empty and within the limit; the exported counter counts
        the batches whose export succeeded. */
    ghost predicate Accounted()
      reads this`batch, this`queue, this`accepted,
            this`exported, exporter`received
    {
      && Flatten(exporter.received) + batch + queue == accepted
      && Chunked(exporter.received, maxExportBatchSize)
      && exported == Delivered(exporter.received, exporter.respond)
    }

    /** The single flush slot holds an unresolved handle or nothing; a
        registered shutdown waits on that handle; the exporter is shut down at
        most once, exactly when the loop has been told to stop. */
    ghost predicate Coordinated()
      reads this`flushRequested, this`continuation, this`continueWork,
            exporter`shutdownCalls, Codes()
    {
      && (flushRequested != null ==> flushRequested.state == Pending)
      && (continuation.AwaitingFlush? ==>
            && continuation.flushResult == flushRequested
            && continuation.result != continuation.flushResult
            && continuation.result.state == Pending
            && exporter.shutdownCalls == 0)
      && exporter.shutdownCalls <= 1
      && (continueWork <==> exporter.shutdownCalls == 0)
    }

    /** The invariant at every point where the worker calls the exporter. */
    ghost predicate Consistent()
      reads this, exporter, Codes()
    {
      Bounded() && Accounted() && Coordinated()
    }

    /** The invariant between steps: a batch that reached the limit has been exported. */
    ghost predicate Valid()
      reads this, exporter, Codes()
    {
      Consistent() && |batch| < maxExportBatchSize
    }

    /** Shutdown has been requested: its completion is registered or done. */
    ghost predicate ShutdownStarted()
      reads this, exporter
    {
      continuation.AwaitingFlush? || exporter.shutdownCalls == 1
    }

    /** The worker as the processor constructs it, with `run` started at time
        `now`: its first action arms the export deadline. */
    constructor (exporter: Exporter<T>, scheduleDelayNanos: int, maxExportBatchSize: int,
                 exporterTimeoutNanos: int, maxQueueSize: int, now: int)
      requires 0 < maxExportBatchSize
      requires exporter.received == [] && exporter.shutdownCalls == 0
      ensures Valid() && !ShutdownStarted()
      ensures this.exporter == exporter && this.scheduleDelayNanos == scheduleDelayNanos
      ensures this.maxExportBatchSize == maxExportBatchSize && this.maxQueueSize == maxQueueSize
      ensures this.exporterTimeoutNanos == exporterTimeoutNanos
      ensures queue == [] && batch == [] && flushRequested == null && continueWork
      ensures dropped == 0 && exported == 0
      ensures nextExportTime == now + scheduleDelayNanos
    {
      this.exporter := exporter;
      this.scheduleDelayNanos := scheduleDelayNanos;
      this.maxExportBatchSize := maxExportBatchSize;
      this.exporterTimeoutNanos := exporterTimeoutNanos;
      this.maxQueueSize := maxQueueSize;
      queue := [];
      queueSize := 0;
      continueWork := true;
      batch := [];
      flushRequested := null;
      nextExportTime := now + scheduleDelayNanos;
      dropped := 0;
      exported := 0;
      continuation := NotRegistered;
      accepted := [];
      attempts := 0;
      new;
      FlattenOne<T>([]);
    }

    /** Offers a span to the bounded queue. A full queue drops it and counts the
        drop; otherwise it joins the tail, and `wake` reports whether the new
        size reached the export batch size (the early signal to the worker). */
    method AddSpan(span: T) returns (wake: bool)
      requires Valid()
      modifies this`queue, this`queueSize, this`dropped, this`accepted, this`attempts
      ensures Valid()
      ensures Admission(queue, dropped) == Admit(old(queue), old(dropped), span, maxQueueSize)
      ensures old(queueSize) == maxQueueSize ==> queue == old(queue) && queueSize == old(queueSize) && !wake
      ensures old(queueSize) != maxQueueSize ==> queueSize == old(queueSize) + 1 && (wake <==> queueSize >= maxExportBatchSize)
      ensures attempts == old(attempts) + 1
    {
      if queueSize == maxQueueSize {
        dropped := dropped + 1;
        wake := false;
      } else {
        queue := queue + [span];
        accepted := accepted + [span];
        queueSize := queueSize + 1;
        wake := queueSize >= maxExportBatchSize;
      }
      attempts := attempts + 1;
    }

    /** `batch.add(queue.poll())` with the matching decrement of `queueSize`. */
    method MoveHead()
      requires Valid() && queue != []
      modifies this`batch, this`queue, this`queueSize
      ensures Consistent()
      ensures batch == old(batch) + [old(queue)[0]] && queue == old(queue)[1..]
    {
      assert batch + queue == (batch + [queue[0]]) + queue[1..];
      batch := batch + [queue[0]];
      queue := queue[1..];
      queueSize := queueSize - 1;
    }

    /** The drain in `run`: moves spans from the queue head to the batch tail
        until the queue is empty or the batch is full. */
    method Drain()
      requires Valid()
      modifies this`batch, this`queue, this`queueSize
      ensures Consistent()
      ensures batch + queue == old(batch) + old(queue)
      ensures queue == [] || |batch| == maxExportBatchSize
      ensures var k := Min(|old(batch)| + |old(queue)|, maxExportBatchSize);
        batch == (old(batch) + old(queue))[..k] && queue == (old(batch) + old(queue))[k..]
    {
      ghost var all := batch + queue;
      while queue != [] && |batch| < maxExportBatchSize
        invariant Consistent()
        invariant batch + queue == old(batch) + old(queue)
        decreases |queue|
      {
        MoveHead();
      }
      assert |batch| == Min(|all|, maxExportBatchSize);
      assert batch == (batch + queue)[..|batch|];
    }

    /** The try/finally of `exportCurrentBatch`: the whole non-empty batch is
        handed to the exporter once, the exported counter grows by its size only
        on success, and the batch is cleared whatever the outcome, a thrown
        exception included. */
    method HandBatchToExporter()
      requires Consistent() && batch != []
      modifies this`batch, this`exported, exporter
      ensures Consistent()
      ensures batch == []
      ensures exporter.received == old(exporter.received) + [old(batch)]
      ensures exported
           == old(exported) + (if exporter.respond(|old(exporter.received)|) == Success then |old(batch)| else 0)
      ensures exporter.shutdownCalls == old(exporter.shutdownCalls)
    {
      ghost var log := exporter.received;
      ghost var sent := batch;
      FlattenSnoc(log, sent);
      DeliveredSnoc(log, sent, exporter.respond);
      ChunkedSnoc(log, sent, maxExportBatchSize);
      var outcome := exporter.Export(batch);
      if outcome == Success {
        exported := exported + |batch|;
      }
      batch := [];
      assert Flatten(exporter.received) + batch + queue == Flatten(log) + sent + queue;
    }

    /** Exports the batch unless it is empty; an empty batch changes nothing and
        calls nothing. */
    method ExportCurrentBatch()
      requires Consistent()
      modifies this`batch, this`exported, exporter
      ensures Consistent()
      ensures batch == []
      ensures old(batch) == [] ==> exported == old(exported) && unchanged(exporter)
      ensures old(batch) != [] ==> exporter.received == old(exporter.received) + [old(batch)]
      ensures old(batch) != [] ==>
        exported == old(exported) + (if exporter.respond(|old(exporter.received)|) == Success then |old(batch)| else 0)
      ensures exporter.shutdownCalls == old(exporter.shutdownCalls)
    {
      if batch == [] {
        return;
      }
      HandBatchToExporter();
    }

    /** Re-arms the export deadline from the clock reading `now`. */
    method UpdateNextExportTime(now: int)
      modifies this`nextExportTime
      ensures nextExportTime == now + scheduleDelayNanos
    {
      nextExportTime := now + scheduleDelayNanos;
    }

    /** The completion action of a shutdown, run once the flush result it
        waits on is resolved: stop the loop, shut the exporter down once, and
        resolve the shutdown result to success only if both succeeded. */
    method CompleteShutdown()
      requires continuation.AwaitingFlush?
      requires continuation.result != continuation.flushResult
      modifies this`continueWork, this`continuation, exporter, continuation.result
      ensures !continueWork && continuation == NotRegistered
      ensures exporter.shutdownCalls == old(exporter.shutdownCalls) + 1
      ensures exporter.received == old(exporter.received)
      ensures old(continuation.result.state) == Pending ==>
        old(continuation).result.state
          == (if old(continuation.flushResult.state) == Succeeded && exporter.shutdownSucceeds then Succeeded else Failed)
    {
      var flushResult, result := continuation.flushResult, continuation.result;
      continueWork := false;
      var shutdownOk := exporter.Shutdown();
      if flushResult.state != Succeeded || !shutdownOk {
        result.Fail();
      } else {
        result.Succeed();
      }
      continuation := NotRegistered;
    }

    /** One pass of the loop in `flush`: the queue head joins the batch, which
        is exported at once if that fills it. What is still to be exported
        together with what was exported stays the same. */
    method FlushStep()
      requires Valid() && queue != []
      modifies this`batch, this`queue, this`queueSize, this`exported, exporter
      ensures Valid()
      ensures |queue| == |old(queue)| - 1
      ensures exporter.received + FlushExports(batch, queue, maxExportBatchSize)
           == old(exporter.received) + FlushExports(old(batch), old(queue), maxExportBatchSize)
      ensures exporter.shutdownCalls == old(exporter.shutdownCalls)
    {
      var grown := batch + [queue[0]];
      var rest := queue[1..];
      FlushExportsStep(batch, queue, maxExportBatchSize);
      MoveHead();
      if |batch| >= maxExportBatchSize {
        ExportCurrentBatch();
        assert exporter.received + FlushExports(batch, queue, maxExportBatchSize)
            == old(exporter.received) + ([grown] + FlushExports([], rest, maxExportBatchSize));
      }
    }

    /** The loop of `flush` and its final export: every queued span goes out,
        in batches of at most the batch size, and nothing stays behind. */
    method ExportAllQueued()
      requires Valid()
      modifies this`batch, this`queue, this`queueSize, this`exported, exporter
      ensures Valid()
      ensures queue == [] && batch == [] && queueSize == 0
      ensures exporter.received
           == old(exporter.received) + FlushExports(old(batch), old(queue), maxExportBatchSize)
      ensures exporter.shutdownCalls == old(exporter.shutdownCalls)
    {
      while queue != []
        invariant Valid()
        invariant exporter.received + FlushExports(batch, queue, maxExportBatchSize)
               == old(exporter.received) + FlushExports(old(batch), old(queue), maxExportBatchSize)
        invariant exporter.shutdownCalls == old(exporter.shutdownCalls)
        decreases |queue|
      {
        FlushStep();
      }
      ExportCurrentBatch();
    }

    /** Exports everything queued, then resolves the requested flush to success
        (running the shutdown completion registered on it, if any) and empties
        the slot. Export failures do not fail the flush. */
    method Flush()
      requires Valid() && flushRequested != null
      modifies this`batch, this`queue, this`queueSize, this`exported, this`flushRequested,
               this`continuation, this`continueWork, exporter, Codes()
      ensures Valid()
      ensures queue == [] && batch == [] && queueSize == 0
      ensures exporter.received
           == old(exporter.received) + FlushExports(old(batch), old(queue), maxExportBatchSize)
      ensures old(flushRequested).state == Succeeded && flushRequested == null
      ensures continuation == NotRegistered
      ensures old(continuation).AwaitingFlush? ==>
        && !continueWork && exporter.shutdownCalls == 1
        && old(continuation).result.state == (if exporter.shutdownSucceeds then Succeeded else Failed)
      ensures old(continuation).NotRegistered? ==>
        continueWork == old(continueWork) && exporter.shutdownCalls == old(exporter.shutdownCalls)
      ensures ShutdownStarted() == old(ShutdownStarted())
    {
      ExportAllQueued();
      var code := flushRequested;
      code.Succeed();
      if continuation.AwaitingFlush? {
        CompleteShutdown();
      }
      flushRequested := null;
    }

    /** The compare-and-set of `forceFlush`: a fresh pending handle goes into
        the slot only if the slot is empty, and only then is the worker woken. */
    method RequestFlush() returns (signalled: bool)
      requires Valid()
      modifies this`flushRequested
      ensures Valid()
      ensures signalled == (old(flushRequested) == null)
      ensures old(flushRequested) != null ==> flushRequested == old(flushRequested)
      ensures old(flushRequested) == null ==>
        flushRequested != null && fresh(flushRequested) && flushRequested.state == Pending
    {
      var flushResult := new ResultCode();
      signalled := flushRequested == null;
      if signalled {
        flushRequested := flushResult;
      }
    }

    /** The second read of the slot in `forceFlush`: the handle it holds, or,
        when a flush completed and emptied the slot in the meantime, a handle
        that has already succeeded. */
    method PendingFlushResult() returns (r: ResultCode)
      ensures flushRequested != null ==> r == flushRequested
      ensures flushRequested == null ==> fresh(r) && r.state == Succeeded
    {
      if flushRequested == null {
        r := new ResultCode.OfSuccess();
      } else {
        r := flushRequested;
      }
    }

    /** Requests a flush of everything queued. At most one flush is pending: a
        request that finds one joins it and gets the same handle back. */
    method ForceFlush() returns (r: ResultCode)
      requires Valid()
      modifies this`flushRequested
      ensures Valid()
      ensures flushRequested == r && r.state == Pending
      ensures old(flushRequested) != null ==> r == old(flushRequested)
      ensures old(flushRequested) == null ==> fresh(r)
    {
      var signalled := RequestFlush();
      r := PendingFlushResult();
    }

    /** `forceFlush` when the worker thread runs its flush between the
        compare-and-set and the second read of the slot: the caller gets a
        handle that has already succeeded, and by then everything that was
        queued has been offered to the exporter. */
    method ForceFlushRacedByWorker() returns (r: ResultCode)
      requires Valid() && continueWork
      modifies this`batch, this`queue, this`queueSize, this`exported, this`flushRequested,
               this`continuation, this`continueWork, exporter, Codes()
      ensures Valid()
      ensures fresh(r) && r.state == Succeeded
      ensures queue == [] && batch == []
      ensures exporter.received
           == old(exporter.received) + FlushExports(old(batch), old(queue), maxExportBatchSize)
    {
      var signalled := RequestFlush();
      Flush();
      r := PendingFlushResult();
    }

    /** The worker's part of shutdown: request a flush and register, on its
        result, the completion action that stops the loop and shuts the
        exporter down. The flush is still pending here, so the action waits. */
    method Shutdown() returns (result: ResultCode)
      requires Valid() && !ShutdownStarted()
      modifies this`flushRequested, this`continuation
      ensures Valid() && ShutdownStarted()
      ensures fresh(result) && result.state == Pending
      ensures flushRequested != null && continuation == AwaitingFlush(flushRequested, result)
      ensures old(flushRequested) != null ==> flushRequested == old(flushRequested)
      ensures old(flushRequested) == null ==> fresh(flushRequested)
    {
      result := new ResultCode();
      var flushResult := ForceFlush();
      continuation := AwaitingFlush(flushResult, result);
    }

    /** The export decision after the drain: a full batch, or a deadline
        passed at `now`, exports the batch (if any) and re-arms the deadline
        from the clock reading `later`; otherwise nothing changes. */
    method ExportIfDue(now: int, later: int)
      requires Consistent()
      modifies this`batch, this`exported, this`nextExportTime, exporter
      ensures Valid()
      ensures exporter.shutdownCalls == old(exporter.shutdownCalls)
      ensures var due := |old(batch)| == maxExportBatchSize || now >= old(nextExportTime);
        && (due ==> && batch == []
                    && exporter.received == old(exporter.received) + (if old(batch) == [] then [] else [old(batch)])
                    && nextExportTime == later + scheduleDelayNanos)
        && (!due ==> && batch == old(batch)
                     && exporter.received == old(exporter.received)
                     && nextExportTime == old(nextExportTime))
    {
      if |batch| >= maxExportBatchSize || now >= nextExportTime {
        ExportCurrentBatch();
        UpdateNextExportTime(later);
      }
    }

    /** The second half of a pass of the worker loop, after the wait: drain,
        then export if the batch is full or the deadline has passed at `now`,
        re-arming the deadline from the clock reading `later`; otherwise the
        deadline stays as it was. */
    method DrainAndExport(now: int, later: int)
      requires Valid()
      modifies this`batch, this`queue, this`queueSize, this`exported, this`nextExportTime, exporter
      ensures Valid()
      ensures exporter.shutdownCalls == old(exporter.shutdownCalls)
      ensures var all := old(batch) + old(queue);
        var k := Min(|all|, maxExportBatchSize);
        var due := k == maxExportBatchSize || now >= old(nextExportTime);
        && queue == all[k..]
        && (due ==> && batch == []
                    && exporter.received == old(exporter.received) + (if k == 0 then [] else [all[..k]])
                    && nextExportTime == later + scheduleDelayNanos)
        && (!due ==> && batch == all[..k]
                     && exporter.received == old(exporter.received)
                     && nextExportTime == old(nextExportTime))
    {
      Drain();
      ExportIfDue(now, later);
    }

    /** One pass of the worker loop, entered while `continueWork` holds: flush
        if one was requested, then wake at `now` (the wait itself is not
        modelled), drain and export if due. */
    method RunIteration(now: int, later: int)
      requires Valid() && continueWork
      modifies this`batch, this`queue, this`queueSize, this`exported, this`flushRequested,
               this`continuation, this`continueWork, this`nextExportTime, exporter, Codes()
      ensures Valid()
      ensures ShutdownStarted() == old(ShutdownStarted())
      ensures old(flushRequested) == null ==>
        && continueWork && flushRequested == null && continuation == old(continuation)
        && exporter.shutdownCalls == old(exporter.shutdownCalls)
        && var all := old(batch) + old(queue);
           var k := Min(|all|, maxExportBatchSize);
           var due := k == maxExportBatchSize || now >= old(nextExportTime);
           && queue == all[k..]
           && (due ==> && batch == []
                       && exporter.received == old(exporter.received) + (if k == 0 then [] else [all[..k]])
                       && nextExportTime == later + scheduleDelayNanos)
           && (!due ==> && batch == all[..k]
                        && exporter.received == old(exporter.received)
                        && nextExportTime == old(nextExportTime))
      ensures old(flushRequested) != null ==>
        && queue == [] && batch == []
        && old(flushRequested).state == Succeeded && flushRequested == null
        && exporter.received
           == old(exporter.received) + FlushExports(old(batch), old(queue), maxExportBatchSize)
        && nextExportTime == (if now >= old(nextExportTime) then later + scheduleDelayNanos else old(nextExportTime))
      ensures old(continuation).AwaitingFlush? ==>
        && !continueWork && continuation == NotRegistered
        && old(continuation).result.state == (if exporter.shutdownSucceeds then Succeeded else Failed)
    {
      if flushRequested != null {
        Flush();
      }
      DrainAndExport(now, later);
    }
  }

  /** The exported counter never exceeds the number of spans accepted, and
      with an exporter that never succeeds it stays at zero. */
  lemma ExportedAtMostAccepted<T>(w: Worker<T>)
    requires w.Valid()
    ensures w.exported <= |w.accepted|
    ensures (forall n :: w.exporter.respond(n) != Success) ==> w.exported == 0
  {
    DeliveredAtMostSent(w.exporter.received, w.exporter.respond);
    assert |Flatten(w.exporter.received) + w.batch + w.queue| == |w.accepted|;
    if forall n :: w.exporter.respond(n) != Success {
      DeliveredWhenAllFail(w.exporter.received, w.exporter.respond);
    }
  }

  /** The producer-facing side: spans arrive through OnEnd, callers ask for
      ForceFlush and Shutdown, and RunWorker is a pass of the worker thread. */
  class BatchSpanProcessor<T> {
    const worker: Worker<T>
    var isShutdown: bool

    /** The worker's invariant, and the shutdown guard is set exactly when the
        worker's shutdown has been started. */
    ghost predicate Valid()
      reads this, worker, worker.exporter, worker.Codes()
    {
      worker.Valid() && (isShutdown <==> worker.ShutdownStarted())
    }

    /** Builds the worker around `exporter` and starts its loop at time `now`. */
    constructor (exporter: Exporter<T>, scheduleDelayNanos: int, maxQueueSize: int,
                 maxExportBatchSize: int, exporterTimeoutNanos: int, now: int)
      requires 0 < maxExportBatchSize
      requires exporter.received == [] && exporter.shutdownCalls == 0
      ensures Valid() && !isShutdown && fresh(worker)
      ensures worker.exporter == exporter
      ensures worker.maxQueueSize == maxQueueSize && worker.maxExportBatchSize == maxExportBatchSize
      ensures worker.scheduleDelayNanos == scheduleDelayNanos
      ensures worker.queue == [] && worker.batch == [] && worker.flushRequested == null
      ensures worker.dropped == 0 && worker.exported == 0 && worker.continueWork
      ensures worker.nextExportTime == now + scheduleDelayNanos
    {
      worker := new Worker(exporter, scheduleDelayNanos, maxExportBatchSize, exporterTimeoutNanos, maxQueueSize, now);
      isShutdown := false;
    }

    /** A span that ended: only a sampled span is offered to the queue. */
    method OnEnd(span: T, sampled: bool) returns (wake: bool)
      requires Valid()
      modifies worker`queue, worker`queueSize, worker`dropped, worker`accepted, worker`attempts
      ensures Valid()
      ensures !sampled ==> !wake && unchanged(worker)
      ensures sampled ==>
        Admission(worker.queue, worker.dropped) == Admit(old(worker.queue), old(worker.dropped), span, worker.maxQueueSize)
      ensures sampled ==>
        (wake <==> old(worker.queueSize) != worker.maxQueueSize && worker.queueSize >= worker.maxExportBatchSize)
    {
      if !sampled {
        wake := false;
        return;
      }
      wake := worker.AddSpan(span);
    }

    /** Requests a flush of everything queued; concurrent requests share one
        pending handle. */
    method ForceFlush() returns (r: ResultCode)
      requires Valid()
      modifies worker`flushRequested
      ensures Valid() && fresh(worker.Codes() - old(worker.Codes()))
      ensures worker.flushRequested == r && r.state == Pending
      ensures old(worker.flushRequested) != null ==> r == old(worker.flushRequested)
      ensures old(worker.flushRequested) == null ==> fresh(r)
    {
      r := worker.ForceFlush();
    }

    /** Only the first call reaches the worker; every later call returns a
        handle that has already succeeded and touches neither the worker nor
        the exporter, so the exporter is shut down at most once. */
    method Shutdown() returns (r: ResultCode)
      requires Valid()
      modifies this`isShutdown, worker`flushRequested, worker`continuation
      ensures Valid() && isShutdown && fresh(worker.Codes() - old(worker.Codes()))
      ensures fresh(r) && unchanged(worker.exporter)
      ensures old(isShutdown) ==> r.state == Succeeded && unchanged(worker)
      ensures !old(isShutdown) ==>
        && r.state == Pending && worker.flushRequested != null
        && worker.continuation == AwaitingFlush(worker.flushRequested, r)
      ensures !old(isShutdown) && old(worker.flushRequested) != null ==>
        worker.flushRequested == old(worker.flushRequested)
    {
      if isShutdown {
        r := new ResultCode.OfSuccess();
        return;
      }
      isShutdown := true;
      r := worker.Shutdown();
    }

    /** One pass of the worker thread's loop, which runs while `continueWork`
        holds. */
    method RunWorker(now: int, later: int)
      requires Valid() && worker.continueWork
      modifies worker`batch, worker`queue, worker`queueSize, worker`exported, worker`flushRequested,
               worker`continuation, worker`continueWork, worker`nextExportTime, worker.exporter, worker.Codes()
      ensures Valid()
      ensures worker.exporter.shutdownCalls <= 1
      ensures old(worker.flushRequested) != null ==>
        && old(worker.flushRequested).state == Succeeded
        && worker.queue == [] && worker.batch == []
        && worker.exporter.received
           == old(worker.exporter.received) + FlushExports(old(worker.batch), old(worker.queue), worker.maxExportBatchSize)
      ensures old(worker.continuation).AwaitingFlush? ==>
        && !worker.continueWork && worker.exporter.shutdownCalls == 1
        && old(worker.continuation).result.state
           == (if worker.exporter.shutdownSucceeds then Succeeded else Failed)
    {
      worker.RunIteration(now, later);
    }
  }
}
