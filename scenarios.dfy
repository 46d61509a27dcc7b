/** Callers of the processor, proved from the contracts alone. */
module Scenarios {
  import opened Collaborators
  import opened Batching
  import opened Processor

  /** A flush of five queued spans with batch size 2 exports two full
      batches and then the one span left. */
  lemma FlushOfFive()
    ensures FlushExports([], [1, 2, 3, 4, 5], 2) == [[1, 2], [3, 4], [5]]
  {
    var q := [1, 2, 3, 4, 5];
    FlushExportsStep([], q, 2);
    assert [] + [q[0]] == [1] && q[1..] == [2, 3, 4, 5];
    FlushExportsStep([1], [2, 3, 4, 5], 2);
    assert [1] + [2] == [1, 2] && [2, 3, 4, 5][1..] == [3, 4, 5];
    FlushExportsStep([], [3, 4, 5], 2);
    assert [] + [3] == [3] && [3, 4, 5][1..] == [4, 5];
    FlushExportsStep([3], [4, 5], 2);
    assert [3] + [4] == [3, 4] && [4, 5][1..] == [5];
    FlushExportsStep([], [5], 2);
    assert [] + [5] == [5] && [5][1..] == [];
    assert FlushExports([5], [], 2) == [[5]];
  }

  /** A burst of six sampled spans into a queue of capacity 5 with batch size
      2: the early wake fires from the second span on, the sixth is dropped,
      and an unsampled span is ignored. */
  method BurstDropsTheSixth()
  {
    var exporter := new Exporter<int>(n => Success, true);
    var p := new BatchSpanProcessor(exporter, 1000, 5, 2, 30, 0);
    var wake := p.OnEnd(1, true);
    assert !wake;
    wake := p.OnEnd(2, true);
    assert wake;
    wake := p.OnEnd(3, true);
    wake := p.OnEnd(4, true);
    wake := p.OnEnd(5, true);
    wake := p.OnEnd(6, true);
    assert !wake && p.worker.dropped == 1 && p.worker.queue == [1, 2, 3, 4, 5];
    wake := p.OnEnd(7, false);
    assert p.worker.dropped == 1;
  }

  /** A queue of capacity 0 drops every sampled span. */
  method ZeroCapacityDropsAll()
  {
    var exporter := new Exporter<int>(n => Success, true);
    var p := new BatchSpanProcessor(exporter, 1000, 0, 2, 30, 0);
    var wake := p.OnEnd(1, true);
    wake := p.OnEnd(2, true);
    assert !wake && p.worker.queue == [] && p.worker.dropped == 2;
  }

  /** A forced flush of five queued spans: a second request joins the first,
      the worker's next pass resolves it, and the exporter receives the spans
      in order as two full batches and a remainder, all of them counted. */
  method FlushCutsIntoBatches(p: BatchSpanProcessor<int>)
    requires p.Valid() && !p.isShutdown && p.worker.continueWork
    requires p.worker.queue == [1, 2, 3, 4, 5] && p.worker.batch == [] && p.worker.maxExportBatchSize == 2
    requires p.worker.exporter.received == [] && forall n :: p.worker.exporter.respond(n) == Success
    modifies p.worker, p.worker.exporter, p.worker.Codes()
  {
    var flushResult := p.ForceFlush();
    var again := p.ForceFlush();
    assert again == flushResult;
    p.RunWorker(1, 2);
    assert flushResult.state == Succeeded;
    FlushOfFive();
    assert p.worker.exporter.received == [[1, 2], [3, 4], [5]];
    DeliveredWhenAllSucceed(p.worker.exporter.received, p.worker.exporter.respond);
    assert p.worker.exported == 5;
  }

  /** A forced flush requested before shutdown: the shutdown joins it, and
      the worker's next pass resolves the earlier handle as well. */
  method ShutdownJoinsPendingFlush(p: BatchSpanProcessor<int>)
    requires p.Valid() && !p.isShutdown && p.worker.continueWork
    modifies p`isShutdown, p.worker, p.worker.exporter, p.worker.Codes()
  {
    var h := p.ForceFlush();
    var result := p.Shutdown();
    assert p.worker.flushRequested == h;
    p.RunWorker(1, 2);
    assert h.state == Succeeded && !p.worker.continueWork;
  }

  /** Shutdown twice: the first call returns the pending combined result, the
      second an already successful one, and the exporter is shut down once
      when the worker runs the flush. */
  method ShutdownTwice()
  {
    var exporter := new Exporter<int>(n => Failure, false);
    var p := new BatchSpanProcessor(exporter, 1000, 5, 2, 30, 0);
    var wake := p.OnEnd(1, true);
    var first := p.Shutdown();
    var second := p.Shutdown();
    assert first.state == Pending && second.state == Succeeded;
    assert exporter.shutdownCalls == 0;
    WorkerCompletesShutdown(p, first);
    assert second.state == Succeeded;
  }

  /** The worker's pass after a shutdown with one span queued and an exporter
      that fails everything: the span is exported but not counted, the loop
      stops, the exporter is shut down once and the shutdown result fails. */
  method WorkerCompletesShutdown(p: BatchSpanProcessor<int>, result: ResultCode)
    requires p.Valid() && p.worker.continueWork
    requires p.worker.continuation.AwaitingFlush? && p.worker.continuation.result == result
    requires p.worker.queue == [1] && p.worker.batch == [] && p.worker.maxExportBatchSize == 2
    requires p.worker.exporter.received == [] && !p.worker.exporter.shutdownSucceeds
    requires forall n :: p.worker.exporter.respond(n) == Failure
    modifies p.worker, p.worker.exporter, p.worker.Codes()
    ensures result.state == Failed && p.worker.exporter.shutdownCalls == 1 && !p.worker.continueWork
    ensures p.worker.exporter.received == [[1]] && p.worker.exported == 0
  {
    p.RunWorker(5, 6);
    FlushExportsStep([], [1], 2);
    assert [] + [1] == [1] && [1][1..] == [];
    assert FlushExports([1], [], 2) == [[1]];
    ExportedAtMostAccepted(p.worker);
  }
}
