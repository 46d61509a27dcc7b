/** The value-level rules of the batching engine: how a burst of spans is
    admitted to the bounded queue, how a flush cuts the queue into export
    batches, and how many records the exported counter accounts for. The
    imperative worker in module Processor is proved against these functions. */
module Batching {
  import opened Collaborators

  function Min(a: int, b: int): (r: int)
  {
    if a < b then a else b
  }

  /** All records of a sequence of batches, batch after batch. */
  function Flatten<T>(batches: seq<seq<T>>): (r: seq<T>)
  {
    if batches == [] then [] else Flatten(batches[..|batches| - 1]) + batches[|batches| - 1]
  }

  /** Every batch is non-empty and holds at most `max` records. */
  predicate Chunked<T>(batches: seq<seq<T>>, max: int)
  {
    forall i :: 0 <= i < |batches| ==> 0 < |batches[i]| <= max
  }

  lemma FlattenOne<T>(batch: seq<T>)
    ensures Flatten([batch]) == batch
  {
    assert [batch][..0] == [];
  }

  /** Appending a batch to the exporter's log appends its records to the flattened log. */
  lemma FlattenSnoc<T>(batches: seq<seq<T>>, batch: seq<T>)
    ensures Flatten(batches + [batch]) == Flatten(batches) + batch
  {
    assert (batches + [batch])[..|batches|] == batches;
  }

  /** A log of well-sized batches stays so when a well-sized batch joins it. */
  lemma ChunkedSnoc<T>(batches: seq<seq<T>>, batch: seq<T>, max: int)
    requires Chunked(batches, max) && 0 < |batch| <= max
    ensures Chunked(batches + [batch], max)
  {
    forall i | 0 <= i < |batches + [batch]|
      ensures 0 < |(batches + [batch])[i]| <= max
    {
      if i < |batches| {
        assert (batches + [batch])[i] == batches[i];
      }
    }
  }

  lemma {:induction false} FlattenAppend<T>(a: seq<seq<T>>, b: seq<seq<T>>)
    ensures Flatten(a + b) == Flatten(a) + Flatten(b)
    decreases |b|
  {
    if b == [] {
      assert a + b == a;
    } else {
      var front := b[..|b| - 1];
      assert a + b == (a + front) + [b[|b| - 1]];
      FlattenSnoc(a + front, b[|b| - 1]);
      FlattenAppend(a, front);
      FlattenSnoc(front, b[|b| - 1]);
      assert front + [b[|b| - 1]] == b;
    }
  }

  /** The batches that a flush hands to the exporter when the worker holds
      `batch` and the queue holds `queue`: records move one at a time from the
      queue head to the batch tail, a batch that reaches `max` records is
      exported at once, and whatever is left is exported last if non-empty. */
  function FlushExports<T>(batch: seq<T>, queue: seq<T>, max: int): (r: seq<seq<T>>)
    decreases |queue|
  {
    if queue == [] then
      (if batch == [] then [] else [batch])
    else
      var grown := batch + [queue[0]];
      if |grown| >= max then [grown] + FlushExports([], queue[1..], max)
      else FlushExports(grown, queue[1..], max)
  }

  /** One step of a flush: the queue head joins the batch, which is exported
      at once if that fills it. */
  lemma FlushExportsStep<T>(batch: seq<T>, queue: seq<T>, max: int)
    requires queue != []
    ensures var grown := batch + [queue[0]];
      FlushExports(batch, queue, max)
        == if |grown| >= max then [grown] + FlushExports([], queue[1..], max)
           else FlushExports(grown, queue[1..], max)
  {
  }

  /** A flush offers every record to the exporter, in FIFO order, with nothing
      added, lost or repeated. */
  lemma {:induction false} FlushExportsInOrder<T>(batch: seq<T>, queue: seq<T>, max: int)
    ensures Flatten(FlushExports(batch, queue, max)) == batch + queue
    decreases |queue|
  {
    if queue == [] {
      if batch != [] {
        FlattenOne(batch);
      }
    } else {
      var grown := batch + [queue[0]];
      assert grown + queue[1..] == batch + queue;
      if |grown| >= max {
        FlushExportsInOrder([], queue[1..], max);
        FlattenAppend([grown], FlushExports([], queue[1..], max));
        FlattenOne(grown);
      } else {
        FlushExportsInOrder(grown, queue[1..], max);
      }
    }
  }

  /** Starting from a batch below the limit, every batch a flush exports is
      non-empty and holds at most `max` records. */
  lemma {:induction false} FlushExportsChunked<T>(batch: seq<T>, queue: seq<T>, max: int)
    requires |batch| < max
    ensures Chunked(FlushExports(batch, queue, max), max)
    decreases |queue|
  {
    if queue != [] {
      var grown := batch + [queue[0]];
      if |grown| >= max {
        FlushExportsChunked([], queue[1..], max);
      } else {
        FlushExportsChunked(grown, queue[1..], max);
      }
    }
  }

  /** Every batch but the last holds exactly `max` records. */
  predicate FullBeforeLast<T>(batches: seq<seq<T>>, max: int)
  {
    forall i :: 0 <= i < |batches| - 1 ==> |batches[i]| == max
  }

  /** Starting from a batch below the limit, every batch of a flush but the last
      one is full: the queue is cut into as few exports as the limit allows. */
  lemma {:induction false} FlushExportsFull<T>(batch: seq<T>, queue: seq<T>, max: int)
    requires |batch| < max
    ensures FullBeforeLast(FlushExports(batch, queue, max), max)
    decreases |queue|
  {
    if queue != [] {
      var grown := batch + [queue[0]];
      if |grown| >= max {
        var rest := FlushExports([], queue[1..], max);
        FlushExportsFull([], queue[1..], max);
        assert FlushExports(batch, queue, max) == [grown] + rest;
        forall i | 0 <= i < |[grown] + rest| - 1
          ensures |([grown] + rest)[i]| == max
        {
          if i > 0 {
            assert ([grown] + rest)[i] == rest[i - 1];
          }
        }
      } else {
        FlushExportsFull(grown, queue[1..], max);
      }
    }
  }

  /** The number of records counted as exported when the n-th export call of
      `batches` (counting from 0) had outcome `outcome(n)`: a batch counts in
      full on success and not at all otherwise. */
  function Delivered<T>(batches: seq<seq<T>>, outcome: nat -> ExportOutcome): (r: nat)
  {
    if batches == [] then 0
    else
      var last := |batches| - 1;
      Delivered(batches[..last], outcome) + (if outcome(last) == Success then |batches[last]| else 0)
  }

  lemma DeliveredSnoc<T>(batches: seq<seq<T>>, batch: seq<T>, outcome: nat -> ExportOutcome)
    ensures Delivered(batches + [batch], outcome)
         == Delivered(batches, outcome) + (if outcome(|batches|) == Success then |batch| else 0)
  {
    assert (batches + [batch])[..|batches|] == batches;
  }

  /** The exported counter never runs ahead of what was handed to the exporter. */
  lemma {:induction false} DeliveredAtMostSent<T>(batches: seq<seq<T>>, outcome: nat -> ExportOutcome)
    ensures Delivered(batches, outcome) <= |Flatten(batches)|
  {
    if batches != [] {
      DeliveredAtMostSent(batches[..|batches| - 1], outcome);
    }
  }

  /** An exporter that never succeeds leaves the exported counter at zero. */
  lemma {:induction false} DeliveredWhenAllFail<T>(batches: seq<seq<T>>, outcome: nat -> ExportOutcome)
    requires forall n :: outcome(n) != Success
    ensures Delivered(batches, outcome) == 0
  {
    if batches != [] {
      DeliveredWhenAllFail(batches[..|batches| - 1], outcome);
    }
  }

  /** An exporter that always succeeds has every record it received counted. */
  lemma {:induction false} DeliveredWhenAllSucceed<T>(batches: seq<seq<T>>, outcome: nat -> ExportOutcome)
    requires forall n :: outcome(n) == Success
    ensures Delivered(batches, outcome) == |Flatten(batches)|
  {
    if batches != [] {
      DeliveredWhenAllSucceed(batches[..|batches| - 1], outcome);
    }
  }

  /** The queue and the drop counter after `addSpan` offers one span. */
  datatype Admission<T> = Admission(queue: seq<T>, dropped: nat)

  /** Drop-on-full: a queue holding `maxQueueSize` spans rejects the span and
      counts a drop; otherwise the span joins the tail. */
  function Admit<T>(queue: seq<T>, dropped: nat, span: T, maxQueueSize: int): (r: Admission<T>)
  {
    if |queue| == maxQueueSize then Admission(queue, dropped + 1)
    else Admission(queue + [span], dropped)
  }

  /** A burst of `addSpan` calls with no worker activity in between. */
  function AdmitAll<T>(queue: seq<T>, dropped: nat, spans: seq<T>, maxQueueSize: int): (r: Admission<T>)
    decreases |spans|
  {
    if spans == [] then Admission(queue, dropped)
    else
      var next := Admit(queue, dropped, spans[0], maxQueueSize);
      AdmitAll(next.queue, next.dropped, spans[1..], maxQueueSize)
  }

  /** A burst fills the queue up to its capacity in arrival order and drops
      every span that arrives after that. */
  lemma {:induction false} AdmitAllFillsThenDrops<T>(queue: seq<T>, dropped: nat, spans: seq<T>, maxQueueSize: int)
    requires |queue| <= maxQueueSize
    ensures var k := Min(|spans|, maxQueueSize - |queue|);
      AdmitAll(queue, dropped, spans, maxQueueSize) == Admission(queue + spans[..k], dropped + |spans| - k)
    decreases |spans|
  {
    if spans != [] {
      var k := Min(|spans|, maxQueueSize - |queue|);
      if |queue| == maxQueueSize {
        AdmitAllFillsThenDrops(queue, dropped + 1, spans[1..], maxQueueSize);
        assert spans[..k] == [];
      } else {
        AdmitAllFillsThenDrops(queue + [spans[0]], dropped, spans[1..], maxQueueSize);
        assert (queue + [spans[0]]) + spans[1..][..k - 1] == queue + spans[..k];
      }
    }
  }

  /** A queue already past its capacity (a negative capacity, or a size that
      two producers pushed past it together) never matches the `==` test, so
      it accepts every span. */
  lemma AdmitPastCapacity<T>(queue: seq<T>, dropped: nat, span: T, maxQueueSize: int)
    requires |queue| > maxQueueSize
    ensures Admit(queue, dropped, span, maxQueueSize) == Admission(queue + [span], dropped)
  {
  }

  /** Past its capacity, a queue takes a whole burst and drops nothing. */
  lemma {:induction false} AdmitAllPastCapacity<T>(queue: seq<T>, dropped: nat, spans: seq<T>, maxQueueSize: int)
    requires |queue| > maxQueueSize
    ensures AdmitAll(queue, dropped, spans, maxQueueSize) == Admission(queue + spans, dropped)
    decreases |spans|
  {
    if spans != [] {
      AdmitAllPastCapacity(queue + [spans[0]], dropped, spans[1..], maxQueueSize);
      assert (queue + [spans[0]]) + spans[1..] == queue + spans;
    }
  }

  /** Over any burst the queue stays within capacity, keeps the spans it held
      at the front, and enqueued plus dropped equals the number of attempts. */
  lemma {:induction false} AdmitAllAccounting<T>(queue: seq<T>, dropped: nat, spans: seq<T>, maxQueueSize: int)
    requires |queue| <= maxQueueSize
    ensures var r := AdmitAll(queue, dropped, spans, maxQueueSize);
      && |queue| <= |r.queue| <= maxQueueSize
      && r.queue[..|queue|] == queue
      && (|r.queue| - |queue|) + (r.dropped - dropped) == |spans|
  {
    AdmitAllFillsThenDrops(queue, dropped, spans, maxQueueSize);
    var k := Min(|spans|, maxQueueSize - |queue|);
    assert (queue + spans[..k])[..|queue|] == queue;
  }
}
