/** The collaborators the batching engine talks to but does not own: the result
    handle it hands back to callers (CompletableResultCode) and the span exporter.
    Both are modelled only as far as the engine observes them. */
module Collaborators {

  /** What one call into the exporter came to, as the worker sees it. `Failure`
      covers both a result that completed unsuccessfully and one that was not
      complete within the exporter timeout; `Threw` is a RuntimeException raised
      by the call itself. */
  datatype ExportOutcome = Success | Failure | Threw

  /** The state of a result handle: pending until it is resolved, exactly once. */
  datatype CodeState = Pending | Succeeded | Failed

  /** A result handle with identity: two callers holding the same handle see
      the same resolution. */
  class ResultCode {
    var state: CodeState

    /** A new, pending handle. */
    constructor ()
      ensures state == Pending
    {
      state := Pending;
    }

    /** A handle that is already resolved to success. */
    constructor OfSuccess()
      ensures state == Succeeded
    {
      state := Succeeded;
    }

    /** Resolves a pending handle to success; a resolved handle keeps its state. */
    method Succeed()
      modifies this
      ensures old(state) == Pending ==> state == Succeeded
      ensures old(state) != Pending ==> state == old(state)
    {
      if state == Pending {
        state := Succeeded;
      }
    }

    /** Resolves a pending handle to failure; a resolved handle keeps its state. */
    method Fail()
      modifies this
      ensures old(state) == Pending ==> state == Failed
      ensures old(state) != Pending ==> state == old(state)
    {
      if state == Pending {
        state := Failed;
      }
    }
  }

  /** The span exporter, seen from outside: it records every batch handed to it,
      answers the n-th export call (counting from 0) with `respond(n)`, and
      answers its shutdown with `shutdownSucceeds`. The two answers are inputs
      of the model, so every behaviour of a real exporter is one choice of them. */
  class Exporter<T> {
    const respond: nat -> ExportOutcome
    const shutdownSucceeds: bool
    var received: seq<seq<T>>
    var shutdownCalls: nat

    constructor (respond: nat -> ExportOutcome, shutdownSucceeds: bool)
      ensures this.respond == respond && this.shutdownSucceeds == shutdownSucceeds
      ensures received == [] && shutdownCalls == 0
    {
      this.respond := respond;
      this.shutdownSucceeds := shutdownSucceeds;
      received := [];
      shutdownCalls := 0;
    }

    /** One export call: the batch is recorded and answered in call order. */
    method Export(batch: seq<T>) returns (outcome: ExportOutcome)
      modifies this
      ensures received == old(received) + [batch]
      ensures outcome == respond(|old(received)|)
      ensures shutdownCalls == old(shutdownCalls)
    {
      outcome := respond(|received|);
      received := received + [batch];
    }

    /** One shutdown call: counted, and answered with `shutdownSucceeds`. */
    method Shutdown() returns (ok: bool)
      modifies this
      ensures shutdownCalls == old(shutdownCalls) + 1
      ensures ok == shutdownSucceeds
      ensures received == old(received)
    {
      shutdownCalls := shutdownCalls + 1;
      ok := shutdownSucceeds;
    }
  }
}
