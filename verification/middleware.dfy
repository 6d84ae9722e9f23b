/**
 * The handler chain of lib/Middleware.js: an ordered list of handlers that
 * `use` appends to and `run` executes one after another over the same turn
 * data, stopping at the first handler that reports an error.
 */
module Middleware {
  import opened Series

  /** What `use` is given: a function, or any other JavaScript value. */
  datatype Arg<H> = Function(fn: H) | NotFunction

  class Middleware<H> {
    /** The registered handlers, in registration order. */
    var handlers: seq<H>

    constructor ()
      ensures handlers == []
    {
      handlers := [];
    }

    /** Registers a handler at the end of the chain; anything that is not a function is ignored. */
    method Use(x: Arg<H>)
      modifies this
      ensures x.Function? ==> handlers == old(handlers) + [x.fn]
      ensures x.NotFunction? ==> handlers == old(handlers)
    {
      if x.Function? {
        handlers := handlers + [x.fn];
      }
    }

    /**
     * Runs the chain over `data`: the handlers invoked, in order, and the
     * error (or success) the final callback receives. The handler list is
     * only read.
     */
    method Run<D>(data: D, call: (H, D) -> Status) returns (invoked: seq<H>, status: Status)
      ensures (invoked, status) == Outcome(handlers, data, call)
      ensures |invoked| <= |handlers| && invoked == handlers[..|invoked|]
      ensures status == Done <==> invoked == handlers && forall k :: 0 <= k < |handlers| ==> call(handlers[k], data) == Done
      ensures status.Failed? ==> |invoked| > 0 && call(invoked[|invoked| - 1], data) == status
      ensures forall k :: 0 <= k < |invoked| - 1 ==> call(invoked[k], data) == Done
    {
      invoked, status := RunSeries(handlers, data, call);
      OutcomeFacts(handlers, data, call);
    }
  }
}
