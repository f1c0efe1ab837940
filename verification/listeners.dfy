/**
 * The progress listener handed out by the caller's provider, reduced to what the
 * client uses: a cancellation flag it reads and a counter it increments.
 */
module Listeners {
  import opened Transport

  class IncrementalListener {
    const expected: int
    var cancelled: bool
    var consumed: int

    constructor (expected: int)
      ensures this.expected == expected && !cancelled && consumed == 0
    {
      this.expected := expected;
      cancelled := false;
      consumed := 0;
    }

    method IsCancelled() returns (b: bool)
      ensures b == cancelled
    {
      b := cancelled;
    }

    method Increment(n: int)
      modifies this
      ensures consumed == old(consumed) + n && cancelled == old(cancelled)
    {
      consumed := consumed + n;
    }

    /** Cancellation requested by the user; the flag never goes back to false. */
    method Cancel()
      modifies this
      ensures cancelled && consumed == old(consumed)
    {
      cancelled := true;
    }
  }

  /** The caller's IncrementalListenerProvider; each call to provide is recorded in the log. */
  class ListenerProvider {
    const log: EventLog

    constructor (log: EventLog)
      ensures this.log == log
    {
      this.log := log;
    }

    method Provide(expected: int) returns (l: IncrementalListener)
      modifies log
      ensures fresh(l) && l.expected == expected && !l.cancelled && l.consumed == 0
      ensures log.events == old(log.events) + [ListenerProvided(expected)]
    {
      log.Record(ListenerProvided(expected));
      l := new IncrementalListener(expected);
    }
  }
}
