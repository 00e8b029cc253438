/**
 * The objects every runner shares: the comparator (race tracker), the shutdown
 * broadcast and the counter of runners that have finished. Concurrency is not
 * modelled: each runner acts on these objects one call at a time.
 */
module Coordination {
  import opened Common

  /**
   * The comparator, kept abstract: it records every `add` in order, and its
   * valid count is an oracle over that trace.
   */
  class Comparator {
    var adds: seq<Observation>
    const validCount: seq<Observation> -> nat

    constructor (validCount: seq<Observation> -> nat)
      ensures adds == [] && this.validCount == validCount
    {
      adds := [];
      this.validCount := validCount;
    }

    method Add(o: Observation)
      modifies this
      ensures adds == old(adds) + [o]
    {
      adds := adds + [o];
    }

    method GetValidCount() returns (n: nat)
      ensures n == validCount(adds)
    {
      n := validCount(adds);
    }
  }

  /** The shutdown broadcast; only the number of sends is observable here. */
  class ShutdownChannel {
    var sent: nat

    constructor ()
      ensures sent == 0
    {
      sent := 0;
    }

    method Send()
      modifies this
      ensures sent == old(sent) + 1
    {
      sent := sent + 1;
    }
  }

  /** The process-wide count of dual-stream runners that have left their loop. */
  class FinishedRunners {
    var count: nat

    constructor ()
      ensures count == 0
    {
      count := 0;
    }

    /** An atomic fetch-and-add: returns the value before the increment. */
    method FetchAdd() returns (prior: nat)
      modifies this
      ensures prior == old(count) && count == old(count) + 1
    {
      prior := count;
      count := count + 1;
    }
  }
}
