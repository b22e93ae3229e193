/** How many sessions a connection storm may hold: most of the server's capacity, but never all of it. */
module Headroom {
  import opened Wrappers

  function Max(a: int, b: int): int {
    if a < b then b else a
  }

  /** Fifteen percent of a capacity, rounded up. */
  function FifteenPercent(capacity: nat): nat {
    (15 * capacity + 99) / 100
  }

  function Reserve(capacity: nat): nat {
    Max(3, FifteenPercent(capacity))
  }

  /** `_connection_saturation_target`; None for a capacity that it refuses. */
  function Target(capacity: int): Option<nat> {
    if capacity <= 0 then None
    else
      var target := Max(4, capacity - Reserve(capacity));
      if target >= capacity || 5 * target <= 4 * capacity then None else Some(target)
  }

  /** A capacity is accepted exactly from 16 up, and then the target is above four fifths of it and leaves free the
      least number of sessions that is at least three and at least fifteen percent. */
  lemma AcceptedFromSixteen(capacity: int)
    ensures Target(capacity).Some? <==> capacity >= 16
    ensures capacity >= 16 ==>
              var target := Target(capacity).value;
              && 5 * target > 4 * capacity && capacity - target >= 3 && 100 * (capacity - target) >= 15 * capacity
              && forall n | n >= 3 && 100 * n >= 15 * capacity :: n >= capacity - target
  {
  }
}
