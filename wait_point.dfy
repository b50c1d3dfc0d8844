/** The per-key rendezvous point shared by the registry entry and the arrivals that hold it. */
module Rendezvous {
  import opened Native

  /** `fetch_add(1)` on an `AtomicUsize`: adds one, wrapping around at 2^64. */
  function Increment(count: usize): (r: usize)
    ensures count as int + 1 < TwoTo64 ==> r as int == count as int + 1
    ensures count as int + 1 == TwoTo64 ==> r == 0
  {
    ((count as int + 1) % TwoTo64) as usize
  }

  /** How a first party's bounded wait ended. */
  datatype WaitOutcome = Notified | TimedOut

  /**
   * `WaitPoint`: the arrival counter, and the `Notify` reduced to the permit
   * `notify_one` leaves behind.
   */
  class WaitPoint {
    var partiesCount: usize
    var signalled: bool

    /** `WaitPoint::new`: no arrival counted, no signal given. */
    constructor ()
      ensures partiesCount == 0 && !signalled
    {
      partiesCount := 0;
      signalled := false;
    }

    /** `parties_count.fetch_add(1, SeqCst)`: returns the count before the increment. */
    method FetchAdd() returns (previous: usize)
      modifies this`partiesCount
      ensures previous == old(partiesCount) && partiesCount == Increment(previous)
    {
      previous := partiesCount;
      partiesCount := Increment(partiesCount);
    }

    /** `notify.notify_one()`: wakes the waiter, or leaves a permit for it. */
    method NotifyOne()
      modifies this`signalled
      ensures signalled
    {
      signalled := true;
    }
  }

  /** Distinct keys hold distinct points: a point belongs to one key's attempt only. */
  ghost predicate Distinct(points: map<string, WaitPoint>) {
    forall k1, k2 | k1 in points && k2 in points && k1 != k2 :: points[k1] != points[k2]
  }
}
