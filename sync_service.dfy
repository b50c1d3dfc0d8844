/**
 * `SyncService`: the registry of wait points behind a reader/writer lock, and
 * the per-role handlers. Every lock attempt is a `try_read`/`try_write` whose
 * success is an input; each operation is one atomic step.
 */
module Sync {
  import opened Native
  import opened Wrappers
  import opened Response
  import opened Rendezvous

  class SyncService {
    /** The map inside `wait_points: RwLock<HashMap<String, Arc<WaitPoint>>>`. */
    var waitPoints: map<string, WaitPoint>

    ghost predicate Valid()
      reads this
    {
      Distinct(waitPoints)
    }

    /** `SyncService::new`: no wait point yet. */
    constructor ()
      ensures Valid() && waitPoints == map[]
    {
      waitPoints := map[];
    }

    /**
     * `get_or_create_point`: an existing point is shared as it is; a missing
     * one is created with count 0 and inserted. A lock not obtained is a 503
     * and leaves the map alone.
     */
    method GetOrCreatePoint(uniqueId: string, readLock: bool, writeLock: bool) returns (r: Result<WaitPoint, Reply>)
      requires Valid()
      modifies this
      ensures Valid()
      ensures !readLock ==> r == Err(ServiceUnavailable()) && waitPoints == old(waitPoints)
      ensures readLock && uniqueId in old(waitPoints) ==>
        r == Ok(old(waitPoints)[uniqueId]) && waitPoints == old(waitPoints)
      ensures readLock && uniqueId !in old(waitPoints) && writeLock ==>
        && r.Ok? && fresh(r.value)
        && r.value.partiesCount == 0 && !r.value.signalled
        && waitPoints == old(waitPoints)[uniqueId := r.value]
      ensures readLock && uniqueId !in old(waitPoints) && !writeLock ==>
        r == Err(ServiceUnavailable()) && waitPoints == old(waitPoints)
    {
      if !readLock {
        return Err(ServiceUnavailable());
      }
      if uniqueId in waitPoints {
        return Ok(waitPoints[uniqueId]);
      }
      if !writeLock {
        return Err(ServiceUnavailable());
      }
      var point := new WaitPoint();
      waitPoints := waitPoints[uniqueId := point];
      r := Ok(point);
    }

    /**
     * `cleanup_wait_point`: with the write lock the key is gone afterwards,
     * whether or not it was there; without it, a 503 and nothing changes.
     */
    method CleanupWaitPoint(uniqueId: string, writeLock: bool) returns (r: Outcome<Reply>)
      requires Valid()
      modifies this
      ensures Valid()
      ensures writeLock ==> r == Pass && waitPoints == old(waitPoints) - {uniqueId}
      ensures !writeLock ==> r == Fail(ServiceUnavailable()) && waitPoints == old(waitPoints)
    {
      if !writeLock {
        return Fail(ServiceUnavailable());
      }
      waitPoints := waitPoints - {uniqueId};
      r := Pass;
    }

    /**
     * `handle_first_party` once its wait on `point` has ended with `outcome`:
     * it cleans up first and answers 503 if that fails, whatever the outcome;
     * otherwise 200 when notified and 408 with the configured seconds when not.
     * `timeoutSecs` stands for the owning `App`'s timeout, which `App.New` has
     * already validated; the reply reports it unchanged.
     */
    method HandleFirstParty(uniqueId: string, point: WaitPoint, timeoutSecs: u64, outcome: WaitOutcome, writeLock: bool)
      returns (r: Reply)
      requires Valid()
      modifies this
      ensures Valid()
      ensures waitPoints == if writeLock then old(waitPoints) - {uniqueId} else old(waitPoints)
      ensures Classified(r)
      ensures !writeLock ==> r == ServiceUnavailable()
      ensures writeLock && outcome.Notified? ==>
        r == Reply(StatusOk, ApiResponse.Success(FirstPartyWelcome, uniqueId))
      ensures writeLock && outcome.TimedOut? ==>
        r == Reply(StatusRequestTimeout, ApiResponse.Timeout(timeoutSecs, uniqueId))
    {
      var cleaned := CleanupWaitPoint(uniqueId, writeLock);
      if cleaned.Fail? {
        return cleaned.error;
      }
      match outcome
      case Notified =>
        r := Reply(StatusOk, ApiResponse.Success(FirstPartyWelcome, uniqueId));
      case TimedOut =>
        r := Reply(StatusRequestTimeout, ApiResponse.Timeout(timeoutSecs, uniqueId));
    }

    /** `handle_second_party`: signals the point and welcomes; the map is not touched. */
    method HandleSecondParty(uniqueId: string, point: WaitPoint) returns (r: Reply)
      modifies point`signalled
      ensures point.signalled && waitPoints == old(waitPoints)
      ensures Classified(r) && r == Reply(StatusOk, ApiResponse.Success(SecondPartyWelcome, uniqueId))
    {
      point.NotifyOne();
      r := Reply(StatusOk, ApiResponse.Success(SecondPartyWelcome, uniqueId));
    }

    /** `handle_extra_party`: a conflict, without the key, and nothing changes. */
    function HandleExtraParty(uniqueId: string, previous: usize): (r: Reply)
      ensures Classified(r) && r.code == StatusConflict
      ensures r.body == ApiResponse.Error(ConflictMessage)
    {
      Reply(StatusConflict, ApiResponse.Error(ConflictMessage))
    }
  }
}
