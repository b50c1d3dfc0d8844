/** `AppState`: the registry and validated timeout used by the routes. */
module State {
  import opened Native
  import opened Wrappers
  import opened Response
  import opened Timeout
  import opened Rendezvous

  const CleanupLockFailure := "Failed to acquire write lock for cleanup"

  class AppState {
    /** The map inside `wait_points: RwLock<HashMap<String, Arc<WaitPoint>>>`. */
    var waitPoints: map<string, WaitPoint>
    /** `timeout: Duration`, in whole seconds. */
    const timeout: u64

    ghost predicate Valid()
      reads this
    {
      Distinct(waitPoints)
    }

    /** The count an arrival for `key` would observe: 0 when it would create the point. */
    ghost function CountOf(key: string): usize
      reads this, waitPoints.Values
    {
      if key in waitPoints then waitPoints[key].partiesCount else 0
    }

    /** Whether the point an arrival for `key` would get has already been signalled. */
    ghost function SignalledOf(key: string): bool
      reads this, waitPoints.Values
    {
      key in waitPoints && waitPoints[key].signalled
    }

    /** The struct literal of `AppState::new`: an empty map. */
    constructor (timeout: u64)
      ensures Valid() && waitPoints == map[] && this.timeout == timeout
    {
      waitPoints := map[];
      this.timeout := timeout;
    }

    /**
     * `AppState::new` after the configuration has produced `configured`:
     * validated first, then an empty registry.
     */
    static method New(configured: u64) returns (r: Result<AppState, ConfigError>)
      ensures r.Err? <==> !InRange(configured)
      ensures r.Err? ==> ValidateTimeout(configured) == Fail(r.error)
      ensures r.Ok? ==>
        && fresh(r.value) && r.value.Valid() && r.value.waitPoints == map[]
        && r.value.timeout == configured && InRange(r.value.timeout)
    {
      var checked := ValidateTimeout(configured);
      if checked.Fail? {
        return Err(checked.error);
      }
      var state := new AppState(configured);
      r := Ok(state);
    }

    /**
     * `cleanup_wait_point`: with the write lock the key is gone afterwards,
     * present before or not; without it, a `LockError` and nothing changes.
     */
    method CleanupWaitPoint(uniqueId: string, writeLock: bool) returns (r: Outcome<ApiError>)
      requires Valid()
      modifies this
      ensures Valid()
      ensures writeLock ==> r == Pass && waitPoints == old(waitPoints) - {uniqueId}
      ensures !writeLock ==> r == Fail(LockError(CleanupLockFailure)) && waitPoints == old(waitPoints)
    {
      if !writeLock {
        return Fail(LockError(CleanupLockFailure));
      }
      waitPoints := waitPoints - {uniqueId};
      r := Pass;
    }
  }
}
