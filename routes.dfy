/**
 * The `wait_for_party` route over `AppState`. The route is asynchronous and
 * suspends only in the first party's wait, so it is modelled in two steps:
 * `WaitForParty` runs an arrival up to that wait, and `HandleFirstParty`
 * resumes it once the wait has ended. Other arrivals may run in between.
 */
module Routes {
  import opened Native
  import opened Wrappers
  import opened Response
  import opened Rendezvous
  import opened State

  const ReadLockFailure := "Failed to acquire read lock"
  const WriteLockFailure := "Failed to acquire write lock"

  /** The three arms of the match on the count `fetch_add` returned. */
  datatype Role = First | Second | Extra(previous: usize)

  /** Role decision: 0 waits, 1 signals, anything more is turned away. */
  function RoleOf(previous: usize): (r: Role)
    ensures r.First? <==> previous == 0
    ensures r.Second? <==> previous == 1
    ensures r.Extra? <==> previous >= 2
    ensures r.Extra? ==> r.previous == previous
  {
    match previous
    case 0 => First
    case 1 => Second
    case _ => Extra(previous)
  }

  /** The roles of `n` successive arrivals at a point whose count is `start`. */
  function ArrivalRoles(start: usize, n: nat): (roles: seq<Role>)
    ensures |roles| == n
    decreases n
  {
    if n == 0 then [] else [RoleOf(start)] + ArrivalRoles(Increment(start), n - 1)
  }

  /** The `i`-th of those arrivals sees the start count advanced by `i`, modulo 2^64. */
  lemma {:induction false} ArrivalRoleAt(start: usize, n: nat, i: nat)
    requires i < n
    ensures ArrivalRoles(start, n)[i] == RoleOf(((start as int + i) % TwoTo64) as usize)
    decreases i
  {
    if i > 0 {
      ArrivalRoleAt(Increment(start), n - 1, i - 1);
      if start as int + 1 == TwoTo64 {
        assert (start as int + i) % TwoTo64 == (i - 1) % TwoTo64;
      }
    }
  }

  /** One more arrival at a fresh point appends the role its position names. */
  lemma ArrivalRolesSnoc(n: nat)
    ensures ArrivalRoles(0, n + 1) == ArrivalRoles(0, n) + [RoleOf((n % TwoTo64) as usize)]
  {
    var longer, appended := ArrivalRoles(0, n + 1), ArrivalRoles(0, n) + [RoleOf((n % TwoTo64) as usize)];
    forall i | 0 <= i < n + 1
      ensures longer[i] == appended[i]
    {
      ArrivalRoleAt(0, n + 1, i);
      if i < n {
        ArrivalRoleAt(0, n, i);
      }
    }
    assert longer == appended;
  }

  /**
   * Of up to 2^64 arrivals at a fresh point, exactly the first waits and
   * exactly the second signals; every later one is an extra party.
   */
  lemma FirstAndSecondAreUnique(n: nat)
    requires n <= TwoTo64
    ensures forall i | 0 <= i < n :: (ArrivalRoles(0, n)[i].First? <==> i == 0)
    ensures forall i | 0 <= i < n :: (ArrivalRoles(0, n)[i].Second? <==> i == 1)
  {
    forall i | 0 <= i < n
      ensures (ArrivalRoles(0, n)[i].First? <==> i == 0) && (ArrivalRoles(0, n)[i].Second? <==> i == 1)
    {
      ArrivalRoleAt(0, n, i);
    }
  }

  /**
   * Without cleanup the counter wraps: arrival `i` at a fresh point is a first
   * party exactly when `i` is a multiple of 2^64, so arrival 2^64 + 1 waits again.
   */
  lemma CounterWrapReopensAttempt(n: nat, i: nat)
    requires i < n
    ensures ArrivalRoles(0, n)[i].First? <==> i % TwoTo64 == 0
  {
    ArrivalRoleAt(0, n, i);
  }

  /**
   * The one-argument `ApiResponse::success` the route calls: status success,
   * the message verbatim, no key and no timeout field.
   */
  function PlainSuccess(message: string): (r: ApiResponse)
    ensures r.status.Success? && r.message == message && r.timeoutDurationSec.None?
  {
    ApiResponse(ResponseStatus.Success, message, None)
  }

  /** Where one arrival stands once the route has run up to the first party's wait. */
  datatype Dispatch =
    | Done(result: Result<Reply, ApiError>)
    | AwaitingSecondParty(point: WaitPoint)

  /** What each role leads to, for an arrival holding `point` under `uniqueId`. */
  function Dispatched(role: Role, point: WaitPoint, uniqueId: string): Dispatch {
    match role
    case First => AwaitingSecondParty(point)
    case Second => Done(Ok(Reply(StatusOk, PlainSuccess(SecondPartyWelcome))))
    case Extra(previous) => Done(HandleExtraParty(previous, uniqueId))
  }

  /**
   * The `get_or_create_point` closure: the existing point, or a fresh one with
   * count 0 inserted under the key; a lock not obtained is a `LockError` and
   * leaves the map alone.
   */
  method GetOrCreatePoint(state: AppState, uniqueId: string, readLock: bool, writeLock: bool)
    returns (r: Result<WaitPoint, ApiError>)
    requires state.Valid()
    modifies state
    ensures state.Valid()
    ensures !readLock ==> r == Err(LockError(ReadLockFailure)) && state.waitPoints == old(state.waitPoints)
    ensures readLock && uniqueId in old(state.waitPoints) ==>
      r == Ok(old(state.waitPoints)[uniqueId]) && state.waitPoints == old(state.waitPoints)
    ensures readLock && uniqueId !in old(state.waitPoints) && writeLock ==>
      && r.Ok? && fresh(r.value)
      && r.value.partiesCount == 0 && !r.value.signalled
      && state.waitPoints == old(state.waitPoints)[uniqueId := r.value]
    ensures readLock && uniqueId !in old(state.waitPoints) && !writeLock ==>
      r == Err(LockError(WriteLockFailure)) && state.waitPoints == old(state.waitPoints)
  {
    if !readLock {
      return Err(LockError(ReadLockFailure));
    }
    if uniqueId in state.waitPoints {
      return Ok(state.waitPoints[uniqueId]);
    }
    if !writeLock {
      return Err(LockError(WriteLockFailure));
    }
    var point := new WaitPoint();
    state.waitPoints := state.waitPoints[uniqueId := point];
    r := Ok(point);
  }

  /**
   * `wait_for_party` up to the first party's wait. The arrival gets its point,
   * bumps that point's count by one and takes the role the count before the
   * bump names; no other key's entry, count or signal changes.
   */
  method WaitForParty(state: AppState, uniqueId: string, readLock: bool, writeLock: bool) returns (d: Dispatch)
    requires state.Valid()
    modifies state, state.waitPoints.Values
    ensures state.Valid()
    ensures forall k | k in old(state.waitPoints) && k != uniqueId ::
      && k in state.waitPoints && state.waitPoints[k] == old(state.waitPoints[k])
      && state.waitPoints[k].partiesCount == old(state.waitPoints[k].partiesCount)
      && state.waitPoints[k].signalled == old(state.waitPoints[k].signalled)
    ensures !readLock ==>
      && d == Done(Err(LockError(ReadLockFailure)))
      && state.waitPoints == old(state.waitPoints) && state.CountOf(uniqueId) == old(state.CountOf(uniqueId))
      && state.SignalledOf(uniqueId) == old(state.SignalledOf(uniqueId))
    ensures readLock && uniqueId !in old(state.waitPoints) && !writeLock ==>
      d == Done(Err(LockError(WriteLockFailure))) && state.waitPoints == old(state.waitPoints)
    ensures readLock && (uniqueId in old(state.waitPoints) || writeLock) ==>
      && uniqueId in state.waitPoints
      && var point := state.waitPoints[uniqueId];
      && var role := RoleOf(old(state.CountOf(uniqueId)));
      && state.waitPoints == old(state.waitPoints)[uniqueId := point]
      && (uniqueId in old(state.waitPoints) ==> point == old(state.waitPoints[uniqueId]))
      && (uniqueId !in old(state.waitPoints) ==> fresh(point))
      && point.partiesCount == Increment(old(state.CountOf(uniqueId)))
      && point.signalled == (role.Second? || old(state.SignalledOf(uniqueId)))
      && d == Dispatched(role, point, uniqueId)
  {
    var got := GetOrCreatePoint(state, uniqueId, readLock, writeLock);
    if got.Err? {
      return Done(Err(got.error));
    }
    var point := got.value;
    var previous := point.FetchAdd();
    match RoleOf(previous)
    case First =>
      d := AwaitingSecondParty(point);
    case Second =>
      var r := HandleSecondParty(point, uniqueId);
      d := Done(r);
    case Extra(_) =>
      d := Done(HandleExtraParty(previous, uniqueId));
  }

  /**
   * `handle_first_party` once its wait on `point` has ended with `outcome`:
   * on both paths it removes the key, and a failed cleanup is a `LockError`;
   * otherwise notified is a 200 and timed out a `TimeoutError` with the
   * configured seconds.
   */
  method HandleFirstParty(point: WaitPoint, uniqueId: string, state: AppState, outcome: WaitOutcome, writeLock: bool)
    returns (r: Result<Reply, ApiError>)
    requires state.Valid()
    modifies state
    ensures state.Valid()
    ensures state.waitPoints == if writeLock then old(state.waitPoints) - {uniqueId} else old(state.waitPoints)
    ensures !writeLock ==> r == Err(LockError(CleanupLockFailure))
    ensures writeLock && outcome.Notified? ==> r == Ok(Reply(StatusOk, PlainSuccess(FirstPartyWelcome)))
    ensures writeLock && outcome.TimedOut? ==> r == Err(TimeoutError(state.timeout))
  {
    match outcome
    case Notified =>
      var cleaned := state.CleanupWaitPoint(uniqueId, writeLock);
      if cleaned.Fail? {
        return Err(cleaned.error);
      }
      r := Ok(Reply(StatusOk, PlainSuccess(FirstPartyWelcome)));
    case TimedOut =>
      var cleaned := state.CleanupWaitPoint(uniqueId, writeLock);
      if cleaned.Fail? {
        return Err(cleaned.error);
      }
      r := Err(TimeoutError(state.timeout));
  }

  /** `handle_second_party`: signals the point and welcomes; the map is not touched. */
  method HandleSecondParty(point: WaitPoint, uniqueId: string) returns (r: Result<Reply, ApiError>)
    modifies point`signalled
    ensures point.signalled
    ensures r == Ok(Reply(StatusOk, PlainSuccess(SecondPartyWelcome))) && Classified(r.value)
  {
    point.NotifyOne();
    r := Ok(Reply(StatusOk, PlainSuccess(SecondPartyWelcome)));
  }

  /** `handle_extra_party`: a conflict; nothing is read or changed. */
  function HandleExtraParty(previous: usize, uniqueId: string): (r: Result<Reply, ApiError>)
    ensures r.Ok? && Classified(r.value) && r.value.code == StatusConflict
    ensures r.value.body == ApiResponse.Error(ConflictMessage)
  {
    Ok(Reply(StatusConflict, ApiResponse.Error(ConflictMessage)))
  }
}
