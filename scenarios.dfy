/**
 * The arrival orders tests/routes.rs and tests/api.rs exercise, and the
 * conflict and cleanup cases of the route, run against a fresh `AppState`
 * with every lock obtained. Each wait's
 * outcome is the one real time would give in that order.
 */
module Scenarios {
  import opened Native
  import opened Wrappers
  import opened Response
  import opened Timeout
  import opened Rendezvous
  import opened State
  import opened Routes

  /** A fresh state with the validated timeout. */
  method FreshState(configured: u64) returns (state: AppState)
    requires InRange(configured)
    ensures fresh(state) && state.Valid() && state.waitPoints == map[] && state.timeout == configured
  {
    var created := AppState.New(configured);
    state := created.value;
  }

  /**
   * `n` arrivals for a key with no entry, none of them resolved: each takes
   * the role `ArrivalRoles(0, n)` names at its position, and of up to 2^64 of
   * them only the first waits and only the second is welcomed.
   */
  method ArrivalsWithoutResolution(state: AppState, uniqueId: string, n: nat)
    returns (dispatches: seq<Dispatch>, roles: seq<Role>)
    requires state.Valid() && uniqueId !in state.waitPoints
    modifies state, state.waitPoints.Values
    ensures state.Valid()
    ensures roles == ArrivalRoles(0, n) && |dispatches| == n
    ensures n == 0 ==> state.waitPoints == old(state.waitPoints)
    ensures n > 0 ==>
      && uniqueId in state.waitPoints && fresh(state.waitPoints[uniqueId])
      && state.waitPoints == old(state.waitPoints)[uniqueId := state.waitPoints[uniqueId]]
      && state.waitPoints[uniqueId].partiesCount == (n % TwoTo64) as usize
      && forall i | 0 <= i < n :: dispatches[i] == Dispatched(roles[i], state.waitPoints[uniqueId], uniqueId)
    ensures n <= TwoTo64 ==> forall i | 0 <= i < n :: (dispatches[i].AwaitingSecondParty? <==> i == 0)
    ensures n <= TwoTo64 ==> forall i | 0 <= i < n ::
      (dispatches[i] == Done(Ok(Reply(StatusOk, PlainSuccess(SecondPartyWelcome)))) <==> i == 1)
  {
    dispatches, roles := [], [];
    var i := 0;
    while i < n
      invariant 0 <= i <= n
      invariant state.Valid()
      invariant roles == ArrivalRoles(0, i) && |dispatches| == i
      invariant state.CountOf(uniqueId) == (i % TwoTo64) as usize
      invariant i == 0 ==> state.waitPoints == old(state.waitPoints)
      invariant i > 0 ==>
        && uniqueId in state.waitPoints && fresh(state.waitPoints[uniqueId])
        && state.waitPoints == old(state.waitPoints)[uniqueId := state.waitPoints[uniqueId]]
        && forall j | 0 <= j < i :: dispatches[j] == Dispatched(roles[j], state.waitPoints[uniqueId], uniqueId)
    {
      var previous := if uniqueId in state.waitPoints then state.waitPoints[uniqueId].partiesCount else 0;
      var d := WaitForParty(state, uniqueId, true, true);
      ArrivalRolesSnoc(i);
      dispatches, roles := dispatches + [d], roles + [RoleOf(previous)];
      i := i + 1;
    }
    if n <= TwoTo64 {
      FirstAndSecondAreUnique(n);
    }
  }

  /** A lone arrival waits, times out with the configured seconds and leaves no entry. */
  method SinglePartyTimesOut(uniqueId: string, configured: u64)
    returns (r: Result<Reply, ApiError>, remaining: map<string, WaitPoint>)
    requires InRange(configured)
    ensures r == Err(TimeoutError(configured))
    ensures remaining == map[]
  {
    var state := FreshState(configured);
    var d := WaitForParty(state, uniqueId, true, true);
    r := HandleFirstParty(d.point, uniqueId, state, TimedOut, true);
    remaining := state.waitPoints;
  }

  /** Two arrivals for one key: the first waits and is woken, the second signals; both are welcomed. */
  method SuccessfulSync(uniqueId: string, configured: u64)
    returns (first: Result<Reply, ApiError>, second: Result<Reply, ApiError>, remaining: map<string, WaitPoint>)
    requires InRange(configured)
    ensures first == Ok(Reply(StatusOk, PlainSuccess(FirstPartyWelcome)))
    ensures second == Ok(Reply(StatusOk, PlainSuccess(SecondPartyWelcome)))
    ensures remaining == map[]
  {
    var state := FreshState(configured);
    var d1 := WaitForParty(state, uniqueId, true, true);
    var d2 := WaitForParty(state, uniqueId, true, true);
    second := d2.result;
    assert d1.point.signalled;
    first := HandleFirstParty(d1.point, uniqueId, state, Notified, true);
    remaining := state.waitPoints;
  }

  /**
   * A third arrival after the pair has resolved finds no entry, starts a new
   * attempt as first party and, left alone, times out.
   */
  method ThreePartiesJoin(uniqueId: string, configured: u64)
    returns (first: Result<Reply, ApiError>, second: Result<Reply, ApiError>, third: Result<Reply, ApiError>)
    requires InRange(configured)
    ensures first == Ok(Reply(StatusOk, PlainSuccess(FirstPartyWelcome)))
    ensures second == Ok(Reply(StatusOk, PlainSuccess(SecondPartyWelcome)))
    ensures third == Err(TimeoutError(configured))
  {
    var state := FreshState(configured);
    var d1 := WaitForParty(state, uniqueId, true, true);
    var d2 := WaitForParty(state, uniqueId, true, true);
    second := d2.result;
    first := HandleFirstParty(d1.point, uniqueId, state, Notified, true);
    var d3 := WaitForParty(state, uniqueId, true, true);
    assert d3.point != d1.point;
    third := HandleFirstParty(d3.point, uniqueId, state, TimedOut, true);
  }

  /**
   * A third arrival while the pair is still open is refused with a conflict,
   * and the waiting first party is still welcomed afterwards.
   */
  method ThirdArrivalWhilePairOpen(uniqueId: string, configured: u64)
    returns (first: Result<Reply, ApiError>, second: Result<Reply, ApiError>, third: Result<Reply, ApiError>)
    requires InRange(configured)
    ensures first == Ok(Reply(StatusOk, PlainSuccess(FirstPartyWelcome)))
    ensures second == Ok(Reply(StatusOk, PlainSuccess(SecondPartyWelcome)))
    ensures third.Ok? && third.value.code == StatusConflict && third.value.body == ApiResponse.Error(ConflictMessage)
  {
    var state := FreshState(configured);
    var d1 := WaitForParty(state, uniqueId, true, true);
    var d2 := WaitForParty(state, uniqueId, true, true);
    second := d2.result;
    var d3 := WaitForParty(state, uniqueId, true, true);
    third := d3.result;
    assert d1.point.signalled;
    first := HandleFirstParty(d1.point, uniqueId, state, Notified, true);
  }

  /**
   * Two keys paired in the interleaving A, B, A, B: each pair is welcomed and
   * the signal for A leaves B's point unsignalled.
   */
  method TwoKeysPairIndependently(keyA: string, keyB: string, configured: u64)
    returns (firstA: Result<Reply, ApiError>, secondA: Result<Reply, ApiError>,
             firstB: Result<Reply, ApiError>, secondB: Result<Reply, ApiError>, crossSignalled: bool)
    requires InRange(configured) && keyA != keyB
    ensures firstA == firstB == Ok(Reply(StatusOk, PlainSuccess(FirstPartyWelcome)))
    ensures secondA == secondB == Ok(Reply(StatusOk, PlainSuccess(SecondPartyWelcome)))
    ensures !crossSignalled
  {
    var state := FreshState(configured);
    var a1 := WaitForParty(state, keyA, true, true);
    var pointA := a1.point;
    assert state.waitPoints == map[keyA := pointA] && pointA.partiesCount == 1;
    var b1 := WaitForParty(state, keyB, true, true);
    var pointB := b1.point;
    assert state.waitPoints == map[keyA := pointA, keyB := pointB] && pointB.partiesCount == 1;
    var a2 := WaitForParty(state, keyA, true, true);
    crossSignalled := pointB.signalled;
    assert state.waitPoints == map[keyA := pointA, keyB := pointB];
    var b2 := WaitForParty(state, keyB, true, true);
    secondA, secondB := a2.result, b2.result;
    firstA := HandleFirstParty(a1.point, keyA, state, Notified, true);
    firstB := HandleFirstParty(b1.point, keyB, state, Notified, true);
  }

  /** Removing a key twice answers `Ok` both times and leaves the same registry as removing it once. */
  method CleanupIsIdempotent(uniqueId: string, configured: u64)
    returns (once: Outcome<ApiError>, twice: Outcome<ApiError>, remaining: map<string, WaitPoint>)
    requires InRange(configured)
    ensures once == twice == Pass
    ensures remaining == map[]
  {
    var state := FreshState(configured);
    var d := WaitForParty(state, uniqueId, true, true);
    once := state.CleanupWaitPoint(uniqueId, true);
    twice := state.CleanupWaitPoint(uniqueId, true);
    remaining := state.waitPoints;
  }
}
