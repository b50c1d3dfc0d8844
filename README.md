# sync-point rendezvous, modelled in Dafny

sync-point pairs two HTTP callers that arrive under the same key. The first
caller for a key waits, for at most the configured timeout. The second caller
wakes it, and both are welcomed. Any further caller while the pairing is open
is refused with a conflict. The first caller removes the key when its wait
ends, so the next caller for that key starts a new attempt.

This project models the core of that engine as sequential Dafny:

- the registry, a map from key to a shared `WaitPoint` object (a class whose
  arrival counter and notification permit are mutated in place);
- the role decision on the count `fetch_add` returns;
- the handlers for the first, second and extra party;
- timeout validation;
- the response records.

The repository holds two versions of the registry, and both are modelled:

- `SyncService` (src/api/sync_service.rs, owned by `App` in src/app.rs),
  module `Sync`;
- `AppState` (src/api/app_state.rs) with the `wait_for_party` route
  (src/api/routes.rs), modules `State` and `Routes`.

Their observable differences are kept. `SyncService`'s first party cleans up
before it looks at the wait's result, and a failed cleanup is a 503 reply.
The route cleans up inside each branch, and a failed cleanup is an
`ApiError::LockError` passed up with `?`.

Inputs that stand for what the model cannot see:

- every `try_read`/`try_write` is a boolean saying whether the lock was
  obtained;
- the first party's bounded wait is a `WaitOutcome` (`Notified` or `TimedOut`);
- `Notify` is reduced to a `signalled` flag that `notify_one` sets;
- the configured timeout arrives as an already loaded `u64`.

The route is asynchronous and can only suspend in the first party's wait. It
is modelled in two steps. `Routes.WaitForParty` runs one arrival up to that
wait and returns `AwaitingSecondParty(point)` for a first party.
`Routes.HandleFirstParty` resumes that party once the wait has ended. Other
arrivals can run between the two steps, which is how the module `Scenarios`
replays the orders in tests/routes.rs and tests/api.rs.

`WaitPoint` is declared identically in src/api/sync_service.rs:24-39 and
src/api/app_state.rs:20-35. It is modelled once, as `Rendezvous.WaitPoint`.
`App::validate_timeout` (src/app.rs:66-80) and `AppState::is_valid_timeout`
(src/api/app_state.rs:75-89) are the same check over the same constants. It is
modelled once, as `Timeout.ValidateTimeout`, and both constructors use it.

`AtomicUsize::fetch_add` wraps around, and `Rendezvous.Increment` models that
with a 64-bit `usize`. As a result the role lemmas hold for up to 2^64
arrivals without cleanup. `Routes.CounterWrapReopensAttempt` shows that
an arrival whose position is a multiple of 2^64 would be a first party again.

Registry invariant: `Valid()` on both registries says that distinct keys hold
distinct `WaitPoint` objects. Every operation preserves it. It is why one
key's arrival never changes another key's count or signal.

The timeout is validated when `App` and `AppState` are built, as
src/app.rs:46-56 and src/api/app_state.rs:62-73 do. `SyncService`'s first
party reports the owning `App`'s timeout, so its `timeoutSecs` argument is
that validated value.

## Model

| member | source | states |
|---|---|---|
| `Response.ApiResponse.Success` | src/api/response.rs:37-43 | status Success and no timeout field; the message is "[key] message" for every key, and for a key without `]` the key and the text are read back from it |
| `Response.ApiResponse.Timeout` | src/api/response.rs:46-52 | status Timeout and `timeout_duration_sec` equal to the given seconds; the message is "[key] Request timed out" for every key, and reads back as the key and that text when the key has no `]` |
| `Response.ApiResponse.Error` | src/api/response.rs:55-61 | status Error, the message verbatim, no timeout field |
| `Response.ServiceUnavailable` | src/api/response.rs:64-69 | code 503 with the error body "Service temporarily unavailable"; HTTP class and body status agree |
| `Response.UntagTagged` | src/api/response.rs:40 | the "[key] message" format is invertible: untagging gives back the key and the message whenever the key has no `]` |
| `Response.SuccessIdentifiesKey` | src/api/response.rs:37-43 | for any keys, two welcomes with the same text and equal messages were built for the same key, so the tag tells the keys apart |
| `Timeout.ValidateTimeout` | src/app.rs:66-80 | Ok exactly when 5 <= t <= 300; below 5 gives the "cannot be less than" error and above 300 the "cannot exceed" error |
| `Timeout.DefaultTimeoutIsValid` | src/app.rs:37 | the default of 10 seconds passes validation |
| `Rendezvous.Increment` | src/api/routes.rs:53 | adds one to the count, and wraps to 0 at 2^64 |
| `Rendezvous.WaitPoint.constructor` | src/api/sync_service.rs:33-38 | a new point has count 0 and no signal |
| `Rendezvous.WaitPoint.FetchAdd` | src/api/routes.rs:53 | returns the count before the increment and leaves the count incremented by one |
| `Rendezvous.WaitPoint.NotifyOne` | src/api/routes.rs:90 | the point is signalled afterwards |
| `Sync.SyncService.constructor` | src/api/sync_service.rs:54-58 | a new service has an empty map |
| `Sync.SyncService.GetOrCreatePoint` | src/api/sync_service.rs:194-231 | a present key returns its own point, map unchanged; an absent key with the write lock gains exactly a fresh count-0 point, which is returned, and no other key changes; a missed read or write lock is the 503 reply, map unchanged |
| `Sync.SyncService.CleanupWaitPoint` | src/api/sync_service.rs:168-184 | with the write lock: Ok and the map minus the key, present or not, so repeating it is harmless; without it: the 503 reply and no change |
| `Sync.SyncService.HandleFirstParty` | src/api/sync_service.rs:72-103 | cleanup comes first and its failure is a 503 whatever the outcome; after cleanup, notified gives 200 "[key] Welcome! (first party)" and timed out gives 408 with the configured seconds |
| `Sync.SyncService.HandleSecondParty` | src/api/sync_service.rs:117-129 | signals the point, answers 200 "[key] Welcome! (second party)", leaves the map alone |
| `Sync.SyncService.HandleExtraParty` | src/api/sync_service.rs:145-158 | 409 with "Only 2 parties allowed at a time", no key in the message, nothing changed |
| `Application.App.constructor` | src/app.rs:49-52 | the app holds the given timeout and the given service |
| `Application.App.New` | src/app.rs:46-56 | fails with the validation error exactly when the timeout is out of range; otherwise an app with that timeout and a fresh, empty service |
| `State.AppState.constructor` | src/api/app_state.rs:65-69 | the built state has an empty map and the given timeout |
| `State.AppState.New` | src/api/app_state.rs:62-73 | validates first; on success the state has an empty map and a timeout in [5, 300] |
| `State.AppState.CleanupWaitPoint` | src/api/app_state.rs:91-109 | with the write lock: Ok and the key absent afterwards, present before or not; without it: `LockError` and no change |
| `Routes.RoleOf` | src/api/routes.rs:54-58 | previous 0 is the first party, 1 the second, every value from 2 on an extra party carrying that count |
| `Routes.ArrivalRoles` | src/api/routes.rs:53-58 | one role per arrival: `n` successive arrivals from a count get `n` roles |
| `Routes.ArrivalRoleAt` | src/api/routes.rs:53-58 | the i-th of successive arrivals at a point sees the starting count advanced by i, modulo 2^64 |
| `Routes.ArrivalRolesSnoc` | src/api/routes.rs:53-58 | one more arrival at a fresh point appends the role its position, modulo 2^64, names |
| `Routes.FirstAndSecondAreUnique` | src/api/routes.rs:53-58 | of up to 2^64 arrivals at a fresh point, exactly the first waits and exactly the second signals |
| `Routes.CounterWrapReopensAttempt` | src/api/routes.rs:53 | without cleanup, arrival i at a fresh point is a first party exactly when i is a multiple of 2^64, because the counter wraps |
| `Routes.PlainSuccess` | src/api/routes.rs:77 | the one-argument success: status Success, the message verbatim, no timeout field |
| `Routes.GetOrCreatePoint` | src/api/routes.rs:27-46 | a present key returns its own point; an absent key with the write lock gets a fresh count-0 point inserted under it; a missed lock is `LockError` with the read or write message and the map unchanged |
| `Routes.WaitForParty` | src/api/routes.rs:23-59 | the arrival's point is the key's entry, old or fresh; its count goes up by exactly one; the role is the one the pre-increment count names; a missed read lock changes neither the map nor the key's count or signal, a missed write lock leaves the map alone; no other key's entry, count or signal changes |
| `Routes.HandleFirstParty` | src/api/routes.rs:61-86 | removes the key on both paths; a failed cleanup is `LockError`; notified gives 200 "Welcome! (first party)"; timed out gives `TimeoutError` with the configured seconds |
| `Routes.HandleSecondParty` | src/api/routes.rs:88-95 | signals the point and answers 200 "Welcome! (second party)"; the registry is not in its frame |
| `Routes.HandleExtraParty` | src/api/routes.rs:97-107 | 409 with "Only 2 parties allowed at a time"; nothing changes |
| `Scenarios.ArrivalsWithoutResolution` | src/api/routes.rs:23-59 | `n` unresolved arrivals for a new key take the roles `ArrivalRoles(0, n)` in order, under one fresh point whose count is `n` modulo 2^64; of up to 2^64 of them only the first waits and only the second is welcomed |
| `Scenarios.SinglePartyTimesOut` | tests/routes.rs:26-36 | a lone arrival ends in `TimeoutError` with the configured seconds, and the registry is empty afterwards |
| `Scenarios.SuccessfulSync` | tests/routes.rs:39-53 | two arrivals for one key, with no resolution between them, are first and second; both are welcomed and the registry ends empty |
| `Scenarios.ThreePartiesJoin` | tests/routes.rs:56-83 | after the pair resolves, a third arrival for the key gets a fresh point, is a first party again and times out |
| `Scenarios.ThirdArrivalWhilePairOpen` | src/api/routes.rs:54-57 | a third arrival before the first party's cleanup is refused with 409, and the first party is still welcomed |
| `Scenarios.TwoKeysPairIndependently` | tests/api.rs:90-110 | the A, B, A, B arrival order of that test: both keys pair successfully, and A's signal leaves B's point unsignalled; the replies are the untagged ones of src/api/routes.rs, not the tagged ones that test expects |
| `Scenarios.CleanupIsIdempotent` | src/api/app_state.rs:92-98 | removing a key twice answers Ok both times and leaves the registry as one removal does |

## Left out

- Configuration loading (the file, environment and default precedence of `Config::builder`): it is a foreign library. The loaded `u64` is an input.
- Real waiting and notification (`tokio::time::timeout`, `Notify::notified`): the wait's result is the `WaitOutcome` input. The model does not tie `Notified` to an earlier `notify_one`; the scenarios pass `Notified` only after the point has been signalled.
- Lock behaviour and races: `parking_lot::RwLock`, the memory ordering of `AtomicUsize`, and the window between a `try_read` miss and the `try_write` insert, where a concurrent insert could be overwritten. Each lock attempt is a boolean input, and each registry operation is one atomic step.
- HTTP routing, `State<...>`, JSON and serde rendering (including the lower-case status names), `build_rocket`, `main`, the `index` route and all logging.
- `ApiError` and its `Into` conversion are not defined in the files this model covers. `ApiError` is the datatype `LockError | TimeoutError`, and the model makes no claim about how it is rendered.
- src/api/routes.rs:77 and :93 call a one-argument `ApiResponse::success` that src/api/response.rs does not define. It is modelled as `Routes.PlainSuccess`, which keeps the message verbatim, as tests/test_utils.rs:38-48 expects.
- src/main.rs imports `build_rocket` from `app_state`, where it does not exist. This is not reconciled.
- `Duration` is whole seconds: every timeout is built with `Duration::from_secs`, so `as_secs` gives back the same number.
- `Rendezvous.WaitPoint`: the `usize` is taken as 64 bits wide.
- `Scenarios.TwoKeysPairIndependently`: tests/api.rs:90-110 expects the tagged `SyncService` messages; the scenario runs the `AppState` route, whose replies are untagged, so only the arrival order is taken from that test.
