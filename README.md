# Live quiz web client: stores and realtime logic

This project models the state-holding core of a browser client for a live
school quiz. The client keeps three reactive stores: the quiz status, the
latest question result, and the student's auth token. A realtime socket
feeds the first two from server-pushed events and sends the host's
`status-change` requests, which the server acknowledges.

Each store is a class whose one field (`value`) is the store's cell. The
update callbacks that merge a partial status into the quiz store are pure
functions, and so is the routing of a server event into the stores. The
browser's local storage is a class holding a `map<string, string>`.

Modules:

- `Wrappers` (`wrappers.dfy`): `Option`, and the JavaScript truthiness of an optional string (`Truthy`, `OrElse` for `s || fallback`).
- `Types` (`types.dfy`): `QuestionResult` and `SchoolClass`.
- `Quiz` (`quiz.dfy`): `QuizStatus`, the `setStatus` and `setHostInfo` update callbacks, and the `QuizStore` class.
- `QuestionResults` (`question_results.dfy`): the `QuestionResultStore` class.
- `Auth` (`auth.dfy`): `LocalStorage` and the `AuthStore` class.
- `Realtime` (`realtime.dfy`): the handshake record, event routing (`Route`, plus `Replay` over a sequence of events), the acknowledgement handler, and the `RealtimeClient` class.

Optional record keys are `Option` values. `Some(v)` means the key is present
with value `v`. `None` means the key is absent, and a partial record then
does not override that key. JavaScript also lets a key be present with the
value `undefined`. Such a key would override with `undefined`, but the model
cannot express it. Payloads that arrive over the socket are JSON, and JSON
drops such keys, so for the event paths the two readings agree.

The `quiz-status` payload has the type its handler declares
(src/lib/socket/index.ts:48): `is_active`, `round` and `remaining_time`, with no
student count. Because of this, only `host-info` events change the student
count (`Realtime.ReplayNumStudents`).

## Model

| member | source | states |
|---|---|---|
| `Quiz.SetStatusUpdate` | src/lib/stores/quizStore.ts:15-25 | on a null store the result is exactly the partial record; otherwise every key present in the partial record takes its value, and every absent key keeps its previous value |
| `Quiz.SetHostInfoUpdate` | src/lib/stores/quizStore.ts:26-36 | the student count becomes the given one; on a null store no other key is present; otherwise `is_active`, `round` and `remaining_time` are unchanged |
| `Quiz.SetStatusIdempotent` | src/lib/stores/quizStore.ts:15-25 | applying the same partial status twice equals applying it once |
| `Quiz.SetStatusComposes` | src/lib/stores/quizStore.ts:20-23 | two successive partial updates equal one update by the second laid over the first |
| `Quiz.SetHostInfoIsSetStatus` | src/lib/stores/quizStore.ts:26-36 | `setHostInfo(n)` equals `setStatus` with a record holding only `num_students = n`, null case included |
| `Quiz.QuizStore.constructor` | src/lib/stores/quizStore.ts:11 | the store starts as null |
| `Quiz.QuizStore.SetStatus` | src/lib/stores/quizStore.ts:15-16 | the new value is the `setStatus` callback applied to the old one |
| `Quiz.QuizStore.SetHostInfo` | src/lib/stores/quizStore.ts:26-27 | the new value is the `setHostInfo` callback applied to the old one |
| `Quiz.QuizStore.Reset` | src/lib/stores/quizStore.ts:37-39 | the store is null from any state |
| `Quiz.ResetThenSetStatus` | src/lib/stores/quizStore.ts:15-39 | after a reset, `setStatus(p)` leaves exactly `p`, as on a fresh store |
| `QuestionResults.QuestionResultStore.constructor` | src/lib/stores/questionResultStore.ts:5 | the store starts as null |
| `QuestionResults.QuestionResultStore.SetResult` | src/lib/stores/questionResultStore.ts:9 | the value is exactly the new result; nothing of the old one is merged |
| `QuestionResults.QuestionResultStore.Reset` | src/lib/stores/questionResultStore.ts:10 | the store is null from any state |
| `QuestionResults.LastResultWins` | src/lib/stores/questionResultStore.ts:9 | `setResult(a)` then `setResult(b)` leaves `b` |
| `Wrappers.OrElse` | src/lib/socket/index.ts:24 | the result is `s` when `s` is a non-empty string, and `fallback` otherwise (the JavaScript `or` on strings) |
| `Auth.LocalStorage.GetItem` | src/lib/stores/authStore.ts:15 | the stored string when the key is present, null exactly when it is missing |
| `Auth.LocalStorage.SetItem` | src/lib/stores/authStore.ts:10 | writes one key; every other key is unchanged |
| `Auth.TokenAfterInit` | src/lib/stores/authStore.ts:15-18 | a truthy stored token is adopted; a missing or empty one leaves the current token |
| `Auth.AuthStore.constructor` | src/lib/stores/authStore.ts:4-5 | no token, and not initialized |
| `Auth.AuthStore.SetToken` | src/lib/stores/authStore.ts:9-12 | storage gets the token under `'token'`, the store's value is the token, `initialized` is unchanged |
| `Auth.AuthStore.Init` | src/lib/stores/authStore.ts:13-21 | afterwards initialized; the first call loads the token as `TokenAfterInit` says; a later call changes nothing; storage is never written |
| `Auth.AuthStore.IsInitialized` | src/lib/stores/authStore.ts:22 | reports whether `init` has run |
| `Auth.InitIgnoresLaterStorage` | src/lib/stores/authStore.ts:13-21 | `init`, a storage write, and `init` again leave the token as the first `init` left it |
| `Realtime.BuildAuth` | src/lib/socket/index.ts:19-26 | a host's record is exactly `{role: 'host'}`; any other role, absent included, gives `{token, role: 'student'}` with the supplied token if non-empty, else `''` |
| `Realtime.RealtimeClient.constructor` | src/lib/socket/index.ts:8 | no socket yet, nothing emitted |
| `Realtime.RealtimeClient.InitSocket` | src/lib/socket/index.ts:19-28 | points the module's socket at a new connection opened with the handshake record for the given auth |
| `Realtime.RealtimeClient.GetSocket` | src/lib/socket/index.ts:71-73 | returns the current socket, if any |
| `Realtime.Route` | src/lib/socket/index.ts:46-62 | `quiz-status` goes to `setStatus`, `host-info` to `setHostInfo`, `question-result` to `setResult`; each leaves the other store alone, and logged-only events change nothing |
| `Realtime.RouteIdempotent` | src/lib/socket/index.ts:46-62 | delivering the same event twice leaves the stores as delivering it once |
| `Realtime.RealtimeClient.HandleEvent` | src/lib/socket/index.ts:34-66 | the registered handler changes the two stores exactly as `Route` says |
| `Realtime.ReplayNumStudents` | src/lib/socket/index.ts:46-62 | after any event sequence, the student count is the last `host-info` count, or the earlier count if no `host-info` came |
| `Realtime.ReplayQuestionResult` | src/lib/socket/index.ts:54-57 | after any event sequence, the question result is the last one pushed, or the earlier one if none was pushed |
| `Realtime.ReplayActiveFlag` | src/lib/socket/index.ts:46-52 | after any event sequence, `is_active` is the last one a `quiz-status` carried; payloads without the key never clear it |
| `Realtime.ReplayQuizPresent` | src/lib/socket/index.ts:46-62 | events never null the quiz store: it is non-null afterwards exactly when it was before or some `quiz-status` or `host-info` event came |
| `Realtime.AckOutcome` | src/lib/socket/index.ts:91-97 | resolves exactly when `success`; a rejection carries the server's error when non-empty, else `'Failed to change status'`, and is never empty |
| `Realtime.RealtimeClient.EmitStatusChange` | src/lib/socket/index.ts:75-100 | without a socket it rejects with `'Socket not initialized'` and emits nothing; otherwise it emits the payload once and settles as `AckOutcome` says |

## Left out

- The socket.io connection itself (`io(...)`), its reconnection options, and the transport are not modelled. A connected socket is represented by its handshake record.
- Auth.LocalStorage.SetItem / Auth.AuthStore.SetToken / Auth.AuthStore.Init: browser storage is modelled as never failing. In a browser, `setItem` can throw (quota exceeded, storage disabled) and `getItem` can throw a security error. A throwing `setItem` in `setToken` leaves the token cell unset, because the write to storage comes first (src/lib/stores/authStore.ts:10-11). A throwing `getItem` in `init` leaves `initialized` false, so a later `init` tries again (src/lib/stores/authStore.ts:15-19). The model has neither path: its `setToken` always sets the cell and its `init` always sets the flag.
- Realtime.RealtimeClient.InitSocket: a second `initSocket` only repoints the module's `socket` variable (src/lib/socket/index.ts:28). The earlier connection is not closed, and its handlers keep delivering events into the stores. The model does not track the earlier connections. Their deliveries are still ordinary event sequences for `Replay`, and `Realtime.RouteIdempotent` shows that one event delivered twice equals one delivery. Only `getSocket` and `emitStatusChange` use the newest connection.
- The 5000 ms timeout that rejects with `'Status change timeout'` is left out. It is a timer race, and the acknowledgement is a parameter of `EmitStatusChange`. Because of this, the model has no path where the acknowledgement never arrives.
- Console logging is not modelled. The `connect`, `connect_error`, `error` and `disconnect` events are events that change nothing.
- Svelte's `writable` subscribe and notify mechanics are not modelled. Each store is a plain mutable cell.
- JavaScript numbers are doubles. Round numbers, student counts and remaining time are modelled as `int`, and percentages and class scores as `real`. The core does no arithmetic on them.
- A key that is present with the value `undefined` is not representable. See the note on optional keys above.
- `quiz-status` payloads that carry keys outside the handler's declared type are not modelled. At run time the spread would copy such keys too.
- Object identity is not modelled. On a null store, `setStatus` keeps the caller's object by reference, while the model copies a value.
- src/lib/api/index.ts (REST calls over `fetch`), src/lib/config.ts (constant URL selection) and tailwind.config.ts (styling) are not part of this model. They are network I/O or configuration and have no local logic.
- src/lib/types/index.ts has only declarations. Its `QuestionResult` and `SchoolClass` are datatypes in `Types`. Its `QuizStatus` duplicates the store's own type, which is `Quiz.QuizStatus`.
