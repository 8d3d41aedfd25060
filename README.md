# Load balancer core, in Dafny

This project models the core of a small layer-7 HTTP load balancer written in Go. The core has three parts:

- **Backend pool.** An ordered list of backends, each with a read/write-locked liveness flag, plus a shared `uint64` rotation cursor.
- **Peer selection.** Round-robin selection that skips dead backends (`NextIndex`, `GetNextPeer`).
- **Dispatch engine.** A failed forward runs the reverse proxy's `ErrorHandler`:
  - below three retries, it forwards again to the same backend;
  - whatever that retry did, it then marks the backend dead and re-enters the `lb` handler with one more attempt;
  - `lb` writes a 503 once the attempt count passes three, or when no backend is alive.

The repository has two copies of the engine:

- the packaged balancer in `cmd/internal`, which marks a dead backend through `Backend.SetAlive`;
- the standalone prototype in `cmd/app/main.go`, which marks it through `ServerPool.MarkBackendStatus` with the backend's URL.

Both copies are modelled. The port allocator `port.Service` that `balancer.New` draws ports from is modelled too.

Modules, one per source concept:

| module | file | models |
|---|---|---|
| `Wrappers` | wrappers.dfy | `Option`, and `Result` for Go's `(value, error)` returns |
| `Instance` | instance.dfy | the `Backend` class (port, URL, liveness flag) and the decimal text of a port in its URL |
| `Rotation` | rotation.dfy | round-robin selection on values: `Select` is what `GetNextPeer` computes from the flags and the cursor, and `Rounds` is a run of consecutive calls |
| `Pool` | pool.dfy | the `ServerPool` class, with `NextIndex`, `GetNextPeer`, `HealthCheck` and `MarkBackendStatus` as methods proved against `Rotation` |
| `Web` | web.dfy | the request context as a map from keys to dynamically typed values, and the two counter getters |
| `Dispatch` | dispatch.dfy | `lb`, the forward, and the `ErrorHandler` as mutually recursive functions on a `State`: flags, cursor, forward count, and the events the transport and the response writer see. Also the `Exchange` class, one request in flight |
| `Port` | port.dfy | the `port.Service` class |
| `Balancer` | balancer.dfy | the `cmd/internal` balancer: `New`, and the handler methods, each proved equal to its `Dispatch` function |
| `App` | app.dfy | the `cmd/app` prototype: its setup, and the handler methods, proved against the same `Dispatch` functions |

The handler methods change the pool's flags and cursor and the exchange in place. Each method's `ensures` says that the new state is the corresponding `Dispatch` function of the old state. The lemmas in `Dispatch` then prove, for every transport outcome:

- the dispatch never forwards above the attempt cap;
- it never brings a dead backend back;
- it marks a backend dead only after a failed forward to it;
- it forwards at most 69 times for a fresh request.

The transport is an input: a function giving the outcome of the forward numbered k, counting every forward of the request, to a given URL.

The model follows the code as written. Two consequences of the way the handlers nest:

- **Several 503s per request.** The ErrorHandler nests its same-backend retry instead of looping:
  - each `ErrorHandler` first runs the nested retry, whose own failure runs a nested `ErrorHandler`;
  - the outer handler then marks the backend dead and calls `lb` again.

  So one request can lead to several forwards and several `http.Error` writes. `Dispatch.AlwaysFailingSingleBackend` shows four 503 bodies written by one request.
- **Marked dead after its retries.** Because the retry runs first, a backend is marked dead only after its nested retries return, even when a retry succeeded. `Dispatch.SuccessfulRetryStillFailsOver` shows this case.

## Model

| member | source | states |
|---|---|---|
| Instance.DecimalRoundTrip | cmd/internal/instance/instance.go:29 | reading back the decimal text `%d` prints for a port gives the port |
| Instance.DecimalInjective | cmd/internal/instance/instance.go:29 | different ports print as different decimal text |
| Instance.UrlOfInjective | cmd/app/main.go:59-61 | backends on different ports never share a URL, even with a common path appended |
| Instance.Backend.New | cmd/internal/instance/instance.go:28-45 | a new backend has the given port, host `localhost:<port>`, URL `http://localhost:<port>`, and is alive |
| Instance.Backend.WithPath | cmd/app/main.go:59-96 | the prototype's backend record: URL `http://localhost:<port>` followed by the path, alive |
| Instance.Backend.IsAlive | cmd/internal/instance/instance.go:79-83 | returns the liveness flag; reads only the backend |
| Instance.Backend.SetAlive | cmd/internal/instance/instance.go:85-89 | the flag equals the value written; no other field changes |
| Instance.SetThenRead | cmd/internal/instance/instance.go:79-89 | a value written with SetAlive is what IsAlive reads next |
| Rotation.Advance | cmd/internal/balancer/pool.go:17 | the atomic increment: cursor + 1, wrapping to 0 at 2^64 |
| Rotation.NextIndexOf | cmd/internal/balancer/pool.go:16-18 | NextIndex's result is a valid pool index |
| Rotation.FirstAlive | cmd/internal/balancer/pool.go:23-33 | the offset found is alive and every offset the scan passed before it is dead; None only when every remaining offset is dead |
| Rotation.Select | cmd/internal/balancer/pool.go:20-35 | the peer found is alive; a live first candidate is returned with the incremented cursor; after skipping, the cursor becomes the found index; with no peer, the cursor is only incremented |
| Rotation.ScanFound | cmd/internal/balancer/pool.go:23-31 | the loop's early return at the first live slot after dead ones is Select's peer and cursor |
| Rotation.ScanExhausted | cmd/internal/balancer/pool.go:23-34 | a loop that meets only dead slots ends as Select's no-peer outcome |
| Rotation.SelectNoneIffAllDead | cmd/internal/balancer/pool.go:20-35 | selection finds no peer if and only if every backend is dead |
| Rotation.SelectIsFirstInCyclicOrder | cmd/internal/balancer/pool.go:23-32 | every position between NextIndex's index and the peer found, in cyclic order, is dead |
| Rotation.Rounds | cmd/app/main_test.go:40-42 | the peers of m consecutive GetNextPeer calls on unchanged flags: m results, the first of which is Select's peer |
| Rotation.RoundsNeverDead | cmd/internal/balancer/pool.go:26-31 | no call in any run of consecutive calls returns a dead backend |
| Rotation.RoundsAllAlive | cmd/internal/balancer/pool.go:16-31 | with every backend alive, and for cursors that stay below the uint64 wrap-around during the m calls, the j-th of consecutive calls returns (cursor + 1 + j) mod n |
| Rotation.RoundsInCyclicOrder | cmd/internal/balancer/pool.go:16-35 | with every backend alive, and for cursors that stay below the uint64 wrap-around during the n calls, the j-th of n calls returns the backend j places after NextIndex's index |
| Rotation.RoundRobinFair | cmd/internal/balancer/pool.go:16-35 | with every backend alive, and for cursors that stay below the uint64 wrap-around during the n calls, n consecutive calls return each of the n backends exactly once, in cyclic order |
| Rotation.PrototypeTestScenario | cmd/app/main_test.go:10-43 | the test's pool [alive, dead, alive, alive]: ten calls return backends 2, 3, 0, 2, 3, 0, 2, 3, 0, 2 |
| Rotation.SkipDeadScenario | cmd/internal/balancer/pool.go:20-35 | three backends, the middle one dead: the first call skips to the third, the second wraps to the first |
| Pool.IndexOfUrl | cmd/internal/balancer/pool.go:45-53 | the index MarkBackendStatus stops at holds u and no earlier one does; None when no URL equals u |
| Pool.SetFlag | cmd/internal/balancer/pool.go:45-53 | only the flag at the found index changes, to the given value; no match changes nothing |
| Pool.IndexOfDistinctUrl | cmd/app/main.go:157-165 | when backend p's URL is unique, the search for it stops at p |
| Pool.SetFlagOfDistinctUrl | cmd/app/main.go:83 | marking the URL of a backend with a unique URL changes exactly that backend's flag |
| Pool.ServerPool.Of | cmd/internal/balancer/balancer.go:21-37 | the pool holds the given backends in order, cursor 0, each backend once |
| Pool.ServerPool.NextIndex | cmd/internal/balancer/pool.go:16-18 | the cursor advances by one with the uint64 wrap, and the index returned is the new cursor mod n (also cmd/app/main.go:179-181) |
| Pool.ServerPool.GetNextPeer | cmd/internal/balancer/pool.go:20-35 | the cursor and peer are exactly Select's on the flags; a peer returned is an alive pool member; null if and only if every backend is dead (also cmd/app/main.go:183-198) |
| Pool.ServerPool.HealthCheck | cmd/internal/balancer/pool.go:37-43 | afterwards every backend's flag is its probe result (also cmd/app/main.go:149-155) |
| Pool.ServerPool.MarkBackendStatus | cmd/internal/balancer/pool.go:45-53 | sets the flag of the first backend whose URL equals u; nothing else changes, and nothing at all when no URL matches (also cmd/app/main.go:157-165) |
| Web.GetRetryFromContext | cmd/app/main.go:36-41 | the int stored under the Retry key, or 0 when the key is absent or holds a non-int value |
| Web.GetAttemptsFromContext | cmd/app/main.go:43-49 | the int stored under the Attempts key, or 0 when the key is absent or holds a non-int value |
| Web.IntOrZero | cmd/app/main.go:36-49 | the int stored under the key, or 0 when the key is absent or holds a non-int value |
| Web.WithValue | cmd/app/main.go:78 | the derived context holds the new value under its key and every other key unchanged |
| Web.RetryRoundTrip | cmd/app/main.go:74-79 | a stored retry count reads back as stored, and the attempt count is unchanged |
| Web.AttemptsRoundTrip | cmd/app/main.go:85-88 | a stored attempt count reads back as stored, and the retry count is unchanged |
| Dispatch.Lb | cmd/internal/balancer/balancer.go:51-67 | the lb handler on values: attempt cap, then selection, then the forward or a 503; the pool keeps its size. Its behaviour is stated by the Lb lemmas below |
| Dispatch.Proxy | cmd/internal/balancer/balancer.go:62 | one forward through backend p's reverse proxy; its contract says only that the pool keeps its size. Its behaviour is stated by ProxyStep, ProxyFirstEvent, ProxyKeeps, ProxyMarksOnlyFailed and ProxyBounded |
| Dispatch.HandleError | cmd/internal/instance/instance.go:47-56 | the ErrorHandler on values; its contract says only that the pool keeps its size. Its behaviour is stated by HandleErrorRetries, HandleErrorNoRetryAtCap, HandleErrorKeeps, HandleErrorMarksOnlyFailed and HandleErrorBounded |
| Dispatch.Failover | cmd/internal/instance/instance.go:58-63 | the ErrorHandler's last step: p marked dead, then lb with attempts + 1 and the same retry count; the pool keeps its size |
| Dispatch.HandleErrorRetries | cmd/internal/instance/instance.go:49-55 | below 3 retries, the ErrorHandler's first act is a forward to the same backend, same attempt count, retry count + 1 |
| Dispatch.HandleErrorNoRetryAtCap | cmd/internal/instance/instance.go:49-63 | at 3 retries or more, the ErrorHandler forwards to no backend at its own attempt count: every forward it adds has a higher attempt count and the same retry count, and its backend ends dead |
| Dispatch.FailoverNextAttempt | cmd/internal/instance/instance.go:58-63 | the failover leaves p dead, only appends events, and every forward it adds has a higher attempt count and a retry count in [r, max(r, 3)] |
| Dispatch.LbKeeps | cmd/internal/balancer/balancer.go:51-67 | lb keeps the pool size, only appends events, never revives a dead backend, forwards only with attempts in [a, 3] and retries in [r, max(r, 3)], and every failed forward leaves its backend dead |
| Dispatch.ProxyKeeps | cmd/internal/balancer/balancer.go:59-64 | the same for one forward through a backend's reverse proxy and the error handling it triggers |
| Dispatch.HandleErrorKeeps | cmd/internal/instance/instance.go:47-64 | the same for the ErrorHandler, which always leaves its backend dead |
| Dispatch.LbMarksOnlyFailed | cmd/internal/balancer/balancer.go:51-67 | every backend lb turns from alive to dead was the target of a failed forward during that call |
| Dispatch.ProxyMarksOnlyFailed | cmd/internal/balancer/balancer.go:59-64 | the same for one forward and the error handling it triggers |
| Dispatch.HandleErrorMarksOnlyFailed | cmd/internal/instance/instance.go:47-64 | the ErrorHandler marks dead only its failed backend and backends whose later forwards failed |
| Dispatch.FailoverMarksOnlyFailed | cmd/internal/instance/instance.go:58-63 | marking the failed backend dead and re-entering lb marks dead only backends with a failed forward, and only appends events |
| Dispatch.FreshRequestBound | cmd/internal/instance/instance.go:49-63 | the forward bound for a fresh request (both counters 0) is 69 |
| Dispatch.LbBounded | cmd/internal/balancer/balancer.go:51-67 | lb makes at most ForwardBound(a, r) forwards, whatever the transport answers |
| Dispatch.ProxyBounded | cmd/internal/balancer/balancer.go:59-64 | the same bound for one forward and the error handling it triggers |
| Dispatch.HandleErrorBounded | cmd/internal/instance/instance.go:47-64 | the ErrorHandler makes at most the nested retry's bound plus the next attempt's bound |
| Dispatch.LbCapped | cmd/internal/balancer/balancer.go:52-57 | past the attempt cap, lb only writes "Service not available": no selection, no forward, no flag change |
| Dispatch.LbNoPeer | cmd/internal/balancer/balancer.go:59-66 | with no backend alive, lb only advances the cursor and writes "service unavailable" |
| Dispatch.ProxyFirstEvent | cmd/internal/balancer/balancer.go:62 | a forward's first event is that forward, under the request's counters, with the transport's outcome |
| Dispatch.LbForwardsToSelected | cmd/internal/balancer/balancer.go:59-64 | with some backend alive, lb's first event is a forward to the alive backend that selection picks |
| Dispatch.AlwaysFailingSingleBackend | cmd/internal/instance/instance.go:47-64 | one always-failing backend: four forwards at retries 0 to 3, the backend ends dead, and four "service unavailable" writes |
| Dispatch.SuccessfulRetryStillFailsOver | cmd/internal/instance/instance.go:47-64 | a successful same-backend retry still marks the backend dead and sends the request once more, to another backend |
| Dispatch.Exchange.Forward | cmd/internal/balancer/balancer.go:62 | a round trip succeeds as the transport says for this URL and forward number; it is counted and recorded |
| Dispatch.Exchange.Fail | cmd/internal/balancer/balancer.go:55 | http.Error appends one 503 event with the given body |
| Balancer.Balancer.New | cmd/internal/balancer/balancer.go:20-38 | fails exactly when an instance is asked for beyond the allocator's limit; otherwise one fresh, alive backend per instance on consecutive ports after the allocator's last, each URL `http://localhost:<port>`, a valid pool with cursor 0 |
| Balancer.Balancer.Lb | cmd/internal/balancer/balancer.go:51-67 | the new flags, cursor, forwards and events are Dispatch.Lb of the old ones at the context's counters |
| Balancer.Balancer.Proxy | cmd/internal/balancer/balancer.go:62 | the new state is Dispatch.Proxy of the old one |
| Balancer.Balancer.MarkDead | cmd/internal/instance/instance.go:58 | SetAlive(false) on backend p drops exactly p's flag |
| Balancer.Balancer.HandleError | cmd/internal/instance/instance.go:47-64 | the new state is Dispatch.HandleError of the old one |
| Balancer.Balancer.Failover | cmd/internal/instance/instance.go:58-63 | the new state is Dispatch.Failover of the old one: p marked dead, then lb with attempts + 1 |
| App.Balancer.StartBackends | cmd/app/main.go:59-97 | four fresh, alive backends on ports 8081 to 8084 with URLs `http://localhost:<port>/hello`, no two URLs equal |
| App.Balancer.Build | cmd/app/main.go:55-97 | the prototype's pool: those four backends in order, cursor 0, the balancer's invariant established |
| App.Balancer.Lb | cmd/app/main.go:119-135 | the new state is Dispatch.Lb of the old one at the context's counters |
| App.Balancer.Proxy | cmd/app/main.go:130 | the new state is Dispatch.Proxy of the old one |
| App.Balancer.MarkDead | cmd/app/main.go:83 | MarkBackendStatus with backend p's URL drops exactly p's flag, because URLs are unique |
| App.Balancer.HandleError | cmd/app/main.go:72-89 | the new state is Dispatch.HandleError of the old one, the same state machine as the packaged balancer |
| App.Balancer.Failover | cmd/app/main.go:83-88 | the new state is Dispatch.Failover of the old one |
| Port.Service.New | cmd/internal/port/port.go:12-20 | base port 8080, the given limit, nothing allocated |
| Port.Service.GetBasePort | cmd/internal/port/port.go:22-24 | returns the base port and changes nothing |
| Port.Service.GetNext | cmd/internal/port/port.go:26-37 | past the limit: the "too many ports allocated" error, nothing changed; otherwise the port just above the last one handed out, recorded and counted; the allocated set stays exactly the base port + 1 up to the base port + count |

## Left out

- Ping and isBackendAlive (a TCP dial with a 2-second timeout, plus Ping's simulated failure about 10% of the time) are network I/O. HealthCheck takes the probe results as its input `pings`.
- The 20-second healthCheck ticker loop, Serve, the chi router, ListenAndServe, and the backend servers (RunProxy, startProxyBackend) are I/O and goroutines. They are not modelled.
- Concurrency is not modelled. The read/write mutex and the atomic add and store on the cursor are plain reads and writes, and one request is dispatched at a time.
- Logging is not modelled. balancer.New's log.Fatal is the Failure result of Balancer.Balancer.New.
- The reverse proxy's mechanics are not modelled: the Director's host rewrite, the request and response bodies, the error value given to the ErrorHandler, and the 503 status code. A forward is one call to the transport. The transport is the function `ok(url, k)` from a target URL and a running forward number to success, and a 503 write is an event with its body.
- The 10 ms wait before a same-backend retry is not modelled, because time is not modelled.
- The package cmd/internal/platform/web is not part of this model. Its counter getters are taken to behave like those of cmd/app/main.go:36-49, with the same iota keys.
- NextIndex, GetNextPeer and lb require a non-empty pool. Go panics there with a modulo by zero.
- Port.Service.GetNext: Go's `int` overflow of `portCount + 1` and `basePort + count` is not modelled, because integers are unbounded here.
- RoundsAllAlive, RoundsInCyclicOrder and RoundRobinFair are stated only for cursors that do not reach the uint64 wrap-around within the calls. At the wrap, the source's walk jumps back to index 0 mod n. Rotation.Advance models the wrap itself.
- Balancer.Balancer.Failover calls Lb directly. In the source, instance.New receives balancer.lb as its errCallback and the ErrorHandler calls it.
- Balancer.Balancer.HandleError: the single ErrorHandler closure is two methods here. HandleError does the retry and Failover does the marking and re-dispatch. They run in the same order as the closure.
- Balancer.Balancer.New and App.Balancer.Build collect the backends first and then build the pool, instead of appending to the pool's slice one at a time. Nothing reads the pool during setup.
- The `slot` and `urlSlot` maps are proof-only ghost state. They record each backend's position and are not in the source.
