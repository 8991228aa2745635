# Balancer and version model

A Dafny model of the client-side balancer of the YDB Go SDK and of its version constants.

The balancer picks a connection for each outgoing call and feeds the call's outcome back into the connection pool. A connection whose failure must be pessimised is banned, and a successful call allows it again. Cluster discovery rebuilds the connections snapshot and un-bans every connection it reports. After each discovery the balancer notifies its `OnUpdate` subscribers. When more than half of the preferred tier was skipped, it forces the discovery repeater.

`balancer.dfy` (module `Balancer`) is imperative, like the source.
- `Pool` is a class. It maps each address to a connection entry that holds the health (`Allowed` or `Banned`) and a flag saying whether its endpoint was touched.
- `Balancer` is a class. Its fields are the current snapshot (`connectionsState`), the subscriber list (`onDiscovery`), whether a repeater exists, and counters of `Force()` and `Stop()` calls.
- Calling a subscriber is recorded in the ghost log `delivered`.
- The snapshot's own selection algorithm is not part of this model. `GetConnection` and `PreferredCount` are function parameters (`choose`, `preferredCount`) supplied per call.
- The pessimisation classifier `MustPessimizeEndpoint` is also a function parameter (`mustPessimize`).
- Collaborator outcomes are parameters too: discovery-client dialing, `Discover`, the local-DC detector, metadata attachment and the wrapped operation.

`version.dfy` (module `Version`) holds the version constants. Its lemmas show how `Version` and `FullVersion` are composed, and that splitting `Version` on dots gives back its three components. That proof goes through a split/join round trip.

Two behaviours of the code are worth noting, and the model follows them.
- `Close` calls `Stop()` on every call when a repeater exists. Idempotence is left to the repeater.
- In `wrapCall`, a failure to attach call metadata skips the operation. Its error still goes through the deferred pessimisation check.

## Model

| member | source | states |
|---|---|---|
| `Balancer.EndpointsToConnections` | internal/balancer/balancer.go:335-341 | one connection per endpoint, in input order, each the pool's handle for that endpoint; the pool gains an allowed, untouched entry for each new address and keeps every existing entry |
| `Balancer.CopyEndpointsInfo` | internal/balancer/balancer.go:139-142 | the endpoint list handed to subscribers is exactly the discovered list, element by element |
| `Balancer.Balancer.OnUpdate` | internal/balancer/balancer.go:45-49 | a subscriber is only appended at the end of the list, so each later discovery's calls are those of the old list followed by one call of the new subscriber |
| `Balancer.Notifications` | internal/balancer/balancer.go:146-148 | subscriber calls: one per registration, in registration order, each with the discovered endpoints |
| `Balancer.Balancer.ApplyDiscoveredEndpoints` | internal/balancer/balancer.go:129-150 | every discovered connection is Allowed and touched, previously banned ones included; other pool entries are unchanged; the snapshot becomes the one built from exactly those connections, the local DC and the fallback flag; each subscriber is called once, in order |
| `Balancer.MarkRetryable` | internal/balancer/balancer.go:74-81 | an error is wrapped as retryable if and only if it is present, the parent context is alive and its chain holds a deadline or cancellation; otherwise it is returned unchanged |
| `Balancer.MarkRetryableKeepsIdentity` | internal/balancer/balancer.go:76-80 | reclassifying never loses an error and keeps it recognisable as a context error exactly when it was one |
| `Balancer.AttemptOutcome` | internal/balancer/balancer.go:104-122 | an attempt succeeds if and only if dialing, `Discover` and, only when local-DC detection is on, the detector all succeed; the first failure (dial, then `Discover`, then the detector) is the error; the local DC is empty when detection is off |
| `Balancer.Balancer.ClusterDiscoveryAttempt` | internal/balancer/balancer.go:63-127 | a failed attempt leaves snapshot, pool and subscriber log unchanged; a successful one applies the discovered endpoints; the returned error is the reclassified one |
| `Balancer.ForceOnlyPastHalf` | internal/balancer/balancer.go:321 | the force threshold is strictly more than half of the preferred tier; exactly half does not force |
| `Balancer.Balancer.GetConn` | internal/balancer/balancer.go:298-333 | a done context fails with its own error and never forces; otherwise the snapshot's connection is returned unchanged, or a no-endpoints error carrying the skip count; `Force()` happens exactly when a repeater exists and twice the skip count exceeds the preferred count |
| `Balancer.Balancer.WrapCall` | internal/balancer/balancer.go:259-289 | if no connection is obtained, nothing runs and no health changes; on success the connection ends Allowed, so a banned one is restored; on failure it is banned if and only if the error must be pessimised, otherwise its health is unchanged; other pool entries are untouched |
| `Balancer.Balancer.Close` | internal/balancer/balancer.go:152-166 | `Stop()` is called exactly when a repeater exists |
| `Balancer.Balancer.New` | internal/balancer/balancer.go:168-228 | a missing balancer config means defaults; single-connection mode builds a snapshot of the driver's endpoint alone, without preference or fallback, with no discovery (no entry is allowed or touched; only a missing entry is created) and no repeater; otherwise a failed discovery returns no balancer and leaves the pool unchanged, and a successful one publishes the snapshot of the discovered connections with the configured preference, local DC and fallback flag, allows and touches exactly the discovered entries, and gives a repeater exactly when the interval is positive |
| `Version.VersionIsDottedComponents` | internal/version/version.go:4-12 | `Version` is `Major`, `Minor` and `Patch` joined by dots, i.e. "3.53.3" |
| `Version.FullVersionIsPrefixSlashVersion` | internal/version/version.go:8-13 | `FullVersion` is `Prefix + "/" + Version`, i.e. "ydb-go-sdk/3.53.3" |
| `Version.FullVersionShape` | internal/version/version.go:13 | `FullVersion` begins with `Prefix` and a slash and ends with `Version` |
| `Version.VersionSplitsIntoComponents` | internal/version/version.go:4-12 | no component contains a dot, so splitting `Version` on dots yields exactly `[Major, Minor, Patch]` |

## Left out

- `connections()` (balancer.go:291-296) is a read of the snapshot under a read lock. Locks are not modelled, so `GetConn` reads the field directly.
- Locking and concurrency (`xsync.RWMutex`) are not modelled. Each operation is atomic, and subscribers are called at the point of publication.
- `clusterDiscovery` and its `retry.Retry` loop are not modelled. `New` runs one attempt: the retry policy's final one. This loses nothing about the balancer's state, because `ClusterDiscoveryAttempt` leaves that state unchanged whenever an attempt fails.
- The repeater's timing is not modelled; only whether it exists and the number of `Force()` and `Stop()` calls are. A scheduled or forced rediscovery is a further call of `ClusterDiscoveryAttempt`.
- gRPC dialing, the discovery RPC, `cc.Invoke` and `cc.NewStream` are network I/O. Their results are parameters. `Invoke` and `NewStream` only route an operation through `WrapCall`, so they have no members of their own.
- Closing the discovery client after an attempt is not modelled, because its result is ignored.
- The dial timeout and child context are not modelled. A context is only `Alive`, `Canceled` or `TimedOut`, and collaborator errors are inputs.
- Trace hooks, `xerrors.WithStackTrace` and `conn.UseWrapping` are not modelled; they do not change error identity or decisions.
- Of metadata attachment (`Meta().Context`) only its outcome, `metaErr`, is modelled: a failure skips the operation and goes through the pessimisation check, but the metadata itself is not.
- The internals of `connectionsState` (`newConnectionsState`, `GetConnection`, `PreferredCount`) are not part of this model. The snapshot records what it was built from. Selection and the preferred count are the parameters `choose` and `preferredCount`.
- `WrapCall` requires that `choose` returns a connection of the current snapshot. That is the snapshot's contract, and its source is not part of this model.
- The pool (`conn.Pool`) is not part of this model. Its `Get`, `Allow`, `Ban` and `Touch` are given the plain effects the balancer relies on: `Ban` bans unconditionally, and an unknown address is left alone.
- Endpoint load and last-seen timestamps are not modelled. Touching sets a flag, and `endpoint.Info` is the endpoint itself.
- Go's `int` skip count is a `nat`; doubling it cannot overflow for any reachable pool size.
- `Balancer.Balancer.Close`: the model has no result, since `Close` always returns nil.
