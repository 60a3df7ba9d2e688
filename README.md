# Load-balancer core of a Go reverse proxy, modelled in Dafny

The `balancer` package picks a backend host for each request. The model covers its three parts:

- **Host registry (`BaseBalancer`).** An ordered list of host strings. `Add` appends a host unless it is already there. `Remove` splices out the first matching entry. The default `Balance` returns the empty host and no error, and `Inc`/`Done` do nothing. Modelled as class `BaseBalancing.BaseBalancer` with a `hosts: seq<string>` field; its methods scan with loops, as the Go code does. The pure functions `HostList.Added` and `HostList.Removed` give the list after each call, and the lemmas in `HostList` prove what the registry promises: order preserved, idempotence, no duplicates kept, the set of hosts after any sequence of updates.
- **Round-robin (`RoundRobin`).** A registry plus an unsigned 64-bit cursor `i`, starting at 0. `Balance` fails with `NoHostError` on an empty list. Otherwise it returns `hosts[i mod |hosts|]` and increments `i`, wrapping modulo 2^64. Modelled as class `RoundRobinBalancing.RoundRobin`. Go's embedding of `BaseBalancer` becomes composition: a `base` field the inherited methods delegate to. The cursor is the subset type `uint64`, and `Next` writes the wrap-around out. `Choose`, `Cursor` and `Run` describe the results of a series of calls. The lemmas prove fairness from cursor 0, rotation coverage from any cursor whose window of calls does not cross the 2^64 wrap, the host served by any call of a series with the wrap included, and the one place where the rotation breaks: the wrap itself.
- **Factory (`Build`).** A name-to-constructor map, written by round-robin's `init`. Modelled as an explicit `Registry` value, `map<string, Constructor>`, where `Constructor` is a datatype of constructor tags. `Register` models one registration and `InitialFactories` the map after initialisation. `Lookup` and `Build` model the lookup-and-apply.

Errors are the datatype `Errors.Error`, with its constructors `NoHost` and `AlgorithmNotSupported`. Go's `(value, error)` pairs become an `Option<Error>` out-parameter, or a `Result` in the pure functions.

Three points where the code does less than a reader might expect:

- `NewRoundRobin` takes the caller's list as is, so duplicates can get in. "No duplicates" is therefore not a class invariant. It is a property that `Add` and `Remove` keep (`HostList.AddedNoDup`, `HostList.RemovedNoDup`, `HostList.ApplyNetHosts`).
- On an empty registry, round-robin `Balance` returns the empty string together with `NoHostError`.
- Wrapping the cursor at 2^64 can serve one host twice in a row (`RoundRobinBalancing.WrapRepeatsHost`). The wrap is plain `uint64` overflow of `r.i++`, and the model records what it does.

## Model

| member | source | states |
|---|---|---|
| `BaseBalancing.BaseBalancer.constructor` | balancer/round_robin.go:22-24 | the registry holds exactly the given list, duplicates included |
| `BaseBalancing.BaseBalancer.Add` | balancer/base_balancer.go:15-24 | a host already present leaves the list exactly unchanged; an absent host is appended after the unchanged old entries; the new list is `Added(old, host)` |
| `BaseBalancing.BaseBalancer.Remove` | balancer/base_balancer.go:27-36 | an absent host leaves the list unchanged; a present host's first occurrence `k` is spliced out (`old[..k] + old[k+1..]`); the new list is `Removed(old, host)` |
| `BaseBalancing.BaseBalancer.Balance` | balancer/base_balancer.go:39-41 | the default selection always yields `""` and no error |
| `BaseBalancing.BaseBalancer.Inc` | balancer/base_balancer.go:44 | changes no state |
| `BaseBalancing.BaseBalancer.Done` | balancer/base_balancer.go:47 | changes no state |
| `HostList.Added` | balancer/base_balancer.go:15-24 | the list after `Add(host)`: the old list is kept as a prefix, it grows by one exactly when the host was absent, and the host is present afterwards |
| `HostList.Removed` | balancer/base_balancer.go:27-36 | the list after `Remove(host)`: one shorter exactly when the host was present, and it holds no host the old list lacked |
| `HostList.FirstIndex` | balancer/base_balancer.go:30-31 | for a present host, the position where the scan stops: it holds the host and no earlier entry does |
| `HostList.AddedCases` | balancer/base_balancer.go:18-23 | adding a present host changes nothing; adding an absent one makes the list one longer, old entries unchanged in place, the host last; the host is present afterwards |
| `HostList.AddedIdempotent` | balancer/base_balancer.go:15-24 | `Add(h); Add(h)` equals `Add(h)` |
| `HostList.AddedNoDup` | balancer/base_balancer.go:15-24 | `Add` keeps a duplicate-free list duplicate-free |
| `HostList.AddedElements` | balancer/base_balancer.go:15-24 | the set of hosts after `Add(h)` is the old set plus `h` |
| `HostList.RemovedAbsent` | balancer/base_balancer.go:30-36 | removing an absent host leaves the list unchanged |
| `HostList.RemovedSplice` | balancer/base_balancer.go:30-33 | if the first match is at `k`, the result is `hosts[..k] + hosts[k+1..]` |
| `HostList.RemovedFirst` | balancer/base_balancer.go:30-34 | removing a present host deletes exactly its first occurrence, keeping the others in order |
| `HostList.RemovedMultiset` | balancer/base_balancer.go:27-36 | as multisets the result is the old list minus one copy of the host; the length drops by one exactly when the host was present |
| `HostList.SpliceNoDup` | balancer/base_balancer.go:32 | splicing one entry out of a duplicate-free list leaves a duplicate-free list without that entry |
| `HostList.RemovedNoDup` | balancer/base_balancer.go:27-36 | on a duplicate-free list, after `Remove(h)` the host is gone, the length drops by one if it was present, no duplicates appear, and the set of hosts loses exactly `h` |
| `HostList.RemovedAfterAdded` | balancer/base_balancer.go:15-36 | `Remove(h)` undoes an `Add(h)` of an absent host |
| `HostList.Apply` | balancer/base_balancer.go:15-36 | the list after a series of `Add`/`Remove` calls: it grows by at most one entry per call |
| `HostList.ApplyNetHosts` | balancer/base_balancer.go:15-36 | from a duplicate-free list, any sequence of `Add`/`Remove` calls leaves a duplicate-free list holding exactly the hosts the net effect of the calls implies |
| `Errors.Message` | balancer/balancer.go:11-14 | the text of each sentinel error |
| `Errors.ErrorsDistinct` | balancer/balancer.go:11-14 | `NoHostError` and `AlgorithmNotSupportedError` are distinct values with distinct texts |
| `RoundRobinBalancing.Next` | balancer/round_robin.go:36 | the `uint64` increment: one more, except 0 after the largest value |
| `RoundRobinBalancing.Choose` | balancer/round_robin.go:32-35 | `NoHostError` exactly when the list is empty; a success exactly when it is not, and then a member of the list |
| `RoundRobinBalancing.Cursor` | balancer/round_robin.go:32-36 | the cursor after one `Balance`: it stays put exactly when the list is empty, and moves otherwise |
| `RoundRobinBalancing.Run` | balancer/round_robin.go:29-37 | the results of `n` consecutive `Balance` calls: `n` of them, each a success exactly when the list is non-empty, every success a member of the list |
| `RoundRobinBalancing.RunNoHosts` | balancer/round_robin.go:32-34 | on an empty list every call in a series fails with `NoHostError` |
| `RoundRobinBalancing.RunAtWrapped` | balancer/round_robin.go:35-36 | call `k` of a series starting at cursor `i` serves `hosts[((i + k) mod 2^64) mod N]`, across the wrap too |
| `RoundRobinBalancing.RunAt` | balancer/round_robin.go:35-36 | without a wrap, call `k` of a series starting at cursor `i` serves `hosts[(i + k) mod N]` |
| `RoundRobinBalancing.RunRotation` | balancer/round_robin.go:35-36 | without a wrap, any `N` consecutive calls serve the list rotated to the cursor's position: a permutation of the list in cyclic order, so every host is served |
| `RoundRobinBalancing.RunFromZero` | balancer/round_robin.go:35-36 | from cursor 0, `N` calls serve the `N` hosts once each in list order, and call `N + 1` serves `hosts[0]` again |
| `RoundRobinBalancing.WrapRepeatsHost` | balancer/round_robin.go:35-36 | with three hosts, the call at cursor 2^64 - 1 and the call after the wrap both serve `hosts[0]` |
| `RoundRobinBalancing.RoundRobin.constructor` | balancer/round_robin.go:19-26 | a fresh registry holding exactly the given hosts, cursor 0 |
| `RoundRobinBalancing.RoundRobin.Add` | balancer/round_robin.go:9-12 | the inherited `Add` on the embedded registry; the cursor is not touched |
| `RoundRobinBalancing.RoundRobin.Remove` | balancer/round_robin.go:9-12 | the inherited `Remove` on the embedded registry; the cursor is not touched |
| `RoundRobinBalancing.RoundRobin.Balance` | balancer/round_robin.go:29-37 | empty list: `""` with `NoHostError`, cursor kept; otherwise no error, the host at `i mod N` (a member of the list), cursor advanced to `(i + 1) mod 2^64`; the host list is never changed and the key plays no part |
| `RoundRobinBalancing.RoundRobin.Inc` | balancer/round_robin.go:9-12 | the inherited no-op: changes no state |
| `RoundRobinBalancing.RoundRobin.Done` | balancer/round_robin.go:9-12 | the inherited no-op: changes no state |
| `RoundRobinBalancing.TwoHostScenario` | balancer/round_robin.go:29-37 | on `["10.0.0.1:80", "10.0.0.2:80"]` three calls serve .1, .2, .1, and after removing .1 the next call serves .2 |
| `Factory.Register` | balancer/round_robin.go:15 | a registration maps the name to the constructor and keeps every other entry |
| `Factory.InitialFactories` | balancer/round_robin.go:14-16 | after the modelled initialisation the only registered name is the round-robin one |
| `Factory.Lookup` | balancer/balancer.go:37-40 | fails exactly when the name is not registered, and then with `AlgorithmNotSupportedError`; otherwise yields the registered constructor |
| `Factory.InitialLookup` | balancer/balancer.go:37-41 | in the initial map the round-robin name resolves to the round-robin constructor and every other name is unsupported |
| `Factory.Build` | balancer/balancer.go:36-42 | an unknown name gives no balancer and `AlgorithmNotSupportedError`; a registered name gives a fresh balancer over exactly `hosts`, cursor 0, and no error |
| `Factory.BuildInitial` | balancer/balancer.go:36-42 | after initialisation, building the round-robin name gives a round-robin balancer over `hosts` with cursor 0; any other name fails with `AlgorithmNotSupportedError` |

## Left out

- `proxy/proxy.go`, the request dispatcher, is not part of this model. It is HTTP plumbing: URL parsing, reverse-proxy construction, header injection, the `recover` boundary and the `alive` map. The `Balance`, then `Inc`, forward, then deferred `Done` bracketing there has round-robin's no-op `Inc`/`Done` as its only modelled part.
- `learn/proxy_test.go` is not part of this model. It starts an HTTP server and has no logic or assertions.
- Locking is not modelled. Each call is one atomic step, and the model makes no concurrency claims. In the source, round-robin `Balance` increments the cursor while holding only a read lock, which is a data race that a sequential model cannot show.
- Slice aliasing is not modelled. `hosts` is a value `seq<string>`. So the model does not capture that `NewRoundRobin` keeps the caller's slice, or that `Remove` shifts that slice's backing array in place.
- The `Balancer` interface is not modelled as a type, because dynamic dispatch would need traits. Round-robin is the only strategy in the modelled files, so `Factory.Build` returns a `RoundRobin?`. A Go `Factory` function value becomes a `Constructor` tag.
- `Factory.R2Balancer`: its text is defined outside the modelled files, so it is an unspecified string constant.
- Registrations made by package files outside the modelled ones are not modelled. `Factory.InitialFactories` holds only round-robin's registration.
- RoundRobinBalancing.RunFromZero: requires fewer than 2^64 hosts. A Go slice's length is an `int` and cannot reach that.
- RoundRobinBalancing.RunRotation: holds only when the window of calls does not cross the cursor's 2^64 wrap. `WrapRepeatsHost` shows why.
