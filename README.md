# pocker edge router — a Dafny model of its bookkeeping and routing core

pocker is a multi-tenant edge router: it resolves the Host of each incoming
request to a tenant deployment, checks that the deployment may be served,
and hands the request to the legacy origin (through a helper machine unless
this machine is the helper). Behind it sit an in-memory mirror of the
central database's instance, user and machine records, two port allocators
and a service registry. This project models that core in Dafny and proves
what it promises:

- `sync_map.dfy` — the counted map (`SyncMap.CountedMap`): a map plus a count
  that drifts away from the number of keys, stated exactly.
- `indexed_cache.dfy` — the multi-index cache (`IndexedCaching.IndexedCache`):
  registries from field name to field value to item, kept in the all-or-none
  invariant (`Coherent`): an item is held under all of its non-empty pairs or
  under none. Every operation is proved against a function of the old state
  (`Upserted`, `WithoutPairs`, `DeletedAt`, `WithRegistry`), and the invariant
  is proved preserved by Upsert and DeleteByFieldNameAndValue.
- `cache_scenarios.dfy` — the cache's test scenarios, restated as verified methods.
- `mirror.dfy` — the mirror event loop: create/update upsert, delete with a
  text id deletes by id, a delete with a nil field map or a non-text id
  panics, which ends the process, everything else is dropped; applied events are forwarded
  in order.
- `models.dfy` — instance, user and machine records, their field maps and
  predicates.
- `provider.dfy` — the instance → user → machine join with first-error return.
- `ubermax.dfy` — the stand-in deployment service the router is wired to.
- `pocker.dfy` — the routing middleware: configuration checks, the four gates
  in order, legacy/local/neighbor classification, the legacy Host rewrite,
  the secret header and the choice of proxy.
- `port_range.dfy`, `server_manager.dfy` — the two port allocators and the
  server cache skeleton.
- `ioc.dfy` — the register-once service registry and its singleton.

Locks, atomics and goroutines are read as plain sequential state. Network,
file system, clock and the central database are parameters (oracles):
`bindable`, `ensureDir`, `healthy`, `CentralDb`, `UrlParser`, the `resolve`
function of `Pocker.Serve`. A Go panic is modelled as a failure value carrying
the panic message (`Failure`, `Fail`, `Reply.Panic`, `Disposition.Crash`).
Go's zero value returned by a missed lookup is a `zero` supplied at
construction.

A few facts about the code shape the model. A failed deployment lookup
answers 503 with the error text (core/proxy/middleware/pocker.go:150-155); the
404 "Deployment not found" branch above it (pocker.go:137-142) is commented
out. The router asks the mothership service of the registry for deployments
(pocker.go:56), and the example wiring installs the stand-in service there
(examples/fly/main.go:58), which makes every deployment legacy. The port
pool's `New` function is never handed to the inner pool (see Findings). The
server manager polls a health endpoint at most 100 times.

## Model

| member | source | states |
|---|---|---|
| SyncMap.RangeEntries | core/syncx/map.go:38-40 | visits distinct keys with their values, calls `f` true on all but the last visited, and either visits every key or stops right after the first false |
| SyncMap.CountedMap.constructor | core/syncx/map.go:8-11 | a new map is empty with count 0 |
| SyncMap.CountedMap.Delete | core/syncx/map.go:13-16 | removes the key and lowers the count by exactly 1, even when the key was absent |
| SyncMap.CountedMap.Load | core/syncx/map.go:17-23 | ok iff the key is present; the stored value, else the zero value |
| SyncMap.CountedMap.LoadAndDelete | core/syncx/map.go:24-30 | returns and removes the entry; the count is unchanged |
| SyncMap.CountedMap.LoadOrStore | core/syncx/map.go:31-37 | present key: existing value, loaded, nothing changes; absent key: stores it, returns it, count + 1 |
| SyncMap.CountedMap.Store | core/syncx/map.go:41-44 | overwrites or inserts and raises the count by exactly 1 |
| SyncMap.CountedMap.Len | core/syncx/map.go:46-48 | the count equals stores + first-time LoadOrStores − deletes, not the number of keys |
| SyncMap.CountedMap.Keys | core/syncx/map.go:50-57 | exactly one entry per key present, no duplicates |
| SyncMap.CountedMap.Values | core/syncx/map.go:59-66 | exactly one value per key present, each the key's value |
| SyncMap.CountDrift | core/syncx/map.go:13-48 | two Stores of one key give Len 2 with one key; two Deletes bring Len to 0 |
| SyncMap.StoreThenLoad | core/syncx/map.go:17-48 | a stored value loads back; a never-stored key loads as zero and not ok; LoadAndDelete leaves the count at 1 with no keys |
| IndexedCaching.WithRegistry | core/syncx/indexed_cache.go:97-100 | the state getRegistry leaves; LookupWithRegistry and WithRegistryCoherent state that no lookup and no invariant changes |
| IndexedCaching.WithoutPairs | core/syncx/indexed_cache.go:65-73 | the state deleteItem leaves: every indexed pair of the item unkeyed, whatever item it held; WithoutPairsCoherent states when the invariant survives |
| IndexedCaching.Upserted | core/syncx/indexed_cache.go:31-47 | the state Upsert leaves, independent of field order; UpsertedLookupAt, UpsertedCoherent and UpsertIdempotent state its properties |
| IndexedCaching.UpsertStep | core/syncx/indexed_cache.go:35-46 | one pass of Upsert's loop; UpsertStepCorrect ties the passes to Upserted |
| IndexedCaching.DeletedAt | core/syncx/indexed_cache.go:86-95 | the state DeleteByFieldNameAndValue leaves; DeletedAtLookup, DeletedAtCoherent and DeletedAtFrees state its properties |
| IndexedCaching.UpsertStepCorrect | core/syncx/indexed_cache.go:34-47 | under the invariant, one loop pass of Upsert moves the state from "fields done processed" to "one more field processed", so the result does not depend on the map's iteration order |
| IndexedCaching.DeleteStepCorrect | core/syncx/indexed_cache.go:66-72 | one loop pass of deleteItem drops exactly the processed field's key |
| IndexedCaching.UpsertedLookupAt | core/syncx/indexed_cache.go:31-47 | after Upsert every non-empty pair of the item holds the item; any other key keeps its item unless that item shared a non-empty pair with the new one, and is otherwise empty; exactly the item's non-empty fields gain registries |
| IndexedCaching.UpsertedCoherent | core/syncx/indexed_cache.go:31-47 | Upsert preserves the all-or-none invariant |
| IndexedCaching.UpsertedFreesStaleKeys | core/syncx/indexed_cache.go:42-45 | under the invariant, each key of an evicted item that the new item does not reuse ends up empty |
| IndexedCaching.UpsertIdempotent | core/syncx/indexed_cache.go:31-47 | upserting the same item twice equals upserting it once |
| IndexedCaching.CoherentNoEmptyKey | core/syncx/indexed_cache.go:35-37 | under the invariant nothing is held under an empty value |
| IndexedCaching.WithRegistryCoherent | core/syncx/indexed_cache.go:97-100 | lazily creating a registry keeps the invariant |
| IndexedCaching.DeletedAtLookup | core/syncx/indexed_cache.go:86-95 | DeleteByFieldNameAndValue removes the found item from every key and leaves every other key as it was; nothing found changes no key |
| IndexedCaching.DeletedAtCoherent | core/syncx/indexed_cache.go:86-95 | DeleteByFieldNameAndValue preserves the invariant |
| IndexedCaching.DeletedAtFrees | core/syncx/indexed_cache.go:86-95 | after it, the looked-up key and every key of the found item are empty |
| IndexedCaching.WithoutPairsCoherent | core/syncx/indexed_cache.go:59-73 | Delete(item) keeps the invariant when the item's keys hold nothing but the item |
| IndexedCaching.IndexedCache.constructor | core/syncx/indexed_cache.go:22-29 | a new cache has no registries and satisfies the invariant |
| IndexedCaching.IndexedCache.GetRegistry | core/syncx/indexed_cache.go:97-100 | an unknown field gets an empty registry; a known one is untouched |
| IndexedCaching.IndexedCache.DeleteItem | core/syncx/indexed_cache.go:65-73 | drops the key of every non-empty pair of the item, whatever item each key holds (loop invariant: the processed fields' keys are dropped) |
| IndexedCaching.IndexedCache.UpsertField | core/syncx/indexed_cache.go:35-46 | one pass: skip an empty value, else evict the item held under the pair and store the new item there |
| IndexedCaching.IndexedCache.Upsert | core/syncx/indexed_cache.go:31-57 | the new state is `Upserted` of the old (loop invariant: `UpsertedIn` of the processed fields) and the invariant holds |
| IndexedCaching.IndexedCache.Delete | core/syncx/indexed_cache.go:59-63 | the new state is `WithoutPairs` of the old; the invariant survives when the item's keys hold only the item |
| IndexedCaching.IndexedCache.GetByFieldNameAndValue | core/syncx/indexed_cache.go:75-84 | found iff the key holds an item, that item, else zero; the registry is created if missing |
| IndexedCaching.IndexedCache.DeleteByFieldNameAndValue | core/syncx/indexed_cache.go:86-95 | the new state is `DeletedAt` of the old and keeps the invariant |
| IndexedCaching.IndexedCache.Range | core/syncx/indexed_cache.go:102-110 | visits distinct ids of the "id" registry with their items, stopping after the first false; the "id" registry is created if missing |
| CacheScenarios.TestFieldMap | core/syncx/indexed_cache_test.go:14-20 | the test item is indexed by id, name and email |
| CacheScenarios.NewTestCache | core/syncx/indexed_cache_test.go:23-25 | an empty, valid cache of test items |
| CacheScenarios.UpsertScenario | core/syncx/indexed_cache_test.go:22-84 | the item is found by id, name and email; id "999" is not found |
| CacheScenarios.DeleteScenario | core/syncx/indexed_cache_test.go:86-111 | after deleting by id the item is found under none of its three keys |
| CacheScenarios.UpsertUpdateScenario | core/syncx/indexed_cache_test.go:113-158 | after an update with the same id the old name and email miss, the id and new name find the new version |
| CacheScenarios.EmptyFieldsScenario | core/syncx/indexed_cache_test.go:160-217 | an empty name is not indexed; id and email find the item |
| CacheScenarios.UpsertWithEmptyUpdateScenario | core/syncx/indexed_cache_test.go:219-257 | an update emptying the name removes the old name key and indexes the new email |
| CacheScenarios.StaleDeleteScenario | core/syncx/indexed_cache.go:59-73 | deleting a copy whose email differs frees the id but leaves the cached item under its email |
| CacheScenarios.Get | core/syncx/indexed_cache.go:75-79 | the lookup's (item, found) pair as an Option |
| Mirror.SubscriptionFields | core/providers/deployment/ubermax/mothership/mirror/mirror_cache.go:30-33 | a nil list becomes ["id"]; any other list, even empty, is kept |
| Mirror.DispositionOf | core/providers/deployment/ubermax/mothership/mirror/mirror_cache.go:70-89 | forwarded iff create, update, or delete with a text id; it panics (ending the process) iff a delete's field map is nil or its id is not text |
| Mirror.AppliedTo | core/providers/deployment/ubermax/mothership/mirror/mirror_cache.go:70-89 | the cache after one loop pass; an event that is not forwarded leaves the cache as it was |
| Mirror.AppliedAll | core/providers/deployment/ubermax/mothership/mirror/mirror_cache.go:64-91 | the cache after the loop has applied a stream in order; a stream with nothing forwarded leaves it as it was |
| Mirror.ForwardedOfAppend | core/providers/deployment/ubermax/mothership/mirror/mirror_cache.go:64-90 | forwarding distributes over consecutive stretches of the stream, so arrival order is kept |
| Mirror.ForwardedOfMembers | core/providers/deployment/ubermax/mothership/mirror/mirror_cache.go:64-90 | an event is sent iff it is in the stream and its disposition is Forward |
| Mirror.AppliedAllCoherent | core/providers/deployment/ubermax/mothership/mirror/mirror_cache.go:64-91 | any stream of events keeps the cache's all-or-none invariant |
| Mirror.FirstCrash | core/providers/deployment/ubermax/mothership/mirror/mirror_cache.go:79-84 | the index of the first crashing event, with no crash before it |
| Mirror.MirrorCache.constructor | core/providers/deployment/ubermax/mothership/mirror/mirror_cache.go:29-46 | the defaulted field list and an empty cache sharing the debug flag |
| Mirror.MirrorCache.HandleEvent | core/providers/deployment/ubermax/mothership/mirror/mirror_cache.go:70-89 | create/update upsert the record, a delete with a text id deletes by "id", a nil field map or a non-text id panics, anything else leaves the cache; the invariant holds |
| Mirror.MirrorCache.Mirror | core/providers/deployment/ubermax/mothership/mirror/mirror_cache.go:64-91 | consumes the stream up to and including the first panicking event, leaves the cache as the fold of those events and sends exactly their forwarded ones, in order |
| Mirror.MirrorCache.Range | core/providers/deployment/ubermax/mothership/mirror/mirror_cache.go:96-98 | the cache's Range |
| Models.Instance.IsSuspended | core/providers/deployment/ubermax/models/instance.go:33-39 | suspended iff the suspension reason is non-empty |
| Models.Instance.IsPoweredOn | core/providers/deployment/ubermax/models/instance.go:41-43 | the record's power flag |
| Models.Instance.GetFieldMap | core/providers/deployment/ubermax/models/instance.go:45-59 | exactly the keys id, cname, subdomain, agreeing with the record and the Cname/Subdomain accessors |
| Models.User.IsSuspended | core/providers/deployment/ubermax/models/user.go:36-42 | suspended iff the suspension reason is non-empty |
| Models.User.IsVerified | core/providers/deployment/ubermax/models/user.go:32-34 | the record's verified flag |
| Models.User.GetFieldMap | core/providers/deployment/ubermax/models/user.go:44-50 | exactly the keys id, email, username, mapped to the record's fields |
| Models.Machine.GetFieldMap | core/providers/deployment/ubermax/models/machine.go:19-26 | exactly the keys id, name, uuid, privateUrl, mapped to the record's fields; region is not indexed |
| Models.InstanceFoundByHostNames | core/providers/deployment/ubermax/models/instance.go:49-53 | an upserted instance is found by its non-empty subdomain and cname |
| Models.InstanceSubdomainEvicts | core/providers/deployment/ubermax/models/instance.go:49-53 | of two instances with one non-empty subdomain, the newer evicts the older from every key |
| DeploymentProvider.GetDeploymentByHost | core/providers/deployment/ubermax/provider.go:29-52 | queries instance by host, then user by the instance's user id, then machine by its machine id; stops at and returns the first error; on success holds exactly the three records |
| DeploymentProvider.Deployment.Url | core/providers/deployment/ubermax/provider.go:54-56 | always fails with "not implemented" |
| Ubermax.Deployment.IsLegacy | core/services/ubermax/deployment.go:18-20 | legacy iff the machine id is empty |
| Ubermax.Deployment.InstanceId | core/services/ubermax/deployment.go:22-24 | the instance record's id |
| Ubermax.Deployment.MachineId | core/services/ubermax/deployment.go:26-28 | the instance record's machine id |
| Ubermax.Deployment.IsUserVerified | core/services/ubermax/deployment.go:30-32 | always verified |
| Ubermax.Deployment.IsUserSuspended | core/services/ubermax/deployment.go:34-36 | never suspended |
| Ubermax.Deployment.IsInstanceSuspended | core/services/ubermax/deployment.go:38-40 | never suspended |
| Ubermax.Deployment.IsInstancePoweredOn | core/services/ubermax/deployment.go:42-44 | always powered on |
| Ubermax.Deployment.InstanceSuspendedReason | core/services/ubermax/deployment.go:46-48 | the empty reason |
| Ubermax.Deployment.UserSuspendedReason | core/services/ubermax/deployment.go:50-52 | the empty reason |
| Ubermax.Deployment.PrivateUrl | core/services/ubermax/deployment.go:54-56 | no URL (nil) |
| Ubermax.GetDeploymentByIdentifier | core/services/ubermax/ubermax.go:21-28 | never fails; the deployment is legacy with an empty instance id |
| Ubermax.IdentifierIgnored | core/services/ubermax/ubermax.go:21-27 | the result does not depend on the identifier |
| Pocker.FirstFailure | core/proxy/middleware/pocker.go:160-182 | Pass iff every check passes; otherwise the first failing check, all before it passing |
| Pocker.ConfigChecks | core/proxy/middleware/pocker.go:27-51 | the five construction checks in source order; all pass iff both URLs parse and apex domain, helper machine id and secret are non-empty |
| Pocker.NewPocker | core/proxy/middleware/pocker.go:26-54 | built iff both URLs parse and apex domain, helper machine id and secret are non-empty; the built router keeps exactly those values and this machine's id |
| Pocker.NewPockerFirstFailure | core/proxy/middleware/pocker.go:27-51 | construction fails with the message of the first failing check in source order |
| Pocker.GateChecks | core/proxy/middleware/pocker.go:160-182 | the four gates in source order with their 403 bodies; all pass iff the user is verified and not suspended and the instance is not suspended and powered on |
| Pocker.FailingGate | core/proxy/middleware/pocker.go:160-182 | the first failing of verified, user not suspended, instance not suspended, powered on, with its 403 body |
| Pocker.UserReasonBeforeInstance | core/proxy/middleware/pocker.go:160-170 | a verified, suspended user is told the user's reason whatever the instance's state |
| Pocker.Classify | core/proxy/middleware/pocker.go:196-208 | legacy iff the machine id is empty; at least one handler runs; a neighbor is neither legacy nor local |
| Pocker.ExactlyOneHandler | core/proxy/middleware/pocker.go:196-208 | with a non-empty machine id exactly one of legacy, local, neighbor holds |
| Pocker.LegacyIsLocalWithoutMachineId | core/proxy/middleware/pocker.go:196-208 | with an empty machine id a legacy deployment is also local |
| Pocker.PrefixBefore | core/proxy/middleware/pocker.go:85-88 | a prefix free of the separator, followed by the separator unless it is the whole string |
| Pocker.FirstLabel | core/proxy/middleware/pocker.go:85-89 | the longest prefix of the host containing neither ':' nor '.' |
| Pocker.LegacyProxyOf | core/proxy/middleware/pocker.go:98-104 | the direct legacy origin iff this machine is the helper machine, else the helper proxy |
| Pocker.HandleLegacy | core/proxy/middleware/pocker.go:84-105 | Host and the Host header become first label + "." + apex, X-Pockethost-Secret is the secret, the proxy is LegacyProxyOf |
| Pocker.Decide | core/proxy/middleware/pocker.go:136-211 | the handler's reply: aborts iff the lookup failed (503) or a gate failed (403); a request that continues is legacy and went through the legacy proxy; otherwise the legacy proxy ran iff the deployment is legacy |
| Pocker.DecideAborts | core/proxy/middleware/pocker.go:150-182 | lookup error: 503 with the error, no gate; else aborts iff a gate fails, with 403 and that gate's message |
| Pocker.DecideRoutes | core/proxy/middleware/pocker.go:196-210 | with a machine id and all gates passed: legacy is proxied then continues, local and neighbor panic with their messages |
| Pocker.Serve | core/proxy/middleware/pocker.go:136-211 | the reply is the decision for the request's Host; only a legacy request that passes the gates is rewritten |
| Pocker.ViewOf | core/services/ubermax/deployment.go:18-52 | the view of a stand-in deployment is legacy iff the deployment is |
| Pocker.EveryRequestIsLegacy | core/proxy/middleware/pocker.go:150-210 | with the stand-in service every request passes the gates and is proxied as legacy; without a machine id the local handler then panics |
| PortRange.RangeOf | core/services/port/port_range/provider.go:22-29 | a zero bound defaults to 10000 or 12000; any other bound, even negative, is kept |
| PortRange.PoolGetAsWritten | core/syncx/pool.go:10-12 | with nothing put back, Get fails with the nil-conversion panic; otherwise it either fails the same way or hands out one of the values put back, in no promised order, and removes it |
| PortRange.FixedPortRangeProvider.AllocatePortAsWritten | core/services/port/port_range/provider.go:49-55 | with an empty pool, every call panics and leaves the pool as it was; with values put back, it either panics the same way or hands one out, 0 reading as exhaustion |
| PortRange.AllocatePortAsWrittenPanics | core/services/port/port_range/provider.go:21-55 | a fresh provider as written panics on its first and second AllocatePort, and its counter stays at the range start |
| PortRange.FixedPortRangeProvider.constructor | core/services/port/port_range/provider.go:21-47 | defaulted bounds; the counter starts at the start; nothing issued |
| PortRange.FixedPortRangeProvider.NextPort | core/services/port/port_range/provider.go:34-42 | raises the counter by one and hands it out, or 0 once it passed the end |
| PortRange.FixedPortRangeProvider.AllocatePort | core/services/port/port_range/provider.go:49-55 | fails with "no more ports available" iff New gave 0; issued ports stay strictly increasing, in (start, end]; once exhausted every later call fails |
| PortRange.DefaultRangeFirstPorts | core/services/port/port_range/provider.go:22-42 | the default range hands out 10001 then 10002 |
| PortRange.OnePortRange | core/services/port/port_range/provider.go:34-54 | the range (5, 6] hands out 6, then fails twice |
| PortRange.ZeroInRange | core/services/port/port_range/provider.go:35-53 | a range starting at -1 reports exhaustion for its first port, 0, then hands out 1 |
| ServerManagement.ProbePorts | core/server_manager.go:46-53 | the first bindable port of [from, 12000), or none when no port there is bindable |
| ServerManagement.PollHealth | core/server_manager.go:129-149 | at most 100 checks; ready at the first healthy answer, else timeout after exactly 100 |
| ServerManagement.ServerManager.constructor | core/server_manager.go:32-37 | no instances; the next port is 10000 |
| ServerManagement.ServerManager.AllocatePort | core/server_manager.go:39-56 | the first bindable port from nextPort, after which nextPort is that port + 1; on failure nextPort is unchanged |
| ServerManagement.ServerManager.GetOrCreateInstance | core/server_manager.go:58-163 | a cached subdomain is returned without allocating; once a port is allocated, nextPort ends one past the first bindable port from the old nextPort, whether the directory, the health poll or nothing fails, so a consumed port stays consumed and the cached port is that first bindable one; failures leave the map unchanged; no bindable port leaves nextPort as it was and fails to allocate; the directory created is data/<subdomain>; success adds exactly that subdomain; cached ports stay distinct |
| ServerManagement.TwoSubdomains | core/server_manager.go:58-163 | two subdomains get increasing ports; asking again returns the cached server |
| Ioc.IoCContainer.constructor | core/ioc/ioc.go:25-29 | an empty registry |
| Ioc.IoCContainer.Register | core/ioc/ioc.go:33-38 | binds a fresh name; an already-bound name fails and keeps the first provider; other names are unchanged |
| Ioc.IoCContainer.Get | core/ioc/ioc.go:41-47 | the bound provider, or failure "provider <name> not found" |
| Ioc.IocRoot.Ioc | core/ioc/ioc.go:24-31 | creates the container once and returns the same, still valid one on every call |
| Ioc.RegisterThenGet | core/ioc/ioc.go:24-47 | register then get returns the provider; re-registering fails; an unbound name fails; an Ioc() call after a registration returns the same container |

## Left out

- Locks, atomics, `sync.Once`, goroutines and the mirror's channel: read as sequential state; the channel is the sequence of sent events.
- Logging and the debug dumps of Upsert (indexed_cache.go:48-56) and of the mirror loop: they change no state.
- The per-registry counted maps of the cache: registries are plain maps; their counts feed only debug logging.
- IndexedCaching.IndexedCache.Upsert: requires the all-or-none invariant; from an arbitrary state the Go result depends on map iteration order, which the model does not enumerate.
- IndexedCaching.IndexedCache.Delete: promises the invariant only when the item's keys hold nothing but that item; StaleDeleteScenario shows the invariant breaking otherwise.
- The public RLock/RUnlock/Lock/Unlock of the cache: locking only.
- Items in the cache are values compared by equality, not Go pointers; the test scenarios compare by value.
- Mirror subscription, the PocketBase client, the collection factory and the empty-collection-name log: network wiring; a failed subscription is not modelled.
- The record wrappers' nil `rec` (NewInstance, NewUser, NewMachine build wrappers whose methods would dereference nil): records are always present in the model.
- DeploymentProvider: the central database client is a parameter; the real client's construction and network calls are not part of this model. `Start` and `New` have no effect.
- Ubermax `Start`, `New` and `NewDeployment`: no behaviour beyond building the value.
- Pocker: TLS transport settings, the reverse proxies' forwarding and error handlers, gin's context plumbing beyond abort/next; url.Parse is the `UrlParser` parameter; `MachineInfoService` and `MothershipService` lookups are parameters.
- Pocker.DeploymentView: legacy is fixed as "the machine id is empty", which is how ubermax.Deployment, the only implementation of the IDeployment interface the handler calls, defines IsLegacy; Classify, ExactlyOneHandler and LegacyIsLocalWithoutMachineId rest on that definition.
- Pocker.DecideRoutes: the local and neighbor handlers panic in the code, so only their panic is modelled.
- ServerManagement.ServerManager.GetOrCreateInstance: the data directory is "data/" followed by the subdomain; the path cleaning of filepath.Join (an empty or dotted subdomain) is not modelled.
- Header keys are taken as already canonical ("Host", "X-Pockethost-Secret"), as Go's canonicalisation leaves them unchanged.
- ServerManagement: the PocketBase app, its plugins, static route, data-directory layout, the server goroutine and the 10 ms sleeps; bind probing, directory creation and health answers are parameters, and the server is reduced to its port.
- PortRange `Start`: no effect. Go's int overflow of the counter is not modelled.
- The in-process container provider, the reference cell, the mothership client and mirror wiring, the ioc typed accessors, machine identity and settings code, examples and load tests: outside the modelled core.

## Findings

| source | as written | input that shows it | evidently intended | confidence | as-written member | corrected member |
|---|---|---|---|---|---|---|
| core/syncx/pool.go:5-12 | `Pool.New` is a field of the wrapper but is never given to the inner `sync.Pool`, so `Get` returns nil and `.(T)` panics | any `AllocatePort` call on a fresh provider | each `Get` calls `New`, handing out the next port of the range | high, not executed | PortRange.AllocatePortAsWrittenPanics | PortRange.FixedPortRangeProvider.AllocatePort |
