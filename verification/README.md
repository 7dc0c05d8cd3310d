# deepstream example plugins — a Dafny model

This project models the logic inside the deepstream.io example plugins:

- the vertical cluster message bus: worker nodes wrap messages in envelopes; the master process relays each serialized envelope; workers dispatch inbound envelopes to topic subscribers held on one process-wide event emitter;
- the Redis lock registry: `get` issues SETNX then EXPIRE, and `release` issues DEL, all on the key `DS_LOCK/<lock>`;
- the HTTP monitoring counters: four JavaScript `Map`s that are incremented in place, then read and cleared;
- the node-cache record cache: each record has a version key `<name>` and a data key `<name>_d`;
- the file storage: each record is one file `<directory>/<name>` holding `{v, d}`, and `deleteBulk` completes through a shared counter;
- the validators: the username-substring permission rule (two variants) and the fixed token tables (three variants).

Stores and libraries are abstracted as maps: the Redis keyspace, the node-cache cache and the file system. The environment supplies each reply or failure as a parameter, so every contract holds for every combination of success and error replies. One assumption comes with this: a command reported as failed is modelled as having had no effect on the store. "## Left out" says where that is not guaranteed. Inter-process messaging is modelled as data. The master's loop returns the sends it issues. A worker's handler returns the listener calls it makes.

A callback invoked exactly once is modelled as the single value a member returns: the callback's arguments. `deleteBulk` in the file storage returns how many times its callback fires.

Files: `base.dfy` (modules `Base`, `Text` and `Protocol`), `vertical_cluster_node.dfy`, `redis_locks.dfy`, `http_monitoring.dfy`, `node_cache.dfy`, `file_storage.dfy`, `username_permission.dfy`, `token_authentication.dfy`.

Where the plugins' documented intent and the code differ, the model follows the code:
- the relay sends every copy back to the origin;
- the receiver reads `serverName`, which no sender writes;
- `toServer` is ignored on receipt;
- a lock whose key already exists is still granted whenever SETNX reports no error;
- the lock key prefix is `DS_LOCK/`;
- subscriptions live on one static emitter that every node of a process shares.

Each of these is stated as a proved property below.

## Model

| member | source | states |
|---|---|---|
| `Text.Includes` | src/username-permission.ts:29 | `s.includes(sub)` holds exactly when `sub` occurs in `s` at some index |
| `Text.EmptyIsIncluded` | src/username-permission.ts:29 | the empty string is included in every string |
| `VerticalCluster.Send` | src/vertical-cluster-node.ts:41-43 | a broadcast envelope carries the message unchanged and `fromServer` = own name; it has no `toServer` and no `serverName` |
| `VerticalCluster.SendDirect` | src/vertical-cluster-node.ts:48-50 | a directed envelope carries `toServer` = the target, `fromServer` = own name and the unchanged message; it has no `serverName` |
| `VerticalCluster.RelaySends` | src/vertical-cluster-node.ts:16-20 | the master's sends as written: one per registered worker other than the origin, each addressed to the origin with the unchanged payload |
| `VerticalCluster.Relay` | src/vertical-cluster-node.ts:15-22 | the master's loop issues one send per registered worker other than the origin; each send is addressed to the origin and carries the identical payload |
| `VerticalCluster.RelayReachesOnlyOrigin` | src/vertical-cluster-node.ts:16-20 | as written, the origin receives N−1 copies (N−1 = the number of other workers) and every other worker receives none |
| `VerticalCluster.RelayIntendedReachesEachOtherOnce` | src/vertical-cluster-node.ts:15-22 | with `fromWorker.send`, each registered worker other than the origin receives exactly one copy of the payload and the origin none |
| `VerticalCluster.OnWorkerMessage` | src/vertical-cluster-node.ts:8-11 | a worker's handler calls every listener of the message's topic once, in registration order, with the message and the envelope's `serverName` as the origin |
| `VerticalCluster.Emit` | src/vertical-cluster-node.ts:10 | emitting on a topic calls every listener of that topic once, in registration order, with the message and the origin argument |
| `VerticalCluster.DirectedFiresLikeBroadcast` | src/vertical-cluster-node.ts:8-11 | `toServer` is never read: a directed envelope fires exactly the listeners that a broadcast of the same message fires |
| `VerticalCluster.OriginNeverDelivered` | src/vertical-cluster-node.ts:9-10 | for any envelope a node sends, every listener receives the unchanged message and an absent origin, because the handler reads `serverName` |
| `VerticalCluster.IntendedOriginIsSender` | src/vertical-cluster-node.ts:9-10 | a handler that reads `fromServer` gives every listener the sender's name |
| `VerticalCluster.RelayedSendEchoesAtOrigin` | src/vertical-cluster-node.ts:8-22 | end to end: after the relay, the sending worker's own listeners fire once per other worker, each time with its own message and no origin; the other workers' listeners never fire |
| `VerticalCluster.IntendedDirectedOnlyAtTarget` | src/vertical-cluster-node.ts:8-11 | a handler that filters on `toServer` fires a directed envelope's listeners only at the target server |
| `VerticalCluster.Emitter.constructor` | src/vertical-cluster-node.ts:30 | the static emitter starts with no listeners |
| `VerticalCluster.Emitter.On` | src/vertical-cluster-node.ts:57 | `emitter.on` appends the callback to the topic's listener list and leaves other topics unchanged |
| `VerticalCluster.WorkerProcess.constructor` | src/vertical-cluster-node.ts:30 | a process starts with one fresh emitter with no listeners |
| `VerticalCluster.WorkerProcess.NewNode` | src/vertical-cluster-node.ts:30-36 | every node created in a process gets that process's one static emitter, its server name and an empty callback map |
| `VerticalCluster.Emitter.Receive` | src/vertical-cluster-node.ts:7-12 | a worker's handler fires the listeners of the envelope's message topic with the envelope's `serverName` |
| `VerticalCluster.VerticalClusterNode.constructor` | src/vertical-cluster-node.ts:34-36 | a node keeps its configured server name, shares the process's emitter and starts with an empty callback map |
| `VerticalCluster.VerticalClusterNode.NodeSend` | src/vertical-cluster-node.ts:41-43 | a node's `send` writes the broadcast envelope for its own server name |
| `VerticalCluster.VerticalClusterNode.NodeSendDirect` | src/vertical-cluster-node.ts:48-50 | a node's `sendDirect` writes the directed envelope for its own server name |
| `VerticalCluster.VerticalClusterNode.Subscribe` | src/vertical-cluster-node.ts:55-58 | the per-node map keeps only the latest callback per topic; the shared emitter appends the callback to that topic's list |
| `VerticalCluster.SharedEmitterScenario` | src/vertical-cluster-node.ts:55-58 | after two nodes of one process subscribe three callbacks to one topic, an inbound envelope fires all three in registration order with no origin; the first node's map holds only its last callback |
| `RedisLocks.LockKey` | redis-locks.ts:37 | a lock's key is `DS_LOCK/` followed by the lock name |
| `RedisLocks.LockKeyInjective` | redis-locks.ts:37-49 | two locks share a key exactly when they are the same lock, so SETNX, EXPIRE and DEL for one lock address one key |
| `RedisLocks.TimeoutSeconds` | redis-locks.ts:42 | the EXPIRE argument is `lockTimeout / 1000` seconds, computed exactly, and is non-negative for a non-negative timeout |
| `RedisLocks.WholeTimeoutIffMultiple` | redis-locks.ts:42 | the EXPIRE argument `lockTimeout / 1000` is a whole number of seconds exactly when `lockTimeout` is a multiple of 1000 |
| `RedisLocks.WholeSeconds` | redis-locks.ts:42 | the timeout rounded up to whole seconds: never shorter than `lockTimeout`, and less than one second longer |
| `RedisLocks.RedisServer.constructor` | redis-locks.ts:21 | a fresh server has no keys and has received no commands |
| `RedisLocks.RedisServer.Setnx` | redis-locks.ts:37 | SETNX is logged; on success it creates an absent key (result 1) or leaves an existing key unchanged (result 0); on error nothing changes |
| `RedisLocks.RedisServer.Expire` | redis-locks.ts:42 | EXPIRE is logged. On success it sets the time-to-live of an existing key, or deletes the key when the number of seconds is not positive. A number of seconds that is not whole is rejected and changes nothing. Nothing else changes |
| `RedisLocks.RedisServer.Del` | redis-locks.ts:49 | DEL is logged; on success it removes exactly that key |
| `RedisLocks.RedisLockRegistry.constructor` | redis-locks.ts:15-17 | the registry keeps its client and the configured `lockTimeout` |
| `RedisLocks.RedisLockRegistry.Get` | redis-locks.ts:36-46 | granted exactly when SETNX reports no error, whatever its result and whatever EXPIRE answers. On error, only SETNX is issued and the keyspace is unchanged. Otherwise SETNX then EXPIRE(`lockTimeout/1000`) are issued, and the key is left in one of three states. It is gone when EXPIRE succeeded with a non-positive whole number of seconds. It holds its previous entry (or a fresh one) with the time-to-live set when EXPIRE succeeded with a positive whole number. It holds that entry with no new time-to-live when EXPIRE failed or the seconds are not whole. No other key changes |
| `RedisLocks.RedisLockRegistry.GetIntended` | redis-locks.ts:36-46 | with the timeout rounded up to whole seconds, a granted lock whose EXPIRE succeeds keeps its key, with a time-to-live of at least `lockTimeout` |
| `RedisLocks.RedisLockRegistry.Release` | redis-locks.ts:48-50 | issues one DEL of the lock's key, with no ownership check, and removes only that key |
| `RedisLocks.HeldLockGrantedTwice` | redis-locks.ts:37-45 | two callers asking for the same lock, with no errors, are both granted |
| `RedisLocks.GrantedWithoutExpiry` | redis-locks.ts:37-45 | when SETNX creates the key and EXPIRE then fails, the lock is granted and its key has no time-to-live |
| `RedisLocks.FractionalTimeoutNeverExpires` | redis-locks.ts:42 | with `lockTimeout` 1500 and every reply successful, the lock is granted, yet its key has no time-to-live |
| `RedisLocks.WholeSecondsTimeoutExpires` | redis-locks.ts:42 | with the timeout rounded up, the same lock's key expires after 2 seconds |
| `RedisLocks.ZeroTimeoutLeavesNoKey` | redis-locks.ts:36-46 | with `lockTimeout` 0 the lock is granted, yet EXPIRE 0 leaves no key |
| `RedisLocks.ReleaseByNonHolder` | redis-locks.ts:48-50 | a registry that never acquired a lock can release another caller's lock |
| `HttpMonitoring.Put` | src/http-monitoring.ts:56-58 | after `map.set(k, v)`, `map.get(k)` yields `v` |
| `HttpMonitoring.Lookup` | src/http-monitoring.ts:54 | `map.get(k)` finds a value exactly when `k` is among the map's keys |
| `HttpMonitoring.PutLookup` | src/http-monitoring.ts:56-58 | after `map.set(k, v)`, `k` maps to `v` and every other key keeps its value |
| `HttpMonitoring.PutKeys` | src/http-monitoring.ts:56-58 | `map.set` keeps the insertion order; a new key is appended and an existing key keeps its place |
| `HttpMonitoring.PutDistinct` | src/http-monitoring.ts:56-58 | `map.set` keeps the keys unique |
| `HttpMonitoring.Increment` | src/http-monitoring.ts:54-58 | the counting step leaves the key's counter at its old value + 1, and at 1 if it was absent |
| `HttpMonitoring.IncrementCounts` | src/http-monitoring.ts:53-60 | the counting step sets the key's counter to the old value + 1 (1 if absent) and leaves every other counter unchanged |
| `HttpMonitoring.IncrementKeepsValid` | src/http-monitoring.ts:54-58 | the counting step keeps keys unique and every counter ≥ 1 |
| `HttpMonitoring.Bump` | src/http-monitoring.ts:73 | a login increments `allowed` if it was allowed, else `declined`, by exactly one |
| `HttpMonitoring.RecordLogin` | src/http-monitoring.ts:68-73 | `onLogin`'s update leaves the endpoint's record at its old record (`{0, 0}` if absent) with `allowed` or `declined` raised by one |
| `HttpMonitoring.RecordLoginCounts` | src/http-monitoring.ts:67-74 | `onLogin` starts an absent endpoint at `{0, 0}` and raises one of its fields by one; other endpoints are unchanged |
| `HttpMonitoring.RecordLoginKeepsValid` | src/http-monitoring.ts:67-73 | `onLogin` keeps endpoints unique and every endpoint at `allowed + declined` ≥ 1 |
| `HttpMonitoring.HTTPMonitoring.constructor` | src/http-monitoring.ts:14-20 | all four maps start empty |
| `HttpMonitoring.HTTPMonitoring.OnErrorLog` | src/http-monitoring.ts:53-60 | counts the event in `errorLogs`; the other maps are unchanged; the invariant is kept |
| `HttpMonitoring.HTTPMonitoring.OnLogin` | src/http-monitoring.ts:67-74 | applies the login update to `loginStats` only; the invariant is kept |
| `HttpMonitoring.HTTPMonitoring.OnMessageRecieved` | src/http-monitoring.ts:88-95 | counts the message topic in `recieveStats` only |
| `HttpMonitoring.HTTPMonitoring.OnMessageSend` | src/http-monitoring.ts:109-116 | counts the message topic in `sendStats` only |
| `HttpMonitoring.HTTPMonitoring.OnBroadcast` | src/http-monitoring.ts:127-134 | counts the message topic in `sendStats` by exactly one, whatever the recipient count |
| `HttpMonitoring.HTTPMonitoring.GetAndResetMonitoringStats` | src/http-monitoring.ts:154-166 | returns the four entry lists as they were before the call and leaves all four maps empty |
| `HttpMonitoring.SecondResetIsEmpty` | src/http-monitoring.ts:154-166 | two reads with no event in between: the second returns four empty lists |
| `HttpMonitoring.BroadcastCountsOnce` | src/http-monitoring.ts:127-134 | a broadcast to 100 recipients and a single send on one topic leave that topic's send counter at 2 |
| `NodeCache.DataKey` | src/node-cache.ts:53 | a record's data key is its name followed by `_d` |
| `NodeCache.DataKeyDiffers` | src/node-cache.ts:52-53 | a record's data key never equals its own version key |
| `NodeCache.KeySchemeCollides` | src/node-cache.ts:51-68 | the key scheme is not injective: after setting record `a` and then record `a_d`, reading `a` yields `a_d`'s version as its data |
| `NodeCache.Stored` | src/node-cache.ts:51-54 | `set` writes the version under the name and the data under the data key, and leaves every other key unchanged |
| `NodeCache.Read` | src/node-cache.ts:62-68 | `mget([name, name_d])` yields each of the two entries exactly when its key is present, with the cached value |
| `NodeCache.GetAfterSet` | src/node-cache.ts:61-70 | `get` after `set` yields exactly the version and data written |
| `NodeCache.Deleted` | src/node-cache.ts:76 | `del(keys)` removes exactly the listed keys and keeps the other values |
| `NodeCache.BulkKeys` | src/node-cache.ts:83-84 | `deleteBulk` passes every data key followed by every version key |
| `NodeCache.BulkKeysCoverRecords` | src/node-cache.ts:83-84 | the bulk key list covers exactly both keys of every named record |
| `NodeCache.DeleteEach` | src/node-cache.ts:75-77 | deleting records one by one removes both keys of every named record, adds no key and keeps the values of the remaining keys |
| `NodeCache.DeleteEachRemovesRecordKeys` | src/node-cache.ts:75-77 | deleting records one by one removes exactly both keys of each |
| `NodeCache.DeleteBulkIsDeleteEach` | src/node-cache.ts:82-85 | `deleteBulk(names)` reaches the same cache as `delete` on each name in turn |
| `NodeCache.NodeCachePlugin.constructor` | src/node-cache.ts:10 | the cache starts empty |
| `NodeCache.NodeCachePlugin.Head` | src/node-cache.ts:21-29 | on a cache error, only the error text is reported; otherwise the entry under the record's name, if any |
| `NodeCache.NodeCachePlugin.HeadBulk` | src/node-cache.ts:36-44 | on a cache error, only the error text; otherwise exactly the present entries among the given names |
| `NodeCache.NodeCachePlugin.Set` | src/node-cache.ts:51-54 | the cache becomes the stored form of the record |
| `NodeCache.NodeCachePlugin.Get` | src/node-cache.ts:61-70 | on a cache error, only the error text; otherwise the entries under the version key and the data key |
| `NodeCache.NodeCachePlugin.Delete` | src/node-cache.ts:75-77 | removes both keys of the record and leaves every other key unchanged |
| `NodeCache.NodeCachePlugin.DeleteBulk` | src/node-cache.ts:82-85 | removes the bulk key list, which is the same as deleting each record in turn |
| `NodeCache.SetThenRead` | src/node-cache.ts:51-70 | after `set`, `get` yields the version and data, and `head` yields the version |
| `FileStorage.PathOf` | src/file-storage.ts:32 | a record's file is the directory, a `/`, then the record name |
| `FileStorage.PathInjective` | src/file-storage.ts:47 | within one directory, two record names give the same path string exactly when they are the same name |
| `FileStorage.Unlinked` | src/file-storage.ts:82 | the unlinks issued by `deleteBulk`, applied in order, only remove files and never change a surviving record |
| `FileStorage.UnlinkedPaths` | src/file-storage.ts:60-82 | after `deleteBulk`, a file survives exactly when no unlink that succeeded addressed it, and it keeps its record |
| `FileStorage.FileStoragePlugin.constructor` | src/file-storage.ts:12-14 | the plugin keeps its directory over the given files |
| `FileStorage.FileStoragePlugin.Set` | src/file-storage.ts:31-39 | on success it stores `{v, d}` at the record's path and calls back with `null`; on a write error it calls back with that error and nothing changes |
| `FileStorage.FileStoragePlugin.Get` | src/file-storage.ts:46-55 | a readable file yields its `v` and `d`; a missing or unreadable file yields version -1 and data `null`, never an error |
| `FileStorage.FileStoragePlugin.Delete` | src/file-storage.ts:60-68 | it unlinks the record's file and calls back with `null`; a missing file or an I/O failure calls back with the error |
| `FileStorage.FileStoragePlugin.DeleteBulk` | src/file-storage.ts:74-83 | one delete per name, in order, each with its own outcome; the individual errors are ignored; the callback fires exactly once for a non-empty list and never for `[]` |
| `FileStorage.FileStoragePlugin.DeleteBulkIntended` | src/file-storage.ts:74-83 | with an immediate callback for an empty list, the bulk callback fires exactly once for every list |
| `FileStorage.RoundTrip` | src/file-storage.ts:31-55 | from any prior state, a record written with `set` reads back with the same version and data |
| `FileStorage.ReadAfterDelete` | src/file-storage.ts:46-68 | from any prior state, after a record is written and deleted, reading it yields version -1 and data `null` |
| `UsernamePermission.CanPerformAction` | src/username-permission.ts:25-35 | allowed exactly when `message.name` is present, non-empty and contains the user id; on allow the callback gets a `null` error, on deny the fixed text and `false`; socket, message and pass-through are passed unchanged |
| `UsernamePermission.NamelessDenied` | src/username-permission.ts:29-34 | a missing or empty name is denied whatever the user id |
| `UsernamePermission.EmptyUserIdAllowsAnyName` | src/username-permission.ts:29-30 | an empty user id allows every non-empty name |
| `UsernamePermission.EmbeddedUserIdAllowed` | src/username-permission.ts:29-30 | any non-empty name that embeds the user id is allowed |
| `RootUsernamePermission.CanPerformAction` | username-permission.ts:16-23 | allowed exactly when `message.name` is present, non-empty and contains the `username` argument; the error is `null` on allow and the fixed text on deny; `socketWrapper`, `message` and `passItOn` are passed unchanged |
| `RootUsernamePermission.AgreesWithSrcVariant` | username-permission.ts:17-22 | the root variant's verdict and error equal the `src` variant's for a socket carrying that user name |
| `AuthTokenAuthentication.IsValidUser` | src/auth/token-authentication.ts:58-70 | a non-string token gives `null`; `ABC` gives John (admin, theme red); `123` gives Bob (not admin, theme blue); any other string gives `null`; every non-null result has `isValid` true |
| `AuthTokenAuthentication.IgnoresConnectionData` | src/auth/token-authentication.ts:58-70 | the result depends only on the token |
| `TokenAuthentication.IsValidUser` | src/token-authentication.ts:51-67 | a non-string token is answered `(false, {clientData: {error: "Missing token"}})`; `ABC` and `123` give `(true, TOKENS[token])`; any other string gives `(false, {clientData: {error: "Invalid Token"}})` |
| `TokenAuthentication.KnownUsers` | src/token-authentication.ts:3-14 | the table has exactly the tokens `ABC` (John, admin) and `123` (Bob, not admin) |
| `RootTokenAuthentication.IsValidUser` | token-authentication.ts:26-42 | the same three outcomes: `Missing token` for a non-string, John or Bob for `ABC` or `123`, `Invalid Token` otherwise |
| `RootTokenAuthentication.AgreesWithSrcPlugin` | token-authentication.ts:3-42 | the root plugin answers every token exactly as the `src` plugin does |

## Findings

| source | as written | input that shows it | evidently intended | confidence | as-written member | corrected member |
|---|---|---|---|---|---|---|
| src/vertical-cluster-node.ts:19 | the relay calls `worker.send`, so every copy goes back to the origin | workers 1, 2, 3 and a message from 1: worker 1 gets 2 copies, workers 2 and 3 get none | `fromWorker.send`: each other worker gets one copy | high; not executed | `VerticalCluster.RelayReachesOnlyOrigin` | `VerticalCluster.RelayIntendedReachesEachOtherOnce` |
| src/vertical-cluster-node.ts:9 | the handler reads `serverName`, but senders write `fromServer` | `send(m)` from server `a`: each subscriber's origin argument is `undefined` | read `fromServer` | high; not executed | `VerticalCluster.OriginNeverDelivered` | `VerticalCluster.IntendedOriginIsSender` |
| src/vertical-cluster-node.ts:8-11 | `toServer` is never consulted on receipt | `sendDirect("b", m)` from `a`: the subscribers of a server `c` fire too | drop envelopes addressed to another server | medium; not executed | `VerticalCluster.DirectedFiresLikeBroadcast` | `VerticalCluster.IntendedDirectedOnlyAtTarget` |
| src/file-storage.ts:75-82 | the completion check runs only inside per-delete callbacks | `deleteBulk([])`: the callback is never called | call back at once when there is nothing to delete | high; not executed | `FileStorage.FileStoragePlugin.DeleteBulk` | `FileStorage.FileStoragePlugin.DeleteBulkIntended` |
| redis-locks.ts:42 | EXPIRE is sent `lockTimeout / 1000` unrounded | `lockTimeout` 1500: EXPIRE 1.5 is rejected, so every granted lock is left with no time-to-live | round up to whole seconds (`Math.ceil`) | high; not executed | `RedisLocks.FractionalTimeoutNeverExpires` | `RedisLocks.RedisLockRegistry.GetIntended` |

The model keeps the as-written definitions, because they are what the plugins do. The corrected definitions sit beside them, each with its intended property proved.

## Left out

- Node's `cluster` and `process` IPC, and the JSON encoding of envelopes, are left out. Envelopes are a datatype, sends are returned sequences, and delivery order across processes is not modelled.
- An inbound envelope that is not valid JSON makes `JSON.parse` throw inside the worker's handler. This is not modelled.
- `TOPIC[message.topic]` is modelled by the topic code itself, taking the enum's reverse lookup as one-to-one. A missing topic or a code outside the enum is not modelled.
- `VerticalCluster.Relay`: the worker map is a sequence of ids with equality standing for object identity, as in `cluster.workers`.
- The Redis connection lifecycle (`whenReady`, `close`) and the logging of connection errors are not modelled.
- Clock-driven TTL expiry is not modelled; a positive whole time-to-live is recorded in the keyspace. EXPIRE's immediate effects are modelled: it rejects a number of seconds that is not whole, and deletes the key for a non-positive one.
- SETNX is sent without a value argument, and what the client library does with that cannot be seen. Its reply is an input, and a created key holds no value.
- Fencing tokens, atomic set-with-TTL, ownership-checked release and denial of a held lock are not in the code and are not modelled.
- `RedisLocks.TimeoutSeconds`: computes `lockTimeout / 1000` as an exact real, not as an IEEE double.
- The `get` and `release` of `src/redis-locks.ts` only throw "Method not implemented", so there is nothing to model.
- The HTTP server and `onRequest` are not modelled. They are I/O.
- `onRequest` as written cannot reach the statistics. It tests `req.type`, but Node's request object carries the verb in `req.method` and has no `type` field, so every request takes the 400 branch and `end()` is called. The code then tries to write a 200 header after the response has ended. It calls `res.header`, which is not a `ServerResponse` method, before `getAndResetMonitoringStats()` is reached. This is read from the code against Node's documented API. `GetAndResetMonitoringStats` is modelled as the operation itself.
- `HttpMonitoring.Increment`: counters are unbounded naturals. The source's counters are JavaScript numbers, for which `count + 1` stops changing the value past 2^53. The same holds for `HttpMonitoring.Bump` (`stats.allowed++` and `stats.declined++`). So `HttpMonitoring.IncrementCounts` and `HttpMonitoring.RecordLoginCounts` promise +1 without that bound.
- `HttpMonitoring.HTTPMonitoring.OnErrorLog`: the log level is a number and the event its string value; neither the level nor the message text affects the counters.
- The file storage's `init` checks and the JSON encoding of record data are not modelled. Data is its JSON text, and the `{v, d}` object is a datatype.
- A file whose content is not valid JSON makes `JSON.parse` throw in `get`. This is not modelled.
- `FileStorage.FileStoragePlugin.DeleteBulk`: delete callbacks are taken in issue order. The completion rule counts callbacks and does not depend on their order. A delete whose callback never arrives is not modelled.
- `RedisLocks.RedisServer.Setnx`: a command reported as failed is modelled as having had no effect on the keyspace. A client-side error, for example after a dropped connection, can follow a SETNX the server did apply. The same holds for `Expire` and `Del`. So `RedisLocks.RedisLockRegistry.Get` says "the keyspace is unchanged" on error only under this assumption.
- `FileStorage.FileStoragePlugin.Set`: a failed write is modelled as leaving the file map unchanged. `fs.writeFile` truncates the file before writing, so a failed write can destroy the previous record. The same assumption applies to `Delete`.
- `FileStorage.PathInjective`: paths are compared as strings. Path normalisation is not modelled: `x`, `./x` and `a/../x` reach the same file. A record name containing `/` addresses a subdirectory, which is not modelled either.
- `Text.Includes`: it compares Dafny characters, while JavaScript's `includes` compares UTF-16 code units. A string holding a lone surrogate cannot be represented.
- A null or undefined `authData` makes `authData.token` throw in all three token plugins. `AuthToken` has no case for this; only a string and a non-string token are modelled.
- node-cache internals are not modelled: cloning, TTL and eviction.
- `NodeCache.NodeCachePlugin.Set`: writes are treated as always succeeding. The arguments node-cache passes to the write callback are not modelled.
- `NodeCache.NodeCachePlugin.Delete`: the arguments node-cache passes to the `del` callback are not modelled.
- `NodeCache.NodeCachePlugin.DeleteBulk`: the arguments node-cache passes to the `del` callback are not modelled.
- `TokenAuthentication.IsValidUser`: the `TOKENS` tables are exactly two-entry maps. In JavaScript, `TOKENS[token]` also finds inherited properties: `TOKENS["toString"]` is truthy and would be returned as a valid user. That divergence is not modelled.
- `AuthTokenAuthentication.IsValidUser`: same two-entry table; an inherited property such as `toString` is not modelled. The function returns the promise's resolved value.
- `RootTokenAuthentication.IsValidUser`: same two-entry table; an inherited property such as `toString` is not modelled.
- `UsernamePermission.CanPerformAction`: a user id or name that is not a string is not modelled, for example an `undefined` user id, which `includes` would coerce to the text "undefined".
- `RootUsernamePermission.CanPerformAction`: a `username` argument that is not a string is not modelled. `includes` would coerce it in the same way.
- The pino loggers are thin wrappers over pino and are not modelled. Two spots in `src/logger/pino-logger.ts` look suspect: the call to `islevelenabled`, and indexing the logger with a numeric `LOG_LEVEL`.
- Keycloak token verification is a call into a foreign library and is not modelled.
- The custom plugins, the runners and the `deepstream-setter`/`deepstream-constructor` wiring are not modelled.
