# eventflow-hub, modelled in Dafny

eventflow-hub is the hub of an event mesh. Spokes connect to it over
mutually authenticated TLS, subscribe to events by domain and name, and
publish events. The hub claims each published event in a shared event
store, with a compare-and-set, so that only one hub of the mesh delivers
it. It then fans the event out to the subscribers, or marks it orphan when
nobody subscribes. A polling loop runs scheduled events through the same
pipeline. When a hub comes up it announces itself to its peer hubs, and a
peer that hears of a hub relays that to its spokes. The hub presents a
certificate chain (root, intermediate, leaf). The chain is created
lazily, stored encrypted in a table shared with other replicas, and
renewed when it expires.

The model has six modules:

- `Common`: record fields that can be `undefined`, duplicate-free
  sequences standing in for JavaScript `Set`s, and the `Set` operations.
- `Spokes`: the connection registry, `manager/spokes.js`.
  `SpokesManager` is a class over a duplicate-free `seq`.
- `Subscribers`: the subscription registry, `manager/subscribers.js`.
  Functions on the index value say what each operation leaves behind, and
  lemmas state its properties. The class `SubscribersManager` performs the
  operations in place. `deleteBySocket`'s loop is the method `PruneNames`.
- `Certificates`: the certificate manager, `manager/certificates.js`.
  The class has the in-memory cache and the certificate table as fields.
  `#lazyload` and `#eagerload` are the mutually recursive methods
  `Lazyload`, `Reload`, `Fetch` and `Eagerload`.
- `Events`: the event store's claims and marks, the publish pipeline, one
  tick of the scheduled loop and the peer announcement trace. These are
  functions of the store, from `index.js`, with lemmas about them.
- `Hub`: the hub engine, `index.js`, as the class `Hub`. The TLS channel
  is a trace `sent` of what the hub asks it to send.

## Model

| member | source | states |
|---|---|---|
| Common.Field | index.js:206-213 | a record field is defined exactly when the record is long enough, and is then that field |
| Common.Remove | manager/spokes.js:27-30 | `Set.delete` removes every occurrence of the element, keeps the others (as a multiset), and changes nothing when it is absent |
| Common.AppendNew | manager/subscribers.js:36 | `[...new Set(xs)]` extends the accumulator, keeping it as a prefix |
| Common.AppendNewMembers | manager/subscribers.js:36 | an element is in the deduplicated result exactly when it is in the accumulator or in the input |
| Common.AppendNewNoDup | manager/subscribers.js:36 | the deduplicated result has no element twice |
| Common.RemoveNoDup | manager/spokes.js:27-30 | deleting from a duplicate-free set leaves it duplicate-free |
| Spokes.Inserted | manager/spokes.js:17-20 | `Set.add` keeps the old sockets as a prefix, contains the socket, and appends it only when it was absent |
| Spokes.InsertedNoDup | manager/spokes.js:7-20 | adding to the set never creates a duplicate |
| Spokes.DeleteUndoesAdd | manager/spokes.js:17-30 | adding a socket and deleting it equals deleting it from the original set |
| Spokes.DeleteKeepsOthers | manager/spokes.js:27-30 | deleting a socket keeps every other socket in its insertion order |
| Spokes.SpokesManager.constructor | manager/spokes.js:7 | a new registry is empty |
| Spokes.SpokesManager.Destroy | manager/spokes.js:9-15 | `destroy` ends every registered socket once, in insertion order |
| Spokes.SpokesManager.Add | manager/spokes.js:17-20 | the new set is the old one with the socket inserted; no duplicates |
| Spokes.SpokesManager.All | manager/spokes.js:22-25 | `all` is a snapshot of the set, in insertion order, without duplicates |
| Spokes.SpokesManager.Delete | manager/spokes.js:27-30 | the new set is the old one with the socket removed; no duplicates |
| Subscribers.Subscribed | manager/subscribers.js:29-37 | `get` of a (domain, name) with neither a named nor a wildcard set is empty |
| Subscribers.SubscribedShape | manager/subscribers.js:29-37 | `get` returns the named set in insertion order, then the wildcard subscribers not already among them, with no socket twice |
| Subscribers.SubscribedMembers | manager/subscribers.js:29-37 | a socket is returned exactly when it is in the named set or in the wildcard set |
| Subscribers.AddedBuckets | manager/subscribers.js:14-27 | `add` changes only the set for (domain, name), appending the socket unless it is there already |
| Subscribers.AddedPruned | manager/subscribers.js:14-27 | `add` keeps the registry invariant: no empty maps, no empty or duplicated sets |
| Subscribers.AddIdempotent | manager/subscribers.js:14-27 | adding the same subscription twice equals adding it once, and `get` sees no difference |
| Subscribers.AddedSubscribed | manager/subscribers.js:14-37 | after `add`, `get` returns the socket, after the sockets already subscribed by that name |
| Subscribers.WithoutSocketBuckets | manager/subscribers.js:39-58 | `deleteBySocket` removes the socket from every set and leaves the other sockets |
| Subscribers.WithoutSocketPruned | manager/subscribers.js:39-58 | `deleteBySocket` keeps the registry invariant: emptied sets and emptied domains are dropped |
| Subscribers.WithoutSocketSubscribed | manager/subscribers.js:39-58 | after `deleteBySocket`, `get` answers as before without that socket |
| Subscribers.WithoutSocketAbsent | manager/subscribers.js:39-58 | `deleteBySocket` of an unsubscribed socket changes nothing |
| Subscribers.WithoutSubscriptionBuckets | manager/subscribers.js:60-77 | `deleteBySocketAndDomainAndName` removes the socket from the (domain, name) set only |
| Subscribers.WithoutSubscriptionPruned | manager/subscribers.js:60-77 | `deleteBySocketAndDomainAndName` keeps the registry invariant |
| Subscribers.WithoutSubscriptionAbsent | manager/subscribers.js:60-77 | unsubscribing a socket that is not subscribed changes nothing, including for an unknown domain or name |
| Subscribers.DestroyedEmpty | manager/subscribers.js:9-12 | after `destroy`, `get` returns nothing for any domain and name |
| Subscribers.SubscribersManager.constructor | manager/subscribers.js:7 | a new registry is empty |
| Subscribers.SubscribersManager.Destroy | manager/subscribers.js:9-12 | `destroy` empties the registry |
| Subscribers.SubscribersManager.Add | manager/subscribers.js:14-27 | the new index is `Added` of the old, and the invariant holds |
| Subscribers.SubscribersManager.Get | manager/subscribers.js:29-37 | the result is `Subscribed` of the index, without duplicates |
| Subscribers.SubscribersManager.DeleteBySocket | manager/subscribers.js:39-58 | the nested loop leaves `WithoutSocket` of the old index and keeps the invariant |
| Subscribers.SubscribersManager.DeleteBySocketAndDomainAndName | manager/subscribers.js:60-77 | the new index is `WithoutSubscription` of the old, and the invariant holds |
| Subscribers.PruneNames | manager/subscribers.js:43-55 | the inner loop over one domain's names removes the socket from every set and drops the emptied ones |
| Certificates.Merge | manager/certificates.js:14-34 | each supplied option overrides its default; the others keep the defaults (EdDSA-Ed448, SHA-512, 365/30/7 days, aes-256-gcm, sha512, 32 bytes, 1e6 iterations) |
| Certificates.Configure | manager/certificates.js:34-42 | construction fails with the missing-configuration error exactly when the merged encryption key is falsy |
| Certificates.ConfigureNeedsKey | manager/certificates.js:36-42 | without options, without a key, or with an empty key, construction fails |
| Certificates.Latin1 | manager/certificates.js:289 | latin1 decoding maps each byte to the character with that code, one for one |
| Certificates.Strip | manager/certificates.js:290 | `replaceAll(c, '')` leaves no `c` and every other character as often as before |
| Certificates.PasswordConcat | manager/certificates.js:284-293 | the password of a concatenated draw is the concatenation of the passwords, so the drawn order is kept |
| Certificates.PasswordOfByte | manager/certificates.js:284-293 | each byte contributes its own character, except NUL and `$`, which contribute nothing |
| Certificates.PasswordShape | manager/certificates.js:284-293 | the contract of `GenerateRandomPassword`: the password has no NUL and no `$`, keeps every other drawn character as often as drawn, and is shorter than 128 when the draw is |
| Certificates.Seal | manager/certificates.js:251-266 | decrypting what was encrypted gives the plaintext back |
| Certificates.Unseal | manager/certificates.js:268-282 | decryption succeeds exactly when the authentication tag verifies |
| Certificates.Open | manager/certificates.js:161-173 | a row decrypts exactly when both key and password tags verify, and keeps its validity and certificate |
| Certificates.OpenSealed | manager/certificates.js:61-84 | a row persisted from material reads back as that material |
| Certificates.Read | manager/certificates.js:161-173 | reading fails with the table's error, fails with NotFound on a missing row, and otherwise decrypts the row |
| Certificates.Insert | manager/certificates.js:185-200 | the insert wins exactly when no row exists and no replica inserts first; the table then keeps whichever row came first, and other rows are unchanged |
| Certificates.Revoked | manager/certificates.js:152 | revoking removes that one row and keeps every other row |
| Certificates.Issue | manager/certificates.js:203-249 | issued material is unexpired, has the requested subject and password, and names its issuer (itself for the root) |
| Certificates.CertificatesManager.Create | manager/certificates.js:27-43 | construction fails exactly when the encryption key is falsy; otherwise it keeps the two UIDs and the merged options, with an empty cache |
| Certificates.CertificatesManager.Init | manager/certificates.js:27-34 | the manager starts with the given UIDs and configuration and an empty cache |
| Certificates.CertificatesManager.ClearCache | manager/certificates.js:45-48 | the cache is emptied and the table is untouched |
| Certificates.CertificatesManager.Revoke | manager/certificates.js:91-94 | the row leaves the table; the answer is whether it was there |
| Certificates.CertificatesManager.Persist | manager/certificates.js:61-84 | key and password are stored encrypted; the answer is whether this insert won |
| Certificates.CertificatesManager.Root | manager/certificates.js:100-103 | `Loaded` for the root tier under the id `EVENTFLOW-ROOT-CA`: a cache hit on unexpired material is returned with cache and table unchanged; a miss on an unexpired row returns that row and caches it, the table unchanged; a miss on a row that fails to read with an error other than NotFound returns that error and changes nothing; when the certificate must be made (the cached entry or the row has expired, or there is no row) and no other replica inserts first, with the issuer loadable, the result is the generated material, signed by the issuer then cached; when another replica's row wins the insert, that row is returned, unless it has expired, in which case it is replaced by generated material; whenever the tier is loadable the load succeeds; served material is unexpired and cached, and stored when it was not served from the cache; an expired cached entry is never served; every row written is unexpired and decrypts; only the ids of the tier and its issuers are written; unexpired cached entries stay |
| Certificates.CertificatesManager.Intermediate | manager/certificates.js:109-112 | `Loaded` for the intermediate tier under the intermediate UID, issued by the root: the same clauses as for the root, with the root as issuer |
| Certificates.CertificatesManager.Leaf | manager/certificates.js:118-121 | `Loaded` for the leaf tier under the leaf UID, issued by the intermediate: the same clauses as for the root, with the intermediate as issuer |
| Certificates.CertificatesManager.Lazyload | manager/certificates.js:123-159 | `Loaded` for any tier: a cache hit on unexpired material is returned with cache and table unchanged; a miss on an unexpired row returns that row and caches it, the table unchanged; a miss on a row that fails to read with an error other than NotFound returns that error and changes nothing; when the certificate must be made (the cached entry or the row has expired, or there is no row) and no other replica inserts first, with the issuer loadable, the result is the generated material, signed by the issuer then cached; when another replica's row wins the insert, that row is returned, unless it has expired, in which case it is replaced by generated material; whenever the tier is loadable the load succeeds; served material is unexpired and cached, and stored when it was not served from the cache; an expired cached entry is never served; every row written is unexpired and decrypts; only the ids of the tier and its issuers are written; unexpired cached entries stay |
| Certificates.CertificatesManager.Renew | manager/certificates.js:146-154 | an expired cached entry is evicted, its row revoked and the tier loaded again: `Loaded` holds from the state before the eviction, so the expired material is replaced by generated material whenever the tier is loadable, and is never returned |
| Certificates.CertificatesManager.Reload | manager/certificates.js:125-154 | `Loaded` for a tier that is not cached: a fetched row or rival row that has expired is evicted, revoked and replaced by generated material whenever the tier is loadable; every other clause of `Loaded`, as listed for Lazyload, holds |
| Certificates.CertificatesManager.Fetch | manager/certificates.js:125-141 | `Fetched`: a readable row is returned and cached as it is, the table unchanged; a read error other than NotFound propagates and changes nothing; on NotFound with the issuer loadable and no rival, the generated material is returned; with a rival, the rival's row is returned; what is returned is cached and stored; expired material returned uses up a rival row or the read row; only the chain's ids are written |
| Certificates.CertificatesManager.Eagerload | manager/certificates.js:175-201 | `Made`: what is returned is what the table holds for the id afterwards; without a rival it is exactly the generated material (subject the id, signed by the cached issuer, password from the draw), and it succeeds whenever the issuer is loadable; with a rival and the issuer loadable it is the rival's row as it reads, whether that decrypts or not; the issuer stays cached and unexpired; every other row written is unexpired and decrypts |
| Certificates.CertificatesManager.Settle | manager/certificates.js:185-200 | `Settled`: without a rival the material just made is inserted and returned; when another replica's row wins the insert, that row as it reads is returned, including its read error; an existing row is returned as it is and the table does not change; afterwards the id has a row, it is what is returned on success, no other row is added or changed, the rival row is used up, and the cache is untouched |
| Certificates.CertificatesManager.Generated | manager/certificates.js:175-184 | the material `#eagerload` creates has the tier's id as subject and is unexpired |
| Certificates.CertificatesManager.GeneratedKeys | manager/certificates.js:175-249 | the generated material's key and password are `GenerateRandomPassword` of the bytes drawn for the tier's id, and its issuer is the issuer material's subject (the id itself for the root) |
| Certificates.CertificatesManager.RenewLoaded | manager/certificates.js:146-154 | evicting an expired entry and revoking its row, then loading, is a load of the tier from the state before the eviction |
| Certificates.CertificatesManager.RefetchLoaded | manager/certificates.js:125-154 | a miss that returns expired material, followed by the restart, is a load from the state before the miss: the expired row or the expired rival row is replaced |
| Certificates.CertificatesManager.IssuedLoadable | manager/certificates.js:123-201 | a tier that needs nothing from its issuers, and whose issuer is served from the cache, is loadable |
| Certificates.CertificatesManager.Lineage | manager/certificates.js:203-249 | the ids a load may write contain the tier's own id and those its issuer's load may write |
| Events.Consume | index.js:270 | the claim fails on a store error, succeeds exactly when the event is still published, and then records this hub as consumer and nothing else |
| Events.ConsumeAtMostOnce | index.js:268-279 | a second claim on a consumed event answers false and changes nothing |
| Events.Execute | index.js:375-380 | the execution claim succeeds exactly when the event is scheduled, and then only moves it to executed |
| Events.ExecuteAtMostOnce | index.js:375-380 | a scheduled event is executed at most once |
| Events.Mark | index.js:393-406 | marking a scheduled event succeeded or failed sets its schedule state; published, consumers, orphans, store faults and the quit flag are unchanged |
| Events.Orphaned | index.js:288 | marking an orphan adds the event to the orphans; published, consumers, schedule, store faults and the quit flag are unchanged |
| Events.Publish | index.js:268-304 | the result is the claim's answer; without the claim nothing happens; with it the event is orphaned when `get` is empty and broadcast to exactly `get`'s sockets otherwise |
| Events.PublishNeedsClaim | index.js:270-276 | nothing is broadcast and nothing is orphaned unless this hub consumed the event |
| Events.OrphanIff | index.js:283-289 | an event becomes orphan exactly when the claim holds and nobody subscribes |
| Events.PublishAtMostOnce | index.js:268-279 | publishing the same event again, from any hub, does nothing |
| Events.Step | index.js:367-409 | the abort check stops the tick and is sticky; before it, an event whose execution claim fails is skipped with nothing changed; a claimed one runs the pipeline with the pid undefined and is marked succeeded with its broadcasts appended when consumed, marked failed with the tick ended by the unbound-variable error when already consumed elsewhere, and marked failed with the tick ended by the store error when the claim fails; a step never un-consumes an event and only appends to the trace |
| Events.Batch | index.js:367-409 | a tick only appends to the trace |
| Events.LastReadBounds | index.js:365-422 | the read of the signal after the loop, `LastRead`, comes no earlier than the event the tick starts from, after every event a running tick looks at, and no later than the end of the batch |
| Events.Polled | index.js:365-422 | after the tick the signal is set exactly when it was set before it or is set by the read after the loop (in `finally`, or the next step of `asyncInterval`), including a destroy during the awaits of the last event handled |
| Events.BatchAbortedIff | index.js:367-372 | the loop ends stopped by the signal exactly when it was set before the tick or one of the loop's own checks came at or after the point the signal was set |
| Events.RaisedThenAborted | index.js:384-422 | a one-event batch whose event raises ends with the raised status, and the signal is seen after the loop exactly when the destroy landed during that event's awaits |
| Events.StepKeeps | index.js:369-408 | one loop body keeps consumed events with their hub, marks succeeded only events it claimed and that this hub consumed, and conversely every event it newly consumes was scheduled and is marked succeeded; it changes only scheduled entries |
| Events.StepTouches | index.js:369-408 | one loop body changes only its own event's schedule entry, and only from the scheduled state |
| Events.BatchInvariant | index.js:365-410 | the same holds for the whole tick, whatever the batch and wherever the abort comes: an event is newly succeeded exactly when it was scheduled and this hub consumed it during the tick |
| Events.AbortedTickStops | index.js:369-372 | once the signal is set, the tick returns without touching the store |
| Events.BatchUntilAbort | index.js:367-372 | the events after the first check that sees the abort signal have no effect |
| Events.UnconsumedEndsTick | index.js:402-408 | at any point of any batch, an event whose execution claim succeeds but which is no longer published is marked failed and ends the tick with the unbound-variable error; no later event of the batch is looked at |
| Events.Transmissions | index.js:306-349 | the announcement trace consists of online records sent to and hang-ups of announced peers only |
| Events.NeverAnnouncesSelf | index.js:310-315 | a hub never dials or sends to its own id |
| Hub.ValidName | index.js:35-37 | a name is accepted exactly when it is a non-empty string of letters, digits, `-` and `.` |
| Hub.Upper | index.js:44 | upper-casing maps each character and keeps the length |
| Hub.HubIdShape | index.js:44 | the contract of `HubId`: the hub id is the upper-cased generated id, a dot and the upper-cased name; it has no lower-case letter and upper-casing it again changes nothing |
| Hub.CheckHostname | index.js:107-113 | the server-name check passes exactly when the host name equals the hub id, and otherwise fails with the invalid-hostname error |
| Hub.LowerCaseHostnameRejected | index.js:44-113 | a host name with a lower-case letter is always rejected, because the comparison is case-sensitive |
| Hub.Classify | index.js:206-217 | a record is dispatched by its first field to exactly one of the four handlers, or to none, and the handler's arguments are the record's next fields in order, undefined where the record is short |
| Hub.ClassifyEncode | index.js:206-213 | every complete message is recovered from its record |
| Hub.PublishWithoutPid | index.js:211-262 | a publish record without a pid dispatches with the pid undefined |
| Hub.Ends | manager/spokes.js:11-14 | one end call per socket, in order |
| Hub.ChainNext | index.js:117-120 | when the chain is loadable and the tier's issuers are served from the cache, the tier itself is loadable |
| Hub.LoadKeepsChain | index.js:117-120 | a successful load of one tier keeps the chain loadable, serves that tier from the cache, and keeps its issuers served |
| Hub.BootstrapLoadable | index.js:117-120 | with distinct ids, an empty cache and a table with no row, no rival row and no read fault for the three ids, the chain is loadable, so the first server-name callback after start-up succeeds |
| Hub.Hub.Create | index.js:33-54 | an invalid name fails first; a missing encryption key fails next; otherwise the hub has the derived id, empty registries, and a certificate manager built from the name and the id |
| Hub.Hub.Init | index.js:44-51 | a new hub has empty registries and an empty trace, and the signal is not set |
| Hub.Hub.Destroy | index.js:63-72 | the signal is set, the server is closed, every spoke is ended, the subscriptions are emptied, the hub is marked quit and the store is closed |
| Hub.Hub.ServerSniCallback | index.js:105-136 | a host name other than the hub id is refused without loading certificates; for the hub's own name the callback succeeds whenever the chain is served unexpired from the cache or can be loaded from the table (each tier cached unexpired, stored unexpired, or to be made afresh without a rival, with distinct ids), which includes the first call after start-up; a failure for the hub's own name is a certificate failure; success serves the root as CA, leaf then intermediate as chain, and the leaf key and passphrase; unexpired cached material stays |
| Hub.Hub.OnClientConnection | index.js:168-190 | an unauthorized client is rejected and not registered; any other is registered, takes its certificate UID as id, and is kept alive and resumed |
| Hub.Hub.OnClientDisconnected | index.js:192-199 | the socket leaves the spokes and every subscription |
| Hub.Hub.OnRecord | index.js:206-217 | each record kind has exactly its handler's effect; an unrecognized record changes nothing; the abort signal and the server and store closed flags are unchanged |
| Hub.Hub.OnPeerHubOnlineMessage | index.js:229-248 | an online record is relayed to every spoke unless it came from this hub itself |
| Hub.Hub.OnlineBroadcast | index.js:229-248 | nothing is relayed exactly when the sender is this hub; otherwise one broadcast of the online record |
| Hub.Hub.AttemptToConsumeAndBroadcast | index.js:268-279 | the store, the trace and the result are those of the publish pipeline |
| Hub.Hub.BroadcastPublishedMessage | index.js:281-304 | an event without subscribers is marked orphan; otherwise it is broadcast to exactly the subscribers |
| Hub.Hub.BroadcastHubOnlineToPeerHubs | index.js:306-328 | each peer is skipped exactly when it is this hub or the signal is set; only reachable peers are announced, and with the chain served or loadable before the loop every reachable peer that is not skipped is announced; one peer's failure does not stop the loop; unexpired cached material stays |
| Hub.Hub.TransmitHubOnlineToPeerHub | index.js:330-349 | on success the peer was reachable, and the online record with this hub's external address was sent and the connection closed; with the chain served or loadable, a reachable peer is announced and the chain is served afterwards; on any failure nothing is sent |
| Hub.Hub.SheduledInterval | index.js:356-425 | the store, trace and status are those `Batch` gives for the tick, and the signal afterwards is as `Polled` reads it after the loop; the next tick is scheduled exactly when that read does not see the signal |
| Hub.Hub.ExecuteScheduled | index.js:367-408 | the loop body for one event leaves exactly the store, trace, signal and status that `Step` gives: stop on the signal, skip an event whose execution claim fails, otherwise publish without a pid and mark the event by the outcome |

## Left out

- Logging, `persistLog` audit entries and log severities are not modelled. They do not affect any state the model has.
- TLS, sockets and the channel are not modelled. What the hub asks the channel to send is appended to the trace `sent`.
- `#bootstrapServer`, `bootstrap`, the server's event handlers, `persistHub`, `setupTableSchemas`, timers and `setImmediate` are not modelled. Neither is the listener's start-up failure handling. These are I/O.
- `config.js` is not part of this model. The hub's configuration is the datatype `HubConfig`, reduced to the fields the core reads.
- The random id from `IdNameGenerator` is the parameter `generatedId`. The clock is the parameter `now`. The random bytes are the function parameter `random`: `random(id)` is the draw made for the password of the certificate with that id. The source draws fresh bytes on every call; the model fixes one draw per id for the duration of a load.
- Hub.Hub.SheduledInterval: one tick over one `readEventsScheduled` batch is modelled. The repetition of ticks by `asyncInterval` every `delay` is not. The tick's rescheduling decision is the result `rescheduled`. When `destroy` sets the abort signal is the parameter `abortAt`: the reads of the signal are numbered, read `j` being the check before event `j`, and the read after the loop being numbered `LastRead`. The signal is set from read `abortAt` on.
- Hub.Hub.BroadcastHubOnlineToPeerHubs: the abort signal can be set by `destroy` during an await. This is the parameter `abortAt`, the first loop check that sees it. `readOnlineHubs` is the parameter `hubs`.
- Hub.Hub.TransmitHubOnlineToPeerHub: whether the dial succeeds is the parameter `reachable`. The TLS options, the expected server name and the peer certificate's UID are not recorded.
- Events.Publish: a broadcast that throws is only logged by the source. The model treats every broadcast as handed to the channel.
- Hub.Hub.SheduledInterval: the whole tick runs against one snapshot of the subscription index. Record handlers, disconnects and `destroy` that interleave at the tick's awaits (`index.js:367-407`) and change the subscriptions are not modelled.
- Certificates.CertificatesManager.Persist: a write to the certificate table fails in the model only by losing the insert race. Other failures of `persistCertificate` (`manager/certificates.js:68-84`, `:185`) are not modelled; neither is a failing `revokeCertificate` (`manager/certificates.js:152`), so `Revoked` always succeeds.
- Events.Consume: the consume claim is the only store call that can fail (`faults`). The other store calls are taken to succeed.
- Hub.Upper: `toUpperCase` is modelled on ASCII letters only. Other characters never reach it, because the name is validated and the generated id is taken to be ASCII.
- Certificates.CertificatesManager.Lazyload: concurrent `#lazyload` calls interleaving at their awaits are not modelled. Each call runs to completion. Other replicas' concurrent inserts are modelled by `contenders`.
- Certificates.Issue: the validity is taken as `now + days * DayMillis`. The rounding of `validToDate` to whole seconds is not modelled, so issued material is always unexpired at `now`, also for a lifetime of 0 days (see Notes on the source).
- Certificates.Issue: X.509 encoding, key generation and signatures belong to the OpenSSL layer and are not modelled. The hash and algorithm options are carried but not interpreted.
- Certificates.Seal: PBKDF2, AES-GCM, salts and IVs are not modelled. A sealed value records only whether its tag verifies.
- Certificates.GenerateRandomPassword: the draw length from `randomInt(64, 128)` is not imposed on `random`. PasswordShape states the bound conditionally.

## Notes on the source

- The password is not filtered to printable, non-control characters. Latin-1 decoding of random bytes keeps control characters and bytes 128-255. Only NUL and `$` are removed, so the password can be shorter than 64 characters (`manager/certificates.js:284-293`). The model follows the code.
- In `index.js:407` the variable `error` is not in scope, so the not-consumed branch raises a ReferenceError after marking the event failed. Then the outer handler ends the tick, and the rest of the batch waits for the next tick. The model keeps this as written (`Fault.Unbound`, `Events.UnconsumedEndsTick`).
- `spokes.destroy` ends the sockets but does not empty the set (`manager/spokes.js:9-15`). The sockets leave when their close event is handled. `manager/spokes.test.js:34-45` expects an empty set straight after `destroy`. The model follows the code.
- The online record a hub sends names only its external IP and port (`index.js:239`, `index.js:343`), not its hub id. The test at `index.test.js:76` reads a hub id from the record. The model follows the code.
- A lifetime of 0 days (`rootDays`, `intermediateDays` or `leafDays` set to 0) produces a certificate that is already expired once its validity is rounded to whole seconds. `#lazyload` then evicts, revokes and regenerates it without end (`manager/certificates.js:146-154`, `:184`). The model does not round, and serves such material.
- The server-name check compares against the upper-cased hub id exactly, so lower-case host names are refused (`Hub.LowerCaseHostnameRejected`).
