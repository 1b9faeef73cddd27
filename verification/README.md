# SimpleRiverMouth: the write side of the JDBC river

This project models the river mouth of the JDBC river's "simple" strategy
(`SimpleRiverMouth`). The mouth receives structured objects from the river through
`create`, `index` and `delete`. It resolves each object's target index, type and id
against sticky defaults. Then it builds one index or delete request and hands it to
Elasticsearch's bulk processor. A listener on that processor counts outstanding bulk
requests and sets an error latch when a whole bulk request fails. A timed-out cluster
health check also sets the latch. Once the latch is set, `create`, `index`, `delete`
and `flush` do nothing.

Files:

- `wrappers.dfy`: `Option`; `None` stands for Java's `null`.
- `requests.dfy`: the structured object, the two request kinds, and how a request is
  built from an object. It also reads back the metadata a request carries, so the
  lemmas can state exactly which metadata keys survive.
- `mouth_state.dfy`: the whole mouth state as a value, one `Call` per operation, and
  `Step`, the effect of one call. `Run` replays a sequence of calls. The lemmas cover
  single calls and whole runs: the latch is permanent and only failures set it, a latched
  mouth adds nothing, requests are only appended, the outstanding counter balances, and
  the last object value specified wins for index, type and id.
- `river_mouth.dfy`: the class `SimpleRiverMouth`. Its fields are those of the Java
  class, and its methods are the Java class's public methods and listener callbacks.
  Each method is proved to change the object exactly as `Step` does for the matching
  call, so the lemmas above hold of any sequence of method calls.

`bulk.add` appends to the field `pending`, the ordered list of every request handed to
the bulk processor. The bulk processor itself is the field `bulk`. It is `None` until
`client(...)` is given. Then it holds the settings the processor was built with: bulk
actions `maxBulkActions - 1`, `maxConcurrentBulkRequests` concurrent requests and a
one-second flush interval. Java's `type` is a Dafny keyword, so the field is named `docType`.

Some points where the code does less, or something else, than its method names suggest. The model follows the code:

- `flush()` only checks the latch. The call that would flush the bulk processor is
  commented out, so `flush` never seals or sends anything.
- Index and create requests do not need a resolved id. A null id is passed on to the
  bulk processor as it is.
- A delete is skipped only when the resolved id is null. If the default id was set to
  the empty string through the `id` setter, a delete with no id of its own still emits
  a request, with the empty id.
- The default index, type and id stay sticky across calls, for index and delete alike.
  The model states this as "the last value specified wins" (`LastSpecifiedWins`).
- A delete may update the default index and type even when it is then skipped for lack
  of an id.

## Model

| member | source | states |
|---|---|---|
| `Requests.BuildIndexRequest` | src/main/java/org/elasticsearch/river/jdbc/strategy/simple/SimpleRiverMouth.java:232-254 | builds an index request; its version type is external exactly when it carries a version |
| `Requests.BuildDeleteRequest` | src/main/java/org/elasticsearch/river/jdbc/strategy/simple/SimpleRiverMouth.java:276-286 | builds a delete request; its version type is external exactly when it carries a version |
| `Requests.IndexRequestKeepsMeta` | src/main/java/org/elasticsearch/river/jdbc/strategy/simple/SimpleRiverMouth.java:239-254 | an index request carries exactly the object's percolate, routing, parent and ttl metadata; it carries the version exactly when the object has one and versioning is on |
| `Requests.DeleteRequestKeepsMeta` | src/main/java/org/elasticsearch/river/jdbc/strategy/simple/SimpleRiverMouth.java:276-286 | a delete request carries exactly the object's routing and parent; it carries the version only under versioning, and never a percolate query or a ttl |
| `MouthState.LatchedIngestionIsNoOp` | src/main/java/org/elasticsearch/river/jdbc/strategy/simple/SimpleRiverMouth.java:219-296 | while latched, create, index, delete and flush leave the whole state unchanged: pending requests and defaults included |
| `MouthState.IndexAppendsOneRequest` | src/main/java/org/elasticsearch/river/jdbc/strategy/simple/SimpleRiverMouth.java:210-256 | unlatched, an index call does three things and nothing else. A non-empty object index, type or id replaces the default; a null or empty one keeps it. Exactly one index request is appended, addressed with the new defaults and carrying the object's source and metadata. Its create flag is true exactly when the call came through create, and its version type is external exactly when it carries a version |
| `MouthState.DeleteWithoutIdAddsNothing` | src/main/java/org/elasticsearch/river/jdbc/strategy/simple/SimpleRiverMouth.java:264-275 | unlatched, a delete whose id resolves to null appends nothing, but still applies the object's index and type as defaults |
| `MouthState.DeleteAppendsOneRequest` | src/main/java/org/elasticsearch/river/jdbc/strategy/simple/SimpleRiverMouth.java:260-288 | unlatched, a delete whose id resolves appends exactly one delete request, addressed with the new defaults and carrying routing, parent and (with versioning) the version, with an external version type exactly then; nothing else changes |
| `MouthState.PendingGrowsIffAdds` | src/main/java/org/elasticsearch/river/jdbc/strategy/simple/SimpleRiverMouth.java:219-288 | a call grows the pending requests by one exactly when it is unlatched and is an index call or a delete with a resolved id; otherwise it grows them by nothing, and old requests stay a prefix |
| `MouthState.FlushChangesNothing` | src/main/java/org/elasticsearch/river/jdbc/strategy/simple/SimpleRiverMouth.java:291-296 | flush leaves the state unchanged, latched or not |
| `MouthState.ClientConfiguresBulk` | src/main/java/org/elasticsearch/river/jdbc/strategy/simple/SimpleRiverMouth.java:108-126 | client builds the processor with bulk actions one below the bulk size, the configured concurrency and a 1 s interval; it latches exactly when the health check timed out, never clears the latch, and changes nothing else |
| `MouthState.ListenerKeepsCount` | src/main/java/org/elasticsearch/river/jdbc/strategy/simple/SimpleRiverMouth.java:75-93 | beforeBulk adds one outstanding request; both afterBulk variants remove one; only the failure variant sets the latch |
| `MouthState.StepLatch` | src/main/java/org/elasticsearch/river/jdbc/strategy/simple/SimpleRiverMouth.java:89-124 | after any call the latch is set exactly when it was set before, or the call was a bulk failure or a timed-out health check |
| `MouthState.LatchOnlyFromFailures` | src/main/java/org/elasticsearch/river/jdbc/strategy/simple/SimpleRiverMouth.java:89-124 | after any run of calls the latch is set if and only if it was set before or some call in the run was a bulk failure or a timed-out health check; no call resets it |
| `MouthState.LatchedRunAddsNothing` | src/main/java/org/elasticsearch/river/jdbc/strategy/simple/SimpleRiverMouth.java:219-296 | from a latched state no run of calls adds a request; a run of only ingestion calls leaves the whole state unchanged |
| `MouthState.NoRequestsAfterFailure` | src/main/java/org/elasticsearch/river/jdbc/strategy/simple/SimpleRiverMouth.java:89-93 | whatever follows a whole-request failure adds no request |
| `MouthState.PendingOnlyGrows` | src/main/java/org/elasticsearch/river/jdbc/strategy/simple/SimpleRiverMouth.java:255-287 | over any run, the earlier pending requests stay a prefix, and at most one request is added per call |
| `MouthState.OutstandingBalance` | src/main/java/org/elasticsearch/river/jdbc/strategy/simple/SimpleRiverMouth.java:75-93 | over any run the outstanding counter moves by the number of beforeBulk callbacks minus the number of afterBulk callbacks |
| `MouthState.OutstandingNeverNegative` | src/main/java/org/elasticsearch/river/jdbc/strategy/simple/SimpleRiverMouth.java:68-93 | if no prefix of a run finishes more bulks than it started, the counter is never negative after any prefix |
| `MouthState.StepResolvesDefaults` | src/main/java/org/elasticsearch/river/jdbc/strategy/simple/SimpleRiverMouth.java:223-231 | unlatched, any call that is not a default setter and does not latch keeps the latch clear. Each default becomes the value the call's object gives if that has length; otherwise, and for calls without an object, the old default stays |
| `MouthState.LastSpecifiedWins` | src/main/java/org/elasticsearch/river/jdbc/strategy/simple/SimpleRiverMouth.java:223-231 | after any unlatched run without default setters or latching calls, each of index, type and id is the last non-empty value an object gave, or the earlier default if none gave one. Such a run is ingestion calls interleaved with listener callbacks, healthy client calls and the other setters |
| `RiverMouth.SimpleRiverMouth.constructor` | src/main/java/org/elasticsearch/river/jdbc/strategy/simple/SimpleRiverMouth.java:56-70 | a new mouth has null defaults, bulk size 100, concurrency 30, versioning and acknowledge off, no outstanding requests, no latch, no processor and nothing pending |
| `RiverMouth.SimpleRiverMouth.BeforeBulk` | src/main/java/org/elasticsearch/river/jdbc/strategy/simple/SimpleRiverMouth.java:75-79 | increments the outstanding counter and nothing else |
| `RiverMouth.SimpleRiverMouth.AfterBulk` | src/main/java/org/elasticsearch/river/jdbc/strategy/simple/SimpleRiverMouth.java:82-86 | decrements the outstanding counter; the latch is untouched |
| `RiverMouth.SimpleRiverMouth.AfterBulkFailure` | src/main/java/org/elasticsearch/river/jdbc/strategy/simple/SimpleRiverMouth.java:89-93 | decrements the outstanding counter and sets the latch |
| `RiverMouth.SimpleRiverMouth.Client` | src/main/java/org/elasticsearch/river/jdbc/strategy/simple/SimpleRiverMouth.java:108-126 | records the processor settings (bulk size minus one, concurrency, 1 s) and sets the latch when the health check timed out |
| `RiverMouth.SimpleRiverMouth.SetIndex` | src/main/java/org/elasticsearch/river/jdbc/strategy/simple/SimpleRiverMouth.java:134-137 | overwrites the default index, null or empty included, and nothing else |
| `RiverMouth.SimpleRiverMouth.GetIndex` | src/main/java/org/elasticsearch/river/jdbc/strategy/simple/SimpleRiverMouth.java:140-142 | returns the current default index |
| `RiverMouth.SimpleRiverMouth.SetType` | src/main/java/org/elasticsearch/river/jdbc/strategy/simple/SimpleRiverMouth.java:145-148 | overwrites the default type and nothing else |
| `RiverMouth.SimpleRiverMouth.GetType` | src/main/java/org/elasticsearch/river/jdbc/strategy/simple/SimpleRiverMouth.java:151-153 | returns the current default type |
| `RiverMouth.SimpleRiverMouth.SetId` | src/main/java/org/elasticsearch/river/jdbc/strategy/simple/SimpleRiverMouth.java:156-159 | overwrites the default id and nothing else |
| `RiverMouth.SimpleRiverMouth.GetId` | src/main/java/org/elasticsearch/river/jdbc/strategy/simple/SimpleRiverMouth.java:161-163 | returns the current default id |
| `RiverMouth.SimpleRiverMouth.SetMaxBulkActions` | src/main/java/org/elasticsearch/river/jdbc/strategy/simple/SimpleRiverMouth.java:166-169 | overwrites the bulk size setting; an already built processor keeps its settings |
| `RiverMouth.SimpleRiverMouth.GetMaxBulkActions` | src/main/java/org/elasticsearch/river/jdbc/strategy/simple/SimpleRiverMouth.java:172-174 | returns the bulk size setting |
| `RiverMouth.SimpleRiverMouth.SetMaxConcurrentBulkRequests` | src/main/java/org/elasticsearch/river/jdbc/strategy/simple/SimpleRiverMouth.java:177-180 | overwrites the concurrency setting; an already built processor keeps its settings |
| `RiverMouth.SimpleRiverMouth.GetMaxConcurrentBulkRequests` | src/main/java/org/elasticsearch/river/jdbc/strategy/simple/SimpleRiverMouth.java:183-185 | returns the concurrency setting |
| `RiverMouth.SimpleRiverMouth.SetVersioning` | src/main/java/org/elasticsearch/river/jdbc/strategy/simple/SimpleRiverMouth.java:188-191 | overwrites the versioning flag and nothing else |
| `RiverMouth.SimpleRiverMouth.GetVersioning` | src/main/java/org/elasticsearch/river/jdbc/strategy/simple/SimpleRiverMouth.java:194-196 | returns the versioning flag |
| `RiverMouth.SimpleRiverMouth.SetAcknowledge` | src/main/java/org/elasticsearch/river/jdbc/strategy/simple/SimpleRiverMouth.java:199-202 | overwrites the acknowledge flag, which nothing else reads |
| `RiverMouth.SimpleRiverMouth.GetAcknowledge` | src/main/java/org/elasticsearch/river/jdbc/strategy/simple/SimpleRiverMouth.java:205-207 | returns the acknowledge flag |
| `RiverMouth.SimpleRiverMouth.IndexAs` | src/main/java/org/elasticsearch/river/jdbc/strategy/simple/SimpleRiverMouth.java:219-256 | has exactly the effect of `Step` on an index call: a no-op when latched, otherwise the defaults are resolved and one index request is added. It needs a processor only when it adds |
| `RiverMouth.SimpleRiverMouth.Create` | src/main/java/org/elasticsearch/river/jdbc/strategy/simple/SimpleRiverMouth.java:210-212 | has exactly the effect of `Step` on create: an index call whose request has the create flag set |
| `RiverMouth.SimpleRiverMouth.Index` | src/main/java/org/elasticsearch/river/jdbc/strategy/simple/SimpleRiverMouth.java:215-217 | has exactly the effect of `Step` on index: an index call whose request has the create flag clear |
| `RiverMouth.SimpleRiverMouth.Delete` | src/main/java/org/elasticsearch/river/jdbc/strategy/simple/SimpleRiverMouth.java:260-288 | has exactly the effect of `Step` on delete: a no-op when latched, otherwise the defaults are resolved, and one delete request is added unless the id is null |
| `RiverMouth.SimpleRiverMouth.Flush` | src/main/java/org/elasticsearch/river/jdbc/strategy/simple/SimpleRiverMouth.java:291-296 | changes nothing |

## Left out

- `strategy()` returns the constant name `"simple"` of the strategy and is not modelled.
- `close()` calls `bulk.close()` on Elasticsearch's bulk processor, a library object
  that is not part of this model, so whatever that call does is not modelled.
- The bulk processor's batching is not modelled. That covers sealing a batch at the bulk
  action count, the one-second flush timer and the bound on concurrent requests. The
  processor is Elasticsearch's `BulkProcessor`, which is not part of this model; only the
  settings it is built with are recorded.
- The wait for cluster health in `client(...)` is network I/O. Its outcome enters as the
  parameter `healthTimedOut`. The `Client` object itself, its getter and
  `riverContext(...)` only hold references to external objects and are not modelled.
- `createIndexIfNotExists` consists of synchronous admin calls to the cluster (I/O) and
  is not modelled.
- Logging is not modelled. The listener callbacks' execution id, request, response and
  failure arguments are used only for logging, so the callbacks take no arguments.
- The ttl and version metadata are carried as the object's text. Their parsing with
  `Long.parseLong`, and the exception it throws on malformed text, are not modelled.
- `object.build()` is taken as the object's already serialised source. Its
  `IOException` is not modelled.
- The outstanding counter and the latch are static in the source, so all mouths share
  them. Here they are fields of one mouth. Races between concurrent callbacks are not modelled.
- Java's 32-bit `int` wrap-around is not modelled for `maxBulkActions - 1` or for the
  outstanding counter. Both would need more than two billion steps or a setting of
  `Integer.MIN_VALUE`.
- RiverMouth.SimpleRiverMouth.IndexAs, Create, Index and Delete require a processor
  whenever they would add a request. The source fails with a null dereference there.
  The model states that as a precondition instead of modelling the exception.
