# rethink-dragoon cache core, modelled in Dafny

This project models the caching and change-notification bookkeeping of
rethink-dragoon, a caching layer in front of a RethinkDB document store.
The parts modelled are:

- `Location`: the (database, table, key) address, its builder, its structural
  equality and its lazily cached hash code.
- `Document`: entities whose equality and hash depend on their location alone.
- `UpdatableInstance`: the one-slot cell that holds a cached snapshot.
- `Store`: resolves partial locations against a default and caches one cell
  per resolved location. It records one refresh callback for each new
  location and writes through to the database. After a write it publishes a
  change event when the driver's `Response` reports inserted documents. It
  tears its registry down on close.
- `RethinkSubscriber`: routes a change event to the callbacks registered for
  its location.
- `Response` and `ResponseHelper.changedData`: the write outcome and the test
  of whether it changed data.
- `DocumentHelper.getUniqueId`, the default location that `StoreFactory`
  builds, and `ReconnectingConnectionFactory`.

One file per source file, one module per file: `common.dfy` (Option, Result,
Java `int`/`long`, UUID), `location.dfy`, `document.dfy` (with the JSON
record shape of the codec), `document_helper.dfy`, `updatable_instance.dfy`,
`response.dfy`, `response_helper.dfy`, `subscriber.dfy`, `store.dfy`,
`store_factory.dfy`, `connection_factory.dfy`.

How the outside world enters the model:

- The database's point read is a function parameter `db: Location -> Option<Record>`.
  `None` is "no such document".
- Each write's `Response` is an argument supplied by the caller.
- Events sent to the message bus are appended to `Store.published`.
- The Store's calls of `subscriber.removeListener` are appended to
  `Store.removals`.
- Each database read is appended to `Store.databaseReads`, and each write
  request to `Store.writes`.
- A callback (a Java lambda) is known by an identity number. The Store gives
  each new callback a fresh number.
- The UUID parser is a function parameter of `GetUniqueId`.

Behaviours of the code that the model keeps, though a reader might expect otherwise:

- The Store never registers its refresh callbacks with the subscriber. It only
  records them, yet `close` passes them to `removeListener`.
- `close(Location)` keeps the cached cell (`CloseKeepsCell`). It also does not
  resolve the location it is given (`CloseLocation`, `CloseDoesNotResolve`).
- Only a positive `inserted` count publishes an event, not `changedData`
  (`ChangeWithoutInsertIsNotPublished`).
- The first `get` caches the decoded value without stamping its location.
- A missing document is cached as a null snapshot. A refresh of a missing
  document throws a NullPointerException (`RunListener`).
- Table names are not sanitised.
- The cell has no listener fan-out.
- `json` discards the record it builds for a null key, so a null key is
  written as the id `"null"`.
- In a sequential run the duplicate-listener alert can never fire, because a
  callback exists only for a cached location (`Store.Valid`, `Store.Get`).

## Model

| member | source | states |
|---|---|---|
| Common.WrapInt32 | src/main/java/com/ulfric/dragoon/rethink/Location.java:90 | Java int arithmetic: the result is the int32 congruent to the exact value modulo 2^32, and equal to it when it fits |
| Locations.StringHash | src/main/java/com/ulfric/dragoon/rethink/Location.java:90 | String.hashCode of a field: with a wrap after every step it is congruent modulo 2^32 to the overflow-free polynomial of its characters |
| Locations.FieldHash | src/main/java/com/ulfric/dragoon/rethink/Location.java:90 | Objects.hashCode of a field: 0 for null, otherwise congruent to the polynomial of the string |
| Locations.Hash | src/main/java/com/ulfric/dragoon/rethink/Location.java:90 | Objects.hash(database, table, key) is congruent to 31^3 + 31^2·h(database) + 31·h(table) + h(key), with h(null) = 0 |
| Locations.LocationObject.constructor | src/main/java/com/ulfric/dragoon/rethink/Location.java:45-49 | the object holds exactly the given triple; no hash is cached yet |
| Locations.LocationObject.GetDatabase | src/main/java/com/ulfric/dragoon/rethink/Location.java:51-53 | returns the database the object was built with; the field is const, so nothing changes it |
| Locations.LocationObject.GetTable | src/main/java/com/ulfric/dragoon/rethink/Location.java:55-57 | returns the table the object was built with; the field is const |
| Locations.LocationObject.GetKey | src/main/java/com/ulfric/dragoon/rethink/Location.java:59-61 | returns the key the object was built with; the field is const |
| Locations.LocationObject.Equals | src/main/java/com/ulfric/dragoon/rethink/Location.java:63-82 | true iff the other object is non-null, of the same runtime class and has pairwise equal (null-safe) fields; always true for itself |
| Locations.LocationObject.HashCode | src/main/java/com/ulfric/dragoon/rethink/Location.java:84-93 | returns the hash of the triple and leaves it cached; once cached the value never changes; the cache stays consistent (Valid) |
| Locations.EqualObjectsHashAlike | src/main/java/com/ulfric/dragoon/rethink/Location.java:77-93 | equal Locations have equal hash codes, and equality is symmetric |
| Locations.HashCodeTwice | src/main/java/com/ulfric/dragoon/rethink/Location.java:84-93 | two successive hashCode calls return the same value, the hash of the triple |
| Locations.Builder.constructor | src/main/java/com/ulfric/dragoon/rethink/Location.java:11-17 | a new builder has every field null |
| Locations.Builder.Database | src/main/java/com/ulfric/dragoon/rethink/Location.java:23-26 | sets the database only and returns the builder itself |
| Locations.Builder.Table | src/main/java/com/ulfric/dragoon/rethink/Location.java:28-31 | sets the table only and returns the builder itself |
| Locations.Builder.Key | src/main/java/com/ulfric/dragoon/rethink/Location.java:33-36 | sets the key only and returns the builder itself |
| Locations.Builder.Build | src/main/java/com/ulfric/dragoon/rethink/Location.java:19-21 | a new Location of class Location holding the builder's current fields, hash not yet computed |
| Locations.BuildLastValueWins | src/main/java/com/ulfric/dragoon/rethink/Location.java:11-61 | the getters of a built Location return the last value given to each setter, and null for an unset field |
| Responses.Response.constructor | src/main/java/com/ulfric/dragoon/rethink/response/Response.java:10-22 | a new Response has every counter and generatedKeys null |
| Responses.Response.Get | src/main/java/com/ulfric/dragoon/rethink/response/Response.java:24-90 | each of the nine getters returns its own counter's field (getUnchanged the `unchanged` field) |
| Responses.Response.Set | src/main/java/com/ulfric/dragoon/rethink/response/Response.java:24-94 | a counter's setter makes its getter return the new value and leaves every other counter and generatedKeys unchanged |
| Responses.Response.SetGeneratedKeys | src/main/java/com/ulfric/dragoon/rethink/response/Response.java:96-102 | sets generatedKeys and leaves every counter unchanged |
| ResponseHelper.IsPositive | src/main/java/com/ulfric/dragoon/rethink/response/ResponseHelper.java:13-15 | false for null (distinct from zero), zero and negative values; true exactly for values above zero |
| ResponseHelper.ChangedData | src/main/java/com/ulfric/dragoon/rethink/response/ResponseHelper.java:5-11 | true iff one of the five change counters (inserted, replaced, deleted, dbs_created, tables_created) is present and positive |
| ResponseHelper.OnlyChangeCountersMatter | src/main/java/com/ulfric/dragoon/rethink/response/ResponseHelper.java:5-11 | unchanged, errors, skipped, synced and generatedKeys never affect changedData |
| ResponseHelper.NoPositiveChangeCounterIsUnchanged | src/main/java/com/ulfric/dragoon/rethink/response/ResponseHelper.java:5-15 | with every change counter null or non-positive the response is not a change |
| ResponseHelper.InsertedIsAChange | src/main/java/com/ulfric/dragoon/rethink/response/ResponseHelper.java:6 | a positive inserted counter alone makes a change |
| ResponseHelper.FreshResponseIsUnchanged | src/main/java/com/ulfric/dragoon/rethink/response/ResponseHelper.java:5-15 | a Response with all fields null is not a change |
| Instances.UpdatableInstance.constructor | src/main/java/com/ulfric/dragoon/rethink/UpdatableInstance.java:3-5 | a new cell holds null |
| Instances.UpdatableInstance.Get | src/main/java/com/ulfric/dragoon/rethink/UpdatableInstance.java:7-10 | returns the current snapshot and changes nothing |
| Instances.UpdatableInstance.Update | src/main/java/com/ulfric/dragoon/rethink/UpdatableInstance.java:12-14 | the snapshot becomes the new value; update(null) empties the cell |
| Instances.LastWriteWins | src/main/java/com/ulfric/dragoon/rethink/UpdatableInstance.java:5-14 | a fresh cell reads null; after update(a) then update(b) it reads b |
| Documents.Document.constructor | src/main/java/com/ulfric/dragoon/rethink/Document.java:7 | a new document has a null location |
| Documents.Document.SetLocation | src/main/java/com/ulfric/dragoon/rethink/Document.java:9-15 | getLocation afterwards returns the value given; the serialised fields are unchanged |
| Documents.Document.Equals | src/main/java/com/ulfric/dragoon/rethink/Document.java:17-32 | true iff the other document is non-null, of the same runtime class and at an equal location (null equals null); content is ignored |
| Documents.Document.HashCode | src/main/java/com/ulfric/dragoon/rethink/Document.java:34-37 | the hash of the location, 0 for a null location |
| Documents.EqualDocumentsHashAlike | src/main/java/com/ulfric/dragoon/rethink/Document.java:31-36 | equal documents have equal hash codes, and equality is symmetric |
| Documents.EqualityIgnoresContent | src/main/java/com/ulfric/dragoon/rethink/Document.java:31 | documents of one class at one location are equal whatever their fields |
| Documents.Decode | src/main/java/com/ulfric/dragoon/rethink/Store.java:100-103 | the codec: a missing record decodes to null, a record to a new entity with its fields and a null (transient) location |
| DocumentHelper.GetUniqueId | src/main/java/com/ulfric/dragoon/rethink/DocumentHelper.java:11-27 | a result is returned only for a document with a location whose key is non-empty, and it is then exactly the parser's answer for that key |
| DocumentHelper.GuardsDoNotParse | src/main/java/com/ulfric/dragoon/rethink/DocumentHelper.java:12-24 | a null document, null location, or null or empty key gives null whatever the parser would say |
| Subscribers.FirstIndex | src/main/java/com/ulfric/dragoon/rethink/jms/RethinkSubscriber.java:35 | the position List.remove finds: an occurrence of the callback with none before it |
| Subscribers.RemoveFirst | src/main/java/com/ulfric/dragoon/rethink/jms/RethinkSubscriber.java:35 | an absent callback leaves the list as it is; otherwise exactly its first occurrence is cut out |
| Subscribers.RemoveFirstTakesOneCopy | src/main/java/com/ulfric/dragoon/rethink/jms/RethinkSubscriber.java:35 | removing a present callback shortens the list by one and takes one copy out of its multiset |
| Subscribers.RemoveFirstAfterAppend | src/main/java/com/ulfric/dragoon/rethink/jms/RethinkSubscriber.java:24-36 | add then remove restores a list that lacked the callback; when it was already there the earlier copy is removed and the appended one stays |
| Subscribers.Added | src/main/java/com/ulfric/dragoon/rethink/jms/RethinkSubscriber.java:24-26 | after addListener the registry has the location as a key besides the old ones, and every other location's list is unchanged |
| Subscribers.Removed | src/main/java/com/ulfric/dragoon/rethink/jms/RethinkSubscriber.java:28-36 | after removeListener the registry has the same keys, and every other location's list is unchanged |
| Subscribers.Cleared | src/main/java/com/ulfric/dragoon/rethink/jms/RethinkSubscriber.java:38-40 | after clearListeners the location's key is gone and every remaining list is unchanged |
| Subscribers.Dispatched | src/main/java/com/ulfric/dragoon/rethink/jms/RethinkSubscriber.java:42-59 | an event is handed to exactly its location's list, and to nothing for a null location or a location without a list |
| Subscribers.RethinkSubscriber.constructor | src/main/java/com/ulfric/dragoon/rethink/jms/RethinkSubscriber.java:16-22 | a new subscriber has no listeners |
| Subscribers.RethinkSubscriber.AddListener | src/main/java/com/ulfric/dragoon/rethink/jms/RethinkSubscriber.java:24-26 | the registry after the call is the old one with the callback appended to that location's list, created if absent |
| Subscribers.RethinkSubscriber.RemoveListener | src/main/java/com/ulfric/dragoon/rethink/jms/RethinkSubscriber.java:28-36 | no change for a location without a list; otherwise its first occurrence is removed and the list stays |
| Subscribers.RethinkSubscriber.ClearListeners | src/main/java/com/ulfric/dragoon/rethink/jms/RethinkSubscriber.java:38-40 | the location's entry is removed |
| Subscribers.RethinkSubscriber.Accept | src/main/java/com/ulfric/dragoon/rethink/jms/RethinkSubscriber.java:42-59 | invokes exactly the event location's list in order, nothing for a null location or a location without a list; the registry is not modified |
| Subscribers.AddAppends | src/main/java/com/ulfric/dragoon/rethink/jms/RethinkSubscriber.java:24-26 | the callback goes to the end of its location's list and other locations are unchanged |
| Subscribers.AddedTwiceRunsTwice | src/main/java/com/ulfric/dragoon/rethink/jms/RethinkSubscriber.java:25-57 | a callback added twice is invoked twice more per event |
| Subscribers.RemoveKeepsEntry | src/main/java/com/ulfric/dragoon/rethink/jms/RethinkSubscriber.java:28-36 | removing from a location without a list is a no-op; otherwise the possibly empty list stays in the map |
| Subscribers.ClearedDispatchesNothing | src/main/java/com/ulfric/dragoon/rethink/jms/RethinkSubscriber.java:38-55 | after clearListeners an event for that location invokes nothing |
| Subscribers.DispatchIsPerLocation | src/main/java/com/ulfric/dragoon/rethink/jms/RethinkSubscriber.java:51-57 | dispatch depends only on the event location's own list, so other locations' callbacks never run |
| Subscribers.NullLocationDropped | src/main/java/com/ulfric/dragoon/rethink/jms/RethinkSubscriber.java:45-49 | an event with a null location invokes nothing |
| StoreFactory.Replace | src/main/java/com/ulfric/dragoon/rethink/StoreFactory.java:36-37 | String.replace: with an empty target the result gains one copy of the replacement per character and one at the end; a replacement as long as the target keeps the length |
| StoreFactory.ReplaceWithoutOccurrence | src/main/java/com/ulfric/dragoon/rethink/StoreFactory.java:36-37 | String.replace leaves a string that does not contain the target unchanged |
| StoreFactory.ReplaceWhole | src/main/java/com/ulfric/dragoon/rethink/StoreFactory.java:36-37 | replacing in the target itself yields exactly the replacement |
| StoreFactory.DefaultLocation | src/main/java/com/ulfric/dragoon/rethink/StoreFactory.java:35-38 | the default Location has its database and table set and its key unset; their values, the configured names for the placeholder defaults and the annotation values verbatim otherwise, are stated by `DefaultAnnotationGivesConfiguredNames` and `ExplicitNamesAreVerbatim` |
| StoreFactory.DefaultAnnotationGivesConfiguredNames | src/main/java/com/ulfric/dragoon/rethink/StoreFactory.java:17-38 | with the annotation defaults (`"<default>"`) the location is exactly the configured database and table with a null key |
| StoreFactory.ExplicitNamesAreVerbatim | src/main/java/com/ulfric/dragoon/rethink/StoreFactory.java:36-37 | annotation values without the placeholder are used verbatim |
| ConnectionFactories.ReconnectingConnectionFactory.constructor | src/main/java/com/ulfric/dragoon/rethink/ReconnectingConnectionFactory.java:12-16 | the factory holds the given connection, which is const and never replaced |
| ConnectionFactories.ReconnectingConnectionFactory.Get | src/main/java/com/ulfric/dragoon/rethink/ReconnectingConnectionFactory.java:18-29 | returns the held connection, open; reconnect is called once if it was closed and never if it was open |
| ConnectionFactories.NewReconnectingConnectionFactory | src/main/java/com/ulfric/dragoon/rethink/ReconnectingConnectionFactory.java:12-16 | a null connection fails with a NullPointerException naming "connection"; otherwise a new factory holds it |
| Stores.OrDefault | src/main/java/com/ulfric/dragoon/rethink/Store.java:230-282 | the database, table and key helpers: the argument's field when non-null, else the default's; the result is null only when both are |
| Stores.Resolve | src/main/java/com/ulfric/dragoon/rethink/Store.java:218-282 | null resolves to the default Location; otherwise each field comes from the argument when non-null, else from the default |
| Stores.ResolveIdempotent | src/main/java/com/ulfric/dragoon/rethink/Store.java:218-228 | resolving a resolved location changes nothing |
| Stores.ResolveFixedPoints | src/main/java/com/ulfric/dragoon/rethink/Store.java:218-282 | a fully specified location resolves to itself; an all-null one resolves to the default |
| Stores.StringValueOf | src/main/java/com/ulfric/dragoon/rethink/Store.java:202 | String.valueOf gives the key itself, or "null" for a null key |
| Stores.OutgoingRecord | src/main/java/com/ulfric/dragoon/rethink/Store.java:195-204 | the outgoing record has the entity's fields plus "id" = String.valueOf(key); other fields keep their values |
| Stores.IdIsOverridden | src/main/java/com/ulfric/dragoon/rethink/Store.java:201-202 | an entity's own "id" is overwritten by the key and no field is added |
| Stores.NullKeyIsWrittenAsNull | src/main/java/com/ulfric/dragoon/rethink/Store.java:196-202 | the null-key branch's result is discarded, so a null key is still written as the id "null" |
| Stores.PublishedBy | src/main/java/com/ulfric/dragoon/rethink/Store.java:188-190 | a write publishes at most one event; it publishes one iff inserted is positive, and the event is for the resolved location |
| Stores.ChangeWithoutInsertIsNotPublished | src/main/java/com/ulfric/dragoon/rethink/Store.java:188 | a response with only replaced or deleted positive changes data yet publishes nothing |
| Stores.PublishedWritesChangedData | src/main/java/com/ulfric/dragoon/rethink/Store.java:188-190 | every write that publishes is one whose response changedData accepts |
| Stores.Store.constructor | src/main/java/com/ulfric/dragoon/rethink/Store.java:56-62 | a Store with the given type and default location, empty registry and cache |
| Stores.NewStore | src/main/java/com/ulfric/dragoon/rethink/Store.java:56-62 | a null type fails with NullPointerException("type"), then a null default location with NullPointerException("defaultLocation"); otherwise a new empty Store that satisfies the invariant |
| Stores.Store.ReadDatabase | src/main/java/com/ulfric/dragoon/rethink/Store.java:123-130 | one point read of the location, logged, changing nothing else |
| Stores.Store.CreateListener | src/main/java/com/ulfric/dragoon/rethink/Store.java:110-121 | records a new callback for the location, replacing any earlier one and raising an alert exactly when there was one |
| Stores.Store.GetFromDatabase | src/main/java/com/ulfric/dragoon/rethink/Store.java:100-108 | a new cell holding the decoded read (null if absent, location not stamped), one read, one new callback |
| Stores.Store.Get | src/main/java/com/ulfric/dragoon/rethink/Store.java:92-108 | a cached resolved location returns the same cell with no read; an uncached one reads once, caches a new cell and gets exactly one callback; no alert; the registry invariant holds |
| Stores.Store.RunListener | src/main/java/com/ulfric/dragoon/rethink/Store.java:111-116 | the refresh callback re-reads its location and overwrites its cell with the decoded value stamped with that location; a missing document throws and leaves the cell |
| Stores.Store.Run | src/main/java/com/ulfric/dragoon/rethink/Store.java:132-193 | writes the id-stamped record at the resolved location, returns the response unchanged, publishes exactly PublishedBy |
| Stores.Store.CloseLocation | src/main/java/com/ulfric/dragoon/rethink/Store.java:72-83 | null or unregistered: no-op; otherwise the callback is removed and passed to removeListener once; the cache is untouched |
| Stores.Store.CloseValue | src/main/java/com/ulfric/dragoon/rethink/Store.java:64-70 | null is a no-op; otherwise closes the value's own location as close(Location) does |
| Stores.Store.Close | src/main/java/com/ulfric/dragoon/rethink/Store.java:85-90 | removeListener is called exactly once per (location, callback) entry, then registry and cache are empty |
| Stores.GetTwiceReadsOnce | src/main/java/com/ulfric/dragoon/rethink/Store.java:93-108 | with default app/users, two gets of key "42" resolve to app/users/42, share one cell and read once |
| Stores.CloseKeepsCell | src/main/java/com/ulfric/dragoon/rethink/Store.java:72-98 | after close(Location) a get returns the same cell without a new read |
| Stores.CloseDoesNotResolve | src/main/java/com/ulfric/dragoon/rethink/Store.java:72-98 | closing the partial location a get was called with leaves the resolved location's callback and cell in place |

## Left out

- Subscribers.RethinkSubscriber.Accept: it assumes every callback returns
  normally and leaves the registry alone. `ArrayList.forEach` stops at a
  callback that throws, and that includes the Store's refresh callback
  (`RunListener`) on a missing document: the later callbacks do not run and
  the exception reaches the message listener. It also stops with a
  `ConcurrentModificationException` when a callback changes its own
  location's list during dispatch. The model captures neither.
- Subscribers.RethinkSubscriber: a null location, which the `HashMap` accepts
  in `addListener`, `removeListener` and `clearListeners`, is excluded by the
  parameter types.
- Locations.Location: the key datatype of the Store's maps and the
  subscriber's registry has no runtime class. Instances of a subclass of
  `Location` are not modelled; the source makes every Location with
  `Builder.build()`.
- Stores.Store.constructor: a Dafny constructor cannot fail, so its parameter
  types exclude null; the `requireNonNull` checks are modelled by
  `Stores.NewStore`.
- Database query construction and `.run(connection)`: these are foreign driver
  calls. Reads are the `db` parameter, and write results are arguments.
- Gson encoding and decoding: these belong to a foreign codec. A record is a
  map from field names to JSON values, and an entity's serialised fields are
  exactly its `fields`. Only the "id" injection is modelled.
- `EventPublisher.send` and the JMS consumer transport: message-bus I/O.
  Publication appends to `published`, and the subscriber receives events
  through `Accept`.
- The event timestamp: it is a clock read.
- `@Asynchronous`/`CompletableFuture`, `ConcurrentHashMap` and the
  `synchronized` section of the connection factory: concurrency. Everything
  runs sequentially with plain return values.
- `Store.sync`: it passes a null value to `run`, which dereferences it.
  `Run` takes a non-null `Document`, so no working sync is modelled.
- `Store.insert`, `update` and `replace`: these wrappers differ only in the
  driver call. They are the `kind` argument of `Run`.
- `StoreFactory.getStoreType` and `Instances.instance`: runtime reflection. The
  factory is modelled as the default location it builds.
- `UniqueIdHelper.parseUniqueId`: a foreign UUID parser, passed in as a
  function.
- The logger output of `alert`: only the alerted location is recorded.
- `Connection.reconnect` failures: they propagate from a foreign driver, and
  `Reconnect` always succeeds.
- Locations.StringHash: it treats each Dafny character as one UTF-16 code
  unit, so it does not model characters outside the Basic Multilingual
  Plane.
- `Location.Builder.key` takes and `Location.getKey()` returns an Object; the
  model restricts the key to `Option<string>` by choice. Keys of other types
  are not modelled, since their `String.valueOf`, `equals` and `hashCode`
  differ from a string's; nor is the assignment of that Object to a String at
  `DocumentHelper.java:21`, which has no cast.
- `RethinkContainer` (wiring, secrets, shutdown hook), `DatabaseExtension`
  (reflection), and the annotation and configuration interfaces
  (`Database`, `RethinkSettings`, `RethinkTopic`, `RethinkConfig`): these have
  no behaviour beyond the two defaults of `Database` that feed `StoreFactory`.
- `Instance` has no implementation of `addListener` in this source, so the
  cell has no listener fan-out.
