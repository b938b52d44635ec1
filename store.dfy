/** The cache orchestrator: resolves partial Locations against a default,
    keeps one cell per resolved Location, registers one refresh callback per
    newly cached Location, writes through to the backing store and publishes
    a change event after an insert. The backing store is the parameter `db`
    (a point read), write results are supplied by the caller, the message
    bus is the `published` log, and the subscriber calls made on close are
    the `removals` log. */
module Stores {
  import opened Common
  import opened Locations
  import opened Documents
  import opened Instances
  import opened Responses
  import opened ResponseHelper
  import opened Subscribers

  /** A refresh callback: its identity, and the location and cell its
      closure captured. */
  datatype Listener = Listener(id: CallbackId, location: Location, cell: UpdatableInstance<Document>)

  /** The three write operations that go through `run`. */
  datatype WriteKind = Insert | Update | Replace

  /** A write sent to the backing store: which operation, the resolved
      location (its database and table select the table) and the record. */
  datatype WriteRequest = WriteRequest(kind: WriteKind, target: Location, record: Record)

  /** A field of a partial Location, or the default's when it is null. */
  function OrDefault(field: Option<string>, default: Option<string>): (r: Option<string>)
    ensures field.Some? ==> r == field
    ensures field.None? ==> r == default
    ensures r.Some? <==> field.Some? || default.Some?
  {
    if field.Some? then field else default
  }

  /** location(Location): null resolves to the default Location; otherwise
      each of database, table and key comes from the argument when it is
      non-null and from the default when it is null. */
  function Resolve(defaults: Location, location: Option<Location>): (r: Location)
    ensures location.None? ==> r == defaults
    ensures location.Some? ==>
              && (location.value.database.Some? ==> r.database == location.value.database)
              && (location.value.database.None? ==> r.database == defaults.database)
              && (location.value.table.Some? ==> r.table == location.value.table)
              && (location.value.table.None? ==> r.table == defaults.table)
              && (location.value.key.Some? ==> r.key == location.value.key)
              && (location.value.key.None? ==> r.key == defaults.key)
  {
    match location
    case None => defaults
    case Some(l) =>
      Location(OrDefault(l.database, defaults.database),
               OrDefault(l.table, defaults.table),
               OrDefault(l.key, defaults.key))
  }

  /** Resolving twice is resolving once. */
  lemma ResolveIdempotent(defaults: Location, location: Option<Location>)
    ensures Resolve(defaults, Some(Resolve(defaults, location))) == Resolve(defaults, location)
  {
  }

  /** A Location with every field set resolves to itself, and an all-null
      one to the default. */
  lemma ResolveFixedPoints(defaults: Location, full: Location)
    requires full.database.Some? && full.table.Some? && full.key.Some?
    ensures Resolve(defaults, Some(full)) == full
    ensures Resolve(defaults, Some(Location(None, None, None))) == defaults
  {
  }

  /** String.valueOf(Object): "null" for null. */
  function StringValueOf(key: Option<string>): (s: string)
    ensures key.Some? ==> s == key.value
    ensures key.None? ==> s == "null"
  {
    match key
    case None => "null"
    case Some(k) => k
  }

  /** json(location, value): the entity's serialised fields with "id" set
      to String.valueOf(key), replacing any id the entity had. The branch for
      a null key computes a record and discards it, so a null key is
      written as the string "null". */
  function OutgoingRecord(target: Location, fields: Record): (r: Record)
    ensures r.Keys == fields.Keys + {"id"}
    ensures r["id"] == JsonString(StringValueOf(target.key))
    ensures forall k :: k in fields && k != "id" ==> r[k] == fields[k]
  {
    fields["id" := JsonString(StringValueOf(target.key))]
  }

  /** The injected id wins over the entity's own. */
  lemma IdIsOverridden(target: Location, fields: Record, key: string)
    requires target.key == Some(key) && "id" in fields
    ensures OutgoingRecord(target, fields)["id"] == JsonString(key)
    ensures |OutgoingRecord(target, fields)| == |fields|
  {
  }

  /** A null key still reaches the store, as the id "null". */
  lemma NullKeyIsWrittenAsNull(target: Location, fields: Record)
    requires target.key.None?
    ensures "id" in OutgoingRecord(target, fields)
    ensures OutgoingRecord(target, fields)["id"] == JsonString("null")
  {
  }

  /** The events run publishes for a write: one for the resolved location
      exactly when the inserted counter is positive. */
  function PublishedBy(target: Location, response: Response): (events: seq<DocumentUpdateEvent>)
    reads response
    ensures |events| <= 1
    ensures |events| == 1 <==> IsPositive(response.inserted)
    ensures forall e :: e in events ==> e.location == Some(target)
  {
    if IsPositive(response.inserted) then [DocumentUpdateEvent(Some(target))] else []
  }

  /** Only inserted counts: a write that replaced or deleted documents, and
      so changed data, publishes nothing. */
  lemma ChangeWithoutInsertIsNotPublished(target: Location, response: Response)
    requires !IsPositive(response.inserted)
    requires IsPositive(response.replaced) || IsPositive(response.deleted)
    ensures ChangedData(response)
    ensures PublishedBy(target, response) == []
  {
  }

  /** Every write that publishes is one changedData calls a change. */
  lemma PublishedWritesChangedData(target: Location, response: Response)
    requires PublishedBy(target, response) != []
    ensures ChangedData(response)
  {
  }

  class Store {
    /** The entity class the codec decodes into. */
    const entityType: string
    const defaultLocation: Location

    /** The refresh callback recorded per location. */
    var listeners: map<Location, Listener>
    /** The cached cell per resolved location. */
    var cache: map<Location, UpdatableInstance<Document>>
    /** The identity the next refresh callback gets. */
    var nextCallback: CallbackId

    /** Events sent to the message bus, in order. */
    var published: seq<DocumentUpdateEvent>
    /** Calls of subscriber.removeListener(location, callback), in order. */
    var removals: seq<(Location, CallbackId)>
    /** Point reads of the backing store, in order. */
    var databaseReads: seq<Location>
    /** Locations reported as having had a duplicate listener. */
    var alerts: seq<Location>
    /** Writes sent to the backing store, in order. */
    var writes: seq<WriteRequest>

    /** Every recorded callback belongs to its own location, refreshes the
        cell cached there, and is a distinct callback. */
    ghost predicate Valid()
      reads this
    {
      && (forall l :: l in listeners ==>
            && listeners[l].location == l
            && l in cache && cache[l] == listeners[l].cell
            && listeners[l].id < nextCallback)
      && (forall l, m :: l in listeners && m in listeners && l != m ==> listeners[l].id != listeners[m].id)
    }

    constructor (entityType: string, defaultLocation: Location)
      ensures Valid()
      ensures this.entityType == entityType && this.defaultLocation == defaultLocation
      ensures listeners == map[] && cache == map[]
      ensures published == [] && removals == [] && databaseReads == [] && alerts == [] && writes == []
    {
      this.entityType := entityType;
      this.defaultLocation := defaultLocation;
      listeners, cache, nextCallback := map[], map[], 0;
      published, removals, databaseReads, alerts, writes := [], [], [], [], [];
    }

    /** readDatabase: one point read of the backing store. */
    method ReadDatabase(location: Location, db: Location -> Option<Record>) returns (record: Option<Record>)
      modifies this
      ensures record == db(location)
      ensures databaseReads == old(databaseReads) + [location]
      ensures listeners == old(listeners) && cache == old(cache) && nextCallback == old(nextCallback)
      ensures published == old(published) && removals == old(removals)
      ensures alerts == old(alerts) && writes == old(writes)
    {
      databaseReads := databaseReads + [location];
      record := db(location);
    }

    /** createListener: record a new refresh callback for the location,
        replacing any earlier one and raising an alert if there was one.
        Nothing is registered with the subscriber. */
    method CreateListener(location: Location, instance: UpdatableInstance<Document>)
      modifies this
      ensures listeners == old(listeners)[location := Listener(old(nextCallback), location, instance)]
      ensures nextCallback == old(nextCallback) + 1
      ensures alerts == old(alerts) + (if location in old(listeners) then [location] else [])
      ensures cache == old(cache) && databaseReads == old(databaseReads)
      ensures published == old(published) && removals == old(removals) && writes == old(writes)
    {
      var duplicate := location in listeners;
      listeners := listeners[location := Listener(nextCallback, location, instance)];
      nextCallback := nextCallback + 1;
      if duplicate {
        alerts := alerts + [location];
      }
    }

    /** getFromDatabase: a new cell holding the decoded point read (null
        when there is no record; the location is not stamped), and its
        refresh callback. */
    method GetFromDatabase(location: Location, db: Location -> Option<Record>)
      returns (instance: UpdatableInstance<Document>)
      modifies this
      ensures fresh(instance)
      ensures db(location).None? ==> instance.value.None?
      ensures db(location).Some? ==>
                && instance.value.Some? && fresh(instance.value.value)
                && instance.value.value.fields == db(location).value
                && instance.value.value.location == None
                && instance.value.value.runtimeClass == entityType
      ensures databaseReads == old(databaseReads) + [location]
      ensures listeners == old(listeners)[location := Listener(old(nextCallback), location, instance)]
      ensures nextCallback == old(nextCallback) + 1
      ensures alerts == old(alerts) + (if location in old(listeners) then [location] else [])
      ensures cache == old(cache)
      ensures published == old(published) && removals == old(removals) && writes == old(writes)
    {
      instance := new UpdatableInstance<Document>();
      var record := ReadDatabase(location, db);
      var value := Decode(record, entityType);
      instance.Update(value);
      CreateListener(location, instance);
    }

    /** get: resolve the location and find or create its cell. A cached
        location is served from the cache with no read; an uncached one is
        read once, cached, and given exactly one refresh callback. No
        duplicate alert is ever raised. */
    method Get(location: Option<Location>, db: Location -> Option<Record>)
      returns (instance: UpdatableInstance<Document>)
      requires Valid()
      modifies this
      ensures Valid()
      ensures var r := Resolve(defaultLocation, location);
              && r in cache && instance == cache[r]
              && (r in old(cache) ==>
                    && instance == old(cache[r])
                    && cache == old(cache) && listeners == old(listeners)
                    && nextCallback == old(nextCallback)
                    && databaseReads == old(databaseReads))
              && (r !in old(cache) ==>
                    && fresh(instance)
                    && cache == old(cache)[r := instance]
                    && listeners == old(listeners)[r := Listener(old(nextCallback), r, instance)]
                    && nextCallback == old(nextCallback) + 1
                    && databaseReads == old(databaseReads) + [r]
                    && (db(r).None? ==> instance.value.None?)
                    && (db(r).Some? ==>
                          && instance.value.Some?
                          && instance.value.value.fields == db(r).value
                          && instance.value.value.location == None))
      ensures alerts == old(alerts)
      ensures published == old(published) && removals == old(removals) && writes == old(writes)
    {
      var resolved := Resolve(defaultLocation, location);
      if resolved in cache {
        instance := cache[resolved];
        return;
      }
      instance := GetFromDatabase(resolved, db);
      cache := cache[resolved := instance];
    }

    /** The body of a refresh callback (the event itself is ignored):
        re-read the location, stamp the decoded value with it, and overwrite
        the cell. A missing record decodes to null and stamping it throws
        a NullPointerException, leaving the cell as it was. */
    method RunListener(listener: Listener, db: Location -> Option<Record>) returns (outcome: Result<Document>)
      requires Valid()
      modifies this, listener.cell
      ensures Valid()
      ensures databaseReads == old(databaseReads) + [listener.location]
      ensures db(listener.location).None? ==>
                && outcome == Err(NullPointer("value"))
                && listener.cell.value == old(listener.cell.value)
      ensures db(listener.location).Some? ==>
                && outcome.Ok? && fresh(outcome.value)
                && listener.cell.value == Some(outcome.value)
                && outcome.value.fields == db(listener.location).value
                && outcome.value.location == Some(listener.location)
      ensures listeners == old(listeners) && cache == old(cache) && nextCallback == old(nextCallback)
      ensures published == old(published) && removals == old(removals)
      ensures alerts == old(alerts) && writes == old(writes)
    {
      var record := ReadDatabase(listener.location, db);
      var value := Decode(record, entityType);
      if value.None? {
        return Err(NullPointer("value"));
      }
      value.value.SetLocation(Some(listener.location));
      listener.cell.Update(value);
      return Ok(value.value);
    }

    /** run: write the value at its resolved location (a null location
        means the default), return the driver's response unchanged, and
        publish one event for that location when the response's inserted
        counter is positive. */
    method Run(kind: WriteKind, value: Document, response: Response) returns (result: Response)
      requires Valid()
      modifies this
      ensures Valid()
      ensures result == response
      ensures var target := Resolve(defaultLocation, value.location);
              && writes == old(writes) + [WriteRequest(kind, target, OutgoingRecord(target, value.fields))]
              && published == old(published) + PublishedBy(target, response)
      ensures listeners == old(listeners) && cache == old(cache) && nextCallback == old(nextCallback)
      ensures databaseReads == old(databaseReads) && removals == old(removals) && alerts == old(alerts)
    {
      var target := Resolve(defaultLocation, value.location);
      writes := writes + [WriteRequest(kind, target, OutgoingRecord(target, value.fields))];
      result := response;
      if IsPositive(response.inserted) {
        published := published + [DocumentUpdateEvent(Some(target))];
      }
    }

    /** close(Location): a no-op for null and for a location without a
        recorded callback; otherwise the callback is dropped and handed to
        subscriber.removeListener. The location is used as given, not
        resolved, and the cached cell stays. */
    method CloseLocation(location: Option<Location>)
      requires Valid()
      modifies this
      ensures Valid()
      ensures location.None? || location.value !in old(listeners) ==>
                listeners == old(listeners) && removals == old(removals)
      ensures location.Some? && location.value in old(listeners) ==>
                && listeners == old(listeners) - {location.value}
                && removals == old(removals) + [(location.value, old(listeners)[location.value].id)]
      ensures cache == old(cache) && nextCallback == old(nextCallback)
      ensures published == old(published) && databaseReads == old(databaseReads)
      ensures alerts == old(alerts) && writes == old(writes)
    {
      if location.None? {
        return;
      }
      var l := location.value;
      if l !in listeners {
        return;
      }
      var listener := listeners[l];
      listeners := listeners - {l};
      removals := removals + [(l, listener.id)];
    }

    /** close(T): a no-op for null; otherwise close the value's location. */
    method CloseValue(value: Document?)
      requires Valid()
      modifies this
      ensures Valid()
      ensures value == null || value.location.None? || value.location.value !in old(listeners) ==>
                listeners == old(listeners) && removals == old(removals)
      ensures value != null && value.location.Some? && value.location.value in old(listeners) ==>
                && listeners == old(listeners) - {value.location.value}
                && removals == old(removals) + [(value.location.value, old(listeners)[value.location.value].id)]
      ensures cache == old(cache) && nextCallback == old(nextCallback)
      ensures published == old(published) && databaseReads == old(databaseReads)
      ensures alerts == old(alerts) && writes == old(writes)
    {
      if value == null {
        return;
      }
      CloseLocation(value.location);
    }

    /** close(): hand every (location, callback) entry to
        subscriber.removeListener exactly once, in no particular order, then
        empty both the callbacks and the cache. */
    method Close()
      requires Valid()
      modifies this
      ensures Valid()
      ensures listeners == map[] && cache == map[]
      ensures |removals| == |old(removals)| + |old(listeners).Keys|
      ensures removals[..|old(removals)|] == old(removals)
      ensures forall l :: l in old(listeners) ==> (l, old(listeners)[l].id) in removals[|old(removals)|..]
      ensures forall i :: |old(removals)| <= i < |removals| ==>
                removals[i].0 in old(listeners) && removals[i].1 == old(listeners)[removals[i].0].id
      ensures nextCallback == old(nextCallback)
      ensures published == old(published) && databaseReads == old(databaseReads)
      ensures alerts == old(alerts) && writes == old(writes)
    {
      var entries := listeners;
      var remaining := entries.Keys;
      while remaining != {}
        invariant remaining <= entries.Keys
        invariant listeners == entries && cache == old(cache)
        invariant |removals| == |old(removals)| + |entries.Keys| - |remaining|
        invariant removals[..|old(removals)|] == old(removals)
        invariant forall l :: l in entries && l !in remaining ==> (l, entries[l].id) in removals[|old(removals)|..]
        invariant forall i :: |old(removals)| <= i < |removals| ==>
                    removals[i].0 in entries && removals[i].0 !in remaining
                    && removals[i].1 == entries[removals[i].0].id
        invariant nextCallback == old(nextCallback)
        invariant published == old(published) && databaseReads == old(databaseReads)
        invariant alerts == old(alerts) && writes == old(writes)
        decreases |remaining|
      {
        var l :| l in remaining;
        ghost var before := removals;
        removals := removals + [(l, entries[l].id)];
        assert removals[|old(removals)|..] == before[|old(removals)|..] + [(l, entries[l].id)];
        remaining := remaining - {l};
      }
      listeners := map[];
      cache := map[];
    }
  }

  /** new Store(type, defaultLocation): Objects.requireNonNull on each
      argument, the type first; otherwise an empty Store. */
  method NewStore(entityType: Option<string>, defaultLocation: Option<Location>) returns (r: Result<Store>)
    ensures entityType.None? ==> r == Err(NullPointer("type"))
    ensures entityType.Some? && defaultLocation.None? ==> r == Err(NullPointer("defaultLocation"))
    ensures entityType.Some? && defaultLocation.Some? ==>
              && r.Ok? && fresh(r.value) && r.value.Valid()
              && r.value.entityType == entityType.value
              && r.value.defaultLocation == defaultLocation.value
              && r.value.listeners == map[] && r.value.cache == map[]
              && r.value.published == [] && r.value.removals == [] && r.value.databaseReads == []
              && r.value.alerts == [] && r.value.writes == []
  {
    if entityType.None? {
      return Err(NullPointer("type"));
    }
    if defaultLocation.None? {
      return Err(NullPointer("defaultLocation"));
    }
    var store := new Store(entityType.value, defaultLocation.value);
    return Ok(store);
  }

  /** The scenario of a default Location app/users: two gets of key "42"
      resolve to app/users/42, read the backing store once and share one
      cell. */
  method GetTwiceReadsOnce(db: Location -> Option<Record>)
    returns (store: Store, first: UpdatableInstance<Document>, second: UpdatableInstance<Document>)
    ensures store.Valid()
    ensures first == second
    ensures store.databaseReads == [Location(Some("app"), Some("users"), Some("42"))]
    ensures store.listeners.Keys == {Location(Some("app"), Some("users"), Some("42"))}
  {
    store := new Store("User", Location(Some("app"), Some("users"), None));
    var partial := Location(None, None, Some("42"));
    first := store.Get(Some(partial), db);
    second := store.Get(Some(partial), db);
  }

  /** close(Location) leaves the cell cached: a get after it is served from
      the cache, with no new read and no new callback. */
  method CloseKeepsCell(store: Store, location: Location, db: Location -> Option<Record>)
    returns (before: UpdatableInstance<Document>, after: UpdatableInstance<Document>)
    requires store.Valid()
    modifies store
    ensures store.Valid()
    ensures before == after
    ensures var r := Resolve(store.defaultLocation, Some(location));
            && r !in store.listeners
            && store.databaseReads == old(store.databaseReads) + (if r in old(store.cache) then [] else [r])
  {
    before := store.Get(Some(location), db);
    var r := Resolve(store.defaultLocation, Some(location));
    store.CloseLocation(Some(r));
    after := store.Get(Some(location), db);
  }

  /** close(Location) removes the callback of exactly the location it is
      given, without resolving it: closing the partial location that a get
      was called with leaves the callback of the resolved location. */
  method CloseDoesNotResolve(store: Store, key: string, db: Location -> Option<Record>)
    returns (instance: UpdatableInstance<Document>)
    requires store.Valid()
    requires store.defaultLocation.database.Some?
    modifies store
    ensures store.Valid()
    ensures var r := Resolve(store.defaultLocation, Some(Location(None, None, Some(key))));
            && r in store.cache && store.cache[r] == instance
            && (r !in old(store.cache) ==> r in store.listeners && store.listeners[r].cell == instance)
            && (r in old(store.listeners) ==> r in store.listeners)
  {
    var partial := Location(None, None, Some(key));
    instance := store.Get(Some(partial), db);
    store.CloseLocation(Some(partial));
  }
}
