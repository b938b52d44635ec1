/** The message-bus side of change notification: the event carried by the
    bus and the router that hands each event to the callbacks registered for
    its location. */
module Subscribers {
  import opened Common
  import opened Locations

  /** A callback (a Consumer<DocumentUpdateEvent>), known by its identity. */
  type CallbackId = nat

  /** DocumentUpdateEvent; its timestamp, a clock reading, is not modelled. */
  datatype DocumentUpdateEvent = DocumentUpdateEvent(location: Option<Location>)

  type Registry = map<Location, seq<CallbackId>>

  /** The first position of x in s. */
  function FirstIndex(s: seq<CallbackId>, x: CallbackId): (i: nat)
    requires x in s
    ensures i < |s| && s[i] == x && x !in s[..i]
  {
    if s[0] == x then 0 else FirstIndex(s[1..], x) + 1
  }

  /** Past a head that differs from x, the first occurrence of x in s is one
      further on than in s[1..], and the slices around it line up. */
  lemma FirstIndexPastHead(s: seq<CallbackId>, x: CallbackId)
    requires |s| > 0 && s[0] != x
    ensures s == [s[0]] + s[1..]
    ensures x in s[1..] ==>
              && FirstIndex(s, x) == FirstIndex(s[1..], x) + 1
              && s[..FirstIndex(s, x)] == [s[0]] + s[1..][..FirstIndex(s[1..], x)]
              && s[FirstIndex(s, x) + 1..] == s[1..][FirstIndex(s[1..], x) + 1..]
  {
  }

  /** List.remove(Object): drop the first occurrence of x, if any. */
  function RemoveFirst(s: seq<CallbackId>, x: CallbackId): (r: seq<CallbackId>)
    ensures x !in s ==> r == s
    ensures x in s ==> r == s[..FirstIndex(s, x)] + s[FirstIndex(s, x) + 1..]
  {
    if |s| == 0 then []
    else if s[0] == x then s[1..]
    else
      FirstIndexPastHead(s, x);
      [s[0]] + RemoveFirst(s[1..], x)
  }

  /** Removing an occurrence shortens the list by one and takes exactly one
      copy of x out of its multiset. */
  lemma RemoveFirstTakesOneCopy(s: seq<CallbackId>, x: CallbackId)
    requires x in s
    ensures |RemoveFirst(s, x)| == |s| - 1
    ensures multiset(RemoveFirst(s, x)) == multiset(s) - multiset{x}
  {
    var i := FirstIndex(s, x);
    assert s == s[..i] + [x] + s[i + 1..];
    assert multiset(s) == multiset(s[..i]) + multiset{x} + multiset(s[i + 1..]);
  }

  /** The callbacks registered for a location, none when it has no list. */
  function Callbacks(m: Registry, location: Location): seq<CallbackId>
  {
    if location in m then m[location] else []
  }

  /** The registry after addListener. */
  function Added(m: Registry, location: Location, callback: CallbackId): (r: Registry)
    ensures r.Keys == m.Keys + {location}
    ensures forall l :: l in m && l != location ==> r[l] == m[l]
  {
    m[location := Callbacks(m, location) + [callback]]
  }

  /** The registry after removeListener. */
  function Removed(m: Registry, location: Location, callback: CallbackId): (r: Registry)
    ensures r.Keys == m.Keys
    ensures forall l :: l in m && l != location ==> r[l] == m[l]
  {
    if location !in m then m else m[location := RemoveFirst(m[location], callback)]
  }

  /** The registry after clearListeners. */
  function Cleared(m: Registry, location: Location): (r: Registry)
    ensures r.Keys == m.Keys - {location}
    ensures forall l :: l in r ==> r[l] == m[l]
  {
    m - {location}
  }

  /** The callbacks an event is handed to, in the order they are invoked. */
  function Dispatched(m: Registry, event: DocumentUpdateEvent): (r: seq<CallbackId>)
    ensures event.location.Some? && event.location.value in m ==> r == m[event.location.value]
    ensures event.location.None? || event.location.value !in m ==> r == []
  {
    if event.location.None? then [] else Callbacks(m, event.location.value)
  }

  class RethinkSubscriber {
    var listeners: Registry

    constructor ()
      ensures listeners == map[]
    {
      listeners := map[];
    }

    /** addListener: append to the location's list, creating it if absent. */
    method AddListener(location: Location, callback: CallbackId)
      modifies this
      ensures listeners == Added(old(listeners), location, callback)
    {
      var consumers := if location in listeners then listeners[location] else [];
      listeners := listeners[location := consumers + [callback]];
    }

    /** removeListener: a no-op when the location has no list; otherwise the
        first occurrence is removed and the list, even empty, is kept. */
    method RemoveListener(location: Location, callback: CallbackId)
      modifies this
      ensures listeners == Removed(old(listeners), location, callback)
    {
      if location !in listeners {
        return;
      }
      listeners := listeners[location := RemoveFirst(listeners[location], callback)];
    }

    /** clearListeners: drop the location's entry. */
    method ClearListeners(location: Location)
      modifies this
      ensures listeners == Cleared(old(listeners), location)
    {
      listeners := listeners - {location};
    }

    /** RethinkListener.accept: drop an event without a location or for a
        location without a list; otherwise invoke that list's callbacks in
        order. Returns the callbacks invoked; the registry is not changed. */
    method Accept(event: DocumentUpdateEvent) returns (invoked: seq<CallbackId>)
      ensures invoked == Dispatched(listeners, event)
    {
      invoked := [];
      if event.location.None? {
        return;
      }
      var location := event.location.value;
      if location !in listeners {
        return;
      }
      var consumers := listeners[location];
      for i := 0 to |consumers|
        invariant invoked == consumers[..i]
      {
        invoked := invoked + [consumers[i]];
      }
      assert consumers[..|consumers|] == consumers;
    }
  }

  /** addListener appends at the end of that location's list and leaves
      every other location's list alone. */
  lemma AddAppends(m: Registry, location: Location, callback: CallbackId, other: Location)
    ensures Callbacks(Added(m, location, callback), location) == Callbacks(m, location) + [callback]
    ensures other != location ==> Callbacks(Added(m, location, callback), other) == Callbacks(m, other)
  {
  }

  /** A callback added twice is invoked twice per event. */
  lemma AddedTwiceRunsTwice(m: Registry, location: Location, callback: CallbackId)
    ensures var d := Dispatched(Added(Added(m, location, callback), location, callback),
                                DocumentUpdateEvent(Some(location)));
            multiset(d)[callback] == multiset(Callbacks(m, location))[callback] + 2
  {
  }

  /** Removing an appended callback that was not registered before restores
      the list; when it was registered before, the earlier entry goes and the
      appended one stays. */
  lemma {:induction false} RemoveFirstAfterAppend(s: seq<CallbackId>, x: CallbackId)
    ensures x !in s ==> RemoveFirst(s + [x], x) == s
    ensures x in s ==> RemoveFirst(s + [x], x) == RemoveFirst(s, x) + [x]
  {
    if |s| > 0 {
      assert (s + [x])[1..] == s[1..] + [x];
      RemoveFirstAfterAppend(s[1..], x);
    }
  }

  /** removeListener on a location without a list changes nothing; on one
      with a list the entry stays, possibly empty. */
  lemma RemoveKeepsEntry(m: Registry, location: Location, callback: CallbackId)
    ensures location !in m ==> Removed(m, location, callback) == m
    ensures location in m ==>
              && location in Removed(m, location, callback)
              && Removed(m, location, callback)[location] == RemoveFirst(m[location], callback)
  {
  }

  /** After clearListeners an event for that location invokes nothing. */
  lemma ClearedDispatchesNothing(m: Registry, location: Location)
    ensures Dispatched(Cleared(m, location), DocumentUpdateEvent(Some(location))) == []
  {
  }

  /** Only the event's own location's list matters: callbacks registered
      for other locations never run. */
  lemma DispatchIsPerLocation(m: Registry, n: Registry, location: Location)
    requires Callbacks(m, location) == Callbacks(n, location)
    ensures Dispatched(m, DocumentUpdateEvent(Some(location))) == Dispatched(n, DocumentUpdateEvent(Some(location)))
  {
  }

  /** An event without a location invokes nothing. */
  lemma NullLocationDropped(m: Registry)
    ensures Dispatched(m, DocumentUpdateEvent(None)) == []
  {
  }
}
