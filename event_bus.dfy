/**
 * The client's process-wide listener registry (src/game/EventBus.ts): a map
 * from event name to a set of callbacks. Callbacks are opaque here, so each
 * is named by a number and `emit` reports which callbacks it invokes, in
 * the set's insertion order; the arguments passed along are not modelled.
 *
 * The rules are functions over the listener table; the `EventBusImpl`
 * class updates its table in place and is proved to follow them.
 */
module EventBuses {
  import opened Wrappers
  import opened OrderedMap

  type Callback = nat

  /** The event name -> callbacks table; each set is a list without repeats, in insertion order. */
  type Listeners = OMap<string, seq<Callback>>

  ghost predicate WellFormed(l: Listeners) {
    l.Valid() && forall e :: e in l.vals ==> Distinct(l.vals[e])
  }

  /** `Set.prototype.add`: appended unless already present. */
  function SetAdd(s: seq<Callback>, cb: Callback): (r: seq<Callback>)
    ensures forall x :: x in r <==> x in s || x == cb
  {
    if cb in s then s else s + [cb]
  }

  /** `on(event, cb)`: a fresh empty set for a new event name, then `add`. */
  function WithListener(l: Listeners, event: string, cb: Callback): (r: Listeners)
    requires l.Valid()
    ensures r.Valid()
  {
    var current := if event in l.vals then l.vals[event] else [];
    l.Put(event, SetAdd(current, cb))
  }

  /** `off(event, cb)`: removes the callback from that event's set; the (possibly empty) set stays. */
  function WithoutListener(l: Listeners, event: string, cb: Callback): (r: Listeners)
    requires l.Valid()
    ensures r.Valid()
  {
    if event in l.vals then l.Put(event, Without(l.vals[event], cb)) else l
  }

  /** `emit(event)`: the callbacks invoked, in insertion order; none for an unknown event. */
  function Invoked(l: Listeners, event: string): seq<Callback> {
    if event in l.vals then l.vals[event] else []
  }

  /**
   * `removeAllListeners(event?)`: a truthy event name drops that event
   * only; a missing name, or the empty string (falsy in JavaScript), clears
   * every event.
   */
  function Cleared(l: Listeners, event: Option<string>): (r: Listeners)
    requires l.Valid()
    ensures r.Valid()
  {
    if event.Some? && event.value != "" then l.Remove(event.value) else Empty()
  }

  // ---------------------------------------------------------------------
  // Properties
  // ---------------------------------------------------------------------

  /** Every operation keeps each callback set free of repeats. */
  lemma WellFormedPreserved(l: Listeners, event: string, cb: Callback, name: Option<string>)
    requires WellFormed(l)
    ensures WellFormed(WithListener(l, event, cb))
    ensures WellFormed(WithoutListener(l, event, cb))
    ensures WellFormed(Cleared(l, name))
  {
    if event in l.vals {
      WithoutDistinct(l.vals[event], cb);
      var s := l.vals[event];
      if cb !in s {
        DistinctSnoc(s, cb);
      }
    }
  }

  /**
   * After `on(event, cb)`, emitting the event invokes `cb`, together with
   * exactly the callbacks it invoked before; other events are unaffected.
   */
  lemma OnThenEmit(l: Listeners, event: string, cb: Callback, other: string)
    requires l.Valid()
    ensures forall x :: x in Invoked(WithListener(l, event, cb), event) <==> x in Invoked(l, event) || x == cb
    ensures other != event ==> Invoked(WithListener(l, event, cb), other) == Invoked(l, other)
  {
  }

  /** Registering the same callback twice keeps a single copy. */
  lemma OnIdempotent(l: Listeners, event: string, cb: Callback)
    requires l.Valid()
    ensures WithListener(WithListener(l, event, cb), event, cb) == WithListener(l, event, cb)
  {
  }

  /** A callback registered once is invoked once per emit. */
  lemma EmitOnce(l: Listeners, event: string)
    requires WellFormed(l)
    ensures forall i, j :: 0 <= i < j < |Invoked(l, event)| ==> Invoked(l, event)[i] != Invoked(l, event)[j]
  {
    var s := Invoked(l, event);
    forall i, j | 0 <= i < j < |s| ensures s[i] != s[j] {
      DistinctAt(s, i, j);
    }
  }

  /** `off` removes exactly that callback from that event, and leaves unknown events and other events alone. */
  lemma OffRule(l: Listeners, event: string, cb: Callback, other: string)
    requires l.Valid()
    ensures event !in l.vals ==> WithoutListener(l, event, cb) == l
    ensures forall x :: x in Invoked(WithoutListener(l, event, cb), event) <==> x in Invoked(l, event) && x != cb
    ensures other != event ==> Invoked(WithoutListener(l, event, cb), other) == Invoked(l, other)
  {
  }

  /** Removing with a name silences only that event; without one, every event is silenced. */
  lemma RemoveAllRule(l: Listeners, event: Option<string>, other: string)
    requires l.Valid()
    ensures event.Some? && event.value != "" ==>
      Invoked(Cleared(l, event), event.value) == [] && (other != event.value ==> Invoked(Cleared(l, event), other) == Invoked(l, other))
    ensures event.None? || event.value == "" ==> Invoked(Cleared(l, event), other) == []
  {
  }

  class EventBusImpl {
    var listeners: Listeners

    ghost predicate Valid()
      reads this
    {
      WellFormed(listeners)
    }

    constructor ()
      ensures Valid() && listeners == Empty()
    {
      listeners := Empty();
    }

    method On(event: string, callback: Callback)
      requires Valid()
      modifies this
      ensures Valid()
      ensures listeners == WithListener(old(listeners), event, callback)
    {
      WellFormedPreserved(listeners, event, callback, None);
      if event !in listeners.vals {
        listeners := listeners.Put(event, []);
      }
      var callbacks := listeners.vals[event];
      if callback !in callbacks {
        callbacks := callbacks + [callback];
      }
      listeners := listeners.Put(event, callbacks);
    }

    method Off(event: string, callback: Callback)
      requires Valid()
      modifies this
      ensures Valid()
      ensures listeners == WithoutListener(old(listeners), event, callback)
    {
      WellFormedPreserved(listeners, event, callback, None);
      if event in listeners.vals {
        listeners := listeners.Put(event, Without(listeners.vals[event], callback));
      }
    }

    /** `emit`: walks the event's set and reports each callback it calls. */
    method Emit(event: string) returns (called: seq<Callback>)
      ensures called == Invoked(listeners, event)
    {
      called := [];
      if event in listeners.vals {
        var cbs := listeners.vals[event];
        var i := 0;
        while i < |cbs|
          invariant 0 <= i <= |cbs|
          invariant called == cbs[..i]
        {
          called := called + [cbs[i]];
          i := i + 1;
        }
        assert cbs[..i] == cbs;
      }
    }

    method RemoveAllListeners(event: Option<string> := None)
      requires Valid()
      modifies this
      ensures Valid()
      ensures listeners == Cleared(old(listeners), event)
    {
      WellFormedPreserved(listeners, "", 0, event);
      if event.Some? && event.value != "" {
        listeners := listeners.Remove(event.value);
      } else {
        listeners := Empty();
      }
    }
  }
}
