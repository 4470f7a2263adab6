/**
 * The append-only simulation event log (src/simulation/EventLog.ts): every
 * event gets a fresh `evt_N` id from a process-wide counter and is pushed at
 * the end; the queries are slices and filters of the list.
 */
module EventLogs {
  import opened Wrappers
  import opened Types
  import JsText
  import Ids

  const Prefix := "evt_"

  /** `getByAgent(agentId)`: the events carrying that agent id, in log order. */
  function ByAgent(events: seq<SimulationEvent>, agentId: string): (r: seq<SimulationEvent>)
    ensures forall e :: e in r <==> e in events && e.agentId == Some(agentId)
  {
    JsText.Filter(events, (e: SimulationEvent) => e.agentId == Some(agentId))
  }

  /** `getByType(type)`: the events of that type, in log order. */
  function ByType(events: seq<SimulationEvent>, t: EventType): (r: seq<SimulationEvent>)
    ensures forall e :: e in r <==> e in events && e.eventType == t
  {
    JsText.Filter(events, (e: SimulationEvent) => e.eventType == t)
  }

  /** Filtering a log that grew by one event grows the result by that event exactly when it matches. */
  lemma QueriesAfterAppend(events: seq<SimulationEvent>, e: SimulationEvent, agentId: string, t: EventType)
    ensures ByAgent(events + [e], agentId) == ByAgent(events, agentId) + (if e.agentId == Some(agentId) then [e] else [])
    ensures ByType(events + [e], t) == ByType(events, t) + (if e.eventType == t then [e] else [])
  {
    JsText.FilterAppend(events, [e], (x: SimulationEvent) => x.agentId == Some(agentId));
    JsText.FilterAppend(events, [e], (x: SimulationEvent) => x.eventType == t);
    assert [e][1..] == [];
  }

  class EventLog {
    var events: seq<SimulationEvent>
    /** The counter value each event id was built from. */
    ghost var nums: seq<nat>
    /** The process-wide `eventCounter`. */
    const ids: Ids.Counter

    ghost predicate Valid()
      reads this, ids
    {
      && |nums| == |events|
      && Ids.Increasing(nums)
      && (forall i :: 0 <= i < |events| ==> events[i].id == Ids.MakeId(Prefix, nums[i]))
      && (forall i :: 0 <= i < |nums| ==> 1 <= nums[i] <= ids.value)
    }

    constructor (counter: Ids.Counter)
      ensures Valid() && events == [] && ids == counter
    {
      events := [];
      nums := [];
      ids := counter;
    }

    /** Event ids are never reused. */
    lemma IdsUnique()
      requires Valid()
      ensures forall i, j :: 0 <= i < j < |events| ==> events[i].id != events[j].id
    {
      forall i, j | 0 <= i < j < |events| ensures events[i].id != events[j].id {
        Ids.IncreasingIdsDistinct(Prefix, nums, i, j);
      }
    }

    /**
     * `add`: appends one event with id `evt_N` for the next counter value and
     * returns that stored event; earlier events are untouched.
     */
    method Add(tick: int, eventType: EventType, agentId: Option<string>, agentName: Option<string>,
               content: string, target: Option<string>) returns (e: SimulationEvent)
      requires Valid()
      modifies this, ids
      ensures Valid()
      ensures ids.value == old(ids.value) + 1
      ensures e == SimulationEvent(Ids.MakeId(Prefix, ids.value), tick, eventType, agentId, agentName, content, target)
      ensures events == old(events) + [e]
      ensures forall x :: x in old(events) ==> x.id != e.id
    {
      var n := ids.Next();
      e := SimulationEvent(Ids.MakeId(Prefix, n), tick, eventType, agentId, agentName, content, target);
      forall x | x in events ensures x.id != e.id {
        var i :| 0 <= i < |events| && events[i] == x;
        Ids.MakeIdInjective(Prefix, nums[i], n);
      }
      events := events + [e];
      nums := nums + [n];
    }

    /** `getAll()`. */
    function GetAll(): (r: seq<SimulationEvent>)
      reads this
      ensures r == events
    {
      events
    }

    /** `getRecent(limit)`: the last min(limit, n) events, oldest first; a limit of 0 keeps all. */
    function GetRecent(limit: int := 50): (r: seq<SimulationEvent>)
      reads this
      ensures limit > 0 ==> |r| == JsText.Min(limit, |events|)
      ensures limit == 0 ==> r == events
      ensures |r| <= |events| && r == events[|events| - |r|..]
    {
      JsText.LastN(events, limit)
    }

    function GetByAgent(agentId: string): (r: seq<SimulationEvent>)
      reads this
      ensures r == ByAgent(events, agentId)
    {
      ByAgent(events, agentId)
    }

    function GetByType(t: EventType): (r: seq<SimulationEvent>)
      reads this
      ensures r == ByType(events, t)
    {
      ByType(events, t)
    }

    /** `length`. */
    function Length(): (n: nat)
      reads this
      ensures n == |events|
    {
      |events|
    }
  }
}
