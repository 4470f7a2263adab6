/**
 * Who stands where (src/simulation/world/SpatialState.ts): one position per
 * agent, in first-placement order, each tagged with the zone that contained
 * the tile when it was set.
 */
module SpatialStates {
  import opened Wrappers
  import opened Types
  import opened OrderedMap
  import JsText
  import MapGenerator
  import ZoneRegistries

  datatype AgentPosition = AgentPosition(agentId: string, tileX: int, tileY: int, zoneId: Option<string>)

  /** `zone?.id ?? null` for the zone found at a tile. */
  function ZoneIdAt(zones: seq<ZoneDefinition>, x: int, y: int): (r: Option<string>)
    ensures r.Some? <==> exists z :: z in zones && MapGenerator.IsInsideZone(x, y, z)
    ensures r.Some? ==> exists z :: z in zones && MapGenerator.IsInsideZone(x, y, z) && z.id == r.value
  {
    match MapGenerator.ZoneAt(zones, x, y)
    case None => None
    case Some(z) => Some(z.id)
  }

  /** The ids of the positions in zone `z`, in order. */
  function IdsInZone(ps: seq<AgentPosition>, z: string): (r: seq<string>)
    ensures forall a :: a in r <==> exists p :: p in ps && p.zoneId == Some(z) && p.agentId == a
  {
    if ps == [] then []
    else (if ps[0].zoneId == Some(z) then [ps[0].agentId] else []) + IdsInZone(ps[1..], z)
  }

  /** The ids of the positions in zone `z` other than `a`, in order. */
  function OthersInZone(ps: seq<AgentPosition>, z: string, a: string): (r: seq<string>)
    ensures forall b :: b in r <==> exists p :: p in ps && p.zoneId == Some(z) && p.agentId == b && b != a
  {
    if ps == [] then []
    else (if ps[0].zoneId == Some(z) && ps[0].agentId != a then [ps[0].agentId] else []) + OthersInZone(ps[1..], z, a)
  }

  /** "Same zone as `a`" is "in `a`'s zone", with `a` dropped and the order kept. */
  lemma {:induction false} OthersAreZoneWithoutSelf(ps: seq<AgentPosition>, z: string, a: string)
    ensures OthersInZone(ps, z, a) == JsText.Filter(IdsInZone(ps, z), (b: string) => b != a)
  {
    if ps != [] {
      OthersAreZoneWithoutSelf(ps[1..], z, a);
      var head := if ps[0].zoneId == Some(z) then [ps[0].agentId] else [];
      JsText.FilterAppend(head, IdsInZone(ps[1..], z), (b: string) => b != a);
      if head != [] {
        assert head[1..] == [];
      }
    }
  }

  /** No agent has two of the positions. */
  predicate OnePerAgent(ps: seq<AgentPosition>) {
    forall i, j :: 0 <= i < j < |ps| ==> ps[i].agentId != ps[j].agentId
  }

  /** Positions of distinct agents name each other agent of a zone once. */
  lemma {:induction false} OthersInZoneDistinct(ps: seq<AgentPosition>, z: string, a: string)
    requires OnePerAgent(ps)
    ensures Distinct(OthersInZone(ps, z, a))
  {
    if ps != [] {
      OthersInZoneDistinct(ps[1..], z, a);
      var head := if ps[0].zoneId == Some(z) && ps[0].agentId != a then [ps[0].agentId] else [];
      var rest := OthersInZone(ps[1..], z, a);
      var r := head + rest;
      forall p, q | 0 <= p < q < |r| ensures Apart(r, p, q) {
        if p < |head| {
          assert r[q] in rest;
          var x :| x in ps[1..] && x.zoneId == Some(z) && x.agentId == r[q] && r[q] != a;
          var i :| 0 <= i < |ps[1..]| && ps[1..][i] == x;
          assert ps[i + 1] == x;
        } else {
          assert Apart(rest, p - |head|, q - |head|);
        }
      }
    }
  }

  class SpatialState {
    var positions: OMap<string, AgentPosition>
    const registry: ZoneRegistries.ZoneRegistry

    /** The map is well formed and every position is filed under its own agent's id. */
    ghost predicate Valid()
      reads this
    {
      && positions.Valid()
      && registry.Valid()
      && forall k :: k in positions.vals ==> positions.vals[k].agentId == k
    }

    constructor (zoneRegistry: ZoneRegistries.ZoneRegistry)
      requires zoneRegistry.Valid()
      ensures Valid() && registry == zoneRegistry && positions == Empty()
    {
      registry := zoneRegistry;
      positions := Empty();
    }

    /**
     * `setPosition`: records the tile and the first registry zone containing
     * it (none for a corridor tile), replacing any earlier position of the
     * agent in place.
     */
    method SetPosition(agentId: string, tileX: int, tileY: int)
      requires Valid()
      modifies this
      ensures Valid()
      ensures positions == old(positions).Put(agentId,
        AgentPosition(agentId, tileX, tileY, ZoneIdAt(registry.GetAllZones(), tileX, tileY)))
    {
      var zone := registry.GetZoneAtTile(tileX, tileY);
      var zoneId := if zone.Some? then Some(zone.value.id) else None;
      positions := positions.Put(agentId, AgentPosition(agentId, tileX, tileY, zoneId));
    }

    /** `getPosition(agentId)`. */
    function GetPosition(agentId: string): (r: Option<AgentPosition>)
      reads this
      ensures r.Some? <==> agentId in positions.vals
      ensures r.Some? ==> r.value == positions.vals[agentId]
    {
      if agentId in positions.vals then Some(positions.vals[agentId]) else None
    }

    /** `getZone(agentId)`: none for an unplaced agent or one standing outside every zone. */
    function GetZone(agentId: string): (r: Option<string>)
      reads this
      ensures r.Some? <==> agentId in positions.vals && positions.vals[agentId].zoneId.Some?
      ensures r.Some? ==> r == positions.vals[agentId].zoneId
    {
      if agentId in positions.vals then positions.vals[agentId].zoneId else None
    }

    /** `getAgentsInZone(zoneId)`: the placed agents in that zone, in placement order. */
    function GetAgentsInZone(zoneId: string): (r: seq<string>)
      reads this
      requires positions.Valid()
      ensures r == IdsInZone(positions.Values(), zoneId)
    {
      IdsInZone(positions.Values(), zoneId)
    }

    /**
     * `getAgentsInSameZone(agentId)`: nobody when the agent has no zone (or
     * an empty zone id, which JavaScript treats as false); otherwise the other
     * agents of that zone, in placement order.
     */
    function GetAgentsInSameZone(agentId: string): (r: seq<string>)
      reads this
      requires positions.Valid()
      ensures GetZone(agentId).None? || GetZone(agentId).value == "" ==> r == []
      ensures GetZone(agentId).Some? && GetZone(agentId).value != "" ==>
        r == JsText.Filter(GetAgentsInZone(GetZone(agentId).value), (b: string) => b != agentId)
    {
      var zone := GetZone(agentId);
      if zone.None? || zone.value == "" then []
      else
        OthersAreZoneWithoutSelf(positions.Values(), zone.value, agentId);
        OthersInZone(positions.Values(), zone.value, agentId)
    }

    /** `getAllPositions`: one position per placed agent, in placement order. */
    function GetAllPositions(): (r: seq<AgentPosition>)
      reads this
      requires positions.Valid()
      ensures |r| == |positions.keys| && forall i :: 0 <= i < |r| ==> r[i] == positions.vals[positions.keys[i]]
    {
      positions.Values()
    }

    /** A stored position is the position of some placed agent, and each placed agent's position is stored. */
    lemma InValues(p: AgentPosition)
      requires Valid()
      ensures p in positions.Values() <==> p.agentId in positions.vals && positions.vals[p.agentId] == p
    {
      var vs := positions.Values();
      if p in vs {
        var i :| 0 <= i < |vs| && vs[i] == p;
        assert positions.keys[i] in positions.vals;
      }
      if p.agentId in positions.vals && positions.vals[p.agentId] == p {
        var i :| 0 <= i < |positions.keys| && positions.keys[i] == p.agentId;
        assert vs[i] == p;
      }
    }

    /** An agent is in zone `z` exactly when its recorded zone is `z`. */
    lemma AgentsInZoneMembers(zoneId: string, b: string)
      requires Valid()
      ensures b in GetAgentsInZone(zoneId) <==> GetZone(b) == Some(zoneId)
    {
      if b in positions.vals {
        InValues(positions.vals[b]);
      }
      if b in GetAgentsInZone(zoneId) {
        var p :| p in positions.Values() && p.zoneId == Some(zoneId) && p.agentId == b;
        InValues(p);
      }
    }

    /** `getAgentsInSameZone` names nobody twice. */
    lemma SameZoneDistinct(a: string)
      requires Valid()
      ensures Distinct(GetAgentsInSameZone(a))
    {
      var vs := positions.Values();
      forall i, j | 0 <= i < j < |vs| ensures vs[i].agentId != vs[j].agentId {
        DistinctAt(positions.keys, i, j);
      }
      var zone := GetZone(a);
      if zone.Some? && zone.value != "" {
        OthersInZoneDistinct(vs, zone.value, a);
      }
    }

    /** Another agent is reported as sharing the zone exactly when both stand in the same non-empty zone. */
    lemma SameZoneMembers(a: string, b: string)
      requires Valid()
      ensures b in GetAgentsInSameZone(a) <==>
        b != a && GetZone(a).Some? && GetZone(a).value != "" && GetZone(b) == GetZone(a)
    {
      var zone := GetZone(a);
      if zone.Some? && zone.value != "" {
        AgentsInZoneMembers(zone.value, b);
      }
    }
  }
}
