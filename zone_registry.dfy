/**
 * The server-side zone registry (src/simulation/world/ZoneRegistry.ts): the
 * built-in zones keyed by id, in definition order, with lookups by id and by
 * tile.
 */
module ZoneRegistries {
  import opened Wrappers
  import opened Types
  import opened OrderedMap
  import MapGenerator

  /** The first zone in `zones` (walked in order) containing the tile; shared by both zone tables. */
  method FindZoneAtTile(zones: seq<ZoneDefinition>, tileX: int, tileY: int) returns (r: Option<ZoneDefinition>)
    ensures r == MapGenerator.ZoneAt(zones, tileX, tileY)
  {
    var i := 0;
    while i < |zones|
      invariant 0 <= i <= |zones|
      invariant MapGenerator.ZoneAt(zones, tileX, tileY) == MapGenerator.ZoneAt(zones[i..], tileX, tileY)
    {
      var b := zones[i].bounds;
      if tileX >= b.x && tileX < b.x + b.width && tileY >= b.y && tileY < b.y + b.height {
        return Some(zones[i]);
      }
      assert zones[i..][1..] == zones[i + 1..];
      i := i + 1;
    }
    return None;
  }

  /** Building the table by `set` over a list of zones. */
  method TableOf(zones: seq<ZoneDefinition>) returns (m: OMap<string, ZoneDefinition>)
    ensures m == FromList(MapGenerator.ById(zones))
  {
    var pairs := MapGenerator.ById(zones);
    m := Empty();
    var i := 0;
    while i < |zones|
      invariant 0 <= i <= |zones|
      invariant m == FromList(pairs[..i])
    {
      assert pairs[..i + 1][..i] == pairs[..i];
      m := m.Put(zones[i].id, zones[i]);
      i := i + 1;
    }
    assert pairs[..|zones|] == pairs;
  }

  class ZoneRegistry {
    /** Filled once by the constructor and never changed afterwards. */
    const zones: OMap<string, ZoneDefinition>

    ghost predicate Valid() {
      zones.Valid()
    }

    /** The registry holds every built-in zone, keyed by id, in definition order. */
    constructor ()
      ensures Valid() && zones == FromList(MapGenerator.ById(MapGenerator.ZoneDefs))
      ensures GetAllZones() == MapGenerator.ZoneDefs
    {
      var table := TableOf(MapGenerator.ZoneDefs);
      zones := table;
      new;
      BuiltInOrder();
    }

    /** `getZone(id)`. */
    function GetZone(id: string): (r: Option<ZoneDefinition>)
      ensures r.Some? <==> id in zones.vals
      ensures r.Some? ==> r.value == zones.vals[id]
    {
      if id in zones.vals then Some(zones.vals[id]) else None
    }

    /** `getSpawnTile(zoneId)`: the zone's spawn tile, or nothing for an unknown zone. */
    function GetSpawnTile(zoneId: string): (r: Option<Tile>)
      ensures r.Some? <==> zoneId in zones.vals
      ensures r.Some? ==> r.value == zones.vals[zoneId].spawnTile
    {
      match GetZone(zoneId)
      case None => None
      case Some(z) => Some(z.spawnTile)
    }

    /** `getZoneAtTile`: the first zone, in registry order, whose bounds contain the tile. */
    method GetZoneAtTile(tileX: int, tileY: int) returns (r: Option<ZoneDefinition>)
      requires Valid()
      ensures r == MapGenerator.ZoneAt(GetAllZones(), tileX, tileY)
    {
      r := FindZoneAtTile(zones.Values(), tileX, tileY);
    }

    /** `getAllZoneIds`. */
    function GetAllZoneIds(): (r: seq<string>)
      ensures r == zones.keys
    {
      zones.keys
    }

    /** `getAllZones`: the zones in key order. */
    function GetAllZones(): (r: seq<ZoneDefinition>)
      requires Valid()
      ensures |r| == |zones.keys| && forall i :: 0 <= i < |r| ==> r[i] == zones.vals[zones.keys[i]]
    {
      zones.Values()
    }

    /** Right after construction, the registry's ids and zones are the built-in list's, in order. */
    lemma BuiltInOrder()
      requires zones == FromList(MapGenerator.ById(MapGenerator.ZoneDefs))
      ensures zones.keys == seq(|MapGenerator.ZoneDefs|, i requires 0 <= i < |MapGenerator.ZoneDefs| => MapGenerator.ZoneDefs[i].id)
      ensures zones.Values() == MapGenerator.ZoneDefs
    {
      MapGenerator.ZoneDefsIdsDistinct();
      FromListDistinct(MapGenerator.ById(MapGenerator.ZoneDefs));
    }
  }
}
