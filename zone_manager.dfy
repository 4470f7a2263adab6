/**
 * The client-side zone table (src/game/map/ZoneManager.ts): the same
 * id-keyed table as the server registry, built from whatever list of zones
 * the scene hands it.
 */
module ZoneManagers {
  import opened Wrappers
  import opened Types
  import opened OrderedMap
  import MapGenerator
  import ZoneRegistries

  /**
   * For a list with repeated ids, the table answers with the zone listed
   * last under that id, and knows exactly the ids the list mentions.
   */
  lemma LastDefinitionWins(zones: seq<ZoneDefinition>, i: int)
    requires 0 <= i < |zones|
    requires forall j :: i < j < |zones| ==> zones[j].id != zones[i].id
    ensures var m := FromList(MapGenerator.ById(zones));
      zones[i].id in m.vals && m.vals[zones[i].id] == zones[i]
  {
    FromListLast(MapGenerator.ById(zones), i);
  }

  lemma KnownIds(zones: seq<ZoneDefinition>, id: string)
    ensures id in FromList(MapGenerator.ById(zones)).vals <==> exists i :: 0 <= i < |zones| && zones[i].id == id
  {
    var pairs := MapGenerator.ById(zones);
    FromListHas(pairs, id);
    if exists i :: 0 <= i < |zones| && zones[i].id == id {
      var i :| 0 <= i < |zones| && zones[i].id == id;
      assert pairs[i].0 == id;
    }
  }

  class ZoneManager {
    var zones: OMap<string, ZoneDefinition>

    ghost predicate Valid()
      reads this
    {
      zones.Valid()
    }

    constructor (defs: seq<ZoneDefinition>)
      ensures Valid() && zones == FromList(MapGenerator.ById(defs))
    {
      var table := ZoneRegistries.TableOf(defs);
      zones := table;
    }

    /** `getZone(id)`. */
    function GetZone(id: string): (r: Option<ZoneDefinition>)
      reads this
      ensures r.Some? <==> id in zones.vals
      ensures r.Some? ==> r.value == zones.vals[id]
    {
      if id in zones.vals then Some(zones.vals[id]) else None
    }

    /** `getAllZones`: the zones in key order. */
    function GetAllZones(): (r: seq<ZoneDefinition>)
      reads this
      requires Valid()
      ensures |r| == |zones.keys| && forall i :: 0 <= i < |r| ==> r[i] == zones.vals[zones.keys[i]]
    {
      zones.Values()
    }

    /** `getZoneAtTile`: the first zone, in table order, whose bounds contain the tile. */
    method GetZoneAtTile(tileX: int, tileY: int) returns (r: Option<ZoneDefinition>)
      requires Valid()
      ensures r == MapGenerator.ZoneAt(GetAllZones(), tileX, tileY)
    {
      r := ZoneRegistries.FindZoneAtTile(zones.Values(), tileX, tileY);
    }

    /** `getSpawnTile(zoneId)`. */
    function GetSpawnTile(zoneId: string): (r: Option<Tile>)
      reads this
      ensures r.Some? <==> zoneId in zones.vals
      ensures r.Some? ==> r.value == zones.vals[zoneId].spawnTile
    {
      match GetZone(zoneId)
      case None => None
      case Some(z) => Some(z.spawnTile)
    }

    /** `getZoneNames`: one display name per zone, in table order. */
    function GetZoneNames(): (r: seq<string>)
      reads this
      requires Valid()
      ensures |r| == |zones.keys| && forall i :: 0 <= i < |r| ==> r[i] == zones.vals[zones.keys[i]].name
    {
      var zs := zones.Values();
      seq(|zs|, i requires 0 <= i < |zs| => zs[i].name)
    }
  }
}
