/**
 * The deterministic office map (src/game/map/MapGenerator.ts): a 40 x 30
 * tile grid with perimeter walls, walled rooms with doorways, and a few
 * furniture tiles per room. The three grids are `array2` values indexed
 * `[y, x]` and written in place, as the source writes `grid[y][x]`.
 *
 * Zone containment and the first-match zone lookup shared by the server's
 * zone registry and the client's zone manager are defined here once.
 */
module MapGenerator {
  import opened Wrappers
  import opened Types

  const MapWidth: int := 40
  const MapHeight: int := 30
  const TileSize: int := 32

  const ZoneDefs: seq<ZoneDefinition> := [
    ZoneDefinition("boardroom", "The Boardroom", "Central meeting space for group debates.", "#4CAF50",
      Bounds(14, 10, 12, 8), ["conference_table", "projector_screen", "chairs"], Tile(20, 14)),
    ZoneDefinition("whiteboard", "Whiteboard Corner", "Brainstorming zone for creative thinking.", "#2196F3",
      Bounds(1, 1, 8, 7), ["whiteboard", "markers"], Tile(5, 4)),
    ZoneDefinition("library", "The Library", "Research and reflection area.", "#9C27B0",
      Bounds(30, 1, 9, 8), ["bookshelves", "reading_desk", "research_terminal"], Tile(34, 5)),
    ZoneDefinition("breakroom", "The Break Room", "Casual encounters and unplanned conversations.", "#FF9800",
      Bounds(1, 21, 8, 8), ["coffee_machine", "snack_table", "couch"], Tile(5, 25)),
    ZoneDefinition("office_visionary", "Office: Visionary", "The Visionary's private office.", "#4CAF50",
      Bounds(11, 1, 5, 5), ["desk", "vision_board"], Tile(13, 3)),
    ZoneDefinition("office_skeptic", "Office: Skeptic", "The Skeptic's private office.", "#F44336",
      Bounds(18, 1, 5, 5), ["desk", "spreadsheet_monitor"], Tile(20, 3)),
    ZoneDefinition("office_builder", "Office: Builder", "The Builder's private office.", "#2196F3",
      Bounds(25, 1, 4, 5), ["desk", "code_terminal"], Tile(27, 3)),
    ZoneDefinition("office_whisperer", "Office: Customer Whisperer", "The Customer Whisperer's private office.", "#FFEB3B",
      Bounds(30, 11, 5, 5), ["desk", "customer_feedback_wall"], Tile(32, 13)),
    ZoneDefinition("office_devil", "Office: Devil's Advocate", "The Devil's Advocate's private office.", "#9C27B0",
      Bounds(30, 18, 5, 5), ["desk", "devil_figurine"], Tile(32, 20)),
    ZoneDefinition("podium", "The Podium", "Presentation area for formal statements.", "#607D8B",
      Bounds(14, 22, 12, 6), ["lectern", "audience_seats"], Tile(20, 25))
  ]

  // ---------------------------------------------------------------------
  // Geometry
  // ---------------------------------------------------------------------

  /** `isInsideZone`: half-open containment in the zone's bounds. */
  predicate IsInsideZone(x: int, y: int, z: ZoneDefinition) {
    z.bounds.Contains(x, y)
  }

  /** `isOnZoneBorder`: inside the zone and on its first or last row or column. */
  predicate IsOnZoneBorder(x: int, y: int, z: ZoneDefinition) {
    var b := z.bounds;
    IsInsideZone(x, y, z) && (x == b.x || x == b.x + b.width - 1 || y == b.y || y == b.y + b.height - 1)
  }

  /** A border tile is inside the zone, and the far edges `x + width`, `y + height` are outside it. */
  lemma BorderInsideAndHalfOpen(x: int, y: int, z: ZoneDefinition)
    ensures IsOnZoneBorder(x, y, z) ==> IsInsideZone(x, y, z)
    ensures !IsInsideZone(z.bounds.x + z.bounds.width, y, z) && !IsInsideZone(x, z.bounds.y + z.bounds.height, z)
    ensures z.bounds.width > 0 && z.bounds.height > 0 ==> IsOnZoneBorder(z.bounds.x, z.bounds.y, z)
  {
  }

  /** The first zone in `zones` whose bounds contain the tile. */
  function ZoneAt(zones: seq<ZoneDefinition>, x: int, y: int): (r: Option<ZoneDefinition>)
    ensures r.Some? ==> r.value in zones && IsInsideZone(x, y, r.value)
    ensures r.None? <==> forall z :: z in zones ==> !IsInsideZone(x, y, z)
  {
    if zones == [] then None
    else if IsInsideZone(x, y, zones[0]) then Some(zones[0])
    else ZoneAt(zones[1..], x, y)
  }

  /** `ZoneAt` picks the earliest containing zone. */
  lemma {:induction false} ZoneAtIsFirst(zones: seq<ZoneDefinition>, x: int, y: int)
    ensures var r := ZoneAt(zones, x, y);
      r.Some? ==> exists i :: (0 <= i < |zones| && zones[i] == r.value
        && forall j :: 0 <= j < i ==> !IsInsideZone(x, y, zones[j]))
  {
    if zones != [] && !IsInsideZone(x, y, zones[0]) {
      ZoneAtIsFirst(zones[1..], x, y);
      var r := ZoneAt(zones, x, y);
      if r.Some? {
        var i :| 0 <= i < |zones[1..]| && zones[1..][i] == r.value
          && forall j :: 0 <= j < i ==> !IsInsideZone(x, y, zones[1..][j]);
        assert zones[i + 1] == r.value;
        forall j | 0 <= j < i + 1 ensures !IsInsideZone(x, y, zones[j]) {
          if j > 0 {
            assert zones[j] == zones[1..][j - 1];
          }
        }
      }
    }
  }

  /** The `(id, zone)` pairs the zone tables are built from, in list order. */
  function ById(zones: seq<ZoneDefinition>): (r: seq<(string, ZoneDefinition)>)
    ensures |r| == |zones| && forall i :: 0 <= i < |zones| ==> r[i] == (zones[i].id, zones[i])
  {
    seq(|zones|, i requires 0 <= i < |zones| => (zones[i].id, zones[i]))
  }

  /** No two built-in zones share an id. */
  lemma ZoneDefsIdsDistinct()
    ensures forall i, j :: 0 <= i < j < |ZoneDefs| ==> ZoneDefs[i].id != ZoneDefs[j].id
  {
  }

  /** No tile lies in two built-in zones, so the first containing zone is the only one. */
  lemma ZoneDefsDisjoint(x: int, y: int)
    ensures forall i, j :: 0 <= i < j < |ZoneDefs| && IsInsideZone(x, y, ZoneDefs[i]) ==> !IsInsideZone(x, y, ZoneDefs[j])
  {
  }

  /** The boardroom spawn lies in the boardroom; a corridor tile between rooms lies in no zone. */
  lemma ZoneAtExamples()
    ensures ZoneAt(ZoneDefs, 20, 14) == Some(ZoneDefs[0])
    ensures ZoneAt(ZoneDefs, 10, 10) == None
  {
  }

  /** A zone whose bounds lie inside the map, one tile clear of the outer wall. */
  predicate Interior(z: ZoneDefinition) {
    var b := z.bounds;
    1 <= b.x && b.x + b.width <= MapWidth - 1 && 1 <= b.y && b.y + b.height <= MapHeight - 1
    && b.width >= 1 && b.height >= 1
  }

  lemma ZoneDefsInterior()
    ensures forall z :: z in ZoneDefs ==> Interior(z)
  {
  }

  predicate OnPerimeter(x: int, y: int) {
    x == 0 || x == MapWidth - 1 || y == 0 || y == MapHeight - 1
  }

  // ---------------------------------------------------------------------
  // Doorways and furniture layouts
  // ---------------------------------------------------------------------

  /** `getDoorways`: a two-tile opening on each side that does not face the outer wall. */
  function GetDoorways(z: ZoneDefinition): seq<Tile> {
    var b := z.bounds;
    var cx := b.x + b.width / 2;
    var cy := b.y + b.height / 2;
    (if b.y + b.height < MapHeight - 1 then [Tile(cx, b.y + b.height - 1), Tile(cx, b.y + b.height)] else [])
    + (if b.y > 1 then [Tile(cx, b.y), Tile(cx, b.y - 1)] else [])
    + (if b.x > 1 then [Tile(b.x, cy), Tile(b.x - 1, cy)] else [])
    + (if b.x + b.width < MapWidth - 1 then [Tile(b.x + b.width - 1, cy), Tile(b.x + b.width, cy)] else [])
  }

  /** Doorways of a zone clear of the outer wall never touch the perimeter. */
  lemma DoorwaysOffPerimeter(z: ZoneDefinition)
    requires Interior(z) && z.bounds.width >= 0 && z.bounds.height >= 0
    ensures forall d :: d in GetDoorways(z) ==> 0 < d.x < MapWidth - 1 && 0 < d.y < MapHeight - 1
  {
  }

  /** `fx` from `lo` while `fx < hi`, stepping by `step`, each at row `y`. */
  function Row(lo: int, hi: int, step: nat, y: int): (r: seq<Tile>)
    requires step > 0
    decreases hi - lo
    ensures forall t :: t in r ==> lo <= t.x < hi && t.y == y
  {
    if lo >= hi then [] else [Tile(lo, y)] + Row(lo + step, hi, step, y)
  }

  predicate StartsWith(s: string, prefix: string) {
    |prefix| <= |s| && s[..|prefix|] == prefix
  }

  /** The furniture candidates `placeFurniture` lists for a zone, before its guard. */
  function FurniturePositions(z: ZoneDefinition): seq<Tile> {
    var b := z.bounds;
    if z.id == "boardroom" then Row(b.x + 3, b.x + b.width - 3, 1, b.y + b.height / 2)
    else if z.id == "library" then Row(b.x + 2, b.x + b.width - 2, 2, b.y + 2)
    else if z.id == "breakroom" then [Tile(b.x + 3, b.y + 3), Tile(b.x + 5, b.y + 5)]
    else if z.id == "podium" then [Tile(b.x + b.width / 2, b.y + 2)]
    else if StartsWith(z.id, "office_") then
      (if b.x + 2 < b.x + b.width - 1 && b.y + 2 < b.y + b.height - 1 then [Tile(b.x + 2, b.y + 2)] else [])
    else []
  }

  /**
   * A tile that steps 2 and 3 of `generateMap` may write for zone `z`: a
   * border tile, a doorway, or a furniture candidate other than the zone's
   * spawn tile.
   */
  predicate Laid(z: ZoneDefinition, x: int, y: int) {
    || IsOnZoneBorder(x, y, z) || Tile(x, y) in GetDoorways(z)
    || (Tile(x, y) in FurniturePositions(z) && Tile(x, y) != z.spawnTile)
  }

  /** Some zone of `zones` may write tile (x, y). */
  predicate Touched(zones: seq<ZoneDefinition>, x: int, y: int) {
    exists z :: z in zones && Laid(z, x, y)
  }

  /** Within one tile of zone `z`'s bounds. */
  predicate Near(z: ZoneDefinition, x: int, y: int) {
    var b := z.bounds;
    b.x - 1 <= x <= b.x + b.width && b.y - 1 <= y <= b.y + b.height
  }

  /** Inside zone `z` and off its border. */
  predicate Inner(z: ZoneDefinition, x: int, y: int) {
    IsInsideZone(x, y, z) && !IsOnZoneBorder(x, y, z)
  }

  /** Two zones with at least one tile of corridor between them. */
  predicate Separated(z: ZoneDefinition, w: ZoneDefinition) {
    var a := z.bounds;
    var b := w.bounds;
    a.x + a.width < b.x || b.x + b.width < a.x || a.y + a.height < b.y || b.y + b.height < a.y
  }

  /** Each doorway tile is on the zone's border or just outside it, never in its inner part. */
  lemma DoorwaysAtEdge(z: ZoneDefinition)
    requires z.bounds.width >= 1 && z.bounds.height >= 1
    ensures forall d :: d in GetDoorways(z) ==> Near(z, d.x, d.y) && !Inner(z, d.x, d.y)
  {
  }

  /** A tile near one of two separated zones lies outside the other. */
  lemma NearIsOutside(z: ZoneDefinition, w: ZoneDefinition, x: int, y: int)
    requires Separated(z, w)
    ensures Near(z, x, y) ==> !IsInsideZone(x, y, w)
  {
  }

  /** Every built-in spawn tile lies in the inner part of its zone. */
  lemma ZoneDefsSpawnsInner()
    ensures forall z :: z in ZoneDefs ==> Inner(z, z.spawnTile.x, z.spawnTile.y)
  {
  }

  /** Every furniture candidate of a built-in zone lies inside that zone. */
  lemma ZoneDefsFurnitureInside()
    ensures forall z, p :: z in ZoneDefs && p in FurniturePositions(z) ==> IsInsideZone(p.x, p.y, z)
  {
    forall z | z in ZoneDefs
      ensures forall p :: p in FurniturePositions(z) ==> IsInsideZone(p.x, p.y, z)
    {
      FurnitureInside(z);
    }
  }

  /** A zone of at least 6 by 6 tiles, or an office, keeps its furniture candidates inside its bounds. */
  lemma FurnitureInside(z: ZoneDefinition)
    requires z.bounds.width >= 1 && z.bounds.height >= 1
    requires (z.bounds.width >= 6 && z.bounds.height >= 6) || StartsWith(z.id, "office_")
    ensures forall p :: p in FurniturePositions(z) ==> IsInsideZone(p.x, p.y, z)
  {
    if z.id in ["boardroom", "library", "breakroom", "podium"] {
      assert !StartsWith(z.id, "office_") by {
        assert z.id[0] != 'o';
      }
    }
  }

  /** Any two built-in zones have a corridor between them. */
  lemma ZoneDefsSeparated()
    ensures forall i, j :: 0 <= i < |ZoneDefs| && 0 <= j < |ZoneDefs| && i != j ==> Separated(ZoneDefs[i], ZoneDefs[j])
  {
  }

  /** Zone `w` writes nothing on the inner spawn tile of zone `z` when it is `z` itself or separated from it. */
  lemma SpawnNotLaid(z: ZoneDefinition, w: ZoneDefinition)
    requires Inner(z, z.spawnTile.x, z.spawnTile.y) && w.bounds.width >= 1 && w.bounds.height >= 1
    requires w == z || (Separated(w, z) && forall p :: p in FurniturePositions(w) ==> IsInsideZone(p.x, p.y, w))
    ensures !Laid(w, z.spawnTile.x, z.spawnTile.y)
  {
    DoorwaysAtEdge(w);
    if w != z {
      NearIsOutside(w, z, z.spawnTile.x, z.spawnTile.y);
    }
  }

  /** Every spawn tile of `zones` lies off the outer wall, and no zone of `zones` writes it. */
  predicate SpawnsClear(zones: seq<ZoneDefinition>) {
    forall z :: z in zones ==>
      0 < z.spawnTile.x < MapWidth - 1 && 0 < z.spawnTile.y < MapHeight - 1 && !Touched(zones, z.spawnTile.x, z.spawnTile.y)
  }

  /** No built-in zone writes a spawn tile, its own or another's, and every spawn tile is off the outer wall. */
  lemma SpawnTilesClear()
    ensures SpawnsClear(ZoneDefs)
  {
    ZoneDefsInterior();
    ZoneDefsSpawnsInner();
    ZoneDefsFurnitureInside();
    ZoneDefsSeparated();
    forall i, j | 0 <= i < |ZoneDefs| && 0 <= j < |ZoneDefs|
      ensures !Laid(ZoneDefs[j], ZoneDefs[i].spawnTile.x, ZoneDefs[i].spawnTile.y)
    {
      SpawnNotLaid(ZoneDefs[i], ZoneDefs[j]);
    }
  }

  /** No doorway of a zone lies on another zone's border. */
  predicate DoorwaysClear(zones: seq<ZoneDefinition>) {
    forall j, k, d :: 0 <= j < |zones| && 0 <= k < |zones| && j != k && d in GetDoorways(zones[j]) ==>
      !IsOnZoneBorder(d.x, d.y, zones[k])
  }

  /** No doorway of a built-in zone lies on another built-in zone's border, so no later wall closes it. */
  lemma DoorwaysStayOpen()
    ensures DoorwaysClear(ZoneDefs)
  {
    ZoneDefsInterior();
    ZoneDefsSeparated();
    forall j, k, d | 0 <= j < |ZoneDefs| && 0 <= k < |ZoneDefs| && j != k && d in GetDoorways(ZoneDefs[j])
      ensures !IsOnZoneBorder(d.x, d.y, ZoneDefs[k])
    {
      DoorwaysAtEdge(ZoneDefs[j]);
      NearIsOutside(ZoneDefs[j], ZoneDefs[k], d.x, d.y);
    }
  }

  // ---------------------------------------------------------------------
  // Grids
  // ---------------------------------------------------------------------

  /** Every cell is walkable exactly when it holds neither a wall nor furniture. */
  ghost predicate Consistent(obstacles: array2<TileType>, walkable: array2<bool>)
    reads obstacles, walkable
  {
    && obstacles.Length0 == walkable.Length0 && obstacles.Length1 == walkable.Length1
    && forall y, x :: 0 <= y < obstacles.Length0 && 0 <= x < obstacles.Length1 ==>
         (walkable[y, x] <==> obstacles[y, x] != Wall && obstacles[y, x] != Furniture)
  }

  predicate IsMapSized<T>(g: array2<T>) {
    g.Length0 == MapHeight && g.Length1 == MapWidth
  }

  /** The outer ring of the grid is wall (and so, on a consistent map, not walkable). */
  ghost predicate PerimeterWalled(obstacles: array2<TileType>)
    reads obstacles
    requires IsMapSized(obstacles)
  {
    forall y, x :: 0 <= y < MapHeight && 0 <= x < MapWidth && OnPerimeter(x, y) ==> obstacles[y, x] == Wall
  }

  /** Every cell other than `(x, y)` holds what it held before. */
  twostate predicate OthersUnchanged(obstacles: array2<TileType>, walkable: array2<bool>, x: int, y: int)
    reads obstacles, walkable
    requires IsMapSized(obstacles) && IsMapSized(walkable)
  {
    forall r, c :: 0 <= r < MapHeight && 0 <= c < MapWidth && (r != y || c != x) ==>
      obstacles[r, c] == old(obstacles[r, c]) && walkable[r, c] == old(walkable[r, c])
  }

  /** Wall or door: what a zone's border holds once its walls are up. */
  predicate Sealed(t: TileType) {
    t == Wall || t == Door
  }

  /** Every border tile of the first `n` zones is a wall or a door. */
  ghost predicate Enclosed(zones: seq<ZoneDefinition>, n: nat, obstacles: array2<TileType>)
    reads obstacles
    requires n <= |zones| && IsMapSized(obstacles)
  {
    forall j, y, x :: 0 <= j < n && 0 <= y < MapHeight && 0 <= x < MapWidth && IsOnZoneBorder(x, y, zones[j]) ==>
      Sealed(obstacles[y, x])
  }

  /** No zone after `zones[j]` among the first `n` has a border tile at (x, y). */
  predicate Unwalled(zones: seq<ZoneDefinition>, j: nat, n: nat, x: int, y: int)
    requires n <= |zones|
  {
    forall k :: j < k < n ==> !IsOnZoneBorder(x, y, zones[k])
  }

  /** Every in-map doorway of the first `n` zones is a door, unless a later zone's wall lies over it. */
  ghost predicate DoorsOpen(zones: seq<ZoneDefinition>, n: nat, obstacles: array2<TileType>)
    reads obstacles
    requires n <= |zones| && IsMapSized(obstacles)
  {
    forall j, d :: 0 <= j < n && d in GetDoorways(zones[j]) && InMap(d) && Unwalled(zones, j, n, d.x, d.y) ==>
      obstacles[d.y, d.x] == Door
  }

  /**
   * Every furniture candidate of the first `n` zones that lies strictly
   * inside the map and off its zone's spawn tile holds furniture, unless a
   * wall or a door was there first.
   */
  ghost predicate Furnished(zones: seq<ZoneDefinition>, n: nat, obstacles: array2<TileType>)
    reads obstacles
    requires n <= |zones| && IsMapSized(obstacles)
  {
    forall j, p :: 0 <= j < n && p in FurniturePositions(zones[j]) && StrictlyInside(p) && p != zones[j].spawnTile ==>
      obstacles[p.y, p.x] == Furniture || Sealed(obstacles[p.y, p.x])
  }

  /** `createEmptyGrid(width, height, fill)`: `height` rows of `width` cells, all `fill`. */
  method CreateEmptyGrid<T>(width: nat, height: nat, fill: T) returns (g: array2<T>)
    ensures fresh(g) && g.Length0 == height && g.Length1 == width
    ensures forall y, x :: 0 <= y < height && 0 <= x < width ==> g[y, x] == fill
  {
    g := new T[height, width]((_, _) => fill);
  }

  /**
   * One write of the source's paired assignments `obstacles[y][x] = t;
   * walkable[y][x] = ...`: walls and furniture block, doors and floor do not.
   */
  method SetTile(obstacles: array2<TileType>, walkable: array2<bool>, x: int, y: int, t: TileType)
    requires IsMapSized(obstacles) && IsMapSized(walkable) && Consistent(obstacles, walkable)
    requires 0 <= x < MapWidth && 0 <= y < MapHeight
    modifies obstacles, walkable
    ensures Consistent(obstacles, walkable)
    ensures obstacles[y, x] == t && OthersUnchanged(obstacles, walkable, x, y)
  {
    obstacles[y, x] := t;
    walkable[y, x] := t != Wall && t != Furniture;
  }

  /** Step 1 of `generateMap`: walls along the four map edges; no other cell changes. */
  method BuildPerimeter(obstacles: array2<TileType>, walkable: array2<bool>)
    requires IsMapSized(obstacles) && IsMapSized(walkable) && Consistent(obstacles, walkable)
    modifies obstacles, walkable
    ensures Consistent(obstacles, walkable) && PerimeterWalled(obstacles)
    ensures forall y, x :: 0 <= y < MapHeight && 0 <= x < MapWidth && !OnPerimeter(x, y) ==>
      obstacles[y, x] == old(obstacles[y, x]) && walkable[y, x] == old(walkable[y, x])
  {
    var x := 0;
    while x < MapWidth
      invariant 0 <= x <= MapWidth
      invariant Consistent(obstacles, walkable)
      invariant forall r, c :: 0 <= r < MapHeight && 0 <= c < MapWidth ==>
        if (r == 0 || r == MapHeight - 1) && c < x then obstacles[r, c] == Wall
        else obstacles[r, c] == old(obstacles[r, c]) && walkable[r, c] == old(walkable[r, c])
    {
      SetTile(obstacles, walkable, x, 0, Wall);
      SetTile(obstacles, walkable, x, MapHeight - 1, Wall);
      x := x + 1;
    }
    var y := 0;
    while y < MapHeight
      invariant 0 <= y <= MapHeight
      invariant Consistent(obstacles, walkable)
      invariant forall r, c :: 0 <= r < MapHeight && 0 <= c < MapWidth ==>
        if r == 0 || r == MapHeight - 1 || ((c == 0 || c == MapWidth - 1) && r < y) then obstacles[r, c] == Wall
        else obstacles[r, c] == old(obstacles[r, c]) && walkable[r, c] == old(walkable[r, c])
    {
      SetTile(obstacles, walkable, 0, y, Wall);
      SetTile(obstacles, walkable, MapWidth - 1, y, Wall);
      y := y + 1;
    }
  }

  /** Step 2a of `generateMap`: walls on every border tile of one zone; nothing else changes. */
  method BuildZoneWalls(z: ZoneDefinition, obstacles: array2<TileType>, walkable: array2<bool>)
    requires Interior(z)
    requires IsMapSized(obstacles) && IsMapSized(walkable) && Consistent(obstacles, walkable)
    modifies obstacles, walkable
    ensures Consistent(obstacles, walkable)
    ensures forall y, x :: 0 <= y < MapHeight && 0 <= x < MapWidth ==>
      if IsOnZoneBorder(x, y, z) then obstacles[y, x] == Wall
      else obstacles[y, x] == old(obstacles[y, x]) && walkable[y, x] == old(walkable[y, x])
  {
    var b := z.bounds;
    var x := b.x;
    while x < b.x + b.width
      invariant b.x <= x <= b.x + b.width
      invariant Consistent(obstacles, walkable)
      invariant forall r, c :: 0 <= r < MapHeight && 0 <= c < MapWidth ==>
        if IsOnZoneBorder(c, r, z) && c < x then obstacles[r, c] == Wall
        else obstacles[r, c] == old(obstacles[r, c]) && walkable[r, c] == old(walkable[r, c])
    {
      var y := b.y;
      while y < b.y + b.height
        invariant b.y <= y <= b.y + b.height
        invariant Consistent(obstacles, walkable)
        invariant forall r, c :: 0 <= r < MapHeight && 0 <= c < MapWidth ==>
          if IsOnZoneBorder(c, r, z) && (c < x || (c == x && r < y)) then obstacles[r, c] == Wall
          else obstacles[r, c] == old(obstacles[r, c]) && walkable[r, c] == old(walkable[r, c])
      {
        if IsOnZoneBorder(x, y, z) {
          SetTile(obstacles, walkable, x, y, Wall);
        }
        y := y + 1;
      }
      x := x + 1;
    }
  }

  predicate InMap(t: Tile) {
    0 <= t.x < MapWidth && 0 <= t.y < MapHeight
  }

  /** Step 2b of `generateMap`: every doorway tile inside the map becomes a walkable door. */
  method CutDoorways(doors: seq<Tile>, obstacles: array2<TileType>, walkable: array2<bool>)
    requires IsMapSized(obstacles) && IsMapSized(walkable) && Consistent(obstacles, walkable)
    modifies obstacles, walkable
    ensures Consistent(obstacles, walkable)
    ensures forall d :: d in doors && InMap(d) ==> obstacles[d.y, d.x] == Door && walkable[d.y, d.x]
    ensures forall y, x :: 0 <= y < MapHeight && 0 <= x < MapWidth && Tile(x, y) !in doors ==>
      obstacles[y, x] == old(obstacles[y, x]) && walkable[y, x] == old(walkable[y, x])
  {
    var i := 0;
    while i < |doors|
      invariant 0 <= i <= |doors|
      invariant Consistent(obstacles, walkable)
      invariant forall j :: 0 <= j < i && InMap(doors[j]) ==> obstacles[doors[j].y, doors[j].x] == Door
      invariant forall y, x :: 0 <= y < MapHeight && 0 <= x < MapWidth && Tile(x, y) !in doors[..i] ==>
        obstacles[y, x] == old(obstacles[y, x]) && walkable[y, x] == old(walkable[y, x])
    {
      var d := doors[i];
      if 0 <= d.x < MapWidth && 0 <= d.y < MapHeight {
        SetTile(obstacles, walkable, d.x, d.y, Door);
      }
      assert doors[..i + 1] == doors[..i] + [d];
      i := i + 1;
    }
  }

  /** The first half of the guard of `placeFurniture`: strictly inside the outer wall. */
  predicate StrictlyInside(p: Tile) {
    0 < p.x < MapWidth - 1 && 0 < p.y < MapHeight - 1
  }

  /** The rest of the guard: off the zone's spawn tile, and not on a wall or a door. */
  predicate FurnitureAllowed(z: ZoneDefinition, p: Tile, current: TileType) {
    p != z.spawnTile && current != Wall && current != Door
  }

  /**
   * `placeFurniture`: each listed position that passes the guard becomes
   * non-walkable furniture; every changed tile is such a position.
   */
  method PlaceFurniture(z: ZoneDefinition, obstacles: array2<TileType>, walkable: array2<bool>)
    requires IsMapSized(obstacles) && IsMapSized(walkable) && Consistent(obstacles, walkable)
    modifies obstacles, walkable
    ensures Consistent(obstacles, walkable)
    ensures forall p :: p in FurniturePositions(z) && StrictlyInside(p) && FurnitureAllowed(z, p, old(obstacles[p.y, p.x])) ==>
      obstacles[p.y, p.x] == Furniture
    ensures forall y, x :: 0 <= y < MapHeight && 0 <= x < MapWidth && obstacles[y, x] != old(obstacles[y, x]) ==>
      obstacles[y, x] == Furniture && Tile(x, y) in FurniturePositions(z) && StrictlyInside(Tile(x, y))
      && FurnitureAllowed(z, Tile(x, y), old(obstacles[y, x]))
    ensures forall y, x :: 0 <= y < MapHeight && 0 <= x < MapWidth && obstacles[y, x] == old(obstacles[y, x]) ==>
      walkable[y, x] == old(walkable[y, x])
  {
    var positions := FurniturePositions(z);
    var i := 0;
    while i < |positions|
      invariant 0 <= i <= |positions|
      invariant Consistent(obstacles, walkable)
      invariant forall j :: 0 <= j < i ==>
        (StrictlyInside(positions[j]) && FurnitureAllowed(z, positions[j], old(obstacles[positions[j].y, positions[j].x])) ==>
         obstacles[positions[j].y, positions[j].x] == Furniture)
      invariant forall y, x :: 0 <= y < MapHeight && 0 <= x < MapWidth && obstacles[y, x] != old(obstacles[y, x]) ==>
        obstacles[y, x] == Furniture && Tile(x, y) in positions[..i] && StrictlyInside(Tile(x, y))
        && FurnitureAllowed(z, Tile(x, y), old(obstacles[y, x]))
      invariant forall y, x :: 0 <= y < MapHeight && 0 <= x < MapWidth && obstacles[y, x] == old(obstacles[y, x]) ==>
        walkable[y, x] == old(walkable[y, x])
    {
      var p := positions[i];
      if 0 < p.x < MapWidth - 1 && 0 < p.y < MapHeight - 1 && p != z.spawnTile
         && obstacles[p.y, p.x] != Wall && obstacles[p.y, p.x] != Door
      {
        SetTile(obstacles, walkable, p.x, p.y, Furniture);
      }
      assert positions[..i + 1] == positions[..i] + [p];
      i := i + 1;
    }
  }

  /**
   * One round of the first loop of step 2: zone `i`'s walls, then its
   * doorways. Only that zone's border and doorway tiles change.
   */
  method Enclose(zones: seq<ZoneDefinition>, i: nat, obstacles: array2<TileType>, walkable: array2<bool>)
    requires i < |zones| && Interior(zones[i])
    requires IsMapSized(obstacles) && IsMapSized(walkable) && Consistent(obstacles, walkable) && PerimeterWalled(obstacles)
    requires Enclosed(zones, i, obstacles) && DoorsOpen(zones, i, obstacles)
    modifies obstacles, walkable
    ensures Consistent(obstacles, walkable) && PerimeterWalled(obstacles)
    ensures Enclosed(zones, i + 1, obstacles) && DoorsOpen(zones, i + 1, obstacles)
    ensures forall y, x :: 0 <= y < MapHeight && 0 <= x < MapWidth && obstacles[y, x] != old(obstacles[y, x]) ==>
      Laid(zones[i], x, y)
  {
    BuildZoneWalls(zones[i], obstacles, walkable);
    DoorwaysOffPerimeter(zones[i]);
    CutDoorways(GetDoorways(zones[i]), obstacles, walkable);
  }

  /**
   * One round of the furniture loop (step 3): zone `i`'s furniture. Walls
   * and doors stay, and only that zone's furniture candidates change.
   */
  method Furnish(zones: seq<ZoneDefinition>, i: nat, obstacles: array2<TileType>, walkable: array2<bool>)
    requires i < |zones|
    requires IsMapSized(obstacles) && IsMapSized(walkable) && Consistent(obstacles, walkable) && PerimeterWalled(obstacles)
    requires Enclosed(zones, |zones|, obstacles) && DoorsOpen(zones, |zones|, obstacles) && Furnished(zones, i, obstacles)
    modifies obstacles, walkable
    ensures Consistent(obstacles, walkable) && PerimeterWalled(obstacles)
    ensures Enclosed(zones, |zones|, obstacles) && DoorsOpen(zones, |zones|, obstacles) && Furnished(zones, i + 1, obstacles)
    ensures forall y, x :: 0 <= y < MapHeight && 0 <= x < MapWidth && obstacles[y, x] != old(obstacles[y, x]) ==>
      Laid(zones[i], x, y)
  {
    PlaceFurniture(zones[i], obstacles, walkable);
  }

  /**
   * Steps 2 and 3 of `generateMap` over zones clear of the outer wall:
   * every zone border ends as wall or door, every doorway no later wall
   * covers is a door, every furniture candidate the guard lets through is
   * furniture, the perimeter survives, and only tiles some zone lays
   * change.
   */
  method BuildZones(zones: seq<ZoneDefinition>, obstacles: array2<TileType>, walkable: array2<bool>)
    requires forall z :: z in zones ==> Interior(z)
    requires IsMapSized(obstacles) && IsMapSized(walkable) && Consistent(obstacles, walkable)
    requires PerimeterWalled(obstacles)
    modifies obstacles, walkable
    ensures Consistent(obstacles, walkable) && PerimeterWalled(obstacles)
    ensures Enclosed(zones, |zones|, obstacles) && DoorsOpen(zones, |zones|, obstacles) && Furnished(zones, |zones|, obstacles)
    ensures forall y, x :: 0 <= y < MapHeight && 0 <= x < MapWidth && obstacles[y, x] != old(obstacles[y, x]) ==>
      Touched(zones, x, y)
  {
    var i := 0;
    while i < |zones|
      invariant 0 <= i <= |zones|
      invariant Consistent(obstacles, walkable) && PerimeterWalled(obstacles)
      invariant Enclosed(zones, i, obstacles) && DoorsOpen(zones, i, obstacles)
      invariant forall y, x :: 0 <= y < MapHeight && 0 <= x < MapWidth && obstacles[y, x] != old(obstacles[y, x]) ==>
        Touched(zones, x, y)
    {
      Enclose(zones, i, obstacles, walkable);
      i := i + 1;
    }
    i := 0;
    while i < |zones|
      invariant 0 <= i <= |zones|
      invariant Consistent(obstacles, walkable) && PerimeterWalled(obstacles)
      invariant Enclosed(zones, |zones|, obstacles) && DoorsOpen(zones, |zones|, obstacles) && Furnished(zones, i, obstacles)
      invariant forall y, x :: 0 <= y < MapHeight && 0 <= x < MapWidth && obstacles[y, x] != old(obstacles[y, x]) ==>
        Touched(zones, x, y)
    {
      Furnish(zones, i, obstacles, walkable);
      i := i + 1;
    }
  }

  /**
   * `generateMap`: three 30 x 40 grids. The ground stays all floor, and
   * every cell is walkable exactly when it is neither wall nor furniture.
   * The outer ring ends as non-walkable wall, and every room border as
   * wall or door. Every doorway ends as a walkable door, and every
   * furniture candidate the guard lets through as furniture. Every other
   * cell inside the ring, every spawn tile included, ends as walkable
   * floor.
   */
  method GenerateMap() returns (ground: array2<TileType>, obstacles: array2<TileType>, walkable: array2<bool>, zones: seq<ZoneDefinition>)
    ensures fresh(ground) && fresh(obstacles) && fresh(walkable)
    ensures IsMapSized(ground) && IsMapSized(obstacles) && IsMapSized(walkable)
    ensures forall y, x :: 0 <= y < MapHeight && 0 <= x < MapWidth ==> ground[y, x] == Floor
    ensures zones == ZoneDefs
    ensures LaidOut(zones, obstacles, walkable)
  {
    ground := CreateEmptyGrid(MapWidth, MapHeight, Floor);
    obstacles := CreateEmptyGrid(MapWidth, MapHeight, Floor);
    walkable := CreateEmptyGrid(MapWidth, MapHeight, true);
    zones := ZoneDefs;
    ZoneDefsInterior();
    DoorwaysStayOpen();
    SpawnTilesClear();
    Layout(zones, obstacles, walkable);
  }

  /**
   * The obstacle and walkability grids `generateMap` promises for
   * `zones`: consistent, the outer ring non-walkable wall, every zone
   * border wall or door, every doorway a walkable door, every furniture
   * candidate the guard lets through furniture, and every other cell inside
   * the ring walkable floor, every spawn tile included.
   */
  ghost predicate LaidOut(zones: seq<ZoneDefinition>, obstacles: array2<TileType>, walkable: array2<bool>)
    reads obstacles, walkable
    requires IsMapSized(obstacles) && IsMapSized(walkable)
  {
    && Consistent(obstacles, walkable) && PerimeterWalled(obstacles) && PerimeterBlocked(walkable)
    && Enclosed(zones, |zones|, obstacles) && Furnished(zones, |zones|, obstacles)
    && DoorsPassable(zones, obstacles, walkable) && BareWalkable(zones, obstacles, walkable)
    && SpawnsWalkable(zones, obstacles, walkable)
  }

  /** No outer-ring cell is walkable. */
  ghost predicate PerimeterBlocked(walkable: array2<bool>)
    reads walkable
    requires IsMapSized(walkable)
  {
    forall y, x :: 0 <= y < MapHeight && 0 <= x < MapWidth && OnPerimeter(x, y) ==> !walkable[y, x]
  }

  /** Every doorway is in the map, holds a door and can be walked through. */
  ghost predicate DoorsPassable(zones: seq<ZoneDefinition>, obstacles: array2<TileType>, walkable: array2<bool>)
    reads obstacles, walkable
    requires IsMapSized(obstacles) && IsMapSized(walkable)
  {
    forall j, d :: 0 <= j < |zones| && d in GetDoorways(zones[j]) ==>
      InMap(d) && obstacles[d.y, d.x] == Door && walkable[d.y, d.x]
  }

  /** Every cell inside the outer ring that no zone writes is walkable floor. */
  ghost predicate BareWalkable(zones: seq<ZoneDefinition>, obstacles: array2<TileType>, walkable: array2<bool>)
    reads obstacles, walkable
    requires IsMapSized(obstacles) && IsMapSized(walkable)
  {
    forall y, x :: 0 <= y < MapHeight && 0 <= x < MapWidth && !OnPerimeter(x, y) && !Touched(zones, x, y) ==>
      obstacles[y, x] == Floor && walkable[y, x]
  }

  /** Every zone's spawn tile is walkable floor. */
  ghost predicate SpawnsWalkable(zones: seq<ZoneDefinition>, obstacles: array2<TileType>, walkable: array2<bool>)
    reads obstacles, walkable
    requires IsMapSized(obstacles) && IsMapSized(walkable)
  {
    forall z :: z in zones ==>
      InMap(z.spawnTile) && obstacles[z.spawnTile.y, z.spawnTile.x] == Floor && walkable[z.spawnTile.y, z.spawnTile.x]
  }

  /** Steps 1 to 3 of `generateMap` on an all-floor, all-walkable pair of grids. */
  method Layout(zones: seq<ZoneDefinition>, obstacles: array2<TileType>, walkable: array2<bool>)
    requires (forall z :: z in zones ==> Interior(z)) && DoorwaysClear(zones) && SpawnsClear(zones)
    requires IsMapSized(obstacles) && IsMapSized(walkable)
    requires forall y, x :: 0 <= y < MapHeight && 0 <= x < MapWidth ==> obstacles[y, x] == Floor && walkable[y, x]
    modifies obstacles, walkable
    ensures LaidOut(zones, obstacles, walkable)
  {
    BuildPerimeter(obstacles, walkable);
    assert forall y, x :: 0 <= y < MapHeight && 0 <= x < MapWidth && !OnPerimeter(x, y) ==> obstacles[y, x] == Floor;
    BuildZones(zones, obstacles, walkable);
    assert Bare(zones, obstacles);
    DoorsOpened(zones, obstacles);
    Settled(zones, obstacles, walkable);
  }

  /** Every cell inside the outer ring that no zone writes is floor. */
  ghost predicate Bare(zones: seq<ZoneDefinition>, obstacles: array2<TileType>)
    reads obstacles
    requires IsMapSized(obstacles)
  {
    forall y, x :: 0 <= y < MapHeight && 0 <= x < MapWidth && !OnPerimeter(x, y) && !Touched(zones, x, y) ==>
      obstacles[y, x] == Floor
  }

  /** Every doorway of `zones` is in the map and holds a door. */
  ghost predicate DoorsCut(zones: seq<ZoneDefinition>, obstacles: array2<TileType>)
    reads obstacles
    requires IsMapSized(obstacles)
  {
    forall j, d :: 0 <= j < |zones| && d in GetDoorways(zones[j]) ==> InMap(d) && obstacles[d.y, d.x] == Door
  }

  /** The grids once built: walkability follows the tiles, and the spawn tiles are among the bare cells. */
  lemma Settled(zones: seq<ZoneDefinition>, obstacles: array2<TileType>, walkable: array2<bool>)
    requires IsMapSized(obstacles) && IsMapSized(walkable) && Consistent(obstacles, walkable) && PerimeterWalled(obstacles)
    requires Enclosed(zones, |zones|, obstacles) && Furnished(zones, |zones|, obstacles)
    requires DoorsCut(zones, obstacles) && Bare(zones, obstacles) && SpawnsClear(zones)
    ensures LaidOut(zones, obstacles, walkable)
  {
    PerimeterIsBlocked(obstacles, walkable);
    DoorsArePassable(zones, obstacles, walkable);
    BareIsWalkable(zones, obstacles, walkable);
    SpawnsAreWalkable(zones, obstacles, walkable);
  }

  /** A walled outer ring is not walkable. */
  lemma PerimeterIsBlocked(obstacles: array2<TileType>, walkable: array2<bool>)
    requires IsMapSized(obstacles) && IsMapSized(walkable) && Consistent(obstacles, walkable) && PerimeterWalled(obstacles)
    ensures PerimeterBlocked(walkable)
  {
  }

  /** A door is walkable. */
  lemma DoorsArePassable(zones: seq<ZoneDefinition>, obstacles: array2<TileType>, walkable: array2<bool>)
    requires IsMapSized(obstacles) && IsMapSized(walkable) && Consistent(obstacles, walkable) && DoorsCut(zones, obstacles)
    ensures DoorsPassable(zones, obstacles, walkable)
  {
  }

  /** Floor is walkable. */
  lemma BareIsWalkable(zones: seq<ZoneDefinition>, obstacles: array2<TileType>, walkable: array2<bool>)
    requires IsMapSized(obstacles) && IsMapSized(walkable) && Consistent(obstacles, walkable) && Bare(zones, obstacles)
    ensures BareWalkable(zones, obstacles, walkable)
  {
  }

  /** A spawn tile off the ring that no zone writes is walkable floor. */
  lemma SpawnsAreWalkable(zones: seq<ZoneDefinition>, obstacles: array2<TileType>, walkable: array2<bool>)
    requires IsMapSized(obstacles) && IsMapSized(walkable) && Consistent(obstacles, walkable)
    requires Bare(zones, obstacles) && SpawnsClear(zones)
    ensures SpawnsWalkable(zones, obstacles, walkable)
  {
    forall z | z in zones
      ensures InMap(z.spawnTile) && obstacles[z.spawnTile.y, z.spawnTile.x] == Floor
    {
      assert !OnPerimeter(z.spawnTile.x, z.spawnTile.y) && !Touched(zones, z.spawnTile.x, z.spawnTile.y);
    }
  }

  /** When no doorway lies on another zone's border, every doorway is a door. */
  lemma DoorsOpened(zones: seq<ZoneDefinition>, obstacles: array2<TileType>)
    requires IsMapSized(obstacles) && (forall z :: z in zones ==> Interior(z)) && DoorwaysClear(zones)
    requires DoorsOpen(zones, |zones|, obstacles)
    ensures DoorsCut(zones, obstacles)
  {
    forall j | 0 <= j < |zones|
      ensures forall d :: d in GetDoorways(zones[j]) ==> InMap(d) && obstacles[d.y, d.x] == Door
    {
      forall d | d in GetDoorways(zones[j])
        ensures InMap(d) && obstacles[d.y, d.x] == Door
      {
        DoorOpened(zones, obstacles, j, d);
      }
    }
  }

  /** One doorway of zone `j`: in the map, and no later zone walls it over. */
  lemma DoorOpened(zones: seq<ZoneDefinition>, obstacles: array2<TileType>, j: nat, d: Tile)
    requires IsMapSized(obstacles) && j < |zones| && Interior(zones[j]) && DoorwaysClear(zones)
    requires DoorsOpen(zones, |zones|, obstacles) && d in GetDoorways(zones[j])
    ensures InMap(d) && obstacles[d.y, d.x] == Door
  {
    DoorwaysOffPerimeter(zones[j]);
    forall k | j < k < |zones|
      ensures !IsOnZoneBorder(d.x, d.y, zones[k])
    {
      assert j != k;
    }
    assert Unwalled(zones, j, |zones|, d.x, d.y);
  }
}
