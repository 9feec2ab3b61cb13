/** The map: a square of tiles centred on a chosen location and attached to
    an AR anchor (SinglePlayer/MapBuilder.cs), with the session host's
    broadcast of the map (Multiplayer/HostMapBuilder.cs) and the client's
    collection of tiles received from the host (Multiplayer/ClientMapBuilder.cs). */
module MapBuilders {
  import opened Numerics
  import opened Tiles
  import opened Network
  import opened MapTiles

  /** Where an AR anchor sits. */
  datatype Pose = Pose(position: Vec3, rotation: Quaternion)

  /** The builder's serialized defaults and `ShowMap`'s default location. */
  const DefaultZoomLevel: int := 12
  const DefaultMapTileSize: real := 0.5
  const DefaultMapSize: real := 12.0
  const MontBlancLatitude: real := 45.832675
  const MontBlancLongitude: real := 6.865166
  const UnitScale := Vec3(1.0, 1.0, 1.0)

  /** `(int)(MapSize / 2)`: the tiles run from `-size` to `size` on both axes. */
  function HalfSize(mapSize: real): int {
    Truncate(mapSize / 2.0)
  }

  /** Tiles per row. */
  function RowLength(size: nat): (w: nat)
    ensures w >= 1
  {
    2 * size + 1
  }

  /** The number of tiles `LoadTiles` visits; none when `size` is negative. */
  function SlotCount(size: int): nat {
    if size < 0 then 0 else RowLength(size) * RowLength(size)
  }

  /** The x and y offsets of the `k`-th tile visited: x in the outer loop,
      y in the inner one, so each row of `RowLength(size)` visits moves x on
      by one and starts y again at `-size`. */
  function SlotX(size: nat, k: nat): int {
    if k < RowLength(size) then -(size as int) else SlotX(size, k - RowLength(size)) + 1
  }

  function SlotY(size: nat, k: nat): int {
    if k < RowLength(size) then k - size else SlotY(size, k - RowLength(size))
  }

  /** The tile shown at offset (x, y) from the centre tile. */
  function SlotTile(center: TileInfo, zoom: int, mapTileSize: real, x: int, y: int): TileInfo {
    TileInfo(center.x - x, center.y + y, zoom, mapTileSize)
  }

  /** `string.Format("({0},{1})", x, y)`. */
  function SlotName(x: int, y: int): string {
    "(" + IntToString(x) + "," + IntToString(y) + ")"
  }

  /** Where a new tile at offset (x, y) is placed in the anchor's frame. */
  function SlotPosition(mapTileSize: real, x: int, y: int): Vec3 {
    Vec3(mapTileSize * x as real, 0.0, mapTileSize * y as real)
  }

  /** The position of offset (x, y) in the visiting order: whole rows of
      `RowLength(size)` tiles for each x before it, then y's place in its row. */
  function SlotIndex(size: nat, x: int, y: int): int
    requires -(size as int) <= x
    decreases x + size
  {
    if x == -(size as int) then y + size else SlotIndex(size, x - 1, y) + RowLength(size)
  }

  lemma {:induction false} SlotIndexIsRowMajor(size: nat, x: int, y: int)
    requires -(size as int) <= x
    ensures SlotIndex(size, x, y) == (x + size) * RowLength(size) + (y + size)
    decreases x + size
  {
    if x != -(size as int) {
      SlotIndexIsRowMajor(size, x - 1, y);
    }
  }

  /** The next offset in a row is the next visit, and a row ends where the
      next one begins. */
  lemma SlotIndexSteps(size: nat, x: int, y: int)
    requires -(size as int) <= x
    ensures SlotIndex(size, x, y + 1) == SlotIndex(size, x, y) + 1
    ensures SlotIndex(size, x + 1, -(size as int)) == SlotIndex(size, x, size + 1)
  {
    SlotIndexIsRowMajor(size, x, y);
    SlotIndexIsRowMajor(size, x, y + 1);
    SlotIndexIsRowMajor(size, x + 1, -(size as int));
    SlotIndexIsRowMajor(size, x, size + 1);
  }

  /** The visit after the last row is the end of the square. */
  lemma SlotIndexAfterLastRow(size: nat)
    ensures SlotIndex(size, size + 1, -(size as int)) == SlotCount(size)
  {
    SlotIndexIsRowMajor(size, size + 1, -(size as int));
  }

  /** Each cell of the square is visited at `SlotIndex`, and that visit has
      the cell's offsets. */
  lemma {:induction false} SlotIndexIsTheCell(size: nat, x: int, y: int)
    requires -(size as int) <= x && -(size as int) <= y <= size
    ensures SlotIndex(size, x, y) >= 0
    ensures SlotX(size, SlotIndex(size, x, y)) == x && SlotY(size, SlotIndex(size, x, y)) == y
    decreases x + size
  {
    if x != -(size as int) {
      SlotIndexIsTheCell(size, x - 1, y);
    }
  }

  /** A row's visits all come before the next row's first one. */
  lemma SlotIndexInRow(size: nat, x: int, y: int)
    requires -(size as int) <= x && -(size as int) <= y <= size
    ensures SlotIndex(size, x, y) < SlotIndex(size, x + 1, -(size as int))
  {
    var w := RowLength(size);
    SlotIndexIsRowMajor(size, x, y);
    SlotIndexIsRowMajor(size, x + 1, -(size as int));
    assert (x + 1 + size) * w == (x + size) * w + w;
  }

  /** The rows of the square end by `SlotCount`. */
  lemma RowEndsInTheSquare(size: nat, x: int)
    requires -(size as int) <= x <= size
    ensures SlotIndex(size, x + 1, -(size as int)) <= SlotCount(size)
  {
    var w := RowLength(size);
    SlotIndexIsRowMajor(size, x + 1, -(size as int));
    MulMonotone(x + 1 + size, w, w);
  }

  /** The cells of the square are visited before `SlotCount`. */
  lemma SlotIndexInTheSquare(size: nat, x: int, y: int)
    requires -(size as int) <= x <= size && -(size as int) <= y <= size
    ensures 0 <= SlotIndex(size, x, y) < SlotCount(size)
  {
    var w, a, b := RowLength(size), x + size, y + size;
    SlotIndexIsRowMajor(size, x, y);
    MulMonotone(a + 1, w, w);
    assert a * w + w == (a + 1) * w;
  }

  lemma {:induction false} SlotYInRow(size: nat, k: nat)
    ensures -(size as int) <= SlotY(size, k) <= size
    decreases k
  {
    if k >= RowLength(size) {
      SlotYInRow(size, k - RowLength(size));
    }
  }

  /** Visit `k` is in one of the first `rows` rows when `k < rows * w`. */
  lemma {:induction false} SlotXBelowRows(size: nat, k: nat, rows: nat)
    requires k < rows * RowLength(size)
    ensures -(size as int) <= SlotX(size, k) < rows - size
    decreases k
  {
    var w := RowLength(size);
    if k >= w {
      assert (rows - 1) * w == rows * w - w;
      SlotXBelowRows(size, k - w, rows - 1);
    }
  }

  /** Every visit lands inside the square. */
  lemma VisitsStayInTheSquare(size: nat, k: nat)
    requires k < SlotCount(size)
    ensures -(size as int) <= SlotX(size, k) <= size && -(size as int) <= SlotY(size, k) <= size
  {
    SlotXBelowRows(size, k, RowLength(size));
    SlotYInRow(size, k);
  }

  lemma {:induction false} SlotXAtLeast(size: nat, k: nat)
    ensures SlotX(size, k) >= -(size as int)
    decreases k
  {
    if k >= RowLength(size) {
      SlotXAtLeast(size, k - RowLength(size));
    }
  }

  /** Different visits land on different cells. */
  lemma {:induction false} SlotsAreDistinct(size: nat, k: nat, k': nat)
    requires k != k'
    ensures SlotX(size, k) != SlotX(size, k') || SlotY(size, k) != SlotY(size, k')
    decreases k + k'
  {
    var w := RowLength(size);
    if k >= w && k' >= w {
      SlotsAreDistinct(size, k - w, k' - w);
    } else if k >= w {
      SlotXAtLeast(size, k - w);
    } else if k' >= w {
      SlotXAtLeast(size, k' - w);
    }
  }

  /** `"(" + a + "," + b + ")"` determines `a` and `b` when neither holds a comma. */
  lemma PairNameParts(a: string, b: string, a': string, b': string)
    requires ',' !in a && ',' !in a'
    requires "(" + a + "," + b + ")" == "(" + a' + "," + b' + ")"
    ensures a == a' && b == b'
  {
    var n, n' := "(" + a + "," + b + ")", "(" + a' + "," + b' + ")";
    assert n[1..] == a + [','] + (b + ")");
    assert n'[1..] == a' + [','] + (b' + ")");
    SplitAtSeparator(a, b + ")", a', b' + ")", ',');
    assert b == (b + ")")[..|b|] && b' == (b' + ")")[..|b'|];
  }

  /** Tile names tell the offsets apart. */
  lemma SlotNameIdentifiesSlot(x: int, y: int, x': int, y': int)
    ensures SlotName(x, y) == SlotName(x', y') <==> x == x' && y == y'
  {
    if SlotName(x, y) == SlotName(x', y') {
      NotInIntToString(x, ',');
      NotInIntToString(x', ',');
      PairNameParts(IntToString(x), IntToString(y), IntToString(x'), IntToString(y'));
      IntToStringInjective(x, x');
      IntToStringInjective(y, y');
    }
  }

  /** A loaded map's tiles carry pairwise distinct names and show pairwise
      distinct tiles, so the tile updates a host broadcasts can be told apart. */
  lemma LoadedSlotsAreDistinct(center: TileInfo, zoom: int, mapTileSize: real, size: nat, k: nat, k': nat)
    requires k != k'
    ensures SlotName(SlotX(size, k), SlotY(size, k)) != SlotName(SlotX(size, k'), SlotY(size, k'))
    ensures !Equals(SlotTile(center, zoom, mapTileSize, SlotX(size, k), SlotY(size, k)),
                    Some(SlotTile(center, zoom, mapTileSize, SlotX(size, k'), SlotY(size, k'))))
  {
    SlotsAreDistinct(size, k, k');
    SlotNameIdentifiesSlot(SlotX(size, k), SlotY(size, k), SlotX(size, k'), SlotY(size, k'));
  }

  /** The middle visit shows the centre tile itself, named "(0,0)". */
  lemma MiddleSlotIsTheCentre(center: TileInfo, zoom: int, mapTileSize: real, size: nat)
    ensures 0 <= SlotIndex(size, 0, 0) < SlotCount(size)
    ensures var k := SlotIndex(size, 0, 0) as nat;
      SlotX(size, k) == 0 && SlotY(size, k) == 0
      && SlotName(SlotX(size, k), SlotY(size, k)) == "(0,0)"
      && Equals(SlotTile(center, zoom, mapTileSize, SlotX(size, k), SlotY(size, k)), Some(center)) == (zoom == center.zoom)
  {
    SlotIndexIsTheCell(size, 0, 0);
    SlotIndexInTheSquare(size, 0, 0);
  }

  /** What the visit at offset (x, y) gives its tile: the tile shown, the
      name, and where a new tile is placed. */
  datatype Slot = Slot(tile: TileInfo, name: string, position: Vec3)

  function SlotAt(center: TileInfo, zoom: int, mapTileSize: real, x: int, y: int): Slot {
    Slot(SlotTile(center, zoom, mapTileSize, x, y), SlotName(x, y), SlotPosition(mapTileSize, x, y))
  }

  /** The visits of the square of half-size `size`, in `LoadTiles`' order. */
  function SlotPlan(center: TileInfo, zoom: int, mapTileSize: real, size: nat): (p: seq<Slot>)
    ensures |p| == SlotCount(size)
  {
    FirstSlots(center, zoom, mapTileSize, size, SlotCount(size))
  }

  function FirstSlots(center: TileInfo, zoom: int, mapTileSize: real, size: nat, n: nat): (p: seq<Slot>)
    ensures |p| == n
  {
    if n == 0 then []
    else FirstSlots(center, zoom, mapTileSize, size, n - 1) + [SlotAt(center, zoom, mapTileSize, SlotX(size, n - 1), SlotY(size, n - 1))]
  }

  lemma {:induction false} FirstSlotsAt(center: TileInfo, zoom: int, mapTileSize: real, size: nat, n: nat, k: nat)
    requires k < n
    ensures FirstSlots(center, zoom, mapTileSize, size, n)[k] == SlotAt(center, zoom, mapTileSize, SlotX(size, k), SlotY(size, k))
  {
    if k < n - 1 {
      FirstSlotsAt(center, zoom, mapTileSize, size, n - 1, k);
    }
  }

  lemma SlotPlanAt(center: TileInfo, zoom: int, mapTileSize: real, size: nat, k: nat)
    requires k < SlotCount(size)
    ensures SlotPlan(center, zoom, mapTileSize, size)[k] == SlotAt(center, zoom, mapTileSize, SlotX(size, k), SlotY(size, k))
  {
    FirstSlotsAt(center, zoom, mapTileSize, size, SlotCount(size), k);
  }

  /** `if (!list.Contains(t)) list.Add(t)`. */
  function WithTile(ts: seq<MapTile>, t: MapTile): seq<MapTile> {
    if t in ts then ts else ts + [t]
  }

  predicate Distinct(ts: seq<MapTile>) {
    forall i, j :: 0 <= i < j < |ts| ==> ts[i] != ts[j]
  }

  /** Adding keeps every tile, adds at most one, keeps the list free of
      duplicates, and adding the same tile twice is adding it once. */
  lemma WithTileProperties(ts: seq<MapTile>, t: MapTile)
    ensures t in WithTile(ts, t)
    ensures ts <= WithTile(ts, t) && |WithTile(ts, t)| <= |ts| + 1
    ensures forall u :: u in WithTile(ts, t) <==> u in ts || u == t
    ensures WithTile(WithTile(ts, t), t) == WithTile(ts, t)
    ensures Distinct(ts) ==> Distinct(WithTile(ts, t))
  {
  }

  /** `tiles` are the first tiles of the map `m`, which began as `start` and
      has grown only as far as `tiles` needed. */
  predicate Listed(m: seq<MapTile>, tiles: seq<MapTile>, start: seq<MapTile>) {
    |tiles| <= |m| && tiles == m[..|tiles|]
    && |start| <= |m| && m[..|start|] == start
    && |m| == (if |start| < |tiles| then |tiles| else |start|)
  }

  lemma ListedExtends(m: seq<MapTile>, m': seq<MapTile>, tiles: seq<MapTile>, start: seq<MapTile>, t: MapTile)
    requires Listed(m, tiles, start)
    requires |tiles| < |m| ==> m' == m && t == m[|tiles|]
    requires |tiles| >= |m| ==> m' == m + [t]
    ensures Listed(m', tiles + [t], start)
  {
    if |tiles| >= |m| {
      assert m'[..|start|] == m[..|start|];
    }
    assert (tiles + [t]) == m'[..|tiles| + 1];
  }

  /** The tasks queued since `startTasks` are all running and all for `tiles`. */
  predicate Queued(tasks: seq<ElevationTask>, startTasks: seq<ElevationTask>, tiles: seq<MapTile>) {
    |startTasks| <= |tasks| && tasks[..|startTasks|] == startTasks
    && forall j :: |startTasks| <= j < |tasks| ==> tasks[j].status == Running && tasks[j].tile in tiles
  }

  lemma QueuedExtends(tasks: seq<ElevationTask>, tasks': seq<ElevationTask>, startTasks: seq<ElevationTask>,
                      tiles: seq<MapTile>, t: MapTile)
    requires Queued(tasks, startTasks, tiles)
    requires tasks' == tasks || exists r :: tasks' == tasks + [ElevationTask(t, r, Running)]
    ensures Queued(tasks', startTasks, tiles + [t])
  {
    if tasks' != tasks {
      assert tasks'[..|startTasks|] == tasks[..|startTasks|];
    }
  }

  /** The elevation download a visit showing `slotTile` queues for `tile`,
      whose tile data was `shown`: one unless `tile` already showed it. */
  function VisitTasks(proj: Projection, tile: MapTile, slotTile: TileInfo, shown: Option<TileInfo>): seq<ElevationTask>
    requires SampleableVertexCount(|tile.vertices|)
    reads tile`vertices
  {
    if Equals(slotTile, shown) then [] else [ElevationTask(tile, SampleGrid(proj, slotTile, |tile.vertices|), Running)]
  }

  /** The updates `SendToNetwork` broadcasts for each tile, in list order. */
  function TileMessages(ts: seq<MapTile>): (ms: seq<Message>)
    reads set t | t in ts
    ensures |ms| == |ts|
    ensures forall i :: 0 <= i < |ts| ==>
      ms[i] == Message(MessageId, UpdateHost(ts[i].vertices, ts[i].imageUrl, ts[i].name))
  {
    if ts == [] then []
    else
      var n := |ts| - 1;
      assert forall i :: 0 <= i < n ==> ts[..n][i] == ts[i];
      TileMessages(ts[..n]) + [ts[n].TileMessage()]
  }

  class MapBuilder {
    /** Whether this is the single-player builder, the host's or a client's. */
    const role: Role
    /** The mesh of `MapTilePrefab`. */
    const prefabVertices: seq<Vec3>
    var zoomLevel: int
    var mapTileSize: real
    var mapSize: real
    var centerTile: Option<TileInfo>
    var mapTiles: seq<MapTile>
    var isCurrentlyTracking: bool
    var anchor: Option<Pose>
    var position: Vec3
    var rotation: Quaternion
    var localScale: Vec3
    var name: string

    /** The tiles are pairwise distinct and of this builder's kind. */
    predicate Valid()
      reads this`mapTiles
    {
      Distinct(mapTiles) && forall t :: t in mapTiles ==> t.role == role
    }

    /** Every tile's texture URL is the one of its tile data. */
    predicate UrlsFit()
      reads this`mapTiles, (set t | t in mapTiles)`tileData, (set t | t in mapTiles)`imageUrl
      reads (set t | t in mapTiles)`name
    {
      forall t :: t in mapTiles ==> UrlFits(t.Showing())
    }

    /** The field initialisers, then `Start`. */
    constructor (role: Role, prefabVertices: seq<Vec3>)
      ensures Valid()
      ensures this.role == role && this.prefabVertices == prefabVertices
      ensures zoomLevel == DefaultZoomLevel && mapTileSize == DefaultMapTileSize && mapSize == DefaultMapSize
      ensures centerTile == None && mapTiles == [] && isCurrentlyTracking && anchor == None
      ensures position == Origin && rotation == IdentityRotation && localScale == UnitScale && name == "Map"
    {
      this.role := role;
      this.prefabVertices := prefabVertices;
      zoomLevel := DefaultZoomLevel;
      mapTileSize := DefaultMapTileSize;
      mapSize := DefaultMapSize;
      centerTile := None;
      mapTiles := [];
      isCurrentlyTracking := true;
      anchor := None;
      position := Origin;
      rotation := IdentityRotation;
      localScale := UnitScale;
      name := "Map";
    }

    /** Drops tracking and takes the new anchor, then attaches to it. */
    method SetSelectedPlane(statics: MapTileStatics, proj: Projection, newAnchor: Pose)
      returns (tiles: seq<MapTile>)
      requires Valid() && UrlsFit()
      requires SampleableVertexCount(|prefabVertices|)
      requires forall t :: t in mapTiles ==> SampleableVertexCount(|t.vertices|)
      modifies this`isCurrentlyTracking, this`anchor, this`position, this`rotation, this`centerTile
      modifies this`mapTiles, statics`tasks
      modifies (set t | t in mapTiles)`tileData, (set t | t in mapTiles)`imageUrl, (set t | t in mapTiles)`name
      ensures Valid() && UrlsFit()
      ensures !isCurrentlyTracking && anchor == Some(newAnchor)
      ensures position == newAnchor.position && rotation == newAnchor.rotation
      ensures centerTile == Some(FromCoordinate(proj, WorldCoordinate(MontBlancLatitude, MontBlancLongitude),
                                                zoomLevel, mapTileSize))
      ensures Displays(tiles, HalfSize(mapSize)) && old(mapTiles) <= mapTiles
      ensures |tiles| == SlotCount(HalfSize(mapSize)) && tiles == mapTiles[..|tiles|]
      ensures |mapTiles| == if |old(mapTiles)| < |tiles| then |tiles| else |old(mapTiles)|
      ensures forall k :: |tiles| <= k < |old(mapTiles)| ==> mapTiles[k].Showing() == old(mapTiles[k].Showing())
      ensures SlotCount(HalfSize(mapSize)) <= |old(mapTiles)| ==> mapTiles == old(mapTiles)
      ensures forall k :: |old(mapTiles)| <= k < |mapTiles| ==> NewTile(mapTiles[k], k, HalfSize(mapSize))
      ensures old(statics.tasks) <= statics.tasks
      ensures forall j :: |old(statics.tasks)| <= j < |statics.tasks| ==>
        statics.tasks[j].status == Running && statics.tasks[j].tile in tiles
    {
      isCurrentlyTracking := false;
      anchor := Some(newAnchor);
      tiles := CreateAnchor(statics, proj);
    }

    /** Moves the map onto the anchor and shows the default location. */
    method CreateAnchor(statics: MapTileStatics, proj: Projection) returns (tiles: seq<MapTile>)
      requires Valid() && UrlsFit() && anchor.Some?
      requires SampleableVertexCount(|prefabVertices|)
      requires forall t :: t in mapTiles ==> SampleableVertexCount(|t.vertices|)
      modifies this`position, this`rotation, this`centerTile, this`mapTiles, statics`tasks
      modifies (set t | t in mapTiles)`tileData, (set t | t in mapTiles)`imageUrl, (set t | t in mapTiles)`name
      ensures Valid() && UrlsFit()
      ensures position == anchor.value.position && rotation == anchor.value.rotation
      ensures centerTile == Some(FromCoordinate(proj, WorldCoordinate(MontBlancLatitude, MontBlancLongitude),
                                                zoomLevel, mapTileSize))
      ensures Displays(tiles, HalfSize(mapSize)) && old(mapTiles) <= mapTiles
      ensures |tiles| == SlotCount(HalfSize(mapSize)) && tiles == mapTiles[..|tiles|]
      ensures |mapTiles| == if |old(mapTiles)| < |tiles| then |tiles| else |old(mapTiles)|
      ensures forall k :: |tiles| <= k < |old(mapTiles)| ==> mapTiles[k].Showing() == old(mapTiles[k].Showing())
      ensures SlotCount(HalfSize(mapSize)) <= |old(mapTiles)| ==> mapTiles == old(mapTiles)
      ensures forall k :: |old(mapTiles)| <= k < |mapTiles| ==> NewTile(mapTiles[k], k, HalfSize(mapSize))
      ensures old(statics.tasks) <= statics.tasks
      ensures forall j :: |old(statics.tasks)| <= j < |statics.tasks| ==>
        statics.tasks[j].status == Running && statics.tasks[j].tile in tiles
    {
      position := anchor.value.position;
      rotation := anchor.value.rotation;
      tiles := ShowMap(statics, proj, MontBlancLatitude, MontBlancLongitude);
    }

    /** `tiles` are the first `SlotCount` tiles of the map, each showing the
        tile of its offset from the centre tile and named after that offset. */
    predicate Displays(tiles: seq<MapTile>, size: int)
      reads this, set t | t in tiles
    {
      centerTile.Some? && size >= 0 ==>
        |tiles| == SlotCount(size) && |tiles| <= |mapTiles| && tiles == mapTiles[..|tiles|]
        && forall k :: 0 <= k < |tiles| ==>
          Equals(SlotTile(centerTile.value, zoomLevel, mapTileSize, SlotX(size, k), SlotY(size, k)), tiles[k].tileData)
          && tiles[k].name == SlotName(SlotX(size, k), SlotY(size, k))
          && tiles[k].imageUrl == TileImageUrl(SlotTile(centerTile.value, zoomLevel, mapTileSize, SlotX(size, k), SlotY(size, k)))
    }

    /** Centres the map on the tile containing the location, then loads it. */
    method ShowMap(statics: MapTileStatics, proj: Projection, latitude: real, longitude: real)
      returns (tiles: seq<MapTile>)
      requires Valid() && UrlsFit()
      requires anchor.Some? || SlotCount(HalfSize(mapSize)) <= |mapTiles|
      requires SampleableVertexCount(|prefabVertices|)
      requires forall t :: t in mapTiles ==> SampleableVertexCount(|t.vertices|)
      modifies this`centerTile, this`mapTiles, statics`tasks
      modifies (set t | t in mapTiles)`tileData, (set t | t in mapTiles)`imageUrl, (set t | t in mapTiles)`name
      ensures Valid() && UrlsFit()
      ensures centerTile == Some(FromCoordinate(proj, WorldCoordinate(latitude, longitude), zoomLevel, mapTileSize))
      ensures Displays(tiles, HalfSize(mapSize)) && old(mapTiles) <= mapTiles
      ensures |tiles| == SlotCount(HalfSize(mapSize)) && tiles == mapTiles[..|tiles|]
      ensures |mapTiles| == if |old(mapTiles)| < |tiles| then |tiles| else |old(mapTiles)|
      ensures forall k :: |tiles| <= k < |old(mapTiles)| ==> mapTiles[k].Showing() == old(mapTiles[k].Showing())
      ensures SlotCount(HalfSize(mapSize)) <= |old(mapTiles)| ==> mapTiles == old(mapTiles)
      ensures forall k :: |old(mapTiles)| <= k < |mapTiles| ==> NewTile(mapTiles[k], k, HalfSize(mapSize))
      ensures old(statics.tasks) <= statics.tasks
      ensures forall j :: |old(statics.tasks)| <= j < |statics.tasks| ==>
        statics.tasks[j].status == Running && statics.tasks[j].tile in tiles
    {
      centerTile := Some(FromCoordinate(proj, WorldCoordinate(latitude, longitude), zoomLevel, mapTileSize));
      tiles := LoadTiles(statics, proj);
    }

    /** Visits the square of offsets row by row, reusing the map's `k`-th tile
        for the `k`-th offset or creating it, gives each its tile and name, and
        returns them in visiting order for `OnEndLoading`. */
    method LoadTiles(statics: MapTileStatics, proj: Projection) returns (tiles: seq<MapTile>)
      requires Valid() && UrlsFit() && centerTile.Some?
      requires anchor.Some? || SlotCount(HalfSize(mapSize)) <= |mapTiles|
      requires SampleableVertexCount(|prefabVertices|)
      requires forall t :: t in mapTiles ==> SampleableVertexCount(|t.vertices|)
      modifies this`mapTiles, statics`tasks
      modifies (set t | t in mapTiles)`tileData, (set t | t in mapTiles)`imageUrl, (set t | t in mapTiles)`name
      ensures Valid() && UrlsFit() && Displays(tiles, HalfSize(mapSize))
      ensures |tiles| == SlotCount(HalfSize(mapSize)) && tiles == mapTiles[..|tiles|]
      ensures old(mapTiles) <= mapTiles
      ensures |mapTiles| == if |old(mapTiles)| < |tiles| then |tiles| else |old(mapTiles)|
      ensures forall k :: |tiles| <= k < |old(mapTiles)| ==> mapTiles[k].Showing() == old(mapTiles[k].Showing())
      ensures SlotCount(HalfSize(mapSize)) <= |old(mapTiles)| ==> mapTiles == old(mapTiles)
      ensures forall k :: |old(mapTiles)| <= k < |mapTiles| ==> NewTile(mapTiles[k], k, HalfSize(mapSize))
      ensures old(statics.tasks) <= statics.tasks
      ensures forall j :: |old(statics.tasks)| <= j < |statics.tasks| ==>
        statics.tasks[j].status == Running && statics.tasks[j].tile in tiles
    {
      tiles := LoadSquare(statics, proj, HalfSize(mapSize));
    }

    /** `LoadTiles`' loops over the square of half-size `size`. */
    method LoadSquare(statics: MapTileStatics, proj: Projection, size: int) returns (tiles: seq<MapTile>)
      requires Valid() && UrlsFit() && centerTile.Some?
      requires anchor.Some? || SlotCount(size) <= |mapTiles|
      requires SampleableVertexCount(|prefabVertices|)
      requires forall t :: t in mapTiles ==> SampleableVertexCount(|t.vertices|)
      modifies this`mapTiles, statics`tasks
      modifies (set t | t in mapTiles)`tileData, (set t | t in mapTiles)`imageUrl, (set t | t in mapTiles)`name
      ensures Valid() && UrlsFit() && Displays(tiles, size)
      ensures |tiles| == SlotCount(size) && tiles == mapTiles[..|tiles|]
      ensures old(mapTiles) <= mapTiles
      ensures |mapTiles| == if |old(mapTiles)| < |tiles| then |tiles| else |old(mapTiles)|
      ensures forall k :: |tiles| <= k < |old(mapTiles)| ==> mapTiles[k].Showing() == old(mapTiles[k].Showing())
      ensures forall k :: |old(mapTiles)| <= k < |mapTiles| ==> NewTile(mapTiles[k], k, size)
      ensures old(statics.tasks) <= statics.tasks
      ensures forall j :: |old(statics.tasks)| <= j < |statics.tasks| ==>
        statics.tasks[j].status == Running && statics.tasks[j].tile in tiles
    {
      ghost var s: nat := if size < 0 then 0 else size;
      ghost var plan := SlotPlan(centerTile.value, zoomLevel, mapTileSize, s);
      ghost var start, startTasks := mapTiles, statics.tasks;
      var tileIndex := 0;
      tiles := [];
      LoadingStarts(statics, plan);
      var x := -size;
      while x <= size
        invariant size >= 0 ==> -size <= x <= size + 1 && tileIndex == SlotIndex(s, x, -size)
        invariant size < 0 ==> x == -size && tileIndex == 0
        invariant tileIndex == |tiles| && Loading(statics, tiles, plan, start, startTasks)
        invariant plan == SlotPlan(centerTile.value, zoomLevel, mapTileSize, s)
        invariant size >= 0 ==> anchor.Some? || |plan| <= |start|
        invariant forall k :: |tiles| <= k < |start| ==> start[k].Showing() == old(start[k].Showing())
      {
        RowEndsInTheSquare(size, x);
        tiles, tileIndex := LoadRow(statics, proj, x, tiles, tileIndex, size, plan, start, startTasks);
        x := x + 1;
      }
      if size >= 0 {
        SlotIndexAfterLastRow(s);
      }
      Loaded(statics, tiles, size, s, plan, start, startTasks);
    }

    /** `LoadTiles`' inner loop: the row of offsets (x, -size) .. (x, size). */
    method LoadRow(statics: MapTileStatics, proj: Projection, x: int, tiles: seq<MapTile>, tileIndex: int,
                   size: nat, ghost plan: seq<Slot>, ghost start: seq<MapTile>, ghost startTasks: seq<ElevationTask>)
      returns (tiles': seq<MapTile>, tileIndex': int)
      requires -(size as int) <= x <= size
      requires tileIndex == |tiles| == SlotIndex(size, x, -(size as int)) && Loading(statics, tiles, plan, start, startTasks)
      requires plan == SlotPlan(centerTile.value, zoomLevel, mapTileSize, size)
      requires SlotIndex(size, x + 1, -(size as int)) <= |plan| && (anchor.Some? || |plan| <= |start|)
      requires SampleableVertexCount(|prefabVertices|)
      modifies this`mapTiles, statics`tasks
      modifies (set t | t in start)`tileData, (set t | t in start)`imageUrl, (set t | t in start)`name
      ensures tileIndex' == |tiles'| == SlotIndex(size, x + 1, -(size as int))
      ensures Loading(statics, tiles', plan, start, startTasks)
      ensures forall k :: |tiles'| <= k < |start| ==> start[k].Showing() == old(start[k].Showing())
    {
      tiles', tileIndex' := tiles, tileIndex;
      var y := -(size as int);
      while y <= size
        invariant -(size as int) <= y <= size + 1
        invariant tileIndex' == |tiles'| == SlotIndex(size, x, y) && Loading(statics, tiles', plan, start, startTasks)
        invariant forall k :: |tiles'| <= k < |start| ==> start[k].Showing() == old(start[k].Showing())
      {
        SlotIndexIsTheCell(size, x, y);
        SlotIndexInRow(size, x, y);
        ghost var shown := if |tiles'| < |mapTiles| then mapTiles[|tiles'|].tileData else None;
        tiles' := PlaceTile(statics, proj, x, y, tiles', size, plan, start, startTasks, shown);
        SlotIndexSteps(size, x, y);
        tileIndex' := tileIndex' + 1;
        y := y + 1;
      }
      SlotIndexSteps(size, x, y);
    }

    /** Each of `tiles` shows the tile of its visit in `plan` and carries its
        name. */
    predicate ShowsSlots(tiles: seq<MapTile>, plan: seq<Slot>)
      reads (set t | t in tiles)`tileData, (set t | t in tiles)`name
    {
      |tiles| <= |plan|
      && forall k :: 0 <= k < |tiles| ==> Equals(plan[k].tile, tiles[k].tileData) && tiles[k].name == plan[k].name
    }

    /** Whether `t` is a copy of the prefab placed at `position`. */
    predicate PrefabCopy(t: MapTile, position: Vec3)
      reads t`vertices, t`lift, t`localRotation, t`localPosition
    {
      t.role == role && t.vertices == prefabVertices && t.lift == Offset(0.0)
      && t.localRotation == IdentityRotation && t.localPosition == position
    }

    /** Whether `t`, the map's `k`-th tile, is a copy of the prefab placed at
        its offset. */
    predicate NewTile(t: MapTile, k: nat, size: int)
      reads this`mapTileSize, t`vertices, t`lift, t`localRotation, t`localPosition
    {
      size >= 0 && PrefabCopy(t, SlotPosition(mapTileSize, SlotX(size, k), SlotY(size, k)))
    }

    /** Every tile's mesh can be sampled on a square grid. */
    predicate Sampleable()
      reads this`mapTiles, (set t | t in mapTiles)`vertices
    {
      forall t :: t in mapTiles ==> SampleableVertexCount(|t.vertices|)
    }

    /** The map's tiles from index `start` on are new copies of the prefab,
        placed where `plan` says. */
    predicate CreatedFrom(start: nat, plan: seq<Slot>)
      reads this`mapTiles
      reads (set t | t in mapTiles)`vertices, (set t | t in mapTiles)`lift
      reads (set t | t in mapTiles)`localRotation, (set t | t in mapTiles)`localPosition
    {
      forall k :: start <= k < |mapTiles| ==> k < |plan| && PrefabCopy(mapTiles[k], plan[k].position)
    }

    /** The state after `LoadTiles` has made the first `|tiles|` visits of
        `plan`, having started from the map `start` and the task list
        `startTasks`. */
    predicate Loading(statics: MapTileStatics, tiles: seq<MapTile>, plan: seq<Slot>,
                      start: seq<MapTile>, startTasks: seq<ElevationTask>)
      reads this, statics, set t | t in mapTiles
    {
      match centerTile
      case None => false
      case Some(_) =>
        Valid() && UrlsFit() && Listed(mapTiles, tiles, start)
        && ShowsSlots(tiles, plan) && Sampleable() && CreatedFrom(|start|, plan)
        && Queued(statics.tasks, startTasks, tiles)
    }

    /** Before the first visit, nothing has been loaded. */
    lemma LoadingStarts(statics: MapTileStatics, plan: seq<Slot>)
      requires Valid() && UrlsFit() && centerTile.Some? && Sampleable()
      ensures Loading(statics, [], plan, mapTiles, statics.tasks)
    {
      assert mapTiles[..|mapTiles|] == mapTiles && statics.tasks[..|statics.tasks|] == statics.tasks;
    }

    /** What `Loading` says once every offset has been visited. */
    lemma Loaded(statics: MapTileStatics, tiles: seq<MapTile>, size: int, s: nat, plan: seq<Slot>,
                 start: seq<MapTile>, startTasks: seq<ElevationTask>)
      requires Loading(statics, tiles, plan, start, startTasks)
      requires plan == SlotPlan(centerTile.value, zoomLevel, mapTileSize, s)
      requires |tiles| == SlotCount(size) && (size >= 0 ==> s == size)
      ensures Valid() && UrlsFit() && Displays(tiles, size)
      ensures tiles == mapTiles[..|tiles|] && start <= mapTiles
      ensures |mapTiles| == if |start| < |tiles| then |tiles| else |start|
      ensures forall k :: |start| <= k < |mapTiles| ==> NewTile(mapTiles[k], k, size)
      ensures startTasks <= statics.tasks
      ensures forall j :: |startTasks| <= j < |statics.tasks| ==>
        statics.tasks[j].status == Running && statics.tasks[j].tile in tiles
    {
      forall k | 0 <= k < |tiles|
        ensures Equals(SlotTile(centerTile.value, zoomLevel, mapTileSize, SlotX(s, k), SlotY(s, k)), tiles[k].tileData)
        ensures tiles[k].name == SlotName(SlotX(s, k), SlotY(s, k))
        ensures tiles[k].imageUrl == TileImageUrl(SlotTile(centerTile.value, zoomLevel, mapTileSize, SlotX(s, k), SlotY(s, k)))
      {
        SlotPlanAt(centerTile.value, zoomLevel, mapTileSize, s, k);
        assert tiles[k] in mapTiles && UrlFits(tiles[k].Showing());
        TileImageUrlIdentifiesTile(SlotTile(centerTile.value, zoomLevel, mapTileSize, SlotX(s, k), SlotY(s, k)),
                                   tiles[k].tileData.value);
      }
      forall k | |start| <= k < |mapTiles|
        ensures NewTile(mapTiles[k], k, size)
      {
        SlotPlanAt(centerTile.value, zoomLevel, mapTileSize, s, k);
      }
    }

    /** The map's `i`-th tile, as a set, when there is one. */
    function TileAt(i: nat): set<MapTile>
      reads this
    {
      if i < |mapTiles| then {mapTiles[i]} else {}
    }

    /** One pass of `LoadTiles`' inner loop: gets or creates the tile for
        offset (x, y), gives it its tile, names it, and adds it to `tiles`. */
    method PlaceTile(statics: MapTileStatics, proj: Projection, x: int, y: int, tiles: seq<MapTile>,
                     ghost size: nat, ghost plan: seq<Slot>, ghost start: seq<MapTile>,
                     ghost startTasks: seq<ElevationTask>, ghost shown: Option<TileInfo>)
      returns (tiles': seq<MapTile>)
      requires Loading(statics, tiles, plan, start, startTasks)
      requires shown == if |tiles| < |mapTiles| then mapTiles[|tiles|].tileData else None
      requires plan == SlotPlan(centerTile.value, zoomLevel, mapTileSize, size) && |tiles| < |plan|
      requires SlotX(size, |tiles|) == x && SlotY(size, |tiles|) == y
      requires |tiles| < |mapTiles| || anchor.Some?
      requires SampleableVertexCount(|prefabVertices|)
      modifies this`mapTiles, statics`tasks
      modifies TileAt(|tiles|)`tileData, TileAt(|tiles|)`imageUrl, TileAt(|tiles|)`name
      ensures Loading(statics, tiles', plan, start, startTasks) && |tiles'| == |tiles| + 1
      ensures forall k :: |tiles'| <= k < |start| ==> start[k].Showing() == old(start[k].Showing())
      ensures statics.tasks == old(statics.tasks) + VisitTasks(proj, tiles'[|tiles|], plan[|tiles|].tile, shown)
    {
      SlotPlanAt(centerTile.value, zoomLevel, mapTileSize, size, |tiles|);
      var tile := TakeTile(x, y, tiles, plan, start);
      ShowSlot(statics, proj, tile, x, y, tiles, plan, startTasks);
      tiles' := tiles + [tile];
      assert tiles'[|tiles|] == tile;
    }

    /** The first half of a pass: the tile for the next offset, taken from
        the map or added to it. */
    method TakeTile(x: int, y: int, tiles: seq<MapTile>, ghost plan: seq<Slot>, ghost start: seq<MapTile>)
      returns (tile: MapTile)
      requires Valid() && UrlsFit() && Listed(mapTiles, tiles, start) && Sampleable() && CreatedFrom(|start|, plan)
      requires |tiles| < |plan| && plan[|tiles|].position == SlotPosition(mapTileSize, x, y)
      requires |tiles| < |mapTiles| || anchor.Some?
      requires SampleableVertexCount(|prefabVertices|)
      modifies this`mapTiles
      ensures Valid() && UrlsFit() && Listed(mapTiles, tiles + [tile], start) && Sampleable() && CreatedFrom(|start|, plan)
      ensures tile in mapTiles && tile !in tiles && SampleableVertexCount(|tile.vertices|)
      ensures |tiles| < old(|mapTiles|) ==> mapTiles == old(mapTiles) && tile == mapTiles[|tiles|]
      ensures |tiles| >= old(|mapTiles|) ==>
        mapTiles == old(mapTiles) + [tile] && fresh(tile) && tile.tileData == None && tile.vertices == prefabVertices
    {
      tile := GetOrCreateTile(x, y, |tiles|);
      ListedExtends(old(mapTiles), mapTiles, tiles, start, tile);
      forall k | |start| <= k < |mapTiles|
        ensures k < |plan| && PrefabCopy(mapTiles[k], plan[k].position)
      {
        if k < old(|mapTiles|) {
          assert old(PrefabCopy(mapTiles[k], plan[k].position));
        }
      }
    }

    /** The second half of a pass: the tile shows its offset's tile, queues
        its elevation download and is named after the offset. */
    method ShowSlot(statics: MapTileStatics, proj: Projection, tile: MapTile, x: int, y: int, tiles: seq<MapTile>,
                    ghost plan: seq<Slot>, ghost startTasks: seq<ElevationTask>)
      requires centerTile.Some? && ShowsSlots(tiles, plan) && Queued(statics.tasks, startTasks, tiles)
      requires |tiles| < |plan| && plan[|tiles|] == SlotAt(centerTile.value, zoomLevel, mapTileSize, x, y)
      requires tile in mapTiles && tile !in tiles && SampleableVertexCount(|tile.vertices|) && UrlsFit()
      modifies tile`tileData, tile`imageUrl, tile`name, statics`tasks
      ensures ShowsSlots(tiles + [tile], plan) && Queued(statics.tasks, startTasks, tiles + [tile]) && UrlsFit()
      ensures statics.tasks == old(statics.tasks) + VisitTasks(proj, tile, plan[|tiles|].tile, old(tile.tileData))
    {
      ghost var tasks := statics.tasks;
      tile.SetTileData(statics, proj, Some(SlotTile(centerTile.value, zoomLevel, mapTileSize, x, y)));
      tile.name := SlotName(x, y);
      QueuedExtends(tasks, statics.tasks, startTasks, tiles, tile);
      assert ShowsSlots(tiles, plan);
      ShowsSlotsAppend(tiles, tile, plan);
    }

    lemma ShowsSlotsAppend(tiles: seq<MapTile>, tile: MapTile, plan: seq<Slot>)
      requires ShowsSlots(tiles, plan) && |tiles| < |plan|
      requires Equals(plan[|tiles|].tile, tile.tileData) && tile.name == plan[|tiles|].name
      ensures ShowsSlots(tiles + [tile], plan)
    {
      forall k | 0 <= k < |tiles|
        ensures (tiles + [tile])[k] == tiles[k]
      {
      }
    }

    /** The map's `i`-th tile when it has one; otherwise a new copy of the
        prefab under the anchor at (x * MapTileSize, 0, y * MapTileSize),
        appended to the map. */
    method GetOrCreateTile(x: int, y: int, i: nat) returns (tile: MapTile)
      requires Valid()
      requires i < |mapTiles| || anchor.Some?
      modifies this`mapTiles
      ensures Valid()
      ensures i < old(|mapTiles|) ==> mapTiles == old(mapTiles) && tile == mapTiles[i]
      ensures i >= old(|mapTiles|) ==>
        fresh(tile) && mapTiles == old(mapTiles) + [tile] && tile.role == role && tile.vertices == prefabVertices
        && tile.localPosition == SlotPosition(mapTileSize, x, y) && tile.localRotation == IdentityRotation
        && tile.lift == Offset(0.0) && tile.tileData == None && tile.name == ""
    {
      if |mapTiles| > 0 && |mapTiles| > i {
        return mapTiles[i];
      }
      tile := new MapTile(role, prefabVertices, SlotPosition(mapTileSize, x, y));
      mapTiles := mapTiles + [tile];
    }

    /** Scales the map and recentres it at the world origin. */
    method SetScale(scale: Vec3)
      modifies this`localScale, this`position
      ensures localScale == scale && position == Origin
    {
      localScale := scale;
      position := Origin;
    }

    /** A client keeps each tile received from the host once. */
    method AddTile(itm: MapTile)
      requires role == Client && itm.role == role && Valid()
      modifies this`mapTiles
      ensures Valid()
      ensures mapTiles == WithTile(old(mapTiles), itm)
    {
      if itm !in mapTiles {
        mapTiles := mapTiles + [itm];
      }
    }

    /** The host announces that the session has started. */
    method HostOnNetwork(net: Outbox)
      requires role == Host
      modifies net
      ensures net.sent == old(net.sent) + [Message(StartSessionId, StartSession(None))]
    {
      net.SendToAll(StartSessionId, StartSession(None));
    }

    /** The host broadcasts the map's rotation, then every tile in order. */
    method UpdateNetwork(net: Outbox)
      requires role == Host && Valid()
      modifies net
      ensures net.sent == old(net.sent) + [Message(RotationId, UpdateRotation(rotation))] + TileMessages(mapTiles)
    {
      net.SendToAll(RotationId, UpdateRotation(rotation));
      ghost var start, messages := net.sent, TileMessages(mapTiles);
      for i := 0 to |mapTiles|
        invariant net.sent == start + messages[..i]
      {
        mapTiles[i].SendToNetwork(net);
        assert messages[..i + 1] == messages[..i] + [messages[i]];
      }
      assert messages[..|mapTiles|] == messages;
    }
  }
}
