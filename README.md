# Terrain tiles for an AR map, in Dafny

This project models the terrain pipeline of an augmented-reality map
application written in C# for Unity, and proves properties of that model.
The application lays a square of slippy-map tiles on a detected plane. It
textures each tile from a satellite tile server and raises each mesh vertex
to the elevation an elevation service reports. Once every elevation has
arrived, it lowers the whole map so that its lowest point sits at height
zero. In a multiplayer session the host broadcasts every rebuilt tile and
the clients copy what they receive.

The model has six files:

- `numerics.dfy` (module `Numerics`) holds the shared value types:
  - 3-vectors and quaternions;
  - `Bound`, the single-precision accumulator that starts at +∞;
  - the minimum of a sequence of heights;
  - decimal rendering of integers, used for tile names and URLs, proved
    injective through a parse round trip.
- `tile_info.dfy` (module `Tiles`) models `TileInfo`:
  - tile identity (X, Y, zoom), equality and the 32-bit hash;
  - the zoom-scale table and `ScaleFactor`;
  - the corner helpers;
  - the elevation sample grid that `GetPointsLocations` builds. Its `for`
    loop is kept as a method.

  The two transcendental halves of the Web-Mercator tile numbering
  (`Log(Tan + 1/Cos)` and `Atan(Sinh)`) are a parameter of type
  `Projection`. Longitude is rational, so it is computed exactly.
- `network.dfy` (module `Network`) holds the session's message types and
  `NetworkServer.SendToAll`. A send is modelled as an append to an `Outbox`.
- `map_tile.dfy` (module `MapTiles`) models `MapTile`, `HostMapTile` and
  `ClientMapTile` as one class `MapTile` with a `role`.
  - `RebuildMesh` broadcasts the tile when the role is `Host`.
  - `NetworkUpdate` is only for `Client` tiles.
  - The static fields `minElevation`, `effectiveElevation` and `tasks` belong
    to a class `MapTileStatics`, passed explicitly.
- `map_builder.dfy` (module `MapBuilders`) models `MapBuilder`,
  `HostMapBuilder` and `ClientMapBuilder` as one class `MapBuilder`, again with
  a `role`. `LoadTiles`' two nested loops are kept as two methods, each with
  a `while` loop. Both are proved against a ghost plan of the visits:
  - which tile each offset shows;
  - the name it is given;
  - where a new tile is placed.
- `loading_cycles.dfy` (module `LoadingCycles`) holds end-to-end scenarios of
  loading cycles. The ones on one tile show which cycles lower the map. The
  one over a whole list of distinct tiles (`GroundMap`) shows that the first
  cycle puts the map's lowest vertex at height zero.

Asynchrony is modelled as explicit steps:

- `SetTileData` runs the synchronous part of
  `DownloadElevationDataFromWebAsync`, which builds the request, and records
  a task whose status is `Running` in `MapTileStatics.tasks`.
- `MapTileStatics.CompleteTask` delivers the service's answer to one of those
  tasks and runs the rest of the download: it applies the answer, feeds the
  running minimum and, on a host, broadcasts the tile.
- `OnEndLoading` is the code after `await Task.WhenAll(tasks)`, so it
  requires that no task is still running. When a task faulted, `WhenAll`
  rethrows and nothing after it runs.
- `LoadTiles` returns the list it would hand to `OnEndLoading`. The caller
  then completes the tasks and ends the cycle.

Behaviour of the code that the model keeps, which a reader might not expect:

- Clients run `ShowMap`/`LoadTiles` too. `ClientMapTile` inherits
  `SetTileData`, so a client's tiles download elevations themselves.
  `NetworkUpdate` then replaces a tile's vertices with the host's copy;
  `AddTile` only records the tile in the builder's list when it is absent.
- `GetPointsLocations` does not check that the vertex count is a perfect
  square.
- The lowering happens only while `effectiveElevation` is +∞. A cycle that
  received no elevation at all sets `effectiveElevation` back to +∞, so the
  cycle after it lowers the map a second time
  (`LoadingCycles.EmptyCycleRearmsLowering`). Lowering is therefore not
  once-only.
- `SetTileData` with a tile equal to the current one keeps the old
  `TileInfo` object, and with it the old `MapTileSize`.
- A reload with a smaller map leaves the tiles beyond the new square in
  `_mapTiles`, unchanged and still shown.
- At zoom 0 the longitude step, `|(|NE.Lon| - |SW.Lon|)| / (n - 1)`, is zero
  because the corners are at -180 and 180, so every sample point sits on the
  -180 meridian (`Tiles.ZoomZeroSamplesCollapse`). The latitude step is zero
  too: the corners are at about +85.05 and -85.05, so every sample is the
  single point at latitude -85.05 and longitude -180. The projection is a
  parameter, so this holds under the hypothesis that it is symmetric about
  the equator, as the exact one is (`Tiles.ZoomZeroSamplesAreOnePoint`). At
  zoom 1 and above a tile never straddles the equator or the prime meridian,
  and the grid spans the tile exactly (`Tiles.LastSampleIsNorthEast`).

## Model

| member | source | states |
|---|---|---|
| Numerics.MinBound | Assets/Assets/Scripts/SinglePlayer/MapTile.cs:20-27 | the accumulator keeps one of its two operands, and the value kept is at most both of them |
| Numerics.SeqMin | Assets/Assets/Scripts/SinglePlayer/MapTile.cs:105-114 | the running minimum is +∞ exactly for no vertices, at most every height, and, when finite, equal to one of the heights |
| Numerics.SeqMinShifted | Assets/Assets/Scripts/SinglePlayer/MapTile.cs:39-45 | translating every height by d moves the minimum by d |
| Numerics.SeqMinScaled | Assets/Assets/Scripts/SinglePlayer/MapTile.cs:110-113 | dividing every height by a positive scale divides the minimum by it |
| Numerics.SeqMinAppend | Assets/Assets/Scripts/SinglePlayer/MapTile.cs:20-27 | the minimum of two height lists put together is the smaller of their two minima, so feeding tiles one after another into the shared minimum gives the minimum of all their heights |
| Numerics.NatToStringIsDigits | Assets/Assets/Scripts/SinglePlayer/MapBuilder.cs:119 | a natural number renders as one or more decimal digits |
| Numerics.IntToStringShape | Assets/Assets/Scripts/SinglePlayer/MapBuilder.cs:119 | an integer renders as digits after one leading character, which is a digit exactly when the number is not negative |
| Numerics.NotInIntToString | Assets/Assets/Scripts/SinglePlayer/MapBuilder.cs:119 | no separator other than a digit or '-' occurs in a rendered integer |
| Numerics.IntToString | Assets/Assets/Scripts/SinglePlayer/MapBuilder.cs:119 | definition: `int.ToString()`, a '-' before the digits of a negative number; its meaning is stated by IntToStringShape and IntToStringRoundTrip |
| Numerics.NatToStringRoundTrip | Assets/Assets/Scripts/SinglePlayer/MapBuilder.cs:119 | reading the decimal rendering of n back gives n |
| Numerics.IntToStringRoundTrip | Assets/Assets/Scripts/SinglePlayer/MapBuilder.cs:119 | a rendered integer is an optional '-' and digits, and parsing it gives the integer back |
| Numerics.IntToStringInjective | Assets/Assets/Scripts/SinglePlayer/MapBuilder.cs:119 | distinct integers render as distinct strings |
| Tiles.TileCount | Assets/Assets/Scripts/GameObject/TileInfo.cs:124 | `Math.Pow(2, zoom)` is positive for every zoom, negative ones included |
| Tiles.Truncate | Assets/Assets/Scripts/GameObject/TileInfo.cs:18-19 | the `(int)` cast rounds toward zero: from below for non-negative values, from above for negative ones |
| Tiles.FromCoordinate | Assets/Assets/Scripts/GameObject/TileInfo.cs:12-21 | definition: the constructor from latitude and longitude, X and Y being the truncated Web-Mercator numbers of the point at 2^zoom tiles per side; NorthWestRoundTrip states that it inverts the corner of a tile |
| Tiles.NorthWestRoundTrip | Assets/Assets/Scripts/GameObject/TileInfo.cs:12-21 | building a tile from the north-west corner of tile (X, Y) gives tile (X, Y) back at the same zoom and size, when the projection's two halves are inverse |
| Tiles.Equals | Assets/Assets/Scripts/GameObject/TileInfo.cs:56-64 | definition: false for null, otherwise X, Y and zoom all agree; EqualsIsIdentity and EqualsIsEquivalence state its properties |
| Tiles.EqualsIsIdentity | Assets/Assets/Scripts/GameObject/TileInfo.cs:56-64 | no tile equals null; two tiles are equal exactly when X, Y and zoom agree; the tile size never matters |
| Tiles.EqualsIsEquivalence | Assets/Assets/Scripts/GameObject/TileInfo.cs:56-64 | tile equality is reflexive, symmetric and transitive |
| Tiles.HashCode | Assets/Assets/Scripts/GameObject/TileInfo.cs:66-75 | definition: the hash of the tile's X, Y and zoom by HashOf; EqualTilesHashEqually states that it agrees with Equals |
| Tiles.HashOf | Assets/Assets/Scripts/GameObject/TileInfo.cs:70-73 | definition: ((X·397) xor Y)·397 xor zoom on 32-bit two's-complement words, wrapping on overflow as the `unchecked` block does |
| Tiles.EqualTilesHashEqually | Assets/Assets/Scripts/GameObject/TileInfo.cs:66-75 | equal tiles have the same 32-bit wrapped hash, whatever their size |
| Tiles.ScaleFactor | Assets/Assets/Scripts/GameObject/TileInfo.cs:90-93 | the scale factor exists exactly for the zooms 0 to 19 of the 20-entry table, and it is positive |
| Tiles.ScaleFactorDecreasesWithZoom | Assets/Assets/Scripts/GameObject/TileInfo.cs:80-85 | a deeper zoom has a strictly smaller scale factor |
| Tiles.NorthWestLocation | Assets/Assets/Scripts/GameObject/TileInfo.cs:121-129 | definition: the north-west corner of tile (X, Y), longitude X/2^zoom·360 - 180 exactly and latitude through the projection |
| Tiles.NorthEast | Assets/Assets/Scripts/GameObject/TileInfo.cs:99-102 | definition: the north-west corner of tile (X+1, Y); CornersAreShared and TileLongitudeSpan state its relation to the other corners |
| Tiles.SouthWest | Assets/Assets/Scripts/GameObject/TileInfo.cs:109-112 | definition: the north-west corner of tile (X, Y+1); CornersAreShared states its relation to the other corners |
| Tiles.CornersAreShared | Assets/Assets/Scripts/GameObject/TileInfo.cs:99-112 | NE is the north-west corner of (X+1, Y), SW that of (X, Y+1), and NE is the SW corner of the neighbour (X+1, Y-1) |
| Tiles.TileLongitudeSpan | Assets/Assets/Scripts/GameObject/TileInfo.cs:121-129 | a tile spans exactly 360 / 2^zoom degrees of longitude from SW to NE |
| Tiles.Sqrt | Assets/Assets/Scripts/GameObject/TileInfo.cs:140 | the grid width is the integer square root of the vertex count |
| Tiles.LatFromSouthWest | Assets/Assets/Scripts/GameObject/TileInfo.cs:165-167 | definition: the SW latitude plus the step times the row ⌊i/n⌋ |
| Tiles.LngFromSouthWest | Assets/Assets/Scripts/GameObject/TileInfo.cs:178-180 | definition: the SW longitude plus the step times the column i mod n |
| Tiles.SamplePoint | Assets/Assets/Scripts/GameObject/TileInfo.cs:141-146 | definition: vertex i's location, from the SW corner with the steps abs(abs(NE) - abs(SW)) / (n - 1) in each coordinate; FirstSampleIsSouthWest, LastSampleIsNorthEast and ZoomZeroSamplesCollapse state where it lands |
| Tiles.GetPointsLocations | Assets/Assets/Scripts/GameObject/TileInfo.cs:136-154 | the request holds exactly one location per vertex, and location i is the sample point of row ⌊i/n⌋ and column i mod n from the SW corner, n = √v |
| Tiles.FirstSampleIsSouthWest | Assets/Assets/Scripts/GameObject/TileInfo.cs:165-180 | sample point 0 is exactly the south-west corner |
| Tiles.CornersOnOneSide | Assets/Assets/Scripts/GameObject/TileInfo.cs:121-129 | at zoom 1 and above a tile's SW and NE corners lie on one side of the equator and of the prime meridian, with NE north and east of SW |
| Tiles.SameSignStepsReach | Assets/Assets/Scripts/GameObject/TileInfo.cs:141-142 | the difference of absolute values, divided into n - 1 steps, reaches the far corner when both values have the same sign |
| Tiles.LastGridPointIsFarCorner | Assets/Assets/Scripts/GameObject/TileInfo.cs:165-180 | the last index of an n x n grid lands on the far corner in both coordinates when the corners do not straddle zero |
| Tiles.LastSampleIsNorthEast | Assets/Assets/Scripts/GameObject/TileInfo.cs:136-154 | at zoom 1 and above the last sample point is exactly the north-east corner, so the grid spans the whole tile |
| Tiles.ZoomZeroSamplesCollapse | Assets/Assets/Scripts/GameObject/TileInfo.cs:142 | at zoom 0 the longitude step is zero and every sample point has longitude -180 |
| Tiles.ZoomZeroSamplesAreOnePoint | Assets/Assets/Scripts/GameObject/TileInfo.cs:141-146 | at zoom 0, for a projection symmetric about the equator, both steps are zero and every sample point is the south-west corner, at longitude -180 |
| Network.Outbox.SendToAll | Assets/Assets/Scripts/Multiplayer/HostMapTile.cs:29 | a broadcast appends exactly one message, with its type and payload, after those already sent |
| MapTiles.TileImageUrl | Assets/Assets/Scripts/SinglePlayer/MapTile.cs:74 | definition: the server prefix, then zoom, X and Y separated by '/', then the suffix and the key; TileImageUrlIdentifiesTile states that it tells tiles apart |
| MapTiles.UrlPathIdentifiesTile | Assets/Assets/Scripts/SinglePlayer/MapTile.cs:74 | the part of the URL after the prefix determines zoom, X and Y |
| MapTiles.TileImageUrlIdentifiesTile | Assets/Assets/Scripts/SinglePlayer/MapTile.cs:74 | two tiles get the same texture URL exactly when they are equal tiles |
| MapTiles.Translated | Assets/Assets/Scripts/SinglePlayer/MapTile.cs:43 | translating by -m stays finite exactly when the offset and m are finite; translating by -(+∞) sends the tile to -∞ |
| MapTiles.Elevated | Assets/Assets/Scripts/SinglePlayer/MapTile.cs:107-111 | the new mesh has one vertex per old vertex: vertex i keeps x and z and takes result i over the scale factor; ElevatedHeights and ElevationIsIdempotent state its properties |
| MapTiles.ElevationIsIdempotent | Assets/Assets/Scripts/SinglePlayer/MapTile.cs:107-114 | elevation keeps every vertex's x and z, and applying the same answer twice gives the mesh that applying it once gives |
| MapTiles.ElevatedHeights | Assets/Assets/Scripts/SinglePlayer/MapTile.cs:107-114 | the heights of the elevated mesh are the first vertexCount elevations divided by the scale factor |
| MapTiles.LowestVertexIsLowestSample | Assets/Assets/Scripts/SinglePlayer/MapTile.cs:105-115 | the tile's local minimum is its lowest elevation sample divided by the scale factor |
| MapTiles.NormalisationGroundsTheMap | Assets/Assets/Scripts/SinglePlayer/MapTile.cs:39-48 | lowering every height by the smallest of them puts the lowest point at exactly zero; LoadingCycles.GroundMap applies it to the heights of every tile of a loaded map |
| MapTiles.ConstantTerrainEndsFlat | Assets/Assets/Scripts/SinglePlayer/MapTile.cs:39-45 | terrain of one constant elevation ends at height zero everywhere once lowered by its own minimum |
| MapTiles.Outcome | Assets/Assets/Scripts/SinglePlayer/MapTile.cs:82-91 | definition: a failed request faults, a null answer completes, and a non-null answer completes exactly when it can be applied; OutcomeIsFinal states it |
| MapTiles.OutcomeIsFinal | Assets/Assets/Scripts/SinglePlayer/MapTile.cs:82-91 | an elevation task never ends running; it faults exactly when the request failed or a non-null answer could not be applied, and a null answer completes it |
| MapTiles.MapTile.constructor | Assets/Assets/Scripts/SinglePlayer/MapBuilder.cs:144-146 | a new tile is a copy of the prefab mesh at the given local position, with identity rotation, untranslated and without tile data |
| MapTiles.MapTile.SetTileInfo | Assets/Assets/Scripts/SinglePlayer/MapTile.cs:68-76 | the setter stores the tile and sets the texture URL from its zoom, X and Y |
| MapTiles.MapTile.SetTileData | Assets/Assets/Scripts/SinglePlayer/MapTile.cs:55-63 | for null or an equal tile nothing changes and no task is queued; otherwise the tile and URL are replaced and exactly one running task for this tile's sample grid is appended; a URL that fitted the tile data still fits it |
| MapTiles.MapTile.ResumeElevationDownload | Assets/Assets/Scripts/SinglePlayer/MapTile.cs:84-90 | a failed request faults and a null answer completes, both leaving the mesh, the minimum and the outbox as they were; a non-null answer is applied |
| MapTiles.MapTile.ApplyElevationData | Assets/Assets/Scripts/SinglePlayer/MapTile.cs:97-118 | succeeds exactly when there is tile data, its zoom is in the table and there are enough results; then vertex i takes result i over the scale factor and the shared minimum becomes min(old, the tile's minimum); a failure changes nothing |
| MapTiles.MapTile.RebuildMesh | Assets/Assets/Scripts/Multiplayer/HostMapTile.cs:12-16 | the mesh takes the new vertices; a host tile then appends exactly one broadcast of itself, carrying those vertices |
| MapTiles.MapTile.SendToNetwork | Assets/Assets/Scripts/Multiplayer/HostMapTile.cs:21-30 | appends one tile message with the mesh's vertices, the texture URL and the tile's name, and changes nothing else |
| MapTiles.MapTile.NetworkUpdate | Assets/Assets/Scripts/Multiplayer/ClientMapTile.cs:11-15 | a client tile's vertices become exactly the ones received; tile data, URL and tasks are untouched |
| MapTiles.MapTile.Translate | Assets/Assets/Scripts/SinglePlayer/MapTile.cs:43 | the tile's vertical offset moves down by m |
| MapTiles.MapTileStatics.constructor | Assets/Assets/Scripts/SinglePlayer/MapTile.cs:14-29 | both elevations start at +∞ and no task is pending |
| MapTiles.MapTileStatics.SetBaseElevation | Assets/Assets/Scripts/SinglePlayer/MapTile.cs:20-27 | the minimum becomes the smaller of the old minimum and the value, and is never raised |
| MapTiles.MapTileStatics.CompleteTask | Assets/Assets/Scripts/SinglePlayer/MapTile.cs:82-91 | only the completed task's status changes, to the download's outcome, and the tile, minimum and outbox change as the answer dictates |
| MapTiles.MapTileStatics.OnEndLoading | Assets/Assets/Scripts/SinglePlayer/MapTile.cs:36-49 | if a task faulted, nothing changes; otherwise every listed tile is lowered by the minimum if and only if no earlier cycle set an effective elevation, then the tasks are cleared, the effective elevation takes the minimum and the minimum returns to +∞ |
| LoadingCycles.Cycle | Assets/Assets/Scripts/SinglePlayer/MapTile.cs:36-49 | one cycle on one tile with a flat answer ends with the tile showing its tile data, its mesh being the old one elevated by that answer and flat at the cycle's lowest height, no task, the minimum at +∞, the effective elevation at the cycle's minimum, and the tile lowered only if no earlier cycle set one |
| LoadingCycles.OnlyTheFirstCycleLowers | Assets/Assets/Scripts/SinglePlayer/MapTile.cs:41-47 | after the first cycle every vertex's height plus the tile's offset is exactly zero; a second cycle with new elevations leaves the offset where it was, so every vertex then sits at e'/s' - e/s instead of zero |
| LoadingCycles.EmptyCycleRearmsLowering | Assets/Assets/Scripts/SinglePlayer/MapTile.cs:47 | a cycle that downloads nothing resets the sentinel, so the cycle after it lowers the tile again |
| LoadingCycles.AnswerOne | Assets/Assets/Scripts/SinglePlayer/MapTile.cs:82-118 | delivering the next tile's answer completes its task, replaces that tile's mesh by the elevated one and folds its heights into the shared minimum, leaving the other tiles alone |
| LoadingCycles.AnswerAll | Assets/Assets/Scripts/SinglePlayer/MapTile.cs:82-118 | once every distinct tile's task receives an applicable answer, every task has completed, none faulted, each tile's mesh is its old one elevated by its answer, and the shared minimum is the lowest vertex height of all the tiles |
| LoadingCycles.EndFirstCycle | Assets/Assets/Scripts/SinglePlayer/MapTile.cs:36-49 | when every task has completed and no earlier cycle set an effective elevation, every tile is lowered by the cycle's minimum, that minimum becomes the effective elevation and is the lowest of the heights, and the heights lowered by it bottom out at exactly zero |
| LoadingCycles.GroundMap | Assets/Assets/Scripts/SinglePlayer/MapTile.cs:36-49 | a first cycle over a whole map ends with the effective elevation equal to the lowest vertex of all its tiles, every tile lowered by exactly that, no task pending, and the lowest height of the lowered map exactly zero |
| MapBuilders.SlotIndexIsRowMajor | Assets/Assets/Scripts/SinglePlayer/MapBuilder.cs:110-116 | the running index at offset (x, y) is (x + size)(2·size + 1) + (y + size) |
| MapBuilders.HalfSize | Assets/Assets/Scripts/SinglePlayer/MapBuilder.cs:108 | definition: `(int)(MapSize / 2)`, truncating toward zero |
| MapBuilders.SlotIndexSteps | Assets/Assets/Scripts/SinglePlayer/MapBuilder.cs:114-116 | the index grows by one per inner iteration, and a new row starts where the last one ended |
| MapBuilders.SlotIndexAfterLastRow | Assets/Assets/Scripts/SinglePlayer/MapBuilder.cs:112-122 | after the last row the index equals (2·size + 1)² |
| MapBuilders.SlotIndexIsTheCell | Assets/Assets/Scripts/SinglePlayer/MapBuilder.cs:112-116 | the visit at offset (x, y)'s index has exactly the offsets x and y |
| MapBuilders.SlotIndexInRow | Assets/Assets/Scripts/SinglePlayer/MapBuilder.cs:112-116 | every index in a row comes before the next row's first index |
| MapBuilders.RowEndsInTheSquare | Assets/Assets/Scripts/SinglePlayer/MapBuilder.cs:112-116 | no row ends beyond (2·size + 1)² |
| MapBuilders.SlotIndexInTheSquare | Assets/Assets/Scripts/SinglePlayer/MapBuilder.cs:112-116 | every offset in the square gets an index in 0 .. (2·size + 1)² - 1 |
| MapBuilders.VisitsStayInTheSquare | Assets/Assets/Scripts/SinglePlayer/MapBuilder.cs:112-114 | every visit's offsets lie in -size .. size |
| MapBuilders.SlotsAreDistinct | Assets/Assets/Scripts/SinglePlayer/MapBuilder.cs:112-116 | two different visits land on two different offsets |
| MapBuilders.PairNameParts | Assets/Assets/Scripts/SinglePlayer/MapBuilder.cs:119 | "(a,b)" determines a and b when a holds no comma |
| MapBuilders.SlotTile | Assets/Assets/Scripts/SinglePlayer/MapBuilder.cs:118 | definition: the tile at offset (x, y) is (centre.X - x, centre.Y + y) at the builder's zoom and size; LoadedSlotsAreDistinct and MiddleSlotIsTheCentre state its properties |
| MapBuilders.SlotName | Assets/Assets/Scripts/SinglePlayer/MapBuilder.cs:119 | definition: "(x,y)"; SlotNameIdentifiesSlot states that it tells offsets apart |
| MapBuilders.SlotNameIdentifiesSlot | Assets/Assets/Scripts/SinglePlayer/MapBuilder.cs:119 | two offsets get the same name "(x,y)" exactly when they are the same offset |
| MapBuilders.LoadedSlotsAreDistinct | Assets/Assets/Scripts/SinglePlayer/MapBuilder.cs:116-119 | different visits carry different names and show different tiles |
| MapBuilders.MiddleSlotIsTheCentre | Assets/Assets/Scripts/SinglePlayer/MapBuilder.cs:118-119 | the visit at offset (0, 0) is in the square, is named "(0,0)" and shows the centre tile exactly when the zooms agree |
| MapBuilders.SlotPlan | Assets/Assets/Scripts/SinglePlayer/MapBuilder.cs:112-114 | the plan has one visit per cell of the square |
| MapBuilders.SlotPlanAt | Assets/Assets/Scripts/SinglePlayer/MapBuilder.cs:116-119 | the k-th visit shows tile (center.X - x, center.Y + y), is named "(x,y)" and is placed at (size·x, 0, size·y) for the k-th offsets |
| MapBuilders.WithTile | Assets/Assets/Scripts/Multiplayer/ClientMapBuilder.cs:26-33 | definition: the list unchanged when the tile is in it, otherwise the list with the tile appended; WithTileProperties states its properties |
| MapBuilders.VisitTasks | Assets/Assets/Scripts/SinglePlayer/MapBuilder.cs:118 | definition: one running elevation task for the tile and its sample grid when the tile did not already show the offset's tile, none otherwise; PlaceTile and ShowSlot state that a visit queues exactly these |
| MapBuilders.WithTileProperties | Assets/Assets/Scripts/Multiplayer/ClientMapBuilder.cs:26-33 | adding keeps every tile in its order and adds at most one, the tile is then present, nothing else is added, adding twice is adding once, and a duplicate-free list stays duplicate-free |
| MapBuilders.TileMessages | Assets/Assets/Scripts/Multiplayer/HostMapBuilder.cs:22-25 | one tile message per tile, in list order, each carrying that tile's vertices, URL and name |
| MapBuilders.MapBuilder.constructor | Assets/Assets/Scripts/SinglePlayer/MapBuilder.cs:37-41 | a new builder has the serialised defaults, no tiles, tracking on, no anchor, and the name "Map" |
| MapBuilders.MapBuilder.SetSelectedPlane | Assets/Assets/Scripts/SinglePlayer/MapBuilder.cs:47-54 | tracking is switched off, the anchor is the new one and the map sits on it, centred on the default location and displayed, and, as LoadTiles states, the square's tiles are the first of the map, the map grows only by the new prefab copies at their offsets, tiles beyond the square keep their tile, URL and name, earlier tasks stay and every new task is running and for a returned tile |
| MapBuilders.MapBuilder.CreateAnchor | Assets/Assets/Scripts/SinglePlayer/MapBuilder.cs:59-69 | the map takes the anchor's position and rotation and shows the default location, and, as LoadTiles states, the square's tiles are the first of the map, the map grows only by the new prefab copies at their offsets, tiles beyond the square keep their tile, URL and name, earlier tasks stay and every new task is running and for a returned tile |
| MapBuilders.MapBuilder.ShowMap | Assets/Assets/Scripts/SinglePlayer/MapBuilder.cs:96-101 | the centre tile is the one containing the location, the square around it is displayed, every tile's URL still fits its tile data, and, as LoadTiles states, the square's tiles are the first of the map, the map grows only by the new prefab copies at their offsets, tiles beyond the square keep their tile, URL and name, earlier tasks stay and every new task is running and for a returned tile |
| MapBuilders.MapBuilder.LoadTiles | Assets/Assets/Scripts/SinglePlayer/MapBuilder.cs:106-128 | exactly (2·⌊MapSize/2⌋ + 1)² tiles are returned, the first ones of the map, each showing its offset's tile, with that tile's texture URL, and named after it; existing tiles are reused, new ones are prefab copies at their offset, a second load of the same size creates none, tiles beyond the square keep their tile, URL and name, and every queued task is running and for a returned tile |
| MapBuilders.MapBuilder.LoadSquare | Assets/Assets/Scripts/SinglePlayer/MapBuilder.cs:112-122 | the outer loop over x makes every visit of the square: the same returned tiles, URLs, names, new tiles, untouched tiles beyond the square and running tasks as LoadTiles |
| MapBuilders.MapBuilder.LoadRow | Assets/Assets/Scripts/SinglePlayer/MapBuilder.cs:114-121 | the inner loop over y makes the visits of one row, keeps the tiles beyond the listed ones as they were, and advances the index to the next row's start |
| MapBuilders.MapBuilder.LoadingStarts | Assets/Assets/Scripts/SinglePlayer/MapBuilder.cs:110-111 | before the loops, no tile is listed and nothing is queued |
| MapBuilders.MapBuilder.Loaded | Assets/Assets/Scripts/SinglePlayer/MapBuilder.cs:112-122 | after every visit, the listed tiles display the square with their tiles' texture URLs, new tiles sit at their offsets and the queued tasks are for listed tiles |
| MapBuilders.MapBuilder.PlaceTile | Assets/Assets/Scripts/SinglePlayer/MapBuilder.cs:116-119 | one pass of the inner loop lists one more tile, keeps the loading invariant and the tiles beyond it, and appends exactly one running task for the tile when its old tile data differs from the offset's tile, none otherwise |
| MapBuilders.MapBuilder.TakeTile | Assets/Assets/Scripts/SinglePlayer/MapBuilder.cs:116-117 | the pass's tile is the map's next tile, or a new prefab copy without tile data appended to the map, and it is in the map but not listed yet |
| MapBuilders.MapBuilder.ShowSlot | Assets/Assets/Scripts/SinglePlayer/MapBuilder.cs:118-119 | the pass's tile shows its offset's tile with a fitting URL and is named "(x,y)"; exactly one running task for it is appended when its old tile data differs from the offset's tile, none otherwise |
| MapBuilders.MapBuilder.GetOrCreateTile | Assets/Assets/Scripts/SinglePlayer/MapBuilder.cs:137-150 | tile i is returned unchanged when it exists; otherwise exactly one new prefab copy at (size·x, 0, size·y) with identity rotation is appended and returned |
| MapBuilders.MapBuilder.SetScale | Assets/Assets/Scripts/SinglePlayer/MapBuilder.cs:211-215 | the scale becomes the argument and the position the origin |
| MapBuilders.MapBuilder.AddTile | Assets/Assets/Scripts/Multiplayer/ClientMapBuilder.cs:26-33 | the tile list becomes the list with the tile added if absent, and stays duplicate-free and of the client kind |
| MapBuilders.MapBuilder.HostOnNetwork | Assets/Assets/Scripts/Multiplayer/HostMapBuilder.cs:11-14 | exactly one start-session message is appended |
| MapBuilders.MapBuilder.UpdateNetwork | Assets/Assets/Scripts/Multiplayer/HostMapBuilder.cs:19-26 | one rotation message with the map's rotation is appended, then one tile message per tile in list order, and nothing but the outbox changes |

## Left out

- Single-precision floating point: heights, scale factors, coordinates and
  steps are exact reals, so float rounding, NaN and the float-to-int cast of
  non-finite values are not modelled.
- The transcendental projection (`Log`, `Tan`, `Cos`, `Atan`, `Sinh`): it is
  an uninterpreted `Projection` parameter, constrained only where a lemma
  needs it.
- The texture download (`GetTextureAsync`) and the web requests to the
  elevation and geocoding services: they are I/O. The elevation answer is a
  parameter of `CompleteTask`.
- Scheduling of the asynchronous tasks: the caller chooses the order in
  which tasks complete and when `OnEndLoading` runs.
- Mesh normals, bounds and the mesh collider in `RebuildMesh`: these are
  engine calls with no effect on the vertices.
- `transform.SetParent` in `CreateAnchor`, `LoadTiles` and `AddTile`, and the
  world-space scene graph: a translation is kept as a tile's vertical offset
  (`lift`), not composed with its parents' transforms.
- `Destroy(anchor)` in `SetSelectedPlane`: this is engine object lifetime.
- `Update`, touch and pinch handling (`ProcessTouches` and its overrides) and
  the flags they spawn: these depend on input and raycasts.
- The cloud-anchor controllers, the lobby and the UI: they are AR session and
  transport handling.
- Integer width: tile numbers and offsets are unbounded integers. Only the
  hash models 32-bit wrap-around.
- Tiles.GetPointsLocations: requires a perfect-square vertex count other
  than 1. The source accepts any count; 1 divides by zero, and other counts
  give a non-integer width.
- MapTiles.MapTile.SetTileData: requires a sampleable mesh for the same
  reason. The prefab is an 11 x 11 grid, so the requirement holds in the
  application.
- MapBuilders.MapBuilder.LoadTiles, MapBuilders.MapBuilder.LoadSquare,
  MapBuilders.MapBuilder.ShowMap, MapBuilders.MapBuilder.CreateAnchor and
  MapBuilders.MapBuilder.SetSelectedPlane: require that the prefab mesh and
  every tile's mesh be sampleable, since each may reach `SetTileData`.
- MapBuilders.MapBuilder.LoadTiles: requires an anchor whenever a tile has
  to be created. Without one, the source throws a null reference.
- MapBuilders.MapBuilder.ShowMap: carries the same anchor requirement.
  SetSelectedPlane and CreateAnchor set the anchor before they load, so they
  need none.
- MapBuilders.MapBuilder.GetOrCreateTile: carries the same anchor
  requirement, since it is the member that creates the tile.
- MapBuilders.MapBuilder.AddTile: the tile is never null. The client
  controller (`CloudAnchorClientController.ReceiveMessage`) passes whatever
  `GetComponent<ClientMapTile>()` returned, null included; the source then
  appends null and throws at `itm.transform`. The controller is not part of
  this model.
- MapBuilders.MapBuilder.LoadTiles: does not state that the tiles it
  creates are fresh objects. It states that they are prefab copies at their
  offsets. `GetOrCreateTile` is the member that states freshness.
- MapTiles.MapTileStatics.OnEndLoading: requires the listed tiles to be
  pairwise distinct. `LoadTiles` always produces such a list. A list that
  repeated a tile would lower that tile once per occurrence.
- MapTiles.MapTileStatics.OnEndLoading: requires that every task has ended.
  This is the `await Task.WhenAll(tasks)` join at MapTile.cs:38. `WhenAll`
  takes a snapshot of the list when `LoadTiles` calls it. A later `ShowMap`
  before the join finishes can queue more tasks. Those are not awaited, yet
  MapTile.cs:46 clears them. The `AllTasksDone` requirement rules out this
  interleaving, so the model does not show it.
- MapBuilders.MapBuilder.LoadTiles: does not state how many tasks the whole
  load queues. It states that each is running and for a returned tile.
  `PlaceTile` and `ShowSlot` state, visit by visit, that one task is queued
  exactly when the tile's old data differs from its offset's tile. The
  whole-load count is not stated because its proof is too costly here.
- MapBuilders.MapBuilder.LoadSquare: leaves the whole-load task count out,
  for the same reason.
- Null results: a null `TileInfo` is `None`. A null vertex array, a null
  `results` list and a missing mesh component are not modelled.
