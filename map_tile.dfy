/** A terrain tile: a mesh whose vertex heights come from an elevation
    service, textured from a tile server, lowered so that the lowest point of
    the whole map sits at height zero (SinglePlayer/MapTile.cs), and, in a
    session, mirrored from the host to the clients (Multiplayer/HostMapTile.cs,
    Multiplayer/ClientMapTile.cs). */
module MapTiles {
  import opened Numerics
  import opened Tiles
  import opened Network

  /** Which of the three tile classes an object is: the single-player
      `MapTile`, the session host's `HostMapTile` or a client's
      `ClientMapTile`. */
  datatype Role = Solo | Host | Client

  /** The texture server's URL template and key (Configuration/Config.cs). */
  const MapTilerPrefix := "https://api.maptiler.com/tiles/satellite/"
  const MapTilerSuffix := ".jpg?key="
  const MapTilerKey := "Change me by a MapTiler API Key"

  /** `string.Format(MapTilerUrl + MapTilerAPIKey, zoom, x, y)`. */
  function TileImageUrl(t: TileInfo): string {
    MapTilerPrefix + IntToString(t.zoom) + "/" + IntToString(t.x) + "/" + IntToString(t.y)
      + MapTilerSuffix + MapTilerKey
  }

  /** The part of the URL after the fixed prefix, grouped at its separators. */
  function UrlPath(t: TileInfo): string {
    IntToString(t.zoom) + ['/'] + (IntToString(t.x) + ['/'] + (IntToString(t.y) + (MapTilerSuffix + MapTilerKey)))
  }

  lemma UrlShape(t: TileInfo)
    ensures TileImageUrl(t) == MapTilerPrefix + UrlPath(t)
  {
  }

  lemma UrlPathIdentifiesTile(a: TileInfo, b: TileInfo)
    requires UrlPath(a) == UrlPath(b)
    ensures a.zoom == b.zoom && a.x == b.x && a.y == b.y
  {
    var tail := MapTilerSuffix + MapTilerKey;
    var xa, ya, xb, yb := IntToString(a.x), IntToString(a.y), IntToString(b.x), IntToString(b.y);
    NotInIntToString(a.zoom, '/');
    NotInIntToString(b.zoom, '/');
    NotInIntToString(a.x, '/');
    NotInIntToString(b.x, '/');
    SplitAtSeparator(IntToString(a.zoom), xa + ['/'] + (ya + tail), IntToString(b.zoom), xb + ['/'] + (yb + tail), '/');
    SplitAtSeparator(xa, ya + tail, xb, yb + tail, '/');
    assert ya == (ya + tail)[..|ya + tail| - |tail|];
    assert yb == (yb + tail)[..|yb + tail| - |tail|];
    IntToStringInjective(a.zoom, b.zoom);
    IntToStringInjective(a.x, b.x);
    IntToStringInjective(a.y, b.y);
  }

  /** Two tiles download the same texture exactly when they are the same tile. */
  lemma TileImageUrlIdentifiesTile(a: TileInfo, b: TileInfo)
    ensures TileImageUrl(a) == TileImageUrl(b) <==> Equals(a, Some(b))
  {
    if TileImageUrl(a) == TileImageUrl(b) {
      UrlShape(a);
      UrlShape(b);
      assert UrlPath(a) == TileImageUrl(a)[|MapTilerPrefix|..];
      assert UrlPath(b) == TileImageUrl(b)[|MapTilerPrefix|..];
      UrlPathIdentifiesTile(a, b);
    }
  }

  /** What a tile shows: its tile data, its texture URL and its name. */
  datatype Shown = Shown(tileData: Option<TileInfo>, imageUrl: string, name: string)

  /** The texture URL is the one of the tile data, as the `TileData` setter
      keeps it. */
  predicate UrlFits(s: Shown) {
    s.tileData.Some? ==> s.imageUrl == TileImageUrl(s.tileData.value)
  }

  /** One answer of the elevation service (Geocoding/ElevationResult.cs). */
  datatype Resource = Resource(elevation: int, longitude: real, latitude: real)

  /** How an elevation request ended: the web call failed (it throws), the
      service's answer parsed to null, or a list of results came back. */
  datatype ElevationResponse = RequestFailed | NullResult | Received(results: seq<Resource>)

  /** The status of a `Task`, as `Task.WhenAll` sees it. */
  datatype TaskStatus = Running | RanToCompletion | Faulted

  /** A started `DownloadElevationDataFromWebAsync`: the tile it belongs to, the
      locations it asked for, and how far it got. */
  datatype ElevationTask = ElevationTask(tile: MapTile, request: seq<Location>, status: TaskStatus)

  /** The vertical translation accumulated by `transform.Translate(0, -m, 0)`;
      translating by -(+∞) sends the tile to -∞ for good. */
  datatype Offset = Offset(dy: real) | MinusInfinity

  function Translated(o: Offset, m: Bound): (r: Offset)
    ensures r.Offset? <==> o.Offset? && m.Finite?
  {
    match (o, m)
    case (Offset(d), Finite(v)) => Offset(d - v)
    case _ => MinusInfinity
  }

  /** Where a tile ends when a loading cycle completes: lowered by the
      cycle's minimum while no earlier cycle has set an effective elevation. */
  function LiftAtEndOfLoading(lift: Offset, effective: Bound, minimum: Bound): Offset {
    if effective == Infinity then Translated(lift, minimum) else lift
  }

  /** The heights of a mesh. */
  function Heights(verts: seq<Vec3>): (h: seq<real>)
    ensures |h| == |verts|
    ensures forall i :: 0 <= i < |verts| ==> h[i] == verts[i].y
  {
    seq(|verts|, i requires 0 <= i < |verts| => verts[i].y)
  }

  /** The elevations of the first `n` results, as reals. */
  function Elevations(results: seq<Resource>, n: nat): (e: seq<real>)
    requires n <= |results|
    ensures |e| == n
    ensures forall i :: 0 <= i < n ==> e[i] == results[i].elevation as real
  {
    seq(n, i requires 0 <= i < n => results[i].elevation as real)
  }

  /** The mesh after elevation: vertex `i` keeps its x and z and takes the
      height of result `i` divided by the tile's scale factor. */
  function Elevated(verts: seq<Vec3>, results: seq<Resource>, scale: real): (r: seq<Vec3>)
    requires |verts| <= |results| && scale > 0.0
    ensures |r| == |verts|
  {
    seq(|verts|, i requires 0 <= i < |verts| => verts[i].(y := results[i].elevation as real / scale))
  }

  /** Elevation replaces heights and keeps the grid: applying the same answer
      twice gives the mesh applying it once gives. */
  lemma ElevationIsIdempotent(verts: seq<Vec3>, results: seq<Resource>, scale: real)
    requires |verts| <= |results| && scale > 0.0
    ensures Elevated(Elevated(verts, results, scale), results, scale) == Elevated(verts, results, scale)
    ensures forall i :: 0 <= i < |verts| ==>
      Elevated(verts, results, scale)[i].x == verts[i].x && Elevated(verts, results, scale)[i].z == verts[i].z
  {
  }

  /** The heights of the elevated mesh are the elevations scaled down. */
  lemma ElevatedHeights(verts: seq<Vec3>, results: seq<Resource>, scale: real)
    requires |verts| <= |results| && scale > 0.0
    ensures Heights(Elevated(verts, results, scale)) == Scaled(Elevations(results, |verts|), scale)
  {
    var h, s := Heights(Elevated(verts, results, scale)), Scaled(Elevations(results, |verts|), scale);
    forall i | 0 <= i < |verts|
      ensures h[i] == s[i]
    {
    }
  }

  /** The lowest vertex of an elevated tile is its lowest elevation sample
      divided by the scale factor. */
  lemma LowestVertexIsLowestSample(verts: seq<Vec3>, results: seq<Resource>, scale: real)
    requires 0 < |verts| <= |results| && scale > 0.0
    ensures SeqMin(Heights(Elevated(verts, results, scale)))
      == Finite(SeqMin(Elevations(results, |verts|)).value / scale)
  {
    ElevatedHeights(verts, results, scale);
    SeqMinScaled(Elevations(results, |verts|), scale);
  }

  /** Lowering every tile by the smallest of the tiles' minima puts the map's
      lowest point at height zero and nothing below it. */
  lemma NormalisationGroundsTheMap(minima: seq<real>, m: real)
    requires SeqMin(minima) == Finite(m)
    ensures Translated(Offset(0.0), Finite(m)) == Offset(-m)
    ensures SeqMin(Shifted(minima, -m)) == Finite(0.0)
  {
    SeqMinShifted(minima, -m);
  }

  /** Terrain of constant elevation ends flat at height zero once its tile is
      lowered by its own minimum. */
  lemma ConstantTerrainEndsFlat(verts: seq<Vec3>, results: seq<Resource>, scale: real, e: int)
    requires 0 < |verts| <= |results| && scale > 0.0
    requires forall i :: 0 <= i < |verts| ==> results[i].elevation == e
    ensures SeqMin(Heights(Elevated(verts, results, scale))) == Finite(e as real / scale)
    ensures forall i :: 0 <= i < |verts| ==>
      Elevated(verts, results, scale)[i].y + Translated(Offset(0.0), Finite(e as real / scale)).dy == 0.0
  {
    var h := Heights(Elevated(verts, results, scale));
    assert h[0] == e as real / scale;
    assert forall i :: 0 <= i < |h| ==> h[i] == h[0];
  }

  /** Whether `ApplyElevationData` gets through: it dereferences the tile
      data, indexes the zoom table, and reads one result per vertex. */
  predicate CanApply(tileData: Option<TileInfo>, vertexCount: nat, results: seq<Resource>) {
    tileData.Some? && ScaleFactor(tileData.value).Some? && vertexCount <= |results|
  }

  /** How the elevation task of a tile ends for a given response. */
  function Outcome(tileData: Option<TileInfo>, vertexCount: nat, response: ElevationResponse): TaskStatus {
    match response
    case RequestFailed => Faulted
    case NullResult => RanToCompletion
    case Received(results) => if CanApply(tileData, vertexCount, results) then RanToCompletion else Faulted
  }

  /** A task never ends still running, and it ends faulted exactly when the
      request failed or the answer could not be applied. */
  lemma OutcomeIsFinal(tileData: Option<TileInfo>, vertexCount: nat, response: ElevationResponse)
    ensures Outcome(tileData, vertexCount, response) != Running
    ensures Outcome(tileData, vertexCount, response) == Faulted <==>
      response.RequestFailed? || (response.Received? && !CanApply(tileData, vertexCount, response.results))
  {
  }

  class MapTile {
    const role: Role
    var tileData: Option<TileInfo>
    var imageUrl: string
    var vertices: seq<Vec3>
    var name: string
    var localPosition: Vec3
    var localRotation: Quaternion
    var lift: Offset

    /** `Instantiate(MapTilePrefab)`: a copy of the prefab's mesh, placed at
        `localPosition` with the identity rotation, with no tile data yet. */
    constructor (role: Role, vertices: seq<Vec3>, localPosition: Vec3)
      ensures this.role == role && this.vertices == vertices && this.localPosition == localPosition
      ensures tileData == None && imageUrl == "" && name == ""
      ensures localRotation == IdentityRotation && lift == Offset(0.0)
    {
      this.role := role;
      this.vertices := vertices;
      this.localPosition := localPosition;
      tileData := None;
      imageUrl := "";
      name := "";
      localRotation := IdentityRotation;
      lift := Offset(0.0);
    }

    /** The message `SendToNetwork` broadcasts for this tile. */
    function TileMessage(): Message
      reads this
    {
      Message(MessageId, UpdateHost(vertices, imageUrl, name))
    }

    function Showing(): Shown
      reads this`tileData, this`imageUrl, this`name
    {
      Shown(tileData, imageUrl, name)
    }

    /** The `TileData` setter: stores the tile and derives its texture URL. */
    method SetTileInfo(value: TileInfo)
      modifies this`tileData, this`imageUrl
      ensures tileData == Some(value) && imageUrl == TileImageUrl(value)
    {
      tileData := Some(value);
      imageUrl := TileImageUrl(value);
    }

    /** Takes a new tile, unless it is null or the tile already shown, and
        starts its texture and elevation downloads; the elevation download
        runs its synchronous part (building the request) and is recorded as a
        running task. */
    method SetTileData(statics: MapTileStatics, proj: Projection, tiledata: Option<TileInfo>)
      requires SampleableVertexCount(|vertices|)
      modifies this`tileData, this`imageUrl, statics`tasks
      ensures if tiledata.None? || Equals(tiledata.value, old(tileData)) then
          tileData == old(tileData) && imageUrl == old(imageUrl) && statics.tasks == old(statics.tasks)
        else
          tileData == tiledata && imageUrl == TileImageUrl(tiledata.value)
          && statics.tasks == old(statics.tasks)
             + [ElevationTask(this, SampleGrid(proj, tiledata.value, |vertices|), Running)]
      ensures old(UrlFits(Showing())) ==> UrlFits(Showing())
    {
      if tiledata.Some? && !Equals(tiledata.value, tileData) {
        SetTileInfo(tiledata.value);
        var request := GetPointsLocations(proj, tiledata.value, |vertices|);
        assert request == SampleGrid(proj, tiledata.value, |vertices|);
        statics.tasks := statics.tasks + [ElevationTask(this, request, Running)];
      }
    }

    /** The part of `DownloadElevationDataFromWebAsync` after its `await`:
        applies a non-null answer; returns how the task ends. */
    method ResumeElevationDownload(statics: MapTileStatics, net: Outbox, response: ElevationResponse)
      returns (status: TaskStatus)
      modifies this`vertices, statics`minElevation, net
      ensures status == Outcome(tileData, old(|vertices|), response)
      ensures status == RanToCompletion && response.Received? ==>
        vertices == Elevated(old(vertices), response.results, ScaleFactor(tileData.value).value)
        && statics.minElevation == MinBound(old(statics.minElevation), SeqMin(Heights(vertices)))
        && net.sent == old(net.sent) + (if role == Host then [TileMessage()] else [])
      ensures status == Faulted || response.NullResult? ==>
        vertices == old(vertices) && statics.minElevation == old(statics.minElevation) && net.sent == old(net.sent)
    {
      match response
      case RequestFailed =>
        status := Faulted;
      case NullResult =>
        status := RanToCompletion;
      case Received(results) =>
        var ok := ApplyElevationData(statics, net, results);
        status := if ok then RanToCompletion else Faulted;
    }

    /** Gives each vertex the height of its answer divided by the scale
        factor, offers the lowest of them as the map's base elevation, and
        rebuilds the mesh; `ok` is false when it throws, which it does before
        changing anything. */
    method ApplyElevationData(statics: MapTileStatics, net: Outbox, results: seq<Resource>) returns (ok: bool)
      modifies this`vertices, statics`minElevation, net
      ensures ok == CanApply(tileData, old(|vertices|), results)
      ensures ok ==>
        vertices == Elevated(old(vertices), results, ScaleFactor(tileData.value).value)
        && statics.minElevation == MinBound(old(statics.minElevation), SeqMin(Heights(vertices)))
        && net.sent == old(net.sent) + (if role == Host then [TileMessage()] else [])
      ensures !ok ==>
        vertices == old(vertices) && statics.minElevation == old(statics.minElevation) && net.sent == old(net.sent)
    {
      if tileData.None? || ScaleFactor(tileData.value).None? {
        return false;
      }
      var threeDScale := ScaleFactor(tileData.value).value;
      var verts: seq<Vec3> := [];
      var localMinElevation := Infinity;
      var i := 0;
      while i < |vertices|
        invariant 0 <= i <= |vertices| && i <= |results|
        invariant verts == Elevated(vertices[..i], results, threeDScale)
        invariant localMinElevation == SeqMin(Heights(verts))
      {
        if i >= |results| {
          return false;
        }
        var newPos := vertices[i].(y := results[i].elevation as real / threeDScale);
        assert Heights(verts + [newPos])[..i] == Heights(verts);
        assert vertices[..i + 1] == vertices[..i] + [vertices[i]];
        verts := verts + [newPos];
        if Below(newPos.y, localMinElevation) {
          localMinElevation := Finite(newPos.y);
        }
        i := i + 1;
      }
      assert vertices[..i] == vertices;
      statics.SetBaseElevation(localMinElevation);
      RebuildMesh(net, verts);
      return true;
    }

    /** Installs the new vertices; a host tile then broadcasts itself. */
    method RebuildMesh(net: Outbox, verts: seq<Vec3>)
      modifies this`vertices, if role == Host then {net} else {}
      ensures vertices == verts
      ensures role == Host ==> net.sent == old(net.sent) + [TileMessage()]
    {
      vertices := verts;
      if role == Host {
        SendToNetwork(net);
      }
    }

    /** Broadcasts this tile's vertices, texture URL and name to every client. */
    method SendToNetwork(net: Outbox)
      requires role == Host
      modifies net
      ensures net.sent == old(net.sent) + [Message(MessageId, UpdateHost(vertices, imageUrl, name))]
    {
      net.SendToAll(MessageId, UpdateHost(vertices, imageUrl, name));
    }

    /** A client tile takes the vertices the host sent, rebuilding its mesh. */
    method NetworkUpdate(net: Outbox, verts: seq<Vec3>)
      requires role == Client
      modifies this`vertices
      ensures vertices == verts
    {
      RebuildMesh(net, verts);
    }

    /** `transform.Translate(0, -m, 0)`. */
    method Translate(m: Bound)
      modifies this`lift
      ensures lift == Translated(old(lift), m)
    {
      lift := Translated(lift, m);
    }
  }

  /** The static state shared by every tile: the lowest point seen in the
      current loading cycle, the minimum of the previous cycle (+∞ until one
      finished with elevations), and the elevation tasks started since the
      last cycle ended. */
  class MapTileStatics {
    var minElevation: Bound
    var effectiveElevation: Bound
    var tasks: seq<ElevationTask>

    constructor ()
      ensures minElevation == Infinity && effectiveElevation == Infinity && tasks == []
    {
      minElevation := Infinity;
      effectiveElevation := Infinity;
      tasks := [];
    }

    predicate AllTasksDone()
      reads this
    {
      forall k :: 0 <= k < |tasks| ==> tasks[k].status != Running
    }

    predicate AnyTaskFaulted()
      reads this
    {
      exists k :: 0 <= k < |tasks| && tasks[k].status == Faulted
    }

    /** The `BaseElevation` setter: keeps the smaller of the two. */
    method SetBaseElevation(value: Bound)
      modifies this`minElevation
      ensures minElevation == MinBound(old(minElevation), value)
    {
      if value.Finite? && Below(value.value, minElevation) {
        minElevation := value;
      }
    }

    /** The network answers running task `k`; that task's continuation runs. */
    method CompleteTask(k: nat, net: Outbox, response: ElevationResponse) returns (status: TaskStatus)
      requires k < |tasks| && tasks[k].status == Running
      modifies this`tasks, this`minElevation, tasks[k].tile`vertices, net
      ensures status == Outcome(old(tasks[k].tile.tileData), old(|tasks[k].tile.vertices|), response)
      ensures tasks == old(tasks)[k := old(tasks[k]).(status := status)]
      ensures status == RanToCompletion && response.Received? ==>
        var tile := tasks[k].tile;
        tile.vertices == Elevated(old(tile.vertices), response.results, ScaleFactor(tile.tileData.value).value)
        && minElevation == MinBound(old(minElevation), SeqMin(Heights(tile.vertices)))
        && net.sent == old(net.sent) + (if tile.role == Host then [tile.TileMessage()] else [])
      ensures status == Faulted || response.NullResult? ==>
        var tile := tasks[k].tile;
        tile.vertices == old(tile.vertices) && minElevation == old(minElevation) && net.sent == old(net.sent)
    {
      var tile := tasks[k].tile;
      status := tile.ResumeElevationDownload(this, net, response);
      tasks := tasks[k := tasks[k].(status := status)];
    }

    /** Once every task has ended (`await Task.WhenAll(tasks)`): when a task
        faulted, `WhenAll` rethrows and nothing happens; otherwise, if no
        earlier cycle finished with elevations, every tile is lowered by the
        cycle's minimum; then the tasks are forgotten and the minimum becomes
        the effective elevation. */
    method OnEndLoading(tiles: seq<MapTile>) returns (completed: bool)
      requires AllTasksDone()
      requires forall i, j :: 0 <= i < j < |tiles| ==> tiles[i] != tiles[j]
      modifies this, (set t | t in tiles)`lift
      ensures completed == !old(AnyTaskFaulted())
      ensures !completed ==>
        unchanged(this) && forall i :: 0 <= i < |tiles| ==> tiles[i].lift == old(tiles[i].lift)
      ensures completed ==>
        tasks == [] && effectiveElevation == old(minElevation) && minElevation == Infinity
      ensures completed ==> forall i :: 0 <= i < |tiles| ==>
        tiles[i].lift == LiftAtEndOfLoading(old(tiles[i].lift), old(effectiveElevation), old(minElevation))
    {
      if AnyTaskFaulted() {
        return false;
      }
      var i := 0;
      while i < |tiles|
        invariant 0 <= i <= |tiles|
        invariant unchanged(this)
        invariant forall j :: 0 <= j < i ==>
          tiles[j].lift == LiftAtEndOfLoading(old(tiles[j].lift), effectiveElevation, minElevation)
        invariant forall j :: i <= j < |tiles| ==> tiles[j].lift == old(tiles[j].lift)
      {
        if effectiveElevation == Infinity {
          tiles[i].Translate(minElevation);
        }
        i := i + 1;
      }
      tasks := [];
      effectiveElevation := minElevation;
      minElevation := Infinity;
      return true;
    }
  }
}
