/** Loading cycles of a single tile, end to end: tile data is set, the
    elevation answer arrives, and the cycle ends with `OnEndLoading`. These
    show how the shared effective elevation decides which cycles lower the
    map (SinglePlayer/MapTile.cs). */
module LoadingCycles {
  import opened Numerics
  import opened Tiles
  import opened Network
  import opened MapTiles

  /** A 2 x 2 mesh lying flat, as a fresh prefab would. */
  const FlatSquare: seq<Vec3> := [Origin, Origin, Origin, Origin]

  /** An elevation answer giving all four vertices the same elevation. */
  function Uniform(e: int): seq<Resource> {
    [Resource(e, 0.0, 0.0), Resource(e, 0.0, 0.0), Resource(e, 0.0, 0.0), Resource(e, 0.0, 0.0)]
  }

  lemma FlatSquareIsSampleable()
    ensures SampleableVertexCount(|FlatSquare|)
  {
    assert Sqrt(4) == 2;
  }

  /** One cycle: `tile` shows `t`, the answer `Uniform(e)` arrives, the cycle ends. */
  method Cycle(statics: MapTileStatics, net: Outbox, proj: Projection, tile: MapTile, t: TileInfo, e: int)
    returns (lowest: real)
    requires statics.tasks == [] && !Equals(t, tile.tileData)
    requires |tile.vertices| == 4 && ScaleFactor(t).Some?
    modifies statics, net, tile
    ensures lowest == e as real / ScaleFactor(t).value
    ensures statics.tasks == [] && statics.minElevation == Infinity
    ensures statics.effectiveElevation == MinBound(old(statics.minElevation), Finite(lowest))
    ensures tile.lift == LiftAtEndOfLoading(old(tile.lift), old(statics.effectiveElevation),
                                            MinBound(old(statics.minElevation), Finite(lowest)))
    ensures tile.tileData == Some(t) && tile.vertices == Elevated(old(tile.vertices), Uniform(e), ScaleFactor(t).value)
    ensures forall i :: 0 <= i < |tile.vertices| ==> tile.vertices[i].y == lowest
  {
    FlatSquareIsSampleable();
    tile.SetTileData(statics, proj, Some(t));
    var verts := tile.vertices;
    var status := statics.CompleteTask(0, net, Received(Uniform(e)));
    var scale := ScaleFactor(t).value;
    ConstantTerrainEndsFlat(verts, Uniform(e), scale, e);
    lowest := e as real / scale;
    assert status == RanToCompletion;
    assert statics.tasks[0].status == RanToCompletion;
    ghost var lift, effective, min := tile.lift, statics.effectiveElevation, statics.minElevation;
    assert lift == old(tile.lift) && effective == old(statics.effectiveElevation);
    var tiles := [tile];
    var completed := statics.OnEndLoading(tiles);
    assert tiles[0].lift == LiftAtEndOfLoading(lift, effective, min);
  }

  /** The first cycle lowers the tile by its minimum, so that it lies flat at
      height zero; a second cycle with new elevations leaves it where the
      first one put it, so it ends at the difference of the two elevations. */
  method OnlyTheFirstCycleLowers(proj: Projection, t: TileInfo, t': TileInfo, e: int, e': int)
    returns (afterFirst: Offset, afterSecond: Offset, first: seq<real>, second: seq<real>)
    requires ScaleFactor(t).Some? && ScaleFactor(t').Some? && !Equals(t', Some(t))
    ensures afterFirst == Offset(0.0 - e as real / ScaleFactor(t).value)
    ensures |first| == 4 && forall i :: 0 <= i < 4 ==> first[i] + afterFirst.dy == 0.0
    ensures afterSecond == afterFirst
    ensures |second| == 4 && forall i :: 0 <= i < 4 ==>
      second[i] + afterSecond.dy == e' as real / ScaleFactor(t').value - e as real / ScaleFactor(t).value
  {
    var statics := new MapTileStatics();
    var net := new Outbox();
    var tile := new MapTile(Solo, FlatSquare, Origin);
    var lowest := Cycle(statics, net, proj, tile, t, e);
    afterFirst := tile.lift;
    first := Heights(tile.vertices);
    lowest := Cycle(statics, net, proj, tile, t', e');
    afterSecond := tile.lift;
    second := Heights(tile.vertices);
  }

  /** A cycle in which nothing new is downloaded resets the effective
      elevation to +∞, so the cycle after it lowers the tile a second time. */
  method EmptyCycleRearmsLowering(proj: Projection, t: TileInfo, t': TileInfo, e: int, e': int)
    returns (afterFirst: Offset, afterEmpty: Offset, afterThird: Offset)
    requires ScaleFactor(t).Some? && ScaleFactor(t').Some? && !Equals(t', Some(t))
    ensures afterFirst == Offset(0.0 - e as real / ScaleFactor(t).value)
    ensures afterEmpty == afterFirst
    ensures afterThird == Offset(afterFirst.dy - e' as real / ScaleFactor(t').value)
  {
    var statics := new MapTileStatics();
    var net := new Outbox();
    var tile := new MapTile(Solo, FlatSquare, Origin);
    var lowest := Cycle(statics, net, proj, tile, t, e);
    afterFirst := tile.lift;
    FlatSquareIsSampleable();
    tile.SetTileData(statics, proj, Some(t));
    var completed := statics.OnEndLoading([tile]);
    afterEmpty := tile.lift;
    lowest := Cycle(statics, net, proj, tile, t', e');
    afterThird := tile.lift;
  }

  /** The meshes of the tiles, in list order. */
  function Meshes(ts: seq<MapTile>): (m: seq<seq<Vec3>>)
    reads (set t | t in ts)`vertices
    ensures |m| == |ts| && forall i :: 0 <= i < |ts| ==> m[i] == ts[i].vertices
  {
    if ts == [] then []
    else
      var n := |ts| - 1;
      assert forall i :: 0 <= i < n ==> ts[..n][i] == ts[i];
      Meshes(ts[..n]) + [ts[n].vertices]
  }

  /** The heights of a map's meshes, mesh after mesh. */
  function AllHeights(meshes: seq<seq<Vec3>>): seq<real> {
    if meshes == [] then [] else AllHeights(meshes[..|meshes| - 1]) + Heights(meshes[|meshes| - 1])
  }

  /** The mesh `ApplyElevationData` builds from `results`. */
  function Applied(verts: seq<Vec3>, tileData: Option<TileInfo>, results: seq<Resource>): seq<Vec3>
    requires CanApply(tileData, |verts|, results)
  {
    Elevated(verts, results, ScaleFactor(tileData.value).value)
  }

  /** The tiles of a map each wait on the running task at their own index. */
  predicate Waiting(statics: MapTileStatics, tiles: seq<MapTile>, answers: seq<seq<Resource>>)
    reads statics, (set t | t in tiles)`tileData, (set t | t in tiles)`vertices
  {
    |answers| == |tiles| == |statics.tasks|
    && (forall i, j :: 0 <= i < j < |tiles| ==> tiles[i] != tiles[j])
    && (forall i :: 0 <= i < |tiles| ==> statics.tasks[i].tile == tiles[i] && statics.tasks[i].status == Running)
    && forall i :: 0 <= i < |tiles| ==> CanApply(tiles[i].tileData, |tiles[i].vertices|, answers[i])
  }

  /** The task list once the first `n` tasks have completed. */
  function Finished(tasks: seq<ElevationTask>, n: nat): (r: seq<ElevationTask>)
    ensures |r| == |tasks|
    ensures forall j :: 0 <= j < |tasks| ==> r[j] == if j < n then tasks[j].(status := RanToCompletion) else tasks[j]
  {
    seq(|tasks|, j requires 0 <= j < |tasks| => if j < n then tasks[j].(status := RanToCompletion) else tasks[j])
  }

  /** Completing the next task extends the completed prefix by one. */
  lemma FinishedStep(tasks: seq<ElevationTask>, n: nat)
    requires n < |tasks|
    ensures Finished(tasks, n)[n := Finished(tasks, n)[n].(status := RanToCompletion)] == Finished(tasks, n + 1)
  {
  }

  /** The state after the answers of the first `i` tiles have arrived, for
      tiles that showed the meshes `before` and waited on `tasks`: those
      tasks completed, those tiles' meshes are `meshes`, their answers
      applied, the other tiles untouched, and the shared minimum the lowest
      height of `meshes`. */
  predicate Answered(statics: MapTileStatics, tiles: seq<MapTile>, answers: seq<seq<Resource>>,
                     before: seq<seq<Vec3>>, tasks: seq<ElevationTask>, meshes: seq<seq<Vec3>>, i: nat)
    reads statics, (set t | t in tiles)`tileData, (set t | t in tiles)`vertices
  {
    i <= |tiles| == |answers| == |before| == |tasks| && |meshes| == i
    && (forall j :: 0 <= j < |tiles| ==> CanApply(tiles[j].tileData, |before[j]|, answers[j]))
    && (forall j :: 0 <= j < |tiles| ==> tasks[j].tile == tiles[j] && tasks[j].status == Running)
    && statics.tasks == Finished(tasks, i)
    && (forall j :: 0 <= j < i ==>
          tiles[j].vertices == meshes[j] && meshes[j] == Applied(before[j], tiles[j].tileData, answers[j]))
    && (forall j :: i <= j < |tiles| ==> tiles[j].vertices == before[j])
    && statics.minElevation == SeqMin(AllHeights(meshes))
  }

  /** Every tile's elevation answer arrives, in list order, and is applied:
      each task ends completed, each mesh takes its answer, and the shared
      minimum becomes the lowest height of the whole map. */
  method AnswerAll(statics: MapTileStatics, net: Outbox, tiles: seq<MapTile>, answers: seq<seq<Resource>>)
    requires Waiting(statics, tiles, answers) && statics.minElevation == Infinity
    modifies statics`tasks, statics`minElevation, net, (set t | t in tiles)`vertices
    ensures |statics.tasks| == |tiles| && statics.AllTasksDone() && !statics.AnyTaskFaulted()
    ensures forall i :: 0 <= i < |tiles| ==>
      tiles[i].vertices == Applied(old(tiles[i].vertices), tiles[i].tileData, answers[i])
    ensures statics.minElevation == SeqMin(AllHeights(Meshes(tiles)))
  {
    ghost var before, tasks := Meshes(tiles), statics.tasks;
    ghost var meshes := [];
    assert Answered(statics, tiles, answers, before, tasks, meshes, 0);
    for i := 0 to |tiles|
      invariant Answered(statics, tiles, answers, before, tasks, meshes, i)
    {
      AnswerOne(statics, net, tiles, answers, before, tasks, meshes, i);
      meshes := meshes + [tiles[i].vertices];
    }
    assert Meshes(tiles) == meshes;
  }

  /** The answer of the `i`-th tile arrives and is applied. */
  method AnswerOne(statics: MapTileStatics, net: Outbox, tiles: seq<MapTile>, answers: seq<seq<Resource>>,
                   ghost before: seq<seq<Vec3>>, ghost tasks: seq<ElevationTask>, ghost meshes: seq<seq<Vec3>>, i: nat)
    requires Answered(statics, tiles, answers, before, tasks, meshes, i) && i < |tiles|
    requires forall j, k :: 0 <= j < k < |tiles| ==> tiles[j] != tiles[k]
    modifies statics`tasks, statics`minElevation, net, {tiles[i]}`vertices
    ensures Answered(statics, tiles, answers, before, tasks, meshes + [tiles[i].vertices], i + 1)
  {
    var status := statics.CompleteTask(i, net, Received(answers[i]));
    FinishedStep(tasks, i);
    SeqMinAppend(AllHeights(meshes), Heights(tiles[i].vertices));
    assert (meshes + [tiles[i].vertices])[..i] == meshes;
  }

  /** A map whose last mesh has a vertex has a height. */
  lemma {:induction false} SomeHeight(meshes: seq<seq<Vec3>>)
    requires |meshes| > 0 && |meshes[|meshes| - 1]| > 0
    ensures |AllHeights(meshes)| > 0
  {
  }

  /** The end of a first loading cycle, once every task has completed and the
      shared minimum is the lowest of `heights`: every tile is lowered by that
      minimum, which becomes the effective elevation, and `heights` lowered
      by it bottom out at exactly zero. */
  method EndFirstCycle(statics: MapTileStatics, tiles: seq<MapTile>, ghost heights: seq<real>)
    returns (lowest: real)
    requires statics.AllTasksDone() && !statics.AnyTaskFaulted() && |heights| > 0
    requires forall i, j :: 0 <= i < j < |tiles| ==> tiles[i] != tiles[j]
    requires forall i :: 0 <= i < |tiles| ==> tiles[i].lift == Offset(0.0)
    requires statics.minElevation == SeqMin(heights) && statics.effectiveElevation == Infinity
    modifies statics, (set t | t in tiles)`lift
    ensures SeqMin(heights) == Finite(lowest)
    ensures statics.tasks == [] && statics.minElevation == Infinity && statics.effectiveElevation == Finite(lowest)
    ensures forall i :: 0 <= i < |tiles| ==> tiles[i].lift == Offset(-lowest)
    ensures SeqMin(Shifted(heights, -lowest)) == Finite(0.0)
  {
    lowest := statics.minElevation.value;
    NormalisationGroundsTheMap(heights, lowest);
    var completed := statics.OnEndLoading(tiles);
  }

  /** A first cycle over a whole map whose tiles each wait on one download:
      every answer arrives and is applied, then `OnEndLoading` runs. The
      shared minimum is the lowest vertex of the whole map, every tile is
      lowered by it, and the map's lowest point ends at height zero. */
  method GroundMap(statics: MapTileStatics, net: Outbox, tiles: seq<MapTile>, answers: seq<seq<Resource>>)
    returns (lowest: real)
    requires Waiting(statics, tiles, answers) && |tiles| > 0 && |tiles[|tiles| - 1].vertices| > 0
    requires forall i :: 0 <= i < |tiles| ==> tiles[i].lift == Offset(0.0)
    requires statics.minElevation == Infinity && statics.effectiveElevation == Infinity
    modifies statics, net, (set t | t in tiles)`vertices, (set t | t in tiles)`lift
    ensures SeqMin(AllHeights(Meshes(tiles))) == Finite(lowest)
    ensures statics.tasks == [] && statics.minElevation == Infinity && statics.effectiveElevation == Finite(lowest)
    ensures forall i :: 0 <= i < |tiles| ==> tiles[i].lift == Offset(-lowest)
    ensures SeqMin(Shifted(AllHeights(Meshes(tiles)), -lowest)) == Finite(0.0)
  {
    AnswerAll(statics, net, tiles, answers);
    ghost var meshes := Meshes(tiles);
    SomeHeight(meshes);
    lowest := EndFirstCycle(statics, tiles, AllHeights(meshes));
    assert Meshes(tiles) == meshes;
  }
}
