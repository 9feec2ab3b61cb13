/** Slippy-map tile identity and the geometry of a tile's elevation sample
    grid (TileInfo.cs). The transcendental halves of the Web-Mercator
    projection are left uninterpreted (a Projection value); longitude, which is
    rational in the tile number, is computed exactly. */
module Tiles {
  import opened Numerics

  /** A latitude/longitude pair in degrees. */
  datatype WorldCoordinate = WorldCoordinate(lat: real, lon: real)

  /** One point of an elevation request. */
  datatype Location = Location(latitude: real, longitude: real)

  /** The two transcendental functions of the slippy-map tile numbering:
      `mercatorY(latDeg)` is ln(tan φ + 1/cos φ) / π and `mercatorLat(t)` is
      atan(sinh(π t)) · 180 / π, its inverse. */
  datatype Projection = Projection(mercatorY: real -> real, mercatorLat: real -> real)

  /** `mercatorLat` undoes `mercatorY`'s inverse, as the exact functions do. */
  ghost predicate Inverse(proj: Projection) {
    forall t :: proj.mercatorY(proj.mercatorLat(t)) == t
  }

  /** What atan(sinh(π t)) satisfies: monotone, and of the sign of t. */
  ghost predicate MonotoneAndSigned(proj: Projection) {
    && (forall a, b :: a <= b ==> proj.mercatorLat(a) <= proj.mercatorLat(b))
    && (forall t :: 0.0 <= t ==> 0.0 <= proj.mercatorLat(t))
    && (forall t :: t <= 0.0 ==> proj.mercatorLat(t) <= 0.0)
  }

  const MapPixelSize: int := 256

  /** A tile: X, Y and zoom identify it; MapTileSize is carried along. */
  datatype TileInfo = TileInfo(x: int, y: int, zoom: int, mapTileSize: real)

  function Pow2(e: nat): (r: nat)
    ensures r >= 1
  {
    if e == 0 then 1 else 2 * Pow2(e - 1)
  }

  /** `Math.Pow(2, zoom)`, also for a negative zoom. */
  function TileCount(zoom: int): (n: real)
    ensures n > 0.0
  {
    if zoom >= 0 then Pow2(zoom) as real else 1.0 / Pow2(-zoom) as real
  }

  /** The C# cast `(int)r`: truncation toward zero. */
  function Truncate(r: real): (n: int)
    ensures r >= 0.0 ==> 0 <= n && n as real <= r < n as real + 1.0
    ensures r < 0.0 ==> n <= 0 && n as real - 1.0 < r <= n as real
  {
    if r >= 0.0 then r.Floor else -((-r).Floor)
  }

  /** The constructor from a coordinate and a zoom (TileInfo.cs:12-21). */
  function FromCoordinate(proj: Projection, c: WorldCoordinate, zoom: int, mapTileSize: real): TileInfo {
    var n := TileCount(zoom);
    TileInfo(
      Truncate((c.lon + 180.0) / 360.0 * n),
      Truncate((1.0 - proj.mercatorY(c.lat)) / 2.0 * n),
      zoom,
      mapTileSize)
  }

  /** `Equals(TileInfo other)`: `other` may be null. */
  function Equals(t: TileInfo, other: Option<TileInfo>): bool {
    other.Some? && t.x == other.value.x && t.y == other.value.y && t.zoom == other.value.zoom
  }

  /** Equality is on (X, Y, zoom) only: null is never equal, and the tile
      size never matters. */
  lemma EqualsIsIdentity(a: TileInfo, b: TileInfo, s: real, s': real)
    ensures !Equals(a, None)
    ensures Equals(a, Some(b)) <==> (a.x, a.y, a.zoom) == (b.x, b.y, b.zoom)
    ensures Equals(a.(mapTileSize := s), Some(b.(mapTileSize := s'))) == Equals(a, Some(b))
  {
  }

  /** Equals is an equivalence relation on tiles. */
  lemma EqualsIsEquivalence(a: TileInfo, b: TileInfo, c: TileInfo)
    ensures Equals(a, Some(a))
    ensures Equals(a, Some(b)) ==> Equals(b, Some(a))
    ensures Equals(a, Some(b)) && Equals(b, Some(c)) ==> Equals(a, Some(c))
  {
  }

  /** The low 32 bits of an integer, as C# stores an int. */
  function Bits(n: int): bv32 {
    (n % 0x1_0000_0000) as bv32
  }

  /** A 32-bit pattern read as a signed C# int. */
  function Signed(b: bv32): int {
    if b < 0x8000_0000 then b as int else b as int - 0x1_0000_0000
  }

  /** `GetHashCode` in an `unchecked` block: ((X * 397) ^ Y) * 397 ^ zoom
      with 32-bit wrap-around. */
  function HashCode(t: TileInfo): int {
    HashOf(t.x, t.y, t.zoom)
  }

  function HashOf(x: int, y: int, zoom: int): int {
    var h0 := Bits(x);
    var h1 := (h0 * 397) ^ Bits(y);
    var h2 := (h1 * 397) ^ Bits(zoom);
    Signed(h2)
  }

  /** The hash is consistent with Equals and ignores the tile size. */
  lemma EqualTilesHashEqually(a: TileInfo, b: TileInfo)
    requires Equals(a, Some(b))
    ensures HashCode(a) == HashCode(b)
  {
  }

  /** OpenStreetMap meters per pixel at each zoom level 0..19. */
  const ZoomScales: seq<real> := [
    156412.0, 78206.0, 39103.0, 19551.0, 9776.0, 4888.0, 2444.0,
    1222.0, 610.984, 305.492, 152.746, 76.373, 38.187,
    19.093, 9.547, 4.773, 2.387, 1.193, 0.596, 0.298]

  /** `ScaleFactor`: `_zoomScales[ZoomLevel] * 256`; None when the index is
      outside the table (the array access throws). */
  function ScaleFactor(t: TileInfo): (r: Option<real>)
    ensures r.Some? <==> 0 <= t.zoom < |ZoomScales|
    ensures r.Some? ==> r.value > 0.0
  {
    if 0 <= t.zoom < |ZoomScales| then Some(ZoomScales[t.zoom] * MapPixelSize as real) else None
  }

  /** A deeper zoom always has a strictly smaller scale factor, whatever the
      tile's position or size. */
  lemma {:induction false} ScaleFactorDecreasesWithZoom(a: TileInfo, b: TileInfo)
    requires 0 <= a.zoom < b.zoom < |ZoomScales|
    ensures ScaleFactor(b).value < ScaleFactor(a).value
    decreases b.zoom - a.zoom
  {
    assert forall i :: 0 <= i < |ZoomScales| - 1 ==> ZoomScales[i + 1] < ZoomScales[i];
    if b.zoom > a.zoom + 1 {
      ScaleFactorDecreasesWithZoom(a, b.(zoom := b.zoom - 1));
    }
  }

  /** `GetNorthWestLocation`: the north-west corner of tile (tileX, tileY). */
  function NorthWestLocation(proj: Projection, tileX: int, tileY: int, zoom: int): WorldCoordinate {
    var n := TileCount(zoom);
    WorldCoordinate(
      proj.mercatorLat(1.0 - (2 * tileY) as real / n),
      tileX as real / n * 360.0 - 180.0)
  }

  function NorthEast(proj: Projection, t: TileInfo): WorldCoordinate {
    NorthWestLocation(proj, t.x + 1, t.y, t.zoom)
  }

  function SouthWest(proj: Projection, t: TileInfo): WorldCoordinate {
    NorthWestLocation(proj, t.x, t.y + 1, t.zoom)
  }

  /** Corners are shared between neighbours: the north-east corner of a tile
      is the south-west corner of its north-east neighbour, and its south-west
      corner the north-west corner of the tile below it. */
  lemma CornersAreShared(proj: Projection, t: TileInfo)
    ensures NorthEast(proj, t) == SouthWest(proj, t.(x := t.x + 1, y := t.y - 1))
    ensures SouthWest(proj, t) == NorthWestLocation(proj, t.x, t.y + 1, t.zoom)
    ensures NorthEast(proj, t) == NorthWestLocation(proj, t.x + 1, t.y, t.zoom)
  {
  }

  /** A tile spans 360 / 2^zoom degrees of longitude. */
  lemma TileLongitudeSpan(proj: Projection, t: TileInfo)
    ensures NorthEast(proj, t).lon - SouthWest(proj, t).lon == 360.0 / TileCount(t.zoom)
  {
    var n := TileCount(t.zoom);
    assert (t.x + 1) as real / n == t.x as real / n + 1.0 / n;
  }

  lemma LongitudeRoundTrip(a: real, n: real)
    requires n > 0.0
    ensures (a / n * 360.0 - 180.0 + 180.0) / 360.0 * n == a
  {
    var q := a / n;
    assert q * n == a;
    assert (q * 360.0 - 180.0 + 180.0) / 360.0 == q;
  }

  lemma LatitudeRoundTrip(b: real, n: real)
    requires n > 0.0
    ensures (1.0 - (1.0 - 2.0 * b / n)) / 2.0 * n == b
  {
    var q := b / n;
    assert 2.0 * b / n == 2.0 * q;
    assert (1.0 - (1.0 - 2.0 * q)) / 2.0 == q;
    assert q * n == b;
  }

  /** Going from a tile to its north-west corner and back yields the tile
      again (exactly, in this model without float rounding). */
  lemma NorthWestRoundTrip(proj: Projection, t: TileInfo)
    requires Inverse(proj)
    requires 0 <= t.x && 0 <= t.y
    ensures FromCoordinate(proj, NorthWestLocation(proj, t.x, t.y, t.zoom), t.zoom, t.mapTileSize) == t
  {
    var n := TileCount(t.zoom);
    var c := NorthWestLocation(proj, t.x, t.y, t.zoom);
    var u := 1.0 - (2 * t.y) as real / n;
    assert proj.mercatorY(c.lat) == u;
    LongitudeRoundTrip(t.x as real, n);
    LatitudeRoundTrip(t.y as real, n);
    assert (2 * t.y) as real == 2.0 * t.y as real;
  }

  /** `Math.Sqrt(vertexNumber)` for the vertex counts the model covers. */
  function SqrtFrom(v: nat, r: nat): (s: nat)
    requires r * r <= v
    ensures s * s <= v < (s + 1) * (s + 1)
    decreases v - r
  {
    if (r + 1) * (r + 1) > v then r
    else
      assert r < (r + 1) * (r + 1);
      SqrtFrom(v, r + 1)
  }

  function Sqrt(v: nat): (s: nat)
    ensures s * s <= v < (s + 1) * (s + 1)
  {
    SqrtFrom(v, 0)
  }

  /** A vertex count whose sample grid the source computes without dividing
      by zero: a perfect square other than 1. */
  predicate SampleableVertexCount(v: int) {
    v >= 0 && Sqrt(v) * Sqrt(v) == v && v != 1
  }

  function Abs(r: real): real {
    if r < 0.0 then -r else r
  }

  /** The step between two grid rows: |(|NE.Lat| - |SW.Lat|)| / (width - 1). */
  function LatitudeStep(sw: WorldCoordinate, ne: WorldCoordinate, width: nat): real
    requires width != 1
  {
    Abs(Abs(ne.lat) - Abs(sw.lat)) / (width as real - 1.0)
  }

  /** The step between two grid columns: |(|NE.Lon| - |SW.Lon|)| / (width - 1). */
  function LongitudeStep(sw: WorldCoordinate, ne: WorldCoordinate, width: nat): real
    requires width != 1
  {
    Abs(Abs(ne.lon) - Abs(sw.lon)) / (width as real - 1.0)
  }

  /** `GetLatFromSouthWest`: SW latitude plus `step` times the row ⌊i / width⌋. */
  function LatFromSouthWest(i: nat, width: nat, step: real, sw: WorldCoordinate): real
    requires width > 0
  {
    sw.lat + step * (i / width) as real
  }

  /** `GetLngFromSouthWest`: SW longitude plus `step` times the column i mod width. */
  function LngFromSouthWest(i: nat, width: nat, step: real, sw: WorldCoordinate): real
    requires width > 0
  {
    sw.lon + step * (i % width) as real
  }

  lemma SquareIsPositive(w: nat, v: nat)
    requires w * w == v && v > 0
    ensures w > 0
  {
  }

  /** The sample point of vertex i: row ⌊i/n⌋, column i mod n, from the
      south-west corner, n = √v. */
  function SamplePoint(proj: Projection, t: TileInfo, v: int, i: nat): Location
    requires SampleableVertexCount(v) && i < v
  {
    var sw, ne, w := SouthWest(proj, t), NorthEast(proj, t), Sqrt(v);
    SquareIsPositive(w, v);
    Location(
      LatFromSouthWest(i, w, LatitudeStep(sw, ne, w), sw),
      LngFromSouthWest(i, w, LongitudeStep(sw, ne, w), sw))
  }

  /** The elevation request `GetPointsLocations(v)` builds, as a value. */
  function SampleGrid(proj: Projection, t: TileInfo, v: int): (g: seq<Location>)
    requires SampleableVertexCount(v)
  {
    seq(v, i requires 0 <= i < v => SamplePoint(proj, t, v, i))
  }

  /** `GetPointsLocations`: one location per vertex, in vertex order. */
  method GetPointsLocations(proj: Projection, t: TileInfo, vertexNumber: int) returns (locations: seq<Location>)
    requires SampleableVertexCount(vertexNumber)
    ensures |locations| == vertexNumber
    ensures forall i :: 0 <= i < vertexNumber ==> locations[i] == SamplePoint(proj, t, vertexNumber, i)
  {
    var southWest := SouthWest(proj, t);
    var northEast := NorthEast(proj, t);
    var tileWidth := Sqrt(vertexNumber);
    var latDistance := LatitudeStep(southWest, northEast, tileWidth);
    var lngDistance := LongitudeStep(southWest, northEast, tileWidth);
    locations := [];
    for i := 0 to vertexNumber
      invariant |locations| == i
      invariant forall k :: 0 <= k < i ==> locations[k] == SamplePoint(proj, t, vertexNumber, k)
    {
      SquareIsPositive(tileWidth, vertexNumber);
      var lat := LatFromSouthWest(i, tileWidth, latDistance, southWest);
      var lng := LngFromSouthWest(i, tileWidth, lngDistance, southWest);
      locations := locations + [Location(lat, lng)];
    }
  }

  /** The first sample point is exactly the south-west corner. */
  lemma FirstSampleIsSouthWest(proj: Projection, t: TileInfo, v: int)
    requires SampleableVertexCount(v) && v > 0
    ensures SamplePoint(proj, t, v, 0) == Location(SouthWest(proj, t).lat, SouthWest(proj, t).lon)
  {
  }

  /** From a corner to the next one in whole steps: when the two values have
      the same sign, the difference of absolute values is their distance. */
  lemma SameSignStepsReach(a: real, b: real, w: nat)
    requires w >= 2
    requires (0.0 <= a <= b) || (a <= b <= 0.0)
    ensures a + Abs(Abs(b) - Abs(a)) / (w as real - 1.0) * ((w - 1) as real) == b
  {
    assert Abs(Abs(b) - Abs(a)) == b - a;
    var k := w as real - 1.0;
    assert (b - a) / k * k == b - a;
  }

  lemma DivMonotone(a: real, b: real, n: real)
    requires n > 0.0 && a <= b
    ensures a / n <= b / n
  {
  }

  /** Tile numbers below and above the middle one, `2^(zoom-1)`, map to the
      two halves of [-1, 1] and of [-180, 180]. */
  lemma HalfOfTheGrid(h: nat, n: real)
    requires h >= 1 && n == 2.0 * h as real
    ensures (2 * h) as real / n == 1.0 && h as real / n == 0.5
  {
    assert (2 * h) as real == n;
    assert h as real == 0.5 * n;
  }

  lemma HalvesOfTheGrid(k: int, h: nat, n: real)
    requires h >= 1 && n == 2.0 * h as real
    ensures k <= h ==> 1.0 - (2 * k) as real / n >= 0.0 && k as real / n * 360.0 - 180.0 <= 0.0
    ensures k >= h ==> 1.0 - (2 * k) as real / n <= 0.0 && k as real / n * 360.0 - 180.0 >= 0.0
  {
    HalfOfTheGrid(h, n);
    if k <= h {
      DivMonotone((2 * k) as real, (2 * h) as real, n);
      DivMonotone(k as real, h as real, n);
    }
    if k >= h {
      DivMonotone((2 * h) as real, (2 * k) as real, n);
      DivMonotone(h as real, k as real, n);
    }
  }

  /** The south-west and north-east corners of a tile at zoom >= 1 lie on the
      same side of the equator and of the prime meridian (tile edges fall on
      both), and north-east is north and east of south-west. */
  lemma CornersOnOneSide(proj: Projection, t: TileInfo)
    requires MonotoneAndSigned(proj)
    requires t.zoom >= 1 && 0 <= t.x < Pow2(t.zoom) && 0 <= t.y < Pow2(t.zoom)
    ensures var sw, ne := SouthWest(proj, t), NorthEast(proj, t);
      && ((0.0 <= sw.lat <= ne.lat) || (sw.lat <= ne.lat <= 0.0))
      && ((0.0 <= sw.lon <= ne.lon) || (sw.lon <= ne.lon <= 0.0))
  {
    var h := Pow2(t.zoom - 1);
    var n := TileCount(t.zoom);
    assert n == 2.0 * h as real;
    var tNE := 1.0 - (2 * t.y) as real / n;
    var tSW := 1.0 - (2 * (t.y + 1)) as real / n;
    DivMonotone((2 * t.y) as real, (2 * (t.y + 1)) as real, n);
    assert proj.mercatorLat(tSW) <= proj.mercatorLat(tNE);
    if t.y + 1 <= h {
      HalvesOfTheGrid(t.y + 1, h, n);
      assert 0.0 <= proj.mercatorLat(tSW);
    } else {
      HalvesOfTheGrid(t.y, h, n);
      assert proj.mercatorLat(tNE) <= 0.0;
    }
    DivMonotone(t.x as real, (t.x + 1) as real, n);
    if t.x + 1 <= h {
      HalvesOfTheGrid(t.x + 1, h, n);
    } else {
      HalvesOfTheGrid(t.x, h, n);
    }
  }

  /** The last index of a w-by-w grid reaches the far corner when the corners
      lie on one side of zero in both coordinates. */
  lemma LastGridPointIsFarCorner(sw: WorldCoordinate, ne: WorldCoordinate, w: nat, i: nat)
    requires w >= 2 && i == (w - 1) * w + (w - 1)
    requires (0.0 <= sw.lat <= ne.lat) || (sw.lat <= ne.lat <= 0.0)
    requires (0.0 <= sw.lon <= ne.lon) || (sw.lon <= ne.lon <= 0.0)
    ensures LatFromSouthWest(i, w, LatitudeStep(sw, ne, w), sw) == ne.lat
    ensures LngFromSouthWest(i, w, LongitudeStep(sw, ne, w), sw) == ne.lon
  {
    DivModOfRowColumn(w - 1, w - 1, w);
    SameSignStepsReach(sw.lat, ne.lat, w);
    SameSignStepsReach(sw.lon, ne.lon, w);
  }

  /** The last index of a w x w grid other than 1 x 1 is row w-1, column w-1. */
  lemma LastIndexOfSquare(w: nat, v: int)
    requires w * w == v && v > 0 && v != 1
    ensures w >= 2 && v - 1 == (w - 1) * w + (w - 1)
  {
    SquareIsPositive(w, v);
  }

  /** For every tile at zoom >= 1 the last sample point is exactly the
      north-east corner, so the grid spans the whole tile. */
  lemma LastSampleIsNorthEast(proj: Projection, t: TileInfo, v: int)
    requires MonotoneAndSigned(proj)
    requires t.zoom >= 1 && 0 <= t.x < Pow2(t.zoom) && 0 <= t.y < Pow2(t.zoom)
    requires SampleableVertexCount(v) && v > 0
    ensures SamplePoint(proj, t, v, v - 1) == Location(NorthEast(proj, t).lat, NorthEast(proj, t).lon)
  {
    var sw, ne, w := SouthWest(proj, t), NorthEast(proj, t), Sqrt(v);
    LastIndexOfSquare(w, v);
    CornersOnOneSide(proj, t);
    LastGridPointIsFarCorner(sw, ne, w, v - 1);
  }

  /** At zoom 0 the single tile's corners are at longitudes -180 and 180, whose
      absolute values coincide: the longitude step is 0 and every sample
      point sits on the -180 meridian. */
  lemma ZoomZeroSamplesCollapse(proj: Projection, t: TileInfo, v: int, i: nat)
    requires t.zoom == 0 && t.x == 0
    requires SampleableVertexCount(v) && i < v
    ensures SamplePoint(proj, t, v, i).longitude == -180.0
  {
    var sw, ne, w := SouthWest(proj, t), NorthEast(proj, t), Sqrt(v);
    SquareIsPositive(w, v);
    assert sw.lon == -180.0 && ne.lon == 180.0;
    var k := w as real - 1.0;
    assert k != 0.0;
    assert Abs(Abs(ne.lon) - Abs(sw.lon)) / k == 0.0;
  }

  /** With a projection symmetric about the equator, as the exact one is, the
      single zoom-0 tile's corners also have latitudes of equal size: the
      latitude step is 0 as well, and every sample point is the south-west
      corner, at latitude -85.05... and longitude -180. */
  lemma ZoomZeroSamplesAreOnePoint(proj: Projection, t: TileInfo, v: int, i: nat)
    requires t.zoom == 0 && t.x == 0 && t.y == 0
    requires proj.mercatorLat(-1.0) == -proj.mercatorLat(1.0)
    requires SampleableVertexCount(v) && i < v
    ensures SamplePoint(proj, t, v, i) == Location(SouthWest(proj, t).lat, -180.0)
  {
    ZoomZeroSamplesCollapse(proj, t, v, i);
    var sw, ne, w := SouthWest(proj, t), NorthEast(proj, t), Sqrt(v);
    SquareIsPositive(w, v);
    assert TileCount(0) == 1.0;
    assert sw.lat == proj.mercatorLat(-1.0) && ne.lat == proj.mercatorLat(1.0);
    var k := w as real - 1.0;
    assert k != 0.0;
    assert Abs(Abs(ne.lat) - Abs(sw.lat)) / k == 0.0;
  }
}
