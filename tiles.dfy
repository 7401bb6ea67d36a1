/**
 * Tile-index arithmetic of the Mars map client (`getTileCoords`): an
 * equirectangular EPSG:4326 grid with `2^zoom` rows and twice as many
 * columns. Nothing clamps the result, so points on the east edge or the
 * south pole fall one past the grid.
 */
module Tiles {

  function Pow2(n: nat): (r: nat)
    ensures r >= 1
  {
    if n == 0 then 1 else 2 * Pow2(n - 1)
  }

  /** `scale`: the number of tile rows at a zoom level. */
  function RowCount(zoom: nat): nat
  {
    Pow2(zoom)
  }

  /** `worldTiles`: the number of tile columns at a zoom level. */
  function ColumnCount(zoom: nat): nat
  {
    RowCount(zoom) * 2
  }

  /** `Math.floor(((lng + 180) / 360) * worldTiles)`. */
  function TileX(lng: real, zoom: nat): (x: int)
    ensures -180.0 <= lng < 180.0 ==> 0 <= x < ColumnCount(zoom)
  {
    FloorOfFraction((lng + 180.0) / 360.0, ColumnCount(zoom));
    ((lng + 180.0) / 360.0 * ColumnCount(zoom) as real).Floor
  }

  /** `Math.floor(((90 - lat) / 180) * scale)`. */
  function TileY(lat: real, zoom: nat): (y: int)
    ensures -90.0 < lat <= 90.0 ==> 0 <= y < RowCount(zoom)
  {
    FloorOfFraction((90.0 - lat) / 180.0, RowCount(zoom));
    ((90.0 - lat) / 180.0 * RowCount(zoom) as real).Floor
  }

  /** The longitude of the west edge of tile column `x`: the reference definition of a column. */
  function ColumnWest(x: int, zoom: nat): real
  {
    (x as real) * 360.0 / (ColumnCount(zoom) as real) - 180.0
  }

  /** The latitude of the north edge of tile row `y`: the reference definition of a row. */
  function RowNorth(y: int, zoom: nat): real
  {
    90.0 - (y as real) * 180.0 / (RowCount(zoom) as real)
  }

  /** Each zoom level doubles the rows, and the columns of one level equal the rows of the next. */
  lemma {:induction false} GridDoubles(zoom: nat)
    ensures RowCount(zoom + 1) == 2 * RowCount(zoom)
    ensures ColumnCount(zoom) == RowCount(zoom + 1)
    ensures ColumnCount(zoom + 1) == 2 * ColumnCount(zoom)
  {
  }

  /** Tiles are square in degrees: a column spans as many degrees of longitude as a row of latitude. */
  lemma TilesAreSquare(zoom: nat)
    ensures 360.0 / (ColumnCount(zoom) as real) == 180.0 / (RowCount(zoom) as real)
  {
    var r := RowCount(zoom) as real;
    assert ColumnCount(zoom) as real == 2.0 * r;
    assert 360.0 / (2.0 * r) == 180.0 / r;
  }

  /** Column `x` holds exactly the longitudes from its west edge up to, not including, the next one. */
  lemma TileXIff(lng: real, zoom: nat, x: int)
    ensures TileX(lng, zoom) == x <==> ColumnWest(x, zoom) <= lng < ColumnWest(x + 1, zoom)
  {
    var t := ColumnCount(zoom) as real;
    CellBounds(lng + 180.0, 360.0, t, x);
  }

  /** Row `y` holds exactly the latitudes from its north edge down to, not including, the next one. */
  lemma TileYIff(lat: real, zoom: nat, y: int)
    ensures TileY(lat, zoom) == y <==> RowNorth(y + 1, zoom) < lat <= RowNorth(y, zoom)
  {
    var t := RowCount(zoom) as real;
    CellBounds(90.0 - lat, 180.0, t, y);
  }

  /** `floor(a / span * t) == x` exactly when `a` lies in the `x`-th of `t` equal parts of `span`. */
  lemma CellBounds(a: real, span: real, t: real, x: int)
    requires span > 0.0 && t > 0.0
    ensures (a / span * t).Floor == x <==> (x as real) * span / t <= a < ((x + 1) as real) * span / t
  {
    var k := t / span;
    var v := a / span * t;
    assert v == a * k;
    var lo := (x as real) * span / t;
    var e1 := (x as real) + 1.0;
    var hi := e1 * span / t;
    assert ((x + 1) as real) == e1;
    CellEdge(span, t, x as real);
    CellEdge(span, t, e1);
    ScaleLe(lo, a, k);
    ScaleLt(a, hi, k);
    assert lo * k == x as real;
    assert hi * k == e1;
    assert lo <= a <==> (x as real) <= v;
    assert a < hi <==> v < (x as real) + 1.0;
  }

  /** The edge `e * span / t` scales back to `e`. */
  lemma CellEdge(span: real, t: real, e: real)
    requires span > 0.0 && t > 0.0
    ensures e * span / t * (t / span) == e
  {
  }

  /** A fraction in [0, 1) of a positive count, rounded down, is a valid index below the count. */
  lemma FloorOfFraction(f: real, n: nat)
    requires n > 0
    ensures 0.0 <= f < 1.0 ==> 0 <= (f * n as real).Floor < n
  {
    var t := n as real;
    ScaleLe(0.0, f, t);
    ScaleLt(f, 1.0, t);
  }

  /** Multiplying by a positive factor keeps `<=` in both directions. */
  lemma ScaleLe(a: real, b: real, k: real)
    requires k > 0.0
    ensures a <= b <==> a * k <= b * k
  {
    if a <= b {
      assert (b - a) * k >= 0.0;
    } else {
      assert (a - b) * k > 0.0;
    }
  }

  /** Multiplying by a positive factor keeps `<` in both directions. */
  lemma ScaleLt(a: real, b: real, k: real)
    requires k > 0.0
    ensures a < b <==> a * k < b * k
  {
    ScaleLe(b, a, k);
  }

  /** The east edge is not clamped: longitude 180 lands one column past the grid. */
  lemma EastEdgeOnePast(zoom: nat)
    ensures TileX(180.0, zoom) == ColumnCount(zoom)
  {
    var t := ColumnCount(zoom) as real;
    assert (180.0 + 180.0) / 360.0 * t == t;
  }

  /** The south pole is not clamped: latitude -90 lands one row below the grid. */
  lemma SouthPoleOnePast(zoom: nat)
    ensures TileY(-90.0, zoom) == RowCount(zoom)
  {
    var t := RowCount(zoom) as real;
    assert (90.0 - -90.0) / 180.0 * t == t;
  }

  /** Moving east never decreases the column. */
  lemma TileXMonotone(lng1: real, lng2: real, zoom: nat)
    requires lng1 <= lng2
    ensures TileX(lng1, zoom) <= TileX(lng2, zoom)
  {
    var t := ColumnCount(zoom) as real;
    ScaleLe((lng1 + 180.0) / 360.0, (lng2 + 180.0) / 360.0, t);
  }

  /** Moving north never increases the row. */
  lemma TileYAntitone(lat1: real, lat2: real, zoom: nat)
    requires lat1 <= lat2
    ensures TileY(lat2, zoom) <= TileY(lat1, zoom)
  {
    var t := RowCount(zoom) as real;
    ScaleLe((90.0 - lat2) / 180.0, (90.0 - lat1) / 180.0, t);
  }
}
