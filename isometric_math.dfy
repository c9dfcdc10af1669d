// The 2:1 isometric projection between grid and screen coordinates
// (services/isometricMath.ts).

module IsometricMath {

  const TileWidth: real := 128.0
  const TileHeight: real := 64.0

  datatype Point = Point(x: real, y: real)

  /** `gridToIso`: half a tile wide per step of x - y, half a tile high per step of x + y. */
  function GridToIso(gridX: real, gridY: real): (p: Point)
    ensures p.x == (gridX - gridY) * 64.0 && p.y == (gridX + gridY) * 32.0
  {
    Point((gridX - gridY) * (TileWidth / 2.0), (gridX + gridY) * (TileHeight / 2.0))
  }

  /** `isoToGrid`: the inverse projection, in fractional grid cells. */
  function IsoToGrid(screenX: real, screenY: real): (g: Point)
    ensures g.x + g.y == screenY / 32.0 && g.x - g.y == screenX / 64.0
  {
    var halfW := TileWidth / 2.0;
    var halfH := TileHeight / 2.0;
    Point((screenY / halfH + screenX / halfW) / 2.0, (screenY / halfH - screenX / halfW) / 2.0)
  }

  /** Projecting a grid point and back gives the grid point. */
  lemma GridRoundTrip(gridX: real, gridY: real)
    ensures var p := GridToIso(gridX, gridY); IsoToGrid(p.x, p.y) == Point(gridX, gridY)
  {
    var p := GridToIso(gridX, gridY);
    var g := IsoToGrid(p.x, p.y);
    assert p.x / 64.0 == gridX - gridY;
    assert p.y / 32.0 == gridX + gridY;
  }

  /** Mapping a screen point to the grid and back gives the screen point. */
  lemma ScreenRoundTrip(screenX: real, screenY: real)
    ensures var g := IsoToGrid(screenX, screenY); GridToIso(g.x, g.y) == Point(screenX, screenY)
  {
    var g := IsoToGrid(screenX, screenY);
    assert (g.x - g.y) * 64.0 == screenX;
    assert (g.x + g.y) * 32.0 == screenY;
  }

  /** `getDepth`: the draw order key. */
  function GetDepth(gridX: real, gridY: real): (d: real)
    ensures GridToIso(gridX, gridY).y == d * 32.0
  {
    gridX + gridY
  }

  /** A step along either grid axis moves the tile half a tile down the screen and one depth step nearer. */
  lemma StepMovesDown(gridX: real, gridY: real)
    ensures GridToIso(gridX + 1.0, gridY).y == GridToIso(gridX, gridY).y + 32.0
    ensures GridToIso(gridX, gridY + 1.0).y == GridToIso(gridX, gridY).y + 32.0
    ensures GetDepth(gridX + 1.0, gridY) == GetDepth(gridX, gridY + 1.0) == GetDepth(gridX, gridY) + 1.0
  {
  }
}
