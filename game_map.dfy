/** The road map of src/game_map.rs: a text grid in which `'.'` marks a road
    cell, turned into one tile per cell whose type records which of its four
    neighbours are road as well. */
module GameMap {
  import opened Wrappers

  /** The neighbour flags of a tile, in the order the source stores them. */
  datatype Neighbors = Neighbors(left: bool, right: bool, up: bool, down: bool)

  /** `Tile`: its picture number (0 to 15) and its neighbour flags. */
  datatype Tile = Tile(tileType: nat, neighbors: Neighbors)

  /** `MapFile`: the map asset, its text lines listed from the top down. */
  datatype MapFile = MapFile(width: nat, height: nat, startPos: (nat, nat), tiles: seq<string>)

  const ROAD: char := '.'

  /** The tile geometry, in pixels (`Tile::WIDTH`, … `Tile::ROAD_HEIGHT`). */
  const TILE_WIDTH: real := 320.0
  const TILE_HEIGHT: real := 240.0
  const ROAD_WIDTH: real := 50.0
  const ROAD_HEIGHT: real := 50.0

  /** `Tile::empty()`: no road at all. */
  function Empty(): Tile
  {
    Tile(0, Neighbors(false, false, false, false))
  }

  /** One bit of the type, set when the flag holds. */
  function Bit(flag: bool, shift: bv8): bv8
    requires shift < 8
  {
    if flag then 1 << shift else 0
  }

  /** `Tile::from_neighbors`: right, up, left and down are bits 0 to 3 of the
      type; the flags are stored as (left, right, up, down). */
  function FromNeighbors(right: bool, up: bool, left: bool, down: bool): (t: Tile)
    ensures t.tileType < 16
  {
    var t := Bit(right, 0) | Bit(up, 1) | Bit(left, 2) | Bit(down, 3);
    Tile(t as nat, Neighbors(left, right, up, down))
  }

  /** A tile with at least one road neighbour. */
  predicate HasNeighbor(n: Neighbors)
  {
    n.left || n.right || n.up || n.down
  }

  /** `Tile::is_valid`: whether a position inside the tile (in pixels from its
      lower-left corner) lies on its road: the centre square, or an arm
      towards a neighbour that is road. */
  predicate IsValid(tile: Tile, offsetX: real, offsetY: real)
    ensures IsValid(tile, offsetX, offsetY) ==> tile.tileType != 0
  {
    if tile.tileType == 0 then false
    else
      var isLeft := offsetX < (TILE_WIDTH - ROAD_WIDTH) / 2.0;
      var isRight := offsetX > (TILE_WIDTH + ROAD_WIDTH) / 2.0;
      var isMidH := !isLeft && !isRight;
      var isUp := offsetY > (TILE_HEIGHT + ROAD_HEIGHT) / 2.0;
      var isDown := offsetY < (TILE_HEIGHT - ROAD_HEIGHT) / 2.0;
      var isMidV := !isUp && !isDown;
      || (isMidH && isMidV)
      || (tile.neighbors.left && isLeft && isMidV)
      || (tile.neighbors.right && isRight && isMidV)
      || (tile.neighbors.up && isUp && isMidH)
      || (tile.neighbors.down && isDown && isMidH)
  }

  /** The text lines bottom-up, so that row 0 is the last line of the file. */
  function MapRows(lines: seq<string>): (rows: seq<string>)
    ensures |rows| == |lines|
  {
    if lines == [] then [] else MapRows(lines[1..]) + [lines[0]]
  }

  /** Every cell the construction reads exists: `height` rows of at least
      `width` characters. */
  predicate Covers(rows: seq<string>, width: nat, height: nat)
  {
    height <= |rows| && forall y :: 0 <= y < height ==> width <= |rows[y]|
  }

  predicate IsRoad(rows: seq<string>, x: nat, y: nat)
    requires y < |rows| && x < |rows[y]|
  {
    rows[y][x] == ROAD
  }

  /** The tile the construction builds for cell (x, y). */
  function TileAt(rows: seq<string>, width: nat, height: nat, x: nat, y: nat): (t: Tile)
    requires Covers(rows, width, height) && x < width && y < height
    ensures t.tileType < 16
    ensures !IsRoad(rows, x, y) ==> t == Empty()
  {
    if !IsRoad(rows, x, y) then Empty()
    else
      var right := x + 1 < width && IsRoad(rows, x + 1, y);
      var up := y + 1 < height && IsRoad(rows, x, y + 1);
      var left := x > 0 && IsRoad(rows, x - 1, y);
      var down := y > 0 && IsRoad(rows, x, y - 1);
      FromNeighbors(right, up, left, down)
  }

  /** Column x of the grid: the tiles of cells (x, 0) to (x, height - 1). */
  function Column(rows: seq<string>, width: nat, height: nat, x: nat): seq<Tile>
    requires Covers(rows, width, height) && x < width
  {
    seq(height, y requires 0 <= y < height => TileAt(rows, width, height, x, y))
  }

  /** The whole grid, one column per x. */
  function Grid(rows: seq<string>, width: nat, height: nat): (g: seq<seq<Tile>>)
    requires Covers(rows, width, height)
    ensures |g| == width && forall x :: 0 <= x < width ==> |g[x]| == height
  {
    seq(width, x requires 0 <= x < width => Column(rows, width, height, x))
  }

  /** The map file's cells exist for the size it declares. */
  predicate WellFormed(file: MapFile)
  {
    Covers(MapRows(file.tiles), file.width, file.height)
  }

  /** The inner loop of `prepare_map`: the tiles of column x, bottom to top. */
  method BuildColumn(rows: seq<string>, width: nat, height: nat, x: nat) returns (row: seq<Tile>)
    requires Covers(rows, width, height) && x < width
    ensures row == Column(rows, width, height, x)
  {
    row := [];
    var y := 0;
    while y < height
      invariant y <= height
      invariant row == Column(rows, width, height, x)[..y]
    {
      var tile;
      if rows[y][x] != ROAD {
        tile := Empty();
      } else {
        var right := x + 1 < width && rows[y][x + 1] == ROAD;
        var up := y + 1 < height && rows[y + 1][x] == ROAD;
        var left := x > 0 && rows[y][x - 1] == ROAD;
        var down := y > 0 && rows[y - 1][x] == ROAD;
        tile := FromNeighbors(right, up, left, down);
      }
      assert tile == TileAt(rows, width, height, x, y);
      row := row + [tile];
      y := y + 1;
    }
    assert Column(rows, width, height, x)[..height] == Column(rows, width, height, x);
  }

  /** The `Map` resource. */
  class Map {
    var width: nat
    var height: nat
    var startPos: (nat, nat)
    var tiles: seq<seq<Tile>>
    var loaded: bool

    /** `Map::default()`. */
    constructor ()
      ensures width == 0 && height == 0 && startPos == (0, 0)
      ensures tiles == [] && !loaded
    {
      width := 0;
      height := 0;
      startPos := (0, 0);
      tiles := [];
      loaded := false;
    }

    /** `prepare_map`: once the file is available, and only once, copy its
        size and start and append one column of tiles per x. */
    method PrepareMap(file: Option<MapFile>)
      requires file.Some? && !loaded ==> WellFormed(file.value)
      modifies this
      ensures old(loaded) || file.None? ==>
        && width == old(width) && height == old(height) && startPos == old(startPos)
        && tiles == old(tiles) && loaded == old(loaded)
      ensures !old(loaded) && file.Some? ==>
        && width == file.value.width && height == file.value.height
        && startPos == file.value.startPos
        && tiles == old(tiles) + Grid(MapRows(file.value.tiles), width, height)
        && loaded
    {
      if loaded {
        return;
      }
      if file.None? {
        return;
      }
      var f := file.value;
      var rows := MapRows(f.tiles);
      width := f.width;
      height := f.height;
      startPos := f.startPos;
      var x := 0;
      while x < width
        invariant x <= width && width == f.width && height == f.height && startPos == f.startPos
        invariant tiles == old(tiles) + Grid(rows, width, height)[..x]
      {
        var row := BuildColumn(rows, width, height, x);
        assert Grid(rows, width, height)[..x + 1] == Grid(rows, width, height)[..x] + [row];
        tiles := tiles + [row];
        x := x + 1;
      }
      assert Grid(rows, width, height)[..width] == Grid(rows, width, height);
      loaded := true;
    }
  }

  // ---------------------------------------------------------------- properties

  /** The type is the sum right + 2·up + 4·left + 8·down, so it lies in 0 to
      15, and the flags are kept in (left, right, up, down) order. */
  lemma FromNeighborsType(right: bool, up: bool, left: bool, down: bool)
    ensures var t := FromNeighbors(right, up, left, down);
      && t.tileType == (if right then 1 else 0) + (if up then 2 else 0) + (if left then 4 else 0) + (if down then 8 else 0)
      && 0 <= t.tileType <= 15
      && t.neighbors == Neighbors(left, right, up, down)
  {
  }

  /** The type's bits give the four flags back. */
  lemma TypeBitsAreNeighbors(right: bool, up: bool, left: bool, down: bool)
    ensures var t := FromNeighbors(right, up, left, down).tileType;
      && (t % 2 == 1 <==> right)
      && (t / 2 % 2 == 1 <==> up)
      && (t / 4 % 2 == 1 <==> left)
      && (t / 8 % 2 == 1 <==> down)
  {
    FromNeighborsType(right, up, left, down);
  }

  /** Type 0 exactly when no neighbour is road. */
  lemma TypeZeroIffIsolated(right: bool, up: bool, left: bool, down: bool)
    ensures var t := FromNeighbors(right, up, left, down);
      t.tileType == 0 <==> !HasNeighbor(t.neighbors)
  {
    FromNeighborsType(right, up, left, down);
  }

  /** A tile of type 0 has no point on its road. */
  lemma TypeZeroIsNeverValid(tile: Tile, offsetX: real, offsetY: real)
    requires tile.tileType == 0
    ensures !IsValid(tile, offsetX, offsetY)
  {
  }

  /** Any other tile holds the centre square, from 135 to 185 across and 95
      to 145 up, borders included. */
  lemma CentreIsValid(tile: Tile, offsetX: real, offsetY: real)
    requires tile.tileType != 0
    requires 135.0 <= offsetX <= 185.0 && 95.0 <= offsetY <= 145.0
    ensures IsValid(tile, offsetX, offsetY)
  {
  }

  /** Outside the centre square, a point is on the road only on the arm of a
      neighbour that is road. */
  lemma ArmNeedsNeighbor(tile: Tile, offsetX: real, offsetY: real)
    requires IsValid(tile, offsetX, offsetY)
    ensures offsetX < 135.0 ==> tile.neighbors.left && 95.0 <= offsetY <= 145.0
    ensures offsetX > 185.0 ==> tile.neighbors.right && 95.0 <= offsetY <= 145.0
    ensures offsetY > 145.0 ==> tile.neighbors.up && 135.0 <= offsetX <= 185.0
    ensures offsetY < 95.0 ==> tile.neighbors.down && 135.0 <= offsetX <= 185.0
  {
  }

  /** A cell that is not road becomes the empty tile. */
  lemma NonRoadIsEmpty(rows: seq<string>, width: nat, height: nat, x: nat, y: nat)
    requires Covers(rows, width, height) && x < width && y < height
    requires rows[y][x] != ROAD
    ensures TileAt(rows, width, height, x, y) == Tile(0, Neighbors(false, false, false, false))
  {
  }

  /** A flag holds exactly when both the cell and that neighbour are road;
      in particular no flag points out of the grid. */
  lemma FlagsAreRoadNeighbors(rows: seq<string>, width: nat, height: nat, x: nat, y: nat)
    requires Covers(rows, width, height) && x < width && y < height
    ensures var n := TileAt(rows, width, height, x, y).neighbors;
      && (n.right <==> x + 1 < width && IsRoad(rows, x, y) && IsRoad(rows, x + 1, y))
      && (n.up <==> y + 1 < height && IsRoad(rows, x, y) && IsRoad(rows, x, y + 1))
      && (n.left <==> x > 0 && IsRoad(rows, x, y) && IsRoad(rows, x - 1, y))
      && (n.down <==> y > 0 && IsRoad(rows, x, y) && IsRoad(rows, x, y - 1))
  {
  }

  /** At the edges of the grid the outward flags are never set. */
  lemma EdgeFlags(rows: seq<string>, width: nat, height: nat, x: nat, y: nat)
    requires Covers(rows, width, height) && x < width && y < height
    ensures var n := TileAt(rows, width, height, x, y).neighbors;
      && (x == 0 ==> !n.left) && (x == width - 1 ==> !n.right)
      && (y == 0 ==> !n.down) && (y == height - 1 ==> !n.up)
  {
    FlagsAreRoadNeighbors(rows, width, height, x, y);
  }

  /** Two horizontally adjacent cells agree about the road between them. */
  lemma HorizontalSymmetry(rows: seq<string>, width: nat, height: nat, x: nat, y: nat)
    requires Covers(rows, width, height) && x + 1 < width && y < height
    ensures TileAt(rows, width, height, x, y).neighbors.right == TileAt(rows, width, height, x + 1, y).neighbors.left
  {
    FlagsAreRoadNeighbors(rows, width, height, x, y);
    FlagsAreRoadNeighbors(rows, width, height, x + 1, y);
  }

  /** Two vertically adjacent cells agree about the road between them. */
  lemma VerticalSymmetry(rows: seq<string>, width: nat, height: nat, x: nat, y: nat)
    requires Covers(rows, width, height) && x < width && y + 1 < height
    ensures TileAt(rows, width, height, x, y).neighbors.up == TileAt(rows, width, height, x, y + 1).neighbors.down
  {
    FlagsAreRoadNeighbors(rows, width, height, x, y);
    FlagsAreRoadNeighbors(rows, width, height, x, y + 1);
  }

  /** A road cell with no road next to it gets type 0, so nothing on it is
      walkable. */
  lemma IsolatedRoadIsBlocked(rows: seq<string>, width: nat, height: nat, x: nat, y: nat, offsetX: real, offsetY: real)
    requires Covers(rows, width, height) && x < width && y < height
    requires !HasNeighbor(TileAt(rows, width, height, x, y).neighbors)
    ensures TileAt(rows, width, height, x, y).tileType == 0
    ensures !IsValid(TileAt(rows, width, height, x, y), offsetX, offsetY)
  {
    FlagsAreRoadNeighbors(rows, width, height, x, y);
    if IsRoad(rows, x, y) {
      var right := x + 1 < width && IsRoad(rows, x + 1, y);
      var up := y + 1 < height && IsRoad(rows, x, y + 1);
      var left := x > 0 && IsRoad(rows, x - 1, y);
      var down := y > 0 && IsRoad(rows, x, y - 1);
      TypeZeroIffIsolated(right, up, left, down);
    }
  }

  /** Row y is text line `len - 1 - y`: the file is read bottom-up. */
  lemma {:induction false} RowsReversed(lines: seq<string>, y: nat)
    requires y < |lines|
    ensures MapRows(lines)[y] == lines[|lines| - 1 - y]
  {
    if y < |lines| - 1 {
      RowsReversed(lines[1..], y);
    }
  }

  /** The grid has `width` columns of `height` tiles, and `grid[x][y]` is the
      tile of cell (x, y). */
  lemma GridShape(rows: seq<string>, width: nat, height: nat, x: nat, y: nat)
    requires Covers(rows, width, height)
    ensures |Grid(rows, width, height)| == width
    ensures x < width ==> |Grid(rows, width, height)[x]| == height
    ensures x < width && y < height ==> Grid(rows, width, height)[x][y] == TileAt(rows, width, height, x, y)
  {
  }

  /** Preparing a fresh map from a file yields exactly that file's grid, and
      a second call changes nothing. */
  method PrepareTwice(file: MapFile) returns (m: Map)
    requires WellFormed(file)
    ensures m.width == file.width && m.height == file.height && m.loaded
    ensures m.tiles == Grid(MapRows(file.tiles), file.width, file.height)
  {
    m := new Map();
    m.PrepareMap(Some(file));
    m.PrepareMap(Some(file));
  }
}
