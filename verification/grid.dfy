/** The grid of cells and its shape invariant (src/map/mod.rs). */
module Grids {
  import opened Cells

  /** A grid coordinate: column `x`, row `y`. */
  datatype Pos = Pos(x: nat, y: nat)

  /** Rows of cells, indexed `grid[y][x]` as in the source. */
  type Grid = seq<seq<Cell>>

  /** `g` has `height` rows of `width` cells each. */
  predicate Rectangular(g: Grid, width: nat, height: nat) {
    |g| == height && forall y :: 0 <= y < |g| ==> |g[y]| == width
  }

  /** The simulation map; its dimensions are fixed once built. */
  datatype Map = Map(width: nat, height: nat, grid: Grid) {

    predicate Valid() {
      Rectangular(grid, width, height)
    }

    predicate InBounds(x: int, y: int) {
      0 <= x < width && 0 <= y < height
    }
  }

  /** The grid with the one cell at column `x`, row `y` overwritten by `v`. */
  function SetCell(g: Grid, x: nat, y: nat, v: Cell): (r: Grid)
    requires y < |g| && x < |g[y]|
    ensures |r| == |g|
    ensures forall j :: 0 <= j < |g| ==> |r[j]| == |g[j]|
    ensures r[y][x] == v
    ensures forall j, i :: 0 <= j < |g| && 0 <= i < |g[j]| && (j != y || i != x) ==> r[j][i] == g[j][i]
  {
    g[y := g[y][x := v]]
  }

  /** How many cells of the grid hold kind `k`. */
  function CountIn(g: Grid, k: Cell): nat {
    if g == [] then 0 else multiset(g[0])[k] + CountIn(g[1..], k)
  }

  /** Overwriting one cell moves exactly one unit of count from its old kind to its new one. */
  lemma {:induction false} CountAfterSet(g: Grid, x: nat, y: nat, v: Cell, k: Cell)
    requires y < |g| && x < |g[y]|
    ensures CountIn(SetCell(g, x, y, v), k) + (if g[y][x] == k then 1 else 0)
         == CountIn(g, k) + (if v == k then 1 else 0)
  {
    var r := SetCell(g, x, y, v);
    if y == 0 {
      assert r[1..] == g[1..];
    } else {
      assert r[1..] == SetCell(g[1..], x, y - 1, v);
      CountAfterSet(g[1..], x, y - 1, v, k);
    }
  }
}
