/** Edits to the map: clearing the station's cell and scattering resources (src/map/mod.rs). */
module MapEdits {
  import opened Cells
  import opened Grids
  import opened Options

  /** Clears the station's cell, or does nothing when the coordinates lie off the map. */
  function PlaceStation(m: Map, x: nat, y: nat): (r: Map)
    requires m.Valid()
    ensures r.Valid() && r.width == m.width && r.height == m.height
    ensures m.InBounds(x, y) ==> r.grid[y][x] == Empty
    ensures forall j, i :: m.InBounds(i, j) && (i != x || j != y) ==> r.grid[j][i] == m.grid[j][i]
    ensures !m.InBounds(x, y) ==> r == m
  {
    if x < m.width && y < m.height then m.(grid := SetCell(m.grid, x, y, Empty)) else m
  }

  /** A completed placement: the new grid and the samples not yet drawn. */
  datatype Placement = Placement(grid: Grid, rest: seq<Pos>)

  /** Every sample lies on the grid, as `gen_range(0..width)` and `gen_range(0..height)` guarantee. */
  predicate SamplesOnGrid(g: Grid, samples: seq<Pos>)
    requires |g| > 0
  {
    forall i :: 0 <= i < |samples| ==> samples[i].y < |g| && samples[i].x < |g[0]|
  }

  /** `after` differs from `before` only in cells that were Empty and now hold `kind`. */
  predicate OnlyEmptyClaimed(before: Grid, after: Grid, kind: Cell) {
    && |after| == |before|
    && (forall j :: 0 <= j < |before| ==> |after[j]| == |before[j]|)
    && forall j, i :: 0 <= j < |before| && 0 <= i < |before[j]| ==>
         after[j][i] == before[j][i] || (before[j][i] == Empty && after[j][i] == kind)
  }

  /**
   * Rejection sampling: draws coordinates from `samples` in order and claims each drawn
   * cell that is Empty, until `count` cells hold `kind`. The Rust code loops forever when
   * too few Empty cells exist; here running out of samples reports failure instead.
   */
  function PlaceRandom(g: Grid, kind: Cell, count: nat, samples: seq<Pos>): (r: Option<Placement>)
    requires |g| > 0 && Rectangular(g, |g[0]|, |g|)
    requires SamplesOnGrid(g, samples)
    ensures r.Some? ==> Rectangular(r.value.grid, |g[0]|, |g|)
    ensures r.Some? ==> OnlyEmptyClaimed(g, r.value.grid, kind)
    ensures r.Some? ==> |r.value.rest| <= |samples| && r.value.rest == samples[|samples| - |r.value.rest|..]
    decreases |samples|
  {
    if count == 0 then Some(Placement(g, samples))
    else if samples == [] then None
    else
      var p := samples[0];
      if g[p.y][p.x] == Empty then
        var g' := SetCell(g, p.x, p.y, kind);
        var r := PlaceRandom(g', kind, count - 1, samples[1..]);
        if r.Some? then
          ClaimStep(g, p, kind, r.value.grid);
          r
        else r
      else
        PlaceRandom(g, kind, count, samples[1..])
  }

  /** One claimed cell followed by further claims is still a claim of Empty cells only. */
  lemma ClaimStep(g: Grid, p: Pos, kind: Cell, after: Grid)
    requires p.y < |g| && p.x < |g[p.y]| && g[p.y][p.x] == Empty
    requires OnlyEmptyClaimed(SetCell(g, p.x, p.y, kind), after, kind)
    ensures OnlyEmptyClaimed(g, after, kind)
  {
    var mid := SetCell(g, p.x, p.y, kind);
    forall j, i | 0 <= j < |g| && 0 <= i < |g[j]|
      ensures after[j][i] == g[j][i] || (g[j][i] == Empty && after[j][i] == kind)
    {
      assert |mid[j]| == |g[j]|;
      if j == p.y && i == p.x {
        assert mid[j][i] == kind;
      } else {
        assert mid[j][i] == g[j][i];
      }
    }
  }

  /**
   * A finished placement moves `count` units of count from Empty to `kind`; every other
   * kind keeps its count.
   */
  lemma {:induction false} PlaceRandomCounts(g: Grid, kind: Cell, count: nat, samples: seq<Pos>, k: Cell)
    requires |g| > 0 && Rectangular(g, |g[0]|, |g|)
    requires SamplesOnGrid(g, samples)
    requires kind != Empty
    ensures var r := PlaceRandom(g, kind, count, samples);
            r.Some? ==>
              CountIn(r.value.grid, k) + (if k == Empty then count else 0)
              == CountIn(g, k) + (if k == kind then count else 0)
    decreases |samples|
  {
    if count > 0 && samples != [] {
      var p := samples[0];
      if g[p.y][p.x] == Empty {
        var g' := SetCell(g, p.x, p.y, kind);
        CountAfterSet(g, p.x, p.y, kind, k);
        PlaceRandomCounts(g', kind, count - 1, samples[1..], k);
      } else {
        PlaceRandomCounts(g, kind, count, samples[1..], k);
      }
    }
  }

  /** With fewer Empty cells than requested, no finite sample sequence lets placement finish. */
  lemma PlaceRandomFailsWithoutRoom(g: Grid, kind: Cell, count: nat, samples: seq<Pos>)
    requires |g| > 0 && Rectangular(g, |g[0]|, |g|)
    requires SamplesOnGrid(g, samples)
    requires kind != Empty && CountIn(g, Empty) < count
    ensures PlaceRandom(g, kind, count, samples) == None
  {
    PlaceRandomCounts(g, kind, count, samples, Empty);
  }

  /**
   * The resource stage of map generation: Energy, then Mineral, then Science, drawing all
   * coordinates from one sample stream. Fails if any of the three placements runs out.
   */
  function ScatterResources(m: Map, energy: nat, mineral: nat, science: nat, samples: seq<Pos>): (r: Option<Map>)
    requires m.Valid() && m.height > 0
    requires SamplesOnGrid(m.grid, samples)
    ensures r.Some? ==> r.value.Valid() && r.value.width == m.width && r.value.height == m.height
    ensures r.Some? ==> forall j, i :: m.InBounds(i, j) ==>
              r.value.grid[j][i] == m.grid[j][i] || (m.grid[j][i] == Empty && IsResource(r.value.grid[j][i]))
  {
    var g0 := m.grid;
    match PlaceRandom(g0, Energy, energy, samples)
    case None => None
    case Some(p1) =>
      assert SamplesOnGrid(p1.grid, p1.rest);
      match PlaceRandom(p1.grid, Mineral, mineral, p1.rest)
      case None => None
      case Some(p2) =>
        assert SamplesOnGrid(p2.grid, p2.rest);
        match PlaceRandom(p2.grid, Science, science, p2.rest)
        case None => None
        case Some(p3) =>
          ClaimChain(g0, p1.grid, p2.grid, p3.grid);
          Some(m.(grid := p3.grid))
  }

  /**
   * A finished scatter adds exactly the requested number of each resource kind, takes
   * that many Empty cells in all, and leaves the Obstacles alone.
   */
  lemma ScatterResourcesCounts(m: Map, energy: nat, mineral: nat, science: nat, samples: seq<Pos>)
    requires m.Valid() && m.height > 0
    requires SamplesOnGrid(m.grid, samples)
    ensures var r := ScatterResources(m, energy, mineral, science, samples);
            r.Some? ==>
              && CountIn(r.value.grid, Energy) == CountIn(m.grid, Energy) + energy
              && CountIn(r.value.grid, Mineral) == CountIn(m.grid, Mineral) + mineral
              && CountIn(r.value.grid, Science) == CountIn(m.grid, Science) + science
              && CountIn(r.value.grid, Empty) + energy + mineral + science == CountIn(m.grid, Empty)
              && CountIn(r.value.grid, Obstacle) == CountIn(m.grid, Obstacle)
  {
    var g0 := m.grid;
    var r := ScatterResources(m, energy, mineral, science, samples);
    var r1 := PlaceRandom(g0, Energy, energy, samples);
    if r1.Some? {
      var p1 := r1.value;
      assert SamplesOnGrid(p1.grid, p1.rest);
      var r2 := PlaceRandom(p1.grid, Mineral, mineral, p1.rest);
      if r2.Some? {
        var p2 := r2.value;
        assert SamplesOnGrid(p2.grid, p2.rest);
        var r3 := PlaceRandom(p2.grid, Science, science, p2.rest);
        if r3.Some? {
          assert r == Some(m.(grid := r3.value.grid));
          var g1, g2, g3 := p1.grid, p2.grid, r3.value.grid;
          forall k | k in {Energy, Mineral, Science, Empty, Obstacle}
            ensures CountIn(g1, k) + (if k == Empty then energy else 0) == CountIn(g0, k) + (if k == Energy then energy else 0)
            ensures CountIn(g2, k) + (if k == Empty then mineral else 0) == CountIn(g1, k) + (if k == Mineral then mineral else 0)
            ensures CountIn(g3, k) + (if k == Empty then science else 0) == CountIn(g2, k) + (if k == Science then science else 0)
          {
            PlaceRandomCounts(g0, Energy, energy, samples, k);
            PlaceRandomCounts(g1, Mineral, mineral, p1.rest, k);
            PlaceRandomCounts(g2, Science, science, p2.rest, k);
          }
        } else {
          assert r == None;
        }
      } else {
        assert r == None;
      }
    } else {
      assert r == None;
    }
  }

  /** Three successive claims of Empty cells only ever turn Empty cells into resources. */
  lemma ClaimChain(g0: Grid, g1: Grid, g2: Grid, g3: Grid)
    requires OnlyEmptyClaimed(g0, g1, Energy)
    requires OnlyEmptyClaimed(g1, g2, Mineral)
    requires OnlyEmptyClaimed(g2, g3, Science)
    ensures |g3| == |g0| && forall j :: 0 <= j < |g0| ==> |g3[j]| == |g0[j]|
    ensures forall j, i :: 0 <= j < |g0| && 0 <= i < |g0[j]| ==>
              g3[j][i] == g0[j][i] || (g0[j][i] == Empty && IsResource(g3[j][i]))
  {
    forall j, i | 0 <= j < |g0| && 0 <= i < |g0[j]|
      ensures g3[j][i] == g0[j][i] || (g0[j][i] == Empty && IsResource(g3[j][i]))
    {
      assert |g1[j]| == |g0[j]| && |g2[j]| == |g0[j]|;
    }
  }
}
