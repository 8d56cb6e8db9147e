/** A robot and its movement, sensing and harvesting primitives (src/robot/mod.rs). */
module Robots {
  import opened Cells
  import opened Grids

  datatype Direction = North | South | East | West

  datatype Role = Explorer | Collector | Scientist

  /**
   * A robot: its position, facing and role, the cells it has seen (oldest first),
   * the resources it carries, and whether it is heading back to the station.
   */
  datatype Robot = Robot(
    x: nat,
    y: nat,
    direction: Direction,
    role: Role,
    discovered: seq<(Pos, Cell)>,
    collected: seq<Cell>,
    returningToStation: bool)

  /** A robot built at a position with nothing seen, nothing carried and no errand. */
  function NewRobot(x: nat, y: nat, direction: Direction, role: Role): (r: Robot)
    ensures r.x == x && r.y == y && r.direction == direction && r.role == role
    ensures r.discovered == [] && r.collected == [] && !r.returningToStation
  {
    Robot(x, y, direction, role, [], [], false)
  }

  /** Column offset of one step in direction `d` (x grows to the East). */
  function DX(d: Direction): int {
    match d
    case East => 1
    case West => -1
    case _ => 0
  }

  /** Row offset of one step in direction `d` (y grows to the South). */
  function DY(d: Direction): int {
    match d
    case South => 1
    case North => -1
    case _ => 0
  }

  /** A quarter turn counter-clockwise on screen: the step (dx, dy) becomes (dy, -dx). */
  function TurnLeft(d: Direction): (r: Direction)
    ensures DX(r) == DY(d) && DY(r) == -DX(d)
  {
    match d
    case North => West
    case West => South
    case South => East
    case East => North
  }

  /** A quarter turn clockwise on screen: the step (dx, dy) becomes (-dy, dx). */
  function TurnRight(d: Direction): (r: Direction)
    ensures DX(r) == -DY(d) && DY(r) == DX(d)
  {
    match d
    case North => East
    case East => South
    case South => West
    case West => North
  }

  /** A direction is determined by its step. */
  lemma StepDeterminesDirection(a: Direction, b: Direction)
    requires DX(a) == DX(b) && DY(a) == DY(b)
    ensures a == b
  {
  }

  /** Turning left then right, or right then left, restores the facing. */
  lemma TurnsCancel(d: Direction)
    ensures TurnRight(TurnLeft(d)) == d
    ensures TurnLeft(TurnRight(d)) == d
  {
    StepDeterminesDirection(TurnRight(TurnLeft(d)), d);
    StepDeterminesDirection(TurnLeft(TurnRight(d)), d);
  }

  /** Four left turns are the identity, and no single turn keeps the facing. */
  lemma TurnLeftIsFourCycle(d: Direction)
    ensures TurnLeft(TurnLeft(TurnLeft(TurnLeft(d)))) == d
    ensures TurnLeft(d) != d && TurnLeft(TurnLeft(d)) != d
  {
    StepDeterminesDirection(TurnLeft(TurnLeft(TurnLeft(TurnLeft(d)))), d);
  }

  /** The robot stands on the map. */
  predicate OnMap(r: Robot, m: Map) {
    m.InBounds(r.x, r.y)
  }

  /** The cell the robot stands on. */
  function Under(r: Robot, m: Map): Cell
    requires m.Valid() && OnMap(r, m)
  {
    m.grid[r.y][r.x]
  }

  /** `r2` is `r` moved to another position, with every other field kept. */
  predicate OnlyMoved(r: Robot, r2: Robot) {
    r2 == r.(x := r2.x, y := r2.y)
  }

  /**
   * One step forward: the target is the neighbour in the facing direction; the robot stays
   * put when that neighbour is off the map or an Obstacle.
   */
  function MoveForward(r: Robot, m: Map): (r2: Robot)
    requires m.Valid() && OnMap(r, m)
    ensures OnlyMoved(r, r2) && OnMap(r2, m)
    ensures var tx, ty := r.x + DX(r.direction), r.y + DY(r.direction);
            if m.InBounds(tx, ty) && m.grid[ty][tx] != Obstacle
            then r2.x == tx && r2.y == ty
            else r2.x == r.x && r2.y == r.y
  {
    var (nx, ny) :=
      match r.direction
      case North => if r.y > 0 then (r.x, r.y - 1) else (r.x, r.y)
      case South => if r.y < m.height - 1 then (r.x, r.y + 1) else (r.x, r.y)
      case West => if r.x > 0 then (r.x - 1, r.y) else (r.x, r.y)
      case East => if r.x < m.width - 1 then (r.x + 1, r.y) else (r.x, r.y);
    if m.grid[ny][nx] != Obstacle then r.(x := nx, y := ny) else r
  }

  /** Moving forward never ends on an Obstacle it was not already standing on, and changes one coordinate by at most one. */
  lemma MoveForwardAvoidsObstacles(r: Robot, m: Map)
    requires m.Valid() && OnMap(r, m)
    ensures var r2 := MoveForward(r, m);
            (r2.x != r.x || r2.y != r.y) ==> m.grid[r2.y][r2.x] != Obstacle
    ensures var r2 := MoveForward(r, m);
            Abs(r2.x - r.x) + Abs(r2.y - r.y) <= 1
  {
  }

  function Abs(n: int): nat {
    if n < 0 then -n else n
  }

  /** On an open 10 by 10 map, a robot facing East from the corner steps to (1, 0). */
  lemma MoveForwardOpenMapExample()
    ensures var m := Map(10, 10, seq(10, _ => seq(10, _ => Empty)));
            var r := MoveForward(NewRobot(0, 0, East, Explorer), m);
            r.x == 1 && r.y == 0 && r.direction == East
  {
    var m := Map(10, 10, seq(10, _ => seq(10, _ => Empty)));
    assert m.grid[0][1] == Empty;
  }

  /** `move_random` with the drawn direction supplied by the caller. */
  function MoveRandom(r: Robot, m: Map, dir: Direction): (r2: Robot)
    requires m.Valid() && OnMap(r, m)
    ensures r2.direction == dir && OnMap(r2, m)
    ensures r2 == r.(x := r2.x, y := r2.y, direction := dir)
    ensures var tx, ty := r.x + DX(dir), r.y + DY(dir);
            if m.InBounds(tx, ty) && m.grid[ty][tx] != Obstacle
            then r2.x == tx && r2.y == ty
            else r2.x == r.x && r2.y == r.y
  {
    MoveForward(r.(direction := dir), m)
  }

  // ---------------------------------------------------------------- vision

  /** `p` lies within `range` steps of the robot along both axes (a Chebyshev ball). */
  predicate WithinRange(p: Pos, r: Robot, range: nat) {
    Abs(p.x - r.x) <= range && Abs(p.y - r.y) <= range
  }

  /** `p` comes before `q` in row-major order: by row, then by column. */
  predicate Before(p: Pos, q: Pos) {
    p.y < q.y || (p.y == q.y && p.x < q.x)
  }

  /** Every sighting names a cell of the map together with that cell's current kind. */
  predicate Current(s: seq<(Pos, Cell)>, m: Map)
    requires m.Valid()
  {
    forall i :: 0 <= i < |s| ==>
      m.InBounds(s[i].0.x, s[i].0.y) && s[i].1 == m.grid[s[i].0.y][s[i].0.x]
  }

  /** Sightings are strictly increasing in row-major order (so none repeats). */
  predicate RowMajor(s: seq<(Pos, Cell)>) {
    forall i, j :: 0 <= i < j < |s| ==> Before(s[i].0, s[j].0)
  }

  /** All sightings lie in the rectangle of columns x0..x1 and rows y0..y1. */
  predicate InRect(s: seq<(Pos, Cell)>, x0: nat, x1: nat, y0: nat, y1: nat) {
    forall i :: 0 <= i < |s| ==> x0 <= s[i].0.x <= x1 && y0 <= s[i].0.y <= y1
  }

  /** Position `p` has a sighting in `s`. */
  predicate Sees(s: seq<(Pos, Cell)>, p: Pos) {
    exists i :: 0 <= i < |s| && s[i].0 == p
  }

  /** The cells of row `y` from column `x0` to column `x1`, left to right. */
  function RowSight(m: Map, y: nat, x0: nat, x1: nat): (s: seq<(Pos, Cell)>)
    requires m.Valid() && y < m.height && x1 < m.width
    ensures Current(s, m) && RowMajor(s) && InRect(s, x0, x1, y, y)
    ensures |s| == if x0 <= x1 then x1 - x0 + 1 else 0
    ensures forall i :: 0 <= i < |s| ==> s[i].0.x == x0 + i
    decreases x1 + 1 - x0
  {
    if x0 > x1 then []
    else [(Pos(x0, y), m.grid[y][x0])] + RowSight(m, y, x0 + 1, x1)
  }

  /** The cells of rows `y0` to `y1`, each clipped to columns `x0..x1`, in row-major order. */
  function BoxSight(m: Map, x0: nat, x1: nat, y0: nat, y1: nat): (s: seq<(Pos, Cell)>)
    requires m.Valid() && x1 < m.width && y1 < m.height
    ensures Current(s, m) && RowMajor(s) && InRect(s, x0, x1, y0, y1)
    decreases y1 + 1 - y0
  {
    if y0 > y1 then []
    else RowSight(m, y0, x0, x1) + BoxSight(m, x0, x1, y0 + 1, y1)
  }

  /** Every cell of the rectangle has a sighting in the row. */
  lemma {:induction false} RowSightComplete(m: Map, y: nat, x0: nat, x1: nat, p: Pos)
    requires m.Valid() && y < m.height && x1 < m.width
    requires x0 <= p.x <= x1 && p.y == y
    ensures Sees(RowSight(m, y, x0, x1), p)
  {
    var s := RowSight(m, y, x0, x1);
    assert s[p.x - x0].0 == p;
  }

  /** Every cell of the rectangle has a sighting in the box. */
  lemma {:induction false} BoxSightComplete(m: Map, x0: nat, x1: nat, y0: nat, y1: nat, p: Pos)
    requires m.Valid() && x1 < m.width && y1 < m.height
    requires x0 <= p.x <= x1 && y0 <= p.y <= y1
    ensures Sees(BoxSight(m, x0, x1, y0, y1), p)
    decreases y1 + 1 - y0
  {
    var row := RowSight(m, y0, x0, x1);
    var rest := BoxSight(m, x0, x1, y0 + 1, y1);
    assert BoxSight(m, x0, x1, y0, y1) == row + rest;
    if p.y == y0 {
      RowSightComplete(m, y0, x0, x1, p);
      var i :| 0 <= i < |row| && row[i].0 == p;
      assert (row + rest)[i].0 == p;
    } else {
      BoxSightComplete(m, x0, x1, y0 + 1, y1, p);
      var i :| 0 <= i < |rest| && rest[i].0 == p;
      assert (row + rest)[|row| + i].0 == p;
    }
  }

  /** `a.saturating_sub(b)`. */
  function SaturatingSub(a: nat, b: nat): nat {
    if a >= b then a - b else 0
  }

  /** `min(a, b)`. */
  function Min(a: nat, b: nat): nat {
    if a <= b then a else b
  }

  /** The clipped square around the robot: columns and rows within `range`, cut to the map. */
  function Sight(r: Robot, m: Map, range: nat): (seen: seq<(Pos, Cell)>)
    requires m.Valid() && OnMap(r, m)
    ensures Current(seen, m) && RowMajor(seen)
    ensures forall i :: 0 <= i < |seen| ==> WithinRange(seen[i].0, r, range)
  {
    BoxSight(m, SaturatingSub(r.x, range), Min(r.x + range, m.width - 1),
                SaturatingSub(r.y, range), Min(r.y + range, m.height - 1))
  }

  /** Every map cell within `range` of the robot is in its sight. */
  lemma SightComplete(r: Robot, m: Map, range: nat, p: Pos)
    requires m.Valid() && OnMap(r, m)
    requires m.InBounds(p.x, p.y) && WithinRange(p, r, range)
    ensures Sees(Sight(r, m, range), p)
  {
    var x0, x1 := SaturatingSub(r.x, range), Min(r.x + range, m.width - 1);
    var y0, y1 := SaturatingSub(r.y, range), Min(r.y + range, m.height - 1);
    assert x0 <= p.x <= x1 by {
      assert p.x <= r.x + range && r.x <= p.x + range;
    }
    assert y0 <= p.y <= y1 by {
      assert p.y <= r.y + range && r.y <= p.y + range;
    }
    BoxSightComplete(m, x0, x1, y0, y1, p);
  }

  /**
   * Appends to `discovered` the cells within `range` of the robot, clipped to the map,
   * in row-major order, each with its current kind.
   */
  function Vision(r: Robot, m: Map, range: nat): (r2: Robot)
    requires m.Valid() && OnMap(r, m)
    ensures r2 == r.(discovered := r2.discovered)
    ensures |r2.discovered| >= |r.discovered| && r2.discovered[..|r.discovered|] == r.discovered
    ensures var seen := r2.discovered[|r.discovered|..];
            && Current(seen, m)
            && RowMajor(seen)
            && forall i :: 0 <= i < |seen| ==> WithinRange(seen[i].0, r, range)
  {
    var seen := Sight(r, m, range);
    assert (r.discovered + seen)[|r.discovered|..] == seen;
    r.(discovered := r.discovered + seen)
  }

  /** Vision misses nothing: every map cell within `range` of the robot is among the new sightings. */
  lemma VisionComplete(r: Robot, m: Map, range: nat, p: Pos)
    requires m.Valid() && OnMap(r, m)
    requires m.InBounds(p.x, p.y) && WithinRange(p, r, range)
    ensures Sees(Vision(r, m, range).discovered[|r.discovered|..], p)
  {
    SightComplete(r, m, range, p);
    assert Vision(r, m, range).discovered[|r.discovered|..] == Sight(r, m, range);
  }

  // ---------------------------------------------------------------- harvesting and scanning

  /** A robot together with the map after one of its actions. */
  datatype Step = Step(robot: Robot, world: Map)

  /** `m2` has the shape of `m` and differs from it at most in the cell at column `x`, row `y`. */
  predicate ChangedAtMost(m: Map, m2: Map, x: nat, y: nat)
    requires m.Valid()
  {
    && m2.Valid() && m2.width == m.width && m2.height == m.height
    && forall j, i :: 0 <= j < m.height && 0 <= i < m.width && (i != x || j != y) ==> m2.grid[j][i] == m.grid[j][i]
  }

  /**
   * Harvests an Energy or Mineral cell underneath: the cell becomes Empty and its kind is
   * appended to `collected`. On any other cell the robot makes a random move instead,
   * in the direction `dir` supplied by the caller.
   */
  function CollectResource(r: Robot, m: Map, dir: Direction): (s: Step)
    requires m.Valid() && OnMap(r, m)
    ensures ChangedAtMost(m, s.world, r.x, r.y) && OnMap(s.robot, s.world)
    ensures var c := Under(r, m);
            if c == Energy || c == Mineral then
              && s.world.grid[r.y][r.x] == Empty
              && s.robot == r.(collected := r.collected + [c])
            else
              && s.world == m
              && s.robot == MoveRandom(r, m, dir)
  {
    var c := m.grid[r.y][r.x];
    if c == Energy || c == Mineral then
      Step(r.(collected := r.collected + [c]), m.(grid := SetCell(m.grid, r.x, r.y, Empty)))
    else
      Step(MoveRandom(r, m, dir), m)
  }

  /** Harvesting moves items from the map into the robot: per kind, map plus load is unchanged. */
  lemma CollectResourceConserves(r: Robot, m: Map, dir: Direction, k: Cell)
    requires m.Valid() && OnMap(r, m) && k != Empty
    ensures var s := CollectResource(r, m, dir);
            CountIn(s.world.grid, k) + multiset(s.robot.collected)[k] == CountIn(m.grid, k) + multiset(r.collected)[k]
  {
    var c := m.grid[r.y][r.x];
    var s := CollectResource(r, m, dir);
    if c == Energy || c == Mineral {
      CountAfterSet(m.grid, r.x, r.y, Empty, k);
      assert s.world.grid == SetCell(m.grid, r.x, r.y, Empty);
      assert multiset(s.robot.collected)[k] == multiset(r.collected)[k] + (if c == k then 1 else 0);
    } else {
      assert s.world == m && s.robot.collected == r.collected;
    }
  }

  /** The number of sightings of Science. */
  function ScienceSightings(s: seq<(Pos, Cell)>): (n: nat)
    ensures n <= |s|
    ensures n > 0 <==> exists i :: 0 <= i < |s| && s[i].1 == Science
  {
    if s == [] then 0
    else
      var n := ScienceSightings(s[1..]);
      assert forall i :: 1 <= i < |s| ==> s[i] == s[1..][i - 1];
      (if s[0].1 == Science then 1 else 0) + n
  }

  /**
   * Looks one cell around and raises `returningToStation` once any sighting, old or new,
   * is Science. The flag is never lowered here.
   */
  function Scan(r: Robot, m: Map): (r2: Robot)
    requires m.Valid() && OnMap(r, m)
    ensures r2.discovered == Vision(r, m, 1).discovered
    ensures r2 == r.(discovered := r2.discovered, returningToStation := r2.returningToStation)
    ensures r2.returningToStation <==>
              r.returningToStation || exists i :: 0 <= i < |r2.discovered| && r2.discovered[i].1 == Science
  {
    var seen := Vision(r, m, 1);
    if ScienceSightings(seen.discovered) > 0 then seen.(returningToStation := true) else seen
  }

  // ---------------------------------------------------------------- greedy step

  /** Manhattan distance from the robot to the target. */
  function Distance(r: Robot, tx: nat, ty: nat): nat {
    Abs(r.x - tx) + Abs(r.y - ty)
  }

  /** The column neighbour towards `tx` is an Obstacle. */
  predicate BlockedX(r: Robot, tx: nat, m: Map)
    requires m.Valid() && OnMap(r, m) && tx < m.width
  {
    (r.x < tx && m.grid[r.y][r.x + 1] == Obstacle) || (r.x > tx && m.grid[r.y][r.x - 1] == Obstacle)
  }

  /** The row neighbour towards `ty` is an Obstacle. */
  predicate BlockedY(r: Robot, ty: nat, m: Map)
    requires m.Valid() && OnMap(r, m) && ty < m.height
  {
    (r.y < ty && m.grid[r.y + 1][r.x] == Obstacle) || (r.y > ty && m.grid[r.y - 1][r.x] == Obstacle)
  }

  /**
   * One greedy step towards the target: along x if that is open, otherwise along y.
   * A robot that moves gets one step closer and never lands on an Obstacle.
   */
  function MoveTowards(r: Robot, tx: nat, ty: nat, m: Map): (r2: Robot)
    requires m.Valid() && OnMap(r, m) && m.InBounds(tx, ty)
    ensures OnlyMoved(r, r2) && OnMap(r2, m)
    ensures r2.x == r.x || r2.y == r.y
    ensures Abs(r2.x - r.x) + Abs(r2.y - r.y) <= 1
    ensures (r2.x != r.x || r2.y != r.y) ==>
              Distance(r2, tx, ty) + 1 == Distance(r, tx, ty) && m.grid[r2.y][r2.x] != Obstacle
    ensures r2.y != r.y ==> r.x == tx || BlockedX(r, tx, m)
    ensures r2.x == r.x && r2.y == r.y <==>
              (r.x == tx || BlockedX(r, tx, m)) && (r.y == ty || BlockedY(r, ty, m))
  {
    if r.x < tx && m.grid[r.y][r.x + 1] != Obstacle then r.(x := r.x + 1)
    else if r.x > tx && m.grid[r.y][r.x - 1] != Obstacle then r.(x := r.x - 1)
    else if r.y < ty && m.grid[r.y + 1][r.x] != Obstacle then r.(y := r.y + 1)
    else if r.y > ty && m.grid[r.y - 1][r.x] != Obstacle then r.(y := r.y - 1)
    else r
  }

  // ---------------------------------------------------------------- one turn

  /**
   * One turn of the role dispatch in this file: an Explorer wanders, a Collector harvests
   * or wanders, and a Scientist heads home once returning, otherwise scans and wanders.
   * `dir` is the direction any random move draws.
   */
  function Act(r: Robot, m: Map, stationX: nat, stationY: nat, dir: Direction): (s: Step)
    requires m.Valid() && OnMap(r, m) && m.InBounds(stationX, stationY)
    ensures ChangedAtMost(m, s.world, r.x, r.y) && OnMap(s.robot, s.world)
    ensures s.robot.role == r.role
    ensures r.returningToStation ==> s.robot.returningToStation
    ensures r.role != Collector ==> s.world == m && s.robot.collected == r.collected
    ensures |s.robot.collected| >= |r.collected| && s.robot.collected[..|r.collected|] == r.collected
    ensures r.role == Scientist && r.returningToStation ==> s.robot == MoveTowards(r, stationX, stationY, m)
    ensures r.role == Scientist && !r.returningToStation ==>
              && s.robot.discovered == Vision(r, m, 1).discovered
              && (s.robot.returningToStation <==>
                    exists i :: 0 <= i < |s.robot.discovered| && s.robot.discovered[i].1 == Science)
  {
    match r.role
    case Explorer => Step(MoveRandom(r, m, dir), m)
    case Collector => CollectResource(r, m, dir)
    case Scientist =>
      if r.returningToStation then Step(MoveTowards(r, stationX, stationY, m), m)
      else Step(MoveRandom(Scan(r, m), m, dir), m)
  }

  /**
   * The Collector branch of this dispatch harvests with no capacity check: a Collector
   * already holding two items takes a third.
   */
  lemma ActCollectorExceedsCapacity()
    ensures var m := Map(1, 1, [[Energy]]);
            var r := Robot(0, 0, North, Collector, [], [Energy, Mineral], false);
            |Act(r, m, 0, 0, North).robot.collected| == 3
  {
    var m := Map(1, 1, [[Energy]]);
    var r := Robot(0, 0, North, Collector, [], [Energy, Mineral], false);
    assert Under(r, m) == Energy;
  }
}
