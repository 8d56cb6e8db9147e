/**
 * The turn shared by the two carrying roles (src/robot/collector.rs and
 * src/robot/scientist.rs differ only in the kinds they take and their capacity):
 * harvest the cell underneath if it is wanted and there is room, deposit everything
 * when full and standing on the station, otherwise move.
 *
 * Where the robot moves is decided by pathfinding routines outside this model; their
 * outcome is the caller-supplied `landing`, which lies on the map, and `facing`, the
 * direction the robot is left facing there.
 */
module Carrier {
  import opened Cells
  import opened Grids
  import opened Robots
  import opened StationLogic
  import opened Stations

  /** Robot, map and station after one turn. */
  datatype Turn = Turn(robot: Robot, world: Map, station: Station)

  /** The robot takes the cell underneath: it is one of `kinds` and the robot has room. */
  predicate Harvests(r: Robot, m: Map, kinds: set<Cell>, capacity: nat)
    requires m.Valid() && OnMap(r, m)
  {
    Under(r, m) in kinds && |r.collected| < capacity
  }

  /** What the robot carries once the harvest phase is over. */
  function Load(r: Robot, m: Map, kinds: set<Cell>, capacity: nat): seq<Cell>
    requires m.Valid() && OnMap(r, m)
  {
    if Harvests(r, m, kinds, capacity) then r.collected + [Under(r, m)] else r.collected
  }

  /** The robot unloads: it is full after the harvest phase and stands on the station. */
  predicate Deposits(r: Robot, m: Map, stationX: nat, stationY: nat, kinds: set<Cell>, capacity: nat)
    requires m.Valid() && OnMap(r, m)
  {
    |Load(r, m, kinds, capacity)| >= capacity && r.x == stationX && r.y == stationY
  }

  /** Every carried item is one of `kinds`. */
  predicate AllOf(items: seq<Cell>, kinds: set<Cell>) {
    forall i :: 0 <= i < |items| ==> items[i] in kinds
  }

  /** Per kind, the units on the map, on the robot and in the station's pool. */
  function Total(world: Map, robot: Robot, station: Station, k: Cell): nat {
    CountIn(world.grid, k) + multiset(robot.collected)[k] + Amount(station.resourcesCollected, k)
  }

  /**
   * The first half of a turn: take the cell underneath if it is wanted and there is room.
   * The cell changes exactly when it is taken, and then it becomes Empty.
   */
  function HarvestPhase(r: Robot, m: Map, kinds: set<Cell>, capacity: nat): (h: Step)
    requires m.Valid() && OnMap(r, m) && Empty !in kinds
    ensures ChangedAtMost(m, h.world, r.x, r.y)
    ensures h.world.grid[r.y][r.x] != Under(r, m) <==> Harvests(r, m, kinds, capacity)
    ensures Harvests(r, m, kinds, capacity) ==> h.world.grid[r.y][r.x] == Empty
    ensures h.robot == r.(collected := Load(r, m, kinds, capacity))
  {
    var c := m.grid[r.y][r.x];
    if c in kinds && |r.collected| < capacity then
      Step(r.(collected := r.collected + [c]), m.(grid := SetCell(m.grid, r.x, r.y, Empty)))
    else
      Step(r, m)
  }

  /** Harvesting moves one unit from the map onto the robot, per kind. */
  lemma HarvestConserves(r: Robot, m: Map, kinds: set<Cell>, capacity: nat, k: Cell)
    requires m.Valid() && OnMap(r, m) && Empty !in kinds && k != Empty
    ensures var h := HarvestPhase(r, m, kinds, capacity);
            CountIn(h.world.grid, k) + multiset(h.robot.collected)[k] == CountIn(m.grid, k) + multiset(r.collected)[k]
  {
    if Harvests(r, m, kinds, capacity) {
      CountAfterSet(m.grid, r.x, r.y, Empty, k);
    }
  }

  /**
   * One turn: the harvest phase, then either the deposit (full and on the station) or the
   * move to `landing`, facing `facing`, with the load kept.
   */
  function CarrierTurn(r: Robot, m: Map, stationX: nat, stationY: nat, st: Station, landing: Pos, facing: Direction,
                       kinds: set<Cell>, capacity: nat): (t: Turn)
    requires m.Valid() && OnMap(r, m) && m.InBounds(landing.x, landing.y)
    requires Empty !in kinds
    ensures t.world == HarvestPhase(r, m, kinds, capacity).world
    ensures t.robot == r.(x := t.robot.x, y := t.robot.y, direction := t.robot.direction, collected := t.robot.collected)
    ensures Deposits(r, m, stationX, stationY, kinds, capacity) ==>
              && t.robot.collected == []
              && t.robot.x == r.x && t.robot.y == r.y && t.robot.direction == r.direction
              && t.station == st.(resourcesCollected := t.station.resourcesCollected)
              && forall k :: Amount(t.station.resourcesCollected, k)
                             == Amount(st.resourcesCollected, k) + multiset(Load(r, m, kinds, capacity))[k]
    ensures !Deposits(r, m, stationX, stationY, kinds, capacity) ==>
              && t.station == st
              && t.robot.collected == Load(r, m, kinds, capacity)
              && t.robot.x == landing.x && t.robot.y == landing.y && t.robot.direction == facing
  {
    var h := HarvestPhase(r, m, kinds, capacity);
    if |h.robot.collected| >= capacity && h.robot.x == stationX && h.robot.y == stationY then
      Turn(h.robot.(collected := []), h.world, ReceiveResources(st, h.robot.collected))
    else
      Turn(h.robot.(x := landing.x, y := landing.y, direction := facing), h.world, st)
  }

  /** The load never exceeds the capacity it started within, and holds only wanted kinds. */
  lemma CarrierTurnKeepsLoad(r: Robot, m: Map, stationX: nat, stationY: nat, st: Station, landing: Pos, facing: Direction,
                             kinds: set<Cell>, capacity: nat)
    requires m.Valid() && OnMap(r, m) && m.InBounds(landing.x, landing.y)
    requires Empty !in kinds
    ensures var t := CarrierTurn(r, m, stationX, stationY, st, landing, facing, kinds, capacity);
            && OnMap(t.robot, t.world)
            && (|r.collected| <= capacity ==> |t.robot.collected| <= capacity)
            && (AllOf(r.collected, kinds) ==> AllOf(t.robot.collected, kinds))
  {
    var load := Load(r, m, kinds, capacity);
    if AllOf(r.collected, kinds) && Harvests(r, m, kinds, capacity) {
      assert forall i :: 0 <= i < |load| ==> load[i] == if i < |r.collected| then r.collected[i] else Under(r, m);
    }
  }

  /** A turn moves items between map, robot and station but never creates or destroys one. */
  lemma CarrierTurnConserves(r: Robot, m: Map, stationX: nat, stationY: nat, st: Station, landing: Pos, facing: Direction,
                             kinds: set<Cell>, capacity: nat, k: Cell)
    requires m.Valid() && OnMap(r, m) && m.InBounds(landing.x, landing.y)
    requires Empty !in kinds && k != Empty
    ensures var t := CarrierTurn(r, m, stationX, stationY, st, landing, facing, kinds, capacity);
            Total(t.world, t.robot, t.station, k) == Total(m, r, st, k)
  {
    var h := HarvestPhase(r, m, kinds, capacity);
    HarvestConserves(r, m, kinds, capacity, k);
    var t := CarrierTurn(r, m, stationX, stationY, st, landing, facing, kinds, capacity);
    if Deposits(r, m, stationX, stationY, kinds, capacity) {
      // The whole load moves into the pool.
      assert t.robot.collected == [];
      assert Amount(t.station.resourcesCollected, k) == Amount(st.resourcesCollected, k) + multiset(h.robot.collected)[k];
    } else {
      // The load stays on the robot.
      assert t.robot.collected == h.robot.collected && t.station == st;
    }
  }

  /** A load made only of kind `c` holds `|items|` units of `c` and none of anything else. */
  lemma {:induction false} SingleKindCount(items: seq<Cell>, c: Cell)
    requires AllOf(items, {c})
    ensures multiset(items)[c] == |items|
    ensures forall k :: k != c ==> multiset(items)[k] == 0
  {
    if items != [] {
      assert items == items[..|items| - 1] + [items[|items| - 1]];
      SingleKindCount(items[..|items| - 1], c);
    }
  }
}
