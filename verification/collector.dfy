/** The Collector's turn: Energy and Mineral, two at a time (src/robot/collector.rs). */
module Collector {
  import opened Cells
  import opened Grids
  import opened Robots
  import opened StationLogic
  import opened Stations
  import opened Carrier

  /** How many items a Collector carries before heading home. */
  const Capacity: nat := 2

  /** The kinds a Collector picks up. */
  const Kinds: set<Cell> := {Energy, Mineral}

  /**
   * One Collector turn. `landing` and `facing` are where the pathfinding (towards the station,
   * the nearest resource, or the unexplored) leaves the robot, and which way it then faces,
   * when it does not deposit.
   */
  function ActAsCollector(r: Robot, m: Map, stationX: nat, stationY: nat, st: Station, landing: Pos, facing: Direction): (t: Turn)
    requires m.Valid() && OnMap(r, m) && m.InBounds(landing.x, landing.y)
    ensures ChangedAtMost(m, t.world, r.x, r.y) && OnMap(t.robot, t.world)
    ensures |r.collected| <= 2 ==> |t.robot.collected| <= 2
    ensures t.world.grid[r.y][r.x] != Under(r, m) <==>
              (Under(r, m) == Mineral || Under(r, m) == Energy) && |r.collected| < 2
  {
    CarrierTurnKeepsLoad(r, m, stationX, stationY, st, landing, facing, Kinds, Capacity);
    CarrierTurn(r, m, stationX, stationY, st, landing, facing, Kinds, Capacity)
  }

  /**
   * A harvested cell becomes Empty and its kind joins the load; Science, Empty and Obstacle
   * cells are never taken; a load of Energy and Mineral stays so.
   */
  lemma CollectorHarvest(r: Robot, m: Map, stationX: nat, stationY: nat, st: Station, landing: Pos, facing: Direction)
    requires m.Valid() && OnMap(r, m) && m.InBounds(landing.x, landing.y)
    ensures var t := ActAsCollector(r, m, stationX, stationY, st, landing, facing);
            && (t.world.grid[r.y][r.x] != Under(r, m) ==>
                  t.world.grid[r.y][r.x] == Empty && Load(r, m, Kinds, Capacity) == r.collected + [Under(r, m)])
            && (Under(r, m) in {Science, Empty, Obstacle} ==> t.world == m)
            && (AllOf(r.collected, {Energy, Mineral}) ==> AllOf(t.robot.collected, {Energy, Mineral}))
  {
    CarrierTurnKeepsLoad(r, m, stationX, stationY, st, landing, facing, Kinds, Capacity);
  }

  /**
   * Full on the station, the Collector hands its whole load to the pool, each kind rising
   * by its count; otherwise the station is untouched and the load is kept.
   */
  lemma CollectorDeposit(r: Robot, m: Map, stationX: nat, stationY: nat, st: Station, landing: Pos, facing: Direction)
    requires m.Valid() && OnMap(r, m) && m.InBounds(landing.x, landing.y)
    ensures var t := ActAsCollector(r, m, stationX, stationY, st, landing, facing);
            var load := Load(r, m, Kinds, Capacity);
            && (|load| >= 2 && r.x == stationX && r.y == stationY ==>
                  && t.robot.collected == []
                  && forall k :: Amount(t.station.resourcesCollected, k) == Amount(st.resourcesCollected, k) + multiset(load)[k])
            && (|load| >= 2 && (r.x != stationX || r.y != stationY) ==>
                  t.station == st && t.robot.collected == load && t.robot.x == landing.x && t.robot.y == landing.y && t.robot.direction == facing)
            && (|load| < 2 ==> t.station == st && t.robot.collected == load)
  {
  }

  /** Conservation: per kind, the units on the map, on the Collector and in the pool stay the same. */
  lemma CollectorConserves(r: Robot, m: Map, stationX: nat, stationY: nat, st: Station, landing: Pos, facing: Direction, k: Cell)
    requires m.Valid() && OnMap(r, m) && m.InBounds(landing.x, landing.y) && k != Empty
    ensures var t := ActAsCollector(r, m, stationX, stationY, st, landing, facing);
            Total(t.world, t.robot, t.station, k) == Total(m, r, st, k)
  {
    CarrierTurnConserves(r, m, stationX, stationY, st, landing, facing, Kinds, Capacity, k);
  }
}
