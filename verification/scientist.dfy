/** The Scientist's turn: Science only, one at a time (src/robot/scientist.rs). */
module Scientist {
  import opened Cells
  import opened Grids
  import opened Robots
  import opened StationLogic
  import opened Stations
  import opened Carrier

  /** How many items a Scientist carries before heading home. */
  const Capacity: nat := 1

  /** The kinds a Scientist picks up. */
  const Kinds: set<Cell> := {Science}

  /**
   * One Scientist turn. `landing` and `facing` are where the pathfinding (towards the station
   * or the nearest Science cell) or the random fallback move leaves the robot, and which way
   * it then faces, when it does not deposit.
   */
  function ActAsScientist(r: Robot, m: Map, stationX: nat, stationY: nat, st: Station, landing: Pos, facing: Direction): (t: Turn)
    requires m.Valid() && OnMap(r, m) && m.InBounds(landing.x, landing.y)
    ensures ChangedAtMost(m, t.world, r.x, r.y) && OnMap(t.robot, t.world)
    ensures |r.collected| <= 1 ==> |t.robot.collected| <= 1
    ensures t.world.grid[r.y][r.x] != Under(r, m) <==> Under(r, m) == Science && r.collected == []
  {
    CarrierTurnKeepsLoad(r, m, stationX, stationY, st, landing, facing, Kinds, Capacity);
    CarrierTurn(r, m, stationX, stationY, st, landing, facing, Kinds, Capacity)
  }

  /**
   * A harvested cell becomes Empty; Energy, Mineral, Empty and Obstacle cells are never
   * taken; a load of Science stays so.
   */
  lemma ScientistHarvest(r: Robot, m: Map, stationX: nat, stationY: nat, st: Station, landing: Pos, facing: Direction)
    requires m.Valid() && OnMap(r, m) && m.InBounds(landing.x, landing.y)
    ensures var t := ActAsScientist(r, m, stationX, stationY, st, landing, facing);
            && (t.world.grid[r.y][r.x] != Under(r, m) ==> t.world.grid[r.y][r.x] == Empty)
            && (Under(r, m) in {Energy, Mineral, Empty, Obstacle} ==> t.world == m)
            && (AllOf(r.collected, {Science}) ==> AllOf(t.robot.collected, {Science}))
  {
    CarrierTurnKeepsLoad(r, m, stationX, stationY, st, landing, facing, Kinds, Capacity);
  }

  /**
   * Carrying Science on the station, the Scientist empties its load into the pool, whose
   * Science rises by the load's size while every other kind stays the same.
   */
  lemma ScientistDeposit(r: Robot, m: Map, stationX: nat, stationY: nat, st: Station, landing: Pos, facing: Direction)
    requires m.Valid() && OnMap(r, m) && m.InBounds(landing.x, landing.y)
    requires AllOf(r.collected, {Science})
    ensures var t := ActAsScientist(r, m, stationX, stationY, st, landing, facing);
            var load := Load(r, m, Kinds, Capacity);
            |load| >= 1 && r.x == stationX && r.y == stationY ==>
              && t.robot.collected == []
              && Amount(t.station.resourcesCollected, Science) == Amount(st.resourcesCollected, Science) + |load|
              && forall k :: k != Science ==> Amount(t.station.resourcesCollected, k) == Amount(st.resourcesCollected, k)
  {
    CarrierTurnKeepsLoad(r, m, stationX, stationY, st, landing, facing, Kinds, Capacity);
    var load := Load(r, m, Kinds, Capacity);
    assert AllOf(load, {Science}) by {
      if Harvests(r, m, Kinds, Capacity) {
        assert load == [Under(r, m)];
      }
    }
    SingleKindCount(load, Science);
  }

  /**
   * Off the station, or with nothing loaded, the station is untouched and the load kept; a
   * loaded Scientist elsewhere ends at `landing`, facing `facing`.
   */
  lemma ScientistKeepsLoad(r: Robot, m: Map, stationX: nat, stationY: nat, st: Station, landing: Pos, facing: Direction)
    requires m.Valid() && OnMap(r, m) && m.InBounds(landing.x, landing.y)
    ensures var t := ActAsScientist(r, m, stationX, stationY, st, landing, facing);
            var load := Load(r, m, Kinds, Capacity);
            && (|load| >= 1 && (r.x != stationX || r.y != stationY) ==>
                  t.station == st && t.robot.collected == load && t.robot.x == landing.x && t.robot.y == landing.y && t.robot.direction == facing)
            && (|load| == 0 ==> t.station == st && t.robot.collected == [])
  {
  }

  /** Conservation: per kind, the units on the map, on the Scientist and in the pool stay the same. */
  lemma ScientistConserves(r: Robot, m: Map, stationX: nat, stationY: nat, st: Station, landing: Pos, facing: Direction, k: Cell)
    requires m.Valid() && OnMap(r, m) && m.InBounds(landing.x, landing.y) && k != Empty
    ensures var t := ActAsScientist(r, m, stationX, stationY, st, landing, facing);
            Total(t.world, t.robot, t.station, k) == Total(m, r, st, k)
  {
    CarrierTurnConserves(r, m, stationX, stationY, st, landing, facing, Kinds, Capacity, k);
  }
}
