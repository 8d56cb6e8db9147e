/** The station: shared knowledge, pooled resources and robot spawning (src/station/mod.rs). */
module Stations {
  import opened Cells
  import opened Grids
  import opened Options
  import opened Robots
  import opened StationLogic

  datatype Station = Station(
    x: nat,
    y: nat,
    discovered: map<Pos, Cell>,
    resourcesCollected: Resources,
    robotsCreated: nat,
    scientificDiscoveries: nat,
    explorerPositions: seq<Pos>)

  /** A station at (x, y) that knows nothing, holds nothing and has built nothing. */
  function NewStation(x: nat, y: nat): (st: Station)
    ensures st.x == x && st.y == y
    ensures st.discovered == map[] && st.resourcesCollected == map[] && st.explorerPositions == []
    ensures st.robotsCreated == 0 && st.scientificDiscoveries == 0
  {
    Station(x, y, map[], map[], 0, 0, [])
  }

  /** A new station is blank, so it cannot build a robot yet. */
  lemma NewStationIsBlank(x: nat, y: nat)
    ensures var st := NewStation(x, y);
            && st.x == x && st.y == y
            && st.discovered == map[] && st.resourcesCollected == map[]
            && st.robotsCreated == 0 && st.scientificDiscoveries == 0
            && st.explorerPositions == []
            && MaybeCreateRobot(st).robot == None
  {
  }

  // ---------------------------------------------------------------- explorer tracking

  function PositionOf(r: Robot): Pos {
    Pos(r.x, r.y)
  }

  /** The positions of the Explorers among `robots`, in list order. */
  function ExplorerPositions(robots: seq<Robot>): (ps: seq<Pos>)
    ensures |ps| <= |robots|
    ensures forall i :: 0 <= i < |robots| && robots[i].role == Explorer ==> PositionOf(robots[i]) in ps
    ensures forall p :: p in ps ==> exists i :: 0 <= i < |robots| && robots[i].role == Explorer && PositionOf(robots[i]) == p
  {
    if robots == [] then []
    else
      var rest := ExplorerPositions(robots[1..]);
      assert forall i :: 1 <= i < |robots| ==> robots[i] == robots[1..][i - 1];
      (if robots[0].role == Explorer then [PositionOf(robots[0])] else []) + rest
  }

  /** The list keeps input order: the positions for `a + b` are those for `a` followed by those for `b`. */
  lemma {:induction false} ExplorerPositionsAppend(a: seq<Robot>, b: seq<Robot>)
    ensures ExplorerPositions(a + b) == ExplorerPositions(a) + ExplorerPositions(b)
  {
    if a == [] {
      assert a + b == b;
    } else {
      assert (a + b)[1..] == a[1..] + b;
      ExplorerPositionsAppend(a[1..], b);
    }
  }

  /** A lone robot contributes its position exactly when it is an Explorer. */
  lemma ExplorerPositionsSingle(r: Robot)
    ensures ExplorerPositions([r]) == if r.role == Explorer then [PositionOf(r)] else []
  {
  }

  /** Replaces the tracked list by the current Explorer positions; nothing else changes. */
  function UpdateExplorerPositions(st: Station, robots: seq<Robot>): (st2: Station)
    ensures st2 == st.(explorerPositions := st2.explorerPositions)
    ensures st2.explorerPositions == ExplorerPositions(robots)
  {
    st.(explorerPositions := ExplorerPositions(robots))
  }

  /** The tracked Explorer positions, as last stored. */
  function GetExplorerPositions(st: Station): (ps: seq<Pos>)
    ensures ps == st.explorerPositions
  {
    st.explorerPositions
  }

  /** Reading back after an update yields the Explorer positions, whatever was stored before. */
  lemma GetAfterUpdate(st: Station, robots: seq<Robot>, stale: seq<Pos>)
    ensures GetExplorerPositions(UpdateExplorerPositions(st.(explorerPositions := stale), robots))
         == GetExplorerPositions(UpdateExplorerPositions(st, robots))
    ensures GetExplorerPositions(UpdateExplorerPositions(st, robots)) == ExplorerPositions(robots)
  {
  }

  /** A single Explorer at (1, 1) is tracked as [(1, 1)]. */
  lemma TrackOneExplorerExample()
    ensures UpdateExplorerPositions(NewStation(0, 0), [NewRobot(1, 1, North, Explorer)]).explorerPositions == [Pos(1, 1)]
  {
    ExplorerPositionsSingle(NewRobot(1, 1, North, Explorer));
  }

  // ---------------------------------------------------------------- deposits

  /** Adds one unit of each listed kind, in list order. */
  function AddAll(res: Resources, cells: seq<Cell>): (r: Resources)
    ensures forall k :: Amount(r, k) == Amount(res, k) + multiset(cells)[k]
    ensures r.Keys == res.Keys + set i | 0 <= i < |cells| :: cells[i]
    decreases |cells|
  {
    if cells == [] then res
    else
      var c := cells[0];
      assert cells == [c] + cells[1..];
      var r := AddAll(res[c := Amount(res, c) + 1], cells[1..]);
      assert (set i | 0 <= i < |cells| :: cells[i]) == {c} + set i | 0 <= i < |cells[1..]| :: cells[1..][i];
      r
  }

  /** Pools the delivered resources: each kind rises by its number of occurrences. */
  function ReceiveResources(st: Station, cells: seq<Cell>): (st2: Station)
    ensures st2 == st.(resourcesCollected := st2.resourcesCollected)
    ensures forall k :: Amount(st2.resourcesCollected, k) == Amount(st.resourcesCollected, k) + multiset(cells)[k]
  {
    st.(resourcesCollected := AddAll(st.resourcesCollected, cells))
  }

  /** Delivering one Energy, one Mineral and one Science to a new station records one of each. */
  lemma ReceiveOneOfEachExample()
    ensures var res := ReceiveResources(NewStation(0, 0), [Energy, Mineral, Science]).resourcesCollected;
            Amount(res, Energy) == 1 && Amount(res, Mineral) == 1 && Amount(res, Science) == 1
  {
  }

  // ---------------------------------------------------------------- spawning

  /** The station after a spawn check, and the robot built if one was affordable. */
  datatype Creation = Creation(station: Station, robot: Option<Robot>)

  /**
   * Builds at most one robot: if a role is affordable it is paid for, counted, and a fresh
   * robot of that role appears at the station facing North; otherwise nothing changes.
   */
  function MaybeCreateRobot(st: Station): (c: Creation)
    ensures var spawn := CanCreateRobot(st.resourcesCollected);
            if spawn.role.Some? then
              && c.robot == Some(Robot(st.x, st.y, North, spawn.role.value, [], [], false))
              && c.station == st.(resourcesCollected := spawn.resources, robotsCreated := st.robotsCreated + 1)
            else
              c.robot == None && c.station == st
  {
    var spawn := CanCreateRobot(st.resourcesCollected);
    match spawn.role
    case Some(role) =>
      Creation(st.(resourcesCollected := spawn.resources, robotsCreated := st.robotsCreated + 1),
               Some(NewRobot(st.x, st.y, North, role)))
    case None => Creation(st, None)
  }

  /** The robot counter rises exactly when a robot is built, and then by one, paid at its role's cost. */
  lemma MaybeCreateRobotCounts(st: Station)
    ensures var c := MaybeCreateRobot(st);
            && (c.robot.Some? <==> c.station.robotsCreated == st.robotsCreated + 1)
            && (c.robot.None? <==> c.station.robotsCreated == st.robotsCreated)
            && (c.robot.Some? ==>
                  Pooled(c.station.resourcesCollected) + Cost(c.robot.value.role) == Pooled(st.resourcesCollected))
  {
    CanCreateRobotPaysExactly(st.resourcesCollected);
  }
}
