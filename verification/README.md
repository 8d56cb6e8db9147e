# Robot colony simulation core, in Dafny

This project models the simulation core of a robot-colony simulator written in Rust.
A grid of cells holds Obstacles and three resource kinds: Energy, Mineral and Science.
Robots move on the grid, look around, and harvest resources.
A station pools what the robots deliver and spends it on new robots.
The model covers:

- the `Cell` kinds and their console symbols;
- the map's shape invariant, the station clearing, and the random scatter of resources;
- the robot primitives: turning, stepping forward, vision, harvesting, scanning for Science, the greedy step towards a target, and the role dispatch of `act`;
- the Collector and Scientist turns: harvest up to capacity, deposit at the station, otherwise move;
- the station: explorer tracking, resource deposits, and the priority-ordered spawn decision.

Everything is pure functions over immutable datatypes.
The grid is a `seq<seq<Cell>>` indexed `grid[y][x]`, and the resource pool is a `map<Cell, nat>` in which a missing kind counts as zero.
Rust's `usize` arithmetic becomes `nat`.
The source's subtractions are all guarded, and the model proves they stay non-negative.

Modules, one per source file:

| module | file | source |
|---|---|---|
| `Config` | config.dfy | src/config/mod.rs (spawn costs, all 10) |
| `Options` | options.dfy | Rust's `Option` |
| `Cells` | cell.dfy | src/map/cell.rs |
| `Grids` | grid.dfy | the `Map` record of src/map/mod.rs and per-kind cell counts |
| `MapEdits` | map.dfy | `place_station`, `place_random` and the resource stage of `Map::new` |
| `Robots` | robot.dfy | src/robot/mod.rs |
| `StationLogic` | station_logic.dfy | src/station/logic.rs |
| `Stations` | station.dfy | src/station/mod.rs |
| `Carrier` | carrier.dfy | the turn shape shared by collector.rs and scientist.rs |
| `Collector` | collector.dfy | src/robot/collector.rs |
| `Scientist` | scientist.dfy | src/robot/scientist.rs |

Some inputs are supplied as parameters:

- Random draws are parameters. `move_random`'s direction is the `dir` argument. The coordinates `place_random` draws are a finite `samples` sequence. That sequence also bounds the retries, so the model reports `None` where the source would loop forever.
- Pathfinding routines are called by the role files but their bodies are not in this model: `move_dijkstra_to`, `find_nearest_resource_position`, `find_nearest_scientist_position` and `move_smart_towards_unknown`. The same goes for the scientist's random fallback move. Their combined effect on a turn is the caller-supplied `landing` position and `facing` direction. `landing` must lie on the map. The robot ends its non-depositing turns there, facing `facing`, with its load untouched. `move_random` sets the robot's facing to the drawn direction, and `facing` covers that.

How the code is read where it is open to more than one reading:

- In collector.rs and scientist.rs, harvesting reads the live map cell under the robot, not the robot's own record of what it has seen.
- Explorers are meant to carry nothing (a capacity of 0), but no code enforces this, so the model does not either.
- src/robot/mod.rs and the role files disagree about the signatures of `vision` and `act`. Each file is modelled on its own terms: `Robots.Act` is the dispatch in src/robot/mod.rs, and `Collector.ActAsCollector` and `Scientist.ActAsScientist` are the role files.
- `RobotRole` derives no `PartialEq`, but `update_explorer_positions` compares roles with `==`. The model takes the evident meaning, role equality.

## Model

| member | source | states |
|---|---|---|
| Cells.ToSymbol | src/map/cell.rs:11-19 | every plain symbol is three characters: a space, the kind's letter, a space |
| Cells.ToSymbolInjective | src/map/cell.rs:11-19 | the middle character is the kind's letter, so the five kinds get five distinct symbols |
| Cells.ToColoredSymbol | src/map/cell.rs:21-29 | every kind other than Empty gets a 13-character string that opens with an ANSI escape and has the reset sequence ESC [ 0 m right after the three-character symbol |
| Cells.ToColoredSymbolInjective | src/map/cell.rs:21-29 | the five kinds get five distinct coloured symbols |
| Cells.ColoredSymbolShowsSymbol | src/map/cell.rs:13-27 | Empty's coloured symbol equals its plain one; every other coloured symbol contains the plain symbol at positions 5 to 7 |
| Grids.CountAfterSet | src/map/mod.rs:61-62 | overwriting one cell lowers the count of its old kind by one and raises the count of its new kind by one; every other kind's count is unchanged |
| MapEdits.PlaceStation | src/map/mod.rs:46-50 | in bounds, exactly the station's cell becomes Empty; out of bounds, the map is unchanged; the dimensions never change |
| MapEdits.PlaceRandom | src/map/mod.rs:52-66 | on success the grid keeps its shape, only Empty cells change and each changed cell now holds `kind`, and the unused samples are a suffix of the input |
| MapEdits.PlaceRandomCounts | src/map/mod.rs:52-66 | a finished placement holds `count` more cells of `kind` and `count` fewer Empty cells; every other kind keeps its count |
| MapEdits.ClaimStep | src/map/mod.rs:57-64 | claiming one Empty cell and then more Empty cells is still a claim of Empty cells only |
| MapEdits.PlaceRandomFailsWithoutRoom | src/map/mod.rs:57-64 | with fewer Empty cells than `count`, no finite sample sequence succeeds |
| MapEdits.ScatterResources | src/map/mod.rs:39-41 | placing Energy, then Mineral, then Science keeps the dimensions, and every cell either keeps its kind or was Empty and now holds a resource |
| MapEdits.ScatterResourcesCounts | src/map/mod.rs:39-41 | after the scatter each resource kind's count has risen by its requested number, Empty has fallen by their total, and Obstacles keep their count |
| MapEdits.ClaimChain | src/map/mod.rs:39-41 | after the three placements, every cell either keeps its original kind or was Empty and now holds one resource |
| Robots.NewRobot | src/robot/mod.rs:35-45 | a new robot has the given position, facing and role, has seen and carries nothing, and is not returning |
| Robots.TurnLeft | src/robot/mod.rs:48-55 | a left turn rotates the step vector (dx, dy) to (dy, -dx) |
| Robots.TurnRight | src/robot/mod.rs:57-64 | a right turn rotates the step vector (dx, dy) to (-dy, dx) |
| Robots.TurnsCancel | src/robot/mod.rs:48-64 | left then right, or right then left, restores the facing |
| Robots.TurnLeftIsFourCycle | src/robot/mod.rs:48-55 | four left turns are the identity, and one or two left turns never keep the facing |
| Robots.MoveForward | src/robot/mod.rs:66-80 | the robot moves to the facing neighbour exactly when that neighbour is on the map and not an Obstacle; otherwise it stays put; only the position changes, and the result is on the map |
| Robots.MoveForwardAvoidsObstacles | src/robot/mod.rs:66-80 | a robot that moves ends on a cell that is not an Obstacle, having changed one coordinate by one |
| Robots.MoveForwardOpenMapExample | tests/robot_tests.rs:27-32 | on an open 10 by 10 map, facing East from (0, 0) leads to (1, 0) |
| Robots.MoveRandom | src/robot/mod.rs:118-128 | the robot faces the drawn direction and takes the checked step that way: onto the neighbour when it is on the map and not an Obstacle, otherwise staying put; nothing but position and facing changes |
| Robots.RowSight | src/robot/mod.rs:89-92 | one row of the vision box: the cells from x0 to x1, left to right, with their current kinds |
| Robots.BoxSight | src/robot/mod.rs:88-93 | the vision box: every sighting lies in the rectangle with its current kind, in strictly increasing row-major order |
| Robots.RowSightComplete | src/robot/mod.rs:89-92 | every cell of the row segment is sighted |
| Robots.BoxSightComplete | src/robot/mod.rs:88-93 | every cell of the rectangle is sighted |
| Robots.Sight | src/robot/mod.rs:83-93 | the box clipped to the map: every sighting lies within `range` of the robot along both axes, carries its current kind, and comes in strictly increasing row-major order |
| Robots.SightComplete | src/robot/mod.rs:83-93 | every map cell within `range` of the robot along both axes is sighted |
| Robots.Vision | src/robot/mod.rs:82-94 | earlier sightings are kept as a prefix; the new ones lie on the map within `range` of the robot along both axes, carry the cell's current kind, and come in strictly increasing row-major order; nothing else about the robot changes |
| Robots.VisionComplete | src/robot/mod.rs:82-94 | every map cell within `range` of the robot is among the new sightings, so the clipped square is seen in full |
| Robots.CollectResource | src/robot/mod.rs:130-140 | on Energy or Mineral, that cell becomes Empty and its kind is appended to `collected`, with no other cell changed; on any other kind, the map is unchanged and the robot makes the random move |
| Robots.CollectResourceConserves | src/robot/mod.rs:130-136 | for every kind, the units on the map plus the units carried are the same before and after |
| Robots.ScienceSightings | src/robot/mod.rs:145-152 | the count of Science sightings is positive exactly when some sighting is Science |
| Robots.Scan | src/robot/mod.rs:143-158 | a scan adds the range-1 vision; afterwards `returningToStation` holds exactly when it already held or some sighting is Science, so the flag is never lowered |
| Robots.MoveTowards | src/robot/mod.rs:160-170 | at most one axis-aligned step, never onto an Obstacle; a step lowers the Manhattan distance to the target by exactly one; y moves only if x is aligned or blocked; the robot stays exactly when both axes are aligned or blocked |
| Robots.Act | src/robot/mod.rs:99-116 | the robot stays on the map with its role; `returningToStation` is never cleared; only a Collector changes the map, and only at its own cell; a returning Scientist makes the greedy step to the station; a Scientist not yet returning adds its range-1 vision and raises the flag exactly when some sighting is Science; earlier items are kept |
| Robots.ActCollectorExceedsCapacity | src/robot/mod.rs:104-106 | a Collector already holding two items takes a third through this dispatch (see Findings) |
| StationLogic.CanCreateRobot | src/station/logic.rs:6-23 | Explorer exactly when Energy reaches its cost; Collector exactly when Energy falls short and Mineral reaches its cost; Scientist exactly when both fall short and Science reaches its cost; a chosen role's currency drops by exactly its cost and every other kind is unchanged; with no role chosen the pool is unchanged |
| StationLogic.CanCreateRobotPaysExactly | src/station/logic.rs:7-22 | no count grows, and Energy, Mineral and Science together drop by the chosen role's cost, or by zero when no role is chosen |
| StationLogic.SpawnThresholdScenario | src/station/logic.rs:11-22 | Energy one below the Explorer cost spawns nothing and leaves the pool unchanged; exactly the cost spawns an Explorer and leaves zero Energy |
| Stations.NewStation | src/station/mod.rs:20-30 | a new station sits at the given position with no knowledge, no resources, zero counters and no tracked explorers |
| Stations.NewStationIsBlank | src/station/mod.rs:20-30 | a new station has no knowledge, no resources, zero counters and no tracked explorers, so it cannot build a robot |
| Stations.ExplorerPositions | src/station/mod.rs:32-39 | every Explorer's position is in the list, every listed position belongs to an Explorer, and the list is no longer than the input |
| Stations.ExplorerPositionsAppend | src/station/mod.rs:34-38 | the list for `a + b` is the list for `a` followed by the list for `b`, so input order is kept |
| Stations.ExplorerPositionsSingle | src/station/mod.rs:35-37 | a single robot contributes its position exactly when it is an Explorer |
| Stations.UpdateExplorerPositions | src/station/mod.rs:32-39 | the tracked list becomes the Explorer positions and nothing else in the station changes |
| Stations.GetExplorerPositions | src/station/mod.rs:41-43 | the read gives back the stored Explorer list unchanged |
| Stations.GetAfterUpdate | src/station/mod.rs:41-43 | reading back after an update gives the Explorer positions, whatever list was stored before |
| Stations.TrackOneExplorerExample | tests/station_tests.rs:32-38 | one Explorer at (1, 1) is tracked as [(1, 1)] |
| Stations.AddAll | src/station/mod.rs:45-49 | each kind's amount rises by its number of occurrences in the list; the keys gain exactly the listed kinds |
| Stations.ReceiveResources | src/station/mod.rs:45-49 | a deposit raises each kind's pooled amount by its number of occurrences and changes nothing else |
| Stations.ReceiveOneOfEachExample | tests/station_tests.rs:21-29 | delivering Energy, Mineral and Science to a new station records one of each |
| Stations.MaybeCreateRobot | src/station/mod.rs:51-61 | when the spawn check picks a role, the pool is paid, the counter rises by one, and a blank robot of that role appears at the station facing North; otherwise nothing changes and no robot appears |
| Stations.MaybeCreateRobotCounts | src/station/mod.rs:51-61 | the counter rises by one exactly when a robot is built and is unchanged otherwise; the pool falls by the built role's cost |
| Carrier.HarvestPhase | src/robot/collector.rs:9-19 | only the robot's own cell can change; it changes exactly when it is a wanted kind and the robot has room, and then it becomes Empty and joins the load |
| Carrier.HarvestConserves | src/robot/collector.rs:9-19 | for every kind, the units on the map plus the units carried are the same before and after the harvest |
| Carrier.CarrierTurn | src/robot/collector.rs:6-30 | the map is the harvested one; a full robot on the station hands its whole load to the pool, each kind rising by its count, and stays put with its facing and nothing else at the station changed; otherwise the station is unchanged and the robot ends at `landing`, facing `facing`, with its load |
| Carrier.CarrierTurnKeepsLoad | src/robot/collector.rs:6-30 | the robot ends on the map; a load within capacity stays within capacity; a load of wanted kinds stays so |
| Carrier.CarrierTurnConserves | src/robot/collector.rs:9-19 | for every kind, the units on the map, on the robot and in the station's pool are the same before and after a turn |
| Carrier.SingleKindCount | src/robot/scientist.rs:16-19 | a load made only of one kind holds that many units of the kind and none of any other |
| Collector.ActAsCollector | src/robot/collector.rs:6-30 | only the robot's own cell can change and the robot stays on the map; the load stays at most 2; the cell changes exactly when it is Mineral or Energy and fewer than 2 items are carried |
| Collector.CollectorHarvest | src/robot/collector.rs:9-19 | a taken cell becomes Empty and its kind joins the load; Science, Empty and Obstacle cells leave the map unchanged; a load of Energy and Mineral stays so |
| Collector.CollectorDeposit | src/robot/collector.rs:16-29 | a full Collector on the station empties its load into the pool, each kind rising by its count; a full Collector elsewhere leaves the station alone and ends at `landing` with its load; a Collector that is not full leaves the station alone and keeps its load |
| Collector.CollectorConserves | src/robot/collector.rs:9-19 | for every kind, the units on the map, on the Collector and in the pool are conserved |
| Scientist.ActAsScientist | src/robot/scientist.rs:6-30 | only the robot's own cell can change and the robot stays on the map; the load stays at most 1; the cell changes exactly when it is Science and nothing is carried |
| Scientist.ScientistHarvest | src/robot/scientist.rs:9-19 | a taken cell becomes Empty; Energy, Mineral, Empty and Obstacle cells leave the map unchanged; a load of Science stays so |
| Scientist.ScientistDeposit | src/robot/scientist.rs:16-19 | a loaded Scientist on the station empties its load, the pooled Science rising by the load's size and every other kind unchanged |
| Scientist.ScientistKeepsLoad | src/robot/scientist.rs:16-29 | a loaded Scientist off the station keeps its load, leaves the station alone and ends at `landing` facing `facing`; a Scientist with no load leaves the station alone and carries nothing |
| Scientist.ScientistConserves | src/robot/scientist.rs:9-19 | for every kind, the units on the map, on the Scientist and in the pool are conserved |

## Left out

- `Map::new`'s noise stage and resource counts are not modelled. It uses Perlin noise and `f32` area fractions. `MapEdits.ScatterResources` starts from any grid and takes the three counts as parameters.
- The seeded generator and `thread_rng` are not modelled. Their draws are parameters: `samples` for placement, `dir` for random moves.
- Pathfinding and knowledge merging are not modelled: `move_dijkstra_to`, `find_nearest_resource_position`, `find_nearest_scientist_position`, `move_smart_towards_unknown`, `move_smart_towards_unknown_with_others`, and the three-argument `vision(map, 2, station)`. Their code is not part of this model. Movement is the `landing` parameter. The vision merge into robot and station knowledge is omitted. Nothing in the modelled turns reads that knowledge.
- src/robot/explorer.rs is not modelled. Both of its branches only delegate to the crowd-aware pathfinder, which is not part of this model.
- Carrier.CarrierTurn: does not model the three-argument vision call at the start of each role turn, because its code is not part of this model. `discovered` and the station's knowledge are left unchanged.
- The per-tick driver and the rendering, legend, camera, timers, window title and all `display*` and `println!` output are not modelled. They are UI and console I/O. Each tick the driver copies the map and the station, refreshes the copy's tracked Explorer positions, calls `act` on each robot in list order against the copies, and then writes both copies back.
- `usize` overflow of `x + range` in `vision` is not modelled. Coordinates are unbounded naturals, and the map sizes used are far below the limit.
- The station's `discovered` map and `scientific_discoveries` counter are fields of the model's `Station`. Only `Station::new` touches them in the modelled code.

## Findings

| source | as written | input that shows it | evidently intended | confidence | as-written member | corrected member |
|---|---|---|---|---|---|---|
| src/robot/mod.rs:104-106 | the Collector branch of `act` calls `collect_resource`, which harvests with no capacity check and never deposits | a Collector carrying [Energy, Mineral] on an Energy cell ends the turn carrying three items | a Collector carries at most two items and unloads at the station, as src/robot/collector.rs does | medium; not executed | Robots.ActCollectorExceedsCapacity | Collector.ActAsCollector |
