/** The station's spawn decision: thresholds checked in priority order (src/station/logic.rs). */
module StationLogic {
  import opened Cells
  import opened Options
  import opened Robots
  import opened Config

  /** Pooled resources per kind; a kind with no entry counts as zero. */
  type Resources = map<Cell, nat>

  /** The pooled amount of kind `k`, zero when the kind has no entry. */
  function Amount(res: Resources, k: Cell): nat {
    if k in res then res[k] else 0
  }

  /** The kind of resource a role is paid for with. */
  function Currency(role: Role): Cell {
    match role
    case Explorer => Energy
    case Collector => Mineral
    case Scientist => Science
  }

  /** What a role costs to build. */
  function Cost(role: Role): nat {
    match role
    case Explorer => ExplorerCost
    case Collector => CollectorCost
    case Scientist => ScientistCost
  }

  /** Energy, Mineral and Science together. */
  function Pooled(res: Resources): nat {
    Amount(res, Energy) + Amount(res, Mineral) + Amount(res, Science)
  }

  /** The outcome of a spawn check: the role to build, if any, and the resources left. */
  datatype Spawn = Spawn(role: Option<Role>, resources: Resources)

  /**
   * Picks the first affordable role in the order Explorer, Collector, Scientist and pays
   * for it; when none is affordable nothing is chosen and nothing is paid.
   */
  function CanCreateRobot(res: Resources): (out: Spawn)
    ensures out.role == Some(Explorer) <==> Amount(res, Energy) >= ExplorerCost
    ensures out.role == Some(Collector) <==>
              Amount(res, Energy) < ExplorerCost && Amount(res, Mineral) >= CollectorCost
    ensures out.role == Some(Scientist) <==>
              Amount(res, Energy) < ExplorerCost && Amount(res, Mineral) < CollectorCost
              && Amount(res, Science) >= ScientistCost
    ensures out.role == None ==> out.resources == res
    ensures out.role.Some? ==>
              && out.resources.Keys == res.Keys
              && Amount(out.resources, Currency(out.role.value)) + Cost(out.role.value)
                 == Amount(res, Currency(out.role.value))
              && forall k :: k != Currency(out.role.value) ==> Amount(out.resources, k) == Amount(res, k)
  {
    var energy := Amount(res, Energy);
    var mineral := Amount(res, Mineral);
    var science := Amount(res, Science);
    if energy >= ExplorerCost then
      Spawn(Some(Explorer), res[Energy := energy - ExplorerCost])
    else if mineral >= CollectorCost then
      Spawn(Some(Collector), res[Mineral := mineral - CollectorCost])
    else if science >= ScientistCost then
      Spawn(Some(Scientist), res[Science := science - ScientistCost])
    else
      Spawn(None, res)
  }

  /** No count grows, and the pool shrinks by exactly the chosen role's cost (zero if none). */
  lemma CanCreateRobotPaysExactly(res: Resources)
    ensures var out := CanCreateRobot(res);
            && (forall k :: Amount(out.resources, k) <= Amount(res, k))
            && Pooled(res) == Pooled(out.resources) + (if out.role.Some? then Cost(out.role.value) else 0)
  {
  }

  /**
   * One unit short of the Explorer cost spawns nothing and leaves the pool alone;
   * one more unit spawns an Explorer and spends the whole cost.
   */
  lemma SpawnThresholdScenario()
    ensures var short := map[Energy := ExplorerCost - 1];
            CanCreateRobot(short) == Spawn(None, short)
    ensures var enough := map[Energy := ExplorerCost];
            CanCreateRobot(enough) == Spawn(Some(Explorer), map[Energy := 0])
  {
  }
}
