/** Spawn costs of the station's resource economy (src/config/mod.rs). */
module Config {
  /** Energy needed to build an Explorer. */
  const ExplorerCost: nat := 10
  /** Mineral needed to build a Collector. */
  const CollectorCost: nat := 10
  /** Science needed to build a Scientist. */
  const ScientistCost: nat := 10
}
