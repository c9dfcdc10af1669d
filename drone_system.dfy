// Drones and passive regeneration (services/systems/DroneSystem.ts).

module DroneSystem {
  import opened GameTypes

  datatype DroneType = Repair | Cooler | Collector | Miner | Battle

  /** The computed stats the drones use. */
  datatype DroneStats = DroneStats(integrity: real, ambientHeat: real, droneEfficiency: real, regen: real)

  /** A drone's level, a missing level counting as 0. */
  function DroneLevel(levels: map<DroneType, real>, t: DroneType): real
  {
    if t in levels then levels[t] else 0.0
  }

  /** `rate · lvl · efficiency`, kept as one term. */
  function DroneAmount(rate: real, lvl: real, efficiency: real): real
  {
    rate * lvl * efficiency
  }

  /** New integrity and heat; None when neither drone acted (the source's empty record). */
  datatype DroneUpdate = DroneUpdate(integrity: real, heat: real)

  /** The repair drone acts when active and below max integrity. */
  predicate RepairActs(active: seq<DroneType>, stats: DroneStats, integrity: real)
  {
    Repair in active && integrity < stats.integrity
  }

  /** The cooling drone acts when active and above ambient heat. */
  predicate CoolerActs(active: seq<DroneType>, stats: DroneStats, heat: real)
  {
    Cooler in active && heat > stats.ambientHeat
  }

  /**
   * `processDrones`: the repair drone adds 0.05·lvl·efficiency integrity up
   * to the max; the cooling drone takes 0.1·lvl·efficiency heat down to
   * ambient. Both values are returned when either acted.
   */
  function ProcessDrones(active: seq<DroneType>, levels: map<DroneType, real>, stats: DroneStats,
                         currentIntegrity: real, currentHeat: real): (r: Option<DroneUpdate>)
    ensures r.None? <==> !RepairActs(active, stats, currentIntegrity) && !CoolerActs(active, stats, currentHeat)
    ensures r.Some? && RepairActs(active, stats, currentIntegrity) ==>
              r.value.integrity <= stats.integrity &&
              r.value.integrity == Min(stats.integrity, currentIntegrity + DroneAmount(0.05, DroneLevel(levels, Repair), stats.droneEfficiency))
    ensures r.Some? && !RepairActs(active, stats, currentIntegrity) ==> r.value.integrity == currentIntegrity
    ensures r.Some? && CoolerActs(active, stats, currentHeat) ==>
              r.value.heat >= stats.ambientHeat &&
              r.value.heat == Max(stats.ambientHeat, currentHeat - DroneAmount(0.1, DroneLevel(levels, Cooler), stats.droneEfficiency))
    ensures r.Some? && !CoolerActs(active, stats, currentHeat) ==> r.value.heat == currentHeat
  {
    var integrity := if RepairActs(active, stats, currentIntegrity)
      then Min(stats.integrity, currentIntegrity + DroneAmount(0.05, DroneLevel(levels, Repair), stats.droneEfficiency))
      else currentIntegrity;
    var heat := if CoolerActs(active, stats, currentHeat)
      then Max(stats.ambientHeat, currentHeat - DroneAmount(0.1, DroneLevel(levels, Cooler), stats.droneEfficiency))
      else currentHeat;
    if RepairActs(active, stats, currentIntegrity) || CoolerActs(active, stats, currentHeat)
    then Some(DroneUpdate(integrity, heat))
    else None
  }

  /** With non-negative levels and efficiency, drones never lower integrity nor raise heat. */
  lemma DronesOnlyHelp(active: seq<DroneType>, levels: map<DroneType, real>, stats: DroneStats,
                       currentIntegrity: real, currentHeat: real)
    requires forall t :: t in levels ==> levels[t] >= 0.0
    requires stats.droneEfficiency >= 0.0
    ensures var r := ProcessDrones(active, levels, stats, currentIntegrity, currentHeat);
            r.Some? ==> r.value.integrity >= currentIntegrity && r.value.heat <= currentHeat
  {
    var rl := DroneLevel(levels, Repair);
    var cl := DroneLevel(levels, Cooler);
    assert DroneAmount(0.05, rl, stats.droneEfficiency) >= 0.0 by {
      assert 0.05 * rl >= 0.0;
      MulNonNegative(0.05 * rl, stats.droneEfficiency);
    }
    assert DroneAmount(0.1, cl, stats.droneEfficiency) >= 0.0 by {
      assert 0.1 * cl >= 0.0;
      MulNonNegative(0.1 * cl, stats.droneEfficiency);
    }
  }

  lemma MulNonNegative(a: real, b: real)
    requires a >= 0.0 && b >= 0.0
    ensures a * b >= 0.0
  {
  }

  /**
   * `processRegeneration`: with positive regen, below max and not broken,
   * integrity rises by 0.4·regen up to the max; otherwise it is unchanged.
   */
  function ProcessRegeneration(isBroken: bool, stats: DroneStats, currentIntegrity: real): (r: real)
    ensures stats.regen > 0.0 && currentIntegrity < stats.integrity && !isBroken ==>
              currentIntegrity < r <= stats.integrity
    ensures !(stats.regen > 0.0 && currentIntegrity < stats.integrity && !isBroken) ==> r == currentIntegrity
  {
    if stats.regen > 0.0 && currentIntegrity < stats.integrity && !isBroken then
      Min(stats.integrity, currentIntegrity + stats.regen * 0.4)
    else currentIntegrity
  }

  /** Regeneration never overshoots: once at max it stays there. */
  lemma RegenerationSettles(isBroken: bool, stats: DroneStats, currentIntegrity: real)
    requires currentIntegrity <= stats.integrity
    ensures var once := ProcessRegeneration(isBroken, stats, currentIntegrity);
            once <= stats.integrity &&
            (once == stats.integrity ==> ProcessRegeneration(isBroken, stats, once) == once)
  {
  }
}
