// Caravan tiers: capacity, travel time, loss risk per zone and unlock cost
// (constants/caravans.ts).

module Caravans {
  import opened GameTypes

  datatype CaravanTier = OneStar | TwoStar | ThreeStar

  /** A tier's specification (name and description are not modelled). */
  datatype CaravanSpec = CaravanSpec(
    tier: CaravanTier,
    capacity: real,
    travelTime: int,
    riskGreen: real,
    riskYellow: real,
    riskRed: real,
    unlockCost: real)

  /** `spec.baseRisk[zone]`. */
  function BaseRisk(spec: CaravanSpec, zone: ZoneColor): real
  {
    match zone
    case Green => spec.riskGreen
    case Yellow => spec.riskYellow
    case Red => spec.riskRed
  }

  /** `CARAVAN_SPECS[tier]`; travel times in milliseconds. */
  function CaravanSpecs(tier: CaravanTier): (s: CaravanSpec)
    ensures s.tier == tier && s.capacity > 0.0 && s.travelTime > 0
    ensures forall z :: 0.0 <= BaseRisk(s, z) <= 1.0
  {
    match tier
    case OneStar => CaravanSpec(OneStar, 500.0, 2 * 60 * 60 * 1000, 0.15, 0.20, 0.30, 15000.0)
    case TwoStar => CaravanSpec(TwoStar, 1500.0, 1 * 60 * 60 * 1000, 0.05, 0.10, 0.20, 0.0)
    case ThreeStar => CaravanSpec(ThreeStar, 3000.0, 30 * 60 * 1000, 0.00, 0.02, 0.10, 0.0)
  }

  const BasicLogisticsUnlockCost: real := 15000.0

  /** The numbering of the tiers: 1★ < 2★ < 3★. */
  function TierRank(t: CaravanTier): nat
  {
    match t
    case OneStar => 1
    case TwoStar => 2
    case ThreeStar => 3
  }

  /** Within a tier the risk grows with the zone's danger. */
  lemma RiskGrowsWithDanger(t: CaravanTier, z1: ZoneColor, z2: ZoneColor)
    requires ZoneRank(z1) <= ZoneRank(z2)
    ensures BaseRisk(CaravanSpecs(t), z1) <= BaseRisk(CaravanSpecs(t), z2)
  {
  }

  /** A higher tier carries more, travels faster and is lost no more often in any zone. */
  lemma HigherTierIsBetter(t1: CaravanTier, t2: CaravanTier, z: ZoneColor)
    requires TierRank(t1) < TierRank(t2)
    ensures CaravanSpecs(t1).capacity < CaravanSpecs(t2).capacity
    ensures CaravanSpecs(t1).travelTime > CaravanSpecs(t2).travelTime
    ensures BaseRisk(CaravanSpecs(t2), z) <= BaseRisk(CaravanSpecs(t1), z)
  {
  }

  /** The 1★ unlock cost is the Basic Logistics price. */
  lemma OneStarUnlockCost()
    ensures CaravanSpecs(OneStar).unlockCost == BasicLogisticsUnlockCost
  {
  }

  /** `isCaravanUnlocked`. */
  function IsCaravanUnlocked(tier: CaravanTier, unlockedTiers: set<CaravanTier>): (ok: bool)
    ensures ok <==> tier in unlockedTiers
  {
    tier in unlockedTiers
  }

  /** `getCaravanSpec`. */
  function GetCaravanSpec(tier: CaravanTier): (s: CaravanSpec)
    ensures s == CaravanSpecs(tier) && s.tier == tier
  {
    CaravanSpecs(tier)
  }
}
