// Licence and permit tables of the global map (constants/licenses.ts).

module Licenses {
  import opened GameTypes

  /**
   * A global-reputation tier: reputations in [min, max] get `discount` off
   * licence and permit prices. `max == None` is the unbounded last tier.
   */
  datatype ReputationTier = ReputationTier(tier: nat, min: real, max: Option<real>, discount: real)

  const ReputationTiers: seq<ReputationTier> := [
    ReputationTier(1, 0.0, Some(99.0), 0.0),
    ReputationTier(2, 100.0, Some(249.0), 0.05),
    ReputationTier(3, 250.0, Some(499.0), 0.10),
    ReputationTier(4, 500.0, Some(999.0), 0.20),
    ReputationTier(5, 1000.0, None, 0.30)
  ]

  /** Reputation `rep` lies in the tier's [min, max]. */
  predicate InTier(t: ReputationTier, rep: real)
  {
    t.min <= rep && (t.max.None? || rep <= t.max.value)
  }

  /** Price of a zone licence in rubies. */
  function LicensePrice(zone: ZoneColor): int
  {
    match zone
    case Green => 5000
    case Yellow => 25000
    case Red => 100000
  }

  /** Temporary and permanent permit prices; -1 marks a quest-only region. */
  datatype PermitPrice = PermitPrice(temp: int, perm: int)

  function PermitPrices(region: RegionId): PermitPrice
  {
    match region
    case RustValley => PermitPrice(0, 0)
    case CrystalWastes => PermitPrice(1000, 10000)
    case IronGates => PermitPrice(5000, 50000)
    case MagmaCore => PermitPrice(20000, 200000)
    case VoidChasm => PermitPrice(-1, -1)
  }

  /** The zone licence a region demands. */
  function RegionZoneRequirement(region: RegionId): ZoneColor
  {
    match region
    case RustValley => Green
    case CrystalWastes => Green
    case IronGates => Yellow
    case MagmaCore => Red
    case VoidChasm => Red
  }

  /** Seven days in milliseconds. */
  const TempPermitDuration: int := 7 * 24 * 60 * 60 * 1000

  /** Each tier starts one above the previous tier's max; only the last is unbounded. */
  lemma TiersContiguous()
    ensures ReputationTiers[0].min == 0.0
    ensures forall i :: 0 < i < |ReputationTiers| ==>
              ReputationTiers[i - 1].max == Some(ReputationTiers[i].min - 1.0)
    ensures ReputationTiers[|ReputationTiers| - 1].max.None?
  {
  }

  /** Every non-negative integer reputation lies in exactly one tier. */
  lemma TiersTileNaturals(rep: int)
    requires rep >= 0
    ensures exists i :: 0 <= i < |ReputationTiers| && InTier(ReputationTiers[i], rep as real)
    ensures forall i, j ::
              (0 <= i < |ReputationTiers| && 0 <= j < |ReputationTiers| &&
               InTier(ReputationTiers[i], rep as real) && InTier(ReputationTiers[j], rep as real)) ==> i == j
  {
    var r := rep as real;
    if rep <= 99 { assert InTier(ReputationTiers[0], r); }
    else if rep <= 249 { assert InTier(ReputationTiers[1], r); }
    else if rep <= 499 { assert InTier(ReputationTiers[2], r); }
    else if rep <= 999 { assert InTier(ReputationTiers[3], r); }
    else { assert InTier(ReputationTiers[4], r); }
  }

  /** Discounts rise with the tier, from 0 to 0.30; tiers are numbered 1..5. */
  lemma DiscountsNonDecreasing()
    ensures forall i, j :: 0 <= i <= j < |ReputationTiers| ==>
              ReputationTiers[i].discount <= ReputationTiers[j].discount
    ensures ReputationTiers[0].discount == 0.0 && ReputationTiers[4].discount == 0.30
    ensures forall i :: 0 <= i < |ReputationTiers| ==> ReputationTiers[i].tier == i + 1
  {
  }

  /** Licences cost more up the ladder; temporary permits are cheaper than permanent ones. */
  lemma PriceOrdering()
    ensures LicensePrice(Green) < LicensePrice(Yellow) < LicensePrice(Red)
    ensures forall r :: r in {CrystalWastes, IronGates, MagmaCore} ==> PermitPrices(r).temp < PermitPrices(r).perm
    ensures PermitPrices(RustValley) == PermitPrice(0, 0) && PermitPrices(VoidChasm) == PermitPrice(-1, -1)
  {
  }
}
