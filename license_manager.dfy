// Licence and permit rules (services/licenseManager.ts).

module LicenseManager {
  import opened GameTypes
  import opened Licenses

  /** The first tier of `tiers` whose range holds `rep` (the source's `find`). */
  function FindTier(tiers: seq<ReputationTier>, rep: real): (r: Option<ReputationTier>)
    ensures r.Some? ==> r.value in tiers && InTier(r.value, rep)
    ensures r.None? <==> forall i :: 0 <= i < |tiers| ==> !InTier(tiers[i], rep)
    ensures r.Some? ==> exists i :: 0 <= i < |tiers| && tiers[i] == r.value &&
                           forall j :: 0 <= j < i ==> !InTier(tiers[j], rep)
  {
    if |tiers| == 0 then None
    else if InTier(tiers[0], rep) then Some(tiers[0])
    else
      var r := FindTier(tiers[1..], rep);
      if r.Some? then
        var i :| 0 <= i < |tiers[1..]| && tiers[1..][i] == r.value &&
                 forall j :: 0 <= j < i ==> !InTier(tiers[1..][j], rep);
        assert tiers[i + 1] == r.value;
        r
      else r
  }

  /**
   * The reputation tier holding `rep`; negative values and fractional values
   * in the gaps between tiers fall back to tier 1.
   */
  function GetReputationTier(rep: real): (t: ReputationTier)
    ensures t in ReputationTiers
    ensures (exists i :: 0 <= i < |ReputationTiers| && InTier(ReputationTiers[i], rep)) ==> InTier(t, rep)
    ensures (forall i :: 0 <= i < |ReputationTiers| ==> !InTier(ReputationTiers[i], rep)) ==> t == ReputationTiers[0]
    ensures 0.0 <= t.discount <= 0.30
  {
    match FindTier(ReputationTiers, rep)
    case Some(t) => t
    case None => ReputationTiers[0]
  }

  /** Integer reputation never buys a smaller discount by growing. */
  lemma DiscountMonotone(r1: int, r2: int)
    requires 0 <= r1 <= r2
    ensures GetReputationTier(r1 as real).discount <= GetReputationTier(r2 as real).discount
    ensures GetReputationTier(r1 as real).tier <= GetReputationTier(r2 as real).tier
  {
    TierAtInteger(r1);
    TierAtInteger(r2);
    DiscountsNonDecreasing();
  }

  /** Index of the tier holding a non-negative integer reputation. */
  function TierIndex(rep: int): (i: nat)
    ensures i < |ReputationTiers|
  {
    if rep <= 99 then 0 else if rep <= 249 then 1 else if rep <= 499 then 2
    else if rep <= 999 then 3 else 4
  }

  /** An integer reputation finds exactly the tier TierIndex names. */
  lemma TierAtInteger(rep: int)
    requires rep >= 0
    ensures GetReputationTier(rep as real) == ReputationTiers[TierIndex(rep)]
  {
    TiersTileNaturals(rep);
    var i := TierIndex(rep);
    assert InTier(ReputationTiers[i], rep as real);
    var t := GetReputationTier(rep as real);
    var j :| 0 <= j < |ReputationTiers| && ReputationTiers[j] == t;
    assert InTier(ReputationTiers[j], rep as real);
  }

  /** The highest zone rank in the list, or -1 for an empty list. */
  function MaxZoneRank(zones: seq<ZoneColor>): (m: int)
    ensures m >= -1
    ensures |zones| == 0 <==> m == -1
    ensures forall i :: 0 <= i < |zones| ==> ZoneRank(zones[i]) <= m
    ensures |zones| > 0 ==> exists i :: 0 <= i < |zones| && ZoneRank(zones[i]) == m
  {
    if |zones| == 0 then -1
    else
      var rest := MaxZoneRank(zones[1..]);
      assert forall i :: 1 <= i < |zones| ==> zones[i] == zones[1..][i - 1];
      if ZoneRank(zones[0]) >= rest then ZoneRank(zones[0]) else rest
  }

  /** Some unlocked licence ranks at or above the required zone (green < yellow < red). */
  function HasRequiredLicense(unlocked: seq<ZoneColor>, required: ZoneColor): (r: bool)
    ensures r <==> exists i :: 0 <= i < |unlocked| && ZoneRank(unlocked[i]) >= ZoneRank(required)
    ensures |unlocked| == 0 ==> !r
  {
    MaxZoneRank(unlocked) >= ZoneRank(required)
  }

  datatype PermitType = Temporary | Permanent

  /** A regional permit; temporary ones carry an expiration time. */
  datatype Permit = Permit(regionId: RegionId, kind: PermitType, expirationDate: Option<int>)

  /**
   * Rust Valley is always open; otherwise a permanent permit, or a temporary
   * one whose (non-zero) expiration lies after `now`.
   */
  function HasActivePermit(permits: map<RegionId, Permit>, region: RegionId, now: int): (r: bool)
    ensures region == RustValley ==> r
    ensures region != RustValley && region !in permits ==> !r
    ensures region in permits && permits[region].kind == Permanent ==> r
    ensures region != RustValley && region in permits && permits[region].kind == Temporary ==>
              (r <==> permits[region].expirationDate.Some? && permits[region].expirationDate.value != 0 &&
                      permits[region].expirationDate.value > now)
  {
    if region == RustValley then true
    else if region !in permits then false
    else
      var p := permits[region];
      if p.kind == Permanent then true
      else p.expirationDate.Some? && p.expirationDate.value != 0 && p.expirationDate.value > now
  }

  /** One of the five table discounts. */
  lemma DiscountIsTableValue(rep: real)
    ensures var d := GetReputationTier(rep).discount;
            d == 0.0 || d == 0.05 || d == 0.10 || d == 0.20 || d == 0.30
  {
  }

  /** A discount in [0, 1] keeps the rounded price of a non-negative base within [0, base]. */
  lemma DiscountedWithin(base: int, d: real)
    requires 0.0 <= d <= 1.0
    ensures base >= 0 ==> 0 <= DiscountedPrice(base, d) <= base
  {
    if base >= 0 {
      var b := base as real;
      assert b * (1.0 - d) == b - b * d;
      assert 0.0 <= b * d <= b by { assert b * d <= b * 1.0; }
    }
  }

  /** round(base * (1 - discount)). */
  function CalculatePermitPrice(base: int, rep: real): (r: int)
    ensures base >= 0 ==> 0 <= r <= base
    ensures base == -1 ==> r == -1
  {
    var d := GetReputationTier(rep).discount;
    DiscountedWithin(base, d);
    DiscountedPrice(base, d)
  }

  /** round(base * (1 - d)). */
  function DiscountedPrice(base: int, d: real): int
  {
    Round(base as real * (1.0 - d))
  }

  /** With a non-negative base, the price never rises as integer reputation grows. */
  lemma PermitPriceMonotone(base: int, r1: int, r2: int)
    requires base >= 0 && 0 <= r1 <= r2
    ensures CalculatePermitPrice(base, r2 as real) <= CalculatePermitPrice(base, r1 as real)
  {
    DiscountMonotone(r1, r2);
    var d1, d2 := GetReputationTier(r1 as real).discount, GetReputationTier(r2 as real).discount;
    PermitPriceFormula(base, r1 as real);
    PermitPriceFormula(base, r2 as real);
    PriceFallsWithDiscount(base, d1, d2);
  }

  /** The permit price is the base with the tier's discount taken off. */
  lemma PermitPriceFormula(base: int, rep: real)
    ensures CalculatePermitPrice(base, rep) == DiscountedPrice(base, GetReputationTier(rep).discount)
  {
  }

  /** A larger discount never gives a larger discounted price. */
  lemma PriceFallsWithDiscount(base: int, d1: real, d2: real)
    requires base >= 0 && d1 <= d2
    ensures DiscountedPrice(base, d2) <= DiscountedPrice(base, d1)
  {
    var b := base as real;
    assert b * (1.0 - d1) - b * (1.0 - d2) == b * (d2 - d1);
    assert b * (d2 - d1) >= 0.0;
  }

  /** The zone licence a region demands. */
  function GetRequiredLicense(region: RegionId): (z: ZoneColor)
    ensures region in {RustValley, CrystalWastes} ==> z == Green
    ensures region == IronGates ==> z == Yellow
    ensures region in {MagmaCore, VoidChasm} ==> z == Red
  {
    RegionZoneRequirement(region)
  }

  /** A new permit: temporary ones expire seven days after `now`, permanent ones never. */
  function CreatePermit(region: RegionId, kind: PermitType, now: int): (p: Permit)
    ensures p.regionId == region && p.kind == kind
    ensures kind == Temporary ==> p.expirationDate == Some(now + TempPermitDuration)
    ensures kind == Permanent ==> p.expirationDate.None?
  {
    Permit(region, kind, if kind == Temporary then Some(now + TempPermitDuration) else None)
  }

  /** A permit bought at time `now` is active until its expiration. */
  lemma FreshPermitActive(permits: map<RegionId, Permit>, region: RegionId, kind: PermitType, now: int, later: int)
    requires now >= 0 && now <= later < now + TempPermitDuration
    ensures HasActivePermit(permits[region := CreatePermit(region, kind, now)], region, later)
  {
  }
}
