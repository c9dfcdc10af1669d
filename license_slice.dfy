// Store actions for zone licences, regional permits and global reputation
// (store/slices/licenseSlice.ts). The slice's part of the store is the class
// LicenseStore. BuyLicense runs the source's early-return guard chain;
// BuyPermit evaluates the same chain as the function CheckPermitPurchase and
// applies its decision; AddGlobalReputation floors the sum and logs a tier rise.

module LicenseSlice {
  import opened GameTypes
  import opened Licenses
  import opened LicenseManager

  /** No zone twice, and red ⇒ yellow ⇒ green. */
  predicate LicenseLadder(l: seq<ZoneColor>)
  {
    (forall i, j :: 0 <= i < j < |l| ==> l[i] != l[j]) &&
    (Red in l ==> Yellow in l) &&
    (Yellow in l ==> Green in l)
  }

  /** Outcome of the licence purchase guard chain, in the order the source checks. */
  datatype LicenseDecision =
    | AlreadyOwned
    | NeedsLicense(zone: ZoneColor)
    | ShortOfRubies(price: int)
    | LicenseBought(price: int)

  /** Runs the four checks of `buyLicense` in order. */
  function CheckLicensePurchase(unlocked: seq<ZoneColor>, zone: ZoneColor, rubies: real, rep: real): (d: LicenseDecision)
    ensures d == AlreadyOwned <==> zone in unlocked
    ensures d.NeedsLicense? <==>
              zone !in unlocked && ((zone == Yellow && Green !in unlocked) || (zone == Red && Yellow !in unlocked))
    ensures d.NeedsLicense? ==> ZoneRank(d.zone) + 1 == ZoneRank(zone)
    ensures d.ShortOfRubies? || d.LicenseBought? ==>
              zone !in unlocked && (zone == Yellow ==> Green in unlocked) && (zone == Red ==> Yellow in unlocked)
    ensures d.ShortOfRubies? ==> d.price == CalculatePermitPrice(LicensePrice(zone), rep) && rubies < d.price as real
    ensures d.LicenseBought? ==> d.price == CalculatePermitPrice(LicensePrice(zone), rep) && rubies >= d.price as real
  {
    if zone in unlocked then AlreadyOwned
    else if zone == Yellow && Green !in unlocked then NeedsLicense(Green)
    else if zone == Red && Yellow !in unlocked then NeedsLicense(Yellow)
    else
      var price := CalculatePermitPrice(LicensePrice(zone), rep);
      if rubies < price as real then ShortOfRubies(price) else LicenseBought(price)
  }

  /** A successful licence purchase keeps the ladder. */
  lemma LicensePurchaseKeepsLadder(unlocked: seq<ZoneColor>, zone: ZoneColor, rubies: real, rep: real)
    requires LicenseLadder(unlocked)
    requires CheckLicensePurchase(unlocked, zone, rubies, rep).LicenseBought?
    ensures LicenseLadder(unlocked + [zone])
  {
    var l := unlocked + [zone];
    assert forall z :: z in l <==> z in unlocked || z == zone;
    forall i, j | 0 <= i < j < |l|
      ensures l[i] != l[j]
    {
      if j == |l| - 1 {
        assert l[i] in unlocked;
      }
    }
  }

  /** A licence can only be bought once its predecessor on the ladder is owned. */
  lemma LadderOrder(unlocked: seq<ZoneColor>, zone: ZoneColor, rubies: real, rep: real)
    requires CheckLicensePurchase(unlocked, zone, rubies, rep).LicenseBought?
    ensures forall z :: ZoneRank(z) < ZoneRank(zone) && LicenseLadder(unlocked) ==> z in unlocked
  {
  }

  function LicenseLog(d: LicenseDecision): VisualEvent
  {
    match d
    case AlreadyOwned => Log("license_already_owned")
    case NeedsLicense(z) => Log(if z == Green then "requires_green_license" else "requires_yellow_license")
    case ShortOfRubies(p) => LogAmount("not_enough_rubies", p as real)
    case LicenseBought(p) => LogAmount("license_unlocked", p as real)
  }

  /** Outcome of the permit purchase guard chain, in the order the source checks. */
  datatype PermitDecision =
    | PermanentOwned
    | QuestOnly
    | NeedsZone(zone: ZoneColor)
    | ShortOfPermitRubies(price: int)
    | PermitBought(price: int)

  function BasePermitPrice(region: RegionId, kind: PermitType): int
  {
    if kind == Temporary then PermitPrices(region).temp else PermitPrices(region).perm
  }

  /** Runs the four checks of `buyPermit` in order. */
  function CheckPermitPurchase(permits: map<RegionId, Permit>, region: RegionId, kind: PermitType,
                               unlocked: seq<ZoneColor>, rubies: real, rep: real): (d: PermitDecision)
    ensures d == PermanentOwned <==> region in permits && permits[region].kind == Permanent
    ensures d == QuestOnly <==> d != PermanentOwned && BasePermitPrice(region, kind) == -1
    ensures d == QuestOnly ==> region == VoidChasm
    ensures d.NeedsZone? <==> d != PermanentOwned && d != QuestOnly &&
                              !HasRequiredLicense(unlocked, RegionZoneRequirement(region))
    ensures d.NeedsZone? ==> d.zone == RegionZoneRequirement(region)
    ensures d.ShortOfPermitRubies? || d.PermitBought? ==>
              HasRequiredLicense(unlocked, RegionZoneRequirement(region)) && BasePermitPrice(region, kind) >= 0 &&
              !(region in permits && permits[region].kind == Permanent)
    ensures d.ShortOfPermitRubies? ==>
              d.price == CalculatePermitPrice(BasePermitPrice(region, kind), rep) && rubies < d.price as real
    ensures d.PermitBought? ==>
              d.price == CalculatePermitPrice(BasePermitPrice(region, kind), rep) && rubies >= d.price as real &&
              0 <= d.price <= BasePermitPrice(region, kind)
  {
    if region in permits && permits[region].kind == Permanent then PermanentOwned
    else
      var base := BasePermitPrice(region, kind);
      if base == -1 then QuestOnly
      else if !HasRequiredLicense(unlocked, RegionZoneRequirement(region)) then NeedsZone(RegionZoneRequirement(region))
      else
        var price := CalculatePermitPrice(base, rep);
        if rubies < price as real then ShortOfPermitRubies(price) else PermitBought(price)
  }

  function PermitLog(d: PermitDecision): VisualEvent
  {
    match d
    case PermanentOwned => Log("permit_already_permanent")
    case QuestOnly => Log("region_quest_only")
    case NeedsZone(_) => Log("requires_zone_license")
    case ShortOfPermitRubies(p) => LogAmount("not_enough_rubies", p as real)
    case PermitBought(p) => LogAmount("permit_acquired", p as real)
  }

  /** Global reputation after a change, floored at 0. */
  function NewGlobalReputation(rep: real, amount: real): (r: real)
    ensures r >= 0.0
    ensures rep + amount >= 0.0 ==> r == rep + amount
  {
    Max(0.0, rep + amount)
  }

  /** The tier number strictly rose: the only case that is logged. */
  predicate TierRose(rep: real, amount: real)
  {
    GetReputationTier(NewGlobalReputation(rep, amount)).tier > GetReputationTier(rep).tier
  }

  /** A loss of integer reputation never counts as a tier rise. */
  lemma LossNeverRaisesTier(rep: int, amount: int)
    requires rep >= 0 && amount <= 0
    ensures !TierRose(rep as real, amount as real)
  {
    var n := NewGlobalReputation(rep as real, amount as real);
    var m := if rep + amount >= 0 then rep + amount else 0;
    assert n == m as real;
    DiscountMonotone(m, rep);
  }

  /** The licence, permit and reputation fields of the store. */
  class LicenseStore {
    var resources: Resources
    var currentCargoWeight: real
    var unlockedLicenses: seq<ZoneColor>
    var activePermits: map<RegionId, Permit>
    var globalReputation: real
    var actionLogQueue: seq<VisualEvent>

    /** The licence ladder holds and each permit is filed under its own region. */
    ghost predicate Valid()
      reads this
    {
      LicenseLadder(unlockedLicenses) &&
      forall r :: r in activePermits ==> activePermits[r].regionId == r
    }

    /**
     * Buys a zone licence. A failed check only appends its log line; a
     * success deducts the discounted price from rubies, appends the zone and
     * recomputes the cargo weight with `cargoWeight`.
     */
    method BuyLicense(zone: ZoneColor, cargoWeight: Resources -> real)
      requires Valid()
      modifies this
      ensures Valid()
      ensures var d := CheckLicensePurchase(old(unlockedLicenses), zone, Amount(old(resources), "rubies"), old(globalReputation));
              actionLogQueue == old(actionLogQueue) + [LicenseLog(d)] &&
              activePermits == old(activePermits) && globalReputation == old(globalReputation) &&
              (d.LicenseBought? ==>
                 resources == old(resources)["rubies" := Amount(old(resources), "rubies") - d.price as real] &&
                 unlockedLicenses == old(unlockedLicenses) + [zone] &&
                 currentCargoWeight == cargoWeight(resources)) &&
              (!d.LicenseBought? ==>
                 resources == old(resources) && unlockedLicenses == old(unlockedLicenses) &&
                 currentCargoWeight == old(currentCargoWeight))
    {
      if zone in unlockedLicenses {
        actionLogQueue := actionLogQueue + [Log("license_already_owned")];
        return;
      }
      if zone == Yellow && Green !in unlockedLicenses {
        actionLogQueue := actionLogQueue + [Log("requires_green_license")];
        return;
      }
      if zone == Red && Yellow !in unlockedLicenses {
        actionLogQueue := actionLogQueue + [Log("requires_yellow_license")];
        return;
      }
      var finalPrice := CalculatePermitPrice(LicensePrice(zone), globalReputation);
      var rubies := Amount(resources, "rubies");
      if rubies < finalPrice as real {
        actionLogQueue := actionLogQueue + [LogAmount("not_enough_rubies", finalPrice as real)];
        return;
      }
      LicensePurchaseKeepsLadder(unlockedLicenses, zone, rubies, globalReputation);
      var newResources := resources["rubies" := rubies - finalPrice as real];
      resources := newResources;
      currentCargoWeight := cargoWeight(newResources);
      unlockedLicenses := unlockedLicenses + [zone];
      actionLogQueue := actionLogQueue + [LogAmount("license_unlocked", finalPrice as real)];
    }

    /**
     * Buys a temporary or permanent permit for a region. A failed check only
     * appends its log line; a success stores a fresh permit (replacing a
     * temporary one) and deducts the discounted price.
     */
    method BuyPermit(region: RegionId, kind: PermitType, now: int, cargoWeight: Resources -> real)
      requires Valid()
      modifies this
      ensures Valid()
      ensures var d := CheckPermitPurchase(old(activePermits), region, kind, old(unlockedLicenses),
                                           Amount(old(resources), "rubies"), old(globalReputation));
              actionLogQueue == old(actionLogQueue) + [PermitLog(d)] &&
              unlockedLicenses == old(unlockedLicenses) && globalReputation == old(globalReputation) &&
              (d.PermitBought? ==>
                 resources == old(resources)["rubies" := Amount(old(resources), "rubies") - d.price as real] &&
                 activePermits == old(activePermits)[region := CreatePermit(region, kind, now)] &&
                 currentCargoWeight == cargoWeight(resources)) &&
              (!d.PermitBought? ==>
                 resources == old(resources) && activePermits == old(activePermits) &&
                 currentCargoWeight == old(currentCargoWeight))
    {
      var d := CheckPermitPurchase(activePermits, region, kind, unlockedLicenses,
                                   Amount(resources, "rubies"), globalReputation);
      actionLogQueue := actionLogQueue + [PermitLog(d)];
      if d.PermitBought? {
        var newResources := resources["rubies" := Amount(resources, "rubies") - d.price as real];
        resources := newResources;
        currentCargoWeight := cargoWeight(newResources);
        activePermits := activePermits[region := CreatePermit(region, kind, now)];
      }
    }

    /** Adds global reputation, floored at 0; a tier rise appends one log line. */
    method AddGlobalReputation(amount: real)
      requires Valid()
      modifies this
      ensures Valid()
      ensures globalReputation == NewGlobalReputation(old(globalReputation), amount)
      ensures actionLogQueue ==
                old(actionLogQueue) + (if TierRose(old(globalReputation), amount) then [Log("reputation_tier_up")] else [])
      ensures resources == old(resources) && unlockedLicenses == old(unlockedLicenses)
      ensures activePermits == old(activePermits) && currentCargoWeight == old(currentCargoWeight)
    {
      var oldTier := GetReputationTier(globalReputation);
      var newRep := Max(0.0, globalReputation + amount);
      var newTier := GetReputationTier(newRep);
      globalReputation := newRep;
      if newTier.tier > oldTier.tier {
        actionLogQueue := actionLogQueue + [Log("reputation_tier_up")];
      } else {
        assert actionLogQueue == actionLogQueue + [];
      }
    }
  }
}
