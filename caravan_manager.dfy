// Caravans between the player's bases: loss risk, creation, arrival, the
// send check and the arrival countdown (services/caravanManager.ts).

module CaravanManager {
  import opened GameTypes
  import opened Caravans
  import opened RegionMath
  import Factions

  datatype CaravanStatus = InTransit | Delivered | Lost

  /** A caravan on its way from one base to another. */
  datatype Caravan = Caravan(
    id: string,
    tier: CaravanTier,
    fromBaseId: string,
    toBaseId: string,
    cargo: Resources,
    cargoWeight: real,
    departureTime: int,
    arrivalTime: int,
    status: CaravanStatus,
    lossChance: real)

  /** The more dangerous of two zones: red over yellow over green. */
  function MaxZone(a: ZoneColor, b: ZoneColor): (z: ZoneColor)
    ensures ZoneRank(z) == if ZoneRank(a) >= ZoneRank(b) then ZoneRank(a) else ZoneRank(b)
    ensures z == a || z == b
  {
    if a == Red || b == Red then Red
    else if a == Yellow || b == Yellow then Yellow
    else Green
  }

  /**
   * `calculateCaravanRisk`: the tier's base risk in the more dangerous of the
   * two regions' zones, halved with the INSURANCE perk.
   */
  function CalculateCaravanRisk(fromBase: PlayerBase, toBase: PlayerBase, tier: CaravanTier, activePerks: seq<string>): (risk: real)
    ensures var zone := MaxZone(Regions(fromBase.regionId).baseZoneColor, Regions(toBase.regionId).baseZoneColor);
            risk == (if "INSURANCE" in activePerks then 0.5 else 1.0) * BaseRisk(CaravanSpecs(tier), zone)
    ensures 0.0 <= risk <= 1.0
    ensures risk <= BaseRisk(CaravanSpecs(tier), Red)
  {
    var spec := CaravanSpecs(tier);
    var fromRegion := Regions(fromBase.regionId);
    var toRegion := Regions(toBase.regionId);
    var maxZone := MaxZone(fromRegion.baseZoneColor, toRegion.baseZoneColor);
    var risk := BaseRisk(spec, maxZone);
    if "INSURANCE" in activePerks then risk * 0.5 else risk
  }

  /** The risk does not depend on the direction of travel. */
  lemma RiskSymmetric(a: PlayerBase, b: PlayerBase, tier: CaravanTier, perks: seq<string>)
    ensures CalculateCaravanRisk(a, b, tier, perks) == CalculateCaravanRisk(b, a, tier, perks)
  {
    assert MaxZone(Regions(a.regionId).baseZoneColor, Regions(b.regionId).baseZoneColor)
        == MaxZone(Regions(b.regionId).baseZoneColor, Regions(a.regionId).baseZoneColor);
  }

  /**
   * `createCaravan` at time `now`. The random part of the id and the cargo
   * weight (computed by a helper that is not part of this model) are inputs.
   */
  function CreateCaravan(fromBase: PlayerBase, toBase: PlayerBase, cargo: Resources, cargoWeight: real,
                         tier: CaravanTier, activePerks: seq<string>, now: nat, randomSuffix: string): (c: Caravan)
    ensures c.id == "caravan_" + NatToString(now) + "_" + randomSuffix
    ensures c.status == InTransit && c.departureTime == now
    ensures c.arrivalTime == c.departureTime + CaravanSpecs(tier).travelTime && c.arrivalTime > now
    ensures c.fromBaseId == fromBase.id && c.toBaseId == toBase.id && c.cargo == cargo && c.tier == tier
    ensures c.lossChance == CalculateCaravanRisk(fromBase, toBase, tier, activePerks)
  {
    var spec := CaravanSpecs(tier);
    Caravan("caravan_" + NatToString(now) + "_" + randomSuffix, tier, fromBase.id, toBase.id, cargo, cargoWeight,
            now, now + spec.travelTime, InTransit, CalculateCaravanRisk(fromBase, toBase, tier, activePerks))
  }

  datatype Completion = Pending | Success | LostOnTheWay

  /** `checkCaravanCompletion` at time `now` with the random draw `draw` in [0, 1). */
  function CheckCaravanCompletion(caravan: Caravan, now: int, draw: real): (r: Completion)
    ensures now < caravan.arrivalTime <==> r == Pending
    ensures r == LostOnTheWay <==> now >= caravan.arrivalTime && draw < caravan.lossChance
  {
    if now < caravan.arrivalTime then Pending
    else if draw < caravan.lossChance then LostOnTheWay
    else Success
  }

  /** A caravan without risk always arrives. */
  lemma RisklessCaravanArrives(caravan: Caravan, now: int, draw: real)
    requires caravan.lossChance == 0.0 && draw >= 0.0
    ensures CheckCaravanCompletion(caravan, now, draw) != LostOnTheWay
  {
  }

  /** Why a caravan may not leave. */
  datatype SendCheck =
    | CanSend
    | OverCapacity(weight: real, capacityShown: real)
    | NotEnough(resource: string, needed: real, available: real)

  /** The capacity of a tier, 20% more with BULK_LOGISTICS. */
  function Capacity(tier: CaravanTier, activePerks: seq<string>): (c: real)
    ensures c == CaravanSpecs(tier).capacity * (if "BULK_LOGISTICS" in activePerks then 1.2 else 1.0)
  {
    var capacity := CaravanSpecs(tier).capacity;
    if "BULK_LOGISTICS" in activePerks then capacity * 1.2 else capacity
  }

  /**
   * What `canSendCaravan` answers. `cargo` lists the entries of the cargo
   * record in their order; `cargoWeight` is its weight.
   */
  function SendVerdict(cargo: seq<(string, real)>, cargoWeight: real, tier: CaravanTier,
                       fromBaseResources: Resources, activePerks: seq<string>): (r: SendCheck)
    ensures r == CanSend <==>
      cargoWeight <= Capacity(tier, activePerks) &&
      forall j :: 0 <= j < |cargo| ==> Amount(fromBaseResources, cargo[j].0) >= cargo[j].1
    ensures r.OverCapacity? <==> cargoWeight > Capacity(tier, activePerks)
    ensures r.NotEnough? ==> exists j :: 0 <= j < |cargo| && r.resource == cargo[j].0 && r.needed == cargo[j].1 &&
                                        r.available == Amount(fromBaseResources, cargo[j].0) && r.available < r.needed
  {
    var capacity := Capacity(tier, activePerks);
    if cargoWeight > capacity then OverCapacity(cargoWeight, Floor(capacity))
    else
      var i := FirstUncovered(cargo, fromBaseResources);
      if i < |cargo| then NotEnough(cargo[i].0, cargo[i].1, Amount(fromBaseResources, cargo[i].0))
      else CanSend
  }

  /** `canSendCaravan`: the capacity check, then the entries in order. */
  method CanSendCaravan(cargo: seq<(string, real)>, cargoWeight: real, tier: CaravanTier,
                        fromBaseResources: Resources, activePerks: seq<string>) returns (r: SendCheck)
    ensures r == SendVerdict(cargo, cargoWeight, tier, fromBaseResources, activePerks)
  {
    var capacity := CaravanSpecs(tier).capacity;
    if "BULK_LOGISTICS" in activePerks {
      capacity := capacity * 1.2;
    }
    if cargoWeight > capacity {
      return OverCapacity(cargoWeight, Floor(capacity));
    }
    var i := 0;
    while i < |cargo|
      invariant 0 <= i <= |cargo|
      invariant forall j :: 0 <= j < i ==> Amount(fromBaseResources, cargo[j].0) >= cargo[j].1
    {
      var (resource, amount) := cargo[i];
      var available := Amount(fromBaseResources, resource);
      if available < amount {
        FirstUncoveredAt(cargo, fromBaseResources, i);
        return NotEnough(resource, amount, available);
      }
      i := i + 1;
    }
    FirstUncoveredAt(cargo, fromBaseResources, i);
    r := CanSend;
  }

  /** The perk factors hard-coded here are the values of the faction catalogue. */
  lemma PerkFactorsMatchCatalogue(tier: CaravanTier)
    ensures Factions.Perks(Corporate)[2].id == "INSURANCE" &&
            1.0 - Factions.Perks(Corporate)[2].value.value == 0.5
    ensures Factions.Perks(Corporate)[1].id == "BULK_LOGISTICS" &&
            Capacity(tier, ["BULK_LOGISTICS"]) == CaravanSpecs(tier).capacity * (1.0 + Factions.Perks(Corporate)[1].value.value)
  {
    Factions.CaravanPerkValues();
  }

  /** `getCaravanETA` at time `now`. */
  datatype Eta = Eta(arrived: bool, remainingMs: int, remainingMinutes: int)

  function GetCaravanEta(caravan: Caravan, now: int): (e: Eta)
    ensures e.remainingMs >= 0 && e.remainingMs >= caravan.arrivalTime - now
    ensures e.remainingMs == 0 || e.remainingMs == caravan.arrivalTime - now
    ensures e.arrived <==> e.remainingMs == 0
    ensures (e.remainingMinutes - 1) * 60000 < e.remainingMs <= e.remainingMinutes * 60000
  {
    var arrived := now >= caravan.arrivalTime;
    var remainingMs := if caravan.arrivalTime - now >= 0 then caravan.arrivalTime - now else 0;
    Eta(arrived, remainingMs, Ceil(remainingMs as real / 60000.0))
  }
}
