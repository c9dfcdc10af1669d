// Regional price modifiers of the market and the sell fee
// (constants/marketPrices.ts).

module MarketPrices {
  import opened GameTypes

  /**
   * `REGIONAL_PRICE_MODIFIERS`: per resource, the modifiers of the regions in
   * the order rust_valley, crystal_wastes, iron_gates, magma_core, void_chasm.
   */
  const PriceModifiers: map<string, seq<real>> := map[
      "clay" := [1.0, 0.8, 1.1, 1.3, 1.5],
      "stone" := [1.0, 0.7, 0.9, 1.2, 1.5],
      "copper" := [1.2, 1.0, 0.7, 1.1, 1.3],
      "iron" := [1.3, 1.1, 0.6, 1.0, 1.2],
      "silver" := [1.4, 1.2, 0.9, 0.8, 1.1],
      "gold" := [1.4, 1.2, 1.1, 0.7, 1.0],
      "titanium" := [1.5, 1.3, 1.2, 0.9, 0.8],
      "uranium" := [1.5, 1.3, 1.2, 1.0, 0.8],
      "nanoSwarm" := [1.5, 1.4, 1.3, 1.1, 0.7],
      "ancientTech" := [1.5, 1.3, 1.2, 1.0, 0.8],
      "rubies" := [1.3, 1.0, 1.1, 0.9, 1.2],
      "emeralds" := [1.5, 0.5, 1.2, 1.3, 1.1],
      "diamonds" := [1.5, 1.2, 1.3, 1.0, 0.8],
      "coal" := [1.0, 1.2, 0.8, 0.7, 1.3],
      "oil" := [1.2, 1.0, 0.9, 0.8, 1.1],
      "gas" := [1.3, 1.1, 1.0, 0.9, 0.8],
      "ice" := [1.5, 0.8, 1.1, 1.0, 0.7],
      "scrap" := [0.8, 1.1, 0.9, 1.0, 1.2],
      "credits" := [1.0, 1.0, 1.0, 1.0, 1.0],
      "repairKit" := [1.0, 1.1, 0.9, 1.2, 1.3],
      "coolantPaste" := [1.2, 1.0, 1.1, 0.8, 0.9],
      "advancedCoolant" := [1.3, 1.1, 1.2, 0.9, 0.8]
    ]

  /** The column of a region in the modifier table. */
  function RegionColumn(r: RegionId): (i: nat)
    ensures i < 5
  {
    match r
    case RustValley => 0
    case CrystalWastes => 1
    case IronGates => 2
    case MagmaCore => 3
    case VoidChasm => 4
  }

  /** A table entry, if the resource and the region both have one. */
  function TableEntry(resource: string, regionId: string): Option<real>
  {
    if resource in PriceModifiers && ParseRegion(regionId).Some? && RegionColumn(ParseRegion(regionId).value) < |PriceModifiers[resource]|
    then Some(PriceModifiers[resource][RegionColumn(ParseRegion(regionId).value)])
    else None
  }

  /** Every row has a modifier for each of the five regions, and each is positive. */
  lemma TableWellFormed()
    ensures forall k :: k in PriceModifiers ==> |PriceModifiers[k]| == 5
    ensures forall k, i :: k in PriceModifiers && 0 <= i < |PriceModifiers[k]| ==> PriceModifiers[k][i] > 0.0
  {
  }

  /** `getRegionalModifier`: the table entry, 1.0 when it is missing (or would read as false). */
  function GetRegionalModifier(resource: string, regionId: string): (m: real)
    ensures TableEntry(resource, regionId).None? ==> m == 1.0
    ensures TableEntry(resource, regionId).Some? && TableEntry(resource, regionId).value != 0.0 ==>
      m == TableEntry(resource, regionId).value
  {
    var entry := TableEntry(resource, regionId);
    if entry.Some? && entry.value != 0.0 then entry.value else 1.0
  }

  /** As every entry is positive, the fallback fires exactly on missing keys and every modifier is positive. */
  lemma ModifierIsEntryOrDefault(resource: string, regionId: string)
    ensures TableEntry(resource, regionId).Some? ==> GetRegionalModifier(resource, regionId) == TableEntry(resource, regionId).value
    ensures GetRegionalModifier(resource, regionId) > 0.0
    ensures resource in PriceModifiers && ParseRegion(regionId).Some? ==> TableEntry(resource, regionId).Some?
  {
    TableWellFormed();
  }

  /** Credits cost the same everywhere. */
  lemma CreditsEverywhereOne(regionId: RegionId)
    ensures GetRegionalModifier("credits", RegionKey(regionId)) == 1.0
  {
    ParseRegionKey(regionId);
  }

  /** `MARKET_SELL_FEE`: a fifth of the price is kept on a sale. */
  const MarketSellFee: real := 0.20
}
