// Buying and selling at a station's market (store/slices/marketSlice.ts).
// Prices come from the market price engine, which is not part of this model:
// each action takes the price the engine quotes as an input.

module MarketSlice {
  import opened GameTypes

  datatype TradeKind = Buy | Sell

  /** One entry of the transaction history. */
  datatype MarketTransaction = MarketTransaction(
    kind: TradeKind,
    resource: string,
    amount: real,
    pricePerUnit: real,
    totalCost: real,
    regionId: RegionId,
    timestamp: int)

  /** The fields a trade writes. */
  datatype Wallet = Wallet(resources: Resources, currentCargoWeight: real, history: seq<MarketTransaction>)

  /** The market opens only where the region's (first) base is a station. */
  predicate AtStation(bases: seq<PlayerBase>, region: RegionId)
  {
    var b := FindBase(bases, region, false);
    b.Some? && b.value.baseType == Station
  }

  /**
   * `buyFromMarket` at the quoted unit price `finalPrice`. Rubies pay for
   * the purchase; the bought resource is written after the rubies, so buying
   * rubies themselves ends at old rubies + amount.
   */
  function BuyOutcome(w: Wallet, bases: seq<PlayerBase>, region: RegionId, resource: string, amount: real,
                      finalPrice: real, now: int, cargoWeight: Resources -> real): (w': Wallet)
    ensures !AtStation(bases, region) || Amount(w.resources, "rubies") < finalPrice * amount ==> w' == w
    ensures AtStation(bases, region) && Amount(w.resources, "rubies") >= finalPrice * amount ==>
      |w'.history| == |w.history| + 1 && w'.history[..|w.history|] == w.history &&
      w'.history[|w.history|] == MarketTransaction(Buy, resource, amount, finalPrice, finalPrice * amount, region, now) &&
      Amount(w'.resources, resource) == Amount(w.resources, resource) + amount &&
      (resource != "rubies" ==> Amount(w'.resources, "rubies") == Amount(w.resources, "rubies") - finalPrice * amount) &&
      (forall k :: k != resource && k != "rubies" ==> Amount(w'.resources, k) == Amount(w.resources, k)) &&
      w'.currentCargoWeight == cargoWeight(w'.resources)
  {
    var totalCost := finalPrice * amount;
    if !AtStation(bases, region) || Amount(w.resources, "rubies") < totalCost then w
    else
      var paid := w.resources["rubies" := Amount(w.resources, "rubies") - totalCost];
      var newResources := paid[resource := Amount(w.resources, resource) + amount];
      Wallet(newResources, cargoWeight(newResources),
             w.history + [MarketTransaction(Buy, resource, amount, finalPrice, totalCost, region, now)])
  }

  /** Buying rubies with rubies: the later key wins and the payment is lost from view. */
  lemma BuyingRubiesIgnoresCost(w: Wallet, bases: seq<PlayerBase>, region: RegionId, amount: real,
                                finalPrice: real, now: int, cargoWeight: Resources -> real)
    requires AtStation(bases, region) && Amount(w.resources, "rubies") >= finalPrice * amount
    ensures Amount(BuyOutcome(w, bases, region, "rubies", amount, finalPrice, now, cargoWeight).resources, "rubies")
            == Amount(w.resources, "rubies") + amount
  {
  }

  /**
   * `sellToMarket` with the engine's quote: `sellPrice` per unit and
   * `totalRevenue` in all.
   */
  function SellOutcome(w: Wallet, bases: seq<PlayerBase>, region: RegionId, resource: string, amount: real,
                       sellPrice: real, totalRevenue: real, now: int, cargoWeight: Resources -> real): (w': Wallet)
    ensures !AtStation(bases, region) || Amount(w.resources, resource) < amount ==> w' == w
    ensures AtStation(bases, region) && Amount(w.resources, resource) >= amount ==>
      |w'.history| == |w.history| + 1 && w'.history[..|w.history|] == w.history &&
      w'.history[|w.history|] == MarketTransaction(Sell, resource, amount, sellPrice, totalRevenue, region, now) &&
      Amount(w'.resources, resource) == Amount(w.resources, resource) - amount &&
      (resource != "rubies" ==> Amount(w'.resources, "rubies") == Amount(w.resources, "rubies") + totalRevenue) &&
      (forall k :: k != resource && k != "rubies" ==> Amount(w'.resources, k) == Amount(w.resources, k)) &&
      w'.currentCargoWeight == cargoWeight(w'.resources)
  {
    if !AtStation(bases, region) || Amount(w.resources, resource) < amount then w
    else
      var paid := w.resources["rubies" := Amount(w.resources, "rubies") + totalRevenue];
      var newResources := paid[resource := Amount(w.resources, resource) - amount];
      Wallet(newResources, cargoWeight(newResources),
             w.history + [MarketTransaction(Sell, resource, amount, sellPrice, totalRevenue, region, now)])
  }

  /** A sale never leaves the sold resource below zero when it started at or above zero. */
  lemma SaleKeepsStockNonNegative(w: Wallet, bases: seq<PlayerBase>, region: RegionId, resource: string, amount: real,
                                  sellPrice: real, totalRevenue: real, now: int, cargoWeight: Resources -> real)
    requires Amount(w.resources, resource) >= 0.0
    ensures Amount(SellOutcome(w, bases, region, resource, amount, sellPrice, totalRevenue, now, cargoWeight).resources, resource) >= 0.0
  {
  }

  /** The history grows by exactly one entry per successful trade and never shrinks. */
  lemma HistoryOnlyGrows(w: Wallet, bases: seq<PlayerBase>, region: RegionId, resource: string, amount: real,
                         p: real, q: real, now: int, cargoWeight: Resources -> real)
    ensures var b := BuyOutcome(w, bases, region, resource, amount, p, now, cargoWeight);
            (|b.history| == |w.history| && b == w) || (|b.history| == |w.history| + 1 && b.history[..|w.history|] == w.history)
    ensures var s := SellOutcome(w, bases, region, resource, amount, p, q, now, cargoWeight);
            (|s.history| == |w.history| && s == w) || (|s.history| == |w.history| + 1 && s.history[..|w.history|] == w.history)
  {
  }

  /** The market's part of the store. */
  class MarketStore {
    var resources: Resources
    var currentCargoWeight: real
    var marketTransactionHistory: seq<MarketTransaction>
    var playerBases: seq<PlayerBase>
    var currentRegion: RegionId

    function Contents(): Wallet
      reads this
    {
      Wallet(resources, currentCargoWeight, marketTransactionHistory)
    }

    /** The checks and the trade of `buyFromMarket`, on the wallet's values. */
    static method Bought(w: Wallet, bases: seq<PlayerBase>, region: RegionId, resource: string, amount: real,
                      finalPrice: real, now: int, cargoWeight: Resources -> real) returns (w': Wallet)
      ensures w' == BuyOutcome(w, bases, region, resource, amount, finalPrice, now, cargoWeight)
    {
      var currentBase := FindBase(bases, region, false);
      if currentBase.None? || currentBase.value.baseType != Station {
        return w;
      }
      var totalCost := finalPrice * amount;
      if Amount(w.resources, "rubies") < totalCost {
        return w;
      }
      var newResources := w.resources["rubies" := Amount(w.resources, "rubies") - totalCost];
      newResources := newResources[resource := Amount(w.resources, resource) + amount];
      w' := Wallet(newResources, cargoWeight(newResources),
                   w.history + [MarketTransaction(Buy, resource, amount, finalPrice, totalCost, region, now)]);
    }

    method BuyFromMarket(resource: string, amount: real, finalPrice: real, now: int, cargoWeight: Resources -> real)
      modifies this
      ensures Contents() == BuyOutcome(old(Contents()), playerBases, currentRegion, resource, amount, finalPrice, now, cargoWeight)
      ensures playerBases == old(playerBases) && currentRegion == old(currentRegion)
    {
      var w := Bought(Contents(), playerBases, currentRegion, resource, amount, finalPrice, now, cargoWeight);
      marketTransactionHistory := w.history;
      currentCargoWeight := w.currentCargoWeight;
      resources := w.resources;
    }

    /** The checks and the trade of `sellToMarket`, on the wallet's values. */
    static method Sold(w: Wallet, bases: seq<PlayerBase>, region: RegionId, resource: string, amount: real,
                       sellPrice: real, totalRevenue: real, now: int, cargoWeight: Resources -> real) returns (w': Wallet)
      ensures w' == SellOutcome(w, bases, region, resource, amount, sellPrice, totalRevenue, now, cargoWeight)
    {
      var currentBase := FindBase(bases, region, false);
      if currentBase.None? || currentBase.value.baseType != Station {
        return w;
      }
      if Amount(w.resources, resource) < amount {
        return w;
      }
      var newResources := w.resources["rubies" := Amount(w.resources, "rubies") + totalRevenue];
      newResources := newResources[resource := Amount(w.resources, resource) - amount];
      w' := Wallet(newResources, cargoWeight(newResources),
                   w.history + [MarketTransaction(Sell, resource, amount, sellPrice, totalRevenue, region, now)]);
    }

    method SellToMarket(resource: string, amount: real, sellPrice: real, totalRevenue: real, now: int,
                        cargoWeight: Resources -> real)
      modifies this
      ensures Contents() == SellOutcome(old(Contents()), playerBases, currentRegion, resource, amount,
                                        sellPrice, totalRevenue, now, cargoWeight)
      ensures playerBases == old(playerBases) && currentRegion == old(currentRegion)
    {
      var w := Sold(Contents(), playerBases, currentRegion, resource, amount, sellPrice, totalRevenue, now, cargoWeight);
      marketTransactionHistory := w.history;
      currentCargoWeight := w.currentCargoWeight;
      resources := w.resources;
    }
  }
}
